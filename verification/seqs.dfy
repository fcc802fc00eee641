/** Order-preserving sequence operations that the loops of the model are specified by.
    They recurse on the last element, as loops that append do. */
module Seqs {

  function Init<T>(s: seq<T>): seq<T>
    requires s != []
  {
    s[..|s| - 1]
  }

  function Last<T>(s: seq<T>): T
    requires s != []
  {
    s[|s| - 1]
  }

  ghost predicate Distinct<T>(s: seq<T>) {
    forall i, j :: 0 <= i < j < |s| ==> s[i] != s[j]
  }

  ghost function SetOf<T>(s: seq<T>): set<T> {
    set x | x in s
  }

  function Not<T>(p: T -> bool): T -> bool {
    x => !p(x)
  }

  function Filter<T>(s: seq<T>, p: T -> bool): seq<T> {
    if s == [] then []
    else Filter(Init(s), p) + (if p(Last(s)) then [Last(s)] else [])
  }

  function Flatten<T>(ss: seq<seq<T>>): seq<T> {
    if ss == [] then [] else Flatten(Init(ss)) + Last(ss)
  }

  /** How a loop step extends a Filter. */
  lemma FilterStep<T>(s: seq<T>, i: nat, p: T -> bool)
    requires i < |s|
    ensures Filter(s[..i + 1], p) == Filter(s[..i], p) + (if p(s[i]) then [s[i]] else [])
  {
    assert Init(s[..i + 1]) == s[..i];
  }

  lemma {:induction false} FilterMember<T>(s: seq<T>, p: T -> bool, x: T)
    ensures x in Filter(s, p) <==> x in s && p(x)
  {
    if s == [] {
    } else {
      FilterMember(Init(s), p, x);
      assert s == Init(s) + [Last(s)];
    }
  }

  lemma {:induction false} FilterMultiset<T>(s: seq<T>, p: T -> bool)
    ensures multiset(Filter(s, p)) + multiset(Filter(s, Not(p))) == multiset(s)
  {
    if s == [] {
    } else {
      var most, last := Init(s), Last(s);
      assert s == most + [last];
      FilterMultiset(most, p);
      assert Not(p)(last) <==> !p(last);
      assert Filter(s, p) == Filter(most, p) + (if p(last) then [last] else []);
      assert Filter(s, Not(p)) == Filter(most, Not(p)) + (if p(last) then [] else [last]);
    }
  }

  /** Filtering twice is filtering by the conjunction. */
  lemma {:induction false} FilterChain<T>(s: seq<T>, p: T -> bool, q: T -> bool, r: T -> bool)
    requires forall x :: x in s ==> (r(x) <==> p(x) && q(x))
    ensures Filter(Filter(s, p), q) == Filter(s, r)
  {
    if s == [] {
    } else {
      assert Last(s) in s;
      FilterChain(Init(s), p, q, r);
      var f := Filter(s, p);
      if p(Last(s)) {
        assert Init(f) == Filter(Init(s), p) && Last(f) == Last(s);
      } else {
        assert f == Filter(Init(s), p);
      }
    }
  }

  lemma {:induction false} FilterSame<T>(s: seq<T>, p: T -> bool, q: T -> bool)
    requires forall x :: x in s ==> (p(x) <==> q(x))
    ensures Filter(s, p) == Filter(s, q)
  {
    if s == [] {
    } else {
      var most, last := Init(s), Last(s);
      assert s == most + [last] && last in s;
      assert forall x :: x in most ==> x in s;
      FilterSame(most, p, q);
    }
  }

  lemma {:induction false} FilterAll<T>(s: seq<T>, p: T -> bool)
    requires forall x :: x in s ==> p(x)
    ensures Filter(s, p) == s
  {
    if s == [] {
    } else {
      var most, last := Init(s), Last(s);
      assert s == most + [last] && last in s;
      assert forall x :: x in most ==> x in s;
      FilterAll(most, p);
    }
  }

  lemma {:induction false} FilterConcat<T>(s: seq<T>, t: seq<T>, p: T -> bool)
    ensures Filter(s + t, p) == Filter(s, p) + Filter(t, p)
  {
    if t == [] {
      assert s + t == s;
    } else {
      assert Init(s + t) == s + Init(t) && Last(s + t) == Last(t);
      FilterConcat(s, Init(t), p);
    }
  }

  lemma FilterNone<T>(s: seq<T>, p: T -> bool)
    requires forall x :: x in s ==> !p(x)
    ensures Filter(s, p) == []
  {
    var f := Filter(s, p);
    if f != [] {
      FilterMember(s, p, f[0]);
    }
  }

  lemma FlattenAppend<T>(ss: seq<seq<T>>, s: seq<T>)
    ensures Flatten(ss + [s]) == Flatten(ss) + s
  {
    assert Init(ss + [s]) == ss;
  }

  lemma {:induction false} FlattenConcat<T>(a: seq<seq<T>>, b: seq<seq<T>>)
    ensures Flatten(a + b) == Flatten(a) + Flatten(b)
  {
    if b == [] {
      assert a + b == a;
    } else {
      FlattenConcat(a, Init(b));
      var f, g, z := Flatten(a), Flatten(Init(b)), Last(b);
      assert Init(a + b) == a + Init(b) && Last(a + b) == z;
      assert Flatten(b) == g + z;
      assert (f + g) + z == f + (g + z);
    }
  }

  lemma {:induction false} FlattenMember<T>(ss: seq<seq<T>>, x: T)
    ensures x in Flatten(ss) <==> exists i :: 0 <= i < |ss| && x in ss[i]
  {
    if ss == [] {
    } else {
      FlattenMember(Init(ss), x);
      if x in Flatten(Init(ss)) {
        var i :| 0 <= i < |ss| - 1 && x in Init(ss)[i];
        assert x in ss[i];
      }
      if x in Last(ss) {
        assert x in ss[|ss| - 1];
      }
      if i :| 0 <= i < |ss| && x in ss[i] {
        assert i < |ss| - 1 ==> x in Init(ss)[i];
      }
    }
  }

  /** A sequence drawn from a duplicate-free one has no duplicates. */
  lemma DistinctFromMultiset<T>(s: seq<T>, t: seq<T>)
    requires Distinct(t) && multiset(s) <= multiset(t)
    ensures Distinct(s)
  {
    forall i, j | 0 <= i < j < |s| ensures s[i] != s[j] {
      if s[i] == s[j] {
        TwiceIn(s, i, j);
        OnceIn(t, s[i]);
      }
    }
  }

  lemma TwiceIn<T>(s: seq<T>, i: nat, j: nat)
    requires i < j < |s| && s[i] == s[j]
    ensures multiset(s)[s[i]] >= 2
  {
    assert s == s[..j] + [s[j]] + s[j + 1..];
    assert s[i] in s[..j];
  }

  lemma {:induction false} OnceIn<T>(t: seq<T>, x: T)
    requires Distinct(t)
    ensures multiset(t)[x] <= 1
  {
    if t == [] {
    } else {
      OnceIn(Init(t), x);
      assert t == Init(t) + [Last(t)];
      assert Last(t) !in Init(t);
    }
  }

  /** Members of different pieces of a duplicate-free whole differ. */
  lemma {:induction false} PiecesDisjoint<T>(ss: seq<seq<T>>, i: nat, j: nat, x: T)
    requires Distinct(Flatten(ss)) && i < j < |ss|
    requires x in ss[i]
    ensures x !in ss[j]
  {
    var f, n := Flatten(Init(ss)), |ss| - 1;
    assert Flatten(ss) == f + ss[n];
    if j < n {
      assert forall a, b :: 0 <= a < b < |f| ==> f[a] == Flatten(ss)[a] && f[b] == Flatten(ss)[b];
      PiecesDisjoint(Init(ss), i, j, x);
    } else {
      FlattenMember(Init(ss), x);
      assert x in Init(ss)[i];
      var a :| 0 <= a < |f| && f[a] == x;
      forall b | 0 <= b < |ss[n]| ensures ss[n][b] != x {
        assert Flatten(ss)[a] == x && Flatten(ss)[|f| + b] == ss[n][b];
      }
    }
  }
}
