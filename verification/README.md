# splitfs, verified

splitfs turns a directory into content-addressed encrypted parts, packs small files into bundles,
uploads parts, bundles and an index to a storage service, and later serves any byte range of any file
from there. This project models that pipeline over an abstract disk and an abstract storage service and
proves what it is for:

* what was scanned, bundled and uploaded is what is read, byte for byte, for every file, offset and
  length (`RoundTrip`, and `StaleRecords` for files opened before an upload);
* whenever an index is online, everything it names is online, wherever the writer stops, and the reader
  serves the empty database or a published one (`Protocol`, `UploadCommand`, `Serving`);
* the bundles are a partition of the suitable files that does not depend on any iteration order, within
  the size bounds, and bundles and links agree (`Grouping`, `GroupingLaws`, `Splitting`, `Bundling`,
  `BundleLaws`, `ScannedDatabases`);
* reading a file from the middle of a bundle refines reading its single part, down to the counter
  arithmetic of the cipher (`Ctr`, `CryptoReading`, `Readers`, `Opening`);
* an incremental scan is a full scan, over any history of runs (`ScanningFile`, `ScanningFolder`);
* cleaning removes no part that a database needs, under an exact condition that scans meet, and leaves
  nothing unnecessary (`Cleaning`, `CleanLaws`);
* an upload saves nothing twice, and a second one saves an index only (`Uploading`).

Code that the repository writes with loops and in-place updates is a `method` or a `class` here, proved
against functions; the laws are lemmas about those functions. `Upload`, `Clean` and the upload command
record their changes of the storage in a ghost log, and the log is proved to be a run of the step system
in `Protocol`, so the safety results hold for the methods and for every point at which they may stop.

## Modules

| file | what it models |
|---|---|
| primitives.dfy, seqs.dfy, types.dfy, paths.dfy | bytes and errors, sequences, the database, path order |
| ctr.dfy, creader.dfy, readers.dfy | the cipher position, the encrypting reader, readers of ranges |
| scanfile.dfy, scanfolder.dfy | scanning one file, scanning a folder with the old database as a cache |
| split.dfy, grouping.dfy, grouping_laws.dfy, bundles.dfy, bundle_laws.dfy, twins.dfy | bundling |
| storage.dfy | the storage service |
| clean.dfy, clean_laws.dfy | garbage collection of the storage |
| protocol.dfy | the writer and the reader as a step system |
| consistency.dfy, scanned.dfy, upload.dfy | databases that describe a disk, those that a scan produces, uploading |
| open.dfy, webdav.dfy | choosing where to read from, opening, the served file system and its files |
| command.dfy, roundtrip.dfy, stale.dfy | the upload command, upload followed by reading, reading with an older record |

## Hypotheses

* AES, SHA-512, MD5, key and name derivation, and zstd are uninterpreted functions (`Crypto`). Assumed:
  data keys have a length that AES accepts, decompression inverts a deterministic compression, and SHA-512,
  MD5 and storage names do not collide among the finitely many byte strings in `occurs`. Where a result
  needs it, it says which strings must be among them (`DataOccurs`, `ContentsOccur`, `NoCollisions`). For a
  folder these are its parts, their encrypted forms, and the hash sequences of its bundle groups
  (`HashedStrings`): few strings, as `FewStrings` proves.
* Compression is used when a test on the two sizes says so; the test implies that compression saves bytes.
* The storage service saves atomically, gives fresh ids, reports the MD5 sum of the content, and removes the
  file with an id if there is one. Each call may fail, unless the service is declared reliable. The cached
  file list may or may not follow the caller's own changes; an update lists what is online, in any order. A
  lookup with an empty MD5 sum matches every sum, as `core/open_internal_test.go:96-134` relies on.
* Any two scans of a folder are consistent: equal path, size and time mean equal content. The disk does not
  change between scan and upload.
* Bundle files that are online already contain what their names say, and the contents of part files are among
  `occurs` (`Genuine`); both hold for an empty storage, and uploading and cleaning keep them, wherever they
  stop.
* The readers of the storage library read a sub-range of a file, or the concatenation of files; a cache in
  between is transparent. A read may stop short or fail.
* The index codec decodes what it encodes.
* One writer at a time. The reader's steps interleave with the writer's arbitrarily.

## Where the code is not what one would expect

* "Every linked file is listed in its bundle" is false. Two groups with the same contents in the same order
  get one bundle id, and the later one overwrites the content list of the earlier (`db/bundle.go:49`).
  `ScannedLinkedIsListedIff` proves that it holds if and only if no two bundle groups of the folder have
  equal hash sequences; `LinkedNotListed` gives a folder for which it fails, whatever the iteration order.
  Reading does not suffer: `BundleReadRefinesPartRead` covers it, since a file that is not listed is read
  from its part.
* Cleaning compares MD5 sums literally, while a lookup ignores an empty one, and it compares with one part
  for each name and sum. So a 128-byte-named part without an MD5 sum, or of another size than one with its
  name and sum, would be removed although the database needs it. `CleanIsSafeIff` gives the exact condition,
  for part names and for bundle names, for all databases whose MD5 sums contain no bar (they are
  hexadecimal); scanned databases meet it (`ScannedIsPublishable`, `AgreeIsSettled`).
* The prefix loop of phase 3 does nothing if the longest path has length 0. `PrefixLoopFinishes` therefore
  has one exception, a single remaining file with an empty path, which a scan does not produce.
* A file that was opened before the served database was replaced is read with its older record and the
  newer database (`webdav/file.go:69`). `StaleRecordReads` proves when the older record is still read right:
  if and only if its bundle link cannot be used, or the bundle holds the old stored form at the position
  of the path, where its current stored form begins. So a file that is unchanged, or
  uncompressed and only appended to, is read right.
  `RenamedIsReadWrong` gives two files, renamed between two uploads, of which one is read with the content
  of the other.
* A seek with an unknown `whence` goes to the start of the file, and so does one to a negative position.

## Model

| member | source | states |
|---|---|---|
| Ctr.CounterBlockDenotes | encoding/crypto.go:30-34 | the 16 bytes of the initial counter are the big-endian form of the block number, modulo 2^128 (NIST SP 800-38A, Appendix B.1) |
| Ctr.Increment | encoding/crypto.go:41 | the in-place increment with carry turns the counter block of n into that of n + 1 |
| Ctr.CtrStream.XorKeyStream | encoding/crypto.go:41-50 | n bytes at stream position pos are XORed with the keystream bytes pos, pos + 1, ..., the others are unchanged, and the position advances by n (NIST SP 800-38A, section 6.5) |
| Ctr.CryptBytes | encoding/crypto.go:22-51 | data is XORed in place with the keystream from the offset on; it fails, without a change, exactly for a bad key length or a negative skip |
| Ctr.CryptConcat | encoding/crypto.go:43-50 | encrypting a ++ b at o is encrypting a at o and b at o + length of a |
| Ctr.CryptTwice | encoding/crypto.go:12-15 | encrypting twice at the same offset is the identity, for every offset, length and key |
| Ctr.CryptSlice | encoding/crypto.go:9-11 | a slice of a ciphertext is the ciphertext of the slice at its own offset |
| Ctr.CryptIsCounterMode | encoding/crypto.go:22-51 | byte i at an offset is XORed with byte (offset + i) % 16 of the encryption of the 16-byte big-endian number (offset + i) / 16, modulo 2^128: the counter starts at 0 (NIST SP 800-38A, section 6.5) |
| CryptoReading.CryptoReader.Read | encoding/creader.go:28-43 | whatever the read sizes and short reads of the inner reader, the output so far is the one-shot encryption of what was consumed so far |
| CryptoReading.ReadAll | encoding/creader.go:28-43 | reading to the end in chunks of any size gives the encryption of the rest of the inner data at the opening offset |
| CryptoReading.ChunkingDoesNotMatter | encoding/creader.go:37-39 | encrypting pieces at running offsets is encrypting their concatenation |
| ScanningFile.TryCompression | db/scanfile.go:124-151 | only files up to 1 MB whose compression pays are compressed; otherwise the storage size is the file size (StorageSizes says so of the record) |
| ScanningFile.PlainSha512 | db/scanfile.go:174-188 | hash and length of exactly the bytes of one part, wherever the file position was before |
| ScanningFile.CryptMd5 | db/scanfile.go:192-240 | the MD5 sum of what an upload stores for the part; errors exactly for a compressed second part and for a wrong size |
| ScanningFile.ScanFile | db/scanfile.go:18-94 | the part loop ends and never fails: the size check and the second-part error are unreachable |
| ScanningFile.PartsRebuildFile | db/scanfile.go:40-81 | ceil(size / PartSize) parts, all but the last of length PartSize, none empty, whose plaintexts concatenate to the file |
| ScanningFile.CompressedIsOnePart | db/scanfile.go:130-147 | a compressed file has exactly one part, the whole file |
| ScanningFile.StorageSizes | db/scanfile.go:57-64 | a file is stored compressed, in the size of its compressed form, exactly if it has at most 1 MB and compression pays, else in its own size; a single part is never stored in more bytes than the file has; exactly empty files have no parts |
| ScanningFolder.CloneWithoutBundles | db/scanfolder.go:22-32 | a fresh copy of the old database without bundles and links; the old database is not touched |
| ScanningFolder.VisitElement | db/scanfolder.go:57-132 | one walk step: a changed element is scanned, an unchanged one taken from the cache with new folder content, and removed from the cache |
| ScanningFolder.FromScan | db/scanfolder.go:18-146 | the result and the changed flag are those of looking every element up in the complete old database, although it shrinks during the walk; the caller's old database is not modified |
| ScanningFolder.ResetDoesNotMatter | db/scanfolder.go:31-32 | bundles and links of the old database have no influence on a scan |
| ScanningFolder.CacheHit | db/scanfolder.go:76-80 | an element with unchanged attributes gets the record that scanning it would give |
| ScanningFolder.EarlierScanIsEnough | db/scanfolder.go:22-133 | with an empty old database, or one of a consistent earlier scan with any bundles in it, the result is that of a scan without a cache |
| ScanningFolder.IncrementalEqualsFull | db/scanfolder.go:18-146 | over any history of disks and runs, with bundles made in between and with runs that save nothing, every incremental scan equals the full scan, and its cache is empty or a full scan of some earlier disk |
| ScanningFolder.ChangedIff | db/scanfolder.go:80-137 | the flag is set if and only if some path is new, gone, or has another size, kind or time |
| ScanningFolder.UnchangedKeepsFiles | db/scanfolder.go:121-124 | if the flag is not set, the old database differs from a fresh scan at most in folder listings |
| ScanningFolder.RecordsAreKept | db/scanfolder.go:76-124 | an element whose size, kind and time are those of its record in the old database keeps that record, whatever its content is now, without a link and with the new folder listing; every other element is scanned |
| ScanningFolder.ListingsAreCurrent | db/scanfolder.go:121-124 | the folder listings of the result are those of the walk, also of elements that are taken from the cache |
| ScanningFolder.VisitedBeforeError | db/scanfolder.go:39-49 | the elements that are scanned are those before the first walk error, in order, and that error is returned |
| Paths.LessMeans | db/bundle.go:92-94 | the sort order is byte-wise: at the first difference the smaller byte, or the end, comes first |
| Splitting.SplitBigBundles | db/bundle.go:225-282 | the flattened sequence of files is kept exactly |
| Splitting.GreedyUnique | db/bundle.go:253-263 | the pieces are the only way to cut a group such that every piece but the last is the shortest one above PartSize |
| Splitting.ChopIsGreedy | db/bundle.go:253-263 | the loop cuts in that way |
| Splitting.SplitBounds | db/bundle.go:243-263 | a group of at most 2*PartSize is not split; for files stored in less than MaxFileSizeToBundle, as all candidates of a scan are (ScannedAreSmall): pieces total at most 2*PartSize; every non-final one lies strictly between PartSize and PartSize + MaxFileSizeToBundle and has more than one file; a group of size S > 2*PartSize gives more than one and at most ceil(S / PartSize) pieces |
| Grouping.CollectEligible | db/bundle.go:83-88 | for every order of the map: exactly the suitable files, each once |
| Grouping.TakeGroups | db/bundle.go:176-201 | for every order of the map, while the list shrinks: exactly the groups that are large in the full list are taken, and nothing is lost or doubled |
| Grouping.PrefixGroups | db/bundle.go:152-202 | the prefix loop ends, and its groups and leftovers do not depend on any map order |
| Grouping.FindGroups | db/bundle.go:76-222 | every group has at least two files, all suitable ones of the database; the groups are the order-free set of groups without singletons, and every candidate is in one group before that, or left over, exactly once |
| GroupingLaws.NeverSeparated | db/bundle.go:160-202 | files that stay and share the prefix of a round are taken together or not at all in all later rounds |
| GroupingLaws.DeepestPrefix | db/bundle.go:160-202 | all files of a group taken at prefix length c share that prefix; if c > 0 the group totals more than PartSize/2; its sub-groups by any longer prefix total at most PartSize/2 |
| GroupingLaws.PrefixLoopFinishes | db/bundle.go:160-202 | no file is left after phase 3, but for a single file with an empty path |
| GroupingLaws.Partition | db/bundle.go:76-222 | the candidates are the files that are no folder, have more than 0 and less than 12 MB, and one part; each is in at most one group, other files are in none, and one is dropped if and only if it is alone in its group after splitting |
| GroupingLaws.NeverMixed | db/bundle.go:96-142 | no group mixes files stored in less than 12 kB with others, or, of the others, compressed files with uncompressed ones |
| GroupingLaws.PhaseTogether | db/bundle.go:96-142 | all files stored in less than 12 kB, in path order, are one group or the pieces of one; so are all other compressed files |
| GroupingLaws.GroupsDisjoint | db/bundle.go:76-222 | no file occurs twice in the groups, and no group twice |
| GroupingLaws.Stable | db/bundle.go:90-94 | any two calls give the same groups, each as the same sequence sorted by path |
| GroupingLaws.BundleGroupSize | db/bundle.go:204-218 | every group has at least two files and, for files stored in less than MaxFileSizeToBundle, totals at most 2*PartSize |
| Bundling.ResetOldBundles | db/bundle.go:63-72 | all links and bundles are gone, nothing else is changed |
| Bundling.BuildBundle | db/bundle.go:23-48 | the key and the name, with the prefix B_, are derived from the hash over all part hashes; the size is the sum of the storage sizes, the MD5 sum empty, the content the paths in order |
| Bundling.ConnectFiles | db/bundle.go:51-56 | exactly the listed files link to the bundle |
| Bundling.MakeBundles | db/bundle.go:13-58 | the links and the bundle table of the groups found, updated in place |
| BundleLaws.MakeBundlesInvariant | db/bundle.go:13-58 | each bundle is keyed by its id, its size is the sum over its content, contents are duplicate-free and disjoint, every listed file links back, every link names a bundle, and nothing but links changes |
| BundleLaws.SameIdSameHashes | db/bundle.go:25-42 | two groups get the same bundle id if and only if their hash sequences are equal |
| BundleLaws.LinkedIsListedIff | db/bundle.go:49-56 | for any groups that may be bundled: every linked file is listed in its bundle if and only if no two of them have equal hash sequences |
| BundleLaws.TwinNotListed | db/bundle.go:49 | of two groups with equal hash sequences every file of the earlier one is linked but not listed |
| BundleLaws.OrderIndependent | db/bundle.go:21-57 | links do not depend on the order of the groups, nor do bundles if no two have equal hash sequences |
| BundleLaws.SecondCallChangesNothing | db/bundle.go:13-58 | a second call leaves all links as they are, and the bundles too if no two groups have equal hash sequences |
| ScannedDatabases.ProducedDescribes | main.go:167-181 | with any bundles that findGroups may find, or none, the database differs from the scan in links and bundles only, and describes the disk |
| ScannedDatabases.NothingCollides | main.go:167-181 | everything that is hashed for such a database is among the strings that are assumed not to collide |
| ScannedDatabases.FewStrings | db/scanfile.go:44-69 | those strings are two for each part and at most one for each candidate, so the assumption grows linearly with the folder |
| ScannedDatabases.ScannedAreSmall | db/bundle.go:81-88 | all candidates of a scan, and all groups of them, are stored in at most their file size, less than MaxFileSizeToBundle |
| ScannedDatabases.ScannedBundleSize | db/bundle.go:204-218 | every bundle of a scan lists at least two files, is at most 2*PartSize large, and has a name that cleaning takes for a bundle |
| ScannedDatabases.ScannedLinkedIsListedIff | db/bundle.go:49-56 | a bundled scan lists every linked file in its bundle if and only if no two bundle groups of the folder have equal hash sequences; the condition is on the database alone, not on the order of any loop |
| Twins.LinkedNotListed | db/bundle.go:49-56 | a folder, with its directories, for which some linked file is not listed in its bundle, whatever findGroups and MakeBundles do |
| Storage.Service.Save | core/upload.go:147-150 | the service as its callers rely on it: one new file with a fresh id, or no change |
| Storage.Service.Trash | core/clean.go:59-61 | removes the file with this id if there is one, so trashing a file twice is like trashing it once |
| Cleaning.AllDbParts | core/clean.go:148-172 | only parts of the database, and exactly one for each key of name and MD5 sum |
| Cleaning.AllOnlineParts | core/clean.go:175-199 | sorts the list into part names, bundle names and the rest, in order |
| Cleaning.Unknown | core/clean.go:70-145 | part files that match no database part on name, size and MD5 sum, bundle files that match none on name and size |
| Cleaning.Duplicates | core/clean.go:202-245 | every file but the first of those with the same key |
| Cleaning.Clean | core/clean.go:16-67 | removes planned files only, all of them on success, none in try mode; at every point, also after an error, the changes so far are removals from the plan |
| CleanLaws.AttrKeyIdentifies | core/clean.go:207 | the key name, size, sum joined by bars identifies name, size and sum |
| CleanLaws.RepeatsAreLater | core/clean.go:202-245 | a file is a duplicate exactly if one before it in the list has the same name, size and sum |
| CleanLaws.CleanKeepsParts | core/clean.go:51-63 | every part that could be found before can be found after any part of the plan has been removed, if parts have MD5 sums and their sizes are settled |
| CleanLaws.CleanIsSafeIff | core/clean.go:85-93 | for every database whose MD5 sums contain no bar: no part is lost by any clean run, storage and map order if and only if every part with a 128-byte name has an MD5 sum, parts with a 128-byte name, equal name and sum have equal size, and in bundle mode the name and size of every bundle survive every choice of one part for each key |
| CleanLaws.LostPart | core/clean.go:79-121 | whenever that fails for a part: a storage, and a map order, with which a clean run removes it although the database needs it |
| CleanLaws.CleanIsExact | core/clean.go:16-67 | what remains: part files match a database part, in bundle mode bundle files match one too, no two files agree on name, size and sum; every other file, also a bundle file outside bundle mode and a file that a kept part knows, went only if an identical one stays |
| CleanLaws.CleanTwice | core/clean.go:16-67 | a second run removes nothing, if parts with equal name and sum have equal size, as those of a scan have |
| Protocol.SaveIsSafe | core/upload.go:46-61 | saving a part, or the index once everything it names is online and no other index is, keeps the storage safe |
| Protocol.CleaningIsSafe | core/clean.go:51-63 | at every point of a clean run the storage is safe and the published index is the only one |
| Protocol.StepKeepsInv | main.go:195-213 | every step of the writer and of the reader keeps the invariant: safe storage, unique ids, a coherent reader |
| Protocol.RunKeepsInv | main.go:195-213 | so does every run, from every state in which it holds |
| Protocol.ReachableIsSafe | main.go:195-213 | in every reachable state everything that an online index names is online, and the reader serves the empty database or that of the published index whose id it remembers |
| Protocol.ReaderCatchesUp | webdav/fs.go:187-203 | after the writer is done, one update and one successful check serve the published database |
| Protocol.LegalPrefix | main.go:195-213 | the writer may stop after any of its changes |
| Consistency.PartsOfScanAgree | db/scanfile.go:57-69 | in a scanned database parts with equal name and MD5 sum have equal size |
| Consistency.ScannedIsPublishable | db/scanfile.go:40-94 | a scanned and bundled database can be published and cleaned by without losing a part |
| Consistency.BundleNameDetermines | db/bundle.go:25-42 | the name of a bundle file determines the contents it was built from |
| Consistency.BundleOnDisk | db/bundle.go:26-29 | the hashes and the size that the database has of a bundle are those of the stored forms on the disk |
| Uploading.Exists | core/upload.go:70-87 | a part is skipped if and only if this run saved one with equal name, size and sum, or the list has a match |
| Uploading.UploadPart | core/upload.go:112-154 | saves the encrypted stored form of exactly the bytes of the part; errors exactly for a compressed second part, a wrong compressed size, or a failing service |
| Uploading.UploadFile | core/upload.go:159-198 | after success every part of the file is online |
| Uploading.BuildBundleData | core/upload.go:242-285 | encrypting the files piece by piece at running offsets gives the one-shot encryption of all of them under the bundle key |
| Uploading.UploadBundle | core/upload.go:232-305 | after success every bundle of the database is online |
| Uploading.UploadDb | core/upload.go:201-229 | all old indexes are removed, then the new one is saved under the name index.db2 and is the only one; nothing else changes, also on failure |
| Uploading.Upload | core/upload.go:22-65 | the changes are legal steps of the protocol even if the run stops early, nothing is saved twice or again, and nothing but index files is removed; on success the database is complete and its index the only one; it fails only if the service does |
| Uploading.KeysIdentify | core/upload.go:192-300 | the keys of the uploaded-parts map identify parts by their storage attributes, across part and bundle keys |
| Uploading.DedupStep | core/upload.go:70-87 | saving a part that neither the list at the start nor the map of this run has keeps the books: no save of the run is of a part that was online before, and no two have the same storage attributes, although the service list may be stale |
| Uploading.SecondUploadSavesIndexOnly | core/upload.go:70-87 | if the database is complete, an upload saves nothing but an index and leaves all other files as they are |
| Readers.LimitedReader | core/cryptrservice.go:32-54 | a decrypting reader positioned at the offset; an error exactly if there is no key, or the inner reader fails, which a reliable one does not |
| Readers.ReadRange | core/cryptrservice.go:32-54 | reading it to the end gives the range of the decrypted whole file |
| Readers.ReadAtIsRange | core/cryptrservice.go:32-54 | every reader that Open returns reads, at every position and for every length, that range of one plaintext |
| Opening.PosInBundle | core/open.go:220-258 | finds the file at the sum of the sizes before it, and fails exactly if it is not listed or the list is broken before it |
| Opening.BundleOrPart | core/open.go:147-216 | reads from the bundle exactly if the link leads to one that is online and lists the file, else from the part; an error exactly if there is not one part or the part is not online, whatever the bundle |
| Opening.CollectParts | core/open.go:120-129 | one storage file and its key for every part; an error exactly if some part is not listed |
| Opening.BundleSlot | core/open.go:228-253 | a listed file is stored in its bundle at the offset that posInBundle computes |
| Opening.DecryptPiece | core/open.go:76-77 | decrypting from the middle of a bundle gives one of the pieces it was encrypted from |
| Opening.BundleReadRefinesPartRead | core/open.go:147-216 | for every record of a file whose content the database has at this path, whatever its links, what is read from the chosen source decrypts to the same bytes as its single part, the stored form of the file on the disk |
| StaleRecords.StaleRecordReads | webdav/file.go:67-74 | an older record, of whatever content and size, is read right with a newer database if and only if its bundle cannot be used, or holds the old stored form at the position that the path has in it |
| StaleRecords.StaleReadsPrefix | core/open.go:181-207 | when a bundle is read and the stored form has not become shorter, that is: the old stored form is a prefix of the new one; so an uncompressed file that was appended to is read right, and a stored form changed at the same size is not |
| StaleRecords.RenamedIsReadWrong | webdav/file.go:67-74 | a folder of two files with different contents and times that are renamed, "a" to "b" and "b" to "c", between two uploads: the older record of "b" is opened with the newer database and shows the content of the former "a", for every storage that the newer database is complete in; the older database is a valid cache for the second scan |
| Opening.Open | core/open.go:16-139 | which reader is returned in each of the four cases, and why it may fail |
| Opening.OpenedShowsFile | core/open.go:34-138 | an opened file shows exactly the scanned bytes, in all four cases |
| Opening.OpenFailsOnlyFor | core/open.go:16-139 | opening a file fails only if one of its parts is not listed, or the service fails |
| Serving.FileSystem.UpdateDb | webdav/fs.go:231-273 | checkDb is a step of the protocol; it changes the two fields together or not at all, and serves only databases of published indexes |
| Serving.FileSystem.UpdateRound | webdav/fs.go:187-199 | after a successful update, if one index is online and can be read, its database is served |
| Serving.FileSystem.UpdateLoop | webdav/fs.go:179-204 | any number of rounds, with arbitrary changes of the storage in between, serve the empty or a published database; over a reliable service the one that was published when the last round began, and if nothing changes in between the one published at the start |
| Serving.FileSystem.InitDbLoop | webdav/fs.go:209-227 | over a reliable service the tries end at the first one whose list has a new index, and without one after six; then the database of a listed index is served, else the old one |
| Serving.FileSystem.OpenFile | webdav/fs.go:85-105 | the record of the fixed path, not open yet, or not-exist |
| Serving.PathFixFixes | webdav/fs.go:164-175 | a fixed path has no slash at either end, and fixing is idempotent |
| Serving.PathFixTrims | webdav/fs.go:164-175 | slashes around a path of the database are dropped and nothing else is; slashes alone mean the root |
| Serving.File.Read | webdav/file.go:63-80 | opens lazily, gives the content at the tracked position and advances by what was read; over any run of reads and seeks every read gave the content at its position |
| Serving.File.Seek | webdav/file.go:92-115 | the offset from the start, from the tracked position, or from the recorded size of the file, never negative, and 0 for any other whence; the history of reads stays faithful |
| Serving.SequentialReads | webdav/file.go:76-79 | reads without a seek in between fit together, however short each was |
| Serving.SeekThenRead | webdav/file.go:63-115 | a read after seeking to k gives the bytes from k on; after seeking to -k from the end of a file of the recorded size it gives its last bytes |
| Serving.SeekBackReadsAgain | webdav/file.go:63-115 | seeking back over what was read and reading as much gives the same bytes |
| UploadCommand.ScanAndBundle | main.go:167-181 | bundles are made exactly if asked for and something changed or was forced; in both cases the new database describes the scanned disk |
| UploadCommand.Publish | main.go:195-214 | upload, then update and clean if asked: a run of the protocol, at its end complete and, after cleaning, without anything unneeded; without cleaning, or in try mode, no data is removed |
| UploadCommand.CleanedComplete | main.go:203-213 | after cleaning, also after an interrupted one, the database is complete and its index is the only one |
| UploadCommand.RunUpload | main.go:152-224 | nothing is published after a walk error, when nothing changed, or by a scan only; the database is saved locally only after it was published, and published also when that save fails; every run is a run of the protocol; over a reliable service and local disk every changed or forced run without walk error finishes |
| UploadCommand.CommandIsSafe | main.go:195-213 | from every state that a storage can be in, and wherever the command stops, everything that an online index names is online, and bundle files contain what their names say |
| RoundTrip.ReadBack | webdav/file.go:63-115 | over a storage with a published database, a new file system reads exactly the range of the disk content; it fails only for unknown paths or a failing service |
| RoundTrip.UploadThenRead | main.go:152-224 | scan, bundle, upload and clean with any flags, then reading any range of any entry, under its path with any slashes around it, gives exactly the bytes on the disk; over a reliable service and local disk every changed or forced run without walk error succeeds and the read does too |

## Left out

- UploadThenRead: states the round trip for a path that is opened and read while the served database stays the same; a replacement of the database between opening and the first read, with changed content, is not claimed to be harmless.
- Service: its methods are what callers rely on, since the storage library and Google Drive are outside the repository; nothing is claimed about its sector cache.
- ScanFile: the attributes and the content are one snapshot of the file; errors of stat, open and read are not modelled, and neither is the int64 range of offsets and sizes.
- FromScan: the walk is a sequence of events with distinct normalised paths; Unicode normalisation, the difference between stat and lstat, and reading of directory entries are inputs.
- TryCompression: the float32 ratio test is replaced by a test on the two sizes.
- UpdateLoop: the endless loop is modelled for any number of rounds; locking is modelled by each round being one step, and timers by arbitrary changes in between.
- Open: nil checks of services and maps, and logging.
- Serialization (`db/serialization.go`) and compression framing (`encoding/compress.go`): an encode and decode pair.
- `Readdir` with a positive count: it keeps no cursor, and its documented resumption does not hold.
- Sharing one local database file between the `scan` and `upload` commands: no agreement with what is online is claimed.
- Several writers at once, partial uploads to a storage that loses data, disk changes between scan and upload.
- HTTP, TLS, users, HTML listing, key files, command line, RAM check.
