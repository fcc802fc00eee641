/** db/db.go, db/virtfile.go, db/virtfilepart.go, db/const.go: the database of the virtual file
    system. Paths and names are byte strings; every char stands for one byte. */
module Types {
  import opened Primitives

  const PART_SIZE: nat := 131072 * 4096 * 2
  const MAX_FILE_SIZE_FOR_COMPRESSION: nat := 1024 * 1024
  const MAX_FILE_SIZE_TO_BUNDLE: nat := 12 * 1024 * 1024
  const BUNDLE_PREFIX := "B_"
  const INDEX_NAME := "index.db2"

  datatype VFilePart = VFilePart(
    plainSha512: Bytes,
    storageName: string,
    storageSize: nat,
    storageMd5: string,
    cryptDataKey: Bytes)

  datatype FolderEl = FolderEl(relPath: string, isDir: bool)

  datatype VirtFile = VirtFile(
    relPath: string,
    fileSize: int,
    mTime: int,
    isDir: bool,
    folderContent: seq<FolderEl>,
    parts: seq<VFilePart>,
    useCompression: bool,
    alsoInBundle: string)

  datatype Bundle = Bundle(part: VFilePart, content: seq<string>)

  /** A database value: what is published, opened and cleaned by. */
  datatype Db = Db(vFiles: map<string, VirtFile>, bundles: map<string, Bundle>)

  const EMPTY_DB := Db(map[], map[])

  /** db/serialization.go, as an encode/decode pair; encoding draws a random nonce. */
  datatype IndexCodec = IndexCodec(encode: (Db, Bytes) -> Bytes, decode: Bytes -> Option<Db>) {
    ghost predicate Sound() {
      forall d: Db, nonce: Bytes :: decode(encode(d, nonce)) == Some(d)
    }
  }

  /** The map key of a file is its path. */
  ghost predicate KeysMatch(vFiles: map<string, VirtFile>) {
    forall k :: k in vFiles ==> vFiles[k].relPath == k
  }

  /** A database that is updated in place. */
  class Database {
    var vFiles: map<string, VirtFile>
    var bundles: map<string, Bundle>

    constructor ()
      ensures vFiles == map[] && bundles == map[]
    {
      vFiles, bundles := map[], map[];
    }

    function Value(): Db
      reads this
    {
      Db(vFiles, bundles)
    }
  }
}
