/** The entities every other module speaks about: local files, Drive objects,
    tracking rows and the tasks of one reconciliation pass. */
module SyncTypes {

  datatype Option<+T> = None | Some(value: T)

  newtype Byte = b: int | 0 <= b < 256
  type Bytes = seq<Byte>

  type Path = string     // slash-separated, relative to the mirrored root
  type Account = string  // google_account_id
  type ObjId = string    // Drive file ID; "" is the source's "no object"
  type RelId = int       // folder_targets.id; 0 is "no relation"
  type Time = int        // nanoseconds

  /** A (relation, path) pair: the primary key of file_metadata and the position of a listed object. */
  datatype Key = Key(rel: RelId, path: Path)

  /** A non-empty name that is not in use: Drive's new ID. */
  function NewId(used: set<string>, candidate: string): (r: string)
    requires candidate != ""
    ensures r !in used && |r| >= |candidate|
    decreases used
  {
    if candidate !in used then candidate else NewId(used - {candidate}, candidate + "n")
  }

  // ---- local tree ----

  datatype LocalFile = LocalFile(bytes: Bytes, mtime: Time)
  datatype LocalState = LocalState(mtime: Time, size: int)
  type LocalTree = map<Path, LocalFile>

  const SECOND := 1_000_000_000

  /** time.Truncate(time.Second), as the number of whole seconds. */
  function Seconds(t: Time): int { t / SECOND }

  function Stat(f: LocalFile): LocalState { LocalState(f.mtime, |f.bytes|) }

  function StatAt(local: LocalTree, p: Path): Option<LocalState> {
    if p in local then Some(Stat(local[p])) else None
  }

  // ---- Drive ----

  /** An MD5 checksum, taken to be injective: a digest is identified with the bytes
      it was computed from. NoDigest is the empty checksum of Google-native formats. */
  datatype Digest = NoDigest | Md5(of: Bytes)

  datatype Content = Binary(bytes: Bytes) | Native(length: nat)

  function DigestOf(c: Content): Digest {
    match c case Binary(b) => Md5(b) case Native(_) => NoDigest
  }

  function SizeOf(c: Content): nat {
    match c case Binary(b) => |b| case Native(n) => n
  }

  /** Where an object is: listed at a path of a relation's container, or in the
      container's holding tank, which no listing shows. */
  datatype Place = At(key: Key) | Tank(rel: RelId)

  function RelOf(p: Place): RelId {
    match p case At(k) => k.rel case Tank(rel) => rel
  }

  datatype Obj = Obj(place: Place, content: Content, version: nat)

  /** All objects, and every ID ever issued (Drive does not reuse IDs). */
  datatype Drive = Drive(objs: map<ObjId, Obj>, used: set<ObjId>)

  datatype RemoteFile = RemoteFile(id: ObjId, version: nat, size: int, md5: Digest)
  datatype RemoteState = RemoteState(id: ObjId, md5: Digest, size: int)

  function Describe(id: ObjId, o: Obj): RemoteFile {
    RemoteFile(id, o.version, SizeOf(o.content), DigestOf(o.content))
  }

  function StateOf(f: RemoteFile): RemoteState { RemoteState(f.id, f.md5, f.size) }

  /** What ListFolderRecursive returned for the relations of a chain, keyed by relation and path. */
  type Listing = map<Key, seq<RemoteFile>>

  function ListedAt(listing: Listing, k: Key): seq<RemoteFile> {
    if k in listing then listing[k] else []
  }

  // ---- tracking rows ----

  datatype Status = Synced | Pending | Trashed | Conflicted

  datatype FileMeta = FileMeta(
    localMtime: Time,
    localSize: int,
    remoteId: ObjId,
    remoteVersion: nat,
    remoteMd5: Digest,
    status: Status,
    deletedAt: Option<Time>)

  type Rows = map<Key, FileMeta>

  datatype BaseState = BaseState(mtime: Time, size: int, remoteId: ObjId, remoteMd5: Digest)

  function BaseOf(m: FileMeta): BaseState {
    BaseState(m.localMtime, m.localSize, m.remoteId, m.remoteMd5)
  }

  predicate Live(rows: Rows, k: Key) { k in rows && rows[k].status != Trashed }

  // ---- folder targets and tasks ----

  datatype FolderTarget = FolderTarget(id: RelId, account: Account, overflowOf: RelId)

  datatype Action = Nothing | Upload | Reupload | Trash | Conflict | Dedupe | Adopt

  datatype Task = Task(key: Key, action: Action, local: Option<LocalState>, remote: Option<RemoteState>)

  predicate Uploads(a: Action) { a == Upload || a == Reupload || a == Conflict }
}
