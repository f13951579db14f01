/** Entities shared by the file system, the journal and the service. */
module Model {

  datatype Option<+T> = None | Some(value: T)

  datatype Result<+T, +E> = Ok(value: T) | Err(error: E)

  type Byte = x: int | 0 <= x < 256

  type Id = nat

  type Digest = string

  /** One directory entry name. A path is the list of its components; `[]` is "/". */
  type Name = string

  type Path = seq<Name>

  function Parent(p: Path): Path
    requires p != []
  {
    p[..|p| - 1]
  }

  function FileName(p: Path): Name
    requires p != []
  {
    p[|p| - 1]
  }

  /** What the program is given by its surroundings: the mount layout, Unicode lower-casing, the
      streaming hash (a state that absorbs one byte at a time) and the glob library. */
  datatype Env = Env(
    device: Path -> nat,
    fold: Name -> Name,
    hashInit: nat,
    hashAbsorb: (nat, Byte) -> nat,
    hashFinish: nat -> Digest,
    globValid: string -> bool,
    globMatch: (string, string) -> bool)

  /** The state of a hasher in state `h` after absorbing `bytes`. */
  function Absorb(env: Env, h: nat, bytes: seq<Byte>): nat
    decreases |bytes|
  {
    if bytes == [] then h else Absorb(env, env.hashAbsorb(h, bytes[0]), bytes[1..])
  }

  function Hash(env: Env, bytes: seq<Byte>): Digest {
    env.hashFinish(Absorb(env, env.hashInit, bytes))
  }

  /** The digest tells these two contents apart, if they differ. */
  predicate NoCollision(env: Env, a: seq<Byte>, b: seq<Byte>) {
    Hash(env, a) == Hash(env, b) ==> a == b
  }

  /** Feeding a hasher in two pieces is feeding it once: chunk boundaries leave no mark. */
  lemma {:induction false} AbsorbConcat(env: Env, h: nat, a: seq<Byte>, b: seq<Byte>)
    ensures Absorb(env, h, a + b) == Absorb(env, Absorb(env, h, a), b)
    decreases |a|
  {
    if a == [] {
      assert a + b == b;
    } else {
      assert (a + b)[1..] == a[1..] + b;
      AbsorbConcat(env, env.hashAbsorb(h, a[0]), a[1..], b);
    }
  }

  /** The states of a hasher that is fed these bytes one after the other. */
  ghost predicate Feeds(env: Env, bytes: seq<Byte>, states: seq<nat>) {
    && |states| == |bytes| + 1 && states[0] == env.hashInit
    && forall i :: 0 <= i < |bytes| ==> states[i + 1] == env.hashAbsorb(states[i], bytes[i])
  }

  /** The digest is what the hasher finishes with after every byte, each fed once and in order. */
  lemma {:induction false} DigestIsStreamed(env: Env, bytes: seq<Byte>, states: seq<nat>)
    requires Feeds(env, bytes, states)
    ensures Hash(env, bytes) == env.hashFinish(states[|bytes|])
  {
    StreamedUpTo(env, bytes, states, |bytes|);
    assert bytes[..|bytes|] == bytes;
  }

  lemma {:induction false} StreamedUpTo(env: Env, bytes: seq<Byte>, states: seq<nat>, n: nat)
    requires Feeds(env, bytes, states) && n <= |bytes|
    ensures Absorb(env, env.hashInit, bytes[..n]) == states[n]
  {
    if n > 0 {
      StreamedUpTo(env, bytes, states, n - 1);
      assert bytes[..n] == bytes[..n - 1] + [bytes[n - 1]];
      AbsorbConcat(env, env.hashInit, bytes[..n - 1], [bytes[n - 1]]);
      assert states[(n - 1) + 1] == states[n];
    }
  }

  // ---------------------------------------------------------------- files

  const MAX_FILE_SIZE: nat := 4 * 1024 * 1024 * 1024

  datatype Node =
    | Regular(inode: nat, links: nat, bytes: seq<Byte>, mtime: int)
    | Directory
    | Special

  type Files = map<Path, Node>

  datatype Identity = Identity(device: nat, inode: nat, size: nat, mtime: int)

  datatype FsError = UnsafeSource | Oversized | Exists | Io | IdentityChanged | VerificationFailed

  function IdentityAt(env: Env, files: Files, p: Path): Result<Identity, FsError> {
    if p == [] || p !in files then Err(Io)
    else
      match files[p]
      case Regular(inode, links, bytes, mtime) =>
        if links != 1 then Err(UnsafeSource)
        else if |bytes| > MAX_FILE_SIZE then Err(Oversized)
        else Ok(Identity(env.device(Parent(p)), inode, |bytes|, mtime))
      case _ => Err(UnsafeSource)
  }

  /** The path shows this very file: regular, with no other name and not too big, and with this device, inode,
      length and modification time. */
  predicate Shows(env: Env, files: Files, p: Path, identity: Identity) {
    && p != [] && p in files && files[p].Regular? && files[p].links == 1 && |files[p].bytes| <= 0x1_0000_0000
    && env.device(Parent(p)) == identity.device && files[p].inode == identity.inode
    && |files[p].bytes| == identity.size && files[p].mtime == identity.mtime
  }

  lemma ShownIdentity(env: Env, files: Files, p: Path, identity: Identity)
    ensures Shows(env, files, p, identity) <==> IdentityAt(env, files, p) == Ok(identity)
  {
  }

  predicate HasDigest(env: Env, files: Files, p: Path, d: Digest) {
    p in files && files[p].Regular? && Hash(env, files[p].bytes) == d
  }

  predicate IsFolder(files: Files, p: Path) {
    p in files && files[p].Directory?
  }

  /** Some entry of the parent directory equals the last component of `p` after case folding. */
  predicate FoldTaken(env: Env, files: Files, p: Path)
    requires p != []
  {
    exists q | q in files ::
      q != [] && Parent(q) == Parent(p) && env.fold(FileName(q)) == env.fold(FileName(p))
  }

  predicate SameDevice(env: Env, p: Path, q: Path)
    requires p != [] && q != []
  {
    env.device(Parent(p)) == env.device(Parent(q))
  }

  /** rename(2) without replacement, once the target is known to be free. */
  function Rename(files: Files, src: Path, dst: Path): Files
    requires src in files
  {
    (files - {src})[dst := files[src]]
  }

  predicate StillNames(files: Files, p: Path, inode: nat) {
    p in files && files[p].Regular? && files[p].inode == inode
  }

  /** Bytes written through a descriptor reach the file that the path still names, if it does. */
  function AppendAt(files: Files, p: Path, inode: nat, chunk: seq<Byte>): Files {
    if StillNames(files, p, inode) then files[p := files[p].(bytes := files[p].bytes + chunk)] else files
  }

  function StampAt(files: Files, p: Path, inode: nat, mtime: int): Files {
    if StillNames(files, p, inode) then files[p := files[p].(mtime := mtime)] else files
  }

  /** The paths at which two file maps differ. */
  function Differ(a: Files, b: Files): set<Path> {
    set p | p in a.Keys + b.Keys && !(p in a && p in b && a[p] == b[p])
  }

  // ---------------------------------------------------------------- queue

  datatype Predicate =
    | Extension(value: string)
    | VerifiedMime(value: string)
    | FilenameGlob(value: string)
    | SourceRoot(id: Id)
    | SourceDirectory(value: string)
    | IsCompleted

  datatype Rule = Rule(
    id: Id, priority: int, predicates: seq<Predicate>, destinationRoot: Id, destinationDirectory: string)

  datatype Root = Root(id: Id, path: Path, watched: bool, destination: bool)

  datatype Choice = Choice(root: Id, directory: string)

  datatype Status = SProposed | SCompleted | SIgnored | SUndone | SNeedsAttention

  datatype Proposal = Proposal(
    id: Id, revision: nat, sourceRoot: Id, relative: Path, destination: Option<Choice>, name: Name,
    status: Status, identity: Identity)

  datatype State = State(paused: bool, roots: seq<Root>, rules: seq<Rule>, proposals: seq<Proposal>)

  const EMPTY_STATE := State(false, [], [], [])

  // ---------------------------------------------------------------- journal rows

  datatype JState =
    | Proposed | Approved | Copying | Published | SourceRemoved | Completed
    | Undoing | Undone | FailedSafely | NeedsAttention | Ignored

  /** One row of the entries table; `rowid` is SQLite's, growing with each insertion. */
  datatype Row = Row(
    revision: nat, state: JState, source: Path, dest: Path, size: nat, sha: Option<Digest>,
    updatedAt: int, rowid: nat)

  type Rows = map<Id, Row>
}
