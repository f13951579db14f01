/** The durable protocol as one state machine. A world is what survives a crash (files, journal rows,
    saved state) together with the running process; an action is one atomic change of it. */
module Machine {
  import opened Model
  import opened Journals
  import opened Paths
  import Rules

  const MAX_ROOTS: nat := 16
  const MAX_PROPOSALS: nat := 1000
  const MAX_TERMINAL: nat := 10000
  const MAX_AGE: nat := 30 * 24 * 60 * 60

  datatype Kind = Approve | Undo

  /** How far the files have come in the move under way. `copy` is the node written or moved. */
  datatype Phase =
    | Opened
    | Clear
    | Ready
    | Renamed(copy: Node, verified: bool)
    | Staging(copy: Node)
    | Sealed(copy: Node)
    | Recorded(copy: Node)
    | Placed(copy: Node, verified: bool)
    | Retired(copy: Node)

  /** A move under way: the file map when it began and the paths other processes changed since. */
  datatype Flight = Flight(
    kind: Kind, id: Id, from: Path, to: Path, expected: Identity, before: Files, touched: set<Path>, phase: Phase)

  /** What recovery has seen so far of the entry it is about to settle. */
  datatype Looks = Unseen | SourceSeen(absent: bool) | Seen(absent: bool, verified: bool)

  datatype Task = Loading | Recovering(todo: seq<Id>, whole: bool, looks: Looks) | Idle | Moving(flight: Flight)

  datatype Process = Down | Up(state: State, task: Task)

  /** `issued` remembers every identifier ever handed out, so that a fresh one is new. */
  datatype World = World(files: Files, rows: Rows, saved: State, proc: Process, issued: set<Id>)

  datatype Action =
    | Outside(files: Files)
    | Crash
    | Load
    | BeginRecovery
    | LookForSource
    | LookAtDestination
    | SettleNext(now: int)
    | EndRecovery
    | Save
    | Prune
    | RetainYoung(now: int)
    | RetainNewest
    | Configure(edit: Edit)
    | Create(item: Proposal, row: Row)
    | Revise(id: Id, choice: Choice, name: Name, now: int)
    | Ignore(id: Id, now: int)
    | Begin(kind: Kind, id: Id)
    | CheckFree
    | Commit(next: JState, now: int)
    | File(step: FileStep)
    | Abort

  datatype Edit = SetPaused(paused: bool) | AddRoot(root: Root) | RemoveRoot(rootId: Id) | AddRule(rule: Rule)

  /** One atomic step of a file primitive. */
  datatype FileStep =
    | MoveFile
    | CheckMoved
    | CreateStage(inode: nat, mtime: int)
    | WriteStage(chunk: seq<Byte>)
    | StampStage(mtime: int)
    | SealStage
    | RecordDigest(now: int)
    | Publish
    | CheckPublished
    | Retire

  // ---------------------------------------------------------------- lookups

  datatype Role = AnyRole | WatchedRole | DestinationRole

  predicate HasRole(root: Root, role: Role) {
    match role
    case AnyRole => true
    case WatchedRole => root.watched
    case DestinationRole => root.destination
  }

  function FindRoot(roots: seq<Root>, id: Id, role: Role): (r: Option<Root>)
    ensures r.Some? ==> r.value in roots && r.value.id == id && HasRole(r.value, role)
    ensures r.None? ==> forall root <- roots :: !(root.id == id && HasRole(root, role))
  {
    if roots == [] then None
    else if roots[0].id == id && HasRole(roots[0], role) then Some(roots[0])
    else FindRoot(roots[1..], id, role)
  }

  /** Index of the first proposal with this identifier, or the length of the list. */
  function Position(items: seq<Proposal>, id: Id): (i: nat)
    ensures i <= |items|
    ensures i < |items| ==> items[i].id == id
    ensures forall j :: 0 <= j < i ==> items[j].id != id
  {
    if items == [] || items[0].id == id then 0 else 1 + Position(items[1..], id)
  }

  predicate Has(items: seq<Proposal>, id: Id) {
    Position(items, id) < |items|
  }

  function Item(items: seq<Proposal>, id: Id): Proposal
    requires Has(items, id)
  {
    items[Position(items, id)]
  }

  function SourcePath(st: State, item: Proposal, role: Role): Option<Path> {
    match FindRoot(st.roots, item.sourceRoot, role)
    case None => None
    case Some(root) => Some(root.path + item.relative)
  }

  function ChosenPath(roots: seq<Root>, choice: Choice, name: Name): (r: Option<Path>)
    ensures r.Some? ==> r.value != []
  {
    match FindRoot(roots, choice.root, DestinationRole)
    case None => None
    case Some(root) => Some(root.path + DirectoryPath(choice.directory) + [name])
  }

  function DestPath(st: State, item: Proposal): (r: Option<Path>)
    ensures r.Some? ==> r.value != []
  {
    if item.destination.None? then None else ChosenPath(st.roots, item.destination.value, item.name)
  }

  /** The journal's destination token of a new proposal: empty when nothing is chosen. */
  function TokenOf(st: State, item: Proposal): Path {
    match DestPath(st, item) case Some(p) => p case None => []
  }

  function IdText(id: Id): string {
    if id < 10 then [('0' as int + id) as char] else IdText(id / 10) + [('0' as int + id % 10) as char]
  }

  /** The hidden staging file beside a target. */
  function StageFor(to: Path, id: Id): Path
    requires to != []
  {
    Parent(to) + [".sortinghat-" + IdText(id) + ".stage"]
  }

  function StagePath(f: Flight): Path
    requires f.to != []
  {
    StageFor(f.to, f.id)
  }

  function ProposedCount(items: seq<Proposal>): nat {
    if items == [] then 0 else (if items[0].status.SProposed? then 1 else 0) + ProposedCount(items[1..])
  }

  // ---------------------------------------------------------------- queue pruning

  predicate FinishedItem(item: Proposal) {
    item.status.SCompleted? || item.status.SIgnored? || item.status.SUndone?
  }

  function Finished(items: seq<Proposal>): nat {
    if items == [] then 0 else (if FinishedItem(items[0]) then 1 else 0) + Finished(items[1..])
  }

  /** Everything but the first `remove` finished items. */
  function DropFinished(items: seq<Proposal>, remove: nat): seq<Proposal> {
    if items == [] then []
    else if FinishedItem(items[0]) && remove > 0 then DropFinished(items[1..], remove - 1)
    else [items[0]] + DropFinished(items[1..], remove)
  }

  function PruneItems(items: seq<Proposal>): seq<Proposal> {
    var n := Finished(items);
    DropFinished(items, if n > MAX_TERMINAL then n - MAX_TERMINAL else 0)
  }

  // ---------------------------------------------------------------- recovery evidence

  predicate VerifiedDestination(env: Env, files: Files, dest: Path, expected: Identity, sha: Option<Digest>) {
    var found := IdentityAt(env, files, dest);
    found.Ok? && found.value.size == expected.size
    && (if sha.Some? then HasDigest(env, files, dest, sha.value) else found.value == expected)
  }

  predicate ItemVerified(env: Env, files: Files, items: seq<Proposal>, id: Id, row: Row) {
    Has(items, id) && VerifiedDestination(env, files, row.dest, Item(items, id).identity, row.sha)
  }

  /** What recovery does with one row, having looked: complete it on evidence, flag it, or leave it alone. */
  function Verdict(items: seq<Proposal>, id: Id, row: Row, looks: Looks): Option<JState> {
    if row.state.SourceRemoved? && Has(items, id) && looks == Seen(true, true) then Some(Completed)
    else if Unsettled(row.state) then Some(NeedsAttention)
    else None
  }

  /** What both looks show while these files last. */
  function LooksAt(env: Env, files: Files, items: seq<Proposal>, id: Id, row: Row): Looks {
    Seen(row.source !in files, ItemVerified(env, files, items, id, row))
  }

  // ---------------------------------------------------------------- guards

  predicate IsUp(w: World) { w.proc.Up? }
  predicate IsIdle(w: World) { w.proc.Up? && w.proc.task.Idle? }
  predicate InFlight(w: World) { w.proc.Up? && w.proc.task.Moving? }

  function Memory(w: World): State
    requires IsUp(w)
  {
    w.proc.state
  }

  function Items(w: World): seq<Proposal>
    requires IsUp(w)
  {
    w.proc.state.proposals
  }

  function FlightOf(w: World): Flight
    requires InFlight(w)
  {
    w.proc.task.flight
  }

  predicate CanCreate(w: World, item: Proposal, row: Row)
    requires IsUp(w)
  {
    var st := Memory(w);
    && item.id !in w.issued && item.revision == 1 && item.status.SProposed?
    && item.relative != [] && item.name == FileName(item.relative)
    && FindRoot(st.roots, item.sourceRoot, WatchedRole).Some?
    && (item.destination.Some? ==> item.destination.value.root in w.issued)
    && ProposedCount(st.proposals) < MAX_PROPOSALS
    && (forall p <- st.proposals :: p.identity != item.identity
          && !(p.status.SProposed? && p.sourceRoot == item.sourceRoot && p.relative == item.relative))
    && row == Row(1, Proposed, SourcePath(st, item, WatchedRole).value, TokenOf(st, item), item.identity.size, None, row.updatedAt, row.rowid)
    && AboveAll(w.rows, w.rows.Keys, row.rowid)
  }

  /** The item is in memory and its revision is the journal's. */
  predicate Current(w: World, id: Id)
    requires IsUp(w)
  {
    Has(Items(w), id) && id in w.rows && w.rows[id].revision == Item(Items(w), id).revision
  }

  predicate CanBegin(w: World, kind: Kind, id: Id)
    requires IsUp(w)
  {
    Has(Items(w), id) &&
    var item := Item(Items(w), id);
    && item.relative != []
    && DestPath(Memory(w), item).Some?
    && match kind
       case Approve => SourcePath(Memory(w), item, WatchedRole).Some?
                       && SourcePath(Memory(w), item, WatchedRole).value in w.files
       case Undo => item.status.SCompleted? && SourcePath(Memory(w), item, AnyRole).Some?
  }

  function FlightFor(w: World, kind: Kind, id: Id): (f: Flight)
    requires IsUp(w) && CanBegin(w, kind, id)
    ensures f.from != [] && f.to != []
  {
    var item := Item(Items(w), id);
    var dest := DestPath(Memory(w), item).value;
    match kind
    case Approve =>
      Flight(kind, id, SourcePath(Memory(w), item, WatchedRole).value, dest, item.identity, w.files, {}, Opened)
    case Undo =>
      Flight(kind, id, dest, SourcePath(Memory(w), item, AnyRole).value, item.identity, w.files, {}, Opened)
  }

  predicate RowIs(w: World, id: Id, s: JState) {
    id in w.rows && w.rows[id].state == s
  }

  /** Which journal commit the move under way may make next. */
  predicate CanCommit(env: Env, w: World, next: JState)
    requires InFlight(w)
  {
    var f := FlightOf(w);
    f.from != [] && f.to != [] &&
    match next
    case Approved => f.kind.Approve? && f.phase.Clear? && RowIs(w, f.id, Proposed) && Current(w, f.id)
    case Copying => f.kind.Approve? && f.phase.Ready? && RowIs(w, f.id, Approved) && !SameDevice(env, f.from, f.to)
    case Published =>
      && f.kind.Approve?
      && ((f.phase.Renamed? && f.phase.verified && RowIs(w, f.id, Approved))
          || (f.phase.Placed? && f.phase.verified && RowIs(w, f.id, Copying)))
    case SourceRemoved => f.kind.Approve? && (f.phase.Renamed? || f.phase.Retired?) && RowIs(w, f.id, Published)
    case Completed => f.kind.Approve? && (f.phase.Renamed? || f.phase.Retired?) && RowIs(w, f.id, SourceRemoved)
    case Undoing =>
      && f.kind.Undo? && f.phase.Clear? && RowIs(w, f.id, Completed) && Current(w, f.id)
      && SameDevice(env, f.from, f.to)
    case Undone => f.kind.Undo? && f.phase.Renamed? && f.phase.verified && RowIs(w, f.id, Undoing)
    case _ => false
  }

  predicate Enabled(env: Env, w: World, a: Action) {
    match a
    case Outside(_) => true
    case Crash => IsUp(w)
    case Load => w.proc.Down?
    case BeginRecovery => IsUp(w) && w.proc.task.Loading? && DistinctRowids(w.rows)
    case LookForSource => SettlesEntry(w) && w.proc.task.looks.Unseen?
    case LookAtDestination => SettlesEntry(w) && w.proc.task.looks.SourceSeen?
    case SettleNext(_) => SettlesEntry(w) && (RowIs(w, Head(w), SourceRemoved) ==> w.proc.task.looks.Seen?)
    case EndRecovery => IsUp(w) && w.proc.task.Recovering? && w.proc.task.todo == []
    case Save => IsIdle(w) || (IsUp(w) && w.proc.task.Recovering? && w.proc.task.todo == [])
    case Prune => IsUp(w) && (w.proc.task.Loading? || w.proc.task.Idle?)
    case RetainYoung(_) => IsUp(w) && (w.proc.task.Loading? || w.proc.task.Idle?)
    case RetainNewest => IsUp(w) && (w.proc.task.Loading? || w.proc.task.Idle?) && DistinctRowids(w.rows)
    case Configure(edit) => IsIdle(w) && CanConfigure(env, w, edit)
    case Create(item, row) => IsIdle(w) && CanCreate(w, item, row)
    case Revise(id, choice, name, _) =>
      IsIdle(w) && Current(w, id) && RowIs(w, id, Proposed) && ChosenPath(Memory(w).roots, choice, name).Some?
    case Ignore(id, _) => IsIdle(w) && Current(w, id) && RowIs(w, id, Proposed)
    case Begin(kind, id) => IsIdle(w) && CanBegin(w, kind, id)
    case Abort => InFlight(w)
    case CheckFree => InFlight(w) && FlightOf(w).phase.Opened? && FlightOf(w).to != [] && !FoldTaken(env, w.files, FlightOf(w).to)
    case Commit(next, _) => InFlight(w) && CanCommit(env, w, next)
    case File(step) => InFlight(w) && FlightOf(w).from != [] && FlightOf(w).to != [] && CanStep(env, w, FlightOf(w), step)
  }

  predicate CanConfigure(env: Env, w: World, edit: Edit)
    requires IsUp(w)
  {
    match edit
    case SetPaused(_) => true
    case AddRoot(root) =>
      && root.id !in w.issued && |Memory(w).roots| < MAX_ROOTS && (root.watched || root.destination)
      && forall r <- Memory(w).roots :: r.path != root.path
    case RemoveRoot(id) => forall p <- Items(w) :: !(p.sourceRoot == id && p.status.SProposed?)
    case AddRule(rule) =>
      |Memory(w).rules| < Rules.MAX_RULES && Rules.ValidRule(env, rule) && rule.destinationRoot in w.issued
  }

  /** The source, if nobody else touched it, is the approved file. */
  predicate SourceChecked(env: Env, w: World, f: Flight) {
    f.from !in f.touched ==> IdentityAt(env, w.files, f.from) == Ok(f.expected)
  }

  predicate CanStep(env: Env, w: World, f: Flight, step: FileStep)
    requires f.from != [] && f.to != []
  {
    match step
    case MoveFile =>
      && f.phase.Ready? && SameDevice(env, f.from, f.to)
      && RowIs(w, f.id, if f.kind.Approve? then Approved else Undoing)
      && f.from in w.files && f.to !in w.files && SourceChecked(env, w, f)
    case CheckMoved =>
      f.phase.Renamed? && IdentityAt(env, w.files, f.to) == Ok(f.expected)
    case CreateStage(_, _) =>
      && f.phase.Ready? && !SameDevice(env, f.from, f.to) && RowIs(w, f.id, Copying)
      && StagePath(f) !in w.files && SourceChecked(env, w, f)
    case WriteStage(chunk) =>
      && f.phase.Staging? && f.phase.copy.Regular?
      && (f.from !in f.touched ==>
            f.from in w.files && w.files[f.from].Regular? && f.phase.copy.bytes + chunk <= w.files[f.from].bytes)
    case StampStage(_) => f.phase.Staging? && f.phase.copy.Regular?
    case SealStage =>
      && f.phase.Staging? && f.phase.copy.Regular? && |f.phase.copy.bytes| == f.expected.size
      && f.phase.copy.mtime == f.expected.mtime
      && HasDigest(env, w.files, StagePath(f), Hash(env, f.phase.copy.bytes))
    case RecordDigest(_) => f.phase.Sealed? && f.phase.copy.Regular? && RowIs(w, f.id, Copying)
    case Publish => f.phase.Recorded? && RowIs(w, f.id, Copying) && StagePath(f) in w.files && f.to !in w.files
    case CheckPublished =>
      && f.phase.Placed? && RowIs(w, f.id, Copying) && w.rows[f.id].sha.Some?
      && HasDigest(env, w.files, f.to, w.rows[f.id].sha.value)
    case Retire =>
      && f.phase.Placed? && f.phase.verified && RowIs(w, f.id, Published) && w.rows[f.id].sha.Some?
      && IdentityAt(env, w.files, f.from) == Ok(f.expected)
      && HasDigest(env, w.files, f.from, w.rows[f.id].sha.value)
  }

  // ---------------------------------------------------------------- effects

  function WithState(w: World, st: State): World
    requires IsUp(w)
  {
    w.(proc := Up(st, w.proc.task))
  }

  function WithItems(w: World, items: seq<Proposal>): World
    requires IsUp(w)
  {
    WithState(w, Memory(w).(proposals := items))
  }

  /** Overwrite the revision and status of the item with this identifier, if it is there. */
  function Marked(items: seq<Proposal>, id: Id, revision: nat, status: Status): seq<Proposal> {
    if Has(items, id) then items[Position(items, id) := Item(items, id).(revision := revision, status := status)] else items
  }

  function WithTask(w: World, task: Task): World
    requires IsUp(w)
  {
    w.(proc := Up(w.proc.state, task))
  }

  function WithPhase(w: World, files: Files, phase: Phase): World
    requires InFlight(w)
  {
    w.(files := files, proc := Up(w.proc.state, Moving(FlightOf(w).(phase := phase))))
  }

  function WithRow(w: World, id: Id, row: Row): World {
    w.(rows := w.rows[id := row])
  }

  function AfterCommit(w: World, next: JState, now: int): World
    requires InFlight(w) && FlightOf(w).id in w.rows
  {
    var id := FlightOf(w).id;
    var row := Moved(w.rows[id], next, now);
    var committed := WithRow(w, id, row);
    match next
    case Approved =>
      var ready := WithPhase(committed, w.files, Ready);
      if Has(Items(w), id) then WithItems(ready, Marked(Items(w), id, row.revision, Item(Items(w), id).status)) else ready
    case Undoing => WithPhase(committed, w.files, Ready)
    case Completed => WithTask(WithItems(committed, Marked(Items(w), id, row.revision, SCompleted)), Idle)
    case Undone => WithTask(WithItems(committed, Marked(Items(w), id, row.revision, SUndone)), Idle)
    case _ => committed
  }

  /** The entry at the head of the work list. */
  predicate SettlesEntry(w: World) {
    IsUp(w) && w.proc.task.Recovering? && w.proc.task.todo != [] && w.proc.task.todo[0] in w.rows
  }

  function Head(w: World): Id
    requires SettlesEntry(w)
  {
    w.proc.task.todo[0]
  }

  function HeadVerdict(w: World): Option<JState>
    requires SettlesEntry(w)
  {
    Verdict(Items(w), Head(w), w.rows[Head(w)], w.proc.task.looks)
  }

  function WithLooks(w: World, looks: Looks): World
    requires SettlesEntry(w)
  {
    WithTask(w, w.proc.task.(looks := looks))
  }

  function AfterSettle(w: World, now: int): World
    requires SettlesEntry(w)
  {
    Judged(w, HeadVerdict(w), now)
  }

  /** The entry at the head is settled by this verdict, and the work list is one shorter. */
  function Judged(w: World, verdict: Option<JState>, now: int): World
    requires SettlesEntry(w)
  {
    var id := Head(w);
    var rest := WithTask(w, Recovering(w.proc.task.todo[1..], w.proc.task.whole, Unseen));
    match verdict
    case None => rest
    case Some(next) =>
      var row := Moved(w.rows[id], next, now);
      WithRow(WithItems(rest, Marked(Items(w), id, row.revision, if next.Completed? then SCompleted else SNeedsAttention)), id, row)
  }

  function AfterRevise(w: World, id: Id, choice: Choice, name: Name, now: int): World
    requires IsUp(w) && Current(w, id) && ChosenPath(Memory(w).roots, choice, name).Some?
  {
    var row := Revised(w.rows[id], ChosenPath(Memory(w).roots, choice, name).value, now);
    var item := Item(Items(w), id).(revision := row.revision, destination := Some(choice), name := name);
    WithRow(WithItems(w, Items(w)[Position(Items(w), id) := item]), id, row)
  }

  function AfterCreate(w: World, item: Proposal, row: Row): World
    requires IsUp(w)
  {
    WithRow(WithItems(w, Items(w) + [item]), item.id, row).(issued := w.issued + {item.id})
  }

  function AfterIgnore(w: World, id: Id, now: int): World
    requires IsUp(w) && Current(w, id)
  {
    var row := Moved(w.rows[id], Ignored, now);
    WithRow(WithItems(w, Marked(Items(w), id, row.revision, SIgnored)), id, row)
  }

  function AfterEdit(w: World, edit: Edit): World
    requires IsUp(w)
  {
    match edit
    case SetPaused(paused) => WithState(w, Memory(w).(paused := paused))
    case AddRoot(root) => WithState(w, Memory(w).(roots := Memory(w).roots + [root])).(issued := w.issued + {root.id})
    case RemoveRoot(id) => WithState(w, Memory(w).(roots := WithoutRoot(Memory(w).roots, id)))
    case AddRule(rule) => WithState(w, Memory(w).(rules := Memory(w).rules + [rule]))
  }

  function AfterOutside(w: World, files: Files): World {
    if InFlight(w)
    then WithTask(w, Moving(FlightOf(w).(touched := FlightOf(w).touched + Differ(w.files, files)))).(files := files)
    else w.(files := files)
  }

  function WithoutRoot(roots: seq<Root>, id: Id): (r: seq<Root>)
    ensures forall root :: root in r <==> root in roots && root.id != id
  {
    if roots == [] then [] else (if roots[0].id == id then [] else [roots[0]]) + WithoutRoot(roots[1..], id)
  }

  function Apply(env: Env, w: World, a: Action): World
    requires Enabled(env, w, a)
  {
    match a
    case Outside(files) => AfterOutside(w, files)
    case Crash => w.(proc := Down)
    case Load => w.(proc := Up(w.saved, Loading))
    case BeginRecovery => WithTask(w, Recovering(Todo(w.rows), |Active(w.rows)| <= 1000, Unseen))
    case LookForSource => WithLooks(w, SourceSeen(w.rows[Head(w)].source !in w.files))
    case LookAtDestination =>
      WithLooks(w, Seen(w.proc.task.looks.absent, ItemVerified(env, w.files, Items(w), Head(w), w.rows[Head(w)])))
    case SettleNext(now) => AfterSettle(w, now)
    case EndRecovery => WithTask(w, Idle)
    case Save => w.(saved := Memory(w))
    case Prune => WithItems(w, PruneItems(Items(w)))
    case RetainYoung(now) => w.(rows := DropAged(w.rows, now, MAX_AGE))
    case RetainNewest => w.(rows := DropExcess(w.rows, MAX_TERMINAL))
    case Configure(edit) => AfterEdit(w, edit)
    case Create(item, row) => AfterCreate(w, item, row)
    case Revise(id, choice, name, now) => AfterRevise(w, id, choice, name, now)
    case Ignore(id, now) => AfterIgnore(w, id, now)
    case Begin(kind, id) => WithTask(w, Moving(FlightFor(w, kind, id)))
    case Abort => WithTask(w, Idle)
    case CheckFree => WithPhase(w, w.files, Clear)
    case Commit(next, now) => AfterCommit(w, next, now)
    case File(step) => AfterStep(env, w, FlightOf(w), step)
  }

  function AfterStep(env: Env, w: World, f: Flight, step: FileStep): World
    requires InFlight(w) && f == FlightOf(w) && f.from != [] && f.to != [] && CanStep(env, w, f, step)
  {
    match step
    case MoveFile => WithPhase(w, Rename(w.files, f.from, f.to), Renamed(w.files[f.from], false))
    case CheckMoved => WithPhase(w, w.files, Renamed(f.phase.copy, true))
    case CreateStage(inode, mtime) =>
      var node := Regular(inode, 1, [], mtime);
      WithPhase(w, w.files[StagePath(f) := node], Staging(node))
    case WriteStage(chunk) =>
      WithPhase(w, AppendAt(w.files, StagePath(f), f.phase.copy.inode, chunk), Staging(f.phase.copy.(bytes := f.phase.copy.bytes + chunk)))
    case StampStage(mtime) =>
      WithPhase(w, StampAt(w.files, StagePath(f), f.phase.copy.inode, mtime), Staging(f.phase.copy.(mtime := mtime)))
    case SealStage => WithPhase(w, w.files, Sealed(f.phase.copy))
    case RecordDigest(now) =>
      WithRow(WithPhase(w, w.files, Recorded(f.phase.copy)), f.id,
              w.rows[f.id].(sha := Some(Hash(env, f.phase.copy.bytes)), updatedAt := now))
    case Publish => WithPhase(w, Rename(w.files, StagePath(f), f.to), Placed(w.files[StagePath(f)], false))
    case CheckPublished => WithPhase(w, w.files, Placed(f.phase.copy, true))
    case Retire => WithPhase(w, w.files - {f.from}, Retired(f.phase.copy))
  }

  // ---------------------------------------------------------------- runs

  /** A finite history of worlds. */
  datatype Run = Start(first: World) | Then(prev: Run, act: Action, next: World) {
    function Last(): World {
      if Start? then first else next
    }
  }

  /** A fresh installation: no process, empty journal and queue, any files. */
  predicate Initial(w: World) {
    w.proc.Down? && w.rows == map[] && w.saved == EMPTY_STATE && w.issued == {}
  }

  predicate Legal(env: Env, r: Run) {
    match r
    case Start(w) => Initial(w)
    case Then(prev, a, w) => Legal(env, prev) && Enabled(env, prev.Last(), a) && w == Apply(env, prev.Last(), a)
  }

  /** `r` continues `early`. */
  predicate Continues(r: Run, early: Run) {
    r == early || (r.Then? && Continues(r.prev, early))
  }

  /** `r` continues `early` and no other process wrote a file in between. */
  ghost predicate Undisturbed(r: Run, early: Run) {
    r == early || (r.Then? && !r.act.Outside? && Undisturbed(r.prev, early))
  }
}
