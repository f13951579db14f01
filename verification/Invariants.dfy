/** What holds in every world of every legal run. */
module Invariants {
  import opened Model
  import opened Journals
  import opened Machine
  import opened Paths
  import Rules

  // ---------------------------------------------------------------- the queue and the journal

  /** Two proposals may sit in one queue: different identifiers, different file identities, and not
      both waiting for the same relative path of the same root. */
  predicate Apart(p: Proposal, q: Proposal) {
    && p.id != q.id
    && p.identity != q.identity
    && !(p.status.SProposed? && q.status.SProposed? && p.sourceRoot == q.sourceRoot && p.relative == q.relative)
  }

  ghost predicate AllApart(items: seq<Proposal>) {
    forall i, j :: 0 <= i < j < |items| ==> Apart(items[i], items[j])
  }

  predicate Known(p: Proposal, issued: set<Id>) {
    && p.id in issued && p.sourceRoot in issued && p.relative != []
    && (p.destination.Some? ==> p.destination.value.root in issued)
  }

  ghost predicate RootsDistinct(roots: seq<Root>) {
    forall i, j :: 0 <= i < j < |roots| ==> roots[i].id != roots[j].id && roots[i].path != roots[j].path
  }

  ghost predicate StateInv(env: Env, st: State, issued: set<Id>) {
    && AllApart(st.proposals)
    && ProposedCount(st.proposals) <= MAX_PROPOSALS
    && (forall p <- st.proposals :: Known(p, issued))
    && RootsDistinct(st.roots) && |st.roots| <= MAX_ROOTS
    && (forall root <- st.roots :: root.id in issued)
    && Rules.AllValid(env, st.rules)
    && (forall rule <- st.rules :: rule.destinationRoot in issued)
  }

  /** A proposal never runs ahead of its row, knows its source path, and, while both agree on the
      revision of an undecided row, would be moved exactly where the journal says. */
  predicate Bound(st: State, p: Proposal, row: Row) {
    && p.revision <= row.revision
    && (!p.status.SProposed? ==> Rank(row.state) >= 5)
    && (SourcePath(st, p, AnyRole).Some? ==> row.source == SourcePath(st, p, AnyRole).value)
    && (p.revision == row.revision && row.state.Proposed? && DestPath(st, p).Some? ==> row.dest == DestPath(st, p).value)
  }

  ghost predicate BoundInv(st: State, rows: Rows) {
    forall p <- st.proposals :: p.id in rows ==> Bound(st, p, rows[p.id])
  }

  /** The saved copy of a proposal is the same file, and was not decided before the one in memory. */
  predicate SameItem(p: Proposal, q: Proposal) {
    p.id == q.id ==>
      && p.identity == q.identity && p.sourceRoot == q.sourceRoot && p.relative == q.relative
      && (!p.status.SProposed? ==> !q.status.SProposed?)
  }

  ghost predicate PairInv(saved: State, memory: State) {
    forall p <- saved.proposals, q <- memory.proposals :: SameItem(p, q)
  }

  ghost predicate RowsInv(rows: Rows, issued: set<Id>) {
    && DistinctRowids(rows)
    && rows.Keys <= issued
    && forall id <- rows ::
         rows[id].revision >= 1 && (rows[id].state.Proposed? || rows[id].state.Approved? ==> rows[id].sha.None?)
  }

  ghost predicate QueueInv(env: Env, w: World) {
    && RowsInv(w.rows, w.issued)
    && StateInv(env, w.saved, w.issued) && BoundInv(w.saved, w.rows)
    && (w.proc.Up? ==>
          StateInv(env, Memory(w), w.issued) && BoundInv(Memory(w), w.rows) && PairInv(w.saved, Memory(w)))
  }

  // ---------------------------------------------------------------- the move under way

  /** The file map predicted from the one the move began with. */
  function Expect(f: Flight): Files
    requires f.to != []
  {
    match f.phase
    case Opened => f.before
    case Clear => f.before
    case Ready => f.before
    case Renamed(copy, _) => (f.before - {f.from})[f.to := copy]
    case Staging(copy) => f.before[StagePath(f) := copy]
    case Sealed(copy) => f.before[StagePath(f) := copy]
    case Recorded(copy) => f.before[StagePath(f) := copy]
    case Placed(copy, _) => f.before[f.to := copy]
    case Retired(copy) => f.before[f.to := copy] - {f.from}
  }

  predicate AgreeAt(a: Files, b: Files, p: Path) {
    (p in a <==> p in b) && (p in a ==> a[p] == b[p])
  }

  ghost predicate Agree(a: Files, b: Files, touched: set<Path>) {
    forall p :: p !in touched ==> AgreeAt(a, b, p)
  }

  predicate Committed(f: Flight) {
    !f.phase.Opened? && !f.phase.Clear?
  }

  /** What the flight took from the proposal in memory. */
  predicate PlanInv(w: World, f: Flight)
    requires IsUp(w)
  {
    && f.from != [] && f.to != []
    && Has(Items(w), f.id)
    && var item := Item(Items(w), f.id);
    && f.expected == item.identity
    && match f.kind
       case Approve =>
         SourcePath(Memory(w), item, WatchedRole) == Some(f.from) && DestPath(Memory(w), item) == Some(f.to) && f.from in f.before
       case Undo =>
         SourcePath(Memory(w), item, AnyRole) == Some(f.to) && DestPath(Memory(w), item) == Some(f.from)
         && item.status.SCompleted?
  }

  /** The journal state that goes with each phase, and the row's own account of the move. */
  predicate JournalInv(env: Env, w: World, f: Flight)
    requires f.from != [] && f.to != []
  {
    Committed(f) ==>
      && f.id in w.rows
      && var row := w.rows[f.id];
      && (f.kind.Undo? ==> row.state.Undoing? && row.source == f.to && SameDevice(env, f.from, f.to))
      && (f.kind.Approve? ==> row.source == f.from && row.dest == f.to)
      && match f.phase
         case Renamed(_, verified) =>
           && SameDevice(env, f.from, f.to)
           && (f.kind.Approve? ==> row.sha.None? && (row.state.Approved? || (verified && (row.state.Published? || row.state.SourceRemoved?))))
         case Placed(_, verified) =>
           && f.kind.Approve? && !SameDevice(env, f.from, f.to) && row.sha.Some?
           && (row.state.Copying? || (verified && row.state.Published?))
         case Retired(_) =>
           && f.kind.Approve? && !SameDevice(env, f.from, f.to) && row.sha.Some?
           && (row.state.Published? || row.state.SourceRemoved?)
         case Recorded(_) => f.kind.Approve? && !SameDevice(env, f.from, f.to) && row.state.Copying? && row.sha.Some?
         case Staging(_) => f.kind.Approve? && !SameDevice(env, f.from, f.to) && row.state.Copying?
         case Sealed(_) => f.kind.Approve? && !SameDevice(env, f.from, f.to) && row.state.Copying?
         case Ready =>
           f.kind.Approve? ==> row.sha.None? && (row.state.Approved? || (row.state.Copying? && !SameDevice(env, f.from, f.to)))
         case Opened => true
         case Clear => true
  }

  predicate IsCopy(f: Flight, copy: Node) {
    && copy.Regular? && copy.links == 1 && f.from in f.before && f.before[f.from].Regular?
    && copy.bytes == f.before[f.from].bytes && copy.mtime == f.before[f.from].mtime
  }

  predicate Digested(env: Env, copy: Node, sha: Option<Digest>) {
    copy.Regular? && sha == Some(Hash(env, copy.bytes))
  }

  /** What is known of the bytes in flight at the paths nobody else touched. */
  predicate CopyInv(env: Env, w: World, f: Flight)
    requires f.from != [] && f.to != []
  {
    var own := f.from !in f.touched;
    var stage := StagePath(f);
    var sha := if f.id in w.rows then w.rows[f.id].sha else None;
    && (!f.phase.Opened? && f.to !in f.touched ==> f.to !in f.before)
    && (!f.phase.Opened? && f.touched == {} ==> !FoldTaken(env, f.before, f.to))
    && (own && Committed(f) && !f.phase.Ready? ==> IdentityAt(env, f.before, f.from) == Ok(f.expected))
    && match f.phase
       case Renamed(copy, verified) =>
         && (own ==> f.from in f.before && copy == f.before[f.from])
         && (verified && f.to !in f.touched ==> IdentityAt(env, map[f.to := copy], f.to) == Ok(f.expected))
       case Staging(copy) =>
         && copy.Regular? && copy.links == 1 && (stage !in f.touched ==> stage !in f.before)
         && (own ==> f.from in f.before && f.before[f.from].Regular? && copy.bytes <= f.before[f.from].bytes)
       case Sealed(copy) =>
         copy.Regular? && (stage !in f.touched ==> stage !in f.before) && (own ==> IsCopy(f, copy)) && |copy.bytes| == f.expected.size
       case Recorded(copy) =>
         && Digested(env, copy, sha) && (stage !in f.touched ==> stage !in f.before) && (own ==> IsCopy(f, copy))
         && |copy.bytes| == f.expected.size
       case Placed(copy, verified) =>
         && (own && stage !in f.touched ==> IsCopy(f, copy))
         && (stage !in f.touched ==> Digested(env, copy, sha))
         && (verified && f.to !in f.touched ==> Digested(env, copy, sha))
       case Retired(copy) =>
         && (own && stage !in f.touched ==> IsCopy(f, copy))
         && (f.to !in f.touched ==> Digested(env, copy, sha))
       case Opened => true
       case Clear => true
       case Ready => true
  }

  ghost predicate FlightInv(env: Env, w: World, f: Flight)
    requires IsUp(w)
  {
    && PlanInv(w, f)
    && JournalInv(env, w, f)
    && CopyInv(env, w, f)
    && Agree(w.files, Expect(f), f.touched)
  }

  // ---------------------------------------------------------------- recovery under way

  /** Recovery judges the same file whether it looks at the loaded or at the saved queue. */
  predicate SameEvidence(w: World, id: Id)
    requires IsUp(w)
  {
    RowIs(w, id, SourceRemoved) ==> (Has(Items(w), id) <==> Has(w.saved.proposals, id))
  }

  ghost predicate LoadInv(w: World)
    requires IsUp(w)
  {
    forall id <- w.rows :: SameEvidence(w, id)
  }

  ghost predicate TodoInv(w: World, todo: seq<Id>, whole: bool) {
    && (forall i, j :: 0 <= i < j < |todo| ==> todo[i] != todo[j])
    && (forall id <- todo :: id in w.rows)
    && (whole ==> forall id <- w.rows :: Unsettled(w.rows[id].state) ==> id in todo)
  }

  ghost predicate TaskInv(env: Env, w: World)
    requires IsUp(w)
  {
    match w.proc.task
    case Idle => true
    case Loading => LoadInv(w)
    case Recovering(todo, whole, _) => LoadInv(w) && TodoInv(w, todo, whole)
    case Moving(f) => FlightInv(env, w, f)
  }

  ghost predicate Inv(env: Env, w: World) {
    QueueInv(env, w) && (w.proc.Up? ==> TaskInv(env, w))
  }
}
