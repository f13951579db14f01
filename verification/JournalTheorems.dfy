/** What every run, with any interference, errors, crashes and restarts, does to the journal and the
    queue. */
module JournalTheorems {
  import opened Model
  import opened Journals
  import opened Machine
  import opened Paths
  import opened Invariants
  import opened FlightProofs
  import QueueProofs
  import Rules

  // ---------------------------------------------------------------- one step, one row

  /** How one step may change a row that exists before and after it. */
  predicate RowStep(old': Row, new': Row) {
    || new' == old'
    || (new'.revision == old'.revision && new'.state == old'.state && old'.state.Copying?
        && new'.source == old'.source && new'.dest == old'.dest)
    || (new'.revision == old'.revision + 1 && new'.source == old'.source && new'.sha == old'.sha
        && ((new'.state == old'.state == Proposed)
            || (new'.dest == old'.dest && Allowed(old'.state, new'.state) && Rank(new'.state) > Rank(old'.state)
                && !new'.state.FailedSafely?
                && (new'.state.NeedsAttention? ==> old'.state in {Approved, Copying, Published, SourceRemoved, Undoing}))))
  }

  lemma CommitMovesRow(env: Env, w: World, next: JState, now: int, id: Id)
    requires Enabled(env, w, Commit(next, now)) && id in w.rows
    ensures RowStep(w.rows[id], AfterCommit(w, next, now).rows[id])
  {
  }

  lemma FileStepMovesRow(env: Env, w: World, step: FileStep, id: Id)
    requires Enabled(env, w, File(step)) && id in w.rows
    ensures RowStep(w.rows[id], AfterStep(env, w, FlightOf(w), step).rows[id])
  {
  }

  lemma StepMovesRow(env: Env, w: World, a: Action, id: Id)
    requires Enabled(env, w, a) && id in w.rows && id in Apply(env, w, a).rows && w.rows.Keys <= w.issued
    ensures RowStep(w.rows[id], Apply(env, w, a).rows[id])
  {
    match a
    case Commit(next, now) => CommitMovesRow(env, w, next, now, id);
    case File(step) => FileStepMovesRow(env, w, step, id);
    case _ => OtherStepMovesRow(env, w, a, id);
  }

  lemma OtherStepMovesRow(env: Env, w: World, a: Action, id: Id)
    requires Enabled(env, w, a) && !a.Commit? && !a.File?
    requires id in w.rows && id in Apply(env, w, a).rows && w.rows.Keys <= w.issued
    ensures RowStep(w.rows[id], Apply(env, w, a).rows[id])
  {
    hide AfterCommit;
    hide AfterStep;
    hide CanStep;
    hide CanCommit;
    hide Marked;
    match a
    case SettleNext(now) => SettleMovesRow(env, w, now, id);
    case _ =>
  }

  lemma SettleMovesRow(env: Env, w: World, now: int, id: Id)
    requires Enabled(env, w, SettleNext(now)) && id in w.rows
    ensures RowStep(w.rows[id], AfterSettle(w, now).rows[id])
  {
    hide Marked;
  }

  /** Rows appear only when an item is queued, under a new identifier. They disappear exactly by retention: the
      finished ones that are thirty days old, and those with ten thousand finished ones changed later. */
  lemma RowsComeAndGo(env: Env, w: World, a: Action, id: Id)
    requires RowsInv(w.rows, w.issued) && Enabled(env, w, a)
    ensures var w' := Apply(env, w, a);
            && (id in w.rows ==>
                  (id !in w'.rows <==>
                    && w.rows[id].state in {Completed, Undone, FailedSafely, Ignored}
                    && ((a.RetainYoung? && w.rows[id].updatedAt < a.now - 2592000)
                        || (a.RetainNewest? && |FinishedLater(w.rows, id)| >= 10000))))
            && (id !in w.rows && id in w'.rows ==>
                  id !in w.issued && w'.rows[id].state.Proposed? && w'.rows[id].revision == 1)
            && w.issued <= w'.issued
  {
    hide FinishedLater;
    if a.RetainNewest? {
      if id in w.rows {
        DropExcessIsRank(w.rows, MAX_TERMINAL, id);
        FinishedOrNot(w.rows[id].state);
      }
    } else if !a.RetainYoung? && !a.Create? {
      RowsStay(env, w, a);
    }
  }

  lemma FinishedOrNot(s: JState)
    ensures s in {Completed, Undone, FailedSafely, Ignored} <==>
            s !in {Proposed, Approved, Copying, Published, SourceRemoved, Undoing, NeedsAttention}
  {
  }

  lemma RowsStay(env: Env, w: World, a: Action)
    requires Enabled(env, w, a) && !a.RetainYoung? && !a.RetainNewest? && !a.Create?
    ensures Apply(env, w, a).rows.Keys == w.rows.Keys && w.issued <= Apply(env, w, a).issued
  {
    match a
    case Commit(next, now) =>
    case File(step) =>
    case _ =>
  }

  // ---------------------------------------------------------------- histories

  /** The successive states one entry has been through, over all restarts. */
  ghost function Trail(r: Run, id: Id): seq<JState> {
    match r
    case Start(_) => []
    case Then(prev, _, w') => NextTrail(Trail(prev, id), prev.Last(), w', id)
  }

  function NextTrail(t: seq<JState>, w: World, w': World, id: Id): seq<JState> {
    if id in w'.rows && (id !in w.rows || w.rows[id].state != w'.rows[id].state) then t + [w'.rows[id].state] else t
  }

  predicate Climbs(t: seq<JState>) {
    forall i :: 0 <= i < |t| - 1 ==> Allowed(t[i], t[i + 1]) && Rank(t[i]) < Rank(t[i + 1])
  }

  /** The states an entry may have been through: as far as it got in a rename or a copy and its undo, with a call
      for attention instead of the next step at most once, and at the end; or a dismissal. */
  predicate IsLife(t: seq<JState>) {
    || t <= RENAMED || t <= COPIED || t == [Proposed, Ignored]
    || (|t| >= 2 && t[|t| - 1] == NeedsAttention
        && t[|t| - 2] in {Approved, Copying, Published, SourceRemoved, Undoing}
        && (t[..|t| - 1] <= RENAMED || t[..|t| - 1] <= COPIED))
  }

  lemma LifeGoesOn(t: seq<JState>, old': Row, new': Row)
    requires IsLife(t) && t != [] && t[|t| - 1] == old'.state && RowStep(old', new') && new'.state != old'.state
    ensures IsLife(t + [new'.state])
  {
    var u := t + [new'.state];
    assert u[..|u| - 1] == t;
  }

  predicate TrailInv(t: seq<JState>, w: World, id: Id) {
    && IsLife(t)
    && Climbs(t) && (t != [] ==> t[0].Proposed?)
    && (id !in w.issued ==> t == [])
    && (id in w.rows ==> t != [] && t[|t| - 1] == w.rows[id].state)
  }

  lemma TrailGoesOn(t: seq<JState>, w: World, w': World, id: Id)
    requires TrailInv(t, w, id) && w.rows.Keys <= w.issued <= w'.issued
    requires id !in w.rows && id in w'.rows ==> id !in w.issued && w'.rows[id].state.Proposed?
    requires id in w.rows && id in w'.rows ==> RowStep(w.rows[id], w'.rows[id])
    requires w'.rows.Keys <= w'.issued
    ensures TrailInv(NextTrail(t, w, w', id), w', id)
  {
    hide IsLife;
    if id in w.rows && id in w'.rows && w.rows[id].state != w'.rows[id].state {
      LifeGoesOn(t, w.rows[id], w'.rows[id]);
    } else if id !in w.rows && id in w'.rows {
      FirstOfALife();
      assert NextTrail(t, w, w', id) == [Proposed];
    }
  }

  lemma FirstOfALife()
    ensures IsLife([]) && IsLife([Proposed])
  {
  }

  lemma {:induction false} TrailClimbs(env: Env, r: Run, id: Id)
    requires Legal(env, r)
    ensures TrailInv(Trail(r, id), r.Last(), id)
  {
    match r
    case Start(_) =>
    case Then(prev, a, w') =>
      TrailClimbs(env, prev, id);
      RowHistoryStep(env, prev, a, id);
      RowsAreSound(env, r);
      TrailGoesOn(Trail(prev, id), prev.Last(), w', id);
  }

  lemma RowsAreSound(env: Env, r: Run)
    requires Legal(env, r)
    ensures RowsInv(r.Last().rows, r.Last().issued)
  {
    RunKeepsInv(env, r);
  }

  /** All that can happen to one entry in the next step of a legal run. */
  lemma RowHistoryStep(env: Env, prev: Run, a: Action, id: Id)
    requires Legal(env, prev) && Enabled(env, prev.Last(), a)
    ensures var w, w' := prev.Last(), Apply(env, prev.Last(), a);
            && w.rows.Keys <= w.issued <= w'.issued
            && (id !in w.rows && id in w'.rows ==>
                  id !in w.issued && w'.rows[id].state.Proposed? && w'.rows[id].revision == 1)
            && (id in w.rows && id in w'.rows ==> RowStep(w.rows[id], w'.rows[id]))
  {
    RowsAreSound(env, prev);
    RowsComeAndGo(env, prev.Last(), a, id);
    if id in prev.Last().rows && id in Apply(env, prev.Last(), a).rows {
      StepMovesRow(env, prev.Last(), a, id);
    }
  }

  lemma {:induction false} RankBound(t: seq<JState>, i: nat, j: nat)
    requires Climbs(t) && i <= j < |t|
    ensures Rank(t[i]) + (j - i) <= Rank(t[j])
    decreases j
  {
    if i < j {
      RankBound(t, i, j - 1);
    }
  }

  /** Every entry starts as Proposed and follows allowed transitions; no state ever recurs, so it is
      approved at most once, and it changes state at most seven times. */
  lemma EntryHistory(env: Env, r: Run, id: Id)
    requires Legal(env, r)
    ensures var t := Trail(r, id);
            && (t != [] ==> t[0].Proposed?)
            && (forall i :: 0 <= i < |t| - 1 ==> Allowed(t[i], t[i + 1]))
            && (forall i, j :: 0 <= i < j < |t| ==> t[i] != t[j])
            && |t| <= 8 && IsLife(t)
            && (id in r.Last().rows ==> t != [] && t[|t| - 1] == r.Last().rows[id].state)
  {
    hide IsLife;
    TrailClimbs(env, r, id);
    var t := Trail(r, id);
    forall i, j | 0 <= i < j < |t| ensures t[i] != t[j] {
      RankBound(t, i, j);
    }
    if t != [] {
      RankBound(t, 0, |t| - 1);
    }
  }

  /** How many steps found the entry at this revision and left it at another. */
  ghost function Consumed(r: Run, id: Id, revision: nat): nat {
    match r
    case Start(_) => 0
    case Then(prev, _, w') =>
      var w := prev.Last();
      Consumed(prev, id, revision)
      + if id in w.rows && id in w'.rows && w.rows[id].revision == revision != w'.rows[id].revision then 1 else 0
  }

  lemma {:induction false} ConsumedBound(env: Env, r: Run, id: Id, revision: nat)
    requires Legal(env, r)
    ensures Consumed(r, id, revision) <= 1
    ensures id !in r.Last().issued ==> Consumed(r, id, revision) == 0
    ensures id in r.Last().rows && r.Last().rows[id].revision <= revision ==> Consumed(r, id, revision) == 0
  {
    match r
    case Start(_) =>
    case Then(prev, a, w') =>
      ConsumedBound(env, prev, id, revision);
      RowHistoryStep(env, prev, a, id);
  }

  /** Each revision of an entry is used by at most one successful change, ever. */
  lemma RevisionUsedOnce(env: Env, r: Run, id: Id, revision: nat)
    requires Legal(env, r)
    ensures Consumed(r, id, revision) <= 1
  {
    ConsumedBound(env, r, id, revision);
  }

  lemma {:induction false} IssuedGrows(env: Env, early: Run, r: Run)
    requires Legal(env, r) && Continues(r, early)
    ensures early.Last().issued <= r.Last().issued && early.Last().rows.Keys <= early.Last().issued
  {
    if r == early {
      RowsAreSound(env, r);
    } else {
      IssuedGrows(env, early, r.prev);
      RowHistoryStep(env, r.prev, r.act, 0);
    }
  }

  /** An entry that is still there was there all along, and never steps back. */
  lemma {:induction false} RankNeverFalls(env: Env, early: Run, r: Run, id: Id)
    requires Legal(env, r) && Continues(r, early) && id in early.Last().rows && id in r.Last().rows
    ensures Rank(early.Last().rows[id].state) <= Rank(r.Last().rows[id].state)
  {
    if r != early {
      IssuedGrows(env, early, r.prev);
      RowHistoryStep(env, r.prev, r.act, id);
      RankNeverFalls(env, early, r.prev, id);
    }
  }

  // ---------------------------------------------------------------- revision binding

  /** In memory and on disk, a proposal's revision never exceeds its entry's; and while they are equal
      and the entry is undecided, the entry names exactly the two paths that approving would use. */
  lemma RevisionBinding(env: Env, r: Run, st: State, p: Proposal)
    requires Legal(env, r)
    requires st == r.Last().saved || (IsUp(r.Last()) && st == Memory(r.Last()))
    requires p in st.proposals && p.id in r.Last().rows
    ensures var row := r.Last().rows[p.id];
            && p.revision <= row.revision
            && (SourcePath(st, p, WatchedRole).Some? ==> row.source == SourcePath(st, p, WatchedRole).value)
            && (p.revision == row.revision && row.state.Proposed? && DestPath(st, p).Some? ==>
                  row.dest == DestPath(st, p).value)
  {
    RunKeepsInv(env, r);
    assert Bound(st, p, r.Last().rows[p.id]);
    if SourcePath(st, p, WatchedRole).Some? {
      QueueProofs.RolesAgree(st.roots, p.sourceRoot, WatchedRole);
    }
  }

  // ---------------------------------------------------------------- the queue

  /** The queue, in memory and on disk: distinct files, at most one waiting item per path, bounded. */
  lemma QueueIsSound(env: Env, r: Run, st: State)
    requires Legal(env, r)
    requires st == r.Last().saved || (IsUp(r.Last()) && st == Memory(r.Last()))
    ensures forall i, j :: 0 <= i < j < |st.proposals| ==>
              var p, q := st.proposals[i], st.proposals[j];
              && p.id != q.id && p.identity != q.identity
              && !(p.status == SProposed && q.status == SProposed && p.sourceRoot == q.sourceRoot && p.relative == q.relative)
    ensures |QueueProofs.WaitingAt(st.proposals)| <= 1000
    ensures Rules.AllValid(env, st.rules) && |st.roots| <= 16
    ensures forall i, j :: 0 <= i < j < |st.roots| ==> st.roots[i].id != st.roots[j].id && st.roots[i].path != st.roots[j].path
  {
    RunKeepsInv(env, r);
    QueueProofs.CountIsWaiting(st.proposals);
    forall i, j | 0 <= i < j < |st.proposals| ensures Apart(st.proposals[i], st.proposals[j]) {
    }
  }

  ghost predicate NoneWaits(items: seq<Proposal>, id: Id) {
    forall p <- items :: p.id == id ==> !p.status.SProposed?
  }

  /** No item with this identifier waits for a decision, on disk or in memory. */
  ghost predicate Decided(w: World, id: Id) {
    NoneWaits(w.saved.proposals, id) && (IsUp(w) ==> NoneWaits(Items(w), id))
  }

  lemma MarkKeepsDecided(items: seq<Proposal>, marked: Id, revision: nat, status: Status, id: Id)
    requires NoneWaits(items, id)
    requires status.SProposed? && Has(items, marked) ==> Item(items, marked).status.SProposed?
    ensures NoneWaits(Marked(items, marked, revision, status), id)
  {
    if Has(items, marked) {
      assert Item(items, marked) in items;
    }
  }

  lemma CommitKeepsDecided(env: Env, w: World, next: JState, now: int, id: Id)
    requires Enabled(env, w, Commit(next, now)) && NoneWaits(Items(w), id)
    ensures NoneWaits(Items(AfterCommit(w, next, now)), id)
  {
    var marked := FlightOf(w).id;
    var status :=
      if next.Completed? then SCompleted else if next.Undone? then SUndone
      else if Has(Items(w), marked) then Item(Items(w), marked).status else SIgnored;
    MarkKeepsDecided(Items(w), marked, Moved(w.rows[marked], next, now).revision, status, id);
  }

  lemma SettleKeepsDecided(env: Env, w: World, now: int, id: Id)
    requires Enabled(env, w, SettleNext(now)) && NoneWaits(Items(w), id)
    ensures NoneWaits(Items(AfterSettle(w, now)), id)
  {
    hide NoneWaits;
    hide Marked;
    var marked := Head(w);
    var verdict := HeadVerdict(w);
    if verdict.Some? {
      MarkKeepsDecided(Items(w), marked, Moved(w.rows[marked], verdict.value, now).revision,
                       if verdict.value.Completed? then SCompleted else SNeedsAttention, id);
    }
  }

  lemma PruneKeepsDecided(env: Env, items: seq<Proposal>, id: Id)
    requires AllApart(items) && NoneWaits(items, id)
    ensures NoneWaits(PruneItems(items), id)
  {
    var n := Finished(items);
    QueueProofs.DropFinishedKeeps(items, if n > MAX_TERMINAL then n - MAX_TERMINAL else 0);
  }

  /** While the process runs, a decided item never waits again. */
  lemma DecisionStaysInMemory(env: Env, w: World, a: Action, id: Id)
    requires QueueInv(env, w) && Enabled(env, w, a) && IsUp(w) && IsUp(Apply(env, w, a)) && id in w.issued
    requires NoneWaits(Items(w), id)
    ensures NoneWaits(Items(Apply(env, w, a)), id)
  {
    hide AfterCommit;
    hide AfterSettle;
    hide CanStep;
    hide CanCommit;
    hide AfterRevise;
    hide Marked;
    match a
    case Commit(next, now) => CommitKeepsDecided(env, w, next, now, id);
    case Prune => PruneKeepsDecided(env, Items(w), id);
    case SettleNext(now) => SettleKeepsDecided(env, w, now, id);
    case Ignore(marked, now) =>
      MarkKeepsDecided(Items(w), marked, Moved(w.rows[marked], Ignored, now).revision, SIgnored, id);
    case Revise(other, choice, name, now) => ReviseKeepsDecided(env, w, other, choice, name, now, id);
    case _ =>
  }

  lemma ReviseKeepsDecided(env: Env, w: World, other: Id, choice: Choice, name: Name, now: int, id: Id)
    requires QueueInv(env, w) && Enabled(env, w, Revise(other, choice, name, now)) && NoneWaits(Items(w), id)
    ensures NoneWaits(Items(AfterRevise(w, other, choice, name, now)), id)
  {
    assert Item(Items(w), other) in Items(w);
  }

  lemma StepKeepsDecided(env: Env, w: World, a: Action, id: Id)
    requires QueueInv(env, w) && Enabled(env, w, a) && Decided(w, id) && id in w.issued
    ensures Decided(Apply(env, w, a), id)
  {
    if IsUp(w) && IsUp(Apply(env, w, a)) {
      DecisionStaysInMemory(env, w, a, id);
    }
  }

  // ---------------------------------------------------------------- pruning the queue

  function Open(items: seq<Proposal>): seq<Proposal> {
    if items == [] then []
    else (if items[0].status in {SProposed, SNeedsAttention} then [items[0]] else []) + Open(items[1..])
  }

  function Closed(items: seq<Proposal>): seq<Proposal> {
    if items == [] then []
    else (if items[0].status in {SCompleted, SIgnored, SUndone} then [items[0]] else []) + Closed(items[1..])
  }

  predicate Subsequence(a: seq<Proposal>, b: seq<Proposal>) {
    a == [] || (b != [] && ((a[0] == b[0] && Subsequence(a[1..], b[1..])) || Subsequence(a, b[1..])))
  }

  lemma FinishedOrOpen(item: Proposal)
    ensures FinishedItem(item) <==> item.status in {SCompleted, SIgnored, SUndone}
    ensures !FinishedItem(item) <==> item.status in {SProposed, SNeedsAttention}
  {
  }

  lemma {:induction false} DropFinishedIsExact(items: seq<Proposal>, remove: nat)
    requires remove <= Finished(items)
    ensures |Closed(items)| == Finished(items)
    ensures Open(DropFinished(items, remove)) == Open(items)
    ensures Closed(DropFinished(items, remove)) == Closed(items)[remove..]
    ensures Subsequence(DropFinished(items, remove), items)
    decreases |items|
  {
    hide FinishedItem;
    if items != [] {
      FinishedOrOpen(items[0]);
      var next := if FinishedItem(items[0]) && remove > 0 then remove - 1 else remove;
      if !FinishedItem(items[0]) || remove > 0 {
        DropFinishedIsExact(items[1..], next);
      } else {
        DropFinishedIsExact(items[1..], 0);
      }
      var rest := DropFinished(items[1..], next);
      assert ([items[0]] + rest)[1..] == rest;
    }
  }

  /** Pruning keeps every item that is not finished and the last ten thousand that are, in order. */
  lemma PruneIsExact(items: seq<Proposal>)
    ensures Open(PruneItems(items)) == Open(items) && Subsequence(PruneItems(items), items)
    ensures var n := |Closed(items)|;
            Closed(PruneItems(items)) == if n > 10000 then Closed(items)[n - 10000..] else Closed(items)
  {
    hide Open;
    hide Closed;
    hide Subsequence;
    hide Finished;
    hide DropFinished;
    var n := Finished(items);
    var remove := if n > MAX_TERMINAL then n - MAX_TERMINAL else 0;
    DropFinishedIsExact(items, remove);
    assert PruneItems(items) == DropFinished(items, remove);
    assert Closed(items)[0..] == Closed(items);
  }

  lemma {:induction false} DecidedForever(env: Env, early: Run, r: Run, id: Id)
    requires Legal(env, r) && Continues(r, early) && Decided(early.Last(), id) && id in early.Last().issued
    ensures Decided(r.Last(), id) && id in r.Last().issued
  {
    if r != early {
      DecidedForever(env, early, r.prev, id);
      RunKeepsInv(env, r.prev);
      RowsComeAndGo(env, r.prev.Last(), r.act, id);
      StepKeepsDecided(env, r.prev.Last(), r.act, id);
    }
  }

  lemma {:induction false} PrefixIsLegal(env: Env, early: Run, r: Run)
    requires Legal(env, r) && Continues(r, early)
    ensures Legal(env, early)
  {
    if r != early {
      PrefixIsLegal(env, early, r.prev);
    }
  }

  lemma SavedCopyIsOnly(env: Env, w: World, p: Proposal)
    requires QueueInv(env, w) && p in w.saved.proposals && !p.status.SProposed?
    ensures Decided(w, p.id) && p.id in w.issued
  {
    assert Known(p, w.issued);
    QueueProofs.SelfPair(env, w.saved, w.issued);
    forall q | q in w.saved.proposals && q.id == p.id ensures !q.status.SProposed? {
      assert SameItem(p, q);
    }
    if IsUp(w) {
      forall q | q in Items(w) && q.id == p.id ensures !q.status.SProposed? {
        assert SameItem(p, q);
      }
    }
  }

  /** Once the saved queue shows a decision, the item never waits again, on disk or in memory, whatever
      crashes and restarts follow. */
  lemma SavedDecisionIsFinal(env: Env, early: Run, r: Run, p: Proposal)
    requires Legal(env, r) && Continues(r, early)
    requires p in early.Last().saved.proposals && !p.status.SProposed?
    ensures Decided(r.Last(), p.id)
  {
    PrefixIsLegal(env, early, r);
    RunKeepsInv(env, early);
    SavedCopyIsOnly(env, early.Last(), p);
    DecidedForever(env, early, r, p.id);
  }

  /** In no continuation of this run does the item ever wait for a decision in memory. */
  ghost predicate NeverWaitsAgain(env: Env, r: Run, id: Id) {
    forall later: Run :: Legal(env, later) && Continues(later, r) && IsUp(later.Last()) ==> NoneWaits(Items(later.Last()), id)
  }

  /** A decision taken in memory lasts for ever exactly when the saved queue shows it waiting no more:
      until then a crash brings the item back. */
  lemma DecisionLastsIffSaved(env: Env, r: Run, id: Id)
    requires Legal(env, r) && IsUp(r.Last()) && NoneWaits(Items(r.Last()), id) && id in r.Last().issued
    ensures NeverWaitsAgain(env, r, id) <==> NoneWaits(r.Last().saved.proposals, id)
  {
    var w := r.Last();
    var crashed := Then(r, Crash, w.(proc := Down));
    var later := Then(crashed, Load, w.(proc := Up(w.saved, Loading)));
    assert Continues(crashed, r) && Legal(env, crashed);
    assert Continues(later, r) && Legal(env, later);
    if NoneWaits(w.saved.proposals, id) {
      forall other: Run | Legal(env, other) && Continues(other, r) && IsUp(other.Last())
        ensures NoneWaits(Items(other.Last()), id)
      {
        DecidedForever(env, r, other, id);
      }
    }
  }
}
