/** Where an undo goes and what it finds: back to the path its entry names, from the path its entry names
    unless recovery completed the entry on behalf of a stale item, and to a file that is still there. */
module UndoTheorems {
  import opened Model
  import opened Journals
  import opened Machine
  import opened Invariants
  import opened QueueProofs
  import opened FlightProofs
  import opened FileTheorems
  import opened JournalTheorems
  import opened RecoveryTheorems
  import opened EvidenceTheorems

  // ---------------------------------------------------------------- items that name their entry's path

  /** The item resolves to the destination its entry records. */
  predicate Names(st: State, p: Proposal, row: Row) {
    DestPath(st, p) == Some(row.dest)
  }

  /** Recovery completes this entry, and marks completed an item that does not resolve to its destination. */
  predicate AdoptsStale(env: Env, w: World, a: Action, id: Id) {
    && a.SettleNext? && Enabled(env, w, a) && Head(w) == id && Has(Items(w), id)
    && HeadVerdict(w) == Some(Completed)
    && !Names(Memory(w), Item(Items(w), id), w.rows[id])
  }

  /** Recovery has once completed this entry on behalf of a stale item. */
  ghost predicate Astray(env: Env, r: Run, id: Id) {
    r.Then? && (Astray(env, r.prev, id) || AdoptsStale(env, r.prev.Last(), r.act, id))
  }

  /** A completed item that resolves to any destination resolves to its entry's. */
  ghost predicate Straight(st: State, rows: Rows, id: Id) {
    id in rows ==>
      forall p <- st.proposals :: p.id == id && p.status.SCompleted? && DestPath(st, p).Some? ==> Names(st, p, rows[id])
  }

  /** The entry was completed, and no item resolves to its destination. */
  ghost predicate Stray(st: State, rows: Rows, id: Id) {
    id in rows ==> Rank(rows[id].state) >= 5 && forall p <- st.proposals :: p.id == id ==> !Names(st, p, rows[id])
  }

  ghost predicate Follows(st: State, rows: Rows, id: Id, astray: bool) {
    if astray then Stray(st, rows, id) else Straight(st, rows, id)
  }

  /** While recovering, memory and disk resolve an item to the same destination. */
  ghost predicate SameChoices(w: World, id: Id) {
    w.proc.Up? && (w.proc.task.Loading? || w.proc.task.Recovering?) ==>
      && w.proc.state.roots == w.saved.roots
      && forall p <- w.proc.state.proposals, q <- w.saved.proposals ::
           p.id == id && q.id == id ==> p.destination == q.destination && p.name == q.name
  }

  ghost predicate CourseInv(w: World, id: Id, astray: bool) {
    && (astray ==> id in w.issued)
    && Follows(w.saved, w.rows, id, astray)
    && (w.proc.Up? ==> Follows(w.proc.state, w.rows, id, astray))
    && SameChoices(w, id)
  }

  // ---------------------------------------------------------------- what keeps the course

  /** An item of the new state resolves as one of the old state did, or no longer; none became completed. */
  predicate Heir(st: State, st': State, p: Proposal, p': Proposal) {
    && p.id == p'.id && (p'.status.SCompleted? ==> p.status.SCompleted?)
    && (DestPath(st', p').None? || DestPath(st', p') == DestPath(st, p))
  }

  ghost predicate Inherits(st: State, st': State, id: Id) {
    forall p' <- st'.proposals :: p'.id == id ==> exists p <- st.proposals :: Heir(st, st', p, p')
  }

  /** The entry, if it is still there, keeps its destination and does not fall below completion. */
  predicate RowKept(rows: Rows, rows': Rows, id: Id) {
    id in rows' ==>
      && id in rows && rows'[id].dest == rows[id].dest
      && (Rank(rows[id].state) >= 5 ==> Rank(rows'[id].state) >= 5)
  }

  lemma InheritsKeeps(st: State, st': State, rows: Rows, rows': Rows, id: Id, astray: bool)
    requires Follows(st, rows, id, astray) && Inherits(st, st', id) && RowKept(rows, rows', id)
    ensures Follows(st', rows', id, astray)
  {
    if id in rows' {
      forall p' | p' in st'.proposals && p'.id == id
        ensures if astray then !Names(st', p', rows'[id])
                else p'.status.SCompleted? && DestPath(st', p').Some? ==> Names(st', p', rows'[id])
      {
        var p :| p in st.proposals && Heir(st, st', p, p');
      }
    }
  }

  lemma SameInherits(st: State, id: Id)
    ensures Inherits(st, st, id)
  {
    forall p | p in st.proposals && p.id == id ensures Heir(st, st, p, p) {
    }
  }

  lemma MarkInherits(st: State, marked: Id, revision: nat, status: Status, id: Id)
    requires status.SCompleted? && Has(st.proposals, marked) && marked == id ==> Item(st.proposals, id).status.SCompleted?
    ensures Inherits(st, st.(proposals := Marked(st.proposals, marked, revision, status)), id)
  {
    var st' := st.(proposals := Marked(st.proposals, marked, revision, status));
    forall p' | p' in st'.proposals && p'.id == id ensures exists p <- st.proposals :: Heir(st, st', p, p') {
      if p' in st.proposals {
        assert Heir(st, st', p', p');
      } else {
        assert Heir(st, st', Item(st.proposals, marked), p');
      }
    }
  }

  lemma PruneInherits(st: State, id: Id)
    requires AllApart(st.proposals)
    ensures Inherits(st, st.(proposals := PruneItems(st.proposals)), id)
  {
    var n := Finished(st.proposals);
    DropFinishedKeeps(st.proposals, if n > MAX_TERMINAL then n - MAX_TERMINAL else 0);
    var st' := st.(proposals := PruneItems(st.proposals));
    forall p | p in st'.proposals && p.id == id ensures exists q <- st.proposals :: Heir(st, st', q, p) {
      assert Heir(st, st', p, p);
    }
  }

  lemma EditInherits(env: Env, w: World, edit: Edit, id: Id)
    requires QueueInv(env, w) && IsUp(w) && CanConfigure(env, w, edit)
    ensures Inherits(Memory(w), Memory(AfterEdit(w, edit)), id)
  {
    var st, st' := Memory(w), Memory(AfterEdit(w, edit));
    forall p | p in st'.proposals && p.id == id ensures exists q <- st.proposals :: Heir(st, st', q, p) {
      assert Known(p, w.issued);
      if p.destination.Some? {
        match edit
        case AddRoot(root) => FindRootAppend(st.roots, root, p.destination.value.root, DestinationRole);
        case RemoveRoot(gone) => FindRootWithout(st.roots, gone, p.destination.value.root, DestinationRole);
        case _ =>
      }
      assert Heir(st, st', p, p);
    }
  }

  lemma AppendInherits(st: State, item: Proposal, id: Id)
    requires item.id != id
    ensures Inherits(st, st.(proposals := st.proposals + [item]), id)
  {
    var st' := st.(proposals := st.proposals + [item]);
    forall p | p in st'.proposals && p.id == id ensures exists q <- st.proposals :: Heir(st, st', q, p) {
      assert Heir(st, st', p, p);
    }
  }

  lemma ReviseInherits(env: Env, w: World, revised: Id, choice: Choice, name: Name, now: int, id: Id)
    requires QueueInv(env, w) && Enabled(env, w, Revise(revised, choice, name, now)) && revised != id
    ensures Inherits(Memory(w), Memory(AfterRevise(w, revised, choice, name, now)), id)
  {
    var st, st' := Memory(w), Memory(AfterRevise(w, revised, choice, name, now));
    forall p | p in st'.proposals && p.id == id ensures exists q <- st.proposals :: Heir(st, st', q, p) {
      assert Heir(st, st', p, p);
    }
  }

  /** An undecided entry has no completed item. */
  lemma UndecidedIsStraight(st: State, rows: Rows, id: Id)
    requires BoundInv(st, rows) && id in rows && Rank(rows[id].state) < 5
    ensures Straight(st, rows, id)
  {
    forall p | p in st.proposals && p.id == id ensures !p.status.SCompleted? {
      assert Bound(st, p, rows[id]);
    }
  }

  lemma UnknownIsStraight(env: Env, st: State, rows: Rows, issued: set<Id>, id: Id)
    requires StateInv(env, st, issued) && id !in issued
    ensures Straight(st, rows, id)
  {
    forall p | p in st.proposals ensures p.id != id {
      assert Known(p, issued);
    }
  }

  // ---------------------------------------------------------------- one step

  lemma CommitKeepsRow(env: Env, w: World, next: JState, now: int, id: Id)
    requires InFlight(w) && CanCommit(env, w, next)
    ensures var w' := AfterCommit(w, next, now);
            && RowKept(w.rows, w'.rows, id) && w'.saved == w.saved && w'.issued == w.issued
            && IsUp(w') && !w'.proc.task.Loading? && !w'.proc.task.Recovering?
  {
    hide Marked;
    hide SameDevice;
  }

  /** A commit leaves memory alone or marks the item of the move. */
  lemma CommitInherits(env: Env, w: World, next: JState, now: int, id: Id)
    requires InFlight(w) && CanCommit(env, w, next) && (next.Completed? ==> FlightOf(w).id != id)
    ensures Inherits(Memory(w), AfterCommit(w, next, now).proc.state, id)
  {
    hide Inherits;
    hide Marked;
    hide Position;
    var f := FlightOf(w);
    var row := Moved(w.rows[f.id], next, now);
    hide CanCommit;
    if next.Completed? {
      MarkInherits(Memory(w), f.id, row.revision, SCompleted, id);
    } else if next.Undone? {
      MarkInherits(Memory(w), f.id, row.revision, SUndone, id);
    } else if next.Approved? && Has(Items(w), f.id) {
      MarkInherits(Memory(w), f.id, row.revision, Item(Items(w), f.id).status, id);
    } else {
      SameInherits(Memory(w), id);
    }
  }

  lemma CommitFollows(env: Env, w: World, next: JState, now: int, id: Id, astray: bool)
    requires QueueInv(env, w) && InFlight(w) && CanCommit(env, w, next) && FlightInv(env, w, FlightOf(w))
    requires CourseInv(w, id, astray)
    ensures CourseInv(AfterCommit(w, next, now), id, astray)
  {
    hide QueueInv;
    hide FlightInv;
    hide Inherits;
    hide Marked;
    var w' := AfterCommit(w, next, now);
    SameInherits(w.saved, id);
    CommitKeepsRow(env, w, next, now, id);
    InheritsKeeps(w.saved, w.saved, w.rows, w'.rows, id, astray);
    if next.Completed? && FlightOf(w).id == id {
      assert !astray;
      CompletionNames(env, w, now);
    } else {
      CommitInherits(env, w, next, now, id);
      hide AfterCommit;
      InheritsKeeps(Memory(w), Memory(w'), w.rows, w'.rows, id, astray);
    }
  }

  /** An approve that runs to completion leaves an item that resolves to its entry's destination. */
  lemma CompletionNames(env: Env, w: World, now: int)
    requires QueueInv(env, w) && InFlight(w) && CanCommit(env, w, Completed) && FlightInv(env, w, FlightOf(w))
    ensures var w' := AfterCommit(w, Completed, now); Straight(Memory(w'), w'.rows, FlightOf(w).id)
  {
    var f, w' := FlightOf(w), AfterCommit(w, Completed, now);
    OnlyMarkedHasId(env, w, f.id, w'.rows[f.id].revision, SCompleted);
  }

  /** After marking, the marked item is the only one with its identifier. */
  lemma OnlyMarkedHasId(env: Env, w: World, id: Id, revision: nat, status: Status)
    requires QueueInv(env, w) && IsUp(w) && Has(Items(w), id)
    ensures forall p <- Marked(Items(w), id, revision, status) ::
              p.id == id ==> p == Item(Items(w), id).(revision := revision, status := status)
  {
    var items := Items(w);
    var i := Position(items, id);
    var marked := Marked(items, id, revision, status);
    forall j | 0 <= j < |marked| && j != i ensures marked[j].id != id {
      if i < j {
        assert Apart(items[i], items[j]);
      }
    }
  }

  lemma SettleKeepsRow(env: Env, w: World, now: int, id: Id)
    requires Enabled(env, w, SettleNext(now))
    ensures var w' := AfterSettle(w, now);
            RowKept(w.rows, w'.rows, id) && w'.saved == w.saved && w'.issued == w.issued && w.rows.Keys <= w'.rows.Keys
  {
    hide Marked;
    hide VerifiedDestination;
  }

  /** Completing an entry on behalf of an item that resolves to its destination keeps that so. */
  lemma SettledNames(env: Env, w: World, now: int)
    requires QueueInv(env, w) && Enabled(env, w, SettleNext(now))
    requires var id := w.proc.task.todo[0];
             HeadVerdict(w) == Some(Completed) && !AdoptsStale(env, w, SettleNext(now), id)
    ensures var w' := AfterSettle(w, now); Straight(Memory(w'), w'.rows, w.proc.task.todo[0])
  {
    hide VerifiedDestination;
    var id, w' := w.proc.task.todo[0], AfterSettle(w, now);
    OnlyMarkedHasId(env, w, id, w'.rows[id].revision, SCompleted);
  }

  lemma SettleFollows(env: Env, w: World, now: int, id: Id, astray: bool)
    requires QueueInv(env, w) && Enabled(env, w, SettleNext(now)) && CourseInv(w, id, astray)
    requires !AdoptsStale(env, w, SettleNext(now), id)
    ensures CourseInv(AfterSettle(w, now), id, astray)
  {
    hide QueueInv;
    hide Inherits;
    hide Straight;
    hide Marked;
    hide SameChoices;
    hide AdoptsStale;
    var settled, w' := w.proc.task.todo[0], AfterSettle(w, now);
    var verdict := HeadVerdict(w);
    SettleKeepsRow(env, w, now, id);
    if verdict.None? {
      QuietFollows(w, w', id, astray);
    } else {
      var revision, status := w'.rows[settled].revision, if verdict.value.Completed? then SCompleted else SNeedsAttention;
      SameInherits(w.saved, id);
      InheritsKeeps(w.saved, w.saved, w.rows, w'.rows, id, astray);
      MarkKeepsChoices(w, w', settled, revision, status, id);
      if verdict.value.Completed? && settled == id {
        SettledNames(env, w, now);
      } else {
        hide Stray;
        MarkInherits(Memory(w), settled, revision, status, id);
        InheritsKeeps(Memory(w), Memory(w'), w.rows, w'.rows, id, astray);
      }
    }
  }

  lemma MarkKeepsChoices(w: World, w': World, marked: Id, revision: nat, status: Status, id: Id)
    requires IsUp(w) && w.proc.task.Recovering? && IsUp(w') && SameChoices(w, id)
    requires w'.saved == w.saved && Memory(w') == Memory(w).(proposals := Marked(Items(w), marked, revision, status))
    ensures SameChoices(w', id)
  {
    forall p, q | p in Items(w') && q in w.saved.proposals && p.id == id && q.id == id
      ensures p.destination == q.destination && p.name == q.name
    {
      if p !in Items(w) {
        assert Item(Items(w), marked) in Items(w);
      }
    }
  }

  /** The one way an entry goes astray. */
  lemma AdoptionStrays(env: Env, w: World, now: int, id: Id)
    requires QueueInv(env, w) && AdoptsStale(env, w, SettleNext(now), id) && SameChoices(w, id)
    ensures CourseInv(AfterSettle(w, now), id, true)
  {
    var w' := AfterSettle(w, now);
    var item, revision := Item(Items(w), id), w'.rows[id].revision;
    assert item in Items(w);
    OnlyMarkedHasId(env, w, id, revision, SCompleted);
    MarkKeepsChoices(w, w', id, revision, SCompleted, id);
    forall q | q in w.saved.proposals && q.id == id ensures !Names(w.saved, q, w'.rows[id]) {
      assert DestPath(w.saved, q) == DestPath(Memory(w), item);
    }
  }

  lemma LoadFollows(env: Env, w: World, id: Id, astray: bool)
    requires QueueInv(env, w) && CourseInv(w, id, astray)
    ensures CourseInv(w.(proc := Up(w.saved, Loading)), id, astray)
  {
    var items := w.saved.proposals;
    forall i, j | 0 <= i < j < |items| ensures items[i].id != items[j].id {
      assert Apart(items[i], items[j]);
    }
    assert forall p, q | p in items && q in items && p.id == q.id :: p == q;
  }

  lemma SaveFollows(env: Env, w: World, id: Id, astray: bool)
    requires QueueInv(env, w) && IsUp(w) && CourseInv(w, id, astray)
    ensures CourseInv(w.(saved := Memory(w)), id, astray)
  {
    LoadFollows(env, w.(saved := Memory(w)), id, astray);
  }

  lemma PruneFollows(env: Env, w: World, id: Id, astray: bool)
    requires QueueInv(env, w) && IsUp(w) && CourseInv(w, id, astray)
    ensures CourseInv(WithItems(w, PruneItems(Items(w))), id, astray)
  {
    hide Inherits;
    hide Straight;
    hide Stray;
    var w', n := WithItems(w, PruneItems(Items(w))), Finished(Items(w));
    PruneInherits(Memory(w), id);
    DropFinishedKeeps(Items(w), if n > MAX_TERMINAL then n - MAX_TERMINAL else 0);
    InheritsKeeps(Memory(w), Memory(w'), w.rows, w.rows, id, astray);
  }

  lemma RowsFollow(w: World, rows: Rows, id: Id, astray: bool)
    requires CourseInv(w, id, astray) && RowKept(w.rows, rows, id)
    ensures CourseInv(w.(rows := rows), id, astray)
  {
    hide Inherits;
    hide Straight;
    hide Stray;
    SameInherits(w.saved, id);
    InheritsKeeps(w.saved, w.saved, w.rows, rows, id, astray);
    if w.proc.Up? {
      SameInherits(Memory(w), id);
      InheritsKeeps(Memory(w), Memory(w), w.rows, rows, id, astray);
    }
  }

  lemma EditFollows(env: Env, w: World, edit: Edit, id: Id, astray: bool)
    requires QueueInv(env, w) && IsIdle(w) && CanConfigure(env, w, edit) && CourseInv(w, id, astray)
    ensures CourseInv(AfterEdit(w, edit), id, astray)
  {
    hide Inherits;
    hide Straight;
    hide Stray;
    EditInherits(env, w, edit, id);
    InheritsKeeps(Memory(w), Memory(AfterEdit(w, edit)), w.rows, w.rows, id, astray);
  }

  lemma CreateFollows(env: Env, w: World, item: Proposal, row: Row, id: Id, astray: bool)
    requires QueueInv(env, w) && IsIdle(w) && CanCreate(w, item, row) && CourseInv(w, id, astray)
    ensures CourseInv(AfterCreate(w, item, row), id, astray)
  {
    hide Inherits;
    hide Stray;
    var w' := AfterCreate(w, item, row);
    if item.id == id {
      UnknownIsStraight(env, w.saved, w'.rows, w.issued, id);
      UnknownIsStraight(env, Memory(w), w'.rows, w.issued, id);
    } else {
      SameInherits(w.saved, id);
      InheritsKeeps(w.saved, w.saved, w.rows, w'.rows, id, astray);
      AppendInherits(Memory(w), item, id);
      InheritsKeeps(Memory(w), Memory(w'), w.rows, w'.rows, id, astray);
    }
  }

  lemma ReviseFollows(env: Env, w: World, revised: Id, choice: Choice, name: Name, now: int, id: Id, astray: bool)
    requires QueueInv(env, w) && Enabled(env, w, Revise(revised, choice, name, now)) && CourseInv(w, id, astray)
    ensures CourseInv(AfterRevise(w, revised, choice, name, now), id, astray)
  {
    hide Inherits;
    hide Straight;
    var w' := AfterRevise(w, revised, choice, name, now);
    if revised == id {
      ReviseKeepsQueue(env, w, revised, choice, name, now);
      UndecidedIsStraight(w.saved, w'.rows, id);
      UndecidedIsStraight(Memory(w'), w'.rows, id);
    } else {
      SameInherits(w.saved, id);
      InheritsKeeps(w.saved, w.saved, w.rows, w'.rows, id, astray);
      ReviseInherits(env, w, revised, choice, name, now, id);
      InheritsKeeps(Memory(w), Memory(w'), w.rows, w'.rows, id, astray);
    }
  }

  lemma IgnoreFollows(env: Env, w: World, ignored: Id, now: int, id: Id, astray: bool)
    requires Enabled(env, w, Ignore(ignored, now)) && CourseInv(w, id, astray)
    ensures CourseInv(AfterIgnore(w, ignored, now), id, astray)
  {
    hide Inherits;
    hide Straight;
    hide Stray;
    var w' := AfterIgnore(w, ignored, now);
    SameInherits(w.saved, id);
    InheritsKeeps(w.saved, w.saved, w.rows, w'.rows, id, astray);
    MarkInherits(Memory(w), ignored, w'.rows[ignored].revision, SIgnored, id);
    InheritsKeeps(Memory(w), Memory(w'), w.rows, w'.rows, id, astray);
  }

  /** Nothing but the files, and what the process is doing, differs. */
  lemma QuietFollows(w: World, w': World, id: Id, astray: bool)
    requires CourseInv(w, id, astray) && SameStores(w, w')
    requires w'.proc.Up? && (w'.proc.task.Loading? || w'.proc.task.Recovering?) ==> w.proc.task.Loading? || w.proc.task.Recovering?
    ensures CourseInv(w', id, astray)
  {
  }

  lemma FileFollows(env: Env, w: World, step: FileStep, id: Id, astray: bool)
    requires Enabled(env, w, File(step)) && CourseInv(w, id, astray)
    ensures CourseInv(AfterStep(env, w, FlightOf(w), step), id, astray)
  {
    hide Inherits;
    hide Straight;
    hide Stray;
    var w' := AfterStep(env, w, FlightOf(w), step);
    assert RowKept(w.rows, w'.rows, id);
    RowsFollow(w, w'.rows, id, astray);
    QuietFollows(w.(rows := w'.rows), w', id, astray);
  }

  lemma StepFollows(env: Env, w: World, a: Action, id: Id, astray: bool)
    requires Inv(env, w) && Enabled(env, w, a) && CourseInv(w, id, astray)
    ensures CourseInv(Apply(env, w, a), id, astray || AdoptsStale(env, w, a, id))
  {
    hide QueueInv;
    hide CourseInv;
    hide CanStep;
    hide CanCommit;
    hide CanCreate;
    hide CanConfigure;
    hide AfterStep;
    hide AfterCommit;
    hide AfterRevise;
    hide AfterCreate;
    hide AfterSettle;
    hide AfterEdit;
    hide AfterIgnore;
    match a
    case Commit(next, now) => CommitFollows(env, w, next, now, id, astray);
    case SettleNext(now) =>
      if AdoptsStale(env, w, a, id) {
        AdoptionFollows(env, w, now, id, astray);
      } else {
        SettleFollows(env, w, now, id, astray);
      }
    case Ignore(ignored, now) => IgnoreFollows(env, w, ignored, now, id, astray);
    case Revise(revised, choice, name, now) => ReviseFollows(env, w, revised, choice, name, now, id, astray);
    case Create(item, row) => CreateFollows(env, w, item, row, id, astray);
    case Configure(edit) => EditFollows(env, w, edit, id, astray);
    case Prune => PruneFollows(env, w, id, astray);
    case File(step) => FileFollows(env, w, step, id, astray);
    case Load => LoadFollows(env, w, id, astray);
    case Save => SaveFollows(env, w, id, astray);
    case RetainYoung(_) => RowsFollow(w, Apply(env, w, a).rows, id, astray);
    case RetainNewest => RowsFollow(w, Apply(env, w, a).rows, id, astray);
    case _ => QuietFollows(w, Apply(env, w, a), id, astray);
  }

  lemma AdoptionFollows(env: Env, w: World, now: int, id: Id, astray: bool)
    requires QueueInv(env, w) && AdoptsStale(env, w, SettleNext(now), id) && CourseInv(w, id, astray)
    ensures CourseInv(AfterSettle(w, now), id, true)
  {
    AdoptionStrays(env, w, now, id);
  }

  lemma {:induction false} CourseHolds(env: Env, r: Run, id: Id)
    requires Legal(env, r)
    ensures CourseInv(r.Last(), id, Astray(env, r, id))
  {
    match r
    case Start(_) =>
    case Then(prev, a, _) =>
      CourseHolds(env, prev, id);
      RunKeepsInv(env, prev);
      StepFollows(env, prev.Last(), a, id, Astray(env, prev, id));
  }

  /** Whatever other processes do, an undo runs back to the path its entry names as the source; and it leaves
      from the path its entry names as the destination if and only if recovery never completed the entry
      on behalf of an item that resolved elsewhere. */
  lemma UndoGoesByTheEntry(env: Env, r: Run)
    requires Legal(env, r) && InFlight(r.Last()) && FlightOf(r.Last()).kind.Undo? && Committed(FlightOf(r.Last()))
    ensures var w, f := r.Last(), FlightOf(r.Last());
            && RowIs(w, f.id, Undoing) && f.to == w.rows[f.id].source
            && (f.from == w.rows[f.id].dest <==> !Astray(env, r, f.id))
  {
    var f := FlightOf(r.Last());
    FlightHolds(env, r);
    CourseHolds(env, r, f.id);
    assert Item(Items(r.Last()), f.id) in Items(r.Last());
  }

  lemma OnlyCommittedWrites(env: Env, w: World, a: Action)
    requires Enabled(env, w, a) && !a.Outside? && Apply(env, w, a).files != w.files
    ensures a.File? && InFlight(w) && Committed(FlightOf(w))
  {
    if !a.File? {
      OnlyFileStepsWrite(env, w, a);
    }
  }

  /** A file changes only in a move that its entry durably announces, between the two paths that the entry
      names; the one exception is where an undo starts whose entry has gone astray. */
  lemma MovesFollowTheJournal(env: Env, prev: Run, a: Action)
    requires Legal(env, prev) && Enabled(env, prev.Last(), a) && !a.Outside?
    requires Apply(env, prev.Last(), a).files != prev.Last().files
    ensures InFlight(prev.Last()) && Announced(prev.Last(), FlightOf(prev.Last()))
    ensures var w, f := prev.Last(), FlightOf(prev.Last());
            && f.id in w.rows
            && (f.kind.Approve? ==> f.from == w.rows[f.id].source && f.to == w.rows[f.id].dest)
            && (f.kind.Undo? ==> f.to == w.rows[f.id].source && (f.from == w.rows[f.id].dest <==> !Astray(env, prev, f.id)))
  {
    DurableIntent(env, prev, a);
    OnlyCommittedWrites(env, prev.Last(), a);
    if FlightOf(prev.Last()).kind.Undo? {
      UndoGoesByTheEntry(env, prev);
    }
  }

  /** Before the call: a completed item that can be undone resolves to its entry's destination if and only if
      recovery never completed the entry on behalf of an item that resolved elsewhere. */
  lemma CompletedItemNamesItsEntry(env: Env, r: Run, p: Proposal)
    requires Legal(env, r) && IsUp(r.Last()) && p in Items(r.Last()) && p.id in r.Last().rows
    requires p.status.SCompleted? && DestPath(Memory(r.Last()), p).Some?
    ensures Names(Memory(r.Last()), p, r.Last().rows[p.id]) <==> !Astray(env, r, p.id)
  {
    CourseHolds(env, r, p.id);
  }

  // ---------------------------------------------------------------- copies are not undone

  /** The move this entry records went from one file system to another. */
  predicate WasCopied(env: Env, rows: Rows, id: Id) {
    id in rows && rows[id].source != [] && rows[id].dest != [] && !SameDevice(env, rows[id].source, rows[id].dest)
  }

  /** An undo that is journalled undoes a rename, unless its entry has gone astray. */
  lemma OnlyRenamesAreUndone(env: Env, r: Run)
    requires Legal(env, r) && InFlight(r.Last()) && FlightOf(r.Last()).kind.Undo? && Committed(FlightOf(r.Last()))
    ensures WasCopied(env, r.Last().rows, FlightOf(r.Last()).id) ==> Astray(env, r, FlightOf(r.Last()).id)
  {
    UndoGoesByTheEntry(env, r);
    FlightHolds(env, r);
  }

  /** Before the call: the completed item of a copy resolves to two file systems, unless its entry has gone
      astray. */
  lemma CopyResolvesAcross(env: Env, r: Run, p: Proposal)
    requires Legal(env, r) && IsUp(r.Last()) && p in Items(r.Last()) && p.status.SCompleted?
    requires WasCopied(env, r.Last().rows, p.id) && !Astray(env, r, p.id)
    requires DestPath(Memory(r.Last()), p).Some? && SourcePath(Memory(r.Last()), p, AnyRole).Some?
    ensures var from, to := DestPath(Memory(r.Last()), p).value, SourcePath(Memory(r.Last()), p, AnyRole).value;
            from != [] && to != [] && !SameDevice(env, from, to)
  {
    CompletedItemNamesItsEntry(env, r, p);
    RunKeepsInv(env, r);
    assert Bound(Memory(r.Last()), p, r.Last().rows[p.id]);
  }

  // ---------------------------------------------------------------- a completed file stays where it is

  /** The entry is completed, or the undo of it is under way. */
  predicate Standing(w: World, id: Id) {
    id in w.rows &&
    (w.rows[id].state.Completed?
     || (w.rows[id].state.Undoing? && InFlight(w) && FlightOf(w).id == id && Committed(FlightOf(w))))
  }

  /** No other queued item stands for a file with this identity. */
  ghost predicate NoRival(w: World, id: Id, identity: Identity) {
    w.proc.Up? ==> forall p <- w.proc.state.proposals :: p.identity == identity ==> p.id == id
  }

  ghost predicate Unrivalled(r: Run, early: Run, id: Id, identity: Identity) {
    r == early || (r.Then? && NoRival(r.prev.Last(), id, identity) && Unrivalled(r.prev, early, id, identity))
  }

  /** While an item is queued it has no rival. */
  lemma QueuedHasNoRival(env: Env, w: World, id: Id)
    requires QueueInv(env, w) && IsUp(w) && Has(Items(w), id)
    ensures NoRival(w, id, Item(Items(w), id).identity)
  {
    var items := Items(w);
    var i := Position(items, id);
    forall j | 0 <= j < |items| && j != i ensures items[j].identity != items[i].identity {
      assert if i < j then Apart(items[i], items[j]) else Apart(items[j], items[i]);
    }
  }

  /** The file is at its entry's destination; once the undo is under way, it was there when that began. */
  ghost predicate AtRest(env: Env, w: World, id: Id, identity: Identity) {
    && Standing(w, id)
    && IdentityAt(env, Baseline(w), w.rows[id].dest) == Ok(identity)
    && (w.rows[id].state.Completed? ==> IdentityAt(env, w.files, w.rows[id].dest) == Ok(identity))
  }

  /** A step of a move between other files leaves this one alone. */
  lemma StepSpares(env: Env, w: World, step: FileStep, p: Path)
    requires Enabled(env, w, File(step)) && FlightInv(env, w, FlightOf(w)) && FlightOf(w).touched == {}
    requires p in FlightOf(w).before && p in w.files && IdentityAt(env, w.files, p) != Ok(FlightOf(w).expected)
    ensures var w' := AfterStep(env, w, FlightOf(w), step); p in w'.files && w'.files[p] == w.files[p]
  {
    hide PlanInv;
    hide FoldTaken;
    hide HasDigest;
    SameFiles(w.files, Expect(FlightOf(w)));
  }

  lemma OtherMoves(env: Env, w: World, step: FileStep, id: Id, identity: Identity)
    requires Enabled(env, w, File(step)) && FlightInv(env, w, FlightOf(w))
    requires NoRival(w, id, identity) && RowIs(w, id, Completed)
    ensures FlightOf(w).expected != identity
  {
    hide CopyInv;
    hide Agree;
    assert Item(Items(w), FlightOf(w).id) in Items(w);
  }

  lemma StepRests(env: Env, w: World, step: FileStep, w': World, id: Id, identity: Identity)
    requires Enabled(env, w, File(step)) && FlightInv(env, w, FlightOf(w)) && FlightOf(w).touched == {}
    requires w' == AfterStep(env, w, FlightOf(w), step) && InFlight(w') && FlightOf(w').before == FlightOf(w).before
    requires NoRival(w, id, identity) && AtRest(env, w, id, identity)
    requires Standing(w', id) && w'.rows[id].dest == w.rows[id].dest && w'.rows[id].state == w.rows[id].state
    ensures AtRest(env, w', id, identity)
  {
    if RowIs(w, id, Completed) {
      OtherMoves(env, w, step, id, identity);
      StepSpares(env, w, step, w.rows[id].dest);
    }
  }

  lemma QuietRests(env: Env, w: World, a: Action, id: Id, identity: Identity)
    requires Enabled(env, w, a) && !a.Outside? && !a.File? && AtRest(env, w, id, identity)
    requires InFlight(w) ==> FlightOf(w).touched == {}
    requires var w' := Apply(env, w, a);
             && Standing(w', id) && w'.rows[id].dest == w.rows[id].dest
             && (w'.rows[id].state.Completed? ==> w.rows[id].state.Completed?)
    ensures AtRest(env, Apply(env, w, a), id, identity)
  {
    OnlyFileStepsWrite(env, w, a);
    BaselineStep(env, w, a);
    if InFlight(w) {
      FlightGoesOn(env, w, a);
    }
  }

  lemma CommittedBefore(env: Env, w: World, a: Action)
    requires Enabled(env, w, a) && !a.Outside? && InFlight(Apply(env, w, a)) && Committed(FlightOf(Apply(env, w, a)))
    ensures InFlight(w) && SameMove(FlightOf(w), FlightOf(Apply(env, w, a)))
    ensures Committed(FlightOf(w)) || RowIs(w, FlightOf(w).id, Proposed) || RowIs(w, FlightOf(w).id, Completed)
  {
    hide Marked;
    if InFlight(w) {
      FlightGoesOn(env, w, a);
    } else {
      TakesOffOpened(env, w, a);
    }
  }

  /** The row keeps what it says of the move. */
  predicate SameAccount(row: Row, row': Row) {
    row'.source == row.source && row'.dest == row.dest && row'.sha == row.sha
  }

  lemma StandingStep(old': Row, new': Row)
    requires RowStep(old', new') && 5 <= Rank(old'.state) && Rank(new'.state) <= 6
    ensures SameAccount(old', new') && Rank(old'.state) <= Rank(new'.state)
    ensures new'.state.Completed? ==> old'.state.Completed?
    ensures old'.state.Completed? || old'.state.Undoing?
  {
  }

  lemma {:induction false} UndisturbedContinues(r: Run, early: Run)
    requires Undisturbed(r, early)
    ensures Continues(r, early)
  {
    if r != early {
      UndisturbedContinues(r.prev, early);
    }
  }

  lemma StoodBefore(env: Env, early: Run, r: Run, id: Id)
    requires Legal(env, r) && Undisturbed(r, early) && r != early
    requires RowIs(early.Last(), id, Completed) && Standing(r.Last(), id)
    ensures Standing(r.prev.Last(), id) && SameAccount(r.prev.Last().rows[id], r.Last().rows[id])
    ensures r.Last().rows[id].state.Completed? ==> r.prev.Last().rows[id].state.Completed?
  {
    hide Apply;
    hide Enabled;
    hide RowStep;
    var w, w' := r.prev.Last(), r.Last();
    UndisturbedContinues(r.prev, early);
    IssuedGrows(env, early, r.prev);
    RowHistoryStep(env, r.prev, r.act, id);
    RankNeverFalls(env, early, r.prev, id);
    StandingStep(w.rows[id], w'.rows[id]);
    if w.rows[id].state.Undoing? {
      CommittedBefore(env, w, r.act);
    }
  }

  lemma {:induction false} FileRests(env: Env, early: Run, r: Run, id: Id, identity: Identity)
    requires Legal(env, r) && Undisturbed(r, early) && !InFlight(early.Last())
    requires RowIs(early.Last(), id, Completed) && Standing(r.Last(), id)
    requires IdentityAt(env, early.Last().files, early.Last().rows[id].dest) == Ok(identity)
    requires Unrivalled(r, early, id, identity)
    ensures AtRest(env, r.Last(), id, identity) && SameAccount(early.Last().rows[id], r.Last().rows[id])
    ensures InFlight(r.Last()) ==> FlightOf(r.Last()).touched == {}
  {
    if r != early {
      StoodBefore(env, early, r, id);
      FileRests(env, early, r.prev, id, identity);
      RestsOn(env, r.prev, r.act, id, identity);
    }
  }

  lemma RestsOn(env: Env, prev: Run, a: Action, id: Id, identity: Identity)
    requires Legal(env, prev) && Enabled(env, prev.Last(), a) && !a.Outside?
    requires AtRest(env, prev.Last(), id, identity) && NoRival(prev.Last(), id, identity)
    requires InFlight(prev.Last()) ==> FlightOf(prev.Last()).touched == {}
    requires var w, w' := prev.Last(), Apply(env, prev.Last(), a);
             && Standing(w', id) && SameAccount(w.rows[id], w'.rows[id])
             && (w'.rows[id].state.Completed? ==> w.rows[id].state.Completed?)
    ensures AtRest(env, Apply(env, prev.Last(), a), id, identity)
    ensures InFlight(Apply(env, prev.Last(), a)) ==> FlightOf(Apply(env, prev.Last(), a)).touched == {}
  {
    hide AtRest;
    hide NoRival;
    var w := prev.Last();
    BaselineStep(env, w, a);
    if a.File? {
      FlightHolds(env, prev);
      FlightGoesOn(env, w, a);
      StepStays(env, w, a.step, id);
      StepRests(env, w, a.step, Apply(env, w, a), id, identity);
    } else {
      QuietRests(env, w, a, id, identity);
    }
  }

  lemma StepStays(env: Env, w: World, step: FileStep, id: Id)
    requires Enabled(env, w, File(step)) && id in w.rows
    ensures var w' := AfterStep(env, w, FlightOf(w), step);
            InFlight(w') && FlightOf(w').before == FlightOf(w).before && id in w'.rows && w'.rows[id].state == w.rows[id].state
  {
  }

  // ---------------------------------------------------------------- an undo finds its file

  /** The last step of the run completed the entry: recovery, on evidence that still held, or an approve that
      nobody disturbed. */
  predicate JustCompleted(env: Env, r: Run, id: Id) {
    && r.Then? && RowIs(r.Last(), id, Completed) && !RowIs(r.prev.Last(), id, Completed)
    && (if r.act.SettleNext? then Fresh(env, r.prev.Last())
        else InFlight(r.prev.Last()) && FlightOf(r.prev.Last()).touched == {})
  }

  lemma CompletingStep(env: Env, w: World, a: Action, id: Id)
    requires Enabled(env, w, a) && w.rows.Keys <= w.issued
    requires RowIs(Apply(env, w, a), id, Completed) && !RowIs(w, id, Completed)
    ensures (a.Commit? && a.next.Completed? && InFlight(w) && FlightOf(w).id == id)
            || (a.SettleNext? && Head(w) == id && Has(Items(w), id))
    ensures !InFlight(Apply(env, w, a))
  {
    hide Marked;
    match a
    case Commit(next, now) =>
    case File(step) => StepAddsNoRow(env, w, step, id);
    case SettleNext(now) => hide VerifiedDestination;
    case _ =>
  }

  lemma StepAddsNoRow(env: Env, w: World, step: FileStep, id: Id)
    requires Enabled(env, w, File(step)) && id in AfterStep(env, w, FlightOf(w), step).rows
    ensures id in w.rows && AfterStep(env, w, FlightOf(w), step).rows[id].state == w.rows[id].state
  {
  }

  lemma LandsAtRest(env: Env, w: World, now: int)
    requires InFlight(w) && CanCommit(env, w, Completed) && FlightInv(env, w, FlightOf(w)) && FlightOf(w).touched == {}
    requires w.rows[FlightOf(w).id].sha.None?
    ensures IdentityAt(env, w.files, w.rows[FlightOf(w).id].dest) == Ok(FlightOf(w).expected)
  {
    SameFiles(w.files, Expect(FlightOf(w)));
  }

  lemma CommitsAtRest(env: Env, prev: Run, now: int)
    requires Legal(env, prev) && Enabled(env, prev.Last(), Commit(Completed, now)) && FlightOf(prev.Last()).touched == {}
    requires var w := prev.Last(); w.rows[FlightOf(w).id].sha.None?
    ensures var w, f := prev.Last(), FlightOf(prev.Last());
            && Has(Items(w), f.id) && f.expected == Item(Items(w), f.id).identity
            && IdentityAt(env, w.files, w.rows[f.id].dest) == Ok(f.expected)
  {
    hide Legal;
    hide IdentityAt;
    FlightHolds(env, prev);
    LandsAtRest(env, prev.Last(), now);
  }

  /** A file that was only renamed is, at completion, at its entry's destination under its own identity. */
  lemma CompletedAtRest(env: Env, r: Run, id: Id)
    requires Legal(env, r) && JustCompleted(env, r, id) && r.Last().rows[id].sha.None?
    ensures !InFlight(r.Last()) && IsUp(r.prev.Last()) && Has(Items(r.prev.Last()), id)
    ensures IdentityAt(env, r.Last().files, r.Last().rows[id].dest) == Ok(Item(Items(r.prev.Last()), id).identity)
  {
    hide IdentityAt;
    hide HasDigest;
    hide FlightInv;
    var w := r.prev.Last();
    RowsAreSound(env, r.prev);
    CompletingStep(env, w, r.act, id);
    OnlyFileStepsWrite(env, w, r.act);
    RowHistoryStep(env, r.prev, r.act, id);
    if r.act.Commit? {
      CommitsAtRest(env, r.prev, r.act.now);
    } else {
      CompletionIsVerified(env, w, r.act.now);
    }
  }

  /** The flight undoes the entry that the end of the earlier run completed, without other writers since and
      without a rival item, and recovery never led the entry astray. */
  ghost predicate StraightUndo(env: Env, early: Run, r: Run) {
    && InFlight(r.Last())
    && var f := FlightOf(r.Last());
    && f.kind.Undo? && Committed(f)
    && JustCompleted(env, early, f.id) && Undisturbed(r, early) && Unrivalled(r, early, f.id, f.expected)
    && !Astray(env, r, f.id)
  }

  /** Such an undo finds the approved file, under the approved identity, where it starts. */
  lemma UndoFindsItsFile(env: Env, early: Run, r: Run)
    requires Legal(env, r) && StraightUndo(env, early, r)
    ensures var f := FlightOf(r.Last());
            && f.touched == {} && IdentityAt(env, f.before, f.from) == Ok(f.expected)
            && RowIs(r.Last(), f.id, Undoing) && f.from == r.Last().rows[f.id].dest
  {
    var f := FlightOf(r.Last());
    UndoGoesByTheEntry(env, r);
    UndisturbedContinues(r, early);
    PrefixIsLegal(env, early, r);
    FlightHolds(env, r);
    NoDigestSince(env, early, r, f.id);
    CompletedAtRest(env, early, f.id);
    SameFileThroughout(env, early, r, f.id);
    FileRests(env, early, r, f.id, f.expected);
  }

  lemma {:induction false} AccountLasts(env: Env, early: Run, r: Run, id: Id)
    requires Legal(env, r) && Undisturbed(r, early)
    requires RowIs(early.Last(), id, Completed) && Standing(r.Last(), id)
    ensures SameAccount(early.Last().rows[id], r.Last().rows[id])
  {
    if r != early {
      StoodBefore(env, early, r, id);
      AccountLasts(env, early, r.prev, id);
    }
  }

  /** An entry that is undone on one file system was only renamed. */
  lemma NoDigestSince(env: Env, early: Run, r: Run, id: Id)
    requires Legal(env, r) && Undisturbed(r, early) && RowIs(early.Last(), id, Completed) && Standing(r.Last(), id)
    requires InFlight(r.Last()) && FlightOf(r.Last()).id == id && FlightOf(r.Last()).kind.Undo? && Committed(FlightOf(r.Last()))
    requires FlightOf(r.Last()).from == r.Last().rows[id].dest
    ensures early.Last().rows[id].sha.None?
  {
    AccountLasts(env, early, r, id);
    DigestsAreOriginal(env, r, id);
    FlightHolds(env, r);
    var f := FlightOf(r.Last());
    assert SameDevice(env, f.to, f.from);
  }

  lemma SameFileThroughout(env: Env, early: Run, r: Run, id: Id)
    requires Legal(env, r) && early.Then? && Continues(r, early)
    requires IsUp(early.prev.Last()) && Has(Items(early.prev.Last()), id)
    requires InFlight(r.Last()) && FlightOf(r.Last()).id == id
    ensures Item(Items(early.prev.Last()), id).identity == FlightOf(r.Last()).expected
  {
    var w, identity := early.prev.Last(), Item(Items(early.prev.Last()), id).identity;
    ContinuesPrev(r, early);
    PrefixIsLegal(env, early.prev, r);
    RunKeepsInv(env, early.prev);
    ItemIsKnown(env, w, id);
    IdentityLasts(env, early.prev, r, id, identity);
    FlightHolds(env, r);
    assert Item(Items(r.Last()), id) in Items(r.Last());
  }

  lemma {:induction false} ContinuesPrev(r: Run, early: Run)
    requires Continues(r, early) && early.Then?
    ensures Continues(r, early.prev)
  {
    if r != early {
      ContinuesPrev(r.prev, early);
    }
  }

  /** The undo starts where its entry says, or where there is no file with the approved identity. */
  predicate LooksHarmless(env: Env, f: Flight, row: Row) {
    f.from == row.dest || IdentityAt(env, f.before, f.from) != Ok(f.expected)
  }

  /** Starting elsewhere, it then moves nothing. */
  lemma MissesHarmlessly(env: Env, w: World, a: Action)
    requires Enabled(env, w, a) && !a.Outside? && InFlight(w) && FlightInv(env, w, FlightOf(w))
    requires FlightOf(w).kind.Undo? && Committed(FlightOf(w)) && FlightOf(w).touched == {}
    requires IdentityAt(env, FlightOf(w).before, FlightOf(w).from) != Ok(FlightOf(w).expected)
    ensures Apply(env, w, a).files == FlightOf(w).before && FlightOf(w).to !in FlightOf(w).before
  {
    hide IdentityAt;
    hide FoldTaken;
    hide HasDigest;
    SameFiles(w.files, Expect(FlightOf(w)));
    if !a.File? {
      OnlyFileStepsWrite(env, w, a);
    }
  }

  /** With no other writer, wherever an undo stops the file is at exactly one of the two paths that its entry
      names if and only if it was at the entry's destination when the undo began; nothing else changes. */
  lemma UndoHoldsItsFileIff(env: Env, prev: Run, a: Action)
    requires Legal(env, prev) && Enabled(env, prev.Last(), a) && !a.Outside? && InFlight(prev.Last())
    requires FlightOf(prev.Last()).kind.Undo? && Committed(FlightOf(prev.Last())) && FlightOf(prev.Last()).touched == {}
    requires var w, f := prev.Last(), FlightOf(prev.Last()); f.id in w.rows && LooksHarmless(env, f, w.rows[f.id])
    ensures var f, row, w' := FlightOf(prev.Last()), prev.Last().rows[FlightOf(prev.Last()).id], Apply(env, prev.Last(), a);
            && f.to == row.source
            && (HeldOnce(w'.files, f.before, row.dest, row.source) <==> row.dest in f.before)
            && (forall p :: p != row.dest && p != row.source ==> AgreeAt(w'.files, f.before, p))
  {
    hide FlightInv;
    hide IdentityAt;
    var w, f := prev.Last(), FlightOf(prev.Last());
    UndoGoesByTheEntry(env, prev);
    if f.from == w.rows[f.id].dest {
      UndoStopsSafely(env, prev, a);
    } else {
      FlightHolds(env, prev);
      MissesHarmlessly(env, w, a);
    }
  }

  /** Even where it takes some other file, an undo that starts elsewhere leaves the entry's file alone. */
  lemma StrayUndoSparesItsFile(env: Env, prev: Run, a: Action)
    requires Legal(env, prev) && Enabled(env, prev.Last(), a) && !a.Outside? && InFlight(prev.Last())
    requires FlightOf(prev.Last()).kind.Undo? && Committed(FlightOf(prev.Last())) && FlightOf(prev.Last()).touched == {}
    requires var w, f := prev.Last(), FlightOf(prev.Last());
             f.id in w.rows && f.from != w.rows[f.id].dest && w.rows[f.id].dest in f.before
    ensures var f, dest := FlightOf(prev.Last()), prev.Last().rows[FlightOf(prev.Last()).id].dest;
            Untouched(Apply(env, prev.Last(), a).files, f.before, dest)
  {
    hide IdentityAt;
    var f, dest := FlightOf(prev.Last()), prev.Last().rows[FlightOf(prev.Last()).id].dest;
    FlightHolds(env, prev);
    FreeTargetBefore(env, prev.Last());
    hide FlightInv;
    UndoStopsSafely(env, prev, a);
    assert AgreeAt(Apply(env, prev.Last(), a).files, f.before, dest);
  }

  lemma FreeTargetBefore(env: Env, w: World)
    requires InFlight(w) && FlightInv(env, w, FlightOf(w)) && Committed(FlightOf(w)) && FlightOf(w).touched == {}
    ensures FlightOf(w).to !in FlightOf(w).before
  {
  }

  /** The flight undoes the entry that the end of the earlier run completed over a file with this identity,
      with neither other writers nor rival items since. */
  ghost predicate RestingUndo(env: Env, early: Run, r: Run, identity: Identity) {
    && InFlight(r.Last())
    && var f := FlightOf(r.Last());
    && f.kind.Undo? && Committed(f)
    && JustCompleted(env, early, f.id) && Undisturbed(r, early) && Unrivalled(r, early, f.id, identity)
    && IdentityAt(env, early.Last().files, early.Last().rows[f.id].dest) == Ok(identity)
  }

  /** Whether its entry went astray or not, such an undo finds the file still at its entry's destination, and
      wherever it stops holds it at exactly one of the two paths its entry names. */
  lemma UndoKeepsItsFile(env: Env, early: Run, prev: Run, a: Action, identity: Identity)
    requires Legal(env, prev) && RestingUndo(env, early, prev, identity) && Enabled(env, prev.Last(), a) && !a.Outside?
    requires var w, f := prev.Last(), FlightOf(prev.Last()); f.id in w.rows && LooksHarmless(env, f, w.rows[f.id])
    ensures var f, row, w' := FlightOf(prev.Last()), prev.Last().rows[FlightOf(prev.Last()).id], Apply(env, prev.Last(), a);
            && IdentityAt(env, f.before, row.dest) == Ok(identity)
            && HeldOnce(w'.files, f.before, row.dest, row.source)
            && (forall p :: p != row.dest && p != row.source ==> AgreeAt(w'.files, f.before, p))
  {
    var f := FlightOf(prev.Last());
    UndoGoesByTheEntry(env, prev);
    UndisturbedContinues(prev, early);
    PrefixIsLegal(env, early, prev);
    CompletedOnGround(env, early, f.id);
    FileRests(env, early, prev, f.id, identity);
    UndoHoldsItsFileIff(env, prev, a);
  }

  lemma CompletedOnGround(env: Env, r: Run, id: Id)
    requires Legal(env, r) && JustCompleted(env, r, id)
    ensures !InFlight(r.Last())
  {
    RowsAreSound(env, r.prev);
    CompletingStep(env, r.prev.Last(), r.act, id);
  }

  /** An entry that did not go astray meets both conditions, with the approved identity itself. */
  lemma StraightUndoRests(env: Env, early: Run, r: Run)
    requires Legal(env, r) && StraightUndo(env, early, r)
    ensures RestingUndo(env, early, r, FlightOf(r.Last()).expected)
    ensures var w, f := r.Last(), FlightOf(r.Last()); f.id in w.rows && LooksHarmless(env, f, w.rows[f.id])
  {
    var f := FlightOf(r.Last());
    UndoFindsItsFile(env, early, r);
    UndisturbedContinues(r, early);
    PrefixIsLegal(env, early, r);
    NoDigestSince(env, early, r, f.id);
    CompletedAtRest(env, early, f.id);
    SameFileThroughout(env, early, r, f.id);
  }
}
