/** Promises that the code does not keep without exception, each with a run that breaks it. */
module Counterexamples {
  import opened Model
  import opened Journals
  import opened Machine
  import opened Paths
  import opened Invariants
  import opened FlightProofs
  import opened FileTheorems

  lemma ExtendRevise(env: Env, r: Run, id: Id, choice: Choice, name: Name) returns (r': Run)
    requires Legal(env, r) && IsIdle(r.Last()) && Current(r.Last(), id) && RowIs(r.Last(), id, Proposed)
    requires ChosenPath(Memory(r.Last()).roots, choice, name).Some?
    ensures r'.Last() == AfterRevise(r.Last(), id, choice, name, 0) && Legal(env, r')
  {
    r' := Extend(env, r, Revise(id, choice, name, 0));
  }

  /** A fresh installation over these files, opened. */
  lemma Installed(env: Env, files: Files) returns (r: Run)
    ensures Legal(env, r) && IsIdle(r.Last())
    ensures r.Last().files == files && r.Last().rows == map[] && r.Last().issued == {} && Memory(r.Last()) == EMPTY_STATE
  {
    hide Legal;
    hide CanStep;
    hide CanCommit;
    hide CanCreate;
    hide FindRoot;
    r := FirstStart(env, files);
    r := Extend(env, r, BeginRecovery);
    r := Extend(env, r, Save);
    r := Extend(env, r, EndRecovery);
  }

  lemma FirstStart(env: Env, files: Files) returns (r: Run)
    ensures Legal(env, r) && r.Last() == World(files, map[], EMPTY_STATE, Up(EMPTY_STATE, Loading), {})
  {
    r := Start(World(files, map[], EMPTY_STATE, Down, {}));
    r := Extend(env, r, Load);
  }

  /** The installation given one root. */
  lemma OneRoot(env: Env, files: Files, root: Root) returns (r: Run)
    requires root.watched || root.destination
    ensures Legal(env, r) && IsIdle(r.Last())
    ensures r.Last().files == files && r.Last().rows == map[] && r.Last().issued == {root.id}
    ensures Memory(r.Last()) == EMPTY_STATE.(roots := [root])
  {
    hide Legal;
    hide CanStep;
    hide CanCommit;
    hide CanCreate;
    r := Installed(env, files);
    r := Extend(env, r, Configure(AddRoot(root)));
  }

  // ---------------------------------------------------------------- a forgotten decision

  /** A decision not yet saved can be forgotten: after this crash an ignored item waits again (its
      journal entry, now Ignored, keeps it from ever being approved). */
  lemma UnsavedDecisionReturns(env: Env) returns (early: Run, late: Run)
    ensures Legal(env, late) && Continues(late, early)
    ensures IsUp(early.Last()) && |Items(early.Last())| == 1 && Items(early.Last())[0].status.SIgnored?
    ensures IsUp(late.Last()) && |Items(late.Last())| == 1 && Items(late.Last())[0].status.SProposed?
    ensures Items(late.Last())[0].id == Items(early.Last())[0].id
    ensures RowIs(late.Last(), Items(late.Last())[0].id, Ignored)
  {
    var item, saved := OneSavedItem(env);
    early := Extend(env, saved, Ignore(item.id, 0));
    var down := Extend(env, early, Crash);
    late := Extend(env, down, Load);
  }

  lemma OneSavedItem(env: Env) returns (item: Proposal, r: Run)
    ensures Legal(env, r) && IsIdle(r.Last()) && Items(r.Last()) == [item] && r.Last().saved.proposals == [item]
    ensures item.status.SProposed? && RowIs(r.Last(), item.id, Proposed) && r.Last().rows[item.id].revision == item.revision
  {
    var root := Root(1, ["in"], true, true);
    item := Proposal(2, 1, 1, ["a"], None, "a", SProposed, Identity(0, 7, 0, 0));
    var row := Row(1, Proposed, ["in", "a"], [], 0, None, 0, 0);
    r := OneRoot(env, map[], root);
    assert FindRoot([root], 1, WatchedRole) == Some(root);
    assert root.path + item.relative == ["in", "a"];
    r := Extend(env, r, Create(item, row));
    r := Extend(env, r, Save);
  }

  // ---------------------------------------------------------------- an exposed copy

  const IN_ROOT: Root := Root(1, ["in"], true, false)
  const OUT_ROOT: Root := Root(2, ["out"], false, true)
  const SOURCE: Path := ["in", "a"]
  const TARGET: Path := StageFor(["out", "a"], 3)
  const CONTENT: Node := Regular(7, 1, [1], 0)

  function Queued(env: Env, revision: nat, name: Name): Proposal {
    Proposal(3, revision, 1, ["a"], Some(Choice(2, ".")), name, SProposed, Identity(env.device(["in"]), 7, 1, 0))
  }

  function Journalled(revision: nat, state: JState, dest: Path): Row {
    Row(revision, state, SOURCE, dest, 1, None, 0, 0)
  }

  lemma TheRoots()
    ensures FindRoot([IN_ROOT, OUT_ROOT], 1, WatchedRole) == Some(IN_ROOT)
    ensures FindRoot([IN_ROOT, OUT_ROOT], 2, DestinationRole) == Some(OUT_ROOT)
    ensures FindRoot([IN_ROOT, OUT_ROOT], 1, AnyRole) == Some(IN_ROOT)
  {
    assert [IN_ROOT, OUT_ROOT][1..] == [OUT_ROOT];
  }

  lemma ThePaths(name: Name)
    ensures IN_ROOT.path + ["a"] == SOURCE && OUT_ROOT.path + DirectoryPath(".") + [name] == ["out", name]
    ensures TARGET == ["out", FileName(TARGET)] && StageFor(TARGET, 3) == TARGET
    ensures Parent(SOURCE) == ["in"] && Parent(TARGET) == ["out"]
  {
  }

  lemma TwoRoots(env: Env) returns (r: Run)
    ensures Legal(env, r) && IsIdle(r.Last()) && r.Last().files == map[SOURCE := CONTENT]
    ensures Memory(r.Last()) == EMPTY_STATE.(roots := [IN_ROOT, OUT_ROOT]) && r.Last().rows == map[] && r.Last().issued == {1, 2}
  {
    r := OneRoot(env, map[SOURCE := CONTENT], IN_ROOT);
    assert [IN_ROOT] + [OUT_ROOT] == [IN_ROOT, OUT_ROOT];
    r := Extend(env, r, Configure(AddRoot(OUT_ROOT)));
  }

  lemma QueuedOne(env: Env) returns (r: Run)
    ensures Legal(env, r) && IsIdle(r.Last()) && r.Last().files == map[SOURCE := CONTENT]
    ensures Memory(r.Last()) == State(false, [IN_ROOT, OUT_ROOT], [], [Queued(env, 1, "a")])
    ensures r.Last().rows == map[3 := Journalled(1, Proposed, ["out", "a"])] && r.Last().issued == {1, 2, 3}
  {
    hide Legal;
    hide IdText;
    r := TwoRoots(env);
    TheRoots();
    ThePaths("a");
    r := Extend(env, r, Create(Queued(env, 1, "a"), Journalled(1, Proposed, ["out", "a"])));
  }

  lemma RenamedToStage(env: Env) returns (r: Run)
    ensures Legal(env, r) && IsIdle(r.Last()) && r.Last().files == map[SOURCE := CONTENT]
    ensures Memory(r.Last()) == State(false, [IN_ROOT, OUT_ROOT], [], [Queued(env, 2, FileName(TARGET))])
    ensures r.Last().rows == map[3 := Journalled(2, Proposed, TARGET)]
  {
    hide CanConfigure;
    hide CanBegin;
    hide FoldTaken;
    hide FindRoot;
    hide Legal;
    hide CanStep;
    hide CanCommit;
    hide IdText;
    hide CanCreate;
    r := QueuedOne(env);
    TheRoots();
    ThePaths(FileName(TARGET));
    r := ExtendRevise(env, r, 3, Choice(2, "."), FileName(TARGET));
  }

  /** The move under way in this example, at a phase. */
  function Move(env: Env, phase: Phase): Flight {
    Flight(Kind.Approve, 3, SOURCE, TARGET, Queued(env, 2, "").identity, map[SOURCE := CONTENT], {}, phase)
  }

  lemma Opening(env: Env) returns (r: Run)
    ensures Legal(env, r) && InFlight(r.Last()) && r.Last().files == map[SOURCE := CONTENT]
    ensures FlightOf(r.Last()) == Move(env, Opened) && Current(r.Last(), 3) && RowIs(r.Last(), 3, Proposed)
  {
    hide Legal;
    hide CanStep;
    hide CanCommit;
    hide IdText;
    hide CanCreate;
    r := RenamedToStage(env);
    TheRoots();
    ThePaths(FileName(TARGET));
    r := Extend(env, r, Begin(Kind.Approve, 3));
  }

  lemma Clearing(env: Env) returns (r: Run)
    ensures Legal(env, r) && InFlight(r.Last()) && r.Last().files == map[SOURCE := CONTENT]
    ensures FlightOf(r.Last()) == Move(env, Clear) && Current(r.Last(), 3) && RowIs(r.Last(), 3, Proposed)
  {
    hide Legal;
    hide CanStep;
    hide CanCommit;
    hide IdText;
    hide CanCreate;
    r := Opening(env);
    ThePaths(FileName(TARGET));
    assert !FoldTaken(env, r.Last().files, TARGET);
    r := Extend(env, r, CheckFree);
  }

  lemma AboutToCopy(env: Env) returns (r: Run)
    requires env.device(["in"]) != env.device(["out"])
    ensures Legal(env, r) && InFlight(r.Last()) && r.Last().files == map[SOURCE := CONTENT]
    ensures FlightOf(r.Last()) == Move(env, Ready) && RowIs(r.Last(), 3, Copying)
  {
    hide Legal;
    r := Clearing(env);
    ThePaths(FileName(TARGET));
    r := ExtendCommit(env, r, Approved);
    r := ExtendCommit(env, r, Copying);
  }

  /** Between two file systems, an item renamed to the name of its own staging file: the journal says
      Copying while the target already holds an unfinished copy. */
  lemma StagingNameIsExposed(env: Env) returns (r: Run)
    requires env.device(["in"]) != env.device(["out"])
    ensures Legal(env, r) && InFlight(r.Last())
    ensures var w, f := r.Last(), FlightOf(r.Last());
            && f.kind.Approve? && f.touched == {} && CopiesOntoStage(env, f) && RowIs(w, f.id, Copying)
            && !Truth(w.files, f.before, f.from, f.to, Copying)
  {
    r := AboutToCopy(env);
    ThePaths(FileName(TARGET));
    r := ExtendStep(env, r, CreateStage(9, 0));
    assert r.Last().files[TARGET].bytes == [];
  }

  // ---------------------------------------------------------------- a stale undo

  /** The target the person chose last, which never reached the saved queue. */
  const CHOSEN: Path := ["out", "b"]

  lemma TheChosenPath()
    ensures IN_ROOT.path + ["a"] == SOURCE && OUT_ROOT.path + DirectoryPath(".") + ["b"] == CHOSEN
    ensures OUT_ROOT.path + DirectoryPath(".") + ["a"] == ["out", "a"]
    ensures Parent(SOURCE) == ["in"] && Parent(CHOSEN) == ["out"] && Parent(["out", "a"]) == ["out"]
  {
  }

  /** One item is saved; its new name is journalled, but the save after that fails. */
  lemma RevisedUnsaved(env: Env) returns (r: Run)
    ensures Legal(env, r) && IsIdle(r.Last()) && r.Last().files == map[SOURCE := CONTENT]
    ensures Memory(r.Last()) == State(false, [IN_ROOT, OUT_ROOT], [], [Queued(env, 2, "b")])
    ensures r.Last().saved == State(false, [IN_ROOT, OUT_ROOT], [], [Queued(env, 1, "a")])
    ensures r.Last().rows == map[3 := Journalled(2, Proposed, CHOSEN)]
  {
    hide IdText;
    hide CanConfigure;
    hide CanBegin;
    hide FoldTaken;
    hide Legal;
    hide CanStep;
    hide CanCommit;
    hide CanCreate;
    r := QueuedOne(env);
    TheRoots();
    TheChosenPath();
    r := Extend(env, r, Save);
    r := ExtendRevise(env, r, 3, Choice(2, "."), "b");
  }

  /** The approve of the new revision is under way, at this phase. */
  function Renaming(env: Env, phase: Phase): Flight {
    Flight(Kind.Approve, 3, SOURCE, CHOSEN, Queued(env, 2, "").identity, map[SOURCE := CONTENT], {}, phase)
  }

  ghost predicate Approving(env: Env, w: World, files: Files, phase: Phase, revision: nat, s: JState) {
    && InFlight(w) && w.files == files && FlightOf(w) == Renaming(env, phase)
    && w.saved == State(false, [IN_ROOT, OUT_ROOT], [], [Queued(env, 1, "a")])
    && w.rows == map[3 := Journalled(revision, s, CHOSEN)]
  }

  lemma ApprovingOpened(env: Env) returns (r: Run)
    ensures Legal(env, r) && Approving(env, r.Last(), map[SOURCE := CONTENT], Opened, 2, Proposed) && Current(r.Last(), 3)
  {
    hide Legal;
    hide CanStep;
    hide CanCommit;
    hide CanCreate;
    hide IdText;
    hide StageFor;
    r := RevisedUnsaved(env);
    TheRoots();
    TheChosenPath();
    r := Extend(env, r, Begin(Kind.Approve, 3));
  }

  lemma ApprovingNew(env: Env) returns (r: Run)
    ensures Legal(env, r) && Approving(env, r.Last(), map[SOURCE := CONTENT], Clear, 2, Proposed) && Current(r.Last(), 3)
  {
    hide Legal;
    hide CanStep;
    hide CanCommit;
    hide CanCreate;
    hide IdText;
    hide StageFor;
    r := ApprovingOpened(env);
    TheChosenPath();
    assert !FoldTaken(env, r.Last().files, CHOSEN);
    r := Extend(env, r, CheckFree);
  }

  lemma ApprovedNew(env: Env) returns (r: Run)
    ensures Legal(env, r) && Approving(env, r.Last(), map[SOURCE := CONTENT], Ready, 3, Approved)
  {
    hide Legal;
    r := ApprovingNew(env);
    r := ExtendCommit(env, r, Approved);
  }

  /** An attempt to open the service, up to the work list. */
  lemma OpenedAgain(env: Env, r: Run) returns (r': Run)
    requires Legal(env, r) && IsUp(r.Last()) && r.Last().rows.Keys == {3} && !Terminal(r.Last().rows[3].state)
    ensures Legal(env, r') && IsUp(r'.Last()) && r'.Last().rows == r.Last().rows && r'.Last().files == r.Last().files
    ensures r'.Last().saved == r.Last().saved && Memory(r'.Last()) == r.Last().saved
    ensures r'.Last().proc.task == Task.Recovering([3], true, Unseen)
  {
    hide Legal;
    hide CanStep;
    hide CanCommit;
    hide CanCreate;
    r' := Extend(env, r, Crash);
    r' := Extend(env, r', Load);
    OneToDo(env, r'.Last().rows);
    r' := Extend(env, r', BeginRecovery);
  }

  /** The first attempt flags the entry and dies before it saves the queue. */
  lemma FlaggedUnsaved(env: Env) returns (r: Run)
    ensures Legal(env, r) && IsUp(r.Last()) && r.Last().proc.task == Task.Recovering([3], true, Unseen)
    ensures Memory(r.Last()) == State(false, [IN_ROOT, OUT_ROOT], [], [Queued(env, 1, "a")])
    ensures r.Last().rows == map[3 := Journalled(4, NeedsAttention, CHOSEN)]
  {
    hide Legal;
    hide CanStep;
    hide CanCommit;
    hide CanCreate;
    r := ApprovedNew(env);
    r := OpenedAgain(env, r);
    r := Extend(env, r, SettleNext(0));
    r := OpenedAgain(env, r);
  }

  /** A flag can be lost: the entry of an interrupted approve asks for attention, while its item waits for a
      decision, saved so, at a revision that can never be approved again. */
  lemma FlagIsLost(env: Env) returns (r: Run)
    ensures Legal(env, r) && IsIdle(r.Last()) && r.Last().saved == Memory(r.Last())
    ensures |Items(r.Last())| == 1 && Items(r.Last())[0].status.SProposed?
    ensures var item := Items(r.Last())[0];
            RowIs(r.Last(), item.id, NeedsAttention) && item.revision < r.Last().rows[item.id].revision
  {
    hide FoldTaken;
    hide IdText;
    hide FindRoot;
    hide DirectoryPath;
    hide StageFor;
    hide Legal;
    hide CanStep;
    hide CanCommit;
    hide CanCreate;
    r := PassedOver(env);
    r := Extend(env, r, Save);
    r := Extend(env, r, EndRecovery);
  }

  /** The second attempt leaves the flagged entry, and with it the item, alone. */
  lemma PassedOver(env: Env) returns (r: Run)
    ensures Legal(env, r) && IsUp(r.Last()) && r.Last().proc.task == Task.Recovering([], true, Unseen)
    ensures Memory(r.Last()) == State(false, [IN_ROOT, OUT_ROOT], [], [Queued(env, 1, "a")])
    ensures r.Last().rows == map[3 := Journalled(4, NeedsAttention, CHOSEN)]
  {
    hide Legal;
    hide CanStep;
    hide CanCommit;
    hide CanCreate;
    r := FlaggedUnsaved(env);
    r := Extend(env, r, SettleNext(0));
  }

  lemma MovedNew(env: Env) returns (r: Run)
    requires env.device(["in"]) == env.device(["out"])
    ensures Legal(env, r) && Approving(env, r.Last(), map[CHOSEN := CONTENT], Renamed(CONTENT, true), 3, Approved)
  {
    hide Legal;
    r := ApprovedNew(env);
    TheChosenPath();
    r := ExtendStep(env, r, MoveFile);
    assert r.Last().files == map[CHOSEN := CONTENT];
    r := ExtendStep(env, r, CheckMoved);
  }

  lemma SourceGone(env: Env) returns (r: Run)
    requires env.device(["in"]) == env.device(["out"])
    ensures Legal(env, r) && Approving(env, r.Last(), map[CHOSEN := CONTENT], Renamed(CONTENT, true), 5, SourceRemoved)
  {
    hide Legal;
    r := MovedNew(env);
    r := ExtendCommit(env, r, Published);
    r := ExtendCommit(env, r, SourceRemoved);
  }

  lemma OneToDo(env: Env, rows: Rows)
    requires rows.Keys == {3} && !Terminal(rows[3].state)
    ensures DistinctRowids(rows) && Todo(rows) == [3]
  {
    assert Active(rows) == {3};
    var all := OldestFirst(rows, Active(rows));
    assert |all| == 1 && all[0] in all;
  }

  lemma Restarted(env: Env) returns (r: Run)
    requires env.device(["in"]) == env.device(["out"])
    ensures Legal(env, r) && IsUp(r.Last()) && r.Last().files == map[CHOSEN := CONTENT]
    ensures r.Last().proc.task == Task.Recovering([3], true, Unseen)
    ensures Memory(r.Last()) == State(false, [IN_ROOT, OUT_ROOT], [], [Queued(env, 1, "a")])
    ensures r.Last().rows == map[3 := Journalled(5, SourceRemoved, CHOSEN)]
  {
    hide Legal;
    hide CanStep;
    hide CanCommit;
    r := SourceGone(env);
    r := Extend(env, r, Crash);
    r := Extend(env, r, Load);
    OneToDo(env, r.Last().rows);
    r := Extend(env, r, BeginRecovery);
  }

  /** The service is idle over these files, with the stale item completed. */
  ghost predicate StaleAndIdle(env: Env, w: World, files: Files) {
    && IsIdle(w) && w.files == files
    && Memory(w) == State(false, [IN_ROOT, OUT_ROOT], [], [Queued(env, 6, "a").(status := SCompleted)])
    && w.rows == map[3 := Journalled(6, Completed, CHOSEN)]
  }

  /** Recovery has looked at source and destination. */
  lemma LookedAt(env: Env) returns (r: Run)
    requires env.device(["in"]) == env.device(["out"])
    ensures Legal(env, r) && IsUp(r.Last()) && r.Last().files == map[CHOSEN := CONTENT]
    ensures r.Last().proc.task == Task.Recovering([3], true, Seen(true, true))
    ensures Memory(r.Last()) == State(false, [IN_ROOT, OUT_ROOT], [], [Queued(env, 1, "a")])
    ensures r.Last().rows == map[3 := Journalled(5, SourceRemoved, CHOSEN)]
  {
    hide Legal;
    hide CanStep;
    hide CanCommit;
    hide CanCreate;
    r := Restarted(env);
    TheChosenPath();
    assert VerifiedDestination(env, r.Last().files, CHOSEN, Queued(env, 1, "a").identity, None);
    r := Extend(env, r, LookForSource);
    r := Extend(env, r, LookAtDestination);
  }

  /** After the restart: the entry, and with it the stale item, is completed, and the queue is saved. */
  lemma Recovered(env: Env) returns (r: Run)
    requires env.device(["in"]) == env.device(["out"])
    ensures Legal(env, r) && StaleAndIdle(env, r.Last(), map[CHOSEN := CONTENT])
  {
    hide Legal;
    hide CanStep;
    hide CanCommit;
    hide CanCreate;
    r := LookedAt(env);
    r := Extend(env, r, SettleNext(0));
    r := Extend(env, r, Save);
    r := Extend(env, r, EndRecovery);
  }

  /** The stale undo: it starts from the path that only the stale item knows. */
  function Undoes(env: Env, files: Files, phase: Phase): Flight {
    Flight(Kind.Undo, 3, ["out", "a"], SOURCE, Queued(env, 1, "a").identity, files, {}, phase)
  }

  ghost predicate StaleUndoing(env: Env, w: World, files: Files, phase: Phase, row: Row) {
    && InFlight(w) && w.files == files && FlightOf(w) == Undoes(env, files, phase)
    && w.rows == map[3 := row]
  }

  lemma UndoOpened(env: Env, r: Run, files: Files) returns (r': Run)
    requires Legal(env, r) && StaleAndIdle(env, r.Last(), files)
    ensures Legal(env, r') && StaleUndoing(env, r'.Last(), files, Opened, Journalled(6, Completed, CHOSEN)) && Current(r'.Last(), 3)
  {
    hide Legal;
    hide CanStep;
    hide CanCommit;
    hide CanCreate;
    TheRoots();
    TheChosenPath();
    r' := Extend(env, r, Begin(Kind.Undo, 3));
  }

  lemma UndoCleared(env: Env, r: Run, files: Files) returns (r': Run)
    requires Legal(env, r) && StaleAndIdle(env, r.Last(), files)
    requires forall p <- files :: p != [] ==> Parent(p) == ["out"]
    ensures Legal(env, r') && StaleUndoing(env, r'.Last(), files, Clear, Journalled(6, Completed, CHOSEN)) && Current(r'.Last(), 3)
  {
    hide Legal;
    hide CanStep;
    hide CanCommit;
    hide CanCreate;
    TheChosenPath();
    r' := UndoOpened(env, r, files);
    assert !FoldTaken(env, files, SOURCE);
    r' := Extend(env, r', CheckFree);
  }

  lemma UndoBegun(env: Env, r: Run, files: Files) returns (r': Run)
    requires Legal(env, r) && StaleAndIdle(env, r.Last(), files)
    requires forall p <- files :: p != [] ==> Parent(p) == ["out"]
    requires env.device(["in"]) == env.device(["out"])
    ensures Legal(env, r') && StaleUndoing(env, r'.Last(), files, Ready, Journalled(7, Undoing, CHOSEN))
  {
    hide Legal;
    hide CanStep;
    hide Current;
    TheChosenPath();
    r' := UndoCleared(env, r, files);
    r' := Extend(env, r', Commit(Undoing, 0));
  }

  /** With no other writer at all, the undo finds nothing: its entry names the path where the file is, and
      the undo looks elsewhere. */
  lemma StaleUndoMissesItsFile(env: Env) returns (r: Run)
    requires env.device(["in"]) == env.device(["out"])
    ensures Legal(env, r) && InFlight(r.Last())
    ensures var w, f := r.Last(), FlightOf(r.Last());
            && f.kind.Undo? && f.touched == {} && RowIs(w, f.id, Undoing)
            && w.files.Keys == {w.rows[f.id].dest} && f.from != w.rows[f.id].dest && f.from !in w.files && f.to !in w.files
  {
    hide Legal;
    TheChosenPath();
    r := Recovered(env);
    r := UndoBegun(env, r, map[CHOSEN := CONTENT]);
  }

  lemma RenamedByOthers(env: Env) returns (r: Run)
    requires env.device(["in"]) == env.device(["out"])
    ensures Legal(env, r) && StaleAndIdle(env, r.Last(), map[["out", "a"] := CONTENT])
  {
    hide Legal;
    hide CanStep;
    hide CanCommit;
    hide CanCreate;
    r := Recovered(env);
    r := Extend(env, r, Outside(map[["out", "a"] := CONTENT]));
  }

  /** If another process renames the file to where the stale item looks, the undo moves it from a path that
      its entry does not name. */
  lemma StaleUndoMovesFromElsewhere(env: Env) returns (r: Run)
    requires env.device(["in"]) == env.device(["out"])
    ensures Legal(env, r) && Enabled(env, r.Last(), File(MoveFile))
    ensures var w, f := r.Last(), FlightOf(r.Last());
            f.kind.Undo? && RowIs(w, f.id, Undoing) && f.from != w.rows[f.id].dest && f.from in w.files
  {
    hide Legal;
    TheChosenPath();
    r := RenamedByOthers(env);
    r := UndoBegun(env, r, map[["out", "a"] := CONTENT]);
  }
}
