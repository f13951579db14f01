/** A run in which the undo of a copy between file systems is journalled, although no other process ever
    writes: the item was saved for a folder on the file system of the source, redirected to another file
    system, and completed by recovery before that was saved. */
module CopyCounterexample {
  import opened Model
  import opened Journals
  import opened Machine
  import opened Paths
  import opened Invariants
  import opened FlightProofs
  import opened UndoTheorems
  import opened Counterexamples

  const FAR_ROOT: Root := Root(4, ["far"], false, true)
  const FAR: Path := ["far", "a"]
  const STAGE: Path := StageFor(FAR, 3)

  function StageOf(bytes: seq<Byte>): Node {
    Regular(9, 1, bytes, 0)
  }

  function Saved(env: Env): State {
    State(false, [IN_ROOT, OUT_ROOT, FAR_ROOT], [], [Queued(env, 1, "a")])
  }

  function Redirected(env: Env): State {
    Saved(env).(proposals := [Queued(env, 2, "a").(destination := Some(Choice(4, ".")))])
  }

  function Entry(revision: nat, state: JState, sha: Option<Digest>): Row {
    Row(revision, state, SOURCE, FAR, 1, sha, 0, 0)
  }

  predicate Layout(env: Env) {
    env.device(["in"]) == env.device(["out"]) != env.device(["far"])
  }

  lemma TheThreeRoots()
    ensures var roots := [IN_ROOT, OUT_ROOT, FAR_ROOT];
            && FindRoot(roots, 1, WatchedRole) == Some(IN_ROOT) && FindRoot(roots, 1, AnyRole) == Some(IN_ROOT)
            && FindRoot(roots, 2, DestinationRole) == Some(OUT_ROOT)
            && FindRoot(roots, 4, DestinationRole) == Some(FAR_ROOT)
  {
    assert [IN_ROOT, OUT_ROOT, FAR_ROOT][1..] == [OUT_ROOT, FAR_ROOT];
    assert [OUT_ROOT, FAR_ROOT][1..] == [FAR_ROOT];
  }

  lemma ThePlaces()
    ensures IN_ROOT.path + ["a"] == SOURCE && FAR_ROOT.path + DirectoryPath(".") + ["a"] == FAR
    ensures OUT_ROOT.path + DirectoryPath(".") + ["a"] == ["out", "a"]
    ensures Parent(SOURCE) == ["in"] && Parent(FAR) == ["far"] && Parent(["out", "a"]) == ["out"]
    ensures Parent(STAGE) == ["far"] && STAGE != FAR && STAGE != SOURCE && SOURCE != FAR
  {
    assert FileName(STAGE)[0] == '.';
    assert FileName(FAR) == "a";
  }

  // ---------------------------------------------------------------- redirected, but not saved

  lemma ThreeRoots(env: Env) returns (r: Run)
    ensures Legal(env, r) && IsIdle(r.Last()) && r.Last().files == map[SOURCE := CONTENT]
    ensures Memory(r.Last()) == Saved(env) && r.Last().saved == Saved(env)
    ensures r.Last().rows == map[3 := Journalled(1, Proposed, ["out", "a"])]
  {
    hide Legal;
    hide CanStep;
    hide CanCommit;
    hide CanCreate;
    r := QueuedOne(env);
    assert [IN_ROOT, OUT_ROOT] + [FAR_ROOT] == [IN_ROOT, OUT_ROOT, FAR_ROOT];
    r := Extend(env, r, Configure(AddRoot(FAR_ROOT)));
    r := Extend(env, r, Save);
  }

  lemma RedirectedUnsaved(env: Env) returns (r: Run)
    ensures Legal(env, r) && IsIdle(r.Last()) && r.Last().files == map[SOURCE := CONTENT]
    ensures Memory(r.Last()) == Redirected(env) && r.Last().saved == Saved(env)
    ensures r.Last().rows == map[3 := Entry(2, Proposed, None)]
  {
    hide Legal;
    hide CanStep;
    hide CanCommit;
    hide CanCreate;
    hide CanConfigure;
    hide IdText;
    r := ThreeRoots(env);
    TheThreeRoots();
    ThePlaces();
    r := ExtendRevise(env, r, 3, Choice(4, "."), "a");
  }

  // ---------------------------------------------------------------- copied

  function Copies(env: Env, phase: Phase): Flight {
    Flight(Kind.Approve, 3, SOURCE, FAR, Queued(env, 2, "").identity, map[SOURCE := CONTENT], {}, phase)
  }

  ghost predicate Copying(env: Env, w: World, files: Files, phase: Phase, row: Row) {
    && InFlight(w) && w.files == files && FlightOf(w) == Copies(env, phase)
    && w.saved == Saved(env) && w.rows == map[3 := row]
  }

  lemma Opened(env: Env) returns (r: Run)
    ensures Legal(env, r) && Copying(env, r.Last(), map[SOURCE := CONTENT], Phase.Opened, Entry(2, Proposed, None))
    ensures Current(r.Last(), 3)
  {
    hide StageFor;
    hide SameDevice;
    hide RowIs;
    hide Legal;
    hide CanStep;
    hide CanCommit;
    hide CanCreate;
    hide IdText;
    r := RedirectedUnsaved(env);
    TheThreeRoots();
    ThePlaces();
    r := Extend(env, r, Begin(Kind.Approve, 3));
  }

  lemma Cleared(env: Env) returns (r: Run)
    ensures Legal(env, r) && Copying(env, r.Last(), map[SOURCE := CONTENT], Clear, Entry(2, Proposed, None))
    ensures Current(r.Last(), 3)
  {
    hide Legal;
    hide CanStep;
    hide CanCommit;
    hide CanCreate;
    hide IdText;
    r := Opened(env);
    ThePlaces();
    assert !FoldTaken(env, r.Last().files, FAR);
    r := Extend(env, r, CheckFree);
  }

  lemma CopyAnnounced(env: Env) returns (r: Run)
    requires Layout(env)
    ensures Legal(env, r) && Copying(env, r.Last(), map[SOURCE := CONTENT], Ready, Entry(4, JState.Copying, None))
  {
    hide Legal;
    hide IdText;
    r := Cleared(env);
    ThePlaces();
    r := ExtendCommit(env, r, Approved);
    r := ExtendCommit(env, r, JState.Copying);
  }

  lemma Staged(env: Env) returns (r: Run)
    requires Layout(env)
    ensures Legal(env, r)
    ensures Copying(env, r.Last(), map[SOURCE := CONTENT, STAGE := StageOf([1])], Staging(StageOf([1])), Entry(4, JState.Copying, None))
  {
    hide Legal;
    hide IdText;
    hide CanCommit;
    r := CopyAnnounced(env);
    ThePlaces();
    r := ExtendStep(env, r, CreateStage(9, 0));
    assert r.Last().files == map[SOURCE := CONTENT, STAGE := StageOf([])];
    assert [] + [1] == [1];
    r := ExtendStep(env, r, WriteStage([1]));
    assert r.Last().files == map[SOURCE := CONTENT, STAGE := StageOf([1])];
  }

  lemma DigestRecorded(env: Env) returns (r: Run)
    requires Layout(env)
    ensures Legal(env, r)
    ensures Copying(env, r.Last(), map[SOURCE := CONTENT, STAGE := StageOf([1])], Recorded(StageOf([1])),
                    Entry(4, JState.Copying, Some(Hash(env, [1]))))
  {
    hide Legal;
    hide IdText;
    hide CanCommit;
    hide Hash;
    r := Staged(env);
    ThePlaces();
    r := ExtendStep(env, r, SealStage);
    r := ExtendStep(env, r, RecordDigest(0));
  }

  lemma CopyPublished(env: Env) returns (r: Run)
    requires Layout(env)
    ensures Legal(env, r)
    ensures Copying(env, r.Last(), map[SOURCE := CONTENT, FAR := StageOf([1])], Placed(StageOf([1]), true),
                    Entry(4, JState.Copying, Some(Hash(env, [1]))))
  {
    hide Legal;
    hide IdText;
    hide CanCommit;
    hide Hash;
    r := DigestRecorded(env);
    ThePlaces();
    r := ExtendStep(env, r, Publish);
    assert r.Last().files == map[SOURCE := CONTENT, FAR := StageOf([1])];
    r := ExtendStep(env, r, CheckPublished);
  }

  lemma CopyRetired(env: Env) returns (r: Run)
    requires Layout(env)
    ensures Legal(env, r)
    ensures Copying(env, r.Last(), map[FAR := StageOf([1])], Retired(StageOf([1])), Entry(5, Published, Some(Hash(env, [1]))))
  {
    hide Legal;
    hide IdText;
    hide Hash;
    r := CopyPublished(env);
    ThePlaces();
    r := ExtendCommit(env, r, Published);
    r := ExtendStep(env, r, Retire);
    assert r.Last().files == map[FAR := StageOf([1])];
  }

  // ---------------------------------------------------------------- crashed and recovered

  predicate Judging(env: Env, w: World, looks: Looks) {
    && IsUp(w) && w.files == map[FAR := StageOf([1])] && w.proc.task == Task.Recovering([3], true, looks)
    && Memory(w) == Saved(env) && w.rows == map[3 := Entry(6, SourceRemoved, Some(Hash(env, [1])))]
  }

  lemma Reloaded(env: Env) returns (r: Run)
    requires Layout(env)
    ensures Legal(env, r) && r.Last().files == map[FAR := StageOf([1])] && r.Last().proc == Up(Saved(env), Loading)
    ensures r.Last().rows == map[3 := Entry(6, SourceRemoved, Some(Hash(env, [1])))]
  {
    hide Legal;
    hide IdText;
    hide Hash;
    r := CopyRetired(env);
    r := ExtendCommit(env, r, SourceRemoved);
    hide CanCommit;
    hide CanStep;
    r := Extend(env, r, Crash);
    r := Extend(env, r, Load);
  }

  lemma Restarted(env: Env) returns (r: Run)
    requires Layout(env)
    ensures Legal(env, r) && Judging(env, r.Last(), Unseen)
  {
    hide Legal;
    hide IdText;
    hide Hash;
    r := Reloaded(env);
    OneToDo(env, r.Last().rows);
    r := Extend(env, r, BeginRecovery);
  }

  lemma Judged(env: Env) returns (r: Run)
    requires Layout(env)
    ensures Legal(env, r) && Judging(env, r.Last(), Seen(true, true))
  {
    hide Legal;
    hide CanStep;
    hide CanCommit;
    hide CanCreate;
    hide Hash;
    r := Restarted(env);
    ThePlaces();
    assert VerifiedDestination(env, r.Last().files, FAR, Queued(env, 1, "a").identity, Some(Hash(env, [1])));
    r := Extend(env, r, LookForSource);
    r := Extend(env, r, LookAtDestination);
  }

  function Stale(env: Env): State {
    Saved(env).(proposals := [Queued(env, 7, "a").(status := SCompleted)])
  }

  lemma Recovered(env: Env) returns (r: Run)
    requires Layout(env)
    ensures Legal(env, r) && IsIdle(r.Last()) && r.Last().files == map[FAR := StageOf([1])]
    ensures Memory(r.Last()) == Stale(env) && r.Last().saved == Stale(env)
    ensures r.Last().rows == map[3 := Entry(7, Completed, Some(Hash(env, [1])))]
  {
    hide Legal;
    hide CanStep;
    hide CanCommit;
    hide CanCreate;
    hide Hash;
    r := Judged(env);
    r := Extend(env, r, SettleNext(0));
    r := Extend(env, r, Save);
    r := Extend(env, r, EndRecovery);
  }

  // ---------------------------------------------------------------- undone

  function Undoes(env: Env, phase: Phase): Flight {
    Flight(Kind.Undo, 3, ["out", "a"], SOURCE, Queued(env, 1, "a").identity, map[FAR := StageOf([1])], {}, phase)
  }

  ghost predicate Undoing(env: Env, w: World, phase: Phase, row: Row) {
    && InFlight(w) && w.files == map[FAR := StageOf([1])] && FlightOf(w) == Undoes(env, phase) && w.rows == map[3 := row]
  }

  lemma UndoOpened(env: Env) returns (r: Run)
    requires Layout(env)
    ensures Legal(env, r) && Undoing(env, r.Last(), Phase.Opened, Entry(7, Completed, Some(Hash(env, [1]))))
    ensures Current(r.Last(), 3)
  {
    hide Legal;
    hide CanStep;
    hide CanCommit;
    hide CanCreate;
    hide Hash;
    r := Recovered(env);
    TheThreeRoots();
    ThePlaces();
    r := Extend(env, r, Begin(Kind.Undo, 3));
  }

  lemma UndoCleared(env: Env) returns (r: Run)
    requires Layout(env)
    ensures Legal(env, r) && Undoing(env, r.Last(), Clear, Entry(7, Completed, Some(Hash(env, [1]))))
    ensures Current(r.Last(), 3)
  {
    hide Legal;
    hide CanStep;
    hide CanCommit;
    hide CanCreate;
    hide Hash;
    r := UndoOpened(env);
    ThePlaces();
    assert !FoldTaken(env, r.Last().files, SOURCE);
    r := Extend(env, r, CheckFree);
  }

  /** The undo of a verified copy to another file system passes the device check and is journalled, and
      finds no file where it looks. */
  lemma UndoOfACopyIsJournalled(env: Env) returns (r: Run)
    requires Layout(env)
    ensures Legal(env, r) && InFlight(r.Last())
    ensures var w, f := r.Last(), FlightOf(r.Last());
            && f.kind.Undo? && f.touched == {} && RowIs(w, f.id, JState.Undoing)
            && WasCopied(env, w.rows, f.id) && w.rows[f.id].sha.Some?
            && f.from !in w.files && w.files.Keys == {w.rows[f.id].dest}
  {
    hide Legal;
    hide CanStep;
    hide Hash;
    r := UndoCleared(env);
    ThePlaces();
    r := ExtendCommit(env, r, JState.Undoing);
  }
}
