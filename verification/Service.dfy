/** The daemon's operations (crates/sortinghat-service): the review queue in memory, the journal and
    the state file on disk, and the moves between them. */
module Services {
  import opened Model
  import opened Journals
  import opened Machine
  import opened Paths
  import opened Invariants
  import opened FlightProofs
  import opened FileSystems
  import opened RecoveryTheorems
  import opened FileTheorems
  import opened UndoTheorems
  import QueueProofs
  import Rules
  import Walk
  import opened Scanning

  datatype ServiceError =
    | FsFailed(fs: FsError) | JournalFailed(journal: JournalError) | IoFailed | MalformedState | LimitReached
    | NoSuchItem | StaleRevision | DestinationRequired | Collision | UnsafePath

  // ---------------------------------------------------------------- what the queue says about a move

  datatype Plan = Plan(from: Path, to: Path, expected: Identity)

  function ApprovePlan(st: State, id: Id, revision: nat): (r: Result<Plan, ServiceError>)
    ensures r.Ok? ==> r.value.to != [] && r.value.from != []
  {
    if !Has(st.proposals, id) then Err(NoSuchItem)
    else
      var item := Item(st.proposals, id);
      if item.revision != revision then Err(StaleRevision)
      else if item.destination.None? then Err(DestinationRequired)
      else
        var choice := item.destination.value;
        var destination := FindRoot(st.roots, choice.root, DestinationRole);
        var source := FindRoot(st.roots, item.sourceRoot, WatchedRole);
        if destination.None? || source.None? || item.relative == [] then Err(UnsafePath)
        else
          var folder := destination.value.path + DirectoryPath(choice.directory);
          Ok(Plan(source.value.path + item.relative, folder + [item.name], item.identity))
  }

  function UndoPlan(st: State, id: Id, revision: nat): (r: Result<Plan, ServiceError>)
    ensures r.Ok? ==> r.value.to != [] && r.value.from != []
  {
    if !Has(st.proposals, id) then Err(NoSuchItem)
    else
      var item := Item(st.proposals, id);
      if item.revision != revision || !item.status.SCompleted? then Err(StaleRevision)
      else if SourcePath(st, item, AnyRole).None? || item.relative == [] then Err(UnsafePath)
      else if item.destination.None? then Err(DestinationRequired)
      else if DestPath(st, item).None? then Err(UnsafePath)
      else
        Ok(Plan(DestPath(st, item).value, SourcePath(st, item, AnyRole).value, item.identity))
  }

  /** The row may be approved from this revision and has room for the `steps` changes to come. */
  predicate RowReady(rows: Rows, id: Id, revision: nat, s: JState, steps: nat) {
    RowHas(rows, id, s) && rows[id].revision == revision && revision + steps <= MAX_I64
  }

  predicate RowHas(rows: Rows, id: Id, s: JState) {
    id in rows && rows[id].state == s
  }

  predicate TargetReady(env: Env, files: Files, plan: Plan)
    requires plan.to != []
  {
    IsFolder(files, Parent(plan.to)) && !FoldTaken(env, files, plan.to)
  }

  lemma MarkedAgain(items: seq<Proposal>, id: Id, r1: nat, s1: Status, r2: nat, s2: Status)
    ensures var once := Marked(items, id, r1, s1);
            && (Has(once, id) <==> Has(items, id))
            && Marked(once, id, r2, s2) == Marked(items, id, r2, s2)
  {
    MarkedPosition(items, id, r1, s1);
  }

  lemma FreeTarget(env: Env, files: Files, to: Path)
    requires to != [] && !FoldTaken(env, files, to)
    ensures to !in files
  {
  }

  /** The same world but for the files, this row, and the phase and touched paths of the move. */
  ghost predicate Flew(w: World, w': World, alone: bool) {
    && InFlight(w) && InFlight(w')
    && w'.saved == w.saved && w'.issued == w.issued && Memory(w') == Memory(w)
    && FlightOf(w').id in w.rows && FlightOf(w').id in w'.rows
    && w'.rows == w.rows[FlightOf(w').id := w'.rows[FlightOf(w').id]]
    && FlightOf(w') == FlightOf(w).(phase := FlightOf(w').phase, touched := FlightOf(w').touched)
    && (alone ==> FlightOf(w').touched == FlightOf(w).touched)
  }

  class Service {
    const fs: FileSystem
    const journal: Journal
    var state: State
    var stability: Samples

    ghost function Now(): World
      reads fs.history
    {
      fs.history.Now()
    }

    /** Memory, journal and files are those of the last recorded world. */
    ghost predicate Synced()
      reads this, fs, fs.history, journal
    {
      fs.Synced() && Now().rows == journal.rows && Now().proc.Up? && Memory(Now()) == state
    }

    /** Between two commands. */
    ghost predicate Valid()
      reads this, fs, fs.history, journal
    {
      Synced() && IsIdle(Now())
    }

    /** A new process reads the state file. */
    constructor Load(fs: FileSystem, journal: Journal)
      requires fs.Synced() && fs.history.Now().proc.Down? && fs.history.Now().rows == journal.rows
      modifies fs.history
      ensures this.fs == fs && this.journal == journal
      ensures Synced() && Now() == old(fs.history.Now()).(proc := Up(old(fs.history.Now()).saved, Loading))
      ensures Grows(old(fs.history.run), fs.history.run, true)
    {
      this.fs := fs;
      this.journal := journal;
      state := fs.saved;
      stability := map[];
      new;
      fs.history.Record(Action.Load);
    }

    // -------------------------------------------------------------- steps of a move

    /** Commit the next journal state of the move under way. */
    method Advance(id: Id, revision: nat, next: JState, now: int, faults: set<Fault>)
      returns (r: Result<nat, ServiceError>)
      requires Synced() && InFlight(Now()) && FlightOf(Now()).id == id && CanCommit(fs.history.env, Now(), next)
      requires next.Copying? || next.Published? || next.SourceRemoved?
      requires journal.rows[id].revision == revision
      modifies journal, fs.history
      ensures Synced() && Grows(old(fs.history.run), fs.history.run, true)
      ensures r.Ok? <==> JournalWrite(next) !in faults && revision < MAX_I64
      ensures r.Ok? ==> r.value == revision + 1 && Now() == AfterCommit(old(Now()), next, now)
      ensures r.Err? ==> Now() == old(Now())
    {
      var done := journal.Transition(id, revision, next, now, JournalWrite(next) in faults);
      if done.Err? {
        return Err(JournalFailed(done.error));
      }
      fs.history.RecordCommit(next, now);
      return Ok(done.value);
    }

    /** Approved and on one file system: rename, then say so. */
    method MoveSame(id: Id, revision: nat, plan: Plan, now: int, alone: bool, faults: set<Fault>)
      returns (r: Result<nat, ServiceError>)
      requires Synced() && fs.MayMove(plan.from, plan.to, plan.expected)
      requires var f := FlightOf(Now()); f.kind.Approve? && f.id == id && RowIs(Now(), id, Approved)
      requires journal.rows[id].revision == revision
      modifies fs`files, journal, fs.history
      ensures Synced() && Grows(old(fs.history.run), fs.history.run, alone)
      ensures Flew(old(Now()), Now(), alone)
      ensures r.Ok? ==> RowIs(Now(), id, Published) && journal.rows[id].revision == r.value == revision + 1
                        && FlightOf(Now()).phase.Renamed?
      ensures alone ==> (r.Ok? <==> faults !! {OpenFile, Move, SyncMove, Reopen, JournalWrite(Published)} && revision < MAX_I64
                                    && Shows(fs.history.env, old(fs.files), plan.from, plan.expected)
                                    && plan.to !in old(fs.files))
      ensures alone && !Shows(fs.history.env, old(fs.files), plan.from, plan.expected) ==> fs.files == old(fs.files)
    {
      var moved := fs.SameFilesystemMoveAt(plan.from, plan.to, plan.expected, alone, faults);
      if moved.Err? {
        return Err(FsFailed(moved.error));
      }
      r := Advance(id, revision, Published, now, faults);
    }

    /** The move under way is this approved plan, between two file systems. */
    ghost predicate Crossing(id: Id, plan: Plan)
      reads fs.history
    {
      Carries(Kind.Approve, id, plan) && !SameDevice(fs.history.env, plan.from, plan.to)
    }

    /** Copy to the staging file and record the digest in the journal. */
    method StageCopy(id: Id, revision: nat, plan: Plan, now: int, alone: bool, faults: set<Fault>)
      returns (r: Result<Digest, ServiceError>)
      requires Synced() && Crossing(id, plan) && FlightOf(Now()).phase.Ready? && RowIs(Now(), id, Copying)
      requires journal.rows[id].revision == revision
      requires alone ==> FlightOf(Now()).touched == {}
      modifies fs`files, journal, fs.history
      ensures Synced() && Grows(old(fs.history.run), fs.history.run, alone)
      ensures Flew(old(Now()), Now(), alone)
      ensures RowIs(Now(), id, Copying) && journal.rows[id].revision == revision
      ensures r.Ok? ==> FlightOf(Now()).phase.Recorded? && journal.rows[id].sha == Some(r.value)
      ensures alone ==> (r.Ok? <==>
                faults !! {CreateFile, ReadFile, WriteFile, SyncFile, Reopen, DigestWrite}
                && Shows(fs.history.env, old(fs.files), plan.from, plan.expected)
                && StageFor(plan.to, id) !in old(fs.files)
                && HexDigest(Hash(fs.history.env, old(fs.files)[plan.from].bytes)))
      ensures alone && !Shows(fs.history.env, old(fs.files), plan.from, plan.expected) ==> fs.files == old(fs.files)
    {
      var copied := fs.VerifiedStageCopyAt(plan.from, StageFor(plan.to, id), plan.expected, alone, faults);
      if copied.Err? {
        return Err(FsFailed(copied.error));
      }
      HexDigits(copied.value);
      var recorded := journal.SetSha256(id, copied.value, now, DigestWrite in faults);
      if recorded.Err? {
        return Err(JournalFailed(recorded.error));
      }
      fs.history.RecordStep(RecordDigest(now));
      return Ok(copied.value);
    }

    /** Publish the staged copy, verify it, say so, and only then retire the source. */
    method PublishAndRetire(id: Id, revision: nat, plan: Plan, digest: Digest, now: int, alone: bool, faults: set<Fault>)
      returns (r: Result<nat, ServiceError>)
      requires Synced() && Crossing(id, plan) && FlightOf(Now()).phase.Recorded? && RowIs(Now(), id, Copying)
      requires journal.rows[id].revision == revision && journal.rows[id].sha == Some(digest)
      requires alone ==> FlightOf(Now()).touched == {}
      modifies fs`files, journal, fs.history
      ensures Synced() && Grows(old(fs.history.run), fs.history.run, alone)
      ensures Flew(old(Now()), Now(), alone)
      ensures r.Ok? ==> RowIs(Now(), id, Published) && journal.rows[id].revision == r.value == revision + 1
                        && FlightOf(Now()).phase.Retired?
      ensures alone ==> (r.Ok? <==>
                faults !! {PublishCall, SyncPublish, VerifyCall, JournalWrite(Published), Unlink, SyncUnlink}
                && StageFor(plan.to, id) != plan.to && revision < MAX_I64)
    {
      var published := fs.PublishStageAt(StageFor(plan.to, id), plan.to, alone, faults);
      if published.Err? {
        return Err(FsFailed(published.error));
      }
      var verified := fs.VerifyAt(plan.to, digest, alone, faults);
      if verified.Err? {
        return Err(FsFailed(verified.error));
      }
      r := Advance(id, revision, Published, now, faults);
      if r.Err? {
        return;
      }
      var retired := fs.RetireSourceAt(plan.from, plan.expected, digest, alone, faults);
      if retired.Err? {
        return Err(FsFailed(retired.error));
      }
    }

    /** Approved and between two file systems: stage, publish, verify, retire. */
    method MoveAcross(id: Id, revision: nat, plan: Plan, now: int, alone: bool, faults: set<Fault>)
      returns (r: Result<nat, ServiceError>)
      requires Synced() && Crossing(id, plan) && FlightOf(Now()).phase.Ready? && RowIs(Now(), id, Approved)
      requires journal.rows[id].revision == revision
      requires alone ==> FlightOf(Now()).touched == {}
      modifies fs`files, journal, fs.history
      ensures Synced() && Grows(old(fs.history.run), fs.history.run, alone)
      ensures Flew(old(Now()), Now(), alone)
      ensures r.Ok? ==> RowIs(Now(), id, Published) && journal.rows[id].revision == r.value == revision + 2
                        && FlightOf(Now()).phase.Retired?
      ensures alone ==> (r.Ok? <==>
                faults !! CROSS_FAULTS && revision + 1 < MAX_I64
                && Shows(fs.history.env, old(fs.files), plan.from, plan.expected)
                && StageFor(plan.to, id) !in old(fs.files) && StageFor(plan.to, id) != plan.to
                && HexDigest(Hash(fs.history.env, old(fs.files)[plan.from].bytes)))
      ensures alone && !Shows(fs.history.env, old(fs.files), plan.from, plan.expected) ==> fs.files == old(fs.files)
    {
      var copying := Advance(id, revision, Copying, now, faults);
      if copying.Err? {
        return copying;
      }
      var staged := StageCopy(id, copying.value, plan, now, alone, faults);
      if staged.Err? {
        return Err(staged.error);
      }
      r := PublishAndRetire(id, copying.value, plan, staged.value, now, alone, faults);
    }

    // -------------------------------------------------------------- approve

    /** The move under way carries out this plan. */
    ghost predicate Carries(kind: Kind, id: Id, plan: Plan)
      reads fs.history
    {
      && InFlight(Now())
      && var f := FlightOf(Now());
      && f.kind == kind && f.id == id && f.from == plan.from && f.to == plan.to && f.expected == plan.expected
      && plan.from != [] && plan.to != []
    }

    /** The item is in memory at this revision. */
    ghost predicate Holds(id: Id, revision: nat)
      reads this
    {
      Has(state.proposals, id) && Item(state.proposals, id).revision == revision
    }

    /** Check the target folder, then that no entry of it equals the target name after case folding. */
    method CheckTarget(plan: Plan, alone: bool, faults: set<Fault>) returns (r: Result<(), ServiceError>)
      requires fs.Synced() && InFlight(Now()) && FlightOf(Now()).phase.Opened? && FlightOf(Now()).to == plan.to && plan.to != []
      modifies fs`files, fs.history
      ensures fs.Synced() && Grows(old(fs.history.run), fs.history.run, alone)
      ensures OnlyFlew(old(Now()), Now(), alone)
      ensures alone ==> fs.files == old(fs.files)
      ensures r.Ok? ==> FlightOf(Now()).phase.Clear?
      ensures alone ==> (r.Ok? <==> faults !! {StatFolder, ListFolder} && TargetReady(fs.history.env, old(fs.files), plan))
      ensures alone && StatFolder !in faults && ListFolder !in faults && IsFolder(old(fs.files), Parent(plan.to))
              && FoldTaken(fs.history.env, old(fs.files), plan.to)
              ==> r == Err(Collision)
    {
      fs.OtherProcesses(alone);
      var folder := Parent(plan.to);
      if StatFolder in faults || folder !in fs.files {
        return Err(IoFailed);
      }
      if !fs.files[folder].Directory? {
        return Err(UnsafePath);
      }
      fs.OtherProcesses(alone);
      var taken := fs.DestinationExistsCaseFolded(plan.to, faults);
      if taken.Err? {
        return Err(FsFailed(taken.error));
      }
      if taken.value {
        return Err(Collision);
      }
      fs.history.Record(CheckFree);
      return Ok(());
    }

    /** The compare-and-swap that approves, and the revision in memory that follows it. */
    method CommitRevision(id: Id, revision: nat, now: int, faults: set<Fault>) returns (r: Result<nat, ServiceError>)
      requires Synced() && InFlight(Now()) && FlightOf(Now()).phase.Clear? && FlightOf(Now()).kind.Approve?
      requires FlightOf(Now()).id == id && FlightOf(Now()).from != [] && FlightOf(Now()).to != []
      requires Holds(id, revision)
      modifies this`state, journal, fs.history
      ensures Synced() && Grows(old(fs.history.run), fs.history.run, true)
      ensures r.Ok? <==> JournalWrite(Approved) !in faults && RowReady(old(journal.rows), id, revision, Proposed, 1)
      ensures r.Ok? ==> r.value == revision + 1 && Now() == AfterCommit(old(Now()), Approved, now)
      ensures r.Err? ==> Now() == old(Now())
    {
      hide Marked;
      hide Position;
      hide Legal;
      var approved := journal.Transition(id, revision, Approved, now, JournalWrite(Approved) in faults);
      if approved.Err? {
        return Err(JournalFailed(approved.error));
      }
      Mark(id, approved.value, Item(state.proposals, id).status);
      fs.history.RecordCommit(Approved, now);
      return Ok(approved.value);
    }

    /** Completed, in the journal and then in memory. */
    method CommitCompleted(id: Id, revision: nat, now: int, faults: set<Fault>) returns (r: Result<nat, ServiceError>)
      requires Synced() && InFlight(Now()) && FlightOf(Now()).id == id && CanCommit(fs.history.env, Now(), Completed)
      requires journal.rows[id].revision == revision && Has(state.proposals, id)
      modifies this`state, journal, fs.history
      ensures Synced() && Grows(old(fs.history.run), fs.history.run, true)
      ensures r.Ok? <==> JournalWrite(Completed) !in faults && revision < MAX_I64
      ensures r.Ok? ==> r.value == revision + 1 && Now() == AfterCommit(old(Now()), Completed, now)
      ensures r.Err? ==> Now() == old(Now())
    {
      hide Marked;
      hide Position;
      hide Legal;
      var done := journal.Transition(id, revision, Completed, now, JournalWrite(Completed) in faults);
      if done.Err? {
        return Err(JournalFailed(done.error));
      }
      Mark(id, done.value, SCompleted);
      fs.history.RecordCommit(Completed, now);
      return Ok(done.value);
    }

    /** Undone, in the journal and then in memory. */
    method CommitUndone(id: Id, revision: nat, now: int, faults: set<Fault>) returns (r: Result<nat, ServiceError>)
      requires Synced() && InFlight(Now()) && FlightOf(Now()).id == id && CanCommit(fs.history.env, Now(), Undone)
      requires journal.rows[id].revision == revision && Has(state.proposals, id)
      modifies this`state, journal, fs.history
      ensures Synced() && Grows(old(fs.history.run), fs.history.run, true)
      ensures r.Ok? <==> JournalWrite(Undone) !in faults && revision < MAX_I64
      ensures r.Ok? ==> r.value == revision + 1 && Now() == AfterCommit(old(Now()), Undone, now)
      ensures r.Err? ==> Now() == old(Now())
    {
      hide Marked;
      hide Position;
      hide Legal;
      var done := journal.Transition(id, revision, Undone, now, JournalWrite(Undone) in faults);
      if done.Err? {
        return Err(JournalFailed(done.error));
      }
      Mark(id, done.value, SUndone);
      fs.history.RecordCommit(Undone, now);
      return Ok(done.value);
    }

    /** The source is gone: record that, then completion. */
    method CommitCompletion(id: Id, revision: nat, now: int, faults: set<Fault>) returns (r: Result<nat, ServiceError>)
      requires Synced() && InFlight(Now())
      requires var f := FlightOf(Now());
               f.kind.Approve? && f.id == id && f.from != [] && f.to != [] && (f.phase.Renamed? || f.phase.Retired?)
      requires RowIs(Now(), id, Published) && journal.rows[id].revision == revision && Has(state.proposals, id)
      modifies this`state, journal, fs.history
      ensures Synced() && Grows(old(fs.history.run), fs.history.run, true)
      ensures r.Ok? <==> faults !! {JournalWrite(SourceRemoved), JournalWrite(Completed)} && revision + 2 <= MAX_I64
      ensures r.Ok? ==> r.value == revision + 2 && IsIdle(Now())
                        && Settles(old(journal.rows), old(state), journal.rows, state, id, now, r.value, Completed, SCompleted)
      ensures r.Err? ==> InFlight(Now())
    {
      r := Advance(id, revision, SourceRemoved, now, faults);
      if r.Ok? {
        r := CommitCompleted(id, r.value, now, faults);
      }
    }

    /** An undisturbed move that has landed left exactly these files. */
    lemma LandedFiles()
      requires fs.Synced() && InFlight(Now()) && FlightOf(Now()).touched == {}
      requires FlightOf(Now()).phase.Renamed? || FlightOf(Now()).phase.Retired?
      ensures var f := FlightOf(Now());
              f.from != [] && f.to != []
              && MovedFiles(fs.history.env, f.before, fs.files, f.from, f.to)
    {
      fs.PublishFacts();
      if FlightOf(Now()).phase.Retired? {
        StageIsNotSource(fs.history.env, FlightOf(Now()));
      }
    }

    /** Carry an approved plan through, on either path. */
    method MoveFiles(id: Id, revision: nat, plan: Plan, now: int, alone: bool, faults: set<Fault>)
      returns (r: Result<nat, ServiceError>)
      requires Synced() && Carries(Kind.Approve, id, plan) && FlightOf(Now()).phase.Ready?
      requires RowIs(Now(), id, Approved) && journal.rows[id].revision == revision
      requires alone ==> FlightOf(Now()).touched == {}
      modifies fs`files, journal, fs.history
      ensures Synced() && Grows(old(fs.history.run), fs.history.run, alone)
      ensures Flew(old(Now()), Now(), alone)
      ensures r.Ok? ==> RowIs(Now(), id, Published)
                        && journal.rows[id].revision == r.value == revision + Steps(fs.history.env, plan) - 3
                        && (FlightOf(Now()).phase.Renamed? || FlightOf(Now()).phase.Retired?)
      ensures alone && plan.to !in old(fs.files) ==>
                (r.Ok? <==>
                  faults !! PathFaults(fs.history.env, plan) && revision + Steps(fs.history.env, plan) - 3 <= MAX_I64
                  && SourceReady(fs.history.env, old(fs.files), id, plan))
      ensures alone && !Shows(fs.history.env, old(fs.files), plan.from, plan.expected) ==> fs.files == old(fs.files)
    {
      if SameDevice(fs.history.env, plan.from, plan.to) {
        r := MoveSame(id, revision, plan, now, alone, faults);
      } else {
        r := MoveAcross(id, revision, plan, now, alone, faults);
      }
    }

    /** The first half of an approve: check the target, then commit the approval. */
    method SecureApproval(id: Id, revision: nat, plan: Plan, now: int, alone: bool, faults: set<Fault>)
      returns (r: Result<nat, ServiceError>)
      requires Synced() && Carries(Kind.Approve, id, plan) && Holds(id, revision) && FlightOf(Now()).phase.Opened?
      modifies this`state, fs`files, journal, fs.history
      ensures Synced() && Grows(old(fs.history.run), fs.history.run, alone) && Carries(Kind.Approve, id, plan)
      ensures FlightOf(Now()).before == FlightOf(old(Now())).before
      ensures alone ==> fs.files == old(fs.files) && FlightOf(Now()).touched == FlightOf(old(Now())).touched
      ensures r.Err? ==> journal.rows == old(journal.rows)
      ensures r.Ok? ==> FlightOf(Now()).phase.Ready? && r.value == revision + 1
                        && Settles(old(journal.rows), old(state), journal.rows, state, id, now, revision + 1, Approved,
                                   Item(old(state).proposals, id).status)
      ensures alone ==> (r.Ok? <==>
                faults !! CHECK_FAULTS
                && TargetReady(fs.history.env, old(fs.files), plan) && RowReady(old(journal.rows), id, revision, Proposed, 1))
      ensures alone && StatFolder !in faults && ListFolder !in faults && IsFolder(old(fs.files), Parent(plan.to))
              && FoldTaken(fs.history.env, old(fs.files), plan.to)
              ==> r == Err(Collision)
    {
      var checked := CheckTarget(plan, alone, faults);
      if checked.Err? {
        return Err(checked.error);
      }
      fs.OtherProcesses(alone);
      r := CommitRevision(id, revision, now, faults);
    }

    /** The second half: move the files, then commit the completion. */
    method LandApproval(
        id: Id, revision: nat, plan: Plan, now: int, alone: bool, faults: set<Fault>,
        ghost rows: Rows, ghost st: State, ghost status: Status)
      returns (r: Result<nat, ServiceError>)
      requires Settles(rows, st, journal.rows, state, id, now, revision, Approved, status)
      requires Synced() && Carries(Kind.Approve, id, plan) && FlightOf(Now()).phase.Ready? && Has(state.proposals, id)
      requires RowIs(Now(), id, Approved) && journal.rows[id].revision == revision
      requires alone ==> FlightOf(Now()).touched == {} && FlightOf(Now()).before == fs.files && plan.to !in fs.files
      modifies this`state, fs`files, journal, fs.history
      ensures Synced() && Grows(old(fs.history.run), fs.history.run, alone)
      ensures r.Err? ==> InFlight(Now())
      ensures r.Ok? ==> IsIdle(Now()) && r.value == revision + Steps(fs.history.env, plan) - 1
                        && Settles(rows, st, journal.rows, state, id, now, r.value, Completed, SCompleted)
      ensures alone && r.Ok? ==> MovedFiles(fs.history.env, old(fs.files), fs.files, plan.from, plan.to)
      ensures alone ==> (r.Ok? <==>
                faults !! LandFaults(fs.history.env, plan)
                && SourceReady(fs.history.env, old(fs.files), id, plan)
                && revision + Steps(fs.history.env, plan) - 1 <= MAX_I64)
      ensures alone && !Shows(fs.history.env, old(fs.files), plan.from, plan.expected) ==> fs.files == old(fs.files)
    {
      r := MoveFiles(id, revision, plan, now, alone, faults);
      if r.Err? {
        return;
      }
      if alone {
        LandedFiles();
      }
      ghost var rows1 := journal.rows;
      r := CommitCompletion(id, r.value, now, faults);
      if r.Ok? {
        RowSettles(old(journal.rows), rows1, journal.rows, state, old(state), id, now, r.value, Completed, SCompleted);
        SettlesOn(rows, st, revision, Approved, status, old(journal.rows), old(state),
                  r.value, Completed, SCompleted, journal.rows, state, id, now);
      }
    }

    /** From the open source to the completed journal entry. */
    method FlyApprove(id: Id, revision: nat, plan: Plan, now: int, alone: bool, faults: set<Fault>)
      returns (r: Result<nat, ServiceError>)
      requires Synced() && Carries(Kind.Approve, id, plan) && Holds(id, revision) && FlightOf(Now()).phase.Opened?
      requires FlightOf(Now()).touched == {} && FlightOf(Now()).before == fs.files
      modifies this`state, fs`files, journal, fs.history
      ensures Synced() && Grows(old(fs.history.run), fs.history.run, alone)
      ensures r.Err? ==> InFlight(Now())
      ensures r.Ok? ==> IsIdle(Now()) && r.value == revision + Steps(fs.history.env, plan)
                        && Settles(old(journal.rows), old(state), journal.rows, state, id, now, r.value, Completed, SCompleted)
      ensures alone && r.Ok? ==> MovedFiles(fs.history.env, old(fs.files), fs.files, plan.from, plan.to)
      ensures alone ==> (r.Ok? <==>
                faults !! ApproveFaults(fs.history.env, plan)
                && TargetReady(fs.history.env, old(fs.files), plan) && SourceReady(fs.history.env, old(fs.files), id, plan)
                && RowReady(old(journal.rows), id, revision, Proposed, Steps(fs.history.env, plan)))
      ensures alone && StatFolder !in faults && ListFolder !in faults && IsFolder(old(fs.files), Parent(plan.to))
              && FoldTaken(fs.history.env, old(fs.files), plan.to)
              ==> r == Err(Collision) && journal.rows == old(journal.rows) && fs.files == old(fs.files)
      ensures alone && !Shows(fs.history.env, old(fs.files), plan.from, plan.expected) ==> fs.files == old(fs.files)
    {
      r := SecureApproval(id, revision, plan, now, alone, faults);
      if r.Err? {
        return;
      }
      ghost var status := Item(old(state).proposals, id).status;
      MarkedAgain(old(state).proposals, id, revision + 1, status, revision + 1, status);
      if alone {
        FreeTarget(fs.history.env, fs.files, plan.to);
      }
      r := LandApproval(id, r.value, plan, now, alone, faults, old(journal.rows), old(state), status);
    }

    // -------------------------------------------------------------- keeping the stores small

    /** Forget the oldest finished items beyond the limit; all others stay, in order. */
    method PruneTerminalProposals()
      requires fs.Synced() && Now().proc.Up? && (Now().proc.task.Loading? || Now().proc.task.Idle?) && Memory(Now()) == state
      modifies this`state, fs.history
      ensures fs.Synced() && Grows(old(fs.history.run), fs.history.run, true)
      ensures state == old(state).(proposals := PruneItems(old(state).proposals))
      ensures Now() == WithItems(old(Now()), state.proposals)
    {
      var items := state.proposals;
      var terminal := 0;
      for i := 0 to |items|
        invariant terminal + Finished(items[i..]) == Finished(items)
      {
        assert items[i..][1..] == items[i + 1..];
        if FinishedItem(items[i]) {
          terminal := terminal + 1;
        }
      }
      var remove: nat := if terminal > MAX_TERMINAL then terminal - MAX_TERMINAL else 0;
      ghost var all: nat := remove;
      var kept: seq<Proposal> := [];
      for i := 0 to |items|
        invariant kept + DropFinished(items[i..], remove) == DropFinished(items, all)
      {
        assert items[i..][1..] == items[i + 1..];
        if FinishedItem(items[i]) && remove > 0 {
          remove := remove - 1;
        } else {
          kept := kept + [items[i]];
        }
      }
      state := state.(proposals := kept);
      fs.history.Record(Prune);
    }

    lemma RowsAreDistinct()
      requires fs.Synced()
      ensures DistinctRowids(Now().rows)
    {
      RunKeepsInv(fs.history.env, fs.history.run);
    }

    /** Retention in two durable passes. */
    method EnforceJournalRetention(now: int, faults: set<Fault>) returns (ok: bool)
      requires Synced() && (Now().proc.task.Loading? || Now().proc.task.Idle?)
      modifies journal, fs.history
      ensures Synced() && Grows(old(fs.history.run), fs.history.run, true)
      ensures DistinctRowids(old(journal.rows)) && Within(journal.rows, old(journal.rows))
      ensures Now() == old(Now()).(rows := journal.rows)
      ensures ok ==> journal.rows == Retained(old(journal.rows), now, 10000, 2592000)
      ensures ok <==> faults !! RETAIN_FAULTS
    {
      hide Legal;
      hide DropAged;
      hide DropExcess;
      RowsAreDistinct();
      var done := journal.EnforceRetention(
        MAX_TERMINAL, MAX_AGE, now, DropOldRows in faults, DropManyRows in faults, JournalTooBig in faults);
      if DropOldRows !in faults {
        fs.history.Record(RetainYoung(now));
        if DropManyRows !in faults {
          fs.history.Record(RetainNewest);
        }
      }
      return done.Ok?;
    }

    /** The end of every command that finishes an item: prune, enforce retention, save. */
    method Conclude(now: int, faults: set<Fault>) returns (r: Result<(), ServiceError>)
      requires Valid()
      modifies this`state, fs`saved, journal, fs.history
      ensures Valid() && Grows(old(fs.history.run), fs.history.run, true)
      ensures DistinctRowids(old(journal.rows)) && Within(journal.rows, old(journal.rows))
      ensures state == old(state).(proposals := PruneItems(old(state).proposals))
      ensures Now().issued == old(Now().issued)
      ensures r.Ok? <==> faults !! CONCLUDE_FAULTS
      ensures r.Ok? ==> fs.saved == state && journal.rows == Retained(old(journal.rows), now, 10000, 2592000)
    {
      PruneTerminalProposals();
      var small := EnforceJournalRetention(now, faults);
      if !small {
        return Err(JournalFailed(Limit));
      }
      var saved := fs.Save(state, faults);
      if !saved {
        return Err(IoFailed);
      }
      return Ok(());
    }

    // -------------------------------------------------------------- the two moving commands

    /** Open the source and carry the plan through; on any error the move is over. */
    method RunApprove(id: Id, revision: nat, plan: Plan, now: int, alone: bool, faults: set<Fault>)
      returns (r: Result<nat, ServiceError>)
      requires Valid() && ApprovePlan(state, id, revision) == Ok(plan)
      modifies this`state, fs`files, journal, fs.history
      ensures Valid() && Grows(old(fs.history.run), fs.history.run, alone)
      ensures r.Ok? ==> r.value == revision + Steps(fs.history.env, plan)
                        && Settles(old(journal.rows), old(state), journal.rows, state, id, now, r.value, Completed, SCompleted)
      ensures alone && r.Ok? ==> MovedFiles(fs.history.env, old(fs.files), fs.files, plan.from, plan.to)
      ensures alone ==> (r.Ok? <==>
                OpenSource !in faults && faults !! ApproveFaults(fs.history.env, plan)
                && CanApprove(fs.history.env, old(fs.files), old(journal.rows), id, revision, plan))
      ensures alone && faults == {} && plan.from in old(fs.files) && IsFolder(old(fs.files), Parent(plan.to))
              && FoldTaken(fs.history.env, old(fs.files), plan.to)
              ==> r == Err(Collision) && journal.rows == old(journal.rows) && fs.files == old(fs.files)
      ensures alone && !Shows(fs.history.env, old(fs.files), plan.from, plan.expected) ==> r.Err? && fs.files == old(fs.files)
    {
      fs.OtherProcesses(alone);
      if OpenSource in faults || plan.from !in fs.files {
        return Err(FsFailed(Io));
      }
      fs.history.RecordBegin(Kind.Approve, id);
      r := FlyApprove(id, revision, plan, now, alone, faults);
      if r.Err? {
        fs.history.RecordAbort();
      }
    }

    /** Approve exactly this revision. Under any interference it stays on a legal run; alone, it
        succeeds exactly when everything is ready and no call fails, and then has moved the file. */
    method Approve(id: Id, revision: nat, now: int, alone: bool, faults: set<Fault>)
      returns (r: Result<Proposal, ServiceError>)
      requires Valid()
      modifies this`state, fs`files, fs`saved, journal, fs.history
      ensures Valid() && Grows(old(fs.history.run), fs.history.run, alone)
      ensures forall error :: IsRefused(old(state), id, revision, error) ==>
                r == Err(error) && journal.rows == old(journal.rows) && state == old(state) && fs.files == old(fs.files)
      ensures alone ==> (r.Ok? <==> exists plan ::
                ToApprove(old(state), id, revision, plan)
                && ApproveWorks(fs.history.env, old(fs.files), old(journal.rows), id, revision, plan, faults))
      ensures r.Ok? ==> fs.saved == state
                        && Concludes(old(journal.rows), old(state), journal.rows, state, id, now, r.value, Completed)
      ensures forall plan :: ToApprove(old(state), id, revision, plan) ==>
                && (r.Ok? ==> r.value.revision == revision + Steps(fs.history.env, plan))
                && (alone && r.Ok? ==> MovedFiles(fs.history.env, old(fs.files), fs.files, plan.from, plan.to))
                && (alone && !Shows(fs.history.env, old(fs.files), plan.from, plan.expected) ==>
                      r.Err? && fs.files == old(fs.files))
                && (alone && faults == {} && plan.from in old(fs.files) && IsFolder(old(fs.files), Parent(plan.to))
                    && FoldTaken(fs.history.env, old(fs.files), plan.to) ==>
                      r == Err(Collision) && journal.rows == old(journal.rows) && fs.files == old(fs.files))
    {
      hide Shows;
      hide ToApprove;
      hide IsRefused;
      hide Marked;
      hide CanApprove;
      hide MovedFiles;
      hide FoldTaken;
      hide Concludes;
      hide Settles;
      hide Retained;
      hide PruneItems;
      hide Legal;
      QueueIsOrderly();
      PlansToApprove(state, id, revision);
      var planned := ApprovePlan(state, id, revision);
      if planned.Err? {
        return Err(planned.error);
      }
      var done := RunApprove(id, revision, planned.value, now, alone, faults);
      if done.Err? {
        return Err(done.error);
      }
      ItSettled(old(journal.rows), old(state), journal.rows, state, id, now, done.value, Completed, SCompleted);
      var result := Item(state.proposals, id);
      ghost var settled, between := journal.rows, state;
      var concluded := Conclude(now, faults);
      if concluded.Err? {
        return Err(concluded.error);
      }
      ItConcludes(old(journal.rows), old(state), settled, between, journal.rows, state, id, now, done.value, Completed);
      return Ok(result);
    }

    /** The commit of Undoing: from here on the journal says an undo is under way. */
    method CommitUndoing(id: Id, revision: nat, plan: Plan, now: int, faults: set<Fault>) returns (r: Result<nat, ServiceError>)
      requires Synced() && Carries(Kind.Undo, id, plan) && Holds(id, revision) && FlightOf(Now()).phase.Clear?
      requires SameDevice(fs.history.env, plan.from, plan.to)
      modifies journal, fs.history
      ensures Synced() && Grows(old(fs.history.run), fs.history.run, true)
      ensures r.Ok? <==> JournalWrite(Undoing) !in faults && RowReady(old(journal.rows), id, revision, Completed, 1)
      ensures r.Ok? ==> r.value == revision + 1 && Now() == AfterCommit(old(Now()), Undoing, now)
      ensures r.Err? ==> Now() == old(Now())
    {
      hide Marked;
      hide Position;
      hide Legal;
      var undoing := journal.Transition(id, revision, Undoing, now, JournalWrite(Undoing) in faults);
      if undoing.Err? {
        return Err(JournalFailed(undoing.error));
      }
      fs.history.RecordCommit(Undoing, now);
      return Ok(undoing.value);
    }

    /** The original name must be free, and on the same file system. */
    method CheckReturn(plan: Plan, alone: bool, faults: set<Fault>) returns (r: Result<(), ServiceError>)
      requires fs.Synced() && InFlight(Now()) && FlightOf(Now()).phase.Opened?
      requires FlightOf(Now()).to == plan.to && plan.to != [] && plan.from != []
      modifies fs`files, fs.history
      ensures fs.Synced() && Grows(old(fs.history.run), fs.history.run, alone)
      ensures OnlyFlew(old(Now()), Now(), alone)
      ensures alone ==> fs.files == old(fs.files)
      ensures r.Ok? ==> FlightOf(Now()).phase.Clear? && SameDevice(fs.history.env, plan.from, plan.to)
      ensures alone ==> (r.Ok? <==> ListFolder !in faults && OpenSource !in faults
                                    && SameDevice(fs.history.env, plan.from, plan.to)
                                    && TargetReady(fs.history.env, old(fs.files), plan))
      ensures ListFolder !in faults && IsFolder(old(fs.files), Parent(plan.to)) && FoldTaken(fs.history.env, old(fs.files), plan.to)
              ==> r == Err(Collision)
    {
      var taken := fs.DestinationExistsCaseFolded(plan.to, faults);
      if taken.Err? {
        return Err(FsFailed(taken.error));
      }
      if taken.value {
        return Err(Collision);
      }
      fs.history.Record(CheckFree);
      fs.OtherProcesses(alone);
      if OpenSource in faults || !SameDevice(fs.history.env, plan.from, plan.to) {
        return Err(FsFailed(Io));
      }
      return Ok(());
    }

    /** Journal the undo, rename the file back, and journal that. */
    method FlyUndo(id: Id, revision: nat, plan: Plan, now: int, alone: bool, faults: set<Fault>)
      returns (r: Result<nat, ServiceError>)
      requires Synced() && Carries(Kind.Undo, id, plan) && Holds(id, revision) && FlightOf(Now()).phase.Clear?
      requires SameDevice(fs.history.env, plan.from, plan.to)
      requires alone ==> FlightOf(Now()).touched == {}
      modifies this`state, fs`files, journal, fs.history
      ensures Synced() && Grows(old(fs.history.run), fs.history.run, alone)
      ensures r.Err? ==> InFlight(Now())
      ensures r.Ok? ==> IsIdle(Now()) && r.value == revision + 2
                        && Settles(old(journal.rows), old(state), journal.rows, state, id, now, r.value, Undone, SUndone)
      ensures alone && r.Ok? ==> plan.from in old(fs.files) && fs.files == Rename(old(fs.files), plan.from, plan.to)
      ensures alone ==> (r.Ok? <==>
                faults !! UNDO_FAULTS && RowReady(old(journal.rows), id, revision, Completed, 2) && plan.to !in old(fs.files)
                && Shows(fs.history.env, old(fs.files), plan.from, plan.expected))
      ensures alone && !Shows(fs.history.env, old(fs.files), plan.from, plan.expected) ==> fs.files == old(fs.files)
    {
      hide Marked;
      hide Position;
      hide Legal;
      hide SameDevice;
      hide FoldTaken;
      r := CommitUndoing(id, revision, plan, now, faults);
      if r.Err? {
        return;
      }
      ghost var rows1 := journal.rows;
      var moved := fs.SameFilesystemMoveAt(plan.from, plan.to, plan.expected, alone, faults);
      if moved.Err? {
        return Err(FsFailed(moved.error));
      }
      r := CommitUndone(id, r.value, now, faults);
    }

    /** Check the way back, then undo; on any error the move is over. */
    method RunUndo(id: Id, revision: nat, plan: Plan, now: int, alone: bool, faults: set<Fault>)
      returns (r: Result<nat, ServiceError>)
      requires Valid() && UndoPlan(state, id, revision) == Ok(plan)
      modifies this`state, fs`files, journal, fs.history
      ensures Valid() && Grows(old(fs.history.run), fs.history.run, alone)
      ensures r.Ok? ==> r.value == revision + 2
                        && Settles(old(journal.rows), old(state), journal.rows, state, id, now, r.value, Undone, SUndone)
      ensures alone && r.Ok? ==> plan.from in old(fs.files) && fs.files == Rename(old(fs.files), plan.from, plan.to)
      ensures alone ==> (r.Ok? <==>
                ListFolder !in faults && OpenSource !in faults && faults !! UNDO_FAULTS
                && CanUndo(fs.history.env, old(fs.files), old(journal.rows), id, revision, plan))
      ensures !SameDevice(fs.history.env, plan.from, plan.to) ==> r.Err? && journal.rows == old(journal.rows) && state == old(state)
      ensures alone && r.Err? && (!SameDevice(fs.history.env, plan.from, plan.to) || FoldTaken(fs.history.env, old(fs.files), plan.to))
              ==> fs.files == old(fs.files) && journal.rows == old(journal.rows)
      ensures alone && FoldTaken(fs.history.env, old(fs.files), plan.to) ==> r.Err?
      ensures alone && ListFolder !in faults && IsFolder(old(fs.files), Parent(plan.to))
              && FoldTaken(fs.history.env, old(fs.files), plan.to)
              ==> r == Err(Collision)
      ensures alone && !Shows(fs.history.env, old(fs.files), plan.from, plan.expected) ==> r.Err? && fs.files == old(fs.files)
    {
      fs.OtherProcesses(alone);
      fs.history.RecordBegin(Kind.Undo, id);
      var checked := CheckReturn(plan, alone, faults);
      if checked.Err? {
        fs.history.RecordAbort();
        return Err(checked.error);
      }
      if alone {
        FreeTarget(fs.history.env, fs.files, plan.to);
      }
      r := FlyUndo(id, revision, plan, now, alone, faults);
      if r.Err? {
        fs.history.RecordAbort();
      }
    }

    /** Undo exactly this revision of a completed item. It needs the original name free (case folding
        included) on the same file system, and the approved file still at the destination. */
    method Undo(id: Id, revision: nat, now: int, alone: bool, faults: set<Fault>)
      returns (r: Result<Proposal, ServiceError>)
      requires Valid()
      modifies this`state, fs`files, fs`saved, journal, fs.history
      ensures Valid() && Grows(old(fs.history.run), fs.history.run, alone)
      ensures forall error :: CannotUndo(old(state), id, revision, error) ==>
                r == Err(error) && journal.rows == old(journal.rows) && state == old(state) && fs.files == old(fs.files)
      ensures alone ==> (r.Ok? <==> exists plan ::
                ToUndo(old(state), id, revision, plan)
                && UndoWorks(fs.history.env, old(fs.files), old(journal.rows), id, revision, plan, faults))
      ensures r.Ok? ==> fs.saved == state && r.value.revision == revision + 2
                        && Concludes(old(journal.rows), old(state), journal.rows, state, id, now, r.value, Undone)
      ensures forall plan :: ToUndo(old(state), id, revision, plan) ==>
                && (alone && r.Ok? ==>
                      plan.from in old(fs.files)
                      && fs.files == (old(fs.files) - {plan.from})[plan.to := old(fs.files)[plan.from]])
                && (alone && !Shows(fs.history.env, old(fs.files), plan.from, plan.expected) ==>
                      r.Err? && fs.files == old(fs.files))
                && (!SameDevice(fs.history.env, plan.from, plan.to) ==>
                      r.Err? && journal.rows == old(journal.rows) && state == old(state) && (alone ==> fs.files == old(fs.files)))
                && (alone && FoldTaken(fs.history.env, old(fs.files), plan.to) ==>
                      r.Err? && journal.rows == old(journal.rows) && fs.files == old(fs.files)
                      && (ListFolder !in faults && IsFolder(old(fs.files), Parent(plan.to)) ==> r == Err(Collision)))
      ensures UndoesCopy(old(fs.history.run), old(journal.rows), id) ==>
                r.Err? && journal.rows == old(journal.rows) && state == old(state) && (alone ==> fs.files == old(fs.files))
    {
      hide Shows;
      hide ToUndo;
      hide CannotUndo;
      hide UndoesCopy;
      hide Marked;
      hide FoldTaken;
      hide CanUndo;
      hide Concludes;
      hide Settles;
      hide Retained;
      hide PruneItems;
      hide Legal;
      CopyCrosses(id, revision);
      QueueIsOrderly();
      PlansToUndo(state, id, revision);
      var planned := UndoPlan(state, id, revision);
      if planned.Err? {
        return Err(planned.error);
      }
      var done := RunUndo(id, revision, planned.value, now, alone, faults);
      if done.Err? {
        return Err(done.error);
      }
      ItSettled(old(journal.rows), old(state), journal.rows, state, id, now, done.value, Undone, SUndone);
      var result := Item(state.proposals, id);
      ghost var settled, between := journal.rows, state;
      var concluded := Conclude(now, faults);
      if concluded.Err? {
        return Err(concluded.error);
      }
      ItConcludes(old(journal.rows), old(state), settled, between, journal.rows, state, id, now, done.value, Undone);
      return Ok(result);
    }

    /** The entry records a move between two file systems, and recovery never adopted a stale item for it. */
    ghost predicate UndoesCopy(run: Run, rows: Rows, id: Id) {
      WasCopied(fs.history.env, rows, id) && !Astray(fs.history.env, run, id)
    }

    lemma CopyCrosses(id: Id, revision: nat)
      requires Synced()
      ensures UndoesCopy(fs.history.run, journal.rows, id) && UndoPlan(state, id, revision).Ok? ==>
                var plan := UndoPlan(state, id, revision).value; !SameDevice(fs.history.env, plan.from, plan.to)
    {
      if UndoesCopy(fs.history.run, journal.rows, id) && UndoPlan(state, id, revision).Ok? {
        var item := Item(state.proposals, id);
        assert item in state.proposals;
        CopyResolvesAcross(fs.history.env, fs.history.run, item);
      }
    }

    /** Round trip: approve and undo, with nothing in between, restore the file map exactly; item and entry
        end six revisions later. It succeeds whenever the approve does, the original directory exists, no two
        names of a directory are equal after folding, and neither store is at its limit. */
    method ApproveThenUndo(id: Id, revision: nat, now: int, faults: set<Fault>, faults': set<Fault>)
      returns (r: Result<Proposal, ServiceError>)
      requires Valid()
      modifies this`state, fs`files, fs`saved, journal, fs.history
      ensures Valid() && Grows(old(fs.history.run), fs.history.run, true)
      ensures r.Ok? ==> fs.files == old(fs.files) && r.value.revision == revision + 6
      ensures r.Ok? && id in journal.rows ==> journal.rows[id].state == Undone && journal.rows[id].revision == revision + 6
      ensures RoundTripReady(fs.history.env, old(fs.files), old(journal.rows), old(state), id, revision, faults, faults') ==>
                r.Ok? && id in journal.rows
    {
      hide Concludes;
      hide RoundTripReady;
      hide ToApprove;
      hide ToUndo;
      hide IsRefused;
      hide CannotUndo;
      hide ApproveWorks;
      hide UndoWorks;
      hide ApprovePlan;
      hide UndoPlan;
      hide MovedFiles;
      hide Steps;
      hide Legal;
      QueueIsOrderly();
      ghost var env, files, rows, before := fs.history.env, fs.files, journal.rows, state;
      ghost var ready := RoundTripReady(env, files, rows, before, id, revision, faults, faults');
      if ready {
        ReadyToApprove(env, files, rows, before, id, revision, faults, faults');
      }
      PlansToApprove(state, id, revision);
      var approved := Approve(id, revision, now, true, faults);
      if approved.Err? {
        return approved;
      }
      ghost var there, rows', middle := fs.files, journal.rows, state;
      if ready {
        UndoIsReady(env, files, there, rows, rows', before, middle, id, revision, now, approved.value, faults, faults');
      }
      QueueIsOrderly();
      PlansToUndo(state, id, approved.value.revision);
      r := Undo(id, approved.value.revision, now, true, faults');
      if r.Ok? {
        RoundTripEnds(env, files, there, rows, rows', before, middle, id, revision, now, approved.value, faults, faults');
        EntryEnds(rows', middle, journal.rows, state, id, now, r.value, Undone);
      }
    }

    lemma QueueIsOrderly()
      requires Synced()
      ensures RootsDistinct(state.roots) && AllApart(state.proposals) && ProposedCount(state.proposals) <= MAX_PROPOSALS
    {
      RunKeepsInv(fs.history.env, fs.history.run);
    }

    // -------------------------------------------------------------- opening and recovery

    /** Size and digest, or the whole identity where no digest was recorded. */
    method VerifyRecoveryDestination(dest: Path, expected: Identity, sha: Option<Digest>) returns (ok: bool)
      ensures ok <==> VerifiedDestination(fs.history.env, fs.files, dest, expected, sha)
    {
      var found := IdentityAt(fs.history.env, fs.files, dest);
      if found.Err? || found.value.size != expected.size {
        return false;
      }
      if sha.Some? {
        var actual := fs.Sha256File(dest);
        return actual.Ok? && actual.value == sha.value;
      }
      return found.value == expected;
    }

    /** Look for the source of an entry, then at its destination; other processes may write in between. */
    method LookAtEntry(id: Id, row: Row, alone: bool) returns (absent: bool, verified: bool)
      requires Synced() && Settling(id, row) && row.state.SourceRemoved? && Now().proc.task.looks.Unseen?
      modifies fs`files, fs.history
      ensures Synced() && Grows(old(fs.history.run), fs.history.run, alone)
      ensures Now() == WithLooks(old(Now()), Seen(absent, verified)).(files := fs.files)
      ensures alone ==> fs.files == old(fs.files)
                        && Seen(absent, verified) == LooksAt(fs.history.env, fs.files, state.proposals, id, row)
    {
      hide IdentityAt;
      hide HasDigest;
      hide VerifiedDestination;
      hide Legal;
      fs.OtherProcesses(alone);
      absent := row.source !in fs.files;
      fs.history.RecordLookForSource();
      fs.OtherProcesses(alone);
      verified := false;
      if Has(state.proposals, id) {
        verified := VerifyRecoveryDestination(row.dest, Item(state.proposals, id).identity, row.sha);
      }
      fs.history.RecordLookAtDestination();
    }

    /** This entry is the next to be settled. */
    ghost predicate Settling(id: Id, row: Row)
      reads fs.history
    {
      SettlesEntry(Now()) && Head(Now()) == id && Now().rows[id] == row
    }

    /** Settle one unfinished entry on the evidence seen: complete it, flag it, or leave it alone. */
    method SettleOne(id: Id, row: Row, now: int, alone: bool, faults: set<Fault>) returns (ok: bool, ghost verdict: Option<JState>)
      requires Synced() && Settling(id, row) && Now().proc.task.looks.Unseen?
      modifies this`state, fs`files, journal, fs.history
      ensures Synced() && Grows(old(fs.history.run), fs.history.run, alone)
      ensures ok ==> Now() == Judged(old(Now()), verdict, now).(files := fs.files)
      ensures verdict.Some? ==> verdict.value in {Completed, NeedsAttention}
      ensures alone ==> fs.files == old(fs.files)
                        && verdict == FileVerdict(fs.history.env, fs.files, old(state).proposals, id, row)
      ensures !ok ==> journal.rows == old(journal.rows) && state == old(state)
      ensures !ok ==> row.revision >= MAX_I64 || JournalWrite(Completed) in faults || JournalWrite(NeedsAttention) in faults
    {
      hide Judged;
      hide ItemVerified;
      hide Legal;
      var absent, verified := false, false;
      if row.state.SourceRemoved? {
        absent, verified := LookAtEntry(id, row, alone);
        fs.OtherProcesses(alone);
      }
      verdict := HeadVerdict(Now());
      JudgedIgnoresLooks(old(Now()), Now(), verdict, now);
      if absent && verified && Has(state.proposals, id) {
        ok := SettleAs(id, row, Completed, SCompleted, now, faults);
      } else if Unsettled(row.state) {
        ok := SettleAs(id, row, NeedsAttention, SNeedsAttention, now, faults);
      } else {
        JudgedNone(Now(), now);
        fs.history.RecordSettle(now);
        ok := true;
      }
    }

    /** Bring the item in memory, if there is one, up to date with its entry. */
    method Mark(id: Id, revision: nat, status: Status)
      modifies this`state
      ensures state == old(state).(proposals := Marked(old(state).proposals, id, revision, status))
    {
      if Has(state.proposals, id) {
        var i := Position(state.proposals, id);
        state := state.(proposals := state.proposals[i := state.proposals[i].(revision := revision, status := status)]);
      }
    }

    method SettleAs(id: Id, row: Row, next: JState, status: Status, now: int, faults: set<Fault>) returns (ok: bool)
      requires Synced() && Settling(id, row) && Enabled(fs.history.env, Now(), SettleNext(now)) && HeadVerdict(Now()) == Some(next)
      requires status == if next.Completed? then SCompleted else SNeedsAttention
      modifies this`state, journal, fs.history
      ensures Synced() && Grows(old(fs.history.run), fs.history.run, true)
      ensures ok ==> Now() == AfterSettle(old(Now()), now)
      ensures !ok ==> Now() == old(Now())
      ensures ok <==> JournalWrite(next) !in faults && row.revision < MAX_I64
    {
      hide Marked;
      hide Position;
      hide Legal;
      hide VerifiedDestination;
      hide Todo;
      var done := journal.Transition(id, row.revision, next, now, JournalWrite(next) in faults);
      if done.Err? {
        return false;
      }
      Mark(id, done.value, status);
      fs.history.RecordSettle(now);
      return true;
    }

    /** The loop invariant of recovery: what is left to settle, and where every entry is heading. */
    ghost predicate Recovering(start: World, remaining: seq<Id>, whole: bool, alone: bool)
      reads this, fs, fs.history, journal
    {
      && Synced() && Now().proc.task == Machine.Recovering(remaining, whole, Unseen)
      && Now().saved == start.saved && Now().issued == start.issued
      && Now().rows.Keys == start.rows.Keys && Following(start.rows, Now())
      && (alone ==> Heading(fs.history.env, start, Now()))
    }

    lemma NextIsThere(start: World, remaining: seq<Id>, whole: bool, alone: bool)
      requires Recovering(start, remaining, whole, alone) && remaining != []
      ensures remaining[0] in journal.rows && remaining[0] !in remaining[1..]
    {
      RunKeepsInv(fs.history.env, fs.history.run);
    }

    lemma StillHeading(start: World, w: World, now: int)
      requires Synced() && Now() == w && Heading(fs.history.env, start, w) && SettlesEntry(w)
      ensures var verdict := FileVerdict(fs.history.env, w.files, Items(w), Head(w), w.rows[Head(w)]);
              Heading(fs.history.env, start, Judged(w, verdict, now))
    {
      hide Verdict;
      hide ItemVerified;
      RunKeepsInv(fs.history.env, fs.history.run);
      var w' := Judged(w, FileVerdict(fs.history.env, w.files, Items(w), Head(w), w.rows[Head(w)]), now);
      forall id | id in w.rows ensures Settled(fs.history.env, w', id) == Settled(fs.history.env, w, id) {
        JudgedKeepsSettled(fs.history.env, w, now, id);
      }
    }

    lemma NothingLeft(start: World, alone: bool)
      requires Recovering(start, [], true, alone)
      ensures NoneInTheMiddle(start.rows, journal.rows, state.proposals)
      ensures alone ==> AllRecovered(fs.history.env, start, journal.rows)
    {
      hide IsRecovered;
      hide ItemFollows;
      RunKeepsInv(fs.history.env, fs.history.run);
      forall id | id in journal.rows ensures !Unsettled(journal.rows[id].state) {
        NothingToSettle(fs.history.env, Now(), id);
      }
      if alone {
        forall id | id in start.rows
          ensures IsRecovered(fs.history.env, start.files, start.saved.proposals, id, start.rows[id], journal.rows[id])
        {
          NothingToSettle(fs.history.env, Now(), id);
          SettledIsRecovered(fs.history.env, start, id, journal.rows[id]);
        }
      }
    }

    lemma StillFollowing(rows: Rows, w: World, verdict: Option<JState>, now: int)
      requires Synced() && Now() == w && SettlesEntry(w) && Following(rows, w)
      requires verdict.Some? ==> verdict.value in {Completed, NeedsAttention}
      ensures Following(rows, Judged(w, verdict, now))
    {
      RunKeepsInv(fs.history.env, fs.history.run);
      forall id | id in rows && rows[id].state in {Approved, JState.Copying, Published, SourceRemoved, JState.Undoing}
        ensures StillOrFollowed(Judged(w, verdict, now), id)
      {
        JudgedFollows(w, verdict, now, id);
      }
    }

    /** The entries still to settle are as they were read. */
    ghost predicate AsRead(remaining: seq<Id>, snapshot: Rows)
      reads journal
    {
      forall id <- remaining :: id in snapshot && id in journal.rows && journal.rows[id] == snapshot[id]
    }

    /** One round of the recovery loop; a failing commit may fail in any round. */
    method SettleNextEntry(
        remaining: seq<Id>, snapshot: Rows, now: int, alone: bool, faults: set<Fault>, ghost start: World, ghost whole: bool)
      returns (ok: bool)
      requires Recovering(start, remaining, whole, alone) && remaining != [] && AsRead(remaining, snapshot)
      modifies this`state, fs`files, journal, fs.history
      ensures Synced() && Grows(old(fs.history.run), fs.history.run, alone)
      ensures ok ==> Recovering(start, remaining[1..], whole, alone) && AsRead(remaining[1..], snapshot)
      ensures faults !! SETTLE_FAULTS && RoomToSettle(snapshot) ==> ok
      ensures alone ==> fs.files == old(fs.files)
    {
      var id := remaining[0];
      NextIsThere(start, remaining, whole, alone);
      fs.OtherProcesses(alone);
      if alone {
        StillHeading(start, Now(), now);
      }
      FollowingAnyway(start, now);
      var happening: set<Fault> := *;
      ghost var before := Now();
      ghost var verdict;
      ok, verdict := SettleOne(id, snapshot[id], now, alone, faults * happening);
      JudgedRows(before, verdict, now);
    }

    lemma FollowingAnyway(start: World, now: int)
      requires Synced() && SettlesEntry(Now()) && Following(start.rows, Now())
      ensures forall verdict: Option<JState> {:trigger Judged(Now(), verdict, now)} ::
                (verdict.Some? ==> verdict.value in {Completed, NeedsAttention}) ==>
                  Following(start.rows, Judged(Now(), verdict, now))
    {
      forall verdict: Option<JState> | verdict.Some? ==> verdict.value in {Completed, NeedsAttention}
        ensures Following(start.rows, Judged(Now(), verdict, now))
      {
        StillFollowing(start.rows, Now(), verdict, now);
      }
    }

    /** Read the unfinished entries once, at the start. */
    method ReadEntries(ghost alone: bool) returns (remaining: seq<Id>, snapshot: Rows)
      requires Synced() && Now().proc.task.Loading?
      modifies fs.history
      ensures Grows(old(fs.history.run), fs.history.run, true)
      ensures Recovering(old(Now()), remaining, |Active(journal.rows)| <= 1000, alone) && AsRead(remaining, snapshot)
      ensures snapshot == journal.rows
    {
      RowsAreDistinct();
      snapshot := journal.rows;
      remaining := journal.Nonterminal();
      fs.history.RecordBeginRecovery();
      AllToFollow(snapshot, Now());
      HeadingIgnoresTask(fs.history.env, old(Now()), Now().proc.task);
    }

    /** Settle every unfinished entry once, oldest first. */
    method SettleAll(now: int, alone: bool, faults: set<Fault>) returns (ok: bool)
      requires Synced() && Now().proc.task.Loading?
      modifies this`state, fs`files, journal, fs.history
      ensures Synced() && Grows(old(fs.history.run), fs.history.run, alone)
      ensures alone ==> fs.files == old(fs.files)
      ensures ok ==> Recovering(old(Now()), [], |Active(old(journal.rows))| <= 1000, alone)
      ensures faults !! SETTLE_FAULTS && RoomToSettle(old(journal.rows)) ==> ok
    {
      ghost var start, whole := Now(), |Active(journal.rows)| <= 1000;
      var remaining, snapshot := ReadEntries(alone);
      while remaining != []
        invariant Recovering(start, remaining, whole, alone) && AsRead(remaining, snapshot)
        invariant Grows(old(fs.history.run), fs.history.run, alone)
        invariant alone ==> fs.files == old(fs.files)
        decreases |remaining|
      {
        ok := SettleNextEntry(remaining, snapshot, now, alone, faults, start, whole);
        if !ok {
          return;
        }
        remaining := remaining[1..];
      }
      ok := true;
    }

    /** Settle, then save. Alone, and with at most a thousand unfinished entries, this touches no watched
        file and leaves every entry exactly where the evidence sends it. */
    method RecoverWithoutGuessing(now: int, alone: bool, faults: set<Fault>) returns (ok: bool)
      requires Synced() && Now().proc.task.Loading?
      modifies this`state, fs`files, fs`saved, journal, fs.history
      ensures Synced() && Grows(old(fs.history.run), fs.history.run, alone)
      ensures ok ==> Valid() && fs.saved == state
      ensures faults !! SETTLE_FAULTS + {SaveBefore, SaveAfter} && RoomToSettle(old(journal.rows)) ==> ok
      ensures alone ==> fs.files == old(fs.files)
      ensures ok && |Active(old(journal.rows))| <= 1000 ==>
                NoneInTheMiddle(old(journal.rows), journal.rows, state.proposals)
      ensures alone && ok && |Active(old(journal.rows))| <= 1000 ==>
                AllRecovered(fs.history.env, old(Now()), journal.rows)
    {
      hide AllRecovered;
      hide NoneInTheMiddle;
      hide Recovering;
      ok := SettleAll(now, alone, faults);
      if !ok {
        return;
      }
      if |Active(old(journal.rows))| <= 1000 {
        NothingLeft(old(Now()), alone);
      }
      ok := fs.Save(state, faults);
      if ok {
        fs.history.Record(EndRecovery);
      }
    }

    /** Start the service: load the saved queue, enforce retention, prune, recover. If any of it fails the
        process ends and the next start begins again. */
    static method Open(fs: FileSystem, journal: Journal, now: int, alone: bool, faults: set<Fault>)
      returns (r: Option<Service>)
      requires fs.Synced() && fs.history.Now().proc.Down? && fs.history.Now().rows == journal.rows
      modifies fs`files, fs`saved, journal, fs.history
      ensures Grows(old(fs.history.run), fs.history.run, alone)
      ensures alone ==> fs.files == old(fs.files)
      ensures r.Some? ==> fresh(r.value) && r.value.fs == fs && r.value.journal == journal && r.value.Valid()
      ensures r.Some? ==> r.value.state == fs.saved
      ensures alone && r.Some? && |Active(old(journal.rows))| <= 1000 ==>
                RetainedAreRecovered(fs.history.env, old(fs.history.Now()), now, journal.rows)
      ensures r.Some? && |Active(old(journal.rows))| <= 1000 ==>
                NoneInTheMiddle(old(journal.rows), journal.rows, r.value.state.proposals)
      ensures faults !! OPEN_FAULTS && RoomToSettle(old(journal.rows)) ==> r.Some?
      ensures r.None? ==> fs.Synced() && fs.history.Now().proc.Down? && fs.history.Now().rows == journal.rows
    {
      hide Retained;
      hide NoneInTheMiddle;
      hide AllRecovered;
      hide RetainedAreRecovered;
      hide PruneItems;
      if LoadState in faults {
        return None;
      }
      ghost var crashed, rows := fs.history.Now(), journal.rows;
      var service := new Service.Load(fs, journal);
      var ok := service.EnforceJournalRetention(now, faults);
      if ok {
        service.PruneTerminalProposals();
        ghost var start := fs.history.Now();
        FewerActive(journal.rows, rows);
        ok := service.RecoverWithoutGuessing(now, alone, faults);
        if ok && |Active(rows)| <= 1000 {
          FoundInTheMiddle(rows, start.rows, journal.rows, service.state.proposals);
          if alone {
            RecoveredAsFound(fs.history.env, crashed, start, now, journal.rows);
          }
        }
      }
      if !ok {
        fs.history.Record(Action.Crash);
        return None;
      }
      return Some(service);
    }

    // -------------------------------------------------------------- roots, rules, pause

    /** Write the queue out; the change in memory stays even when that fails. */
    method SaveState(faults: set<Fault>) returns (ok: bool)
      requires Valid()
      modifies fs`saved, fs.history
      ensures Valid() && Grows(old(fs.history.run), fs.history.run, true)
      ensures ok <==> faults !! {SaveBefore, SaveAfter}
      ensures SaveBefore !in faults ==> fs.saved == state
    {
      ok := fs.Save(state, faults);
    }

    method SetPaused(paused: bool, faults: set<Fault>) returns (ok: bool)
      requires Valid()
      modifies this`state, fs`saved, fs.history
      ensures Valid() && Grows(old(fs.history.run), fs.history.run, true)
      ensures state == old(state).(paused := paused)
      ensures ok <==> faults !! {SaveBefore, SaveAfter}
      ensures ok ==> fs.saved == state
    {
      state := state.(paused := paused);
      fs.history.RecordConfigure(Edit.SetPaused(paused));
      ok := SaveState(faults);
    }

    /** Register a directory that is not registered yet. */
    method AddRoot(path: Path, watched: bool, destination: bool, alone: bool, faults: set<Fault>)
      returns (r: Result<Root, ServiceError>)
      requires Valid()
      modifies this`state, fs`files, fs`saved, fs`nextUuid, fs.history
      ensures Valid() && Grows(old(fs.history.run), fs.history.run, alone)
      ensures r.Ok? ==> state == old(state).(roots := old(state).roots + [r.value]) && fs.saved == state
                        && r.value.path == path && r.value.watched == watched && r.value.destination == destination
                        && (forall root <- old(state).roots :: root.id != r.value.id && root.path != path)
                        && r.value.id !in old(Now().issued)
      ensures |old(state).roots| >= 16 || (!watched && !destination) ==> r == Err(LimitReached)
      ensures alone ==> (r.Ok? <==> faults !! {StatFolder, SaveBefore, SaveAfter}
                                    && CanAddRoot(old(fs.files), old(state), path, watched, destination))
      ensures r.Err? ==> state == old(state).(roots := state.roots)
      ensures alone ==> fs.files == old(fs.files)
    {
      if |state.roots| >= MAX_ROOTS || (!watched && !destination) {
        return Err(LimitReached);
      }
      fs.OtherProcesses(alone);
      if StatFolder in faults || path !in fs.files {
        return Err(IoFailed);
      }
      if !fs.files[path].Directory? {
        return Err(UnsafePath);
      }
      if exists root <- state.roots :: root.path == path {
        return Err(Collision);
      }
      var id := fs.FreshUuid();
      RootsAreIssued();
      var root := Root(id, path, watched, destination);
      state := state.(roots := state.roots + [root]);
      fs.history.RecordConfigure(Edit.AddRoot(root));
      var ok := SaveState(faults);
      if !ok {
        return Err(IoFailed);
      }
      return Ok(root);
    }

    lemma RootsAreIssued()
      requires fs.Synced() && Now().proc.Up?
      ensures forall root <- Memory(Now()).roots :: root.id in Now().issued
    {
      RunKeepsInv(fs.history.env, fs.history.run);
    }

    /** Unregister a root that no waiting item comes from. */
    method RemoveRoot(id: Id, faults: set<Fault>) returns (r: Result<(), ServiceError>)
      requires Valid()
      modifies this`state, fs`saved, fs.history
      ensures Valid() && Grows(old(fs.history.run), fs.history.run, true)
      ensures state == if CanRemoveRoot(old(state), id) then old(state).(roots := WithoutRoot(old(state).roots, id)) else old(state)
      ensures r.Ok? <==> faults !! {SaveBefore, SaveAfter} && CanRemoveRoot(old(state), id)
      ensures r.Ok? ==> fs.saved == state
      ensures (exists p <- old(state).proposals :: p.sourceRoot == id && p.status == SProposed) ==> r == Err(Collision)
    {
      if AnyWaitsFrom(state.proposals, id) {
        return Err(Collision);
      }
      if !IsRegistered(state.roots, id) {
        return Err(NoSuchItem);
      }
      state := state.(roots := WithoutRoot(state.roots, id));
      fs.history.RecordConfigure(Edit.RemoveRoot(id));
      var ok := SaveState(faults);
      if !ok {
        return Err(IoFailed);
      }
      return Ok(());
    }

    /** Learn a rule from the destination chosen for an item; only a valid rule is ever stored. */
    method CreateRuleFromProposal(id: Id, priority: int, faults: set<Fault>) returns (r: Result<Rule, ServiceError>)
      requires Valid()
      modifies this`state, fs`saved, fs`nextUuid, fs.history
      ensures Valid() && Grows(old(fs.history.run), fs.history.run, true)
      ensures r.Ok? ==>
                && Has(old(state).proposals, id) && Item(old(state).proposals, id).destination.Some?
                && Item(old(state).proposals, id).relative != []
                && var item := Item(old(state).proposals, id);
                && r.value.priority == priority && Rules.ChoiceOf(r.value) == item.destination.value
                && (exists ext :: Rules.IsExtension(FileName(item.relative), ext) && r.value.predicates == [Extension(ext)])
                && state == old(state).(rules := old(state).rules + [r.value]) && fs.saved == state
      ensures r.Ok? <==> faults !! {SaveBefore, SaveAfter} && CanLearn(fs.history.env, old(state), id, priority)
      ensures Rules.AllValid(fs.history.env, state.rules)
    {
      RulesAreSound();
      if |state.rules| >= Rules.MAX_RULES {
        return Err(LimitReached);
      }
      if !Has(state.proposals, id) {
        return Err(NoSuchItem);
      }
      var item := Item(state.proposals, id);
      if item.destination.None? {
        return Err(DestinationRequired);
      }
      if item.relative == [] {
        return Err(UnsafePath);
      }
      assert item in state.proposals && Known(item, Now().issued);
      var ruleId := fs.FreshUuid();
      LearnedIsMeant(fs.history.env, ruleId, priority, item.relative, item.destination.value);
      var learned := Rules.LearnedRule(ruleId, priority, item.relative, item.destination.value);
      if learned.None? {
        return Err(UnsafePath);
      }
      var rule := learned.value;
      var checked := Rules.EvaluateRules(fs.history.env, [rule], Rules.FactsFor(item.relative, item.sourceRoot, None));
      if checked.Err? {
        return Err(MalformedState);
      }
      assert rule in [rule];
      state := state.(rules := state.rules + [rule]);
      fs.history.RecordConfigure(AddRule(rule));
      RulesAreSound();
      var ok := SaveState(faults);
      if !ok {
        return Err(IoFailed);
      }
      return Ok(rule);
    }

    lemma RulesAreSound()
      requires fs.Synced() && Now().proc.Up?
      ensures Rules.AllValid(fs.history.env, Memory(Now()).rules)
      ensures forall rule <- Memory(Now()).rules :: rule.destinationRoot in Now().issued
      ensures forall p <- Items(Now()) :: Known(p, Now().issued)
    {
      RunKeepsInv(fs.history.env, fs.history.run);
    }

    // -------------------------------------------------------------- deciding about one item

    /** Change where an undecided item would go: the journal first, then memory, then the state file. */
    method ReviseItem(id: Id, revision: nat, choice: Choice, name: Name, now: int, faults: set<Fault>)
      returns (r: Result<Proposal, ServiceError>)
      requires Valid() && Has(state.proposals, id) && Item(state.proposals, id).revision == revision
      requires ChosenPath(state.roots, choice, name).Some?
      modifies this`state, fs`saved, journal, fs.history
      ensures Valid() && Grows(old(fs.history.run), fs.history.run, true)
      ensures r.Ok? ==> Redirected(old(journal.rows), old(state), journal.rows, state, id, revision, choice, name, now, r.value)
                        && fs.saved == state
      ensures r.Ok? <==> faults !! {Revising, SaveBefore, SaveAfter} && RowReady(old(journal.rows), id, revision, Proposed, 1)
      ensures Revising in faults || !RowReady(old(journal.rows), id, revision, Proposed, 1) ==>
                journal.rows == old(journal.rows) && state == old(state)
    {
      var dest := ChosenPath(state.roots, choice, name).value;
      var revised := journal.ReviseProposal(id, revision, dest, now, Revising in faults);
      if revised.Err? {
        return Err(JournalFailed(revised.error));
      }
      var i := Position(state.proposals, id);
      var item := state.proposals[i].(revision := revised.value, destination := Some(choice), name := name);
      state := state.(proposals := state.proposals[i := item]);
      fs.history.RecordRevise(id, choice, name, now);
      var ok := SaveState(faults);
      if !ok {
        return Err(IoFailed);
      }
      return Ok(item);
    }

    /** Send an item to a directory of a registered root, under its own name. */
    method ChooseDestination(
        id: Id, revision: nat, rootId: Id, directory: string, now: int, alone: bool, faults: set<Fault>)
      returns (r: Result<Proposal, ServiceError>)
      requires Valid()
      modifies this`state, fs`files, fs`saved, journal, fs.history
      ensures Valid() && Grows(old(fs.history.run), fs.history.run, alone)
      ensures alone ==> fs.files == old(fs.files)
      ensures r.Ok? ==>
                && ValidDirectory(directory)
                && Has(old(state).proposals, id) && Item(old(state).proposals, id).relative != []
                && Redirected(old(journal.rows), old(state), journal.rows, state, id, revision, Choice(rootId, directory),
                              FileName(Item(old(state).proposals, id).relative), now, r.value)
                && fs.saved == state
      ensures alone ==> (r.Ok? <==>
                && faults !! {StatFolder, Revising, SaveBefore, SaveAfter}
                && CanChoose(old(fs.files), old(state), id, revision, rootId, directory)
                && RowReady(old(journal.rows), id, revision, Proposed, 1))
    {
      RootsAreFound();
      if !ValidDirectory(directory) {
        return Err(UnsafePath);
      }
      var root := FindRoot(state.roots, rootId, DestinationRole);
      if root.None? {
        return Err(UnsafePath);
      }
      var folder := root.value.path + DirectoryPath(directory);
      fs.OtherProcesses(alone);
      if StatFolder in faults || folder !in fs.files {
        return Err(IoFailed);
      }
      if !fs.files[folder].Directory? {
        return Err(UnsafePath);
      }
      if !Has(state.proposals, id) {
        return Err(NoSuchItem);
      }
      var item := Item(state.proposals, id);
      if item.revision != revision {
        return Err(StaleRevision);
      }
      if item.relative == [] || SourcePath(state, item, AnyRole).None? {
        return Err(UnsafePath);
      }
      r := ReviseItem(id, revision, Choice(rootId, directory), FileName(item.relative), now, faults);
    }

    lemma RootsAreFound()
      requires Synced()
      ensures forall root <- state.roots :: FindRoot(state.roots, root.id, AnyRole) == Some(root)
      ensures forall root <- state.roots :: root.destination ==> FindRoot(state.roots, root.id, DestinationRole) == Some(root)
    {
      QueueIsOrderly();
      forall root | root in state.roots ensures FindRoot(state.roots, root.id, AnyRole) == Some(root) {
        MemberIsFound(state.roots, root, AnyRole);
      }
      forall root | root in state.roots && root.destination
        ensures FindRoot(state.roots, root.id, DestinationRole) == Some(root)
      {
        MemberIsFound(state.roots, root, DestinationRole);
      }
    }

    /** Give an item with a destination another file name. */
    method RenameItem(id: Id, revision: nat, name: Name, now: int, faults: set<Fault>)
      returns (r: Result<Proposal, ServiceError>)
      requires Valid()
      modifies this`state, fs`saved, journal, fs.history
      ensures Valid() && Grows(old(fs.history.run), fs.history.run, true)
      ensures r.Ok? ==>
                && Has(old(state).proposals, id) && Item(old(state).proposals, id).destination.Some?
                && Redirected(old(journal.rows), old(state), journal.rows, state, id, revision,
                              Item(old(state).proposals, id).destination.value, name, now, r.value)
                && fs.saved == state
      ensures r.Ok? <==> faults !! {Revising, SaveBefore, SaveAfter} && CanRename(old(state), id, revision, name)
                         && RowReady(old(journal.rows), id, revision, Proposed, 1)
    {
      RootsAreFound();
      if |name| > 255 || !Plain(name) {
        return Err(UnsafePath);
      }
      if !Has(state.proposals, id) {
        return Err(NoSuchItem);
      }
      var item := Item(state.proposals, id);
      if item.revision != revision {
        return Err(StaleRevision);
      }
      if item.destination.None? {
        return Err(DestinationRequired);
      }
      if ChosenPath(state.roots, item.destination.value, name).None? {
        return Err(UnsafePath);
      }
      r := ReviseItem(id, revision, item.destination.value, name, now, faults);
    }

    /** Dismiss an undecided item. */
    method IgnoreItem(id: Id, revision: nat, now: int, faults: set<Fault>) returns (r: Result<Proposal, ServiceError>)
      requires Valid()
      modifies this`state, fs`saved, journal, fs.history
      ensures Valid() && Grows(old(fs.history.run), fs.history.run, true)
      ensures r.Ok? ==> fs.saved == state && r.value.revision == revision + 1
                        && Concludes(old(journal.rows), old(state), journal.rows, state, id, now, r.value, Ignored)
      ensures r.Ok? <==> faults !! {JournalWrite(Ignored)} && faults !! CONCLUDE_FAULTS
                         && Has(old(state).proposals, id) && Item(old(state).proposals, id).revision == revision
                         && RowReady(old(journal.rows), id, revision, Proposed, 1)
    {
      hide Marked;
      hide Concludes;
      hide Settles;
      hide Retained;
      hide PruneItems;
      hide Legal;
      if !Has(state.proposals, id) {
        return Err(NoSuchItem);
      }
      if Item(state.proposals, id).revision != revision {
        return Err(StaleRevision);
      }
      var done := CommitIgnored(id, revision, now, faults);
      if done.Err? {
        return Err(done.error);
      }
      ItSettled(old(journal.rows), old(state), journal.rows, state, id, now, done.value, Ignored, SIgnored);
      var result := Item(state.proposals, id);
      ghost var settled, between := journal.rows, state;
      var concluded := Conclude(now, faults);
      if concluded.Err? {
        return Err(concluded.error);
      }
      ItConcludes(old(journal.rows), old(state), settled, between, journal.rows, state, id, now, done.value, Ignored);
      return Ok(result);
    }

    method CommitIgnored(id: Id, revision: nat, now: int, faults: set<Fault>) returns (r: Result<nat, ServiceError>)
      requires Valid() && Holds(id, revision)
      modifies this`state, journal, fs.history
      ensures Valid() && Grows(old(fs.history.run), fs.history.run, true)
      ensures r.Ok? <==> JournalWrite(Ignored) !in faults && RowReady(old(journal.rows), id, revision, Proposed, 1)
      ensures r.Ok? ==> r.value == revision + 1
                        && Settles(old(journal.rows), old(state), journal.rows, state, id, now, r.value, Ignored, SIgnored)
    {
      hide AfterIgnore;
      hide Terminal;
      hide Rank;
      hide Marked;
      hide Position;
      hide Legal;
      hide Allowed;
      hide Settles;
      ItMayBeIgnored(journal.rows, id);
      var done := journal.Transition(id, revision, Ignored, now, JournalWrite(Ignored) in faults);
      if done.Err? {
        return Err(JournalFailed(done.error));
      }
      Mark(id, done.value, SIgnored);
      fs.history.RecordIgnore(id, now);
      ItIsSettled(old(journal.rows), old(state), journal.rows, state, id, now, done.value, Ignored, SIgnored);
      return Ok(done.value);
    }

    /** Send an item to any folder, registering it if no registered destination root contains it. On
        success the stored root and directory name exactly that folder, below the deepest such root. */
    method ChooseDestinationPath(id: Id, revision: nat, folder: Path, now: int, alone: bool, faults: set<Fault>)
      returns (r: Result<Proposal, ServiceError>)
      requires Valid() && AllPlain(folder)
      modifies this`state, fs`files, fs`saved, fs`nextUuid, journal, fs.history
      ensures Valid() && Grows(old(fs.history.run), fs.history.run, alone)
      ensures alone ==> fs.files == old(fs.files)
      ensures r.Ok? ==> r.value.destination.Some?
                        && NamesFolder(state.roots, r.value.destination.value, folder)
                        && Routed(old(journal.rows), old(state), journal.rows, state, id, revision, folder, now, r.value)
      ensures r.Ok? ==> journal.rows[id].dest == folder + [FileName(Item(old(state).proposals, id).relative)]
      ensures alone ==> (r.Ok? <==>
                && faults !! {StatFolder, Revising, SaveBefore, SaveAfter}
                && CanRoute(old(fs.files), old(state), id, revision, folder)
                && RowReady(old(journal.rows), id, revision, Proposed, 1))
    {
      hide Legal;
      hide NamesFolder;
      hide DirectoryText;
      hide RegisteredFor;
      hide RowReady;
      hide CanChoose;
      fs.OtherProcesses(alone);
      if StatFolder in faults || folder !in fs.files {
        return Err(IoFailed);
      }
      if !fs.files[folder].Directory? {
        return Err(UnsafePath);
      }
      SourcesAreIssued();
      ghost var issued := Now().issued;
      var owner := OwningRoot(folder, alone, faults);
      if owner.Err? {
        return Err(owner.error);
      }
      QueueIsOrderly();
      OwnerNamesFolder(state.roots, owner.value, folder);
      ghost var there := state;
      if alone {
        RouteIsChoice(fs.files, old(state), state, id, revision, folder, owner.value, issued);
      }
      r := ChooseDestination(id, revision, owner.value.id, DirectoryText(folder[|owner.value.path|..]), now, alone, faults);
      if r.Ok? {
        RowNamesFolder(old(journal.rows), there, journal.rows, state, id, revision, r.value.destination.value, folder,
                       FileName(Item(old(state).proposals, id).relative), now, r.value);
      }
    }

    lemma SourcesAreIssued()
      requires Synced()
      ensures forall p <- state.proposals :: p.sourceRoot in Now().issued
    {
      RunKeepsInv(fs.history.env, fs.history.run);
      forall p | p in state.proposals ensures p.sourceRoot in Now().issued {
        assert Known(p, Now().issued);
      }
    }

    /** The deepest destination root that contains the folder; failing that, the folder is registered. */
    method OwningRoot(folder: Path, alone: bool, faults: set<Fault>) returns (r: Result<Root, ServiceError>)
      requires Valid() && AllPlain(folder)
      modifies this`state, fs`files, fs`saved, fs`nextUuid, fs.history
      ensures Valid() && Grows(old(fs.history.run), fs.history.run, alone)
      ensures alone ==> fs.files == old(fs.files)
      ensures r.Ok? ==> OwnerFound(old(state), state, folder, r.value)
      ensures r.Ok? ==> forall id <- old(Now().issued) :: IsRegistered(state.roots, id) <==> IsRegistered(old(state).roots, id)
      ensures alone ==> (r.Ok? <==>
                || HasOwner(old(state).roots, folder)
                || (faults !! {StatFolder, SaveBefore, SaveAfter} && CanAddRoot(old(fs.files), old(state), folder, false, true)))
    {
      DeepestRootIsDeepest(state.roots, folder);
      var owner := DeepestRoot(state.roots, folder);
      if owner.Some? {
        return Ok(owner.value);
      }
      r := AddRoot(folder, false, true, alone, faults);
    }

    // -------------------------------------------------------------- scanning

    /** Two samples of the same identity at least this far apart make a file stable. */
    method Sample(root: Id, relative: Path, absolute: Path, clock: int) returns (r: Result<bool, FsError>)
      modifies this`stability
      ensures r.Err? ==> stability == old(stability)
      ensures r.Ok? <==> exists identity :: Shows(fs.history.env, fs.files, absolute, identity)
      ensures r.Ok? ==>
                && (root, relative) in stability
                && Shows(fs.history.env, fs.files, absolute, stability[(root, relative)].0)
                && stability == old(stability)[(root, relative) := (stability[(root, relative)].0, clock)]
      ensures r.Ok? ==>
                (r.value <==>
                  && (root, relative) in old(stability)
                  && Shows(fs.history.env, fs.files, absolute, old(stability)[(root, relative)].0)
                  && clock - old(stability)[(root, relative)].1 >= 1_000_000_000)
    {
      ShownIdentities(fs.history.env, fs.files, absolute);
      var identity := IdentityAt(fs.history.env, fs.files, absolute);
      if identity.Err? {
        return Err(identity.error);
      }
      var stable := Stable(stability, root, relative, identity.value, clock);
      stability := stability[(root, relative) := (identity.value, clock)];
      return Ok(stable);
    }

    /** Where a new item should go: the rules decide, or else the agent may name a registered root. */
    method Suggest(root: Id, relative: Path, mime: Option<string>, advice: Option<Id>)
      returns (r: Result<Option<Choice>, ServiceError>)
      requires Valid() && relative != []
      ensures r.Ok?
      ensures r.value.Some? ==> r.value.value.root in Now().issued
      ensures Suggested(fs.history.env, state, root, relative, mime, advice, r.value)
    {
      RulesAreSound();
      RootsAreIssued();
      RootsAreFound();
      Rules.FactsDescribe(relative, root, mime);
      var decision := Rules.EvaluateRules(fs.history.env, state.rules, Rules.FactsFor(relative, root, mime));
      if decision.Err? {
        return Err(MalformedState);
      }
      match decision.value {
        case Destination(choice, _) =>
          assert choice in Rules.Winners(fs.history.env, state.rules, Rules.FactsFor(relative, root, mime));
          return Ok(Some(choice));
        case Tie(_, _) =>
        case Abstain =>
      }
      return Ok(Advised(state.roots, advice));
    }

    /** Queue one file of a watched root, if it is finished, settled and not queued already. */
    method Consider(
        root: Root, relative: Path, mime: Option<string>, advice: Option<Id>, now: int, clock: int, alone: bool, faults: set<Fault>)
      returns (r: Result<bool, ServiceError>)
      requires Valid() && root in state.roots && root.watched && relative != [] && ProposedCount(state.proposals) < MAX_PROPOSALS
      modifies this`state, this`stability, fs`files, fs`nextUuid, journal, fs.history
      ensures Valid() && Grows(old(fs.history.run), fs.history.run, alone)
      ensures alone ==> fs.files == old(fs.files)
      ensures r != Ok(true) ==> state == old(state) && journal.rows == old(journal.rows)
      ensures OnlySampled(old(stability), stability, root.id, relative)
      ensures alone && r.Ok? ==>
                Sampled(fs.history.env, old(fs.files), old(state).proposals, root, relative, stability, clock)
      ensures r == Ok(true) ==>
                && |state.proposals| == |old(state).proposals| + 1
                && var item := state.proposals[|old(state).proposals|];
                && state == old(state).(proposals := old(state).proposals + [item])
                && item.sourceRoot == root.id && item.relative == relative && item.name == FileName(relative)
                && item.status.SProposed? && item.revision == 1
                && (alone ==> (root.id, relative) in old(stability) && item.identity == old(stability)[(root.id, relative)].0)
                && Entered(old(journal.rows), journal.rows, state, item, root.path + relative)
                && Suggested(fs.history.env, old(state), root.id, relative, mime, advice, item.destination)
      ensures alone ==> (r == Ok(true) <==>
                && Creating !in faults && |Active(old(journal.rows))| < 1000
                && Due(fs.history.env, old(fs.files), old(state).proposals, old(stability), root, relative, clock))
      ensures alone ==> (r == Ok(false) <==>
                && Readable(fs.history.env, old(fs.files), old(state).proposals, root, relative)
                && !Due(fs.history.env, old(fs.files), old(state).proposals, old(stability), root, relative, clock))
    {
      hide Legal;
      hide Suggested;
      hide Entered;
      hide ProposedCount;
      hide IsPartial;
      hide UnfinishedName;
      PartialIsMeant(FileName(relative));
      if IsPartial(FileName(relative)) || Waits(state.proposals, root.id, relative) {
        return Ok(false);
      }
      var absolute := root.path + relative;
      fs.OtherProcesses(alone);
      var stable := Sample(root.id, relative, absolute, clock);
      if stable.Err? {
        return Err(FsFailed(stable.error));
      }
      if !stable.value {
        return Ok(false);
      }
      fs.OtherProcesses(alone);
      ShownIdentities(fs.history.env, fs.files, absolute);
      var identity := IdentityAt(fs.history.env, fs.files, absolute);
      if identity.Err? {
        return Err(FsFailed(identity.error));
      }
      if exists p <- state.proposals :: p.identity == identity.value {
        return Ok(false);
      }
      r := Propose(root, relative, identity.value, mime, advice, now, faults);
    }

    /** Journal a new entry, then queue its item. */
    method Propose(
        root: Root, relative: Path, identity: Identity, mime: Option<string>, advice: Option<Id>, now: int, faults: set<Fault>)
      returns (r: Result<bool, ServiceError>)
      requires Valid() && root in state.roots && root.watched && relative != [] && ProposedCount(state.proposals) < MAX_PROPOSALS
      requires !Waits(state.proposals, root.id, relative) && forall p <- state.proposals :: p.identity != identity
      modifies this`state, fs`nextUuid, journal, fs.history
      ensures Valid() && Grows(old(fs.history.run), fs.history.run, true)
      ensures r.Err? ==> state == old(state) && journal.rows == old(journal.rows)
      ensures r.Ok? <==> Creating !in faults && |Active(old(journal.rows))| < MAX_ACTIVE && identity.size <= MAX_I64
      ensures r.Ok? ==> r.value && |state.proposals| == |old(state).proposals| + 1
                        && Queued(old(state), state, root.id, relative, identity)
                        && Entered(old(journal.rows), journal.rows, state, state.proposals[|old(state).proposals|], root.path + relative)
                        && Suggested(fs.history.env, old(state), root.id, relative, mime, advice,
                                     state.proposals[|old(state).proposals|].destination)
    {
      hide Suggested;
      hide Entered;
      var suggested := Suggest(root.id, relative, mime, advice);
      var id := fs.FreshUuid();
      var item := Proposal(id, 1, root.id, relative, suggested.value, FileName(relative), SProposed, identity);
      r := Enqueue(root, item, now, faults);
    }

    /** The entry first, then the item. */
    method Enqueue(root: Root, item: Proposal, now: int, faults: set<Fault>) returns (r: Result<bool, ServiceError>)
      requires Valid() && root in state.roots && root.watched && ProposedCount(state.proposals) < MAX_PROPOSALS
      requires item.id !in Now().issued && item.id < fs.nextUuid && item.revision == 1 && item.status.SProposed?
      requires item.sourceRoot == root.id && item.relative != [] && item.name == FileName(item.relative)
      requires item.destination.Some? ==> item.destination.value.root in Now().issued
      requires !Waits(state.proposals, root.id, item.relative) && forall p <- state.proposals :: p.identity != item.identity
      modifies this`state, journal, fs.history
      ensures Valid() && Grows(old(fs.history.run), fs.history.run, true)
      ensures r.Err? ==> state == old(state) && journal.rows == old(journal.rows)
      ensures r.Ok? <==> Creating !in faults && |Active(old(journal.rows))| < MAX_ACTIVE && item.identity.size <= MAX_I64
      ensures r.Ok? ==> r.value && state == old(state).(proposals := old(state).proposals + [item])
                        && Entered(old(journal.rows), journal.rows, state, item, root.path + item.relative)
    {
      IdsAreIssued();
      var row := journal.Create(
        item.id, root.path + item.relative, TokenOf(state, item), item.identity.size, now, Creating in faults);
      if row.Err? {
        return Err(JournalFailed(row.error));
      }
      RootIsFound(root);
      state := state.(proposals := state.proposals + [item]);
      fs.history.RecordCreate(item, row.value);
      return Ok(true);
    }

    lemma IdsAreIssued()
      requires fs.Synced()
      ensures Now().rows.Keys <= Now().issued
    {
      RunKeepsInv(fs.history.env, fs.history.run);
    }

    lemma RootIsFound(root: Root)
      requires fs.Synced() && Now().proc.Up? && root in Memory(Now()).roots && root.watched
      ensures FindRoot(Memory(Now()).roots, root.id, WatchedRole) == Some(root)
    {
      RunKeepsInv(fs.history.env, fs.history.run);
      MemberIsFound(Memory(Now()).roots, root, WatchedRole);
    }

    /** Only new waiting items have been appended since, and the roots and rules are the same. */
    ghost predicate GrownBy(st: State, n: nat)
      reads this
    {
      && |state.proposals| == |st.proposals| + n
      && state == st.(proposals := state.proposals) && st.proposals <= state.proposals
      && forall i :: |st.proposals| <= i < |state.proposals| ==>
           state.proposals[i].status.SProposed? && state.proposals[i].revision == 1
    }

    /** What a scan that begins now finds. */
    ghost function BeginsAt(clock: int): Begun
      reads this, fs, fs.history, journal
    {
      Begun(fs.history.env, fs.files, state, stability, journal.rows, clock)
    }

    /** A scan begun like this has been through these files. */
    ghost predicate InScan(b: Begun, done: set<Found>)
      reads this, fs, fs.history, journal
    {
      && b.env == fs.history.env && b.files == fs.files && state.roots == b.st.roots
      && done <= AllFound(b) && Scanned(b, done, state.proposals, stability, journal.rows)
    }

    /** Consider one file; a full queue pauses scanning. */
    method ScanFile(
        root: Root, relative: Path, mime: Option<string>, advice: Option<Id>, now: int, clock: int, alone: bool,
        faults: set<Fault>, ghost st: State, ghost n: nat, ghost b: Begun, ghost done: set<Found>)
      returns (r: Result<nat, ServiceError>)
      requires Valid() && root in state.roots && root.watched && relative != [] && GrownBy(st, n)
      requires alone ==> InScan(b, done) && b.clock == clock
      requires alone ==> IsNext(b, done, root, relative) && (root, relative) in AllFound(b)
      modifies this`state, this`stability, fs`files, fs`saved, fs`nextUuid, journal, fs.history
      ensures Valid() && Grows(old(fs.history.run), fs.history.run, alone)
      ensures alone ==> fs.files == old(fs.files)
      ensures r.Ok? ==> GrownBy(st, n + r.value) && state.roots == old(state).roots
      ensures alone && r.Ok? ==> InScan(b, done + {(root, relative)})
      ensures alone && r.Err? && faults !! SCAN_FAULTS && HasRoom(b) ==> !Possible(b)
    {
      hide Due;
      hide Readable;
      hide Sampled;
      hide OnlySampled;
      hide Suggested;
      hide Entered;
      hide Scanned;
      hide AllFound;
      hide Possible;
      hide HasRoom;
      hide ProposedCount;
      QueueIsOrderly();
      if ProposedCount(state.proposals) >= MAX_PROPOSALS {
        if alone && HasRoom(b) {
          QueueStaysBelow(b, done, state.proposals, stability, journal.rows);
        }
        r := PauseFull(faults);
        return;
      }
      ghost var items, samples, rows := state.proposals, stability, journal.rows;
      var queued := Consider(root, relative, mime, advice, now, clock, alone, faults);
      if queued.Err? {
        if alone && Creating !in faults {
          Impossible(b, done, items, samples, rows, root, relative);
        }
        return Err(queued.error);
      }
      if alone {
        FileIsScanned(b, done, items, samples, rows, root, relative, queued.value);
      }
      return Ok(if queued.value then 1 else 0);
    }

    lemma FileIsScanned(
        b: Begun, done: set<Found>, items: seq<Proposal>, samples: Samples, rows: Rows, root: Root, relative: Path, queued: bool)
      requires Scanned(b, done, items, samples, rows) && IsNext(b, done, root, relative)
      requires OnlySampled(samples, stability, root.id, relative)
      requires Sampled(b.env, b.files, items, root, relative, stability, b.clock)
      requires !queued ==> state.proposals == items && journal.rows == rows
                           && Readable(b.env, b.files, items, root, relative)
      requires queued <==> Due(b.env, b.files, items, samples, root, relative, b.clock)
      requires queued ==>
                 && |state.proposals| == |items| + 1
                 && var item := state.proposals[|items|];
                 && state.proposals == items + [item] && Entered(rows, journal.rows, state, item, root.path + relative)
                 && item.sourceRoot == root.id && item.relative == relative && item.status.SProposed?
                 && (root.id, relative) in samples && item.identity == samples[(root.id, relative)].0
                 && |Active(rows)| < 1000
      ensures Scanned(b, done + {(root, relative)}, state.proposals, stability, journal.rows)
    {
      hide Scanned;
      hide OnlySampled;
      hide Sampled;
      hide Due;
      hide Readable;
      if queued {
        var item := state.proposals[|items|];
        EnteredIsActive(rows, journal.rows, state, item, root.path + relative);
        SampleOf(b, done, items, samples, rows, root, relative);
        QueuedOneMore(b, done, items, samples, rows, stability, journal.rows, root, relative, item);
      } else {
        ScannedOneMore(b, done, items, samples, rows, stability, root, relative);
      }
    }

    /** Consider the files of one root; a failing call may fail at any file. */
    method ScanRoot(
        root: Root, advise: Path -> Option<Id>, mimes: Path -> Option<string>, now: int, clock: int, alone: bool,
        faults: set<Fault>, ghost st: State, ghost n: nat, ghost b: Begun, ghost done: set<Found>)
      returns (r: Result<nat, ServiceError>)
      requires Valid() && root in state.roots && root.watched && GrownBy(st, n)
      requires alone ==> InScan(b, done) && b.clock == clock && forall found <- done :: found.0 != root
      modifies this`state, this`stability, fs`files, fs`saved, fs`nextUuid, journal, fs.history
      ensures Valid() && Grows(old(fs.history.run), fs.history.run, alone)
      ensures alone ==> fs.files == old(fs.files)
      ensures r.Ok? ==> GrownBy(st, n + r.value) && state.roots == old(state).roots
      ensures r.Ok? ==> IsFolder(old(fs.files), root.path) && Walk.WithinLimits(old(fs.files), root.path)
      ensures alone && r.Ok? ==> InScan(b, done + FilesOf(b.files, root))
      ensures alone && r.Err? && faults !! SCAN_FAULTS && HasRoom(b) ==> !Possible(b)
    {
      hide GrownBy;
      hide Legal;
      hide Walk.WithinLimits;
      hide Walk.RegularFiles;
      hide Walk.Reached;
      hide Scanned;
      hide HasRoom;
      var found := Walk.BoundedFiles(fs.files, root.path);
      if found.Err? {
        return Err(if found.error.TooBig? then LimitReached else IoFailed);
      }
      ghost var files, roots := fs.files, state.roots;
      var created := 0;
      AllFoundIn(files, root, found.value);
      assert done + FoundIn(root, found.value[..0]) == done;
      for i := 0 to |found.value|
        invariant Valid() && Grows(old(fs.history.run), fs.history.run, alone)
        invariant alone ==> fs.files == old(fs.files)
        invariant GrownBy(st, n + created) && state.roots == roots
        invariant alone ==> InScan(b, done + FoundIn(root, found.value[..i]))
      {
        var relative := found.value[i];
        assert relative in found.value;
        if alone {
          QueueIsOrderly();
          NextFile(b, done, root, found.value, i);
        }
        var happening: set<Fault> := *;
        var queued := ScanFile(
          root, relative, mimes(relative), advise(relative), now, clock, alone, faults * happening, st, n + created,
          b, done + FoundIn(root, found.value[..i]));
        if queued.Err? {
          return Err(queued.error);
        }
        OneFileMore(root, found.value, i);
        assert done + FoundIn(root, found.value[..i]) + {(root, relative)} == done + FoundIn(root, found.value[..i + 1]);
        created := created + queued.value;
      }
      assert found.value[..|found.value|] == found.value;
      return Ok(created);
    }

    /** A full queue pauses the service. */
    method PauseFull(faults: set<Fault>) returns (r: Result<nat, ServiceError>)
      requires Valid()
      modifies this`state, fs`saved, fs.history
      ensures Valid() && Grows(old(fs.history.run), fs.history.run, true)
      ensures state == old(state).(paused := true)
      ensures if faults !! {SaveBefore, SaveAfter} then r == Err(LimitReached) && fs.saved == state else r == Err(IoFailed)
    {
      var ok := SetPaused(true, faults);
      return Err(if ok then LimitReached else IoFailed);
    }

    lemma ScanIsComplete(b: Begun, done: set<Found>, roots: seq<Root>)
      requires Synced() && InScan(b, done) && RootsScanned(b, done, roots)
      requires forall root :: root in roots <==> root in b.st.roots && root.watched
      ensures Scanned(b, AllFound(b), state.proposals, stability, journal.rows)
      ensures NothingMissed(b, state.proposals) && Possible(b)
      ensures |state.proposals| - |b.st.proposals| == |DueAmong(b, AllFound(b))|
      ensures |QueueProofs.WaitingAt(b.st.proposals)| + |DueAmong(b, AllFound(b))| <= 1000
    {
      hide Scanned;
      hide NothingMissed;
      hide Possible;
      hide DueAmong;
      hide AllFound;
      hide Walk.WithinLimits;
      AllRootsScanned(b, done, roots);
      QueueIsOrderly();
      ScannedMissesNothing(b, state.proposals, stability, journal.rows);
      NewOnesAreDue(b, AllFound(b), state.proposals, stability, journal.rows);
      ItWasPossible(b, state.proposals, stability, journal.rows);
      FitsTheQueue(b, state.proposals, stability, journal.rows);
    }

    lemma NotGrownYet()
      ensures GrownBy(state, 0)
    {
    }

    lemma GrownSize(st: State, n: nat)
      requires GrownBy(st, n)
      ensures |state.proposals| == |st.proposals| + n
    {
    }

    method ScanNextRoot(
        roots: seq<Root>, i: nat, advise: Path -> Option<Id>, mimes: Path -> Option<string>, now: int, clock: int, alone: bool,
        faults: set<Fault>, ghost st: State, ghost n: nat, ghost b: Begun, ghost done: set<Found>)
      returns (r: Result<nat, ServiceError>)
      requires i < |roots| && Walk.Distinct(roots)
      requires Valid() && roots[i] in state.roots && roots[i].watched && GrownBy(st, n)
      requires alone ==> InScan(b, done) && b.clock == clock && RootsScanned(b, done, roots[..i])
      modifies this`state, this`stability, fs`files, fs`saved, fs`nextUuid, journal, fs.history
      ensures Valid() && Grows(old(fs.history.run), fs.history.run, alone)
      ensures alone ==> fs.files == old(fs.files)
      ensures r.Ok? ==> GrownBy(st, n + r.value) && state.roots == old(state).roots
      ensures alone && r.Ok? ==>
                var done' := done + FilesOf(b.files, roots[i]);
                InScan(b, done') && RootsScanned(b, done', roots[..i + 1])
      ensures alone && r.Err? && faults !! SCAN_FAULTS && HasRoom(b) ==> !Possible(b)
    {
      hide Walk.WithinLimits;
      hide Scanned;
      hide HasRoom;
      hide Possible;
      hide GrownBy;
      if alone {
        NextRoot(b, done, roots, i);
      }
      hide RootsScanned;
      r := ScanRoot(roots[i], advise, mimes, now, clock, alone, faults, st, n, b, done);
      if alone && r.Ok? {
        OneRootMore(b, done, roots, i);
      }
    }

    /** The watched trees, one after the other. */
    method ScanRoots(
        advise: Path -> Option<Id>, mimes: Path -> Option<string>, now: int, clock: int, alone: bool, faults: set<Fault>)
      returns (r: Result<nat, ServiceError>)
      requires Valid()
      modifies this`state, this`stability, fs`files, fs`saved, fs`nextUuid, journal, fs.history
      ensures Valid() && Grows(old(fs.history.run), fs.history.run, alone)
      ensures alone ==> fs.files == old(fs.files)
      ensures r.Ok? ==> GrownBy(old(state), r.value)
      ensures alone && r.Ok? ==>
                var b := old(BeginsAt(clock));
                && Scanned(b, AllFound(b), state.proposals, stability, journal.rows)
                && NothingMissed(b, state.proposals) && r.value == |DueAmong(b, AllFound(b))| && Possible(b)
                && |QueueProofs.WaitingAt(b.st.proposals)| + |DueAmong(b, AllFound(b))| <= 1000
      ensures alone && r.Err? && faults !! SCAN_FAULTS && HasRoom(old(BeginsAt(clock))) ==> !Possible(old(BeginsAt(clock)))
    {
      hide Legal;
      hide ProposedCount;
      hide Walk.WithinLimits;
      hide Scanned;
      hide HasRoom;
      hide AllFound;
      hide DueAmong;
      hide NothingMissed;
      hide Possible;
      hide RootsDistinct;
      hide RootsScanned;
      hide GrownBy;
      var roots, created := WatchedRoots(state.roots), 0;
      QueueIsOrderly();
      WatchedAreDistinct(state.roots);
      ghost var b, done: set<Found> := BeginsAt(clock), {};
      NothingScanned(b);
      NoRootsScanned(b);
      NotGrownYet();
      for i := 0 to |roots|
        invariant Valid() && Grows(old(fs.history.run), fs.history.run, alone)
        invariant alone ==> fs.files == old(fs.files)
        invariant GrownBy(old(state), created) && state.roots == old(state).roots
        invariant alone ==> InScan(b, done) && RootsScanned(b, done, roots[..i])
      {
        assert roots[i] in roots && roots[i] in state.roots;
        var scanned := ScanNextRoot(roots, i, advise, mimes, now, clock, alone, faults, old(state), created, b, done);
        if scanned.Err? {
          return scanned;
        }
        created := created + scanned.value;
        done := done + FilesOf(b.files, roots[i]);
      }
      assert roots[..|roots|] == roots;
      if alone {
        ScanIsComplete(b, done, roots);
      }
      GrownSize(old(state), created);
      return Ok(created);
    }

    /** One pass over all watched roots. */
    method ScanOnce(
        advise: Path -> Option<Id>, mimes: Path -> Option<string>, now: int, clock: int, alone: bool, faults: set<Fault>)
      returns (r: Result<nat, ServiceError>)
      requires Valid()
      modifies this`state, this`stability, fs`files, fs`saved, fs`nextUuid, journal, fs.history
      ensures Valid() && Grows(old(fs.history.run), fs.history.run, alone)
      ensures alone ==> fs.files == old(fs.files)
      ensures old(state).paused ==> r == Ok(0) && state == old(state) && journal.rows == old(journal.rows)
      ensures !old(state).paused && |QueueProofs.WaitingAt(old(state).proposals)| >= 1000 ==>
                state == old(state).(paused := true) && journal.rows == old(journal.rows)
                && r == Err(if faults !! {SaveBefore, SaveAfter} then LimitReached else IoFailed)
      ensures r.Ok? ==> GrownBy(old(state), r.value) && (r.value > 0 ==> fs.saved == state)
      ensures alone && r.Ok? && !old(state).paused ==>
                var b := old(BeginsAt(clock));
                && Scanned(b, AllFound(b), state.proposals, stability, journal.rows)
                && NothingMissed(b, state.proposals) && r.value == |DueAmong(b, AllFound(b))|
      ensures alone && r.Ok? && !old(state).paused ==>
                var b := old(BeginsAt(clock)); |QueueProofs.WaitingAt(b.st.proposals)| + |DueAmong(b, AllFound(b))| <= 1000
      ensures alone && !old(state).paused && faults !! SCAN_FAULTS && HasRoom(old(BeginsAt(clock))) ==>
                (r.Ok? <==> Possible(old(BeginsAt(clock))))
    {
      hide Legal;
      hide ProposedCount;
      hide Scanned;
      hide HasRoom;
      hide AllFound;
      hide DueAmong;
      hide NothingMissed;
      hide Possible;
      if state.paused {
        return Ok(0);
      }
      QueueProofs.CountIsWaiting(state.proposals);
      if ProposedCount(state.proposals) >= MAX_PROPOSALS {
        NoRoom(BeginsAt(clock));
        r := PauseFull(faults);
        return;
      }
      r := ScanRoots(advise, mimes, now, clock, alone, faults);
      if r.Ok? && r.value > 0 {
        var ok := SaveState(faults);
        if !ok {
          return Err(IoFailed);
        }
      }
    }
  }

  function WatchedRoots(roots: seq<Root>): (r: seq<Root>)
    ensures forall root :: root in r <==> root in roots && root.watched
  {
    if roots == [] then [] else (if roots[0].watched then [roots[0]] else []) + WatchedRoots(roots[1..])
  }

  lemma {:induction false} WatchedAreDistinct(roots: seq<Root>)
    requires RootsDistinct(roots)
    ensures Walk.Distinct(WatchedRoots(roots))
  {
    if roots != [] {
      WatchedAreDistinct(roots[1..]);
      assert forall root <- roots[1..] :: root != roots[0];
    }
  }

  lemma EnteredIsActive(rows: Rows, rows': Rows, st: State, item: Proposal, source: Path)
    requires Entered(rows, rows', st, item, source)
    ensures |Active(rows')| == |Active(rows)| + 1
  {
    assert Active(rows') == Active(rows) + {item.id};
  }

  const SCAN_FAULTS: set<Fault> := {Creating, SaveBefore, SaveAfter}

  lemma MemberIsFound(roots: seq<Root>, root: Root, role: Role)
    requires RootsDistinct(roots) && root in roots && HasRole(root, role)
    ensures FindRoot(roots, root.id, role) == Some(root)
  {
    var found := FindRoot(roots, root.id, role);
    var i :| 0 <= i < |roots| && roots[i] == root;
    var j :| 0 <= j < |roots| && roots[j] == found.value;
  }

  predicate AnyWaitsFrom(items: seq<Proposal>, root: Id) {
    exists p <- items :: p.sourceRoot == root && p.status.SProposed?
  }

  predicate IsRegistered(roots: seq<Root>, id: Id) {
    exists root <- roots :: root.id == id
  }

  predicate CanRemoveRoot(st: State, id: Id) {
    (exists root <- st.roots :: root.id == id) && forall p <- st.proposals :: !(p.sourceRoot == id && p.status == SProposed)
  }

  predicate CanAddRoot(files: Files, st: State, path: Path, watched: bool, destination: bool) {
    && |st.roots| < 16 && (watched || destination) && IsFolder(files, path)
    && forall root <- st.roots :: root.path != path
  }

  /** The rules' one destination if they agree on one, or else the agent's answer. */
  ghost predicate Suggested(
      env: Env, st: State, root: Id, relative: Path, mime: Option<string>, advice: Option<Id>, choice: Option<Choice>)
    requires relative != []
  {
    exists facts :: Rules.Describes(facts, relative, root, mime) &&
      var winners := Rules.Winners(env, st.rules, facts);
      if |winners| == 1 then
        choice.Some? && winners == {choice.value}
      else if advice.Some? && exists target <- st.roots :: target.id == advice.value && target.destination then
        choice == Some(Choice(advice.value, "."))
      else
        choice == None
  }

  /** The agent may only name a registered destination root. */
  function Advised(roots: seq<Root>, advice: Option<Id>): Option<Choice> {
    if advice.Some? && FindRoot(roots, advice.value, DestinationRole).Some? then Some(Choice(advice.value, ".")) else None
  }

  predicate Queued(st: State, st': State, root: Id, relative: Path, identity: Identity)
    requires |st'.proposals| == |st.proposals| + 1 && relative != []
  {
    var item := st'.proposals[|st.proposals|];
    && item.name == FileName(relative)
    && st' == st.(proposals := st.proposals + [item])
    && item.sourceRoot == root && item.relative == relative && item.status.SProposed? && item.revision == 1
    && item.identity == identity
  }

  /** The only new row is this item's: undecided, at its first revision, with the two paths of the move. */
  predicate Entered(rows: Rows, rows': Rows, st: State, item: Proposal, source: Path) {
    && item.id !in rows && item.id in rows' && rows' == rows[item.id := rows'[item.id]]
    && var row := rows'[item.id];
    && row.state.Proposed? && row.revision == 1 && row.source == source
    && (if item.destination.Some? && HasDestination(st.roots, item.destination.value.root) then
          exists root <- st.roots ::
            root.id == item.destination.value.root && root.destination
            && row.dest == root.path + DirectoryPath(item.destination.value.directory) + [item.name]
        else row.dest == [])
    && row.size == item.identity.size && row.sha.None?
  }

  /** A destination root is registered under this identifier. */
  predicate HasDestination(roots: seq<Root>, id: Id) {
    exists root <- roots :: root.id == id && root.destination
  }

  lemma ShownIdentities(env: Env, files: Files, p: Path)
    ensures forall identity :: Shows(env, files, p, identity) <==> IdentityAt(env, files, p) == Ok(identity)
  {
    forall identity ensures Shows(env, files, p, identity) <==> IdentityAt(env, files, p) == Ok(identity) {
      ShownIdentity(env, files, p, identity);
    }
  }

  /** The chosen root and directory resolve to this folder, the directory is safe to store, and no
      registered destination root that contains the folder lies deeper. */
  ghost predicate NamesFolder(roots: seq<Root>, choice: Choice, folder: Path) {
    var root := FindRoot(roots, choice.root, DestinationRole);
    && root.Some?
    && root.value.path + DirectoryPath(choice.directory) == folder
    && ValidDirectory(choice.directory)
    && forall other <- roots :: other.destination && other.path <= folder ==> other.path <= root.value.path
  }

  /** Some registered destination root contains the folder. */
  predicate HasOwner(roots: seq<Root>, folder: Path) {
    exists root <- roots :: root.destination && root.path <= folder
  }

  /** The item may be redirected to this folder: it exists and is named from the deepest destination root that contains
      it within the limit on paths, or else it can itself be registered. */
  ghost predicate CanRoute(files: Files, st: State, id: Id, revision: nat, folder: Path) {
    && IsFolder(files, folder) && CanRedirect(st, id, revision)
    && if HasOwner(st.roots, folder) then
         forall owner <- st.roots ::
           owner.destination && owner.path <= folder
           && (forall other <- st.roots :: other.destination && other.path <= folder ==> other.path <= owner.path) ==>
             |DirectoryText(folder[|owner.path|..])| <= 4096
       else
         |st.roots| < 16 && forall root <- st.roots :: root.path != folder
  }

  /** A root for exactly this folder is appended if and only if no registered destination root contains it. */
  predicate RegisteredFor(roots: seq<Root>, roots': seq<Root>, folder: Path) {
    if HasOwner(roots, folder) then roots' == roots
    else |roots'| > 0 && roots' == roots + [Root(roots'[|roots'| - 1].id, folder, false, true)]
  }

  /** No registered destination root that contains the folder lies deeper than this one. */
  predicate OwnerFound(st: State, st': State, folder: Path, owner: Root) {
    && st' == st.(roots := st'.roots) && RegisteredFor(st.roots, st'.roots, folder)
    && owner in st'.roots && Owns(owner, folder)
    && forall other <- st'.roots :: Owns(other, folder) ==> other.path <= owner.path
  }

  /** The item alone is redirected, keeping its own name, once the folder has a root. */
  ghost predicate Routed(
      rows: Rows, st: State, rows': Rows, st': State, id: Id, revision: nat, folder: Path, now: int, result: Proposal)
  {
    var base := st.(roots := st'.roots);
    && RegisteredFor(st.roots, st'.roots, folder)
    && result.destination.Some? && Has(st.proposals, id) && Item(st.proposals, id).relative != []
    && Redirected(rows, base, rows', st', id, revision, result.destination.value,
                  FileName(Item(st.proposals, id).relative), now, result)
  }

  /** The folder can be routed to exactly if its owner can be chosen with the directory that leads there. */
  lemma RouteIsChoice(
      files: Files, st: State, st': State, id: Id, revision: nat, folder: Path, owner: Root, issued: set<Id>)
    requires AllPlain(folder) && OwnerFound(st, st', folder, owner) && IsFolder(files, folder)
    requires HasOwner(st.roots, folder) || CanAddRoot(files, st, folder, false, true)
    requires forall p <- st.proposals :: p.sourceRoot in issued
    requires forall i <- issued :: IsRegistered(st'.roots, i) <==> IsRegistered(st.roots, i)
    ensures CanChoose(files, st', id, revision, owner.id, DirectoryText(folder[|owner.path|..])) <==>
              CanRoute(files, st, id, revision, folder)
  {
    hide ValidDirectory;
    hide DirectoryText;
    hide DirectoryPath;
    hide IsRegistered;
    var rest := folder[|owner.path|..];
    DirectoryRoundTrip(rest);
    assert owner.path + rest == folder;
    assert owner.id == owner.id && owner.destination && IsFolder(files, owner.path + DirectoryPath(DirectoryText(rest)));
    assert CanRedirect(st', id, revision) <==> CanRedirect(st, id, revision) by {
      if Has(st.proposals, id) {
        assert Item(st.proposals, id) in st.proposals;
      }
    }
    if HasOwner(st.roots, folder) {
      assert st'.roots == st.roots;
    } else {
      OnlyTheNewRootOwns(st, st', folder, owner);
    }
  }

  lemma OnlyTheNewRootOwns(st: State, st': State, folder: Path, owner: Root)
    requires OwnerFound(st, st', folder, owner) && !HasOwner(st.roots, folder)
    ensures owner.path == folder && |DirectoryText(folder[|owner.path|..])| <= 4096
  {
  }

  /** The row of a routed item names its place in that folder. */
  lemma RowNamesFolder(
      rows: Rows, st: State, rows': Rows, st': State, id: Id, revision: nat, choice: Choice, folder: Path, name: Name,
      now: int, result: Proposal)
    requires Redirected(rows, st, rows', st', id, revision, choice, name, now, result)
    requires RootsDistinct(st.roots) && NamesFolder(st.roots, choice, folder)
    ensures rows'[id].dest == folder + [name]
  {
    var root :| root in st.roots && root.id == choice.root && root.destination
      && rows' == rows[id := rows[id].(dest := root.path + DirectoryPath(choice.directory) + [name],
                                       revision := revision + 1, updatedAt := now)];
    MemberIsFound(st.roots, root, DestinationRole);
  }

  lemma OwnerNamesFolder(roots: seq<Root>, owner: Root, folder: Path)
    requires AllPlain(folder) && RootsDistinct(roots) && owner in roots && Owns(owner, folder)
    requires forall other <- roots :: Owns(other, folder) ==> other.path <= owner.path
    ensures var directory := DirectoryText(folder[|owner.path|..]);
            ValidDirectory(directory) ==> NamesFolder(roots, Choice(owner.id, directory), folder)
  {
    DirectoryRoundTrip(folder[|owner.path|..]);
    assert HasRole(owner, DestinationRole);
    var found := FindRoot(roots, owner.id, DestinationRole);
    var i :| 0 <= i < |roots| && roots[i] == owner;
    var j :| 0 <= j < |roots| && roots[j] == found.value;
  }

  /** The item now goes to this choice under this name, its row (alone) says so too, one revision on. */
  predicate Redirected(
      rows: Rows, st: State, rows': Rows, st': State, id: Id, revision: nat, choice: Choice, name: Name, now: int, result: Proposal)
  {
    && Has(st.proposals, id) && id in rows && rows[id].state.Proposed? && rows[id].revision == revision
    && result == Item(st.proposals, id).(revision := revision + 1, destination := Some(choice), name := name)
    && st' == st.(proposals := st.proposals[Position(st.proposals, id) := result])
    && exists root <- st.roots ::
         root.id == choice.root && root.destination
         && rows' == rows[id := rows[id].(dest := root.path + DirectoryPath(choice.directory) + [name],
                                          revision := revision + 1, updatedAt := now)]
  }

  /** There is room for a rule, and the one this item teaches is valid. */
  ghost predicate CanLearn(env: Env, st: State, id: Id, priority: int) {
    && |st.rules| < 1000 && Has(st.proposals, id)
    && var item := Item(st.proposals, id);
    && item.destination.Some? && item.relative != [] && ValidDirectory(item.destination.value.directory)
    && exists ext :: Rules.IsExtension(FileName(item.relative), ext) && 0 < |ext| <= 255
  }

  /** The one predicate of a learned rule is the extension of the file. */
  lemma LearnedIsMeant(env: Env, id: Id, priority: int, relative: Path, choice: Choice)
    requires relative != []
    ensures var learned := Rules.LearnedRule(id, priority, relative, choice);
            && (learned.Some? ==>
                  && learned.value.priority == priority && Rules.ChoiceOf(learned.value) == choice
                  && exists ext :: Rules.IsExtension(FileName(relative), ext) && learned.value.predicates == [Extension(ext)])
            && ((learned.Some? && Rules.ValidRule(env, learned.value)) <==>
                  ValidDirectory(choice.directory)
                  && exists ext :: Rules.IsExtension(FileName(relative), ext) && 0 < |ext| <= 255)
  {
    var name := FileName(relative);
    Rules.ExtensionIsMeant(name);
    forall ext | Rules.IsExtension(name, ext)
      ensures Rules.FileExtension(name).Some? && ext == Rules.LowerAscii(Rules.FileExtension(name).value)
    {
      Rules.OneExtension(name, ext);
    }
    hide Rules.IsExtension;
    hide Rules.LowerAscii;
    hide Rules.FileExtension;
    hide ValidDirectory;
  }

  predicate CanRename(st: State, id: Id, revision: nat, name: Name) {
    && name != "" && name != "." && name != ".." && '/' !in name && |name| <= 255
    && Has(st.proposals, id) && Item(st.proposals, id).revision == revision && Item(st.proposals, id).destination.Some?
    && exists root <- st.roots :: root.id == Item(st.proposals, id).destination.value.root && root.destination
  }

  predicate CanChoose(files: Files, st: State, id: Id, revision: nat, rootId: Id, directory: string) {
    && ValidDirectory(directory)
    && (exists root <- st.roots ::
          root.id == rootId && root.destination && IsFolder(files, root.path + DirectoryPath(directory)))
    && CanRedirect(st, id, revision)
  }

  /** The item is there at this revision, and the root it came from is registered still. */
  predicate CanRedirect(st: State, id: Id, revision: nat) {
    && Has(st.proposals, id) && Item(st.proposals, id).revision == revision && Item(st.proposals, id).relative != []
    && IsRegistered(st.roots, Item(st.proposals, id).sourceRoot)
  }

  /** Every entry present at the start is as recovery makes it on the evidence of the start. */
  ghost predicate AllRecovered(env: Env, start: World, rows: Rows) {
    && rows.Keys == start.rows.Keys
    && forall id <- start.rows ::
         IsRecovered(env, start.files, start.saved.proposals, id, start.rows[id], rows[id])
  }

  /** No entry is in the middle of an operation; of those that were, the items say what became of them. */
  ghost predicate NoneInTheMiddle(rows: Rows, rows': Rows, items: seq<Proposal>) {
    forall id <- rows' ::
      && id in rows
      && rows'[id].state !in {Approved, JState.Copying, Published, SourceRemoved, JState.Undoing}
      && (rows[id].state in {Approved, JState.Copying, Published, SourceRemoved, JState.Undoing} ==>
            ItemFollows(items, id, rows'[id]))
  }

  /** Of the entries that were in the middle of an operation, each still is, or its item follows it. */
  ghost predicate Following(rows: Rows, w: World)
    requires IsUp(w)
  {
    forall id <- rows ::
      rows[id].state in {Approved, JState.Copying, Published, SourceRemoved, JState.Undoing} ==> StillOrFollowed(w, id)
  }

  lemma AllToFollow(rows: Rows, w: World)
    requires IsUp(w) && w.rows == rows
    ensures Following(rows, w)
  {
  }

  /** The entries retention keeps are exactly those left, each as recovery makes it on the evidence of the crash. */
  ghost predicate RetainedAreRecovered(env: Env, crashed: World, now: int, rows: Rows) {
    && rows.Keys <= crashed.rows.Keys
    && (forall id <- crashed.rows :: id in rows <==> Deserves(crashed.rows, now, 10000, 2592000, id))
    && forall id <- rows ::
         IsRecovered(env, crashed.files, crashed.saved.proposals, id, crashed.rows[id], rows[id])
  }

  lemma FoundInTheMiddle(rows: Rows, kept: Rows, rows': Rows, items: seq<Proposal>)
    requires Within(kept, rows) && NoneInTheMiddle(kept, rows', items)
    ensures NoneInTheMiddle(rows, rows', items)
  {
    hide ItemFollows;
  }

  lemma FewerActive(kept: Rows, rows: Rows)
    requires Within(kept, rows)
    ensures |Active(kept)| <= |Active(rows)|
    ensures RoomToSettle(rows) ==> RoomToSettle(kept)
  {
    SubsetCount(Active(kept), Active(rows));
  }

  lemma RecoveredAsFound(env: Env, crashed: World, start: World, now: int, rows: Rows)
    requires DistinctRowids(crashed.rows) && start.rows == Retained(crashed.rows, now, 10000, 2592000)
    requires start.files == crashed.files && start.saved == crashed.saved
    requires AllRecovered(env, start, rows)
    ensures RetainedAreRecovered(env, crashed, now, rows)
  {
    hide Retained;
    hide Deserves;
    hide IsRecovered;
    RetentionIsExact(crashed.rows, now, 10000, 2592000);
  }

  /** Same files, same entries, each heading where it was heading at the start. */
  ghost predicate Heading(env: Env, start: World, w: World) {
    && w.files == start.files && w.rows.Keys == start.rows.Keys
    && forall id <- start.rows :: id in w.rows && Settled(env, w, id) == Settled(env, start, id)
  }

  /** What was seen before does not matter to an entry once it is judged. */
  lemma JudgedIgnoresLooks(w: World, w': World, verdict: Option<JState>, now: int)
    requires SettlesEntry(w) && SettlesEntry(w') && w' == WithLooks(w, w'.proc.task.looks).(files := w'.files)
    ensures Judged(w', verdict, now) == Judged(w, verdict, now).(files := w'.files)
  {
  }

  lemma JudgedNone(w: World, now: int)
    requires SettlesEntry(w)
    ensures Judged(w, None, now) == WithTask(w, Task.Recovering(w.proc.task.todo[1..], w.proc.task.whole, Unseen))
  {
  }

  lemma JudgedRows(w: World, verdict: Option<JState>, now: int)
    requires SettlesEntry(w)
    ensures var w' := Judged(w, verdict, now);
            && w'.proc == Up(w'.proc.state, Task.Recovering(w.proc.task.todo[1..], w.proc.task.whole, Unseen))
            && w'.files == w.files && w'.saved == w.saved && w'.issued == w.issued && w'.rows.Keys == w.rows.Keys
            && forall id <- w.rows :: id != Head(w) ==> w'.rows[id] == w.rows[id]
  {
  }

  lemma HeadingIgnoresTask(env: Env, w: World, task: Task)
    requires IsUp(w)
    ensures Heading(env, w, WithTask(w, task))
  {
  }

  lemma ThereAndBack(env: Env, files: Files, there: Files, plan: Plan)
    requires plan.from != [] && plan.to != [] && SameDevice(env, plan.from, plan.to)
    requires MovedFiles(env, files, there, plan.from, plan.to) && TargetReady(env, files, plan)
    ensures plan.to in there && Rename(there, plan.to, plan.from) == files
  {
    FreeTarget(env, files, plan.to);
  }

  /** After a move within one file system, the way back is open (the original name free, the approved file
      at the destination) if no two names of a directory were equal after case folding. */
  lemma WayBackIsOpen(env: Env, files: Files, there: Files, plan: Plan)
    requires plan.from != [] && plan.to != [] && SameDevice(env, plan.from, plan.to)
    requires MovedFiles(env, files, there, plan.from, plan.to) && TargetReady(env, files, plan)
    requires Shows(env, files, plan.from, plan.expected)
    requires FoldUnique(env, files) && IsFolder(files, Parent(plan.from))
    ensures TargetReady(env, there, Plan(plan.to, plan.from, plan.expected))
    ensures Shows(env, there, plan.to, plan.expected)
  {
    FreeTarget(env, files, plan.to);
    forall q | q in there && q != [] && Parent(q) == Parent(plan.from)
      ensures env.fold(FileName(q)) != env.fold(FileName(plan.from))
    {
      if q == plan.to {
        assert Parent(plan.from) == Parent(plan.to);
      } else {
        assert q in files && q != plan.from;
      }
    }
  }

  // ---------------------------------------------------------------- nothing lost to pruning and retention

  lemma {:induction false} DropNone(items: seq<Proposal>)
    ensures DropFinished(items, 0) == items
  {
    if items != [] {
      DropNone(items[1..]);
    }
  }

  lemma {:induction false} OneMoreFinished(items: seq<Proposal>, i: nat, item: Proposal)
    requires i < |items|
    ensures Machine.Finished(items[i := item]) <= Machine.Finished(items) + 1
  {
    if i == 0 {
      assert items[0 := item][1..] == items[1..];
    } else {
      assert items[i := item][1..] == items[1..][i - 1 := item];
      OneMoreFinished(items[1..], i - 1, item);
    }
  }

  lemma NothingPruned(items: seq<Proposal>, id: Id, revision: nat, status: Status)
    requires Machine.Finished(items) < MAX_TERMINAL
    ensures PruneItems(Marked(items, id, revision, status)) == Marked(items, id, revision, status)
  {
    var marked := Marked(items, id, revision, status);
    if Has(items, id) {
      OneMoreFinished(items, Position(items, id), Item(items, id).(revision := revision, status := status));
    }
    DropNone(marked);
  }

  /** With so few finished entries, one just changed is not dropped. */
  lemma RowSurvives(rows: Rows, settled: Rows, id: Id, now: int)
    requires id in rows && id in settled && settled == rows[id := settled[id]] && settled[id].updatedAt == now
    requires DistinctRowids(settled) && |TerminalIds(rows) + {id}| <= MAX_TERMINAL
    ensures id in Retained(settled, now, 10000, 2592000)
    ensures TerminalIds(Retained(settled, now, 10000, 2592000)) <= TerminalIds(rows) + {id}
  {
    hide OldestFirst;
    var young := DropAged(settled, now, 2592000);
    assert TerminalIds(young) <= TerminalIds(rows) + {id};
    SubsetCount(TerminalIds(young), TerminalIds(rows) + {id});
    assert DropExcess(young, MAX_TERMINAL) == young;
  }

  /** The entry, if it is still there, ends as reported; and it is still there if few others are finished. */
  lemma EntryEnds(rows: Rows, st: State, rows': Rows, st': State, id: Id, now: int, result: Proposal, row: JState)
    requires Concludes(rows, st, rows', st', id, now, result, row)
    ensures id in rows' ==> rows'[id].state == row && rows'[id].revision == result.revision
    ensures |TerminalIds(rows) + {id}| <= MAX_TERMINAL ==> id in rows' && TerminalIds(rows') <= TerminalIds(rows) + {id}
  {
    hide Retained;
    hide PruneItems;
    hide Marked;
    var settled: Rows, between: State :|
      && Settles(rows, st, settled, between, id, now, result.revision, row, result.status)
      && Has(between.proposals, id) && result == Item(between.proposals, id)
      && DistinctRowids(settled) && rows' == Retained(settled, now, 10000, 2592000)
      && st' == between.(proposals := PruneItems(between.proposals));
    if |TerminalIds(rows) + {id}| <= MAX_TERMINAL {
      RowSurvives(rows, settled, id, now);
    }
  }

  lemma ItemEnds(rows: Rows, st: State, rows': Rows, st': State, id: Id, now: int, result: Proposal, row: JState)
    requires Concludes(rows, st, rows', st', id, now, result, row) && Machine.Finished(st.proposals) < MAX_TERMINAL
    requires Has(st.proposals, id)
    ensures st'.roots == st.roots && Has(st'.proposals, id) && Item(st'.proposals, id) == result
    ensures result == Item(st.proposals, id).(revision := result.revision, status := StatusOf(row))
  {
    hide Retained;
    hide PruneItems;
    var settled: Rows, between: State :|
      && Settles(rows, st, settled, between, id, now, result.revision, row, result.status)
      && Has(between.proposals, id) && result == Item(between.proposals, id)
      && DistinctRowids(settled) && rows' == Retained(settled, now, 10000, 2592000)
      && st' == between.(proposals := PruneItems(between.proposals));
    NothingPruned(st.proposals, id, result.revision, result.status);
    MarkedItem(st.proposals, id, result.revision, result.status);
  }

  /** Everything an approve and the undo after it need, known before either. */
  ghost predicate RoundTripReady(
      env: Env, files: Files, rows: Rows, st: State, id: Id, revision: nat, faults: set<Fault>, faults': set<Fault>)
  {
    && ApproveSucceeds(env, files, rows, st, id, revision, faults)
    && var plan := ApprovePlan(st, id, revision).value;
    && SameDevice(env, plan.from, plan.to) && FoldUnique(env, files) && IsFolder(files, Parent(plan.from))
    && |TerminalIds(rows)| < MAX_TERMINAL && Machine.Finished(st.proposals) < MAX_TERMINAL
    && revision + 6 <= MAX_I64
    && faults' !! UNDO_FAULTS && faults' !! CONCLUDE_FAULTS && ListFolder !in faults' && OpenSource !in faults'
  }

  lemma ReadyToApprove(
      env: Env, files: Files, rows: Rows, st: State, id: Id, revision: nat, faults: set<Fault>, faults': set<Fault>)
    requires RoundTripReady(env, files, rows, st, id, revision, faults, faults')
    ensures ApproveSucceeds(env, files, rows, st, id, revision, faults)
    ensures Steps(env, ApprovePlan(st, id, revision).value) == 4
  {
  }

  lemma PlanBack(st: State, st': State, id: Id, revision: nat, result: Proposal)
    requires RootsDistinct(st.roots) && ApprovePlan(st, id, revision).Ok? && st'.roots == st.roots
    requires Has(st'.proposals, id) && Item(st'.proposals, id) == result && result.status.SCompleted?
    requires result == Item(st.proposals, id).(revision := result.revision, status := result.status)
    ensures var forth := ApprovePlan(st, id, revision).value;
            UndoPlan(st', id, result.revision) == Ok(Plan(forth.to, forth.from, forth.expected))
  {
    QueueProofs.RolesAgree(st.roots, Item(st.proposals, id).sourceRoot, WatchedRole);
  }

  lemma UndoIsReady(
      env: Env, files: Files, there: Files, rows: Rows, rows': Rows, st: State, st': State, id: Id, revision: nat, now: int,
      result: Proposal, faults: set<Fault>, faults': set<Fault>)
    requires RootsDistinct(st.roots) && RoundTripReady(env, files, rows, st, id, revision, faults, faults')
    requires Concludes(rows, st, rows', st', id, now, result, Completed)
    requires result.revision == revision + Steps(env, ApprovePlan(st, id, revision).value)
    requires var plan := ApprovePlan(st, id, revision).value; MovedFiles(env, files, there, plan.from, plan.to)
    ensures UndoSucceeds(env, there, rows', st', id, result.revision, faults')
    ensures |TerminalIds(rows') + {id}| <= MAX_TERMINAL
  {
    hide Concludes;
    hide FoldUnique;
    hide FoldTaken;
    hide MovedFiles;
    var plan := ApprovePlan(st, id, revision).value;
    OneMore(TerminalIds(rows), id);
    EntryEnds(rows, st, rows', st', id, now, result, Completed);
    SubsetCount(TerminalIds(rows') + {id}, TerminalIds(rows) + {id});
    ItemEnds(rows, st, rows', st', id, now, result, Completed);
    PlanBack(st, st', id, revision, result);
    WayBackIsOpen(env, files, there, plan);
  }

  lemma RoundTripEnds(
      env: Env, files: Files, there: Files, rows: Rows, rows': Rows, st: State, st': State, id: Id, revision: nat, now: int,
      result: Proposal, faults: set<Fault>, faults': set<Fault>)
    requires RootsDistinct(st.roots) && AllApart(st.proposals)
    requires ApproveSucceeds(env, files, rows, st, id, revision, faults)
    requires UndoSucceeds(env, there, rows', st', id, result.revision, faults')
    requires Concludes(rows, st, rows', st', id, now, result, Completed)
    requires result.revision == revision + Steps(env, ApprovePlan(st, id, revision).value)
    requires var plan := ApprovePlan(st, id, revision).value; MovedFiles(env, files, there, plan.from, plan.to)
    ensures result.revision == revision + 4
    ensures var back := UndoPlan(st', id, result.revision).value;
            back.from in there && Rename(there, back.from, back.to) == files
  {
    hide Concludes;
    hide MovedFiles;
    hide FoldTaken;
    ReturnPlan(st, st', id, revision, result, rows, rows', now);
    ThereAndBack(env, files, there, ApprovePlan(st, id, revision).value);
  }

  lemma OneMore<T>(s: set<T>, x: T)
    ensures |s + {x}| <= |s| + 1
  {
    if x in s {
      assert s + {x} == s;
    }
  }

  /** After an approve, undoing the same item plans the same move backwards. */
  lemma ReturnPlan(
      st: State, st': State, id: Id, revision: nat, result: Proposal, rows: Rows, rows': Rows, now: int)
    requires RootsDistinct(st.roots) && AllApart(st.proposals) && ApprovePlan(st, id, revision).Ok?
    requires Concludes(rows, st, rows', st', id, now, result, Completed)
    ensures var forth, back := ApprovePlan(st, id, revision).value, UndoPlan(st', id, result.revision);
            back.Ok? ==> back.value.from == forth.to && back.value.to == forth.from
  {
    hide Concludes;
    hide Marked;
    hide PruneItems;
    if Has(st'.proposals, id) {
      ItemAfter(st, st', id, result, rows, rows', now);
      var item := Item(st.proposals, id);
      QueueProofs.RolesAgree(st.roots, item.sourceRoot, WatchedRole);
    }
  }

  lemma ItemAfter(st: State, st': State, id: Id, result: Proposal, rows: Rows, rows': Rows, now: int)
    requires AllApart(st.proposals) && Has(st.proposals, id) && Has(st'.proposals, id)
    requires Concludes(rows, st, rows', st', id, now, result, Completed)
    ensures st'.roots == st.roots
    ensures Item(st'.proposals, id) == Item(st.proposals, id).(revision := result.revision, status := result.status)
  {
    var settled: Rows, between: State :|
      && Settles(rows, st, settled, between, id, now, result.revision, Completed, result.status)
      && Has(between.proposals, id) && result == Item(between.proposals, id)
      && DistinctRowids(settled) && rows' == Retained(settled, now, 10000, 2592000)
      && st' == between.(proposals := PruneItems(between.proposals));
    PrunedItem(st.proposals, id, result.revision, result.status);
  }

  lemma PrunedItem(items: seq<Proposal>, id: Id, revision: nat, status: Status)
    requires AllApart(items) && Has(items, id)
    requires Has(PruneItems(Marked(items, id, revision, status)), id)
    ensures Item(PruneItems(Marked(items, id, revision, status)), id)
         == Item(items, id).(revision := revision, status := status)
  {
    var marked := Marked(items, id, revision, status);
    var n := Machine.Finished(marked);
    DropFinishedWithin(marked, if n > MAX_TERMINAL then n - MAX_TERMINAL else 0);
    MarkedItem(items, id, revision, status);
    var kept := Item(PruneItems(marked), id);
    assert kept in PruneItems(marked);
    var k :| 0 <= k < |marked| && marked[k] == kept;
    var p := Position(items, id);
    var x, y := items[k], items[p];
    assert k < p ==> Apart(x, y);
    assert p < k ==> Apart(y, x);
  }

  lemma {:induction false} DropFinishedWithin(items: seq<Proposal>, remove: nat)
    ensures forall p <- DropFinished(items, remove) :: p in items
    decreases |items|
  {
    if items != [] {
      DropFinishedWithin(items[1..], if FinishedItem(items[0]) && remove > 0 then remove - 1 else remove);
    }
  }

  /** The row and the item in memory have reached these final states, and no other has changed. */
  ghost predicate Settles(
      rows: Rows, st: State, rows': Rows, st': State, id: Id, now: int, revision: nat, row: JState, item: Status)
  {
    && id in rows && id in rows'
    && rows' == rows[id := rows'[id]]
    && rows'[id].state == row && rows'[id].revision == revision && rows'[id].updatedAt == now
    && st' == st.(proposals := Marked(st.proposals, id, revision, item))
  }

  lemma ItIsSettled(
      rows: Rows, st: State, rows': Rows, st': State, id: Id, now: int, revision: nat, row: JState, item: Status)
    requires id in rows && rows' == rows[id := Moved(rows[id], row, now)] && revision == rows[id].revision + 1
    requires st' == st.(proposals := Marked(st.proposals, id, revision, item))
    ensures Settles(rows, st, rows', st', id, now, revision, row, item)
  {
  }

  lemma ItMayBeIgnored(rows: Rows, id: Id)
    ensures id in rows ==> (Allowed(rows[id].state, Ignored) <==> rows[id].state.Proposed?)
  {
  }

  lemma RowSettles(
      rows: Rows, rows1: Rows, rows2: Rows, st2: State, st: State, id: Id, now: int, revision: nat, row: JState, item: Status)
    requires id in rows && id in rows1 && rows1 == rows[id := rows1[id]]
    requires Settles(rows1, st, rows2, st2, id, now, revision, row, item)
    ensures Settles(rows, st, rows2, st2, id, now, revision, row, item)
  {
  }

  lemma SettlesOn(
      rows: Rows, st: State, r1: nat, row1: JState, item1: Status, rows1: Rows, st1: State,
      r2: nat, row2: JState, item2: Status, rows2: Rows, st2: State, id: Id, now: int)
    requires Settles(rows, st, rows1, st1, id, now, r1, row1, item1)
    requires Settles(rows1, st1, rows2, st2, id, now, r2, row2, item2)
    ensures Settles(rows, st, rows2, st2, id, now, r2, row2, item2)
  {
    MarkedAgain(st.proposals, id, r1, item1, r2, item2);
  }

  const UNDO_FAULTS: set<Fault> := {JournalWrite(Undoing), JournalWrite(Undone), OpenFile, Move, SyncMove, Reopen}

  const OPEN_FAULTS: set<Fault> := {LoadState, SaveBefore, SaveAfter} + RETAIN_FAULTS + SETTLE_FAULTS

  const SETTLE_FAULTS: set<Fault> := {JournalWrite(Completed), JournalWrite(NeedsAttention)}

  /** Every revision has a successor that fits the table. */
  predicate RoomToSettle(rows: Rows) {
    forall id <- rows :: rows[id].revision < MAX_I64
  }

  const RETAIN_FAULTS: set<Fault> := {DropOldRows, DropManyRows, JournalTooBig}

  const CONCLUDE_FAULTS: set<Fault> := {SaveBefore, SaveAfter} + RETAIN_FAULTS

  /** Everything an approve needs. */
  predicate CanApprove(env: Env, files: Files, rows: Rows, id: Id, revision: nat, plan: Plan)
    requires plan.from != [] && plan.to != []
  {
    && plan.from in files && TargetReady(env, files, plan) && SourceReady(env, files, id, plan)
    && RowReady(rows, id, revision, Proposed, Steps(env, plan))
  }

  /** Carrying this plan through succeeds. */
  predicate ApproveWorks(env: Env, files: Files, rows: Rows, id: Id, revision: nat, plan: Plan, faults: set<Fault>) {
    && plan.from != [] && plan.to != [] && CanApprove(env, files, rows, id, revision, plan)
    && OpenSource !in faults && faults !! ApproveFaults(env, plan) && faults !! CONCLUDE_FAULTS
  }

  predicate ApproveSucceeds(
      env: Env, files: Files, rows: Rows, st: State, id: Id, revision: nat, faults: set<Fault>)
  {
    var plan := ApprovePlan(st, id, revision);
    plan.Ok? && ApproveWorks(env, files, rows, id, revision, plan.value, faults)
  }

  // ---------------------------------------------------------------- plans, on the fields of items and roots

  /** The item at this revision has a destination and both its roots are registered for their part: it goes from its
      path below the watched root to its name in its directory below the destination root. */
  ghost predicate ToApprove(st: State, id: Id, revision: nat, plan: Plan) {
    exists item, source, target :: item in st.proposals && source in st.roots && target in st.roots
      && item.id == id && item.revision == revision && item.relative != [] && item.destination.Some?
      && source.id == item.sourceRoot && source.watched
      && target.id == item.destination.value.root && target.destination
      && plan.from == source.path + item.relative
      && plan.to == target.path + DirectoryPath(item.destination.value.directory) + [item.name]
      && plan.expected == item.identity && plan.from != [] && plan.to != []
  }

  /** Why there is nothing to approve. */
  ghost predicate IsRefused(st: State, id: Id, revision: nat, error: ServiceError) {
    match error
    case NoSuchItem => forall item <- st.proposals :: item.id != id
    case StaleRevision => exists item :: item in st.proposals && item.id == id && item.revision != revision
    case DestinationRequired =>
      exists item :: item in st.proposals && item.id == id && item.revision == revision && item.destination.None?
    case UnsafePath =>
      exists item :: item in st.proposals && item.id == id && item.revision == revision && item.destination.Some?
        && (item.relative == []
            || (forall root <- st.roots :: !(root.id == item.sourceRoot && root.watched))
            || (forall root <- st.roots :: !(root.id == item.destination.value.root && root.destination)))
    case _ => false
  }

  /** The completed item at this revision goes back from its name in its directory to its path below the root it
      came from, watched or not. */
  ghost predicate ToUndo(st: State, id: Id, revision: nat, plan: Plan) {
    exists item, source, target :: item in st.proposals && source in st.roots && target in st.roots
      && item.id == id && item.revision == revision && item.status == SCompleted
      && item.relative != [] && item.destination.Some?
      && source.id == item.sourceRoot
      && target.id == item.destination.value.root && target.destination
      && plan.from == target.path + DirectoryPath(item.destination.value.directory) + [item.name]
      && plan.to == source.path + item.relative
      && plan.expected == item.identity && plan.from != [] && plan.to != []
  }

  /** Why there is nothing to undo. */
  ghost predicate CannotUndo(st: State, id: Id, revision: nat, error: ServiceError) {
    match error
    case NoSuchItem => forall item <- st.proposals :: item.id != id
    case StaleRevision =>
      exists item :: item in st.proposals && item.id == id && (item.revision != revision || item.status != SCompleted)
    case DestinationRequired =>
      exists item :: item in st.proposals && item.id == id && item.revision == revision && item.status == SCompleted
        && item.relative != [] && (exists root <- st.roots :: root.id == item.sourceRoot) && item.destination.None?
    case UnsafePath =>
      exists item :: item in st.proposals && item.id == id && item.revision == revision && item.status == SCompleted
        && (item.relative == []
            || (forall root <- st.roots :: root.id != item.sourceRoot)
            || (item.destination.Some?
                && forall root <- st.roots :: !(root.id == item.destination.value.root && root.destination)))
    case _ => false
  }

  lemma ItemIsFound(items: seq<Proposal>, item: Proposal)
    requires AllApart(items) && item in items
    ensures Has(items, item.id) && Item(items, item.id) == item
  {
    var i :| 0 <= i < |items| && items[i] == item;
    assert Has(items, item.id);
    OnlyOne(items, Item(items, item.id), item);
  }

  /** What the program works out is what the fields say. */
  lemma PlansToApprove(st: State, id: Id, revision: nat)
    requires RootsDistinct(st.roots) && AllApart(st.proposals)
    ensures forall plan :: ToApprove(st, id, revision, plan) <==> ApprovePlan(st, id, revision) == Ok(plan)
    ensures forall error :: IsRefused(st, id, revision, error) <==> ApprovePlan(st, id, revision) == Err(error)
  {
    forall plan ensures ToApprove(st, id, revision, plan) <==> ApprovePlan(st, id, revision) == Ok(plan) {
      if ToApprove(st, id, revision, plan) {
        OnlyApprovePlan(st, id, revision, plan);
      }
      if ApprovePlan(st, id, revision) == Ok(plan) {
        ApprovePlanIsMeant(st, id, revision, plan);
      }
    }
    forall error ensures IsRefused(st, id, revision, error) <==> ApprovePlan(st, id, revision) == Err(error) {
      WhyNotApprove(st, id, revision, error);
    }
  }

  lemma OnlyApprovePlan(st: State, id: Id, revision: nat, plan: Plan)
    requires RootsDistinct(st.roots) && AllApart(st.proposals) && ToApprove(st, id, revision, plan)
    ensures ApprovePlan(st, id, revision) == Ok(plan)
  {
    hide DirectoryPath;
    var item, source, target :| item in st.proposals && source in st.roots && target in st.roots
      && item.id == id && item.revision == revision && item.relative != [] && item.destination.Some?
      && source.id == item.sourceRoot && source.watched
      && target.id == item.destination.value.root && target.destination
      && plan.from == source.path + item.relative
      && plan.to == target.path + DirectoryPath(item.destination.value.directory) + [item.name]
      && plan.expected == item.identity && plan.from != [] && plan.to != [];
    ItemIsFound(st.proposals, item);
    MemberIsFound(st.roots, source, WatchedRole);
    MemberIsFound(st.roots, target, DestinationRole);
    hide RootsDistinct;
    hide AllApart;
  }

  lemma ApprovePlanIsMeant(st: State, id: Id, revision: nat, plan: Plan)
    requires ApprovePlan(st, id, revision) == Ok(plan)
    ensures ToApprove(st, id, revision, plan)
  {
    hide DirectoryPath;
    var item := Item(st.proposals, id);
    assert item in st.proposals;
  }

  lemma PlansToUndo(st: State, id: Id, revision: nat)
    requires RootsDistinct(st.roots) && AllApart(st.proposals)
    ensures forall plan :: ToUndo(st, id, revision, plan) <==> UndoPlan(st, id, revision) == Ok(plan)
    ensures forall error :: CannotUndo(st, id, revision, error) <==> UndoPlan(st, id, revision) == Err(error)
  {
    forall plan ensures ToUndo(st, id, revision, plan) <==> UndoPlan(st, id, revision) == Ok(plan) {
      if ToUndo(st, id, revision, plan) {
        OnlyUndoPlan(st, id, revision, plan);
      }
      if UndoPlan(st, id, revision) == Ok(plan) {
        UndoPlanIsMeant(st, id, revision, plan);
      }
    }
    forall error ensures CannotUndo(st, id, revision, error) <==> UndoPlan(st, id, revision) == Err(error) {
      WhyNotUndo(st, id, revision, error);
    }
  }

  lemma OnlyUndoPlan(st: State, id: Id, revision: nat, plan: Plan)
    requires RootsDistinct(st.roots) && AllApart(st.proposals) && ToUndo(st, id, revision, plan)
    ensures UndoPlan(st, id, revision) == Ok(plan)
  {
    hide DirectoryPath;
    var item, source, target :| item in st.proposals && source in st.roots && target in st.roots
      && item.id == id && item.revision == revision && item.status == SCompleted
      && item.relative != [] && item.destination.Some?
      && source.id == item.sourceRoot
      && target.id == item.destination.value.root && target.destination
      && plan.from == target.path + DirectoryPath(item.destination.value.directory) + [item.name]
      && plan.to == source.path + item.relative
      && plan.expected == item.identity && plan.from != [] && plan.to != [];
    ItemIsFound(st.proposals, item);
    MemberIsFound(st.roots, source, AnyRole);
    MemberIsFound(st.roots, target, DestinationRole);
    hide RootsDistinct;
    hide AllApart;
  }

  lemma UndoPlanIsMeant(st: State, id: Id, revision: nat, plan: Plan)
    requires UndoPlan(st, id, revision) == Ok(plan)
    ensures ToUndo(st, id, revision, plan)
  {
    hide DirectoryPath;
    var item := Item(st.proposals, id);
    assert item in st.proposals;
  }

  lemma WhyNotUndo(st: State, id: Id, revision: nat, error: ServiceError)
    requires RootsDistinct(st.roots) && AllApart(st.proposals)
    ensures CannotUndo(st, id, revision, error) <==> UndoPlan(st, id, revision) == Err(error)
  {
    hide DirectoryPath;
    hide RootsDistinct;
    if Has(st.proposals, id) {
      var item := Item(st.proposals, id);
      forall other | other in st.proposals && other.id == id ensures other == item {
        OnlyOne(st.proposals, other, item);
      }
      assert item in st.proposals;
    }
  }

  lemma WhyNotApprove(st: State, id: Id, revision: nat, error: ServiceError)
    requires RootsDistinct(st.roots) && AllApart(st.proposals)
    ensures IsRefused(st, id, revision, error) <==> ApprovePlan(st, id, revision) == Err(error)
  {
    hide DirectoryPath;
    hide RootsDistinct;
    if Has(st.proposals, id) {
      var item := Item(st.proposals, id);
      forall other | other in st.proposals && other.id == id ensures other == item {
        OnlyOne(st.proposals, other, item);
      }
      assert item in st.proposals;
    }
  }

  /** Everything an undo needs. */
  predicate CanUndo(env: Env, files: Files, rows: Rows, id: Id, revision: nat, plan: Plan)
    requires plan.from != [] && plan.to != []
  {
    && SameDevice(env, plan.from, plan.to) && TargetReady(env, files, plan)
    && RowReady(rows, id, revision, Completed, 2)
    && Shows(env, files, plan.from, plan.expected)
  }

  /** Carrying this undo through succeeds. */
  predicate UndoWorks(env: Env, files: Files, rows: Rows, id: Id, revision: nat, plan: Plan, faults: set<Fault>) {
    && plan.from != [] && plan.to != [] && CanUndo(env, files, rows, id, revision, plan)
    && ListFolder !in faults && OpenSource !in faults && faults !! UNDO_FAULTS && faults !! CONCLUDE_FAULTS
  }

  predicate UndoSucceeds(env: Env, files: Files, rows: Rows, st: State, id: Id, revision: nat, faults: set<Fault>) {
    var plan := UndoPlan(st, id, revision);
    plan.Ok? && UndoWorks(env, files, rows, id, revision, plan.value, faults)
  }

  /** The item ends as reported, its row (unless retention already dropped it) in the given state at
      the reported revision, and nothing else changes but what pruning and retention remove. */
  ghost predicate Concludes(
      rows: Rows, st: State, rows': Rows, st': State, id: Id, now: int, result: Proposal, row: JState)
  {
    exists settled: Rows, between: State ::
      && Settles(rows, st, settled, between, id, now, result.revision, row, result.status)
      && Has(between.proposals, id) && result == Item(between.proposals, id) && result.status == StatusOf(row)
      && DistinctRowids(settled) && rows' == Retained(settled, now, 10000, 2592000)
      && st' == between.(proposals := PruneItems(between.proposals))
  }

  lemma ItSettled(rows: Rows, st: State, rows': Rows, st': State, id: Id, now: int, revision: nat, row: JState, item: Status)
    requires Has(st.proposals, id) && Settles(rows, st, rows', st', id, now, revision, row, item)
    ensures Has(st'.proposals, id) && Item(st'.proposals, id).revision == revision
  {
    MarkedItem(st.proposals, id, revision, item);
  }

  lemma ItConcludes(
      rows: Rows, st: State, settled: Rows, between: State, rows': Rows, st': State, id: Id, now: int, revision: nat, row: JState)
    requires Has(st.proposals, id) && Settles(rows, st, settled, between, id, now, revision, row, StatusOf(row))
    requires DistinctRowids(settled) && rows' == Retained(settled, now, 10000, 2592000)
    requires st' == between.(proposals := PruneItems(between.proposals))
    ensures Has(between.proposals, id)
    ensures var result := Item(between.proposals, id);
            result.revision == revision && Concludes(rows, st, rows', st', id, now, result, row)
  {
    hide Retained;
    hide PruneItems;
    MarkedItem(st.proposals, id, revision, StatusOf(row));
  }

  /** The status of an item whose entry ends in this state. */
  function StatusOf(row: JState): Status {
    match row
    case Completed => SCompleted
    case Undone => SUndone
    case Ignored => SIgnored
    case Proposed => SProposed
    case _ => SNeedsAttention
  }

  lemma MarkedItem(items: seq<Proposal>, id: Id, revision: nat, status: Status)
    requires Has(items, id)
    ensures var marked := Marked(items, id, revision, status);
            Has(marked, id) && Item(marked, id) == Item(items, id).(revision := revision, status := status)
  {
    MarkedPosition(items, id, revision, status);
  }

  /** Journal changes of a completed approve. */
  function Steps(env: Env, plan: Plan): nat
    requires plan.from != [] && plan.to != []
  {
    if SameDevice(env, plan.from, plan.to) then 4 else 5
  }

  /** The source is the approved file, and a copy of it can be staged if one is needed. */
  predicate SourceReady(env: Env, files: Files, id: Id, plan: Plan)
    requires plan.from != [] && plan.to != []
  {
    && Shows(env, files, plan.from, plan.expected)
    && (!SameDevice(env, plan.from, plan.to) ==>
          && StageFor(plan.to, id) !in files && StageFor(plan.to, id) != plan.to
          && HexDigest(Hash(env, files[plan.from].bytes)))
  }

  predicate MovedFiles(env: Env, before: Files, files: Files, from: Path, to: Path)
    requires from != [] && to != []
  {
    && from in before
    && if SameDevice(env, from, to) then files == (before - {from})[to := before[from]]
       else
         && to in files && IsTwin(before[from], files[to])
         && files == (before - {from})[to := files[to]]
  }

  /** The calls whose failure stops the files from moving. */
  function PathFaults(env: Env, plan: Plan): set<Fault>
    requires plan.from != [] && plan.to != []
  {
    if SameDevice(env, plan.from, plan.to) then {OpenFile, Move, SyncMove, Reopen, JournalWrite(Published)} else CROSS_FAULTS
  }

  const CHECK_FAULTS: set<Fault> := {StatFolder, ListFolder, JournalWrite(Approved)}

  function LandFaults(env: Env, plan: Plan): set<Fault>
    requires plan.from != [] && plan.to != []
  {
    {JournalWrite(SourceRemoved), JournalWrite(Completed)} + PathFaults(env, plan)
  }

  function ApproveFaults(env: Env, plan: Plan): set<Fault>
    requires plan.from != [] && plan.to != []
  {
    CHECK_FAULTS + LandFaults(env, plan)
  }

  const CROSS_FAULTS: set<Fault> := {
    JournalWrite(Copying), CreateFile, ReadFile, WriteFile, SyncFile, Reopen, DigestWrite,
    PublishCall, SyncPublish, VerifyCall, JournalWrite(Published), Unlink, SyncUnlink}
}
