/** What every run does, and never does, to watched files. */
module FileTheorems {
  import opened Model
  import opened Journals
  import opened Machine
  import opened Invariants
  import opened FlightProofs

  // ---------------------------------------------------------------- durable intent, no overwrite

  /** A file changes only while the journal durably says that a move is under way. An approved move runs
      between exactly the two paths recorded in its row, and an undo runs back to the recorded source, so a
      stale queue never sends a file anywhere else; from where an undo takes it, UndoTheorems says. */
  lemma DurableIntent(env: Env, prev: Run, a: Action)
    requires Legal(env, prev) && Enabled(env, prev.Last(), a) && !a.Outside?
    requires Apply(env, prev.Last(), a).files != prev.Last().files
    ensures InFlight(prev.Last()) && Announced(prev.Last(), FlightOf(prev.Last()))
  {
    if !a.File? {
      OnlyFileStepsWrite(env, prev.Last(), a);
    }
    FlightHolds(env, prev);
    StepIsRecorded(env, prev.Last(), a.step);
  }

  /** The journal durably says that this move, along these two paths, is under way. */
  predicate Announced(w: World, f: Flight) {
    && f.id in w.rows
    && var row := w.rows[f.id];
    && (f.kind.Approve? ==> row.source == f.from && row.dest == f.to
                            && (row.state.Approved? || row.state.Copying? || row.state.Published?))
    && (f.kind.Undo? ==> row.state.Undoing? && row.source == f.to)
  }

  lemma StepIsRecorded(env: Env, w: World, step: FileStep)
    requires Enabled(env, w, File(step)) && FlightInv(env, w, FlightOf(w))
    requires Apply(env, w, File(step)).files != w.files
    ensures Announced(w, FlightOf(w))
  {
  }

  /** The file at this path goes to the target of the move under way. */
  predicate Relocated(w: World, w': World, p: Path)
    requires p in w.files && InFlight(w)
  {
    var f := FlightOf(w);
    p !in w'.files && f.to in w'.files && w'.files[f.to] == w.files[p]
  }

  /** A step of the service leaves this path alone; or takes its file to the target, because it is the
      source or the recorded staging file; or unlinks it, because it is the source of a verified copy; or
      writes it, because it is the very staging file the service has open. */
  predicate OwnChange(w: World, w': World, p: Path)
    requires p in w.files
  {
    || AgreeAt(w'.files, w.files, p)
    || (InFlight(w) &&
        var f := FlightOf(w);
        && f.to != []
        && ((p == f.from && Relocated(w, w', p))
            || (p == f.from && p !in w'.files && f.phase.Placed? && f.phase.verified)
            || (p == StagePath(f) && f.phase.Recorded? && Relocated(w, w', p)
                && (p !in f.touched ==> w.files[p] == f.phase.copy))
            || (p == StagePath(f) && f.phase.Staging? && f.phase.copy.Regular?
                && StillNames(w.files, p, f.phase.copy.inode)
                && (p !in f.touched ==> w.files[p] == f.phase.copy))))
  }

  /** Whatever other processes do, no step of the service alters an occupied path otherwise: nothing is
      ever overwritten. */
  lemma NoOverwrite(env: Env, prev: Run, a: Action, p: Path)
    requires Legal(env, prev) && Enabled(env, prev.Last(), a) && !a.Outside?
    requires p in prev.Last().files
    ensures OwnChange(prev.Last(), Apply(env, prev.Last(), a), p)
  {
    if a.File? {
      FlightHolds(env, prev);
      StepOverwritesNothing(env, prev.Last(), a.step, p);
    } else {
      OnlyFileStepsWrite(env, prev.Last(), a);
    }
  }

  lemma StepOverwritesNothing(env: Env, w: World, step: FileStep, p: Path)
    requires Enabled(env, w, File(step)) && FlightInv(env, w, FlightOf(w)) && p in w.files
    ensures OwnChange(w, Apply(env, w, File(step)), p)
  {
    hide PlanInv;
    hide FoldTaken;
    hide HasDigest;
    assert p !in FlightOf(w).touched ==> AgreeAt(w.files, Expect(FlightOf(w)), p);
  }

  // ---------------------------------------------------------------- truth wherever a move stops

  predicate HoldsCopy(files: Files, before: Files, from: Path, to: Path) {
    && from in before && before[from].Regular?
    && to in files && files[to].Regular? && files[to].bytes == before[from].bytes
  }

  predicate Untouched(files: Files, before: Files, p: Path) {
    p in before && p in files && files[p] == before[p]
  }

  /** What each journal state of an approved move says about the files. */
  predicate Truth(files: Files, before: Files, from: Path, to: Path, s: JState) {
    match s
    case Approved =>
      (Untouched(files, before, from) && to !in files) || (from !in files && from in before && to in files && files[to] == before[from])
    case Copying => Untouched(files, before, from) && (to !in files || HoldsCopy(files, before, from, to))
    case Published => HoldsCopy(files, before, from, to)
    case SourceRemoved => from !in files && HoldsCopy(files, before, from, to)
    case Completed => from !in files && HoldsCopy(files, before, from, to)
    case _ => false
  }

  /** A staging name chosen as the target itself exposes an unfinished copy there. */
  predicate Exposed(f: Flight)
    requires f.to != []
  {
    f.phase.Staging? && f.to == StagePath(f) && f.phase.copy.Regular?
    && f.from in f.before && f.before[f.from].Regular? && f.phase.copy.bytes != f.before[f.from].bytes
  }

  /** The target lies on another file system and bears the name of the staging file. */
  predicate CopiesOntoStage(env: Env, f: Flight) {
    f.from != [] && f.to != [] && !SameDevice(env, f.from, f.to) && f.to == StagePath(f)
  }

  /** The journal state is true of the files exactly when no unfinished copy is exposed. */
  lemma FlightIsTrue(env: Env, w: World)
    requires InFlight(w) && FlightOf(w).kind.Approve? && FlightOf(w).touched == {} && Committed(FlightOf(w))
    requires FlightInv(env, w, FlightOf(w))
    ensures var f := FlightOf(w);
            f.id in w.rows
            && (Truth(w.files, f.before, f.from, f.to, w.rows[f.id].state) <==> !Exposed(f))
            && (Exposed(f) ==> CopiesOntoStage(env, f))
  {
    var f := FlightOf(w);
    SameFiles(w.files, Expect(f));
    if !SameDevice(env, f.from, f.to) {
      StageIsNotSource(env, f);
    }
  }

  lemma OthersUnchanged(env: Env, w: World)
    requires InFlight(w) && FlightOf(w).touched == {} && FlightInv(env, w, FlightOf(w))
    ensures var f := FlightOf(w);
            forall p :: p != f.from && p != f.to && p != StagePath(f) ==> AgreeAt(w.files, f.before, p)
  {
    SameFiles(w.files, Expect(FlightOf(w)));
  }

  /** With no other writer, wherever an approve stops (after any step of it, at an error or at a
      crash), the journal state it leaves is true of the files it leaves, and no path but the source,
      the target and the staging file has changed since it began. The one exception is a copy to a
      target that is named like the staging file. */
  lemma ApproveStopsTruthfully(env: Env, prev: Run, a: Action)
    requires Legal(env, prev) && Enabled(env, prev.Last(), a) && !a.Outside?
    requires InFlight(prev.Last()) && FlightOf(prev.Last()).kind.Approve? && FlightOf(prev.Last()).touched == {}
    requires Committed(FlightOf(prev.Last())) || a.Commit?
    requires !CopiesOntoStage(env, FlightOf(prev.Last()))
    ensures var f, w' := FlightOf(prev.Last()), Apply(env, prev.Last(), a);
            && f.id in w'.rows && f.to != []
            && Truth(w'.files, f.before, f.from, f.to, w'.rows[f.id].state)
            && forall p :: p != f.from && p != f.to && p != StagePath(f) ==> AgreeAt(w'.files, f.before, p)
  {
    var w, w' := prev.Last(), Apply(env, prev.Last(), a);
    FlightHolds(env, prev);
    FlightGoesOn(env, w, a);
    StaysCommitted(env, w, a);
    if InFlight(w') {
      FlightHolds(env, Then(prev, a, w'));
      FlightIsTrue(env, w');
      OthersUnchanged(env, w');
    } else {
      FlightIsTrue(env, w);
      OthersUnchanged(env, w);
      LandingIsTrue(env, w, a);
    }
  }

  lemma StaysCommitted(env: Env, w: World, a: Action)
    requires Enabled(env, w, a) && !a.Outside? && InFlight(w) && (Committed(FlightOf(w)) || a.Commit?)
    ensures var w' := Apply(env, w, a);
            if InFlight(w') then Committed(FlightOf(w')) else Committed(FlightOf(w))
  {
  }

  lemma LandingIsTrue(env: Env, w: World, a: Action)
    requires Enabled(env, w, a) && InFlight(w) && !InFlight(Apply(env, w, a)) && !a.Outside?
    requires FlightOf(w).kind.Approve?
    requires var f := FlightOf(w); f.id in w.rows && Truth(w.files, f.before, f.from, f.to, w.rows[f.id].state)
    ensures var f, w' := FlightOf(w), Apply(env, w, a);
            f.id in w'.rows && Truth(w'.files, f.before, f.from, f.to, w'.rows[f.id].state)
  {
    match a
    case Commit(next, now) => CompletionIsTrue(env, w, next, now);
    case Abort =>
    case Crash =>
    case File(step) => FlightGoesOn(env, w, a);
    case CheckFree => FlightGoesOn(env, w, a);
  }

  lemma CompletionIsTrue(env: Env, w: World, next: JState, now: int)
    requires InFlight(w) && CanCommit(env, w, next) && !InFlight(AfterCommit(w, next, now)) && FlightOf(w).kind.Approve?
    requires var f := FlightOf(w); f.id in w.rows && Truth(w.files, f.before, f.from, f.to, w.rows[f.id].state)
    ensures var f, w' := FlightOf(w), AfterCommit(w, next, now);
            w'.files == w.files && f.id in w'.rows && Truth(w.files, f.before, f.from, f.to, w'.rows[f.id].state)
  {
  }

  /** The file that was at `from` is, unchanged, at exactly one of the two paths. */
  predicate HeldOnce(files: Files, before: Files, from: Path, to: Path) {
    || (Untouched(files, before, from) && to !in files)
    || (from !in files && from in before && to in files && files[to] == before[from])
  }

  /** The undo holds the file at exactly one of its paths if and only if it found one to begin with; Undone
      means that the approved file is back. */
  predicate UndoTruth(env: Env, files: Files, f: Flight, s: JState)
    requires f.from != [] && f.to != []
  {
    && (HeldOnce(files, f.before, f.from, f.to) <==> f.from in f.before)
    && (s.Undone? ==> f.from !in files && IdentityAt(env, files, f.to) == Ok(f.expected))
  }

  lemma UndoIsTrue(env: Env, w: World)
    requires InFlight(w) && FlightOf(w).kind.Undo? && FlightOf(w).touched == {} && !FlightOf(w).phase.Opened?
    requires FlightInv(env, w, FlightOf(w))
    ensures UndoTruth(env, w.files, FlightOf(w), Undoing)
    ensures FlightOf(w).phase.Renamed? && FlightOf(w).phase.verified ==> UndoTruth(env, w.files, FlightOf(w), Undone)
    ensures var f := FlightOf(w); forall p :: p != f.from && p != f.to ==> AgreeAt(w.files, f.before, p)
  {
    SameFiles(w.files, Expect(FlightOf(w)));
  }

  /** With no other writer, wherever an undo stops, the file is at exactly one of the path it started from and
      the original path if and only if it was at the former when the undo began; nothing else has changed;
      and a commit of Undone finds the file with the approved identity back at the original path. */
  lemma UndoStopsSafely(env: Env, prev: Run, a: Action)
    requires Legal(env, prev) && Enabled(env, prev.Last(), a) && !a.Outside?
    requires InFlight(prev.Last()) && FlightOf(prev.Last()).kind.Undo? && FlightOf(prev.Last()).touched == {}
    requires !FlightOf(prev.Last()).phase.Opened?
    ensures var f, w' := FlightOf(prev.Last()), Apply(env, prev.Last(), a);
            && f.from != [] && f.to != []
            && UndoTruth(env, w'.files, f, if a.Commit? then a.next else Undoing)
            && (forall p :: p != f.from && p != f.to ==> AgreeAt(w'.files, f.before, p))
  {
    var w, w' := prev.Last(), Apply(env, prev.Last(), a);
    FlightHolds(env, prev);
    FlightGoesOn(env, w, a);
    UndoIsTrue(env, w);
    if InFlight(w') {
      FlightHolds(env, Then(prev, a, w'));
      UndoIsTrue(env, w');
    }
  }

  // ---------------------------------------------------------------- conservation

  ghost function Holders(files: Files, bytes: seq<Byte>): set<Path> {
    set p | p in files && files[p].Regular? && files[p].bytes == bytes
  }

  /** Replacing one holder by a new one keeps the number of holders. */
  lemma SwapKeepsCount<T>(a: set<T>, b: set<T>, gone: T, come: T)
    requires a - {gone} + (if gone in a then {come} else {}) <= b && come !in a
    ensures |a| <= |b|
  {
    var c := a - {gone} + (if gone in a then {come} else {});
    if gone !in a {
      assert a - {gone} == a;
      assert c == a;
    }
    SubsetCount(c, b);
  }

  /** A file that takes another's place and content. */
  lemma ReplacingConserves(before: Files, from: Path, to: Path, copy: Node, bytes: seq<Byte>)
    requires from in before && to !in before
    requires before[from].Regular? ==> copy.Regular? && copy.bytes == before[from].bytes
    ensures |Holders(before, bytes)| <= |Holders((before - {from})[to := copy], bytes)|
  {
    SwapKeepsCount(Holders(before, bytes), Holders((before - {from})[to := copy], bytes), from, to);
  }

  lemma AddingConserves(before: Files, p: Path, copy: Node, bytes: seq<Byte>)
    requires p !in before
    ensures |Holders(before, bytes)| <= |Holders(before[p := copy], bytes)|
  {
    SubsetCount(Holders(before, bytes), Holders(before[p := copy], bytes));
  }

  lemma FlightConserves(env: Env, w: World, bytes: seq<Byte>)
    requires InFlight(w) && FlightOf(w).touched == {} && FlightInv(env, w, FlightOf(w))
    ensures |Holders(FlightOf(w).before, bytes)| <= |Holders(w.files, bytes)|
  {
    hide Holders;
    hide IdentityAt;
    var f := FlightOf(w);
    SameFiles(w.files, Expect(f));
    match f.phase
    case Opened =>
    case Clear =>
    case Ready =>
    case Renamed(copy, _) => ReplacingConserves(f.before, f.from, f.to, copy, bytes);
    case Staging(copy) => AddingConserves(f.before, StagePath(f), copy, bytes);
    case Sealed(copy) => AddingConserves(f.before, StagePath(f), copy, bytes);
    case Recorded(copy) => AddingConserves(f.before, StagePath(f), copy, bytes);
    case Placed(copy, _) => AddingConserves(f.before, f.to, copy, bytes);
    case Retired(copy) =>
      assert f.from != f.to;
      assert w.files == (f.before - {f.from})[f.to := copy];
      ReplacingConserves(f.before, f.from, f.to, copy, bytes);
  }

  /** The file map to compare with: the present one, or the one the move under way began with. */
  ghost function Baseline(w: World): Files {
    if InFlight(w) then FlightOf(w).before else w.files
  }

  lemma BaselineStep(env: Env, w: World, a: Action)
    requires Enabled(env, w, a) && !a.Outside?
    requires InFlight(w) ==> FlightOf(w).touched == {}
    ensures var w' := Apply(env, w, a);
            && (InFlight(w') ==> FlightOf(w').touched == {})
            && (Baseline(w') == Baseline(w) || (InFlight(w) && Baseline(w') == w.files))
  {
    if InFlight(w) {
      FlightGoesOn(env, w, a);
    } else {
      OnlyFileStepsWrite(env, w, a);
    }
  }

  lemma {:induction false} BaselineConserves(env: Env, early: Run, r: Run, bytes: seq<Byte>)
    requires Legal(env, r) && Undisturbed(r, early) && !InFlight(early.Last())
    ensures |Holders(early.Last().files, bytes)| <= |Holders(Baseline(r.Last()), bytes)|
    ensures InFlight(r.Last()) ==> FlightOf(r.Last()).touched == {}
  {
    if r != early {
      BaselineConserves(env, early, r.prev, bytes);
      BaselineStep(env, r.prev.Last(), r.act);
      if InFlight(r.prev.Last()) {
        FlightHolds(env, r.prev);
        FlightConserves(env, r.prev.Last(), bytes);
      }
    }
  }

  /** With no other writer, over any operations, errors, crashes and restarts, the number of paths
      holding given bytes never drops below what it was at any moment no move was under way. */
  lemma Conservation(env: Env, early: Run, r: Run, bytes: seq<Byte>)
    requires Legal(env, r) && Undisturbed(r, early) && !InFlight(early.Last())
    ensures |Holders(early.Last().files, bytes)| <= |Holders(r.Last().files, bytes)|
  {
    BaselineConserves(env, early, r, bytes);
    if InFlight(r.Last()) {
      FlightHolds(env, r);
      FlightConserves(env, r.Last(), bytes);
    }
  }

  // ---------------------------------------------------------------- retirement, case folding

  /** The same move, perhaps at another point of it. */
  predicate SameMove(f: Flight, g: Flight) {
    g == f.(phase := g.phase, touched := g.touched)
  }

  predicate PublishedAndVerified(w: World) {
    InFlight(w) && FlightOf(w).phase.Placed? && FlightOf(w).phase.verified
  }

  predicate DigestIs(w: World, id: Id, sha: Option<Digest>) {
    id in w.rows && w.rows[id].sha == sha
  }

  lemma TakesOffOpened(env: Env, w: World, a: Action)
    requires Enabled(env, w, a) && !InFlight(w) && InFlight(Apply(env, w, a))
    ensures FlightOf(Apply(env, w, a)).phase.Opened?
  {
  }

  lemma VerifiedBeforeCommit(env: Env, w: World, next: JState, now: int)
    requires InFlight(w) && JournalInvOf(env, w) && CanCommit(env, w, next)
    requires PublishedAndVerified(AfterCommit(w, next, now))
    ensures var w' := AfterCommit(w, next, now);
            FlightOf(w') == FlightOf(w) && DigestIs(w', FlightOf(w).id, w.rows[FlightOf(w).id].sha)
  {
    hide Marked;
  }

  lemma VerifiedBeforeStep(env: Env, w: World, step: FileStep)
    requires InFlight(w) && JournalInvOf(env, w) && CanStep(env, w, FlightOf(w), step) && !step.CheckPublished?
    ensures !PublishedAndVerified(AfterStep(env, w, FlightOf(w), step))
  {
    hide JournalInv;
  }

  lemma VerifiedBefore(env: Env, w: World, a: Action)
    requires InFlight(w) && JournalInvOf(env, w) && Enabled(env, w, a)
    requires PublishedAndVerified(Apply(env, w, a)) && a != File(CheckPublished)
    ensures var w' := Apply(env, w, a);
            && PublishedAndVerified(w) && SameMove(FlightOf(w), FlightOf(w'))
            && FlightOf(w).id in w.rows && DigestIs(w', FlightOf(w).id, w.rows[FlightOf(w).id].sha)
  {
    hide CanCommit;
    hide CanStep;
    hide AfterCommit;
    hide AfterStep;
    hide FoldTaken;
    match a
    case Outside(_) =>
    case CheckFree =>
    case Commit(next, now) => VerifiedBeforeCommit(env, w, next, now);
    case File(step) => VerifiedBeforeStep(env, w, step);
    case Crash =>
    case Abort =>
  }

  predicate JournalInvOf(env: Env, w: World)
    requires InFlight(w)
  {
    var f := FlightOf(w);
    f.from != [] && f.to != [] && JournalInv(env, w, f)
  }

  /** Behind a published and verified copy lies an earlier moment of the same move at which the target held
      the recorded digest, whatever other processes have done before and since. */
  lemma {:induction false} PublishedWasVerified(env: Env, r: Run) returns (early: Run)
    requires Legal(env, r) && PublishedAndVerified(r.Last())
    ensures Continues(r, early) && InFlight(early.Last()) && SameMove(FlightOf(early.Last()), FlightOf(r.Last()))
    ensures var f, w := FlightOf(r.Last()), r.Last();
            && RowIs(early.Last(), f.id, Copying) && f.id in w.rows && w.rows[f.id].sha.Some?
            && HasDigest(env, early.Last().files, f.to, w.rows[f.id].sha.value)
  {
    early := r;
    if r.Then? {
      if r.act == File(CheckPublished) {
        early := r.prev;
      } else {
        if InFlight(r.prev.Last()) {
          FlightHolds(env, r.prev);
          VerifiedBefore(env, r.prev.Last(), r.act);
        } else {
          TakesOffOpened(env, r.prev.Last(), r.act);
        }
        early := PublishedWasVerified(env, r.prev);
      }
    }
  }

  /** However other processes interfere, at any time and with any path, the source is unlinked only while it
      is the approved file with the digest that was verified at the target, earlier in the same move; the
      bytes removed are bytes the target was seen to hold, unless these two contents collide. */
  lemma RetirementIsSafe(env: Env, prev: Run) returns (early: Run)
    requires Legal(env, prev) && Enabled(env, prev.Last(), File(Retire))
    ensures Continues(prev, early) && InFlight(early.Last()) && SameMove(FlightOf(early.Last()), FlightOf(prev.Last()))
    ensures var w, f := prev.Last(), FlightOf(prev.Last());
            && RowIs(early.Last(), f.id, Copying) && RowIs(w, f.id, Published) && w.rows[f.id].sha.Some?
            && HasDigest(env, early.Last().files, f.to, w.rows[f.id].sha.value)
            && HasDigest(env, w.files, f.from, w.rows[f.id].sha.value)
            && IdentityAt(env, w.files, f.from) == Ok(f.expected)
            && (NoCollision(env, early.Last().files[f.to].bytes, w.files[f.from].bytes) ==>
                  early.Last().files[f.to].bytes == w.files[f.from].bytes)
  {
    hide FlightInv;
    hide IdentityAt;
    hide Legal;
    hide Hash;
    hide SameDevice;
    early := PublishedWasVerified(env, prev);
  }

  /** If no other process replaced the target during the move, the copy is still there when the source goes. */
  lemma CopyOutlivesSource(env: Env, prev: Run)
    requires Legal(env, prev) && Enabled(env, prev.Last(), File(Retire))
    requires FlightOf(prev.Last()).to !in FlightOf(prev.Last()).touched
    ensures var w, f := prev.Last(), FlightOf(prev.Last());
            && w.rows[f.id].sha.Some?
            && HasDigest(env, w.files, f.to, w.rows[f.id].sha.value)
            && AgreeAt(w.files - {f.from}, w.files, f.to)
            && (NoCollision(env, w.files[f.to].bytes, w.files[f.from].bytes) ==> w.files[f.to].bytes == w.files[f.from].bytes)
  {
    hide FlightInv;
    hide IdentityAt;
    hide Legal;
    hide Hash;
    hide SameDevice;
    FlightHolds(env, prev);
    PublishedHasDigest(env, prev.Last());
  }

  lemma PublishedHasDigest(env: Env, w: World)
    requires InFlight(w) && FlightInv(env, w, FlightOf(w)) && FlightOf(w).phase.Placed? && FlightOf(w).phase.verified
    ensures var f := FlightOf(w);
            && f.from != f.to && f.id in w.rows && w.rows[f.id].sha.Some?
            && (f.to !in f.touched ==> HasDigest(env, w.files, f.to, w.rows[f.id].sha.value))
  {
    hide IdentityAt;
    var f := FlightOf(w);
    StageIsNotSource(env, f);
    assert f.to !in f.touched ==> AgreeAt(w.files, Expect(f), f.to);
  }

  ghost predicate FoldUnique(env: Env, files: Files) {
    forall p, q | p in files && q in files && p != [] && q != [] && Parent(p) == Parent(q) ::
      env.fold(FileName(p)) == env.fold(FileName(q)) ==> p == q
  }

  /** With no other writer, a completed approve or undo leaves no two names of a directory equal under
      case folding if there were none when it began; the staging name does not matter. */
  lemma FoldUniquenessSurvives(env: Env, prev: Run, next: JState, now: int)
    requires Legal(env, prev) && Enabled(env, prev.Last(), Commit(next, now)) && (next.Completed? || next.Undone?)
    requires FlightOf(prev.Last()).touched == {} && FoldUnique(env, FlightOf(prev.Last()).before)
    ensures FoldUnique(env, Apply(env, prev.Last(), Commit(next, now)).files)
  {
    FlightHolds(env, prev);
    LandedFilesAreFoldUnique(env, prev.Last());
    OnlyFileStepsWrite(env, prev.Last(), Commit(next, now));
  }

  lemma LandedFilesAreFoldUnique(env: Env, w: World)
    requires InFlight(w) && FlightInv(env, w, FlightOf(w)) && FlightOf(w).touched == {} && FoldUnique(env, FlightOf(w).before)
    requires FlightOf(w).phase.Renamed? || FlightOf(w).phase.Retired?
    ensures FoldUnique(env, w.files)
  {
    SameFiles(w.files, Expect(FlightOf(w)));
    FoldUniqueSwap(env, FlightOf(w).before, w.files, FlightOf(w).to);
  }

  lemma FoldUniqueSwap(env: Env, before: Files, after: Files, to: Path)
    requires to != [] && FoldUnique(env, before) && !FoldTaken(env, before, to)
    requires forall p :: p in after ==> p in before || p == to
    ensures FoldUnique(env, after)
  {
  }
}
