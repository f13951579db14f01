/** Recovery judges evidence, may be interrupted anywhere, and always ends in the same place. */
module RecoveryTheorems {
  import opened Model
  import opened Journals
  import opened Machine
  import opened Invariants
  import opened FlightProofs
  import opened FileTheorems
  import opened JournalTheorems
  import QueueProofs

  // ---------------------------------------------------------------- where an entry is heading

  /** The verdict on an entry when both looks are taken at these files. */
  function FileVerdict(env: Env, files: Files, items: seq<Proposal>, id: Id, row: Row): Option<JState> {
    Verdict(items, id, row, LooksAt(env, files, items, id, row))
  }

  /** The row, but for its time, that the saved queue and the files settle an entry at. */
  function Settled(env: Env, w: World, id: Id): Row
    requires id in w.rows
  {
    match FileVerdict(env, w.files, w.saved.proposals, id, w.rows[id])
    case None => Timeless(w.rows[id])
    case Some(next) => Timeless(Moved(w.rows[id], next, 0))
  }

  function Timeless(row: Row): Row {
    row.(updatedAt := 0)
  }

  /** The evidence that a move was carried through: the source is gone, and the destination shows a file of the
      size of the item, which has the recorded digest or, where none was recorded, is the very file. */
  predicate Evidence(env: Env, files: Files, items: seq<Proposal>, id: Id, row: Row) {
    && row.source !in files && Has(items, id)
    && var approved := Item(items, id).identity;
    && row.dest != [] && row.dest in files && files[row.dest].Regular?
    && files[row.dest].links == 1 && |files[row.dest].bytes| == approved.size <= 0x1_0000_0000
    && (if row.sha.Some? then Hash(env, files[row.dest].bytes) == row.sha.value else Shows(env, files, row.dest, approved))
  }

  /** What recovery makes of an entry: one in the middle of an operation is flagged, one revision on, unless the
      operation had got as far as removing the source and there is evidence; then it is completed. Any other
      entry stays as it is. */
  predicate IsRecovered(env: Env, files: Files, items: seq<Proposal>, id: Id, before: Row, after: Row) {
    && after.state !in {Approved, Copying, Published, SourceRemoved, Undoing}
    && if before.state in {Approved, Copying, Published, Undoing} then
         after == before.(state := NeedsAttention, revision := before.revision + 1, updatedAt := after.updatedAt)
       else if before.state == SourceRemoved then
         after == before.(state := if Evidence(env, files, items, id, before) then Completed else NeedsAttention,
                          revision := before.revision + 1, updatedAt := after.updatedAt)
       else
         after == before.(updatedAt := after.updatedAt)
  }

  /** The verdicts of recovery, in those words. */
  lemma SettledIsRecovered(env: Env, w: World, id: Id, after: Row)
    requires id in w.rows && Timeless(after) == Settled(env, w, id) && !Unsettled(after.state)
    ensures IsRecovered(env, w.files, w.saved.proposals, id, w.rows[id], after)
  {
    EvidenceIsVerified(env, w.files, w.saved.proposals, id, w.rows[id]);
    hide ItemVerified;
    hide Evidence;
  }

  lemma CompletedOnEvidence(env: Env, files: Files, items: seq<Proposal>, id: Id, before: Row, after: Row)
    requires IsRecovered(env, files, items, id, before, after)
    requires before.state == SourceRemoved && Evidence(env, files, items, id, before)
    ensures after.state == Completed && after.revision == before.revision + 1
  {
  }

  lemma EvidenceIsVerified(env: Env, files: Files, items: seq<Proposal>, id: Id, row: Row)
    ensures Evidence(env, files, items, id, row) <==>
              Has(items, id) && LooksAt(env, files, items, id, row) == Seen(true, true)
  {
  }

  /** Every change of state that recovery makes is an allowed one, and it completes an entry exactly on
      two good looks. */
  lemma RecoveryIsAllowed(items: seq<Proposal>, id: Id, row: Row, looks: Looks)
    ensures var v := Verdict(items, id, row, looks); v.Some? ==> Allowed(row.state, v.value)
    ensures Verdict(items, id, row, looks) == Some(Completed) <==>
            row.state.SourceRemoved? && Has(items, id) && looks == Seen(true, true)
  {
  }

  /** What recovery has seen of the entry at the head is still so. */
  predicate Fresh(env: Env, w: World) {
    SettlesEntry(w) ==>
      var row := w.rows[Head(w)];
      match w.proc.task.looks
      case Unseen => true
      case SourceSeen(absent) => absent == (row.source !in w.files)
      case Seen(absent, verified) =>
        absent == (row.source !in w.files) && verified == ItemVerified(env, w.files, Items(w), Head(w), row)
  }

  /** The steps of opening the service: loading, retention, pruning, looking, settling, saving, crashing. */
  predicate OpeningStep(w: World, a: Action) {
    a.Crash? || a.Load? || a.BeginRecovery? || a.LookForSource? || a.LookAtDestination? || a.SettleNext? || a.EndRecovery?
    || ((a.Save? || a.Prune? || a.RetainYoung? || a.RetainNewest?) && !IsIdle(w))
  }

  /** Only attempts to open the service, complete or interrupted, lie between the two. */
  ghost predicate OnlyOpening(r: Run, early: Run) {
    r == early || (r.Then? && OpeningStep(r.prev.Last(), r.act) && OnlyOpening(r.prev, early))
  }

  lemma SameIdentity(w: World, id: Id)
    requires IsUp(w) && PairInv(w.saved, Memory(w)) && Has(Items(w), id) && Has(w.saved.proposals, id)
    ensures Item(w.saved.proposals, id).identity == Item(Items(w), id).identity
  {
    assert Item(w.saved.proposals, id) in w.saved.proposals && Item(Items(w), id) in Items(w);
    assert SameItem(Item(w.saved.proposals, id), Item(Items(w), id));
  }

  /** Judging by the loaded or by the saved queue makes no difference while recovering. */
  lemma SameVerdict(env: Env, w: World, id: Id)
    requires IsUp(w) && PairInv(w.saved, Memory(w)) && LoadInv(w) && id in w.rows
    ensures FileVerdict(env, w.files, Items(w), id, w.rows[id]) == FileVerdict(env, w.files, w.saved.proposals, id, w.rows[id])
  {
    assert SameEvidence(w, id);
    if RowIs(w, id, SourceRemoved) && Has(Items(w), id) {
      SameIdentity(w, id);
    }
  }

  lemma FreshVerdict(env: Env, w: World, now: int)
    requires Enabled(env, w, SettleNext(now)) && Fresh(env, w)
    ensures HeadVerdict(w) == FileVerdict(env, w.files, Items(w), Head(w), w.rows[Head(w)])
  {
  }

  lemma OpeningKeepsFresh(env: Env, w: World, a: Action)
    requires Enabled(env, w, a) && OpeningStep(w, a) && Fresh(env, w)
    ensures Fresh(env, Apply(env, w, a))
  {
  }

  /** Settling by the verdict that the files give leaves every entry heading where it was heading. */
  lemma JudgedKeepsSettled(env: Env, w: World, now: int, id: Id)
    requires SettlesEntry(w) && PairInv(w.saved, Memory(w)) && LoadInv(w) && id in w.rows
    ensures var verdict := FileVerdict(env, w.files, Items(w), Head(w), w.rows[Head(w)]);
            Settled(env, Judged(w, verdict, now), id) == Settled(env, w, id)
  {
    SameVerdict(env, w, Head(w));
  }

  lemma SettleKeepsSettled(env: Env, w: World, now: int, id: Id)
    requires Enabled(env, w, SettleNext(now)) && PairInv(w.saved, Memory(w)) && LoadInv(w) && id in w.rows && Fresh(env, w)
    ensures Settled(env, AfterSettle(w, now), id) == Settled(env, w, id)
  {
    FreshVerdict(env, w, now);
    JudgedKeepsSettled(env, w, now, id);
  }

  lemma OpeningKeepsSettled(env: Env, w: World, a: Action, id: Id)
    requires Inv(env, w) && Enabled(env, w, a) && OpeningStep(w, a) && Fresh(env, w)
    requires id in Apply(env, w, a).rows
    ensures id in w.rows && Settled(env, Apply(env, w, a), id) == Settled(env, w, id)
  {
    match a
    case SettleNext(now) => SettleKeepsSettled(env, w, now, id);
    case Save => SameVerdict(env, w, id);
    case _ =>
  }

  lemma {:induction false} OpeningsKeepFresh(env: Env, early: Run, r: Run)
    requires Legal(env, r) && OnlyOpening(r, early) && Fresh(env, early.Last())
    ensures Fresh(env, r.Last())
  {
    if r != early {
      OpeningsKeepFresh(env, early, r.prev);
      OpeningKeepsFresh(env, r.prev.Last(), r.act);
    }
  }

  lemma {:induction false} OpeningsKeepSettled(env: Env, early: Run, r: Run, id: Id)
    requires Legal(env, r) && OnlyOpening(r, early) && Fresh(env, early.Last()) && id in r.Last().rows
    ensures id in early.Last().rows && Settled(env, r.Last(), id) == Settled(env, early.Last(), id)
  {
    if r != early {
      RunKeepsInv(env, r.prev);
      OpeningsKeepFresh(env, early, r.prev);
      OpeningKeepsSettled(env, r.prev.Last(), r.act, id);
      OpeningsKeepSettled(env, early, r.prev, id);
    }
  }

  lemma {:induction false} OpeningsKeepFiles(env: Env, early: Run, r: Run)
    requires Legal(env, r) && OnlyOpening(r, early)
    ensures r.Last().files == early.Last().files
  {
    if r != early {
      OnlyFileStepsWrite(env, r.prev.Last(), r.act);
      OpeningsKeepFiles(env, early, r.prev);
    }
  }

  // ---------------------------------------------------------------- the main results

  /** However often opening is interrupted and repeated on unchanged files, the attempt that finishes
      (having found at most a thousand unfinished entries) has changed no file, leaves no operation
      half done, and leaves every retained entry in the one state and revision that the evidence
      present before the first attempt dictates (if an attempt was under way by then, what it had seen was
      still so). */
  lemma RecoveryConverges(env: Env, early: Run, r: Run)
    requires Legal(env, r) && OnlyOpening(r, early) && Fresh(env, early.Last())
    requires IsUp(r.Last()) && r.Last().proc.task == Recovering([], true, Unseen)
    ensures r.Last().files == early.Last().files
    ensures forall id <- r.Last().rows ::
              && id in early.Last().rows
              && IsRecovered(env, early.Last().files, early.Last().saved.proposals, id,
                             early.Last().rows[id], r.Last().rows[id])
  {
    hide IsRecovered;
    RunKeepsInv(env, r);
    OpeningsKeepFiles(env, early, r);
    forall id | id in r.Last().rows
      ensures id in early.Last().rows
      ensures id in early.Last().rows ==>
                IsRecovered(env, early.Last().files, early.Last().saved.proposals, id,
                            early.Last().rows[id], r.Last().rows[id])
    {
      OpeningsKeepSettled(env, early, r, id);
      NothingToSettle(env, r.Last(), id);
      SettledIsRecovered(env, early.Last(), id, r.Last().rows[id]);
    }
  }

  lemma NothingToSettle(env: Env, w: World, id: Id)
    requires Inv(env, w) && IsUp(w) && w.proc.task == Recovering([], true, Unseen) && id in w.rows
    ensures !Unsettled(w.rows[id].state) && Settled(env, w, id) == Timeless(w.rows[id])
  {
  }

  // ---------------------------------------------------------------- the items of settled entries

  /** Any item of this entry says what became of it, at the same revision. */
  ghost predicate ItemFollows(items: seq<Proposal>, id: Id, row: Row) {
    forall p <- items :: p.id == id ==>
      p.revision == row.revision && p.status == (if row.state == Completed then SCompleted else SNeedsAttention)
  }

  /** The steps of one attempt to open the service, once the saved queue is loaded. */
  ghost predicate OneAttempt(r: Run, early: Run) {
    r == early
    || (r.Then? && OpeningStep(r.prev.Last(), r.act) && !r.act.Crash? && !r.act.Load? && OneAttempt(r.prev, early))
  }

  /** The entry is still in the middle of an operation, or its item follows it. */
  ghost predicate StillOrFollowed(w: World, id: Id)
    requires IsUp(w)
  {
    id in w.rows ==>
      || w.rows[id].state in {Approved, Copying, Published, SourceRemoved, Undoing}
      || ItemFollows(Items(w), id, w.rows[id])
  }

  lemma MarkedFollows(items: seq<Proposal>, id: Id, row: Row)
    requires AllApart(items)
    ensures ItemFollows(Marked(items, id, row.revision, if row.state == Completed then SCompleted else SNeedsAttention), id, row)
  {
    var status := if row.state == Completed then SCompleted else SNeedsAttention;
    var marked := Marked(items, id, row.revision, status);
    IdsDiffer(items);
    forall p | p in marked && p.id == id
      ensures p.revision == row.revision && p.status == status
    {
      var k :| 0 <= k < |marked| && marked[k] == p;
      var i := Position(items, id);
      assert i < |items| && k < |items| && marked[i].id == id;
    }
  }

  lemma MarkedSpares(items: seq<Proposal>, other: Id, revision: nat, status: Status, id: Id, row: Row)
    requires other != id && ItemFollows(items, id, row)
    ensures ItemFollows(Marked(items, other, revision, status), id, row)
  {
  }

  /** Settling the entry at the head makes its item follow, and leaves the others following. */
  lemma JudgedFollows(w: World, verdict: Option<JState>, now: int, id: Id)
    requires SettlesEntry(w) && AllApart(Items(w)) && StillOrFollowed(w, id)
    requires verdict.Some? ==> verdict.value in {Completed, NeedsAttention}
    ensures StillOrFollowed(Judged(w, verdict, now), id)
  {
    hide ItemFollows;
    hide Marked;
    if verdict.Some? {
      var row := Moved(w.rows[Head(w)], verdict.value, now);
      var status := if row.state == Completed then SCompleted else SNeedsAttention;
      if Head(w) == id {
        MarkedFollows(Items(w), id, row);
      } else if id in w.rows && ItemFollows(Items(w), id, w.rows[id]) {
        MarkedSpares(Items(w), Head(w), row.revision, status, id, w.rows[id]);
      }
    }
  }

  lemma AttemptStepFollows(env: Env, w: World, a: Action, id: Id)
    requires Inv(env, w) && Enabled(env, w, a) && OpeningStep(w, a) && !a.Crash? && !a.Load? && IsUp(w)
    requires StillOrFollowed(w, id)
    ensures IsUp(Apply(env, w, a)) && StillOrFollowed(Apply(env, w, a), id)
  {
    match a
    case SettleNext(now) => JudgedFollows(w, HeadVerdict(w), now, id);
    case Prune =>
      var n := Finished(Items(w));
      QueueProofs.DropFinishedKeeps(Items(w), if n > MAX_TERMINAL then n - MAX_TERMINAL else 0);
    case _ =>
  }

  lemma {:induction false} AttemptFollows(env: Env, early: Run, r: Run, id: Id)
    requires Legal(env, r) && OneAttempt(r, early) && IsUp(early.Last()) && StillOrFollowed(early.Last(), id)
    ensures IsUp(r.Last()) && StillOrFollowed(r.Last(), id)
  {
    if r != early {
      AttemptFollows(env, early, r.prev, id);
      RunKeepsInv(env, r.prev);
      AttemptStepFollows(env, r.prev.Last(), r.act, id);
    }
  }

  lemma {:induction false} AttemptIsOpening(env: Env, early: Run, r: Run)
    requires OneAttempt(r, early)
    ensures OnlyOpening(r, early)
  {
    if r != early {
      AttemptIsOpening(env, early, r.prev);
    }
  }

  /** The items of the entries that the finishing attempt found in the middle of an operation say what became
      of them. */
  lemma SettledItemsFollow(env: Env, early: Run, r: Run, id: Id)
    requires Legal(env, r) && OneAttempt(r, early) && IsUp(early.Last())
    requires IsUp(r.Last()) && r.Last().proc.task == Recovering([], true, Unseen)
    requires id in early.Last().rows && id in r.Last().rows
    requires early.Last().rows[id].state in {Approved, Copying, Published, SourceRemoved, Undoing}
    ensures ItemFollows(Items(r.Last()), id, r.Last().rows[id])
  {
    AttemptFollows(env, early, r, id);
    RunKeepsInv(env, r);
    NothingToSettle(env, r.Last(), id);
  }

  /** The row is still this one, and its items are among these. */
  ghost predicate Spared(w: World, id: Id, row: Row, items: seq<Proposal>)
    requires IsUp(w)
  {
    id in w.rows ==> w.rows[id] == row && forall p <- Items(w) :: p.id == id ==> p in items
  }

  lemma JudgedSpares(w: World, verdict: Option<JState>, now: int, id: Id, row: Row, items: seq<Proposal>)
    requires SettlesEntry(w) && Spared(w, id, row, items)
    requires Head(w) == id ==> verdict.None?
    ensures Spared(Judged(w, verdict, now), id, row, items)
  {
  }

  lemma AttemptStepSpares(env: Env, w: World, a: Action, id: Id, row: Row, items: seq<Proposal>)
    requires Inv(env, w) && Enabled(env, w, a) && OpeningStep(w, a) && !a.Crash? && !a.Load? && IsUp(w)
    requires Spared(w, id, row, items) && row.state !in {Approved, Copying, Published, SourceRemoved, Undoing}
    ensures IsUp(Apply(env, w, a)) && Spared(Apply(env, w, a), id, row, items)
  {
    match a
    case SettleNext(now) => JudgedSpares(w, HeadVerdict(w), now, id, row, items);
    case Prune =>
      var n := Finished(Items(w));
      QueueProofs.DropFinishedKeeps(Items(w), if n > MAX_TERMINAL then n - MAX_TERMINAL else 0);
    case _ =>
  }

  lemma {:induction false} AttemptSpares(env: Env, early: Run, r: Run, id: Id)
    requires Legal(env, r) && OneAttempt(r, early) && IsUp(early.Last()) && id in early.Last().rows
    requires early.Last().rows[id].state !in {Approved, Copying, Published, SourceRemoved, Undoing}
    ensures IsUp(r.Last()) && Spared(r.Last(), id, early.Last().rows[id], Items(early.Last()))
  {
    if r != early {
      AttemptSpares(env, early, r.prev, id);
      RunKeepsInv(env, r.prev);
      AttemptStepSpares(env, r.prev.Last(), r.act, id, early.Last().rows[id], Items(early.Last()));
    }
  }

  /** After an attempt that finishes, the item of a completed or flagged entry says so exactly if this attempt found the
      entry in the middle of an operation, or the saved queue said so already: an entry settled by an earlier
      attempt that ended before it could save is passed over. */
  lemma OutcomeReachesTheItemIff(env: Env, early: Run, r: Run, id: Id)
    requires Legal(env, early) && Legal(env, r) && OneAttempt(r, early) && IsUp(early.Last())
    requires IsUp(r.Last()) && r.Last().proc.task == Recovering([], true, Unseen)
    requires id in early.Last().rows && id in r.Last().rows && Has(Items(r.Last()), id)
    requires r.Last().rows[id].state in {Completed, NeedsAttention}
    ensures ItemFollows(Items(r.Last()), id, r.Last().rows[id]) <==>
              || early.Last().rows[id].state in {Approved, Copying, Published, SourceRemoved, Undoing}
              || ItemFollows(Items(early.Last()), id, early.Last().rows[id])
  {
    if early.Last().rows[id].state in {Approved, Copying, Published, SourceRemoved, Undoing} {
      SettledItemsFollow(env, early, r, id);
    } else {
      AttemptSpares(env, early, r, id);
      RunKeepsInv(env, early);
      var item := Item(Items(r.Last()), id);
      assert item in Items(r.Last());
      forall p | p in Items(early.Last()) && p.id == id ensures p == item {
        OnlyOne(Items(early.Last()), p, item);
      }
    }
  }

  lemma OnlyOne(items: seq<Proposal>, p: Proposal, q: Proposal)
    requires AllApart(items) && p in items && q in items && p.id == q.id
    ensures p == q
  {
    IdsDiffer(items);
    var i :| 0 <= i < |items| && items[i] == p;
    var j :| 0 <= j < |items| && items[j] == q;
  }

  lemma IdsDiffer(items: seq<Proposal>)
    requires AllApart(items)
    ensures forall i, j :: 0 <= i < |items| && 0 <= j < |items| && i != j ==> items[i].id != items[j].id
  {
    forall i, j | 0 <= i < |items| && 0 <= j < |items| && i != j ensures items[i].id != items[j].id {
      assert if i < j then Apart(items[i], items[j]) else Apart(items[j], items[i]);
    }
  }

  lemma RetiredMoveIsVerified(env: Env, w: World)
    requires InFlight(w) && FlightInv(env, w, FlightOf(w))
    requires var f := FlightOf(w); f.kind.Approve? && f.touched == {} && Committed(f) && RowIs(w, f.id, SourceRemoved)
    ensures var f := FlightOf(w);
            && w.rows[f.id].source !in w.files
            && VerifiedDestination(env, w.files, w.rows[f.id].dest, f.expected, w.rows[f.id].sha)
  {
    var f := FlightOf(w);
    SameFiles(w.files, Expect(f));
    if f.phase.Retired? {
      StageIsNotSource(env, f);
    }
  }

  /** The evidence an undisturbed approve leaves once the source is gone is complete: if the proposal
      was ever saved, recovery from a crash there completes the entry, for both kinds of move. */
  lemma RetiredMoveSettlesCompleted(env: Env, r: Run)
    requires Legal(env, r) && InFlight(r.Last())
    requires var f := FlightOf(r.Last());
             f.kind.Approve? && f.touched == {} && Committed(f) && RowIs(r.Last(), f.id, SourceRemoved)
             && Has(r.Last().saved.proposals, f.id)
    ensures var w, f := r.Last(), FlightOf(r.Last());
            Evidence(env, w.files, w.saved.proposals, f.id, w.rows[f.id])
  {
    FlightHolds(env, r);
    RetiredMoveIsVerified(env, r.Last());
    SavedIdentity(env, r, FlightOf(r.Last()).id);
    EvidenceIsVerified(env, r.Last().files, r.Last().saved.proposals, FlightOf(r.Last()).id, r.Last().rows[FlightOf(r.Last()).id]);
  }

  lemma SavedIdentity(env: Env, r: Run, id: Id)
    requires Legal(env, r) && IsUp(r.Last()) && Has(Items(r.Last()), id) && Has(r.Last().saved.proposals, id)
    ensures Item(r.Last().saved.proposals, id).identity == Item(Items(r.Last()), id).identity
  {
    RunKeepsInv(env, r);
    SameIdentity(r.Last(), id);
  }

  /** A crash of an undisturbed approve after it retired the source is repaired by restarting. */
  lemma CrashAfterRetirementCompletes(env: Env, r: Run, later: Run)
    requires Legal(env, later) && OnlyOpening(later, Then(r, Crash, r.Last().(proc := Down)))
    requires InFlight(r.Last())
    requires var f := FlightOf(r.Last());
             f.kind.Approve? && f.touched == {} && Committed(f) && RowIs(r.Last(), f.id, SourceRemoved)
             && Has(r.Last().saved.proposals, f.id)
    requires IsUp(later.Last()) && later.Last().proc.task == Recovering([], true, Unseen)
    requires FlightOf(r.Last()).id in later.Last().rows
    ensures var id := FlightOf(r.Last()).id;
            later.Last().rows[id].state == Completed && later.Last().rows[id].revision == r.Last().rows[id].revision + 1
  {
    var crashed := Then(r, Crash, r.Last().(proc := Down));
    LegalPrefix(env, crashed, later);
    RetiredMoveSettlesCompleted(env, r);
    hide Evidence;
    hide IsRecovered;
    hide Legal;
    RecoveryConverges(env, crashed, later);
    var w, id := r.Last(), FlightOf(r.Last()).id;
    CompletedOnEvidence(env, w.files, w.saved.proposals, id, w.rows[id], later.Last().rows[id]);
  }

  lemma {:induction false} LegalPrefix(env: Env, early: Run, r: Run)
    requires Legal(env, r) && OnlyOpening(r, early)
    ensures Legal(env, early)
  {
    if r != early {
      LegalPrefix(env, early, r.prev);
    }
  }

  /** The process may be killed after any step of any run: what follows is a legal run too, and the
      invariant holds there. */
  lemma {:induction false} CrashAnywhere(env: Env, r: Run, early: Run)
    requires Legal(env, r) && Continues(r, early) && IsUp(early.Last())
    ensures var crashed := Then(early, Crash, early.Last().(proc := Down));
            Legal(env, crashed) && Inv(env, crashed.Last())
  {
    if r == early {
      RunKeepsInv(env, Then(early, Crash, early.Last().(proc := Down)));
    } else {
      CrashAnywhere(env, r.prev, early);
    }
  }
}
