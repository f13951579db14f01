/** Recovery completes an entry only for the file that was approved, whatever happened to the disk since. */
module EvidenceTheorems {
  import opened Model
  import opened Journals
  import opened Machine
  import opened Invariants
  import opened QueueProofs
  import opened FlightProofs
  import opened FileTheorems
  import opened JournalTheorems
  import opened RecoveryTheorems

  // ---------------------------------------------------------------- one identity for every item

  ghost predicate AreFile(items: seq<Proposal>, id: Id, identity: Identity) {
    forall p <- items :: p.id == id ==> p.identity == identity
  }

  /** In memory and on disk, the items with this identifier stand for the file with this identity. */
  ghost predicate KnownAs(w: World, id: Id, identity: Identity) {
    AreFile(w.saved.proposals, id, identity) && (w.proc.Up? ==> AreFile(w.proc.state.proposals, id, identity))
  }

  lemma ItemIsKnown(env: Env, w: World, id: Id)
    requires QueueInv(env, w) && IsUp(w) && Has(Items(w), id)
    ensures KnownAs(w, id, Item(Items(w), id).identity) && id in w.issued
  {
    var item := Item(Items(w), id);
    assert item in Items(w) && Known(item, w.issued);
    SelfPair(env, Memory(w), w.issued);
    forall p | p in Items(w) && p.id == id ensures p.identity == item.identity {
      assert SameItem(p, item);
    }
    forall p | p in w.saved.proposals && p.id == id ensures p.identity == item.identity {
      assert SameItem(p, item);
    }
  }

  lemma MarkKeepsFile(items: seq<Proposal>, marked: Id, revision: nat, status: Status, id: Id, identity: Identity)
    requires AreFile(items, id, identity)
    ensures AreFile(Marked(items, marked, revision, status), id, identity)
  {
    if Has(items, marked) {
      assert Item(items, marked) in items;
    }
  }

  lemma CommitKeepsFile(env: Env, w: World, next: JState, now: int, id: Id, identity: Identity)
    requires InFlight(w) && CanCommit(env, w, next) && AreFile(Items(w), id, identity)
    ensures AreFile(AfterCommit(w, next, now).proc.state.proposals, id, identity)
  {
    hide AreFile;
    hide Marked;
    var f := FlightOf(w);
    var revision := Moved(w.rows[f.id], next, now).revision;
    MarkKeepsFile(Items(w), f.id, revision, SCompleted, id, identity);
    MarkKeepsFile(Items(w), f.id, revision, SUndone, id, identity);
    if Has(Items(w), f.id) {
      MarkKeepsFile(Items(w), f.id, revision, Item(Items(w), f.id).status, id, identity);
    }
  }

  lemma SettleKeepsFile(env: Env, w: World, now: int, id: Id, identity: Identity)
    requires Enabled(env, w, SettleNext(now)) && AreFile(Items(w), id, identity)
    ensures AreFile(AfterSettle(w, now).proc.state.proposals, id, identity)
  {
    hide AreFile;
    hide Marked;
    hide VerifiedDestination;
    var settled := w.proc.task.todo[0];
    var verdict := HeadVerdict(w);
    if verdict.Some? {
      MarkKeepsFile(Items(w), settled, Moved(w.rows[settled], verdict.value, now).revision,
                    if verdict.value.Completed? then SCompleted else SNeedsAttention, id, identity);
    }
  }

  lemma PruneKeepsFile(env: Env, items: seq<Proposal>, id: Id, identity: Identity)
    requires AllApart(items) && AreFile(items, id, identity)
    ensures AreFile(PruneItems(items), id, identity)
  {
    var n := Finished(items);
    DropFinishedKeeps(items, if n > MAX_TERMINAL then n - MAX_TERMINAL else 0);
  }

  lemma ReviseKeepsFile(w: World, revised: Id, choice: Choice, name: Name, now: int, id: Id, identity: Identity)
    requires IsUp(w) && Current(w, revised) && ChosenPath(Memory(w).roots, choice, name).Some?
    requires AreFile(Items(w), id, identity)
    ensures AreFile(AfterRevise(w, revised, choice, name, now).proc.state.proposals, id, identity)
  {
    assert Item(Items(w), revised) in Items(w);
  }

  lemma StepKeepsFile(env: Env, w: World, a: Action, id: Id, identity: Identity)
    requires QueueInv(env, w) && Enabled(env, w, a) && id in w.issued && KnownAs(w, id, identity)
    ensures KnownAs(Apply(env, w, a), id, identity)
  {
    hide QueueInv;
    hide CanStep;
    hide CanCommit;
    hide AfterCommit;
    hide AfterSettle;
    hide AfterRevise;
    match a
    case Commit(next, now) => CommitKeepsFile(env, w, next, now, id, identity); CommitKeepsSaved(env, w, next, now);
    case SettleNext(now) => SettleKeepsFile(env, w, now, id, identity); SettleKeepsSaved(env, w, now);
    case Ignore(ignored, now) => MarkKeepsFile(Items(w), ignored, Moved(w.rows[ignored], Ignored, now).revision, SIgnored, id, identity);
    case Revise(revised, choice, name, now) =>
      ReviseKeepsFile(w, revised, choice, name, now, id, identity);
      ReviseKeepsSaved(w, revised, choice, name, now);
    case Prune => QueueIsApart(env, w); PruneKeepsFile(env, Items(w), id, identity);
    case _ =>
  }

  lemma QueueIsApart(env: Env, w: World)
    requires QueueInv(env, w) && IsUp(w)
    ensures AllApart(Items(w))
  {
  }

  lemma CommitKeepsSaved(env: Env, w: World, next: JState, now: int)
    requires InFlight(w) && CanCommit(env, w, next)
    ensures AfterCommit(w, next, now).saved == w.saved
  {
  }

  lemma SettleKeepsSaved(env: Env, w: World, now: int)
    requires Enabled(env, w, SettleNext(now))
    ensures AfterSettle(w, now).saved == w.saved
  {
  }

  lemma ReviseKeepsSaved(w: World, revised: Id, choice: Choice, name: Name, now: int)
    requires IsUp(w) && Current(w, revised) && ChosenPath(Memory(w).roots, choice, name).Some?
    ensures AfterRevise(w, revised, choice, name, now).saved == w.saved
  {
  }

  lemma {:induction false} IdentityLasts(env: Env, early: Run, r: Run, id: Id, identity: Identity)
    requires Legal(env, r) && Continues(r, early) && id in early.Last().issued && KnownAs(early.Last(), id, identity)
    ensures KnownAs(r.Last(), id, identity)
  {
    if r != early {
      IdentityLasts(env, early, r.prev, id, identity);
      IssuedGrows(env, early, r.prev);
      RunKeepsInv(env, r.prev);
      StepKeepsFile(env, r.prev.Last(), r.act, id, identity);
    }
  }

  // ---------------------------------------------------------------- what was approved, and what was recorded

  predicate Approves(w: World, a: Action, id: Id) {
    a.Commit? && a.next.Approved? && InFlight(w) && FlightOf(w).id == id
  }

  /** The identity under which the entry was approved. */
  ghost function ApprovedAs(r: Run, id: Id): Option<Identity> {
    match r
    case Start(_) => None
    case Then(prev, a, _) =>
      if Approves(prev.Last(), a, id) then Some(FlightOf(prev.Last()).expected) else ApprovedAs(prev, id)
  }

  predicate RecordsDigest(w: World, a: Action, id: Id) {
    a.File? && a.step.RecordDigest? && InFlight(w) && FlightOf(w).id == id
  }

  predicate SourceIntact(f: Flight) {
    f.from !in f.touched && f.from in f.before && f.before[f.from].Regular?
  }

  /** The bytes of the original source, if the entry's digest was recorded by a move whose source no other
      process had touched. */
  ghost function Original(r: Run, id: Id): Option<seq<Byte>> {
    match r
    case Start(_) => None
    case Then(prev, a, _) =>
      if RecordsDigest(prev.Last(), a, id) then
        var f := FlightOf(prev.Last());
        if SourceIntact(f) then Some(f.before[f.from].bytes) else None
      else Original(prev, id)
  }

  lemma CommitKeepsSha(env: Env, w: World, next: JState, now: int, id: Id)
    requires InFlight(w) && CanCommit(env, w, next) && id in w.rows
    ensures var w' := AfterCommit(w, next, now); id in w'.rows && w'.rows[id].sha == w.rows[id].sha
  {
    hide Marked;
  }

  lemma ShaStays(env: Env, w: World, a: Action, id: Id)
    requires Enabled(env, w, a) && !RecordsDigest(w, a, id) && id in w.rows && id in Apply(env, w, a).rows
    requires w.rows.Keys <= w.issued
    ensures Apply(env, w, a).rows[id].sha == w.rows[id].sha
  {
    hide CanCommit;
    hide AfterCommit;
    hide Marked;
    match a
    case Commit(next, now) => CommitKeepsSha(env, w, next, now, id);
    case File(step) => StepKeepsSha(env, w, step, id);
    case _ =>
  }

  lemma StepKeepsSha(env: Env, w: World, step: FileStep, id: Id)
    requires Enabled(env, w, File(step)) && !RecordsDigest(w, File(step), id) && id in w.rows
    ensures var w' := AfterStep(env, w, FlightOf(w), step); id in w'.rows && w'.rows[id].sha == w.rows[id].sha
  {
  }

  lemma RecordedDigest(env: Env, w: World, a: Action, id: Id)
    requires Enabled(env, w, a) && RecordsDigest(w, a, id) && FlightInv(env, w, FlightOf(w))
    ensures var w', f := Apply(env, w, a), FlightOf(w);
            && id in w'.rows && w'.rows[id].sha.Some?
            && w'.rows[id].source == f.from && w'.rows[id].dest == f.to
            && f.from != [] && f.to != [] && !SameDevice(env, f.from, f.to)
            && (SourceIntact(f) ==> w'.rows[id].sha == Some(Hash(env, f.before[f.from].bytes)))
  {
  }

  /** A digest is recorded only for a copy between two file systems. */
  predicate DigestMeansCopy(env: Env, rows: Rows, id: Id) {
    id in rows && rows[id].sha.Some? ==>
      rows[id].source != [] && rows[id].dest != [] && !SameDevice(env, rows[id].source, rows[id].dest)
  }

  predicate DigestOf(env: Env, rows: Rows, id: Id, original: Option<seq<Byte>>) {
    id in rows && original.Some? ==> rows[id].sha == Some(Hash(env, original.value))
  }

  lemma {:induction false} DigestsAreOriginal(env: Env, r: Run, id: Id)
    requires Legal(env, r)
    ensures DigestMeansCopy(env, r.Last().rows, id) && DigestOf(env, r.Last().rows, id, Original(r, id))
    ensures Original(r, id).Some? ==> id in r.Last().issued
  {
    match r
    case Start(_) =>
    case Then(prev, a, w') =>
      DigestsAreOriginal(env, prev, id);
      RowHistoryStep(env, prev, a, id);
      if RecordsDigest(prev.Last(), a, id) {
        FlightHolds(env, prev);
        RecordedDigest(env, prev.Last(), a, id);
        RowsAreSound(env, r);
      } else if id in w'.rows {
        DigestsStay(env, prev, a, id);
      }
  }

  lemma DigestsStay(env: Env, prev: Run, a: Action, id: Id)
    requires Legal(env, prev) && Enabled(env, prev.Last(), a) && !RecordsDigest(prev.Last(), a, id)
    requires id in Apply(env, prev.Last(), a).rows
    requires DigestMeansCopy(env, prev.Last().rows, id) && DigestOf(env, prev.Last().rows, id, Original(prev, id))
    requires Original(prev, id).Some? ==> id in prev.Last().issued
    ensures DigestMeansCopy(env, Apply(env, prev.Last(), a).rows, id)
    ensures DigestOf(env, Apply(env, prev.Last(), a).rows, id, Original(prev, id))
  {
    RowHistoryStep(env, prev, a, id);
    RowsAreSound(env, prev);
    if id in prev.Last().rows {
      ShaStays(env, prev.Last(), a, id);
    } else {
      NewRowHasNoDigest(env, prev.Last(), a, id);
    }
  }

  lemma NewRowHasNoDigest(env: Env, w: World, a: Action, id: Id)
    requires RowsInv(w.rows, w.issued) && Enabled(env, w, a) && id !in w.rows && id in Apply(env, w, a).rows
    ensures Apply(env, w, a).rows[id].sha.None?
  {
    if !a.Create? && !a.RetainYoung? && !a.RetainNewest? {
      RowsStay(env, w, a);
    }
  }

  lemma ApprovedOnlyByApproval(env: Env, w: World, a: Action, id: Id)
    requires Enabled(env, w, a) && w.rows.Keys <= w.issued
    requires RowIs(w, id, Proposed) && RowIs(Apply(env, w, a), id, Approved)
    ensures Approves(w, a, id)
  {
    hide Marked;
    match a
    case Commit(next, now) =>
    case File(step) => FileStepMovesRow(env, w, step, id);
    case _ =>
  }

  predicate UnderWay(w: World, id: Id) {
    id in w.rows && 1 <= Rank(w.rows[id].state) <= 6
  }

  lemma OnlyApprovalStarts(old': Row, new': Row)
    requires RowStep(old', new') && 1 <= Rank(new'.state) <= 6 && !(old'.state.Proposed? && new'.state.Approved?)
    ensures 1 <= Rank(old'.state) <= 6
  {
  }

  lemma StillUnderWay(env: Env, prev: Run, a: Action, id: Id)
    requires Legal(env, prev) && Enabled(env, prev.Last(), a) && !Approves(prev.Last(), a, id)
    requires UnderWay(Apply(env, prev.Last(), a), id)
    ensures UnderWay(prev.Last(), id)
  {
    hide RowStep;
    hide Approves;
    var w, w' := prev.Last(), Apply(env, prev.Last(), a);
    RowHistoryStep(env, prev, a, id);
    hide Apply;
    if RowIs(w, id, Proposed) && RowIs(w', id, Approved) {
      ApprovedOnlyByApproval(env, w, a, id);
    } else {
      OnlyApprovalStarts(w.rows[id], w'.rows[id]);
    }
  }

  /** Every entry under way was approved, and its items stand for the file it was approved as. */
  lemma {:induction false} ApprovalHolds(env: Env, r: Run, id: Id)
    requires Legal(env, r)
    ensures ApprovedAs(r, id).Some? ==> id in r.Last().issued && KnownAs(r.Last(), id, ApprovedAs(r, id).value)
    ensures UnderWay(r.Last(), id) ==> ApprovedAs(r, id).Some?
  {
    match r
    case Start(_) =>
    case Then(prev, a, w') =>
      ApprovalHolds(env, prev, id);
      RunKeepsInv(env, prev);
      RowHistoryStep(env, prev, a, id);
      if Approves(prev.Last(), a, id) {
        FlightHolds(env, prev);
        ItemIsKnown(env, prev.Last(), id);
      } else if UnderWay(w', id) {
        StillUnderWay(env, prev, a, id);
      }
      if ApprovedAs(r, id).Some? {
        StepKeepsFile(env, prev.Last(), a, id, ApprovedAs(r, id).value);
      }
  }

  // ---------------------------------------------------------------- the main result

  /** The file at this path has the size of the approved one and the recorded digest; it is the approved file
      itself if it was only renamed; and it has the digest of the original source, hence its bytes unless the
      two contents collide, if the digest was recorded by a move whose source nobody had touched. */
  ghost predicate IsApprovedFile(env: Env, r: Run, id: Id, dest: Path, approved: Identity)
    requires id in r.Last().rows
  {
    var w, row := r.Last(), r.Last().rows[id];
    && dest in w.files && w.files[dest].Regular? && |w.files[dest].bytes| == approved.size
    && (row.source != [] && dest != [] && SameDevice(env, row.source, dest) ==>
          IdentityAt(env, w.files, dest) == Ok(approved))
    && (row.sha.Some? ==> HasDigest(env, w.files, dest, row.sha.value))
    && (Original(r, id).Some? ==>
          && HasDigest(env, w.files, dest, Hash(env, Original(r, id).value))
          && (NoCollision(env, w.files[dest].bytes, Original(r, id).value) ==> w.files[dest].bytes == Original(r, id).value))
  }

  /** Recovery is about to settle the same entry, nothing but the files and what it has seen having changed. */
  predicate SameHead(w: World, w': World) {
    SettlesEntry(w) && SettlesEntry(w') && Head(w) == Head(w') && w.rows == w'.rows && Memory(w) == Memory(w')
  }

  lemma FlightIsNoRecovery(env: Env, w: World, a: Action)
    requires Enabled(env, w, a) && InFlight(w)
    ensures !SettlesEntry(Apply(env, w, a))
  {
  }

  lemma LookedBefore(env: Env, w: World, a: Action)
    requires Enabled(env, w, a) && SettlesEntry(Apply(env, w, a)) && !Apply(env, w, a).proc.task.looks.Unseen?
    requires !a.LookForSource?
    ensures SameHead(w, Apply(env, w, a)) && (a.Outside? || a.LookAtDestination?)
    ensures !w.proc.task.looks.Unseen? && w.proc.task.looks.absent == Apply(env, w, a).proc.task.looks.absent
    ensures a.Outside? ==> w.proc.task.looks == Apply(env, w, a).proc.task.looks
    ensures a.LookAtDestination? ==>
              w.proc.task.looks.SourceSeen?
              && Apply(env, w, a).proc.task.looks.verified == ItemVerified(env, w.files, Items(w), Head(w), w.rows[Head(w)])
  {
    hide ItemVerified;
    if InFlight(w) {
      FlightIsNoRecovery(env, w, a);
    }
  }

  /** What was approved and recorded for the entry, as of two moments of the same recovery. */
  ghost predicate SameRecord(r: Run, early: Run, id: Id) {
    ApprovedAs(r, id) == ApprovedAs(early, id) && Original(r, id) == Original(early, id)
  }

  /** The look for the source was taken at some earlier moment. */
  lemma {:induction false} SourceWasSeen(env: Env, r: Run) returns (early: Run)
    requires Legal(env, r) && SettlesEntry(r.Last()) && !r.Last().proc.task.looks.Unseen?
    ensures Continues(r, early) && SameHead(early.Last(), r.Last())
    ensures var w := r.Last(); w.proc.task.looks.absent <==> w.rows[Head(w)].source !in early.Last().files
  {
    early := r;
    if r.Then? {
      if r.act.LookForSource? {
        early := r.prev;
      } else {
        LookedBefore(env, r.prev.Last(), r.act);
        early := SourceWasSeen(env, r.prev);
      }
    }
  }

  /** So was the look at the destination, after that. */
  lemma {:induction false} DestinationWasSeen(env: Env, r: Run) returns (early: Run)
    requires Legal(env, r) && SettlesEntry(r.Last()) && r.Last().proc.task.looks.Seen?
    ensures Continues(r, early) && SameHead(early.Last(), r.Last()) && SameRecord(r, early, Head(r.Last()))
    ensures var w, w' := early.Last(), r.Last();
            && w.proc.task.looks == SourceSeen(w'.proc.task.looks.absent)
            && (w'.proc.task.looks.verified <==> ItemVerified(env, w.files, Items(w), Head(w), w.rows[Head(w)]))
  {
    early := r;
    if r.Then? {
      LookedBefore(env, r.prev.Last(), r.act);
      if r.act.LookAtDestination? {
        early := r.prev;
      } else {
        early := DestinationWasSeen(env, r.prev);
      }
    }
  }

  /** Whatever other processes do, before or after the crash and even while recovery looks, it completes an
      entry only if earlier, while it was about to settle this very entry, it saw the source gone and after
      that the destination holding the file that was approved. */
  lemma CompletedOnlyForTheApprovedFile(env: Env, prev: Run, now: int) returns (absentAt: Run, verifiedAt: Run)
    requires Legal(env, prev) && Enabled(env, prev.Last(), SettleNext(now))
    requires RowIs(AfterSettle(prev.Last(), now), Head(prev.Last()), Completed) && !RowIs(prev.Last(), Head(prev.Last()), Completed)
    ensures Continues(prev, verifiedAt) && Continues(verifiedAt, absentAt)
    ensures SameHead(absentAt.Last(), prev.Last()) && SameHead(verifiedAt.Last(), prev.Last())
    ensures var id, row := Head(prev.Last()), prev.Last().rows[Head(prev.Last())];
            && row.state.SourceRemoved? && row.source !in absentAt.Last().files
            && ApprovedAs(prev, id).Some? && Original(verifiedAt, id) == Original(prev, id)
            && IsApprovedFile(env, verifiedAt, id, row.dest, ApprovedAs(prev, id).value)
  {
    hide Legal;
    var w := prev.Last();
    CompletionWasSeen(w, now);
    verifiedAt := DestinationWasSeen(env, prev);
    EarlierIsLegal(env, verifiedAt, prev);
    absentAt := SourceWasSeen(env, verifiedAt);
    VerifiedIsApproved(env, verifiedAt);
  }

  lemma EarlierIsLegal(env: Env, early: Run, r: Run)
    requires Legal(env, r) && Continues(r, early)
    ensures Legal(env, early)
  {
    PrefixIsLegal(env, early, r);
  }

  lemma VerifiedIsApproved(env: Env, r: Run)
    requires Legal(env, r) && SettlesEntry(r.Last()) && RowIs(r.Last(), Head(r.Last()), SourceRemoved)
    requires var w := r.Last(); ItemVerified(env, w.files, Items(w), Head(w), w.rows[Head(w)])
    ensures var id := Head(r.Last());
            ApprovedAs(r, id).Some? && IsApprovedFile(env, r, id, r.Last().rows[id].dest, ApprovedAs(r, id).value)
  {
    hide Legal;
    var w, id := r.Last(), Head(r.Last());
    ApprovalHolds(env, r, id);
    DigestsAreOriginal(env, r, id);
    assert Item(Items(w), id) in Items(w);
  }

  lemma CompletionWasSeen(w: World, now: int)
    requires SettlesEntry(w)
    requires RowIs(AfterSettle(w, now), Head(w), Completed) && !RowIs(w, Head(w), Completed)
    ensures RowIs(w, Head(w), SourceRemoved) && Has(Items(w), Head(w)) && w.proc.task.looks == Seen(true, true)
  {
    RecoveryIsAllowed(Items(w), Head(w), w.rows[Head(w)], w.proc.task.looks);
  }

  /** If nothing changed since recovery looked, the evidence is still there when the entry is completed. */
  lemma CompletionIsVerified(env: Env, w: World, now: int)
    requires Enabled(env, w, SettleNext(now)) && Fresh(env, w)
    requires RowIs(AfterSettle(w, now), Head(w), Completed) && !RowIs(w, Head(w), Completed)
    ensures var id := Head(w);
            && RowIs(w, id, SourceRemoved) && w.rows[id].source !in w.files && Has(Items(w), id)
            && VerifiedDestination(env, w.files, w.rows[id].dest, Item(Items(w), id).identity, w.rows[id].sha)
  {
    hide VerifiedDestination;
    CompletionWasSeen(w, now);
  }
}
