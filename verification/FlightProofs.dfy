/** Every action keeps the invariant of the move or the recovery under way. */
module FlightProofs {
  import opened Model
  import opened Journals
  import opened Machine
  import opened Paths
  import opened Invariants
  import opened QueueProofs

  // ---------------------------------------------------------------- moves

  lemma BeginKeeps(env: Env, w: World, kind: Kind, id: Id)
    requires Enabled(env, w, Begin(kind, id))
    ensures FlightInv(env, Apply(env, w, Begin(kind, id)), FlightFor(w, kind, id))
  {
  }

  lemma OutsideKeeps(env: Env, w: World, files: Files)
    requires InFlight(w) && FlightInv(env, w, FlightOf(w))
    ensures FlightInv(env, AfterOutside(w, files), FlightOf(AfterOutside(w, files)))
  {
    var f, w' := FlightOf(w), AfterOutside(w, files);
    var f' := FlightOf(w');
    assert Expect(f') == Expect(f);
    forall p | p !in f'.touched ensures AgreeAt(files, Expect(f'), p) {
      assert p !in Differ(w.files, files);
      assert AgreeAt(w.files, Expect(f), p);
    }
  }

  lemma SameFiles(a: Files, b: Files)
    requires Agree(a, b, {})
    ensures a == b
  {
    forall p ensures p in a <==> p in b {
      assert AgreeAt(a, b, p);
    }
    forall p | p in a ensures a[p] == b[p] {
      assert AgreeAt(a, b, p);
    }
  }

  lemma CheckFreeKeeps(env: Env, w: World)
    requires Enabled(env, w, CheckFree) && FlightInv(env, w, FlightOf(w))
    ensures FlightInv(env, Apply(env, w, CheckFree), FlightOf(Apply(env, w, CheckFree)))
  {
    var f := FlightOf(w);
    assert AgreeAt(w.files, f.before, f.to) || f.to in f.touched;
    if f.touched == {} {
      SameFiles(w.files, f.before);
    }
  }

  lemma ApprovalKeeps(env: Env, w: World, now: int)
    requires QueueInv(env, w) && InFlight(w) && CanCommit(env, w, Approved) && FlightInv(env, w, FlightOf(w))
    ensures var w' := AfterCommit(w, Approved, now); InFlight(w') && FlightInv(env, w', FlightOf(w'))
  {
    var f, w' := FlightOf(w), AfterCommit(w, Approved, now);
    var items := Items(w);
    var i := Position(items, f.id);
    assert items[i] in items;
    assert Bound(Memory(w), items[i], w.rows[f.id]);
    RolesAgree(Memory(w).roots, items[i].sourceRoot, WatchedRole);
    MarkedPosition(items, f.id, w'.rows[f.id].revision, items[i].status);
  }

  lemma ReturnKeeps(env: Env, w: World, now: int)
    requires QueueInv(env, w) && InFlight(w) && CanCommit(env, w, Undoing) && FlightInv(env, w, FlightOf(w))
    ensures var w' := AfterCommit(w, Undoing, now); InFlight(w') && FlightInv(env, w', FlightOf(w'))
  {
    var f := FlightOf(w);
    var item := Item(Items(w), f.id);
    assert item in Items(w);
    assert Bound(Memory(w), item, w.rows[f.id]);
  }

  lemma CommitKeeps(env: Env, w: World, next: JState, now: int)
    requires QueueInv(env, w) && Enabled(env, w, Commit(next, now)) && FlightInv(env, w, FlightOf(w))
    ensures var w' := AfterCommit(w, next, now); InFlight(w') ==> FlightInv(env, w', FlightOf(w'))
  {
    hide SourcePath;
    hide DestPath;
    hide Marked;
    hide Position;
    hide AgreeAt;
    hide IsCopy;
    hide Digested;
    hide FoldTaken;
    hide QueueInv;
    if next.Approved? {
      ApprovalKeeps(env, w, now);
    } else if next.Undoing? {
      ReturnKeeps(env, w, now);
    }
  }

  lemma {:induction false} MarkedPosition(items: seq<Proposal>, id: Id, revision: nat, status: Status)
    ensures var marked := Marked(items, id, revision, status);
            Position(marked, id) == Position(items, id) && |marked| == |items|
  {
    var marked := Marked(items, id, revision, status);
    if Has(items, id) {
      var i, j := Position(items, id), Position(marked, id);
      assert marked[i].id == id;
      forall k | 0 <= k < i ensures marked[k].id != id {
        assert marked[k] == items[k];
      }
    }
  }

  lemma MoveFileKeeps(env: Env, w: World)
    requires Enabled(env, w, File(MoveFile)) && FlightInv(env, w, FlightOf(w))
    ensures var w' := AfterStep(env, w, FlightOf(w), MoveFile); FlightInv(env, w', FlightOf(w'))
  {
    var f := FlightOf(w);
    var w' := AfterStep(env, w, FlightOf(w), MoveFile);
    var f' := FlightOf(w');
    assert f.from !in f.touched ==> AgreeAt(w.files, f.before, f.from);
    forall p | p !in f'.touched ensures AgreeAt(w'.files, Expect(f'), p) {
      assert AgreeAt(w.files, f.before, p);
    }
  }

  lemma CheckMovedKeeps(env: Env, w: World)
    requires Enabled(env, w, File(CheckMoved)) && FlightInv(env, w, FlightOf(w))
    ensures var w' := AfterStep(env, w, FlightOf(w), CheckMoved); FlightInv(env, w', FlightOf(w'))
  {
    var f := FlightOf(w);
    var w' := AfterStep(env, w, FlightOf(w), CheckMoved);
    assert f.to !in f.touched ==> AgreeAt(w.files, Expect(f), f.to);
    assert Expect(FlightOf(w')) == Expect(f);
  }

  lemma CreateStageKeeps(env: Env, w: World, inode: nat, mtime: int)
    requires Enabled(env, w, File(CreateStage(inode, mtime))) && FlightInv(env, w, FlightOf(w))
    ensures var w' := AfterStep(env, w, FlightOf(w), CreateStage(inode, mtime)); FlightInv(env, w', FlightOf(w'))
  {
    var f := FlightOf(w);
    var w' := AfterStep(env, w, FlightOf(w), CreateStage(inode, mtime));
    var f' := FlightOf(w');
    assert f.from !in f.touched ==> AgreeAt(w.files, f.before, f.from);
    assert StagePath(f) !in f.touched ==> AgreeAt(w.files, f.before, StagePath(f));
    forall p | p !in f'.touched ensures AgreeAt(w'.files, Expect(f'), p) {
      assert AgreeAt(w.files, f.before, p);
    }
  }

  lemma WriteStageKeeps(env: Env, w: World, chunk: seq<Byte>)
    requires Enabled(env, w, File(WriteStage(chunk))) && FlightInv(env, w, FlightOf(w))
    ensures var w' := AfterStep(env, w, FlightOf(w), WriteStage(chunk)); FlightInv(env, w', FlightOf(w'))
  {
    var f := FlightOf(w);
    var w' := AfterStep(env, w, FlightOf(w), WriteStage(chunk));
    var f' := FlightOf(w');
    StageIsNotSource(env, f);
    assert f.from !in f.touched ==> AgreeAt(w.files, Expect(f), f.from);
    forall p | p !in f'.touched ensures AgreeAt(w'.files, Expect(f'), p) {
      assert AgreeAt(w.files, Expect(f), p);
    }
  }

  lemma StageIsNotSource(env: Env, f: Flight)
    requires f.from != [] && f.to != [] && !SameDevice(env, f.from, f.to)
    ensures StagePath(f) != f.from && f.from != f.to
  {
    assert Parent(StagePath(f)) == Parent(f.to);
  }

  lemma {:induction false} IdTextTellsApart(a: Id, b: Id)
    requires IdText(a) == IdText(b)
    ensures a == b
  {
    var s, t := IdText(a), IdText(b);
    assert s[|s| - 1] == t[|t| - 1];
    if a >= 10 && b >= 10 {
      assert s[..|s| - 1] == IdText(a / 10) && t[..|t| - 1] == IdText(b / 10);
      IdTextTellsApart(a / 10, b / 10);
    } else {
      IdTextLength(a);
      IdTextLength(b);
    }
  }

  lemma {:induction false} IdTextLength(id: Id)
    ensures |IdText(id)| >= 1 && (|IdText(id)| == 1 <==> id < 10)
  {
    if id >= 10 {
      IdTextLength(id / 10);
    }
  }

  /** Two entries share a staging file only if they are the same, and only within one folder. */
  lemma StagesAreApart(to: Path, id: Id, to': Path, id': Id)
    requires to != [] && to' != []
    ensures StageFor(to, id) == StageFor(to', id') <==> Parent(to) == Parent(to') && id == id'
  {
    var stage, stage' := StageFor(to, id), StageFor(to', id');
    if stage == stage' {
      assert stage[..|stage| - 1] == Parent(to) && stage'[..|stage'| - 1] == Parent(to');
      var name, name' := FileName(stage), FileName(stage');
      assert name == ".sortinghat-" + IdText(id) + ".stage" && name' == ".sortinghat-" + IdText(id') + ".stage";
      assert name[12..|name| - 6] == IdText(id) && name'[12..|name'| - 6] == IdText(id');
      IdTextTellsApart(id, id');
    }
  }

  lemma StampStageKeeps(env: Env, w: World, mtime: int)
    requires Enabled(env, w, File(StampStage(mtime))) && FlightInv(env, w, FlightOf(w))
    ensures var w' := AfterStep(env, w, FlightOf(w), StampStage(mtime)); FlightInv(env, w', FlightOf(w'))
  {
    var f := FlightOf(w);
    var w' := AfterStep(env, w, FlightOf(w), StampStage(mtime));
    var f' := FlightOf(w');
    forall p | p !in f'.touched ensures AgreeAt(w'.files, Expect(f'), p) {
      assert AgreeAt(w.files, Expect(f), p);
    }
  }

  lemma SealStageKeeps(env: Env, w: World)
    requires Enabled(env, w, File(SealStage)) && FlightInv(env, w, FlightOf(w))
    ensures var w' := AfterStep(env, w, FlightOf(w), SealStage); FlightInv(env, w', FlightOf(w'))
  {
    var f := FlightOf(w);
    var w' := AfterStep(env, w, FlightOf(w), SealStage);
    assert Expect(FlightOf(w')) == Expect(f);
  }

  lemma RecordDigestKeeps(env: Env, w: World, now: int)
    requires Enabled(env, w, File(RecordDigest(now))) && FlightInv(env, w, FlightOf(w))
    ensures var w' := AfterStep(env, w, FlightOf(w), RecordDigest(now)); FlightInv(env, w', FlightOf(w'))
  {
    var f := FlightOf(w);
    var w' := AfterStep(env, w, FlightOf(w), RecordDigest(now));
    assert Expect(FlightOf(w')) == Expect(f);
  }

  lemma PublishKeeps(env: Env, w: World)
    requires Enabled(env, w, File(Publish)) && FlightInv(env, w, FlightOf(w))
    ensures var w' := AfterStep(env, w, FlightOf(w), Publish); FlightInv(env, w', FlightOf(w'))
  {
    var f := FlightOf(w);
    var w' := AfterStep(env, w, FlightOf(w), Publish);
    var f' := FlightOf(w');
    assert StagePath(f) !in f.touched ==> AgreeAt(w.files, Expect(f), StagePath(f));
    forall p | p !in f'.touched ensures AgreeAt(w'.files, Expect(f'), p) {
      assert AgreeAt(w.files, Expect(f), p);
    }
  }

  lemma CheckPublishedKeeps(env: Env, w: World)
    requires Enabled(env, w, File(CheckPublished)) && FlightInv(env, w, FlightOf(w))
    ensures var w' := AfterStep(env, w, FlightOf(w), CheckPublished); FlightInv(env, w', FlightOf(w'))
  {
    var f := FlightOf(w);
    var w' := AfterStep(env, w, FlightOf(w), CheckPublished);
    assert f.to !in f.touched ==> AgreeAt(w.files, Expect(f), f.to);
    assert Expect(FlightOf(w')) == Expect(f);
  }

  lemma RetireKeeps(env: Env, w: World)
    requires InFlight(w) && FlightInv(env, w, FlightOf(w)) && CanStep(env, w, FlightOf(w), Retire)
    ensures var f := FlightOf(w); var w' := WithPhase(w, w.files - {f.from}, Retired(f.phase.copy)); FlightInv(env, w', FlightOf(w'))
  {
    hide HasDigest;
    hide SourcePath;
    hide DestPath;
    hide Position;
    hide FoldTaken;
    hide Digested;
    var f := FlightOf(w);
    var w' := WithPhase(w, w.files - {f.from}, Retired(f.phase.copy));
    var f' := FlightOf(w');
    StageIsNotSource(env, f);
    forall p | p !in f'.touched ensures AgreeAt(w'.files, Expect(f'), p) {
      assert AgreeAt(w.files, Expect(f), p);
    }
  }

  lemma StepKeepsFlight(env: Env, w: World, step: FileStep)
    requires Enabled(env, w, File(step)) && FlightInv(env, w, FlightOf(w))
    ensures var w' := AfterStep(env, w, FlightOf(w), step); FlightInv(env, w', FlightOf(w'))
  {
    match step
    case MoveFile => MoveFileKeeps(env, w);
    case CheckMoved => CheckMovedKeeps(env, w);
    case CreateStage(inode, mtime) => CreateStageKeeps(env, w, inode, mtime);
    case WriteStage(chunk) => WriteStageKeeps(env, w, chunk);
    case StampStage(mtime) => StampStageKeeps(env, w, mtime);
    case SealStage => SealStageKeeps(env, w);
    case RecordDigest(now) => RecordDigestKeeps(env, w, now);
    case Publish => PublishKeeps(env, w);
    case CheckPublished => CheckPublishedKeeps(env, w);
    case Retire => RetireKeeps(env, w);
  }

  // ---------------------------------------------------------------- recovery

  lemma {:induction false} OldestFirstDistinct(rows: Rows, ids: set<Id>)
    requires ids <= rows.Keys && DistinctRowids(rows)
    ensures forall i, j :: 0 <= i < j < |OldestFirst(rows, ids)| ==> OldestFirst(rows, ids)[i] != OldestFirst(rows, ids)[j]
  {
    if ids != {} {
      var r := OldestFirst(rows, ids);
      var rest := OldestFirst(rows, ids - {r[0]});
      OldestFirstDistinct(rows, ids - {r[0]});
      assert r == [r[0]] + rest;
      forall i, j | 0 <= i < j < |r| ensures r[i] != r[j] {
        assert r[j] == rest[j - 1] && r[j] in rest;
        if i > 0 {
          assert r[i] == rest[i - 1];
        }
      }
    }
  }

  lemma BeginRecoveryKeeps(env: Env, w: World)
    requires Enabled(env, w, BeginRecovery)
    ensures TodoInv(Apply(env, w, BeginRecovery), Todo(w.rows), |Active(w.rows)| <= 1000)
  {
    var all := OldestFirst(w.rows, Active(w.rows));
    OldestFirstDistinct(w.rows, Active(w.rows));
    assert forall id <- Todo(w.rows) :: id in all;
  }

  lemma SettleKeepsLoad(env: Env, w: World, now: int)
    requires Enabled(env, w, SettleNext(now)) && LoadInv(w)
    ensures LoadInv(AfterSettle(w, now))
  {
    var id, w' := w.proc.task.todo[0], AfterSettle(w, now);
    var verdict := HeadVerdict(w);
    forall other | other in w'.rows ensures SameEvidence(w', other) {
      assert SameEvidence(w, other);
      if verdict.Some? {
        MarkedHas(Items(w), id, w'.rows[id].revision, if verdict.value.Completed? then SCompleted else SNeedsAttention, other);
      }
    }
  }

  lemma SettleKeeps(env: Env, w: World, now: int)
    requires Enabled(env, w, SettleNext(now)) && TaskInv(env, w)
    ensures TaskInv(env, AfterSettle(w, now))
  {
    SettleKeepsLoad(env, w, now);
    SettleKeepsTodo(env, w, now);
    hide LoadInv;
    hide TodoInv;
  }

  lemma SettleKeepsTodo(env: Env, w: World, now: int)
    requires Enabled(env, w, SettleNext(now)) && TodoInv(w, w.proc.task.todo, w.proc.task.whole)
    ensures TodoInv(AfterSettle(w, now), w.proc.task.todo[1..], w.proc.task.whole)
  {
    hide Marked;
    var todo := w.proc.task.todo;
    assert forall other <- todo :: other == todo[0] || other in todo[1..];
  }

  lemma MarkedHas(items: seq<Proposal>, id: Id, revision: nat, status: Status, other: Id)
    ensures Has(Marked(items, id, revision, status), other) <==> Has(items, other)
  {
    var marked := Marked(items, id, revision, status);
    if Has(items, other) {
      assert marked[Position(items, other)].id == other;
    }
    if Has(marked, other) {
      assert items[Position(marked, other)].id == other;
    }
  }

  lemma {:induction false} DropFinishedHas(items: seq<Proposal>, remove: nat, p: Proposal)
    requires p in items && !FinishedItem(p)
    ensures p in DropFinished(items, remove)
    decreases |items|
  {
    if items[0] != p {
      DropFinishedHas(items[1..], if FinishedItem(items[0]) && remove > 0 then remove - 1 else remove, p);
    }
  }

  /** Pruning drops finished items only. */
  lemma PrunedHas(items: seq<Proposal>, id: Id)
    requires AllApart(items) && (Has(items, id) ==> !FinishedItem(Item(items, id)))
    ensures Has(PruneItems(items), id) <==> Has(items, id)
  {
    var n := Finished(items);
    var remove := if n > MAX_TERMINAL then n - MAX_TERMINAL else 0;
    var kept := PruneItems(items);
    DropFinishedKeeps(items, remove);
    if Has(items, id) {
      var p := Item(items, id);
      DropFinishedHas(items, remove, p);
      var k :| 0 <= k < |kept| && kept[k] == p;
    }
    if Has(kept, id) {
      assert Item(kept, id) in items;
      var k :| 0 <= k < |items| && items[k] == Item(kept, id);
    }
  }

  lemma PruneKeeps(env: Env, w: World)
    requires QueueInv(env, w) && IsUp(w) && LoadInv(w)
    ensures LoadInv(WithItems(w, PruneItems(Items(w))))
  {
    hide PruneItems;
    hide Position;
    var w' := WithItems(w, PruneItems(Items(w)));
    forall id | id in w'.rows ensures SameEvidence(w', id) {
      assert SameEvidence(w, id);
      if RowIs(w, id, SourceRemoved) {
        if Has(Items(w), id) {
          var p := Item(Items(w), id);
          assert p in Items(w) && Bound(Memory(w), p, w.rows[id]);
        }
        PrunedHas(Items(w), id);
      }
    }
  }

  lemma RetainKeeps(w: World, kept: Rows)
    requires IsUp(w) && LoadInv(w) && Within(kept, w.rows)
    ensures LoadInv(w.(rows := kept))
  {
    assert forall id <- w.rows :: SameEvidence(w, id);
  }

  /** Evidence depends on rows, queue and saved queue only. */
  lemma EvidenceKept(w: World, w': World)
    requires IsUp(w) && IsUp(w') && LoadInv(w)
    requires w'.rows == w.rows && Items(w') == Items(w) && (w'.saved == w.saved || w'.saved == Memory(w))
    ensures LoadInv(w')
    ensures w.proc.task.Recovering? && TodoInv(w, w.proc.task.todo, w.proc.task.whole) ==>
              TodoInv(w', w.proc.task.todo, w.proc.task.whole)
  {
    assert forall id <- w.rows :: SameEvidence(w, id);
  }

  // ---------------------------------------------------------------- all actions

  lemma StepKeepsMove(env: Env, w: World, a: Action)
    requires QueueInv(env, w) && Enabled(env, w, a) && InFlight(w) && FlightInv(env, w, FlightOf(w))
    ensures var w' := Apply(env, w, a); InFlight(w') ==> FlightInv(env, w', FlightOf(w'))
    ensures var w' := Apply(env, w, a); w'.proc.Up? ==> w'.proc.task.Moving? || w'.proc.task.Idle?
  {
    hide QueueInv;
    hide FlightInv;
    hide CanStep;
    match a
    case Outside(files) => OutsideKeeps(env, w, files);
    case CheckFree => CheckFreeKeeps(env, w);
    case Commit(next, now) => CommitKeeps(env, w, next, now);
    case File(step) => StepKeepsFlight(env, w, step);
    case Crash =>
    case Abort =>
  }

  lemma StepKeepsRecovery(env: Env, w: World, a: Action)
    requires QueueInv(env, w) && Enabled(env, w, a) && IsUp(w) && (w.proc.task.Loading? || w.proc.task.Recovering?)
    requires TaskInv(env, w)
    ensures var w' := Apply(env, w, a); w'.proc.Up? ==> TaskInv(env, w')
  {
    hide QueueInv;
    hide LoadInv;
    hide TodoInv;
    hide AfterSettle;
    hide DropAged;
    hide DropExcess;
    match a
    case BeginRecovery =>
      BeginRecoveryKeeps(env, w);
      EvidenceKept(w, Apply(env, w, a));
    case LookForSource => EvidenceKept(w, Apply(env, w, a));
    case LookAtDestination => EvidenceKept(w, Apply(env, w, a));
    case SettleNext(now) => SettleKeeps(env, w, now);
    case Prune => PruneKeeps(env, w);
    case RetainYoung(_) => RetainKeeps(w, Apply(env, w, a).rows);
    case RetainNewest => RetainKeeps(w, Apply(env, w, a).rows);
    case Outside(_) => EvidenceKept(w, Apply(env, w, a));
    case Save => EvidenceKept(w, Apply(env, w, a));
    case EndRecovery =>
    case Crash =>
  }

  lemma StepKeepsTask(env: Env, w: World, a: Action)
    requires Inv(env, w) && Enabled(env, w, a)
    ensures var w' := Apply(env, w, a); w'.proc.Up? ==> TaskInv(env, w')
  {
    hide FlightInv;
    hide TodoInv;
    hide CanStep;
    hide CanCommit;
    if InFlight(w) {
      StepKeepsMove(env, w, a);
    } else if w.proc.Down? {
    } else if IsIdle(w) {
      match a
      case Begin(kind, id) => BeginKeeps(env, w, kind, id);
      case _ =>
    } else {
      StepKeepsRecovery(env, w, a);
    }
  }

  /** The invariant holds at the end of every legal run, hence in every world of it. */
  lemma {:induction false} RunKeepsInv(env: Env, r: Run)
    requires Legal(env, r)
    ensures Inv(env, r.Last())
  {
    match r
    case Start(w) =>
    case Then(prev, a, w) =>
      RunKeepsInv(env, prev);
      StepKeepsQueue(env, prev.Last(), a);
      StepKeepsTask(env, prev.Last(), a);
  }

  /** The part of the invariant about the move under way. */
  lemma FlightHolds(env: Env, r: Run)
    requires Legal(env, r) && InFlight(r.Last())
    ensures FlightInv(env, r.Last(), FlightOf(r.Last()))
  {
    RunKeepsInv(env, r);
  }

  lemma Extend(env: Env, r: Run, a: Action) returns (r': Run)
    requires Legal(env, r) && Enabled(env, r.Last(), a)
    ensures r' == Then(r, a, Apply(env, r.Last(), a)) && Legal(env, r') && Continues(r', r)
  {
    r' := Then(r, a, Apply(env, r.Last(), a));
  }

  lemma ExtendStep(env: Env, r: Run, step: FileStep) returns (r': Run)
    requires Legal(env, r) && InFlight(r.Last()) && FlightOf(r.Last()).from != [] && FlightOf(r.Last()).to != []
    requires CanStep(env, r.Last(), FlightOf(r.Last()), step)
    ensures r'.Last() == AfterStep(env, r.Last(), FlightOf(r.Last()), step) && Legal(env, r') && Continues(r', r)
  {
    r' := Extend(env, r, File(step));
  }

  lemma ExtendCommit(env: Env, r: Run, next: JState) returns (r': Run)
    requires Legal(env, r) && InFlight(r.Last()) && CanCommit(env, r.Last(), next)
    ensures r'.Last() == AfterCommit(r.Last(), next, 0) && Legal(env, r') && Continues(r', r)
  {
    r' := Extend(env, r, Commit(next, 0));
  }

  lemma OnlyFileStepsWrite(env: Env, w: World, a: Action)
    requires Enabled(env, w, a) && !a.Outside? && !a.File?
    ensures Apply(env, w, a).files == w.files
  {
  }

  /** A move in the air keeps its plan; one that lands leaves the files as they were. */
  lemma FlightGoesOn(env: Env, w: World, a: Action)
    requires Enabled(env, w, a) && !a.Outside? && InFlight(w)
    ensures var w', f := Apply(env, w, a), FlightOf(w);
            if InFlight(w') then FlightOf(w') == f.(phase := FlightOf(w').phase) else !a.File? && w'.files == w.files
  {
    if !a.File? {
      OnlyFileStepsWrite(env, w, a);
    }
  }
}
