/** File primitives (crates/sortinghat-fs) over a shared file system that other processes may write at
    any moment and whose calls may fail. Every durable step is recorded as an action of the machine. */
module FileSystems {
  import opened Model
  import opened Journals
  import opened Machine
  import opened Invariants
  import opened FlightProofs

  const BUFFER: nat := 64 * 1024

  /** A call that fails this time. */
  datatype Fault =
    | OpenSource | StatFolder | ListFolder | JournalWrite(next: JState) | Revising | Creating
    | OpenFile | Move | SyncMove | Reopen
    | CreateFile | ReadFile | WriteFile | SyncFile | DigestWrite
    | PublishCall | SyncPublish | VerifyCall | Unlink | SyncUnlink
    | LoadState | DropOldRows | DropManyRows | JournalTooBig | SaveBefore | SaveAfter

  /** The longer run continues the shorter one, without interference if `alone`. */
  ghost predicate Grows(before: Run, after: Run, alone: bool) {
    forall early: Run ::
      && (Continues(before, early) ==> Continues(after, early))
      && (alone && Undisturbed(before, early) ==> Undisturbed(after, early))
  }

  /** The history of the whole system, kept for reasoning only. */
  class History {
    const env: Env
    ghost var run: Run

    constructor (env: Env, w: World)
      requires Initial(w)
      ensures this.env == env && run == Start(w) && Valid()
    {
      this.env := env;
      run := Start(w);
    }

    ghost function Now(): World
      reads this
    {
      run.Last()
    }

    ghost predicate Valid()
      reads this
    {
      Legal(env, run)
    }

    ghost method Record(a: Action)
      requires Valid() && Enabled(env, Now(), a)
      modifies this
      ensures Valid() && Now() == Apply(env, old(Now()), a)
      ensures Grows(old(run), run, !a.Outside?)
    {
      run := Then(run, a, Apply(env, Now(), a));
    }

    ghost method RecordCommit(next: JState, now: int)
      requires Valid() && InFlight(Now()) && CanCommit(env, Now(), next)
      modifies this
      ensures Valid() && Now() == AfterCommit(old(Now()), next, now)
      ensures Grows(old(run), run, true)
    {
      Record(Commit(next, now));
    }

    ghost method RecordBegin(kind: Kind, id: Id)
      requires Valid() && IsIdle(Now()) && CanBegin(Now(), kind, id)
      modifies this
      ensures Valid() && Now() == WithTask(old(Now()), Moving(FlightFor(old(Now()), kind, id)))
      ensures Grows(old(run), run, true)
    {
      Record(Begin(kind, id));
    }

    ghost method RecordAbort()
      requires Valid() && InFlight(Now())
      modifies this
      ensures Valid() && Now() == WithTask(old(Now()), Idle)
      ensures Grows(old(run), run, true)
    {
      Record(Abort);
    }

    ghost method RecordIgnore(id: Id, now: int)
      requires Valid() && IsIdle(Now()) && Current(Now(), id) && RowIs(Now(), id, Proposed)
      modifies this
      ensures Valid() && Now() == AfterIgnore(old(Now()), id, now) && IsIdle(Now())
      ensures Now().rows == old(Now()).rows[id := Moved(old(Now()).rows[id], Ignored, now)]
      ensures Memory(Now()) == Memory(old(Now())).(proposals := Marked(Items(old(Now())), id, Now().rows[id].revision, SIgnored))
      ensures Now().files == old(Now()).files && Now().saved == old(Now()).saved && Now().issued == old(Now()).issued
      ensures Grows(old(run), run, true)
    {
      Record(Ignore(id, now));
    }

    ghost method RecordRevise(id: Id, choice: Choice, name: Name, now: int)
      requires Valid() && IsIdle(Now()) && Current(Now(), id) && RowIs(Now(), id, Proposed)
      requires ChosenPath(Memory(Now()).roots, choice, name).Some?
      modifies this
      ensures Valid() && Now() == AfterRevise(old(Now()), id, choice, name, now)
      ensures Grows(old(run), run, true)
    {
      Record(Revise(id, choice, name, now));
    }

    ghost method RecordConfigure(edit: Edit)
      requires Valid() && IsIdle(Now()) && CanConfigure(env, Now(), edit)
      modifies this
      ensures Valid() && Now() == AfterEdit(old(Now()), edit)
      ensures Grows(old(run), run, true)
    {
      Record(Configure(edit));
    }

    ghost method RecordCreate(item: Proposal, row: Row)
      requires Valid() && IsIdle(Now()) && CanCreate(Now(), item, row)
      modifies this
      ensures Valid() && Now() == AfterCreate(old(Now()), item, row)
      ensures Grows(old(run), run, true)
    {
      Record(Create(item, row));
    }

    ghost method RecordBeginRecovery()
      requires Valid() && Now().proc.Up? && Now().proc.task.Loading? && DistinctRowids(Now().rows)
      modifies this
      ensures Valid() && Now() == WithTask(old(Now()), Recovering(Todo(old(Now()).rows), |Active(old(Now()).rows)| <= 1000, Unseen))
      ensures Grows(old(run), run, true)
    {
      Record(BeginRecovery);
    }

    ghost method RecordLookForSource()
      requires Valid() && SettlesEntry(Now()) && Now().proc.task.looks.Unseen?
      modifies this
      ensures var w := old(Now());
              Valid() && Now() == WithLooks(w, SourceSeen(w.rows[Head(w)].source !in w.files))
      ensures Grows(old(run), run, true)
    {
      Record(LookForSource);
    }

    ghost method RecordLookAtDestination()
      requires Valid() && SettlesEntry(Now()) && Now().proc.task.looks.SourceSeen?
      modifies this
      ensures var w := old(Now());
              && Valid()
              && Now() == WithLooks(w, Seen(w.proc.task.looks.absent, ItemVerified(env, w.files, Items(w), Head(w), w.rows[Head(w)])))
      ensures Grows(old(run), run, true)
    {
      Record(LookAtDestination);
    }

    ghost method RecordSettle(now: int)
      requires Valid() && Enabled(env, Now(), SettleNext(now))
      modifies this
      ensures Valid() && Now() == AfterSettle(old(Now()), now)
      ensures Grows(old(run), run, true)
    {
      Record(SettleNext(now));
    }

    ghost method RecordStep(step: FileStep)
      requires Valid() && InFlight(Now()) && FlightOf(Now()).from != [] && FlightOf(Now()).to != []
      requires CanStep(env, Now(), FlightOf(Now()), step)
      modifies this
      ensures Valid() && Now() == AfterStep(env, old(Now()), FlightOf(old(Now())), step)
      ensures Grows(old(run), run, true)
    {
      Record(File(step));
    }
  }

  /** Same world but for the files, and the phase and touched paths of the move under way. */
  ghost predicate OnlyFlew(w: World, w': World, alone: bool) {
    && InFlight(w) && InFlight(w')
    && w'.rows == w.rows && w'.saved == w.saved && w'.issued == w.issued && Memory(w') == Memory(w)
    && FlightOf(w') == FlightOf(w).(phase := FlightOf(w').phase, touched := FlightOf(w').touched)
    && (alone ==> FlightOf(w').touched == FlightOf(w).touched)
  }

  /** Another file with one name, the same content and the same modification time. */
  predicate IsTwin(original: Node, copy: Node) {
    && original.Regular? && copy.Regular? && copy.links == 1
    && copy.bytes == original.bytes && copy.mtime == original.mtime
  }

  class FileSystem {
    const history: History
    var files: Files
    /** The content of state.json. */
    var saved: State
    /** Where identifiers come from: none is ever handed out twice. */
    var nextUuid: Id

    constructor (history: History, files: Files)
      requires history.Valid() && Initial(history.Now()) && history.Now().files == files
      ensures this.history == history && this.files == files && Synced()
    {
      this.history := history;
      this.files := files;
      this.saved := EMPTY_STATE;
      this.nextUuid := 0;
    }

    ghost predicate Synced()
      reads this, history
    {
      history.Valid() && history.Now().files == files && history.Now().saved == saved
      && forall id <- history.Now().issued :: id < nextUuid
    }

    method FreshUuid() returns (id: Id)
      requires Synced()
      modifies this`nextUuid
      ensures Synced() && id !in history.Now().issued && id < nextUuid
    {
      id := nextUuid;
      nextUuid := nextUuid + 1;
    }

    /** Unless the service is alone, anything may happen to the files here. */
    method OtherProcesses(alone: bool)
      requires Synced()
      modifies this`files, history
      ensures Synced() && Grows(old(history.run), history.run, alone)
      ensures alone ==> files == old(files) && history.run == old(history.run)
      ensures !InFlight(old(history.Now())) ==> history.Now() == old(history.Now()).(files := files)
      ensures InFlight(old(history.Now())) ==>
                OnlyFlew(old(history.Now()), history.Now(), alone)
                && FlightOf(history.Now()).phase == FlightOf(old(history.Now())).phase
                && FlightOf(history.Now()).touched == FlightOf(old(history.Now())).touched + Differ(old(files), files)
    {
      if alone {
        assert Differ(files, files) == {};
      } else {
        var anything: Files := *;
        files := anything;
        history.Record(Outside(files));
      }
    }

    /** Read and hash a regular file in pieces of any size up to the buffer. */
    method Sha256File(p: Path) returns (r: Result<Digest, FsError>)
      ensures r.Ok? <==> p in files && files[p].Regular?
      ensures r.Ok? ==> r.value == Hash(history.env, files[p].bytes)
    {
      if p !in files || !files[p].Regular? {
        return Err(Io);
      }
      var bytes, env := files[p].bytes, history.env;
      var h, done := env.hashInit, 0;
      while done < |bytes|
        invariant done <= |bytes|
        invariant h == Absorb(env, env.hashInit, bytes[..done])
      {
        var count :| 1 <= count <= BUFFER && done + count <= |bytes|;
        var chunk := bytes[done..done + count];
        AbsorbConcat(env, env.hashInit, bytes[..done], chunk);
        assert bytes[..done] + chunk == bytes[..done + count];
        h, done := Absorb(env, h, chunk), done + count;
      }
      assert bytes[..done] == bytes;
      return Ok(env.hashFinish(h));
    }

    /** Compare the name with every entry of its directory, in any order. */
    method DestinationExistsCaseFolded(dest: Path, faults: set<Fault>) returns (r: Result<bool, FsError>)
      requires dest != []
      ensures r.Ok? <==> ListFolder !in faults && IsFolder(files, Parent(dest))
      ensures r.Ok? ==> (r.value <==> FoldTaken(history.env, files, dest))
    {
      if ListFolder in faults || !IsFolder(files, Parent(dest)) {
        return Err(Io);
      }
      var env := history.env;
      var pending := set p | p in files && p != [] && Parent(p) == Parent(dest);
      while pending != {}
        invariant forall p <- pending :: p in files && p != [] && Parent(p) == Parent(dest)
        invariant forall p <- files ::
          p != [] && Parent(p) == Parent(dest) && p !in pending ==> env.fold(FileName(p)) != env.fold(FileName(dest))
        decreases |pending|
      {
        var p :| p in pending;
        if env.fold(FileName(p)) == env.fold(FileName(dest)) {
          return Ok(true);
        }
        pending := pending - {p};
      }
      return Ok(false);
    }

    // -------------------------------------------------------------- rename on one file system

    method SameFilesystemMoveAt(from: Path, to: Path, expected: Identity, alone: bool, faults: set<Fault>)
      returns (r: Result<(), FsError>)
      requires Synced() && MayMove(from, to, expected)
      modifies this`files, history
      ensures Synced() && Grows(old(history.run), history.run, alone)
      ensures OnlyFlew(old(history.Now()), history.Now(), alone)
      ensures r.Ok? ==> FlightOf(history.Now()).phase.Renamed? && FlightOf(history.Now()).phase.verified
      ensures alone ==> (r.Ok? <==> faults !! {OpenFile, Move, SyncMove, Reopen}
                                    && Shows(history.env, old(files), from, expected) && to !in old(files))
      ensures alone && r.Ok? ==> from in old(files) && files == (old(files) - {from})[to := old(files)[from]]
      ensures alone && !(Shows(history.env, old(files), from, expected) && to !in old(files)) ==> files == old(files)
    {
      var moved := RenameChecked(from, to, expected, alone, faults);
      if moved.Err? {
        return moved;
      }
      if SyncMove in faults {
        return Err(Io);
      }
      OtherProcesses(alone);
      if Reopen in faults {
        return Err(Io);
      }
      if IdentityAt(history.env, files, to) != Ok(expected) {
        return Err(VerificationFailed);
      }
      history.RecordStep(CheckMoved);
      return Ok(());
    }

    /** The caller has journalled its intent to move this very file. */
    ghost predicate MayMove(from: Path, to: Path, expected: Identity)
      reads this, history
    {
      && from != [] && to != [] && SameDevice(history.env, from, to)
      && InFlight(history.Now())
      && var f := FlightOf(history.Now());
      && f.from == from && f.to == to && f.expected == expected && f.phase.Ready?
      && RowIs(history.Now(), f.id, if f.kind.Approve? then Approved else Undoing)
    }

    /** Check the identity of the source, then rename it without replacing anything. */
    method RenameChecked(from: Path, to: Path, expected: Identity, alone: bool, faults: set<Fault>)
      returns (r: Result<(), FsError>)
      requires Synced() && MayMove(from, to, expected)
      modifies this`files, history
      ensures Synced() && Grows(old(history.run), history.run, alone)
      ensures OnlyFlew(old(history.Now()), history.Now(), alone)
      ensures r.Ok? ==> FlightOf(history.Now()).phase.Renamed? && !FlightOf(history.Now()).phase.verified
      ensures alone ==> (r.Ok? <==> faults !! {OpenFile, Move}
                                    && Shows(history.env, old(files), from, expected) && to !in old(files))
      ensures alone && r.Ok? ==> from in old(files) && files == (old(files) - {from})[to := old(files)[from]]
      ensures alone && !(Shows(history.env, old(files), from, expected) && to !in old(files)) ==> files == old(files)
    {
      ShownIdentity(history.env, files, from, expected);
      OtherProcesses(alone);
      if OpenFile in faults || from !in files {
        return Err(Io);
      }
      if IdentityAt(history.env, files, from) != Ok(expected) {
        return Err(IdentityChanged);
      }
      ghost var checked := files;
      OtherProcesses(alone);
      assert from !in Differ(checked, files) ==> AgreeAt(checked, files, from);
      if Move in faults || from !in files {
        return Err(Io);
      }
      if to in files {
        return Err(Exists);
      }
      history.RecordStep(MoveFile);
      files := Rename(files, from, to);
      return Ok(());
    }

    // -------------------------------------------------------------- copy between file systems

    /** A copy of this source to the open staging file is under way, with `h` fed everything copied. */
    ghost predicate Copying(from: Path, stage: Path, expected: Identity, inode: nat, h: nat)
      reads this, history
    {
      && InFlight(history.Now())
      && var f := FlightOf(history.Now());
      && f.from == from && f.from != [] && f.to != [] && stage == StagePath(f) && f.expected == expected
      && f.phase.Staging? && f.phase.copy.Regular? && f.phase.copy.inode == inode
      && h == Absorb(history.env, history.env.hashInit, f.phase.copy.bytes)
    }

    /** What the source path still shows is the original, unless somebody touched it. */
    lemma SourceUntouched()
      requires Synced() && InFlight(history.Now()) && FlightOf(history.Now()).phase.Staging?
      ensures var f := FlightOf(history.Now());
              f.from !in f.touched ==>
                && f.from in files && files[f.from].Regular? && f.phase.copy.Regular?
                && f.phase.copy.bytes <= files[f.from].bytes && |files[f.from].bytes| == f.expected.size <= MAX_FILE_SIZE
      ensures var f := FlightOf(history.Now());
              f.from !in f.touched ==> IdentityAt(history.env, files, f.from) == Ok(f.expected)
      ensures var f := FlightOf(history.Now());
              f.to != [] && f.from != [] && (StagePath(f) !in f.touched ==> StagePath(f) in files && files[StagePath(f)] == f.phase.copy)
    {
      var f := FlightOf(history.Now());
      FlightHolds(history.env, history.run);
      StageIsNotSource(history.env, f);
      assert f.from !in f.touched ==> AgreeAt(files, Expect(f), f.from);
      assert StagePath(f) !in f.touched ==> AgreeAt(files, Expect(f), StagePath(f));
    }

    /** Check the open source, then create the staging file exclusively. */
    method OpenStage(from: Path, stage: Path, expected: Identity, alone: bool, faults: set<Fault>)
      returns (r: Result<nat, FsError>)
      requires Synced() && MayCopy(from, stage, expected)
      modifies this`files, history
      ensures Synced() && Grows(old(history.run), history.run, alone)
      ensures OnlyFlew(old(history.Now()), history.Now(), alone)
      ensures r.Ok? ==> Copying(from, stage, expected, r.value, history.env.hashInit) && FlightOf(history.Now()).phase.copy.bytes == []
      ensures alone ==> (r.Ok? <==> faults !! {CreateFile}
                                    && Shows(history.env, old(files), from, expected) && stage !in old(files))
      ensures alone && !(Shows(history.env, old(files), from, expected) && stage !in old(files)) ==> files == old(files)
    {
      ShownIdentity(history.env, files, from, expected);
      OtherProcesses(alone);
      if IdentityAt(history.env, files, from) != Ok(expected) {
        return Err(IdentityChanged);
      }
      ghost var checked := files;
      OtherProcesses(alone);
      assert from !in Differ(checked, files) ==> AgreeAt(checked, files, from);
      if stage in files {
        return Err(Exists);
      }
      if CreateFile in faults {
        return Err(Io);
      }
      var inode: nat, mtime: int := *, *;
      history.RecordStep(CreateStage(inode, mtime));
      files := files[stage := Regular(inode, 1, [], mtime)];
      return Ok(inode);
    }

    ghost predicate MayCopy(from: Path, stage: Path, expected: Identity)
      reads this, history
    {
      && InFlight(history.Now())
      && var f := FlightOf(history.Now());
      && f.from == from && f.from != [] && f.to != [] && stage == StagePath(f) && f.expected == expected
      && f.phase.Ready? && RowIs(history.Now(), f.id, JState.Copying) && !SameDevice(history.env, f.from, f.to)
    }

    /** One read of at most a buffer, at the offset copied so far; empty at the end of the file. */
    method Read(from: Path, offset: nat) returns (chunk: seq<Byte>)
      ensures |chunk| <= BUFFER
      ensures from in files && files[from].Regular? && offset < |files[from].bytes| ==>
                chunk != [] && offset + |chunk| <= |files[from].bytes| && chunk == files[from].bytes[offset..offset + |chunk|]
      ensures !(from in files && files[from].Regular? && offset < |files[from].bytes|) ==> chunk == []
    {
      if from !in files || !files[from].Regular? || offset >= |files[from].bytes| {
        return [];
      }
      var count :| 1 <= count <= BUFFER && offset + count <= |files[from].bytes|;
      chunk := files[from].bytes[offset..offset + count];
    }

    /** Append one chunk to the staging file. */
    method Write(from: Path, stage: Path, expected: Identity, inode: nat, chunk: seq<Byte>, ghost h: nat)
      requires Synced() && Copying(from, stage, expected, inode, h)
      requires var f := FlightOf(history.Now());
               f.from !in f.touched ==>
                 f.from in files && files[f.from].Regular? && f.phase.copy.bytes + chunk <= files[f.from].bytes
      modifies this`files, history
      ensures Synced() && Grows(old(history.run), history.run, true)
      ensures OnlyFlew(old(history.Now()), history.Now(), true)
      ensures Copying(from, stage, expected, inode, Absorb(history.env, h, chunk))
      ensures FlightOf(history.Now()).phase.copy.bytes == FlightOf(old(history.Now())).phase.copy.bytes + chunk
    {
      AbsorbConcat(history.env, history.env.hashInit, FlightOf(history.Now()).phase.copy.bytes, chunk);
      history.RecordStep(WriteStage(chunk));
      files := AppendAt(files, stage, inode, chunk);
    }

    /** The copy loop: reads of any length, never past the size limit, hashing what is written. A call that
        fails does so in any round, the last at the latest. */
    method CopyBytes(from: Path, stage: Path, expected: Identity, inode: nat, alone: bool, faults: set<Fault>)
      returns (r: Result<(nat, nat), FsError>)
      requires Synced() && Copying(from, stage, expected, inode, history.env.hashInit)
      requires FlightOf(history.Now()).phase.copy.bytes == []
      requires alone ==> FlightOf(history.Now()).touched == {}
      modifies this`files, history
      ensures Synced() && Grows(old(history.run), history.run, alone)
      ensures OnlyFlew(old(history.Now()), history.Now(), alone)
      ensures InFlight(history.Now()) && FlightOf(history.Now()).phase.Staging?
      ensures FlightOf(history.Now()).phase.copy.Regular? && |FlightOf(history.Now()).phase.copy.bytes| <= MAX_FILE_SIZE
      ensures r.Ok? ==> Copying(from, stage, expected, inode, r.value.1)
      ensures r.Ok? ==> r.value.0 == |FlightOf(history.Now()).phase.copy.bytes| <= MAX_FILE_SIZE
      ensures alone ==> (r.Ok? <==> faults !! {ReadFile, WriteFile})
      ensures alone && r.Ok? ==> r.value.0 == expected.size
    {
      hide Legal;
      hide IdentityAt;
      hide Hash;
      hide Differ;
      var h, copied := history.env.hashInit, 0;
      while true
        invariant Synced() && Grows(old(history.run), history.run, alone)
        invariant OnlyFlew(old(history.Now()), history.Now(), alone)
        invariant Copying(from, stage, expected, inode, h)
        invariant copied == |FlightOf(history.Now()).phase.copy.bytes| <= MAX_FILE_SIZE
        decreases MAX_FILE_SIZE - copied
      {
        OtherProcesses(alone);
        SourceUntouched();
        var readWorks: bool, writeWorks: bool := *, *;
        if ReadFile in faults && !readWorks {
          return Err(Io);
        }
        var chunk := Read(from, copied);
        if chunk == [] {
          break;
        }
        copied := copied + |chunk|;
        if copied > MAX_FILE_SIZE {
          return Err(Oversized);
        }
        if WriteFile in faults && !writeWorks {
          return Err(Io);
        }
        Write(from, stage, expected, inode, chunk, h);
        h := Absorb(history.env, h, chunk);
      }
      if ReadFile in faults || WriteFile in faults {
        return Err(Io);
      }
      return Ok((copied, h));
    }

    /** Give the copy the modification time of the source. */
    method Stamp(from: Path, stage: Path, expected: Identity, inode: nat, ghost h: nat)
      requires Synced() && Copying(from, stage, expected, inode, h)
      modifies this`files, history
      ensures Synced() && Grows(old(history.run), history.run, true)
      ensures OnlyFlew(old(history.Now()), history.Now(), true)
      ensures Copying(from, stage, expected, inode, h)
      ensures FlightOf(history.Now()).phase.copy.bytes == FlightOf(old(history.Now())).phase.copy.bytes
      ensures FlightOf(history.Now()).phase.copy.mtime == expected.mtime
    {
      history.RecordStep(StampStage(expected.mtime));
      files := StampAt(files, stage, inode, expected.mtime);
    }

    /** Stamp the copy, check its length, and hash the staging file again. */
    method SealCopy(
        from: Path, stage: Path, expected: Identity, inode: nat, copied: nat, h: nat, alone: bool, faults: set<Fault>)
      returns (r: Result<Digest, FsError>)
      requires Synced() && Copying(from, stage, expected, inode, h) && copied == |FlightOf(history.Now()).phase.copy.bytes|
      requires alone ==> FlightOf(history.Now()).touched == {}
      modifies this`files, history
      ensures Synced() && Grows(old(history.run), history.run, alone)
      ensures OnlyFlew(old(history.Now()), history.Now(), alone)
      ensures r.Ok? ==> FlightOf(history.Now()).phase.Sealed? && Stages(r.value, expected.size, FlightOf(history.Now()).phase.copy)
      ensures alone ==> (r.Ok? <==> faults !! {SyncFile, Reopen} && copied == expected.size)
    {
      Stamp(from, stage, expected, inode, h);
      if SyncFile in faults {
        return Err(Io);
      }
      if copied != expected.size {
        return Err(IdentityChanged);
      }
      var digest := history.env.hashFinish(h);
      OtherProcesses(alone);
      SourceUntouched();
      if Reopen in faults {
        return Err(Io);
      }
      var again := Sha256File(stage);
      if again.Err? {
        return Err(Io);
      }
      if again.value != digest {
        return Err(VerificationFailed);
      }
      history.RecordStep(SealStage);
      return Ok(digest);
    }

    /** The copy has this digest and this length. */
    ghost predicate Stages(digest: Digest, size: nat, copy: Node)
      reads history
    {
      copy.Regular? && digest == Hash(history.env, copy.bytes) && |copy.bytes| == size
    }

    /** Copy the source to the staging file and verify it. On success the digest fed chunk by chunk is
        the digest of the whole copy, whose length is the expected size and at most the limit; if no
        one else touched them, copy and staging file equal the source byte for byte. */
    method VerifiedStageCopyAt(from: Path, stage: Path, expected: Identity, alone: bool, faults: set<Fault>)
      returns (r: Result<Digest, FsError>)
      requires Synced() && MayCopy(from, stage, expected)
      requires alone ==> FlightOf(history.Now()).touched == {}
      modifies this`files, history
      ensures Synced() && Grows(old(history.run), history.run, alone)
      ensures OnlyFlew(old(history.Now()), history.Now(), alone)
      ensures r.Ok? ==> FlightOf(history.Now()).phase.Sealed? && Stages(r.value, expected.size, FlightOf(history.Now()).phase.copy)
      ensures alone ==> (r.Ok? <==> faults !! {CreateFile, ReadFile, WriteFile, SyncFile, Reopen}
                                    && Shows(history.env, old(files), from, expected) && stage !in old(files))
      ensures alone && r.Ok? ==>
                && stage in files && files == old(files)[stage := files[stage]] && IsTwin(old(files)[from], files[stage])
                && r.value == Hash(history.env, old(files)[from].bytes)
      ensures alone && !(Shows(history.env, old(files), from, expected) && stage !in old(files)) ==> files == old(files)
    {
      SourceIsOriginal();
      var created := OpenStage(from, stage, expected, alone, faults);
      if created.Err? {
        return Err(created.error);
      }
      var copied := CopyBytes(from, stage, expected, created.value, alone, faults);
      if copied.Err? {
        return Err(copied.error);
      }
      r := SealCopy(from, stage, expected, created.value, copied.value.0, copied.value.1, alone, faults);
      if r.Ok? {
        StagedCopyIsSource(alone, from, stage);
      }
    }

    lemma SourceIsOriginal()
      requires Synced() && InFlight(history.Now()) && FlightOf(history.Now()).phase.Ready?
      ensures var f := FlightOf(history.Now()); f.touched == {} ==> files == f.before
    {
      FlightHolds(history.env, history.run);
      var f := FlightOf(history.Now());
      if f.touched == {} {
        SameFiles(files, Expect(f));
      }
    }

    lemma StagedCopyIsSource(alone: bool, from: Path, stage: Path)
      requires Synced() && InFlight(history.Now()) && FlightOf(history.Now()).phase.Sealed?
      requires var f := FlightOf(history.Now()); f.from == from && f.to != [] && stage == StagePath(f)
      ensures alone && FlightOf(history.Now()).touched == {} ==>
                var f := FlightOf(history.Now());
                && stage in files && from in f.before && IsTwin(f.before[from], files[stage])
                && files[stage] == f.phase.copy && files == f.before[stage := files[stage]]
    {
      FlightHolds(history.env, history.run);
      var f := FlightOf(history.Now());
      assert stage !in f.touched ==> AgreeAt(files, Expect(f), stage);
      if f.touched == {} {
        SameFiles(files, Expect(f));
      }
    }

    // -------------------------------------------------------------- publish, verify, retire

    lemma PublishFacts()
      requires Synced() && InFlight(history.Now())
      ensures var f := FlightOf(history.Now());
              f.from != [] && f.to != []
              && (f.touched == {} ==> files == Expect(f))
              && CopyInv(history.env, history.Now(), f) && JournalInv(history.env, history.Now(), f)
    {
      FlightHolds(history.env, history.run);
      var f := FlightOf(history.Now());
      if f.touched == {} {
        SameFiles(files, Expect(f));
      }
    }

    /** Undisturbed, the staging file is there and the target is free, unless they are the same name. */
    lemma StagedFacts()
      requires Synced() && InFlight(history.Now()) && FlightOf(history.Now()).phase.Recorded?
      ensures var f := FlightOf(history.Now());
              f.touched == {} ==> f.to != [] && StagePath(f) in files && (f.to in files <==> f.to == StagePath(f))
    {
      PublishFacts();
    }

    /** Rename the staging file to its final name without replacing anything. */
    method PublishStageAt(stage: Path, to: Path, alone: bool, faults: set<Fault>) returns (r: Result<(), FsError>)
      requires Synced() && InFlight(history.Now())
      requires var f := FlightOf(history.Now());
               f.from != [] && f.to == to && to != [] && stage == StagePath(f) && f.phase.Recorded?
               && RowIs(history.Now(), f.id, JState.Copying)
      requires alone ==> FlightOf(history.Now()).touched == {}
      modifies this`files, history
      ensures Synced() && Grows(old(history.run), history.run, alone)
      ensures OnlyFlew(old(history.Now()), history.Now(), alone)
      ensures r.Ok? ==> FlightOf(history.Now()).phase.Placed? && !FlightOf(history.Now()).phase.verified
      ensures alone ==> (r.Ok? <==> faults !! {PublishCall, SyncPublish} && stage != to)
      ensures alone && r.Ok? ==> stage in old(files) && files == (old(files) - {stage})[to := old(files)[stage]]
    {
      OtherProcesses(alone);
      StagedFacts();
      if PublishCall in faults || stage !in files {
        return Err(Io);
      }
      if to in files {
        return Err(Exists);
      }
      history.RecordStep(Publish);
      files := Rename(files, stage, to);
      if SyncPublish in faults {
        return Err(Io);
      }
      return Ok(());
    }

    /** Reopen the published file and compare its digest. */
    method VerifyAt(to: Path, digest: Digest, alone: bool, faults: set<Fault>) returns (r: Result<(), FsError>)
      requires Synced() && InFlight(history.Now())
      requires var f := FlightOf(history.Now());
               f.from != [] && f.to == to && to != [] && f.phase.Placed?
               && RowIs(history.Now(), f.id, JState.Copying) && history.Now().rows[f.id].sha == Some(digest)
      requires alone ==> FlightOf(history.Now()).touched == {}
      modifies this`files, history
      ensures Synced() && Grows(old(history.run), history.run, alone)
      ensures OnlyFlew(old(history.Now()), history.Now(), alone)
      ensures r.Ok? ==> FlightOf(history.Now()).phase.Placed? && FlightOf(history.Now()).phase.verified
      ensures alone ==> (r.Ok? <==> VerifyCall !in faults)
      ensures alone ==> files == old(files)
    {
      OtherProcesses(alone);
      PublishFacts();
      if VerifyCall in faults {
        return Err(Io);
      }
      var found := Sha256File(to);
      if found.Err? {
        return Err(Io);
      }
      if found.value != digest {
        return Err(VerificationFailed);
      }
      history.RecordStep(CheckPublished);
      return Ok(());
    }

    /** Unlink the source if it still is the approved file with the published digest. */
    method RetireSourceAt(from: Path, expected: Identity, digest: Digest, alone: bool, faults: set<Fault>)
      returns (r: Result<(), FsError>)
      requires Synced() && InFlight(history.Now())
      requires var f := FlightOf(history.Now());
               f.from == from && from != [] && f.to != [] && f.expected == expected
               && f.phase.Placed? && f.phase.verified
               && RowIs(history.Now(), f.id, Published) && history.Now().rows[f.id].sha == Some(digest)
      requires alone ==> FlightOf(history.Now()).touched == {}
      modifies this`files, history
      ensures Synced() && Grows(old(history.run), history.run, alone)
      ensures OnlyFlew(old(history.Now()), history.Now(), alone)
      ensures r.Ok? ==> FlightOf(history.Now()).phase.Retired?
      ensures alone ==> (r.Ok? <==> faults !! {Unlink, SyncUnlink})
      ensures alone && r.Ok? ==> files == old(files) - {from}
    {
      OtherProcesses(alone);
      RetireFacts();
      var found := Sha256File(from);
      if found.Err? {
        return Err(Io);
      }
      if IdentityAt(history.env, files, from) != Ok(expected) || found.value != digest {
        return Err(IdentityChanged);
      }
      if Unlink in faults {
        return Err(Io);
      }
      history.RecordStep(Retire);
      files := files - {from};
      if SyncUnlink in faults {
        return Err(Io);
      }
      return Ok(());
    }

    /** An undisturbed source is still the approved file and has the published digest. */
    lemma RetireFacts()
      requires Synced() && InFlight(history.Now()) && FlightOf(history.Now()).phase.Placed?
      ensures var f := FlightOf(history.Now());
              f.touched == {} ==>
                && IdentityAt(history.env, files, f.from) == Ok(f.expected)
                && f.id in history.Now().rows && history.Now().rows[f.id].sha.Some?
                && HasDigest(history.env, files, f.from, history.Now().rows[f.id].sha.value)
    {
      PublishFacts();
      StageIsNotSource(history.env, FlightOf(history.Now()));
    }

    // -------------------------------------------------------------- the state file

    /** Replace state.json atomically; a late sync error reports failure after the fact. */
    method Save(state: State, faults: set<Fault>) returns (ok: bool)
      requires Synced() && Enabled(history.env, history.Now(), Action.Save) && Memory(history.Now()) == state
      modifies this`saved, history
      ensures Synced() && Grows(old(history.run), history.run, true)
      ensures SaveBefore in faults ==> history.Now() == old(history.Now())
      ensures SaveBefore !in faults ==> history.Now() == old(history.Now()).(saved := state)
      ensures ok <==> faults !! {SaveBefore, SaveAfter}
    {
      if SaveBefore in faults {
        return false;
      }
      history.Record(Action.Save);
      saved := state;
      return SaveAfter !in faults;
    }
  }
}
