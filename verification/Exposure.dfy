/** When an approve can leave the journal saying what is not true of the files: known before it begins. */
module Exposure {
  import opened Model
  import opened Journals
  import opened Machine
  import opened Invariants
  import opened FlightProofs
  import opened FileTheorems

  /** The move in the air at the end of `early` is still in the air, and no other process wrote since. */
  ghost predicate SameFlight(r: Run, early: Run) {
    r == early || (r.Then? && !r.act.Outside? && InFlight(r.Last()) && SameFlight(r.prev, early))
  }

  predicate Untruthful(w: World) {
    InFlight(w) &&
    var f := FlightOf(w);
    f.kind.Approve? && Committed(f) && f.to != [] && f.id in w.rows
    && !Truth(w.files, f.before, f.from, f.to, w.rows[f.id].state)
  }

  /** The approve would pass all checks, copy to another file system, and copy something, to a target that
      bears the name of the staging file. */
  predicate WillExpose(env: Env, w: World)
    requires InFlight(w)
  {
    var f := FlightOf(w);
    && CopiesOntoStage(env, f)
    && !FoldTaken(env, w.files, f.to)
    && RowIs(w, f.id, Proposed) && Current(w, f.id)
    && IdentityAt(env, w.files, f.from) == Ok(f.expected) && f.expected.size > 0
  }

  predicate JustBegun(w: World) {
    InFlight(w) && FlightOf(w).kind.Approve? && FlightOf(w).phase.Opened? && FlightOf(w).touched == {}
  }

  /** An approve that has just begun can, with no other writer, come to leave an untrue journal state if and
      only if it is a copy of a non-empty file to a target named like its own staging file. */
  lemma UntruthfulIff(env: Env, r: Run)
    requires Legal(env, r) && JustBegun(r.Last())
    ensures (exists later: Run :: Legal(env, later) && SameFlight(later, r) && Untruthful(later.Last()))
            <==> WillExpose(env, r.Last())
  {
    forall later: Run | Legal(env, later) && SameFlight(later, r) && Untruthful(later.Last())
      ensures WillExpose(env, r.Last())
    {
      OnlyThen(env, r, later);
    }
    if WillExpose(env, r.Last()) {
      var later := ItHappens(env, r);
    }
  }

  // ---------------------------------------------------------------- only then

  lemma StepStaysCommitted(env: Env, w: World, step: FileStep)
    requires Enabled(env, w, File(step))
    ensures var w' := AfterStep(env, w, FlightOf(w), step);
            InFlight(w') && SameMove(FlightOf(w), FlightOf(w')) && FlightOf(w').touched == FlightOf(w).touched
            && Committed(FlightOf(w)) && Committed(FlightOf(w'))
  {
  }

  lemma BeforeCommitted(env: Env, w: World, a: Action)
    requires Enabled(env, w, a) && !a.Outside? && InFlight(w) && InFlight(Apply(env, w, a)) && FlightOf(w).kind.Approve?
    ensures var f, w' := FlightOf(w), Apply(env, w, a);
            && SameMove(f, FlightOf(w')) && FlightOf(w').touched == f.touched
            && (!Committed(FlightOf(w')) ==> !Committed(f) && w'.rows == w.rows && Items(w') == Items(w))
            && (Committed(FlightOf(w')) && !Committed(f) ==> RowIs(w, f.id, Proposed) && Current(w, f.id))
  {
    hide AfterEdit;
    hide AfterCreate;
    hide AfterRevise;
    hide AfterIgnore;
    hide CanConfigure;
    hide PruneItems;
    hide AfterSettle;
    hide CanCreate;
    hide CanBegin;
    hide Marked;
    hide IdentityAt;
    FlightGoesOn(env, w, a);
    match a
    case Commit(next, now) =>
    case File(step) => StepStaysCommitted(env, w, step);
    case _ =>
  }

  lemma {:induction false} SinceBegun(env: Env, r: Run, later: Run)
    requires Legal(env, later) && SameFlight(later, r) && JustBegun(r.Last())
    ensures InFlight(later.Last())
    ensures var w, w' := r.Last(), later.Last();
            && SameMove(FlightOf(w), FlightOf(w')) && FlightOf(w').touched == {}
            && (!Committed(FlightOf(w')) ==> w'.rows == w.rows && Items(w') == Items(w))
            && (Committed(FlightOf(w')) ==> RowIs(w, FlightOf(w).id, Proposed) && Current(w, FlightOf(w).id))
  {
    if later != r {
      SinceBegun(env, r, later.prev);
      BeforeCommitted(env, later.prev.Last(), later.act);
    }
  }

  lemma ExposedCopy(env: Env, w: World)
    requires InFlight(w) && FlightInv(env, w, FlightOf(w)) && FlightOf(w).touched == {} && Exposed(FlightOf(w))
    ensures var f := FlightOf(w);
            && !FoldTaken(env, f.before, f.to)
            && IdentityAt(env, f.before, f.from) == Ok(f.expected) && f.expected.size > 0
  {
  }

  lemma {:induction false} StartIsLegal(env: Env, r: Run, later: Run)
    requires Legal(env, later) && SameFlight(later, r)
    ensures Legal(env, r)
  {
    if later != r {
      StartIsLegal(env, r, later.prev);
    }
  }

  lemma OnlyThen(env: Env, r: Run, later: Run)
    requires Legal(env, later) && SameFlight(later, r) && JustBegun(r.Last()) && Untruthful(later.Last())
    ensures WillExpose(env, r.Last())
  {
    hide Legal;
    SinceBegun(env, r, later);
    StartIsLegal(env, r, later);
    FlightHolds(env, r);
    FlightHolds(env, later);
    FlightIsTrue(env, later.Last());
    ExposedCopy(env, later.Last());
    SameFiles(r.Last().files, Expect(FlightOf(r.Last())));
  }

  // ---------------------------------------------------------------- then indeed

  /** The move under way stands as it stood, at this phase, with its row in this state. */
  predicate Stands(w: World, start: World, phase: Phase, s: JState)
    requires InFlight(start)
  {
    && InFlight(w) && w.files == start.files && FlightOf(w) == FlightOf(start).(phase := phase)
    && RowIs(w, FlightOf(start).id, s)
  }

  lemma FlyOn(env: Env, r: Run, early: Run, a: Action) returns (r': Run)
    requires Legal(env, r) && SameFlight(r, early) && Enabled(env, r.Last(), a) && !a.Outside?
    requires InFlight(Apply(env, r.Last(), a))
    ensures r' == Then(r, a, Apply(env, r.Last(), a)) && Legal(env, r') && SameFlight(r', early)
  {
    r' := Then(r, a, Apply(env, r.Last(), a));
  }

  lemma Approving(env: Env, r: Run) returns (r': Run)
    requires Legal(env, r) && JustBegun(r.Last()) && WillExpose(env, r.Last())
    ensures Legal(env, r') && SameFlight(r', r) && Stands(r'.Last(), r.Last(), Ready, Approved)
  {
    hide Marked;
    hide Legal;
    hide SameFlight;
    hide IdentityAt;
    assert SameFlight(r, r) by { StartsSame(r); }
    r' := FlyOn(env, r, r, CheckFree);
    r' := FlyOn(env, r', r, Commit(Approved, 0));
  }

  lemma StartsSame(r: Run)
    ensures SameFlight(r, r)
  {
  }

  lemma BeginningToCopy(env: Env, r: Run) returns (r': Run)
    requires Legal(env, r) && JustBegun(r.Last()) && WillExpose(env, r.Last())
    ensures Legal(env, r') && SameFlight(r', r) && Stands(r'.Last(), r.Last(), Ready, Copying)
  {
    hide Legal;
    hide SameFlight;
    hide FoldTaken;
    hide IdentityAt;
    hide Marked;
    r' := Approving(env, r);
    r' := FlyOn(env, r', r, Commit(Copying, 0));
  }

  lemma ItHappens(env: Env, r: Run) returns (later: Run)
    requires Legal(env, r) && JustBegun(r.Last()) && WillExpose(env, r.Last())
    ensures Legal(env, later) && SameFlight(later, r) && Untruthful(later.Last())
  {
    hide Legal;
    hide SameFlight;
    FlightHolds(env, r);
    var w, f := r.Last(), FlightOf(r.Last());
    SameFiles(w.files, f.before);
    hide FlightInv;
    assert f.to !in w.files;
    later := BeginningToCopy(env, r);
    later := FlyOn(env, later, r, File(CreateStage(0, 0)));
    assert later.Last().files[f.to].bytes == [];
  }
}
