/** When an undo is journalled at all, known when it begins; for an entry between two file systems that is
    exactly the harm a stale item can do. */
module CopyUndo {
  import opened Model
  import opened Journals
  import opened Machine
  import opened Invariants
  import opened FlightProofs
  import opened FileTheorems
  import opened Exposure
  import opened UndoTheorems

  predicate UndoBegun(w: World) {
    InFlight(w) && FlightOf(w).kind.Undo? && FlightOf(w).phase.Opened? && FlightOf(w).touched == {}
  }

  predicate Journalled(w: World) {
    InFlight(w) && Committed(FlightOf(w)) && RowIs(w, FlightOf(w).id, Undoing)
  }

  /** The item resolves to a path on the file system of the source, the original name is free, and the entry is
      completed at the revision of the item. */
  predicate WillBeJournalled(env: Env, w: World)
    requires InFlight(w)
  {
    var f := FlightOf(w);
    && f.from != [] && f.to != [] && SameDevice(env, f.from, f.to)
    && !FoldTaken(env, w.files, f.to)
    && RowIs(w, f.id, Completed) && Current(w, f.id)
  }

  /** With no other writer, an undo that has just begun can come to be journalled if and only if the item
      resolves to the source's file system, the name is free and the entry completed at this revision. If
      the move was a copy, that takes an entry that has gone astray. */
  lemma JournalledIff(env: Env, r: Run)
    requires Legal(env, r) && UndoBegun(r.Last())
    ensures (exists later: Run :: Legal(env, later) && SameFlight(later, r) && Journalled(later.Last()))
            <==> WillBeJournalled(env, r.Last())
    ensures WillBeJournalled(env, r.Last()) && WasCopied(env, r.Last().rows, FlightOf(r.Last()).id) ==>
              Astray(env, r, FlightOf(r.Last()).id)
  {
    forall later: Run | Legal(env, later) && SameFlight(later, r) && Journalled(later.Last())
      ensures WillBeJournalled(env, r.Last())
    {
      OnlyThenJournalled(env, r, later);
    }
    if WillBeJournalled(env, r.Last()) {
      var later := ThenJournalled(env, r);
      CopyIsAstray(env, r);
    }
  }

  lemma BeforeJournalled(env: Env, w: World, a: Action)
    requires Enabled(env, w, a) && !a.Outside? && InFlight(w) && InFlight(Apply(env, w, a)) && FlightOf(w).kind.Undo?
    ensures var f, w' := FlightOf(w), Apply(env, w, a);
            && SameMove(f, FlightOf(w')) && FlightOf(w').touched == f.touched
            && (!Committed(FlightOf(w')) ==> !Committed(f) && w'.rows == w.rows && Items(w') == Items(w))
            && (Committed(FlightOf(w')) && !Committed(f) ==>
                  RowIs(w, f.id, Completed) && Current(w, f.id) && f.from != [] && f.to != [] && SameDevice(env, f.from, f.to))
  {
    hide CanCreate;
    hide CanBegin;
    hide Marked;
    hide IdentityAt;
    FlightGoesOn(env, w, a);
  }

  lemma {:induction false} SinceUndoBegun(env: Env, r: Run, later: Run)
    requires Legal(env, later) && SameFlight(later, r) && UndoBegun(r.Last())
    ensures InFlight(later.Last())
    ensures var w, f, w' := r.Last(), FlightOf(r.Last()), later.Last();
            && SameMove(f, FlightOf(w')) && FlightOf(w').touched == {}
            && (!Committed(FlightOf(w')) ==> w'.rows == w.rows && Items(w') == Items(w))
            && (Committed(FlightOf(w')) ==>
                  RowIs(w, f.id, Completed) && Current(w, f.id) && f.from != [] && f.to != [] && SameDevice(env, f.from, f.to))
  {
    if later != r {
      SinceUndoBegun(env, r, later.prev);
      BeforeJournalled(env, later.prev.Last(), later.act);
    }
  }

  lemma FreeWhenBegun(env: Env, w: World)
    requires InFlight(w) && FlightInv(env, w, FlightOf(w)) && FlightOf(w).touched == {} && !FlightOf(w).phase.Opened?
    ensures FlightOf(w).to != [] && !FoldTaken(env, FlightOf(w).before, FlightOf(w).to)
  {
  }

  lemma OnlyThenJournalled(env: Env, r: Run, later: Run)
    requires Legal(env, later) && SameFlight(later, r) && UndoBegun(r.Last()) && Journalled(later.Last())
    ensures WillBeJournalled(env, r.Last())
  {
    hide Legal;
    SinceUndoBegun(env, r, later);
    StartIsLegal(env, r, later);
    FlightHolds(env, r);
    FlightHolds(env, later);
    FreeWhenBegun(env, later.Last());
    SameFiles(r.Last().files, Expect(FlightOf(r.Last())));
  }

  lemma ThenJournalled(env: Env, r: Run) returns (later: Run)
    requires Legal(env, r) && UndoBegun(r.Last()) && WillBeJournalled(env, r.Last())
    ensures Legal(env, later) && SameFlight(later, r) && Journalled(later.Last())
  {
    hide Legal;
    hide SameFlight;
    hide FoldTaken;
    StartsSame(r);
    later := FlyOn(env, r, r, CheckFree);
    later := FlyOn(env, later, r, Commit(Undoing, 0));
  }

  lemma CopyIsAstray(env: Env, r: Run)
    requires Legal(env, r) && UndoBegun(r.Last()) && WillBeJournalled(env, r.Last())
    ensures WasCopied(env, r.Last().rows, FlightOf(r.Last()).id) ==> Astray(env, r, FlightOf(r.Last()).id)
  {
    hide Legal;
    var f := FlightOf(r.Last());
    FlightHolds(env, r);
    if WasCopied(env, r.Last().rows, f.id) && !Astray(env, r, f.id) {
      assert Item(Items(r.Last()), f.id) in Items(r.Last());
      CopyResolvesAcross(env, r, Item(Items(r.Last()), f.id));
    }
  }
}
