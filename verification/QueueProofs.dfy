/** Every action keeps the queue and journal invariant. */
module QueueProofs {
  import opened Model
  import opened Journals
  import opened Machine
  import opened Paths
  import opened Invariants
  import Rules

  // ---------------------------------------------------------------- roots

  lemma {:induction false} FindRootAppend(roots: seq<Root>, root: Root, id: Id, role: Role)
    requires root.id != id
    ensures FindRoot(roots + [root], id, role) == FindRoot(roots, id, role)
  {
    if roots == [] {
      assert [root][1..] == [];
      assert roots + [root] == [root];
    } else {
      assert (roots + [root])[1..] == roots[1..] + [root];
      FindRootAppend(roots[1..], root, id, role);
    }
  }

  lemma {:induction false} FindRootWithout(roots: seq<Root>, gone: Id, id: Id, role: Role)
    ensures FindRoot(WithoutRoot(roots, gone), id, role) == if id == gone then None else FindRoot(roots, id, role)
  {
    if roots != [] {
      FindRootWithout(roots[1..], gone, id, role);
      var rest := WithoutRoot(roots[1..], gone);
      if roots[0].id != gone {
        assert ([roots[0]] + rest)[1..] == rest;
      } else {
        assert [] + rest == rest;
      }
    }
  }

  lemma {:induction false} WithoutRootDistinct(roots: seq<Root>, gone: Id)
    requires RootsDistinct(roots)
    ensures RootsDistinct(WithoutRoot(roots, gone)) && |WithoutRoot(roots, gone)| <= |roots|
  {
    if roots != [] {
      WithoutRootDistinct(roots[1..], gone);
      var r, rest := WithoutRoot(roots, gone), WithoutRoot(roots[1..], gone);
      forall i, j | 0 <= i < j < |r| ensures r[i].id != r[j].id && r[i].path != r[j].path {
        if roots[0].id == gone {
          assert r == rest;
        } else if i == 0 {
          assert r[j] in rest;
          var k :| 0 <= k < |roots[1..]| && roots[1..][k] == r[j];
          assert roots[k + 1] == r[j];
        }
      }
    }
  }

  lemma {:induction false} RolesAgree(roots: seq<Root>, id: Id, role: Role)
    requires RootsDistinct(roots) && FindRoot(roots, id, role).Some?
    ensures FindRoot(roots, id, AnyRole) == FindRoot(roots, id, role)
  {
    var found := FindRoot(roots, id, role).value;
    var any := FindRoot(roots, id, AnyRole);
    assert HasRole(found, AnyRole);
    var i :| 0 <= i < |roots| && roots[i] == found;
    var j :| 0 <= j < |roots| && roots[j] == any.value;
    if i < j {
    } else if j < i {
    }
  }

  // ---------------------------------------------------------------- counting

  lemma {:induction false} CountAppend(items: seq<Proposal>, item: Proposal)
    ensures ProposedCount(items + [item]) == ProposedCount(items) + (if item.status.SProposed? then 1 else 0)
  {
    if items == [] {
      assert items + [item] == [item];
      assert ProposedCount([item][1..]) == 0;
    } else {
      assert (items + [item])[1..] == items[1..] + [item];
      CountAppend(items[1..], item);
    }
  }

  /** Where the items are that wait for a decision. */
  function WaitingAt(items: seq<Proposal>): set<nat> {
    set i: nat | i < |items| && items[i].status == SProposed
  }

  lemma {:induction false} CountIsWaiting(items: seq<Proposal>)
    ensures ProposedCount(items) == |WaitingAt(items)|
  {
    if items != [] {
      var n := |items| - 1;
      CountIsWaiting(items[..n]);
      CountAppend(items[..n], items[n]);
      assert items == items[..n] + [items[n]];
      WaitingAtLast(items, n);
      hide WaitingAt;
      hide ProposedCount;
    }
  }

  lemma WaitingAtLast(items: seq<Proposal>, n: nat)
    requires |items| == n + 1
    ensures |WaitingAt(items)| == |WaitingAt(items[..n])| + if items[n].status == SProposed then 1 else 0
  {
    if items[n].status == SProposed {
      assert WaitingAt(items) == WaitingAt(items[..n]) + {n};
    } else {
      assert WaitingAt(items) == WaitingAt(items[..n]);
    }
  }

  lemma {:induction false} CountUpdate(items: seq<Proposal>, i: nat, item: Proposal)
    requires i < |items| && (item.status.SProposed? ==> items[i].status.SProposed?)
    ensures ProposedCount(items[i := item]) <= ProposedCount(items)
  {
    if i == 0 {
      assert items[0 := item][1..] == items[1..];
    } else {
      assert items[i := item][1..] == items[1..][i - 1 := item];
      CountUpdate(items[1..], i - 1, item);
    }
  }

  lemma {:induction false} DropFinishedKeeps(items: seq<Proposal>, remove: nat)
    requires AllApart(items)
    ensures AllApart(DropFinished(items, remove))
    ensures forall p <- DropFinished(items, remove) :: p in items
    ensures ProposedCount(DropFinished(items, remove)) == ProposedCount(items)
    decreases |items|
  {
    if items != [] {
      var next := if FinishedItem(items[0]) && remove > 0 then remove - 1 else remove;
      DropFinishedKeeps(items[1..], next);
      var r, rest := DropFinished(items, remove), DropFinished(items[1..], next);
      if r != rest {
        assert r == [items[0]] + rest;
        assert r[1..] == rest;
        forall i, j | 0 <= i < j < |r| ensures Apart(r[i], r[j]) {
          if i == 0 {
            assert r[j] in rest;
            var k :| 0 <= k < |items[1..]| && items[1..][k] == r[j];
            assert items[k + 1] == r[j];
          }
        }
      }
    }
  }

  // ---------------------------------------------------------------- rows move up

  lemma BumpKeepsBound(st: State, rows: Rows, id: Id, row: Row)
    requires BoundInv(st, rows) && id in rows
    requires row.revision > rows[id].revision && Rank(row.state) >= Rank(rows[id].state) && row.source == rows[id].source
    ensures BoundInv(st, rows[id := row])
  {
  }

  lemma MarkKeepsState(env: Env, st: State, rows: Rows, issued: set<Id>, id: Id, revision: nat, status: Status)
    requires StateInv(env, st, issued) && BoundInv(st, rows)
    requires id in rows && revision == rows[id].revision && !rows[id].state.Proposed?
    requires !status.SProposed? ==> Rank(rows[id].state) >= 5
    requires status.SProposed? && Has(st.proposals, id) ==> Item(st.proposals, id).status.SProposed?
    ensures StateInv(env, st.(proposals := Marked(st.proposals, id, revision, status)), issued)
    ensures BoundInv(st.(proposals := Marked(st.proposals, id, revision, status)), rows)
  {
    var items := st.proposals;
    if Has(items, id) {
      var i := Position(items, id);
      var item := items[i].(revision := revision, status := status);
      var marked := items[i := item];
      CountUpdate(items, i, item);
      forall a, b | 0 <= a < b < |marked| ensures Apart(marked[a], marked[b]) {
        assert Apart(items[a], items[b]);
      }
      forall p | p in marked ensures Known(p, issued) && (p.id in rows ==> Bound(st.(proposals := marked), p, rows[p.id])) {
        if p != item {
          assert p in items;
          assert p.id in rows ==> Bound(st, p, rows[p.id]);
        } else {
          assert items[i] in items;
          assert Bound(st, items[i], rows[id]);
        }
      }
    }
  }

  lemma MarkKeepsPair(saved: State, st: State, id: Id, revision: nat, status: Status)
    requires PairInv(saved, st)
    requires status.SProposed? && Has(st.proposals, id) ==> Item(st.proposals, id).status.SProposed?
    ensures PairInv(saved, st.(proposals := Marked(st.proposals, id, revision, status)))
  {
    var items := st.proposals;
    if Has(items, id) {
      var i := Position(items, id);
      forall p, q | p in saved.proposals && q in Marked(items, id, revision, status) ensures SameItem(p, q) {
        if q !in items {
          assert SameItem(p, items[i]);
        }
      }
    }
  }

  lemma SelfPair(env: Env, st: State, issued: set<Id>)
    requires StateInv(env, st, issued)
    ensures PairInv(st, st)
  {
    forall p, q | p in st.proposals && q in st.proposals ensures SameItem(p, q) {
      var i :| 0 <= i < |st.proposals| && st.proposals[i] == p;
      var j :| 0 <= j < |st.proposals| && st.proposals[j] == q;
      assert i < j ==> Apart(p, q);
      assert j < i ==> Apart(q, p);
    }
  }

  /** A row climbs and the item in memory is marked with its new revision. */
  lemma BumpAndMark(env: Env, w: World, id: Id, row: Row, status: Status)
    requires QueueInv(env, w) && IsUp(w) && id in w.rows
    requires row.revision == w.rows[id].revision + 1 && Rank(row.state) > Rank(w.rows[id].state)
    requires row.source == w.rows[id].source && row.rowid == w.rows[id].rowid
    requires row.state.Approved? ==> row.sha.None?
    requires !status.SProposed? ==> Rank(row.state) >= 5
    requires status.SProposed? && Has(Items(w), id) ==> Item(Items(w), id).status.SProposed?
    ensures QueueInv(env, WithRow(WithItems(w, Marked(Items(w), id, row.revision, status)), id, row))
    ensures QueueInv(env, WithRow(w, id, row))
  {
    BumpKeepsBound(w.saved, w.rows, id, row);
    BumpKeepsBound(Memory(w), w.rows, id, row);
    var rows := w.rows[id := row];
    MarkKeepsState(env, Memory(w), rows, w.issued, id, row.revision, status);
    MarkKeepsPair(w.saved, Memory(w), id, row.revision, status);
  }

  // ---------------------------------------------------------------- one lemma per kind of action

  lemma CommitKeepsQueue(env: Env, w: World, next: JState, now: int)
    requires QueueInv(env, w) && InFlight(w) && CanCommit(env, w, next)
    requires FlightInv(env, w, FlightOf(w))
    ensures QueueInv(env, AfterCommit(w, next, now))
  {
    hide Marked;
    var id := FlightOf(w).id;
    var row := Moved(w.rows[id], next, now);
    var status :=
      if next.Completed? then SCompleted else if next.Undone? then SUndone else Item(Items(w), id).status;
    if !status.SProposed? && !next.Completed? && !next.Undone? {
      assert Item(Items(w), id) in Items(w);
      assert id in w.rows ==> Bound(Memory(w), Item(Items(w), id), w.rows[id]);
    }
    BumpAndMark(env, w, id, row, status);
  }

  lemma SettleKeepsQueue(env: Env, w: World, now: int)
    requires QueueInv(env, w) && Enabled(env, w, SettleNext(now))
    ensures QueueInv(env, AfterSettle(w, now))
  {
    var id := w.proc.task.todo[0];
    match HeadVerdict(w)
    case None =>
    case Some(next) =>
      BumpAndMark(env, w, id, Moved(w.rows[id], next, now), if next.Completed? then SCompleted else SNeedsAttention);
  }

  lemma IgnoreKeepsQueue(env: Env, w: World, id: Id, now: int)
    requires QueueInv(env, w) && Enabled(env, w, Ignore(id, now))
    ensures QueueInv(env, AfterIgnore(w, id, now))
  {
    BumpAndMark(env, w, id, Moved(w.rows[id], Ignored, now), SIgnored);
  }

  lemma ReviseKeepsQueue(env: Env, w: World, id: Id, choice: Choice, name: Name, now: int)
    requires QueueInv(env, w) && Enabled(env, w, Revise(id, choice, name, now))
    ensures QueueInv(env, AfterRevise(w, id, choice, name, now))
  {
    var st, items, i := Memory(w), Items(w), Position(Items(w), id);
    var row := Revised(w.rows[id], ChosenPath(st.roots, choice, name).value, now);
    var item := items[i].(revision := row.revision, destination := Some(choice), name := name);
    var rows, st' := w.rows[id := row], st.(proposals := items[i := item]);
    assert items[i] in items;
    BumpKeepsBound(w.saved, w.rows, id, row);
    BumpKeepsBound(st, w.rows, id, row);
    CountUpdate(items, i, item);
    var revised := items[i := item];
    forall a, b | 0 <= a < b < |items| ensures Apart(revised[a], revised[b]) {
      assert Apart(items[a], items[b]);
    }
    forall p | p in st'.proposals ensures Known(p, w.issued) && (p.id in rows ==> Bound(st', p, rows[p.id])) {
      if p != item {
        assert p in items;
        assert p.id in rows ==> Bound(st, p, rows[p.id]);
      }
    }
    forall p, q | p in w.saved.proposals && q in st'.proposals ensures SameItem(p, q) {
      if q !in items {
        assert SameItem(p, items[i]);
      }
    }
  }

  lemma CreateKeepsState(env: Env, w: World, item: Proposal, row: Row)
    requires QueueInv(env, w) && IsUp(w) && CanCreate(w, item, row)
    ensures StateInv(env, Memory(w).(proposals := Items(w) + [item]), w.issued + {item.id})
    ensures StateInv(env, w.saved, w.issued + {item.id})
  {
    var items := Items(w);
    var all := items + [item];
    CountAppend(items, item);
    forall p | p in items ensures Apart(p, item) {
      assert Known(p, w.issued);
    }
    forall a, b | 0 <= a < b < |all| ensures Apart(all[a], all[b]) {
      if b == |items| {
        assert items[a] in items;
      } else {
        assert Apart(items[a], items[b]);
      }
    }
    assert forall p <- all :: p in items || p == item;
  }

  lemma CreateKeepsBound(env: Env, w: World, item: Proposal, row: Row)
    requires QueueInv(env, w) && IsUp(w) && CanCreate(w, item, row)
    ensures BoundInv(Memory(w).(proposals := Items(w) + [item]), w.rows[item.id := row])
    ensures BoundInv(w.saved, w.rows[item.id := row])
  {
    var st, rows := Memory(w), w.rows[item.id := row];
    var st' := st.(proposals := Items(w) + [item]);
    RolesAgree(st.roots, item.sourceRoot, WatchedRole);
    forall p | p in st'.proposals ensures p.id in rows ==> Bound(st', p, rows[p.id]) {
      if p in Items(w) {
        assert Known(p, w.issued);
        assert p.id in w.rows ==> Bound(st, p, w.rows[p.id]);
      }
    }
    forall p | p in w.saved.proposals ensures p.id in rows ==> Bound(w.saved, p, rows[p.id]) {
      assert Known(p, w.issued);
    }
  }

  lemma CreateKeepsQueue(env: Env, w: World, item: Proposal, row: Row)
    requires QueueInv(env, w) && Enabled(env, w, Create(item, row))
    ensures QueueInv(env, Apply(env, w, Create(item, row)))
  {
    CreateKeepsState(env, w, item, row);
    CreateKeepsBound(env, w, item, row);
    hide BoundInv;
    var st' := Memory(w).(proposals := Items(w) + [item]);
    forall p, q | p in w.saved.proposals && q in st'.proposals ensures SameItem(p, q) {
      if q !in Items(w) {
        assert Known(p, w.issued);
      }
    }
    assert PairInv(w.saved, st');
    hide PairInv;
    hide StateInv;
  }

  lemma AddRootKeepsBound(st: State, rows: Rows, issued: set<Id>, root: Root)
    requires BoundInv(st, rows) && root.id !in issued && forall p <- st.proposals :: Known(p, issued)
    ensures BoundInv(st.(roots := st.roots + [root]), rows)
  {
    var st' := st.(roots := st.roots + [root]);
    forall p | p in st.proposals ensures p.id in rows ==> Bound(st', p, rows[p.id]) {
      assert Known(p, issued);
      FindRootAppend(st.roots, root, p.sourceRoot, AnyRole);
      if p.destination.Some? {
        FindRootAppend(st.roots, root, p.destination.value.root, DestinationRole);
      }
    }
  }

  lemma RemoveRootKeepsBound(st: State, rows: Rows, id: Id)
    requires BoundInv(st, rows)
    ensures BoundInv(st.(roots := WithoutRoot(st.roots, id)), rows)
  {
    var st' := st.(roots := WithoutRoot(st.roots, id));
    forall p | p in st.proposals ensures p.id in rows ==> Bound(st', p, rows[p.id]) {
      FindRootWithout(st.roots, id, p.sourceRoot, AnyRole);
      if p.destination.Some? {
        FindRootWithout(st.roots, id, p.destination.value.root, DestinationRole);
      }
    }
  }

  lemma EditKeepsQueue(env: Env, w: World, edit: Edit)
    requires QueueInv(env, w) && Enabled(env, w, Configure(edit))
    ensures QueueInv(env, AfterEdit(w, edit))
  {
    hide Marked;
    hide ProposedCount;
    var st := Memory(w);
    match edit
    case SetPaused(_) =>
    case AddRule(rule) => assert forall r <- st.rules + [rule] :: r in st.rules || r == rule;
    case AddRoot(root) => AddRootKeepsBound(st, w.rows, w.issued, root);
    case RemoveRoot(id) =>
      WithoutRootDistinct(st.roots, id);
      RemoveRootKeepsBound(st, w.rows, id);
  }

  lemma PruneKeepsQueue(env: Env, w: World)
    requires QueueInv(env, w) && IsUp(w)
    ensures QueueInv(env, WithItems(w, PruneItems(Items(w))))
  {
    var n := Finished(Items(w));
    DropFinishedKeeps(Items(w), if n > MAX_TERMINAL then n - MAX_TERMINAL else 0);
  }

  lemma DigestKeepsQueue(env: Env, w: World, step: FileStep)
    requires QueueInv(env, w) && Enabled(env, w, File(step))
    ensures QueueInv(env, Apply(env, w, File(step)))
  {
    if step.RecordDigest? {
      var w' := Apply(env, w, File(step));
      forall p | p in w.saved.proposals ensures p.id in w'.rows ==> Bound(w.saved, p, w'.rows[p.id]) {
      }
      forall p | p in Items(w) ensures p.id in w'.rows ==> Bound(Memory(w), p, w'.rows[p.id]) {
      }
    }
  }

  lemma StoreKeepsQueue(env: Env, w: World, a: Action)
    requires QueueInv(env, w) && Enabled(env, w, a) && (a.Load? || a.Save?)
    ensures QueueInv(env, Apply(env, w, a))
  {
    SelfPair(env, if a.Load? then w.saved else Memory(w), w.issued);
  }

  lemma RetainKeepsQueue(env: Env, w: World, kept: Rows)
    requires QueueInv(env, w) && IsUp(w) && Within(kept, w.rows)
    ensures QueueInv(env, w.(rows := kept))
  {
  }

  /** Same queue, saved queue and rows. */
  predicate SameStores(w: World, w': World) {
    && w'.rows == w.rows && w'.saved == w.saved && w'.issued == w.issued
    && (w'.proc.Up? ==> w.proc.Up? && w'.proc.state == w.proc.state)
  }

  lemma SameStoresKeepQueue(env: Env, w: World, w': World)
    requires QueueInv(env, w) && SameStores(w, w')
    ensures QueueInv(env, w')
  {
  }

  lemma StepKeepsQueue(env: Env, w: World, a: Action)
    requires Inv(env, w) && Enabled(env, w, a)
    ensures QueueInv(env, Apply(env, w, a))
  {
    hide AfterStep;
    hide AfterCommit;
    hide AfterRevise;
    hide AfterCreate;
    hide AfterSettle;
    hide AfterEdit;
    hide AfterIgnore;
    hide FlightInv;
    hide LoadInv;
    hide TodoInv;
    hide QueueInv;
    hide DropAged;
    hide DropExcess;
    hide CanStep;
    hide CanCommit;
    hide CanCreate;
    hide CanConfigure;
    match a
    case Commit(next, now) => CommitKeepsQueue(env, w, next, now);
    case SettleNext(now) => SettleKeepsQueue(env, w, now);
    case Ignore(id, now) => IgnoreKeepsQueue(env, w, id, now);
    case Revise(id, choice, name, now) => ReviseKeepsQueue(env, w, id, choice, name, now);
    case Create(item, row) => CreateKeepsQueue(env, w, item, row);
    case Configure(edit) => EditKeepsQueue(env, w, edit);
    case Prune => PruneKeepsQueue(env, w);
    case File(step) => DigestKeepsQueue(env, w, step);
    case Load => StoreKeepsQueue(env, w, a);
    case Save => StoreKeepsQueue(env, w, a);
    case RetainYoung(_) => RetainKeepsQueue(env, w, Apply(env, w, a).rows);
    case RetainNewest => RetainKeepsQueue(env, w, Apply(env, w, a).rows);
    case _ => SameStoresKeepQueue(env, w, Apply(env, w, a));
  }
}
