/** The single-writer journal (crates/sortinghat-journal): one row per proposal, changed only by
    compare-and-swap on its revision, with bounded retention of finished rows. */
module Journals {
  import opened Model

  const MAX_ACTIVE: nat := 1000
  const MAX_I64: nat := 0x7FFF_FFFF_FFFF_FFFF

  datatype JournalError =
    | Limit | NotFound | RevisionConflict | InvalidTransition | CorruptState | Range | Database

  predicate Terminal(s: JState) {
    s.Completed? || s.Undone? || s.FailedSafely? || s.Ignored?
  }

  predicate Allowed(from: JState, to: JState) {
    if to == NeedsAttention then !Terminal(from)
    else
      match from
      case Proposed => to == Approved || to == Ignored
      case Approved => to == Copying || to == Published || to == FailedSafely
      case Copying => to == Published || to == FailedSafely
      case Published => to == SourceRemoved || to == FailedSafely
      case SourceRemoved => to == Completed
      case Completed => to == Undoing
      case Undoing => to == Undone || to == FailedSafely
      case _ => false
  }

  /** The states a restart may not leave behind: an operation was under way. */
  predicate Unsettled(s: JState) {
    s.Approved? || s.Copying? || s.Published? || s.SourceRemoved? || s.Undoing?
  }

  /** Height of a state: every change the service makes climbs. */
  function Rank(s: JState): nat {
    match s
    case Proposed => 0
    case Approved => 1
    case Copying => 2
    case Published => 3
    case SourceRemoved => 4
    case Completed => 5
    case Undoing => 6
    case _ => 7
  }

  /** The entries that are not finished. */
  function Active(rows: Rows): (ids: set<Id>)
    ensures forall id :: id in ids <==>
              id in rows
              && rows[id].state in {Proposed, Approved, Copying, Published, SourceRemoved, Undoing, NeedsAttention}
  {
    set id | id in rows && !Terminal(rows[id].state)
  }

  /** The journal was written for two kinds of life: a rename and a copy, each followed by an undo. */
  const RENAMED: seq<JState> := [Proposed, Approved, Published, SourceRemoved, Completed, Undoing, Undone]
  const COPIED: seq<JState> := [Proposed, Approved, Copying, Published, SourceRemoved, Completed, Undoing, Undone]

  predicate Successive(life: seq<JState>, from: JState, to: JState) {
    |life| > 1 && ((life[0] == from && life[1] == to) || Successive(life[1..], from, to))
  }

  /** A change is allowed exactly if it is the next step of such a life, dismisses a proposal, gives up an
      operation between its start and its last step, or asks for attention before the entry is finished. */
  lemma AllowedIsTheNextStep(from: JState, to: JState)
    ensures Allowed(from, to) <==>
              || Successive(RENAMED, from, to) || Successive(COPIED, from, to)
              || (from == Proposed && to == Ignored)
              || (from in {Approved, Copying, Published, Undoing} && to == FailedSafely)
              || (from !in {Completed, Undone, FailedSafely, Ignored} && to == NeedsAttention)
  {
    RenamedSteps(from, to);
    CopiedSteps(from, to);
    hide Successive;
  }

  lemma RenamedSteps(from: JState, to: JState)
    ensures Successive(RENAMED, from, to) <==>
              (from, to) in {(Proposed, Approved), (Approved, Published), (Published, SourceRemoved),
                             (SourceRemoved, Completed), (Completed, Undoing), (Undoing, Undone)}
  {
    hide Successive;
    EndingSteps(from, to);
    FirstStep(Approved, ENDING, from, to);
    FirstStep(Proposed, [Approved] + ENDING, from, to);
    assert RENAMED == [Proposed] + ([Approved] + ENDING);
  }

  lemma CopiedSteps(from: JState, to: JState)
    ensures Successive(COPIED, from, to) <==>
              (from, to) in {(Proposed, Approved), (Approved, Copying), (Copying, Published), (Published, SourceRemoved),
                             (SourceRemoved, Completed), (Completed, Undoing), (Undoing, Undone)}
  {
    hide Successive;
    EndingSteps(from, to);
    FirstStep(Copying, ENDING, from, to);
    FirstStep(Approved, [Copying] + ENDING, from, to);
    FirstStep(Proposed, [Approved] + ([Copying] + ENDING), from, to);
    assert COPIED == [Proposed] + ([Approved] + ([Copying] + ENDING));
  }

  const ENDING: seq<JState> := [Published, SourceRemoved, Completed, Undoing, Undone]

  lemma EndingSteps(from: JState, to: JState)
    ensures Successive(ENDING, from, to) <==>
              (from, to) in {(Published, SourceRemoved), (SourceRemoved, Completed), (Completed, Undoing), (Undoing, Undone)}
  {
    assert !Successive([Undone], from, to);
    hide Successive;
    FirstStep(Undoing, [Undone], from, to);
    FirstStep(Completed, [Undoing, Undone], from, to);
    FirstStep(SourceRemoved, [Completed, Undoing, Undone], from, to);
    FirstStep(Published, [SourceRemoved, Completed, Undoing, Undone], from, to);
    assert [Undoing] + [Undone] == [Undoing, Undone];
    assert [Completed] + [Undoing, Undone] == [Completed, Undoing, Undone];
    assert [SourceRemoved] + [Completed, Undoing, Undone] == [SourceRemoved, Completed, Undoing, Undone];
    assert [Published] + [SourceRemoved, Completed, Undoing, Undone] == ENDING;
  }

  lemma FirstStep(a: JState, rest: seq<JState>, from: JState, to: JState)
    requires rest != []
    ensures Successive([a] + rest, from, to) <==> (a == from && rest[0] == to) || Successive(rest, from, to)
  {
    assert ([a] + rest)[1..] == rest;
  }

  function Moved(row: Row, next: JState, now: int): Row {
    row.(state := next, revision := row.revision + 1, updatedAt := now)
  }

  function Revised(row: Row, dest: Path, now: int): Row {
    row.(dest := dest, revision := row.revision + 1, updatedAt := now)
  }

  predicate HexDigest(d: Digest) {
    |d| == 64 && forall i :: 0 <= i < 64 ==> '0' <= d[i] <= '9' || 'a' <= d[i] <= 'f' || 'A' <= d[i] <= 'F'
  }

  const HEX_DIGITS: set<char> :=
    {'0', '1', '2', '3', '4', '5', '6', '7', '8', '9', 'a', 'b', 'c', 'd', 'e', 'f', 'A', 'B', 'C', 'D', 'E', 'F'}

  lemma HexDigits(d: Digest)
    ensures HexDigest(d) <==> |d| == 64 && forall c <- d :: c in HEX_DIGITS
  {
    if |d| == 64 {
      forall i | 0 <= i < 64
        ensures d[i] in HEX_DIGITS <==> '0' <= d[i] <= '9' || 'a' <= d[i] <= 'f' || 'A' <= d[i] <= 'F'
      {
        HexDigit(d[i]);
      }
    }
  }

  lemma HexDigit(c: char)
    ensures c in HEX_DIGITS <==> '0' <= c <= '9' || 'a' <= c <= 'f' || 'A' <= c <= 'F'
  {
  }

  // ---------------------------------------------------------------- row order

  predicate DistinctRowids(rows: Rows) {
    forall a, b :: a in rows && b in rows && rows[a].rowid == rows[b].rowid ==> a == b
  }

  /** ORDER BY updated_at, rowid of two rows. */
  predicate ChangedBefore(a: Row, b: Row) {
    a.updatedAt < b.updatedAt || (a.updatedAt == b.updatedAt && a.rowid < b.rowid)
  }

  predicate Older(rows: Rows, a: Id, b: Id)
    requires a in rows && b in rows
  {
    rows[a].updatedAt < rows[b].updatedAt
    || (rows[a].updatedAt == rows[b].updatedAt && rows[a].rowid < rows[b].rowid)
  }

  predicate IsOldest(rows: Rows, ids: set<Id>, x: Id)
    requires ids <= rows.Keys
  {
    x in ids && forall y <- ids :: !Older(rows, y, x)
  }

  lemma {:induction false} OldestExists(rows: Rows, ids: set<Id>)
    requires ids != {} && ids <= rows.Keys
    ensures exists x :: IsOldest(rows, ids, x)
  {
    var some :| some in ids;
    var rest := ids - {some};
    assert forall y <- ids :: y == some || y in rest;
    if rest == {} {
      assert IsOldest(rows, ids, some);
    } else {
      OldestExists(rows, rest);
      var x :| IsOldest(rows, rest, x);
      assert IsOldest(rows, ids, if Older(rows, some, x) then some else x);
    }
  }

  /** ORDER BY updated_at, rowid. */
  function OldestFirst(rows: Rows, ids: set<Id>): (r: seq<Id>)
    requires ids <= rows.Keys && DistinctRowids(rows)
    ensures |r| == |ids| && forall x :: x in r <==> x in ids
  {
    if ids == {} then []
    else
      OldestExists(rows, ids);
      var x :| IsOldest(rows, ids, x);
      [x] + OldestFirst(rows, ids - {x})
  }

  ghost function NewerThan(rows: Rows, ids: set<Id>, x: Id): set<Id>
    requires ids <= rows.Keys && x in rows
  {
    set y | y in ids && Older(rows, x, y)
  }

  lemma OldestIsNotNewer(rows: Rows, ids: set<Id>, oldest: Id, x: Id)
    requires ids <= rows.Keys && IsOldest(rows, ids, oldest) && x in ids
    ensures NewerThan(rows, ids, x) == NewerThan(rows, ids - {oldest}, x)
  {
  }

  lemma OldestHasNewer(rows: Rows, ids: set<Id>, oldest: Id)
    requires ids <= rows.Keys && DistinctRowids(rows) && IsOldest(rows, ids, oldest)
    ensures NewerThan(rows, ids, oldest) == ids - {oldest}
  {
  }

  lemma OldestIsFirst(rows: Rows, ids: set<Id>)
    requires ids <= rows.Keys && DistinctRowids(rows) && ids != {}
    ensures var r := OldestFirst(rows, ids); IsOldest(rows, ids, r[0]) && r[1..] == OldestFirst(rows, ids - {r[0]})
  {
  }

  /** A row's position from the end is the number of rows newer than it. */
  lemma {:induction false} PositionCountsNewer(rows: Rows, ids: set<Id>, i: nat)
    requires ids <= rows.Keys && DistinctRowids(rows) && i < |ids|
    ensures |NewerThan(rows, ids, OldestFirst(rows, ids)[i])| == |ids| - 1 - i
    decreases i
  {
    var r := OldestFirst(rows, ids);
    var x, rest := r[0], ids - {r[0]};
    OldestIsFirst(rows, ids);
    hide NewerThan;
    hide IsOldest;
    if i == 0 {
      OldestHasNewer(rows, ids, x);
    } else {
      PositionCountsNewer(rows, rest, i - 1);
      assert r[i] == r[1..][i - 1] == OldestFirst(rows, rest)[i - 1];
      OldestIsNotNewer(rows, ids, x, r[i]);
    }
  }

  /** The order is strict: whatever comes later is newer. */
  lemma {:induction false} OldestFirstIsSorted(rows: Rows, ids: set<Id>, i: nat, j: nat)
    requires ids <= rows.Keys && DistinctRowids(rows) && i < j < |ids|
    ensures var r := OldestFirst(rows, ids);
            r[i] in ids && r[j] in ids && ChangedBefore(rows[r[i]], rows[r[j]]) && r[i] != r[j]
    decreases i
  {
    hide OldestFirst;
    var r := OldestFirst(rows, ids);
    var rest := ids - {r[0]};
    OldestIsFirst(rows, ids);
    assert r[j] == r[1..][j - 1] && r[j] in OldestFirst(rows, rest);
    if i > 0 {
      assert r[i] == r[1..][i - 1];
      OldestFirstIsSorted(rows, rest, i - 1, j - 1);
    }
  }

  // ---------------------------------------------------------------- retention

  function TerminalIds(rows: Rows): set<Id> {
    set id | id in rows && Terminal(rows[id].state)
  }

  predicate Within(kept: Rows, rows: Rows) {
    forall id <- kept :: id in rows && kept[id] == rows[id]
  }

  function DropAged(rows: Rows, now: int, maxAge: nat): (kept: Rows)
    ensures Within(kept, rows)
  {
    map id | id in rows && !(Terminal(rows[id].state) && rows[id].updatedAt < now - maxAge) :: rows[id]
  }

  /** Delete the terminal rows that ORDER BY updated_at DESC, rowid DESC puts after the first `retain`. */
  function DropExcess(rows: Rows, retain: nat): (kept: Rows)
    requires DistinctRowids(rows)
    ensures Within(kept, rows)
  {
    var order := OldestFirst(rows, TerminalIds(rows));
    if |order| <= retain then rows
    else
      var dropped := order[..|order| - retain];
      map id | id in rows && id !in dropped :: rows[id]
  }

  function Retained(rows: Rows, now: int, retain: nat, maxAge: nat): (kept: Rows)
    requires DistinctRowids(rows)
    ensures Within(kept, rows) && DistinctRowids(kept)
  {
    DropExcess(DropAged(rows, now, maxAge), retain)
  }

  /** The finished rows of the table that were changed later than this one. */
  ghost function FinishedLater(rows: Rows, id: Id): set<Id>
    requires id in rows
  {
    set y | y in rows && rows[y].state in {Completed, Undone, FailedSafely, Ignored} && ChangedBefore(rows[id], rows[y])
  }

  lemma NewerIsLater(rows: Rows, id: Id)
    requires id in rows
    ensures NewerThan(rows, TerminalIds(rows), id) == FinishedLater(rows, id)
  {
  }

  /** The count pass keeps every unfinished row, and of the finished ones those with fewer than `retain` later. */
  lemma DropExcessIsRank(rows: Rows, retain: nat, id: Id)
    requires DistinctRowids(rows) && id in rows
    ensures id in DropExcess(rows, retain) <==>
              || rows[id].state in {Proposed, Approved, Copying, Published, SourceRemoved, Undoing, NeedsAttention}
              || |FinishedLater(rows, id)| < retain
  {
    NewerIsLater(rows, id);
    hide OldestFirst;
    hide Older;
    hide ChangedBefore;
    var ids := TerminalIds(rows);
    var order := OldestFirst(rows, ids);
    if id in ids {
      assert id in order;
      var i :| 0 <= i < |order| && order[i] == id;
      PositionCountsNewer(rows, ids, i);
      if |order| > retain {
        var dropped := order[..|order| - retain];
        if id in dropped {
          var j :| 0 <= j < |dropped| && dropped[j] == id;
          PositionCountsNewer(rows, ids, j);
        }
        assert i < |dropped| ==> dropped[i] == id;
      }
    } else {
      assert forall x <- order[..|order|] :: x in order;
    }
  }

  /** What retention promises for one row: it stays while active; once terminal, while it is neither
      too old nor outnumbered by `retain` newer terminal rows of the whole table. */
  ghost predicate Deserves(rows: Rows, now: int, retain: nat, maxAge: nat, id: Id)
    requires id in rows
  {
    || rows[id].state in {Proposed, Approved, Copying, Published, SourceRemoved, Undoing, NeedsAttention}
    || (rows[id].updatedAt >= now - maxAge && |FinishedLater(rows, id)| < retain)
  }

  lemma RowIsRetainedIff(rows: Rows, now: int, retain: nat, maxAge: nat, id: Id)
    requires DistinctRowids(rows) && id in rows
    ensures id in Retained(rows, now, retain, maxAge) <==> Deserves(rows, now, retain, maxAge, id)
    ensures id in DropAged(DropExcess(rows, retain), now, maxAge) <==> Deserves(rows, now, retain, maxAge, id)
  {
    hide OldestFirst;
    var young := DropAged(rows, now, maxAge);
    DropExcessIsRank(rows, retain, id);
    if id in young {
      DropExcessIsRank(young, retain, id);
      if Terminal(rows[id].state) {
        assert FinishedLater(young, id) == FinishedLater(rows, id);
      }
    }
  }

  /** The age pass then the count pass keep exactly the deserving rows, unchanged. */
  lemma RetentionIsExact(rows: Rows, now: int, retain: nat, maxAge: nat)
    requires DistinctRowids(rows)
    ensures Within(Retained(rows, now, retain, maxAge), rows)
    ensures forall id <- rows ::
              id in Retained(rows, now, retain, maxAge) <==> Deserves(rows, now, retain, maxAge, id)
  {
    forall id | id in rows
      ensures id in Retained(rows, now, retain, maxAge) <==> Deserves(rows, now, retain, maxAge, id)
    {
      RowIsRetainedIff(rows, now, retain, maxAge, id);
    }
  }

  lemma SameRows(a: Rows, b: Rows, rows: Rows)
    requires Within(a, rows) && Within(b, rows)
    requires forall id <- rows :: id in a <==> id in b
    ensures a == b
  {
  }

  /** Running the passes in the other order keeps the same rows. */
  lemma PassesCommute(rows: Rows, now: int, retain: nat, maxAge: nat)
    requires DistinctRowids(rows)
    ensures Retained(rows, now, retain, maxAge) == DropAged(DropExcess(rows, retain), now, maxAge)
  {
    var a, b := Retained(rows, now, retain, maxAge), DropAged(DropExcess(rows, retain), now, maxAge);
    forall id | id in rows ensures id in a <==> id in b {
      RowIsRetainedIff(rows, now, retain, maxAge, id);
    }
    SameRows(a, b, rows);
  }

  lemma FewerLater(kept: Rows, rows: Rows, id: Id)
    requires Within(kept, rows) && id in kept
    ensures |FinishedLater(kept, id)| <= |FinishedLater(rows, id)|
  {
    SubsetCount(FinishedLater(kept, id), FinishedLater(rows, id));
  }

  /** Enforcing retention again at the same clock removes nothing more. */
  lemma RetentionIsIdempotent(rows: Rows, now: int, retain: nat, maxAge: nat)
    requires DistinctRowids(rows)
    ensures Retained(Retained(rows, now, retain, maxAge), now, retain, maxAge) == Retained(rows, now, retain, maxAge)
  {
    var kept := Retained(rows, now, retain, maxAge);
    forall id | id in kept
      ensures id in Retained(kept, now, retain, maxAge)
    {
      RowIsRetainedIff(rows, now, retain, maxAge, id);
      FewerLater(kept, rows, id);
      RowIsRetainedIff(kept, now, retain, maxAge, id);
    }
    SameRows(Retained(kept, now, retain, maxAge), kept, kept);
  }

  lemma {:induction false} SubsetCount<T>(a: set<T>, b: set<T>)
    requires a <= b
    ensures |a| <= |b|
  {
    assert b == a + (b - a);
    assert |b| == |a| + |b - a|;
  }

  // ---------------------------------------------------------------- the journal

  predicate AboveAll(rows: Rows, ids: set<Id>, n: nat)
    requires ids <= rows.Keys
  {
    forall id <- ids :: rows[id].rowid < n
  }

  lemma {:induction false} SomeRowidIsFree(rows: Rows, ids: set<Id>)
    requires ids <= rows.Keys
    ensures exists n: nat :: AboveAll(rows, ids, n)
  {
    if ids == {} {
      assert AboveAll(rows, ids, 0);
    } else {
      var x :| x in ids;
      SomeRowidIsFree(rows, ids - {x});
      var n: nat :| AboveAll(rows, ids - {x}, n);
      assert forall id <- ids :: id == x || id in ids - {x};
      var m := if rows[x].rowid < n then n else rows[x].rowid + 1;
      assert AboveAll(rows, ids, m);
    }
  }

  class Journal {
    var rows: Rows

    constructor ()
      ensures rows == map[]
    {
      rows := map[];
    }

    method Create(id: Id, source: Path, dest: Path, size: nat, now: int, fails: bool)
      returns (r: Result<Row, JournalError>)
      requires id !in rows
      modifies this
      ensures r.Ok? <==> !fails && |Active(old(rows))| < 1000 && size <= 9223372036854775807
      ensures r.Err? ==> rows == old(rows)
      ensures r.Ok? ==> (rows == old(rows)[id := r.value]
                         && r.value == Row(1, Proposed, source, dest, size, None, now, r.value.rowid)
                         && forall other <- old(rows) :: old(rows)[other].rowid < r.value.rowid)
    {
      if |Active(rows)| >= MAX_ACTIVE {
        return Err(Limit);
      }
      if size > MAX_I64 {
        return Err(Range);
      }
      if fails {
        return Err(Database);
      }
      SomeRowidIsFree(rows, rows.Keys);
      var rowid: nat :| AboveAll(rows, rows.Keys, rowid);
      var row := Row(1, Proposed, source, dest, size, None, now, rowid);
      rows := rows[id := row];
      return Ok(row);
    }

    /** Change state if the revision is current and the change is allowed; otherwise change nothing. */
    method Transition(id: Id, revision: nat, next: JState, now: int, fails: bool)
      returns (r: Result<nat, JournalError>)
      modifies this
      ensures r.Ok? <==> !fails && id in old(rows) && old(rows)[id].revision == revision
                         && Allowed(old(rows)[id].state, next) && revision < 9223372036854775807
      ensures r.Ok? ==> (r.value == revision + 1
                         && rows == old(rows)[id := old(rows)[id].(state := next, revision := revision + 1, updatedAt := now)])
      ensures r.Err? ==> rows == old(rows)
    {
      if id !in rows {
        return Err(NotFound);
      }
      if rows[id].revision != revision {
        return Err(RevisionConflict);
      }
      if !Allowed(rows[id].state, next) {
        return Err(InvalidTransition);
      }
      if revision >= MAX_I64 {
        return Err(Range);
      }
      if fails {
        return Err(Database);
      }
      rows := rows[id := Moved(rows[id], next, now)];
      return Ok(revision + 1);
    }

    method ReviseProposal(id: Id, revision: nat, dest: Path, now: int, fails: bool)
      returns (r: Result<nat, JournalError>)
      modifies this
      ensures r.Ok? <==> !fails && id in old(rows) && old(rows)[id].revision == revision
                         && old(rows)[id].state == Proposed && revision < 9223372036854775807
      ensures r.Ok? ==> (r.value == revision + 1
                         && rows == old(rows)[id := old(rows)[id].(dest := dest, revision := revision + 1, updatedAt := now)])
      ensures r.Err? ==> rows == old(rows)
    {
      if id !in rows {
        return Err(NotFound);
      }
      if rows[id].revision != revision {
        return Err(RevisionConflict);
      }
      if rows[id].state != Proposed {
        return Err(InvalidTransition);
      }
      if revision >= MAX_I64 {
        return Err(Range);
      }
      if fails {
        return Err(Database);
      }
      rows := rows[id := Revised(rows[id], dest, now)];
      return Ok(revision + 1);
    }

    method SetSha256(id: Id, digest: Digest, now: int, fails: bool) returns (r: Result<(), JournalError>)
      modifies this
      ensures r.Ok? <==> !fails && id in old(rows) && |digest| == 64 && forall c <- digest :: c in HEX_DIGITS
      ensures r.Ok? ==> rows == old(rows)[id := old(rows)[id].(sha := Some(digest), updatedAt := now)]
      ensures r.Err? ==> rows == old(rows)
    {
      HexDigits(digest);
      if !HexDigest(digest) {
        return Err(CorruptState);
      }
      if fails {
        return Err(Database);
      }
      if id !in rows {
        return Err(NotFound);
      }
      rows := rows[id := rows[id].(sha := Some(digest), updatedAt := now)];
      return Ok(());
    }

    /** At most the thousand least recently changed unfinished rows, oldest change first. */
    method Nonterminal() returns (ids: seq<Id>)
      requires DistinctRowids(rows)
      ensures ids == Todo(rows)
      ensures IsWorkList(rows, ids)
    {
      ids := Todo(rows);
      TodoIsWorkList(rows);
    }

    /** Both retention passes, either of which may fail; a database still over its byte limit afterwards
        is an error too. */
    method EnforceRetention(retain: nat, maxAge: nat, now: int, agingFails: bool, countingFails: bool, oversized: bool)
      returns (r: Result<(), JournalError>)
      requires DistinctRowids(rows)
      modifies this
      ensures agingFails ==> rows == old(rows)
      ensures !agingFails && countingFails ==> rows == DropAged(old(rows), now, maxAge)
      ensures !agingFails && !countingFails ==> rows == Retained(old(rows), now, retain, maxAge)
      ensures Within(rows, old(rows))
      ensures !agingFails && !countingFails ==>
                forall id <- old(rows) :: id in rows <==> Deserves(old(rows), now, retain, maxAge, id)
      ensures r.Ok? <==> !agingFails && !countingFails && !oversized
    {
      if agingFails {
        return Err(Database);
      }
      rows := DropAged(rows, now, maxAge);
      if countingFails {
        return Err(Database);
      }
      RetentionIsExact(old(rows), now, retain, maxAge);
      rows := DropExcess(rows, retain);
      if oversized {
        return Err(Limit);
      }
      return Ok(());
    }
  }

  const MAX_TODO: nat := 1000

  /** Unfinished rows, strictly by age; a thousand of them or all; and whatever is left out is newer. */
  ghost predicate IsWorkList(rows: Rows, ids: seq<Id>) {
    && (forall id <- ids :: id in Active(rows))
    && (forall i, j :: 0 <= i < j < |ids| ==>
          ids[i] in rows && ids[j] in rows && ChangedBefore(rows[ids[i]], rows[ids[j]]) && ids[i] != ids[j])
    && |ids| == (if |Active(rows)| < 1000 then |Active(rows)| else 1000)
    && forall id <- ids, other <- Active(rows) :: other !in ids ==> id in rows && ChangedBefore(rows[id], rows[other])
  }

  lemma TodoIsWorkList(rows: Rows)
    requires DistinctRowids(rows)
    ensures IsWorkList(rows, Todo(rows))
  {
    hide OldestFirst;
    hide ChangedBefore;
    var all, ids := OldestFirst(rows, Active(rows)), Todo(rows);
    assert forall i :: 0 <= i < |ids| ==> ids[i] == all[i] && all[i] in all;
    forall i, j | 0 <= i < j < |ids| ensures ChangedBefore(rows[ids[i]], rows[ids[j]]) && ids[i] != ids[j] {
      OldestFirstIsSorted(rows, Active(rows), i, j);
    }
    forall id, other | id in ids && other in Active(rows) && other !in ids ensures ChangedBefore(rows[id], rows[other]) {
      assert other in all;
      forall k | 0 <= k < |ids| ensures all[k] != other {
        assert ids[k] in ids;
      }
      var i :| 0 <= i < |ids| && ids[i] == id;
      var j :| 0 <= j < |all| && all[j] == other;
      OldestFirstIsSorted(rows, Active(rows), i, j);
    }
  }

  function Todo(rows: Rows): (r: seq<Id>)
    requires DistinctRowids(rows)
    ensures forall id <- r :: id in rows
  {
    var all := OldestFirst(rows, Active(rows));
    assert forall id <- all :: id in rows;
    if |all| <= MAX_TODO then all else all[..MAX_TODO]
  }
}
