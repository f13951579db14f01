/** When a scan queues a file: what is due, what a scan has done so far, and when it can be done at all. */
module Scanning {
  import opened Model
  import opened Journals
  import opened Machine
  import opened Invariants
  import Rules
  import Walk
  import QueueProofs

  // ---------------------------------------------------------------- one file

  /** Last identity sampled at each relative path of each root, and when (nanoseconds). */
  type Samples = map<(Id, Path), (Identity, int)>

  const SETTLE_NANOSECONDS: int := 1_000_000_000

  predicate Stable(samples: Samples, root: Id, relative: Path, identity: Identity, clock: int) {
    && (root, relative) in samples
    && samples[(root, relative)].0 == identity && clock - samples[(root, relative)].1 >= SETTLE_NANOSECONDS
  }

  predicate Waits(items: seq<Proposal>, root: Id, relative: Path) {
    exists p <- items :: p.sourceRoot == root && p.relative == relative && p.status.SProposed?
  }

  predicate EndsWith(s: string, suffix: string) {
    |suffix| <= |s| && s[|s| - |suffix|..] == suffix
  }

  /** Names that browsers give to unfinished downloads. */
  predicate IsPartial(name: Name) {
    var lower := Rules.LowerAscii(name);
    EndsWith(lower, ".part") || EndsWith(lower, ".partial") || EndsWith(lower, ".crdownload")
    || EndsWith(lower, ".download") || EndsWith(lower, ".tmp")
  }

  /** The name ends like an unfinished download's, whatever the case of its letters. */
  predicate UnfinishedName(name: Name) {
    HasEnding(name, ".part") || HasEnding(name, ".partial") || HasEnding(name, ".crdownload")
    || HasEnding(name, ".download") || HasEnding(name, ".tmp")
  }

  predicate HasEnding(name: Name, suffix: string) {
    |suffix| <= |name| && Rules.SameButCase(name[|name| - |suffix|..], suffix)
  }

  lemma PartialIsMeant(name: Name)
    ensures IsPartial(name) <==> UnfinishedName(name)
  {
    EndingIsMeant(name, ".part");
    EndingIsMeant(name, ".partial");
    EndingIsMeant(name, ".crdownload");
    EndingIsMeant(name, ".download");
    EndingIsMeant(name, ".tmp");
    hide EndsWith;
    hide HasEnding;
  }

  lemma EndingIsMeant(name: Name, suffix: string)
    requires forall c <- suffix :: !('A' <= c <= 'Z')
    ensures EndsWith(Rules.LowerAscii(name), suffix) <==> HasEnding(name, suffix)
  {
    Rules.AlreadyLower(suffix);
    if |suffix| <= |name| {
      var end := name[|name| - |suffix|..];
      Rules.CaseIsAllThatIsLost(end, suffix);
      assert Rules.LowerAscii(name)[|name| - |suffix|..] == Rules.LowerAscii(end);
    }
  }

  /** An item waits for a decision on this path of this root. */
  predicate WaitsThere(items: seq<Proposal>, root: Root, relative: Path) {
    exists p <- items :: p.sourceRoot == root.id && p.relative == relative && p.status == SProposed
  }

  /** The file is finished, shows the identity that was sampled at least a second ago, and no item stands for it. */
  predicate Due(env: Env, files: Files, items: seq<Proposal>, samples: Samples, root: Root, relative: Path, clock: int) {
    && relative != [] && !UnfinishedName(FileName(relative)) && !WaitsThere(items, root, relative)
    && (root.id, relative) in samples
    && Shows(env, files, root.path + relative, samples[(root.id, relative)].0)
    && clock - samples[(root.id, relative)].1 >= 1_000_000_000
    && forall p <- items :: p.identity != samples[(root.id, relative)].0
  }

  /** The scan passes over the file, or can read its identity. */
  ghost predicate Readable(env: Env, files: Files, items: seq<Proposal>, root: Root, relative: Path) {
    || (relative != [] && UnfinishedName(FileName(relative))) || WaitsThere(items, root, relative)
    || exists identity :: Shows(env, files, root.path + relative, identity)
  }

  /** The scan passes over the file, or has sampled it now. */
  ghost predicate Sampled(
      env: Env, files: Files, items: seq<Proposal>, root: Root, relative: Path, samples: Samples, clock: int)
  {
    || (relative != [] && UnfinishedName(FileName(relative))) || WaitsThere(items, root, relative)
    || ((root.id, relative) in samples && samples[(root.id, relative)].1 == clock
        && Shows(env, files, root.path + relative, samples[(root.id, relative)].0))
  }

  /** No sample has changed but that of this path. */
  ghost predicate OnlySampled(samples: Samples, samples': Samples, root: Id, relative: Path) {
    forall key: (Id, Path) :: key != (root, relative) ==>
      (key in samples' <==> key in samples) && (key in samples ==> samples'[key] == samples[key])
  }

  // ---------------------------------------------------------------- all files

  /** What there was when the scan began. */
  datatype Begun = Begun(env: Env, files: Files, st: State, samples: Samples, rows: Rows, clock: int)

  type Found = (Root, Path)

  ghost function FilesOf(files: Files, root: Root): set<Found> {
    set relative | relative in Walk.RegularFiles(files, root.path) :: (root, relative)
  }

  /** Every regular file below a watched root. */
  ghost function AllFound(b: Begun): set<Found> {
    set root, found | root in b.st.roots && root.watched && found in FilesOf(b.files, root) :: found
  }

  ghost predicate IsDue(b: Begun, found: Found) {
    Due(b.env, b.files, b.st.proposals, b.samples, found.0, found.1, b.clock)
  }

  /** The identities of the files that were due among these. */
  ghost function DueAmong(b: Begun, done: set<Found>): set<Identity> {
    set found | found in done && IsDue(b, found) :: b.samples[(found.0.id, found.1)].0
  }

  function Identities(items: seq<Proposal>): set<Identity> {
    set p | p in items :: p.identity
  }

  /** This item was made for this file. */
  predicate StandsFor(b: Begun, item: Proposal, found: Found) {
    && item.sourceRoot == found.0.id && item.relative == found.1 && item.status == SProposed
    && (found.0.id, found.1) in b.samples && item.identity == b.samples[(found.0.id, found.1)].0
  }

  /** The item was made for one of these files, which was due. */
  ghost predicate MadeForOne(b: Begun, done: set<Found>, item: Proposal) {
    exists found <- done :: IsDue(b, found) && StandsFor(b, item, found)
  }

  ghost predicate AllReadable(b: Begun, done: set<Found>) {
    forall found <- done :: Readable(b.env, b.files, b.st.proposals, found.0, found.1)
  }

  /** These files have been sampled now, and no others. */
  ghost predicate AllSampled(b: Begun, done: set<Found>, samples: Samples) {
    && (forall found <- done ::
          Sampled(b.env, b.files, b.st.proposals, found.0, found.1, samples, b.clock))
    && (forall key: (Id, Path) :: (forall found <- done :: key != (found.0.id, found.1)) ==>
          (key in samples <==> key in b.samples) && (key in samples ==> samples[key] == b.samples[key]))
  }

  /** After the files in `done`: each new item stands for one that was due, each of those is stood for, each has an
      entry, every file has been sampled, and no other sample has changed. */
  ghost predicate Scanned(b: Begun, done: set<Found>, items: seq<Proposal>, samples: Samples, rows: Rows) {
    && b.st.proposals <= items
    && (forall i :: |b.st.proposals| <= i < |items| ==> MadeForOne(b, done, items[i]))
    && Identities(items[|b.st.proposals|..]) == DueAmong(b, done)
    && |Active(rows)| == |Active(b.rows)| + |items| - |b.st.proposals|
    && (|items| > |b.st.proposals| ==> |Active(rows)| <= 1000)
    && AllReadable(b, done) && AllSampled(b, done, samples)
  }

  lemma NothingScanned(b: Begun)
    ensures Scanned(b, {}, b.st.proposals, b.samples, b.rows)
  {
    assert b.st.proposals[|b.st.proposals|..] == [];
  }

  // ---------------------------------------------------------------- one file more

  /** The next file has a place of its own. */
  ghost predicate IsNext(b: Begun, done: set<Found>, root: Root, relative: Path) {
    relative != [] && forall found <- done :: (found.0.id, found.1) != (root.id, relative)
  }

  lemma MadeElsewhere(b: Begun, done: set<Found>, item: Proposal, root: Root, relative: Path)
    requires MadeForOne(b, done, item) && IsNext(b, done, root, relative)
    ensures (item.sourceRoot, item.relative) != (root.id, relative)
  {
  }

  lemma StillWaits(b: Begun, done: set<Found>, items: seq<Proposal>, samples: Samples, rows: Rows, root: Root, relative: Path)
    requires Scanned(b, done, items, samples, rows) && IsNext(b, done, root, relative)
    ensures WaitsThere(items, root, relative) <==> WaitsThere(b.st.proposals, root, relative)
  {
    var n := |b.st.proposals|;
    forall i | n <= i < |items| ensures (items[i].sourceRoot, items[i].relative) != (root.id, relative) {
      MadeElsewhere(b, done, items[i], root, relative);
    }
    assert forall i :: 0 <= i < n ==> items[i] == b.st.proposals[i];
    hide MadeForOne;
    hide AllSampled;
    hide AllReadable;
    hide DueAmong;
  }

  /** What is due now was due when the scan began, and no file of this identity has been queued since. */
  lemma StillDue(b: Begun, done: set<Found>, items: seq<Proposal>, samples: Samples, rows: Rows, root: Root, relative: Path)
    requires Scanned(b, done, items, samples, rows) && IsNext(b, done, root, relative)
    ensures Due(b.env, b.files, items, samples, root, relative, b.clock) <==>
              IsDue(b, (root, relative)) && b.samples[(root.id, relative)].0 !in DueAmong(b, done)
  {
    StillWaits(b, done, items, samples, rows, root, relative);
    var old', new' := b.st.proposals, items[|b.st.proposals|..];
    assert items == old' + new';
    assert forall p <- new' :: p.identity in Identities(new');
    hide WaitsThere;
    hide UnfinishedName;
    hide Shows;
    hide StandsFor;
  }

  lemma DueWithOne(b: Begun, done: set<Found>, found: Found)
    ensures DueAmong(b, done + {found}) ==
              if IsDue(b, found) then DueAmong(b, done) + {b.samples[(found.0.id, found.1)].0} else DueAmong(b, done)
  {
  }

  lemma DueGrows(b: Begun, done: set<Found>, more: set<Found>)
    requires done <= more
    ensures DueAmong(b, done) <= DueAmong(b, more)
  {
  }

  lemma SamplesGoOn(
      b: Begun, done: set<Found>, items: seq<Proposal>, samples: Samples, rows: Rows, samples': Samples, root: Root,
      relative: Path)
    requires Scanned(b, done, items, samples, rows) && IsNext(b, done, root, relative)
    requires OnlySampled(samples, samples', root.id, relative)
    requires Sampled(b.env, b.files, b.st.proposals, root, relative, samples', b.clock)
    ensures AllSampled(b, done + {(root, relative)}, samples')
  {
    hide WaitsThere;
    hide Shows;
    hide UnfinishedName;
    var done' := done + {(root, relative)};
    forall key: (Id, Path) | forall found <- done' :: key != (found.0.id, found.1)
      ensures (key in samples' <==> key in b.samples) && (key in samples' ==> samples'[key] == b.samples[key])
    {
      assert (root, relative) in done';
      assert forall found <- done :: found in done';
    }
  }

  lemma StillMade(b: Begun, done: set<Found>, items: seq<Proposal>, found: Found)
    requires forall i :: |b.st.proposals| <= i < |items| ==> MadeForOne(b, done, items[i])
    ensures forall i :: |b.st.proposals| <= i < |items| ==> MadeForOne(b, done + {found}, items[i])
  {
    forall i | |b.st.proposals| <= i < |items| ensures MadeForOne(b, done + {found}, items[i]) {
      assert MadeForOne(b, done, items[i]);
      var other :| other in done && IsDue(b, other) && StandsFor(b, items[i], other);
      assert other in done + {found};
    }
  }

  lemma MadeOneMore(b: Begun, done: set<Found>, items: seq<Proposal>, found: Found, item: Proposal)
    requires |b.st.proposals| <= |items| && forall i :: |b.st.proposals| <= i < |items| ==> MadeForOne(b, done, items[i])
    requires IsDue(b, found) && StandsFor(b, item, found)
    ensures forall i :: |b.st.proposals| <= i < |items + [item]| ==> MadeForOne(b, done + {found}, (items + [item])[i])
  {
    StillMade(b, done, items, found);
    assert found in done + {found};
    hide IsDue;
    hide StandsFor;
  }

  lemma StillReadable(b: Begun, done: set<Found>, items: seq<Proposal>, root: Root, relative: Path)
    requires AllReadable(b, done) && Readable(b.env, b.files, items, root, relative)
    requires WaitsThere(items, root, relative) <==> WaitsThere(b.st.proposals, root, relative)
    ensures AllReadable(b, done + {(root, relative)})
  {
    hide WaitsThere;
    hide UnfinishedName;
    hide Shows;
  }

  /** The file was passed over, was not due, or stands in the queue already. */
  lemma ScannedOneMore(
      b: Begun, done: set<Found>, items: seq<Proposal>, samples: Samples, rows: Rows, samples': Samples, root: Root,
      relative: Path)
    requires Scanned(b, done, items, samples, rows) && IsNext(b, done, root, relative)
    requires OnlySampled(samples, samples', root.id, relative)
    requires Sampled(b.env, b.files, items, root, relative, samples', b.clock)
    requires Readable(b.env, b.files, items, root, relative) && !Due(b.env, b.files, items, samples, root, relative, b.clock)
    ensures Scanned(b, done + {(root, relative)}, items, samples', rows)
  {
    StillWaits(b, done, items, samples, rows, root, relative);
    StillDue(b, done, items, samples, rows, root, relative);
    hide WaitsThere;
    SamplesGoOn(b, done, items, samples, rows, samples', root, relative);
    DueWithOne(b, done, (root, relative));
    StillMade(b, done, items, (root, relative));
    StillReadable(b, done, items, root, relative);
    hide Due;
    hide DueAmong;
    hide MadeForOne;
    hide AllReadable;
    hide AllSampled;
    hide Readable;
    hide Sampled;
  }

  /** The file was due and has been queued. */
  lemma QueuedOneMore(
      b: Begun, done: set<Found>, items: seq<Proposal>, samples: Samples, rows: Rows, samples': Samples, rows': Rows,
      root: Root, relative: Path, item: Proposal)
    requires Scanned(b, done, items, samples, rows) && IsNext(b, done, root, relative)
    requires OnlySampled(samples, samples', root.id, relative)
    requires Sampled(b.env, b.files, items, root, relative, samples', b.clock)
    requires Due(b.env, b.files, items, samples, root, relative, b.clock)
    requires StandsFor(b, item, (root, relative)) && |Active(rows')| == |Active(rows)| + 1 <= 1000
    ensures Scanned(b, done + {(root, relative)}, items + [item], samples', rows')
  {
    var n := |b.st.proposals|;
    StillWaits(b, done, items, samples, rows, root, relative);
    StillDue(b, done, items, samples, rows, root, relative);
    hide WaitsThere;
    hide Due;
    SamplesGoOn(b, done, items, samples, rows, samples', root, relative);
    StillReadable(b, done, items, root, relative) by {
      hide UnfinishedName;
    }
    MadeOneMore(b, done, items, (root, relative), item);
    OneMoreIdentity(b, done, items, root, relative, item);
    hide AllReadable;
    hide AllSampled;
    hide MadeForOne;
    hide Identities;
    hide DueAmong;
    hide Active;
    hide Readable;
    hide Sampled;
    hide IsNext;
    hide OnlySampled;
    hide StandsFor;
    hide IsDue;
    hide UnfinishedName;
    hide Shows;
    assert b.st.proposals <= items + [item];
  }

  lemma OneMoreIdentity(b: Begun, done: set<Found>, items: seq<Proposal>, root: Root, relative: Path, item: Proposal)
    requires |b.st.proposals| <= |items| && Identities(items[|b.st.proposals|..]) == DueAmong(b, done)
    requires IsDue(b, (root, relative)) && StandsFor(b, item, (root, relative))
    ensures Identities((items + [item])[|b.st.proposals|..]) == DueAmong(b, done + {(root, relative)})
  {
    IdentitiesWith(items, |b.st.proposals|, item);
    DueWithOne(b, done, (root, relative));
    hide IsDue;
    hide DueAmong;
    hide Identities;
  }

  lemma IdentitiesWith(items: seq<Proposal>, n: nat, item: Proposal)
    requires n <= |items|
    ensures Identities((items + [item])[n..]) == Identities(items[n..]) + {item.identity}
  {
    assert (items + [item])[n..] == items[n..] + [item];
    assert forall p :: p in items[n..] + [item] <==> p in items[n..] || p == item;
  }

  // ---------------------------------------------------------------- room

  lemma {:induction false} AsManyIdentities(items: seq<Proposal>, n: nat)
    requires AllApart(items) && n <= |items|
    ensures |Identities(items[n..])| == |items| - n
    decreases |items| - n
  {
    if n < |items| {
      AsManyIdentities(items, n + 1);
      assert items[n..] == [items[n]] + items[n + 1..];
      assert Identities(items[n..]) == {items[n].identity} + Identities(items[n + 1..]);
      forall p | p in items[n + 1..] ensures p.identity != items[n].identity {
        var k :| 0 <= k < |items[n + 1..]| && items[n + 1..][k] == p;
        assert Apart(items[n], items[n + 1 + k]);
      }
    } else {
      assert items[n..] == [];
    }
  }

  /** As many items are new as different identities were due. */
  lemma NewOnesAreDue(b: Begun, done: set<Found>, items: seq<Proposal>, samples: Samples, rows: Rows)
    requires Scanned(b, done, items, samples, rows) && AllApart(items)
    ensures |items| - |b.st.proposals| == |DueAmong(b, done)|
  {
    AsManyIdentities(items, |b.st.proposals|);
  }

  /** The queue does not fill up. */
  ghost predicate HasRoom(b: Begun) {
    |QueueProofs.WaitingAt(b.st.proposals)| + |DueAmong(b, AllFound(b))| < 1000
  }

  /** Every watched tree is a directory within the limits, the identity of every file that is not passed over can be
      read, and the journal takes an entry for each identity that is due. */
  ghost predicate Possible(b: Begun) {
    && (forall root <- b.st.roots :: root.watched ==> IsFolder(b.files, root.path) && Walk.WithinLimits(b.files, root.path))
    && (forall found <- AllFound(b) :: Readable(b.env, b.files, b.st.proposals, found.0, found.1))
    && (DueAmong(b, AllFound(b)) != {} ==> |Active(b.rows)| + |DueAmong(b, AllFound(b))| <= 1000)
  }

  lemma {:induction false} CountNew(b: Begun, items: seq<Proposal>, n: nat)
    requires n <= |items| && forall i :: n <= i < |items| ==> items[i].status == SProposed
    ensures ProposedCount(items) == ProposedCount(items[..n]) + |items| - n
  {
    if n < |items| {
      var init := items[..|items| - 1];
      CountNew(b, init, n);
      assert items == init + [items[|items| - 1]] && init[..n] == items[..n];
      QueueProofs.CountAppend(init, items[|items| - 1]);
    } else {
      assert items[..n] == items;
    }
  }

  lemma QueueStaysBelow(b: Begun, done: set<Found>, items: seq<Proposal>, samples: Samples, rows: Rows)
    requires Scanned(b, done, items, samples, rows) && AllApart(items) && done <= AllFound(b) && HasRoom(b)
    ensures ProposedCount(items) < MAX_PROPOSALS
  {
    var n := |b.st.proposals|;
    NewOnesAreDue(b, done, items, samples, rows);
    DueGrows(b, done, AllFound(b));
    SubsetCount(DueAmong(b, done), DueAmong(b, AllFound(b)));
    assert items[..n] == b.st.proposals;
    CountNew(b, items, n);
    QueueProofs.CountIsWaiting(b.st.proposals);
  }

  lemma OneTooMany(b: Begun, done: set<Found>, root: Root, relative: Path)
    requires done <= AllFound(b) && (root, relative) in AllFound(b) && IsDue(b, (root, relative))
    requires b.samples[(root.id, relative)].0 !in DueAmong(b, done)
    ensures |DueAmong(b, AllFound(b))| >= |DueAmong(b, done)| + 1
  {
    var identity := b.samples[(root.id, relative)].0;
    hide Due;
    hide AllFound;
    DueWithOne(b, done, (root, relative));
    DueGrows(b, done + {(root, relative)}, AllFound(b));
    assert |DueAmong(b, done) + {identity}| == |DueAmong(b, done)| + 1;
    SubsetCount(DueAmong(b, done) + {identity}, DueAmong(b, AllFound(b)));
  }

  /** A file that cannot be queued although it is due, or cannot be read, makes the scan impossible. */
  lemma Impossible(
      b: Begun, done: set<Found>, items: seq<Proposal>, samples: Samples, rows: Rows, root: Root, relative: Path)
    requires Scanned(b, done, items, samples, rows) && AllApart(items) && done <= AllFound(b)
    requires IsNext(b, done, root, relative) && (root, relative) in AllFound(b)
    requires (Due(b.env, b.files, items, samples, root, relative, b.clock) && |Active(rows)| >= 1000)
             || !Readable(b.env, b.files, items, root, relative)
    ensures !Possible(b)
  {
    StillWaits(b, done, items, samples, rows, root, relative);
    StillDue(b, done, items, samples, rows, root, relative);
    hide WaitsThere;
    hide UnfinishedName;
    hide Shows;
    hide Due;
    hide AllSampled;
    hide MadeForOne;
    if Readable(b.env, b.files, b.st.proposals, root, relative) {
      NewOnesAreDue(b, done, items, samples, rows);
      OneTooMany(b, done, root, relative);
    }
  }

  lemma FitsTheQueue(b: Begun, items: seq<Proposal>, samples: Samples, rows: Rows)
    requires Scanned(b, AllFound(b), items, samples, rows) && AllApart(items) && ProposedCount(items) <= MAX_PROPOSALS
    ensures |QueueProofs.WaitingAt(b.st.proposals)| + |DueAmong(b, AllFound(b))| <= 1000
  {
    var n := |b.st.proposals|;
    NewOnesAreDue(b, AllFound(b), items, samples, rows);
    assert items[..n] == b.st.proposals;
    forall i | n <= i < |items| ensures items[i].status == SProposed {
      assert MadeForOne(b, AllFound(b), items[i]);
    }
    CountNew(b, items, n);
    QueueProofs.CountIsWaiting(b.st.proposals);
  }

  /** A scan that got through everything was possible. */
  lemma ItWasPossible(b: Begun, items: seq<Proposal>, samples: Samples, rows: Rows)
    requires Scanned(b, AllFound(b), items, samples, rows) && AllApart(items)
    requires forall root <- b.st.roots :: root.watched ==> IsFolder(b.files, root.path) && Walk.WithinLimits(b.files, root.path)
    ensures Possible(b)
  {
    NewOnesAreDue(b, AllFound(b), items, samples, rows);
  }

  /** No finished file of a watched root that was seen unchanged for a second is missed: an item stands for
      it, or waits for a decision on its path. */
  ghost predicate NothingMissed(b: Begun, items: seq<Proposal>) {
    forall root <- b.st.roots, relative <- Walk.RegularFiles(b.files, root.path) ::
      root.watched && IsRipe(b, root, relative) ==>
        WaitsThere(items, root, relative) || Stands(items, b.samples[(root.id, relative)].0)
  }

  predicate Stands(items: seq<Proposal>, identity: Identity) {
    exists p <- items :: p.identity == identity
  }

  predicate IsRipe(b: Begun, root: Root, relative: Path) {
    && relative != [] && !UnfinishedName(FileName(relative)) && (root.id, relative) in b.samples
    && Shows(b.env, b.files, root.path + relative, b.samples[(root.id, relative)].0)
    && b.clock - b.samples[(root.id, relative)].1 >= 1_000_000_000
  }

  lemma ScannedMissesNothing(b: Begun, items: seq<Proposal>, samples: Samples, rows: Rows)
    requires Scanned(b, AllFound(b), items, samples, rows)
    ensures NothingMissed(b, items)
  {
    forall root, relative | root in b.st.roots && root.watched && relative in Walk.RegularFiles(b.files, root.path)
      ensures IsRipe(b, root, relative) ==>
                WaitsThere(items, root, relative) || Stands(items, b.samples[(root.id, relative)].0)
    {
      assert (root, relative) in FilesOf(b.files, root) && (root, relative) in AllFound(b);
      if IsRipe(b, root, relative) {
        NotMissed(b, AllFound(b), items, samples, rows, root, relative);
      }
    }
  }

  lemma NotMissed(b: Begun, done: set<Found>, items: seq<Proposal>, samples: Samples, rows: Rows, root: Root, relative: Path)
    requires Scanned(b, done, items, samples, rows) && (root, relative) in done && IsRipe(b, root, relative)
    ensures WaitsThere(items, root, relative) || Stands(items, b.samples[(root.id, relative)].0)
  {
    hide AllReadable;
    hide AllSampled;
    hide MadeForOne;
    hide UnfinishedName;
    hide Shows;
    var identity := b.samples[(root.id, relative)].0;
    assert IsDue(b, (root, relative)) || WaitsThere(b.st.proposals, root, relative) || Stands(b.st.proposals, identity);
    assert IsDue(b, (root, relative)) ==> identity in DueAmong(b, done);
    hide Due;
    hide DueAmong;
    StandsOn(b.st.proposals, items, root, relative, identity);
  }

  lemma StandsOn(before: seq<Proposal>, items: seq<Proposal>, root: Root, relative: Path, identity: Identity)
    requires before <= items
    ensures WaitsThere(before, root, relative) ==> WaitsThere(items, root, relative)
    ensures Stands(before, identity) || identity in Identities(items[|before|..]) ==> Stands(items, identity)
  {
    assert forall p <- before :: p in items;
    assert forall p <- items[|before|..] :: p in items;
  }

  // ---------------------------------------------------------------- one tree, then all

  function FoundIn(root: Root, paths: seq<Path>): set<Found> {
    set relative | relative in paths :: (root, relative)
  }

  lemma AllFoundIn(files: Files, root: Root, paths: seq<Path>)
    requires Walk.Elements(paths) == Walk.RegularFiles(files, root.path)
    ensures FoundIn(root, paths) == FilesOf(files, root)
    ensures forall relative <- paths :: relative != []
  {
    forall relative | relative in paths ensures relative in Walk.RegularFiles(files, root.path) && relative != [] {
      assert relative in Walk.Elements(paths);
      Walk.InRegularFiles(files, root.path, relative);
    }
    forall relative | relative in Walk.RegularFiles(files, root.path) ensures relative in paths {
      assert relative in Walk.Elements(paths);
    }
  }

  lemma OneFileMore(root: Root, paths: seq<Path>, i: nat)
    requires i < |paths|
    ensures FoundIn(root, paths[..i + 1]) == FoundIn(root, paths[..i]) + {(root, paths[i])}
  {
    assert paths[..i + 1] == paths[..i] + [paths[i]];
  }

  lemma FoundBelow(b: Begun, root: Root)
    requires root in b.st.roots && root.watched
    ensures FilesOf(b.files, root) <= AllFound(b)
  {
  }

  /** The next file of a root has a place of its own among those of the root and of the roots before. */
  lemma NextFile(b: Begun, done: set<Found>, root: Root, paths: seq<Path>, i: nat)
    requires RootsDistinct(b.st.roots) && root in b.st.roots && root.watched && done <= AllFound(b)
    requires forall found <- done :: found.0 != root
    requires Walk.Distinct(paths) && i < |paths| && FoundIn(root, paths) == FilesOf(b.files, root) && paths[i] != []
    ensures IsNext(b, done + FoundIn(root, paths[..i]), root, paths[i]) && (root, paths[i]) in AllFound(b)
  {
    FoundBelow(b, root);
    assert (root, paths[i]) in FoundIn(root, paths);
    forall found | found in done + FoundIn(root, paths[..i]) ensures (found.0.id, found.1) != (root.id, paths[i]) {
      if found in done {
        assert found in AllFound(b);
        assert found.0 in b.st.roots;
        IdsTellApart(b.st.roots, found.0, root);
      } else {
        var k :| 0 <= k < i && paths[..i][k] == found.1;
        assert paths[k] != paths[i];
      }
    }
  }

  lemma IdsTellApart(roots: seq<Root>, r: Root, q: Root)
    requires RootsDistinct(roots) && r in roots && q in roots && r != q
    ensures r.id != q.id
  {
    var i :| 0 <= i < |roots| && roots[i] == r;
    var j :| 0 <= j < |roots| && roots[j] == q;
  }

  lemma SampleOf(b: Begun, done: set<Found>, items: seq<Proposal>, samples: Samples, rows: Rows, root: Root, relative: Path)
    requires Scanned(b, done, items, samples, rows) && IsNext(b, done, root, relative)
    ensures var key := (root.id, relative);
            (key in samples <==> key in b.samples) && (key in samples ==> samples[key] == b.samples[key])
  {
    hide Sampled;
    hide MadeForOne;
    hide DueAmong;
  }

  /** The scan has been through these trees, all of them within the limits, and through no others. */
  ghost predicate RootsScanned(b: Begun, done: set<Found>, roots: seq<Root>) {
    && (forall found <- done :: found.0 in roots)
    && forall root <- roots ::
         FilesOf(b.files, root) <= done && IsFolder(b.files, root.path) && Walk.WithinLimits(b.files, root.path)
  }

  lemma NoRootsScanned(b: Begun)
    ensures RootsScanned(b, {}, [])
  {
  }

  lemma NextRoot(b: Begun, done: set<Found>, roots: seq<Root>, i: nat)
    requires Walk.Distinct(roots) && i < |roots| && RootsScanned(b, done, roots[..i])
    ensures forall found <- done :: found.0 != roots[i]
  {
  }

  lemma OneRootMore(b: Begun, done: set<Found>, roots: seq<Root>, i: nat)
    requires i < |roots| && RootsScanned(b, done, roots[..i])
    requires IsFolder(b.files, roots[i].path) && Walk.WithinLimits(b.files, roots[i].path)
    ensures RootsScanned(b, done + FilesOf(b.files, roots[i]), roots[..i + 1])
  {
    hide Walk.WithinLimits;
    hide IsFolder;
    assert roots[..i + 1] == roots[..i] + [roots[i]];
    forall found | found in FilesOf(b.files, roots[i]) ensures found.0 == roots[i] {
    }
    hide FilesOf;
  }

  lemma AllRootsScanned(b: Begun, done: set<Found>, roots: seq<Root>)
    requires RootsScanned(b, done, roots) && done <= AllFound(b)
    requires forall root :: root in roots <==> root in b.st.roots && root.watched
    ensures done == AllFound(b)
    ensures forall root <- b.st.roots :: root.watched ==> IsFolder(b.files, root.path) && Walk.WithinLimits(b.files, root.path)
  {
    hide Walk.WithinLimits;
    hide FilesOf;
  }

  lemma NoRoom(b: Begun)
    requires |QueueProofs.WaitingAt(b.st.proposals)| >= 1000
    ensures !HasRoom(b)
  {
  }
}
