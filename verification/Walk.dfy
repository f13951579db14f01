/** The bounded walk of a watched root (crates/sortinghat-service, bounded_files). */
module Walk {
  import opened Model
  import opened Journals

  const MAX_DIRECTORIES: nat := 25000
  const MAX_FILES: nat := 100000
  const MAX_DEPTH: nat := 32

  datatype WalkError = TooBig | Unreadable

  // ---------------------------------------------------------------- what there is to find

  /** The relative path is reached through real directories only. */
  predicate Reached(files: Files, root: Path, rel: Path)
    decreases |rel|
  {
    rel == [] || (root + rel in files && files[root + rel].Directory? && Reached(files, root, Parent(rel)))
  }

  function Below(root: Path, p: Path): Path {
    if root <= p then p[|root|..] else []
  }

  ghost function Directories(files: Files, root: Path): set<Path> {
    {[]} + set p | p in files && root <= p && Reached(files, root, Below(root, p)) :: Below(root, p)
  }

  ghost function RegularFiles(files: Files, root: Path): set<Path> {
    set p | p in files && files[p].Regular? && root < p && Reached(files, root, Parent(Below(root, p))) :: Below(root, p)
  }

  lemma InDirectories(files: Files, root: Path, rel: Path)
    ensures rel in Directories(files, root) <==> Reached(files, root, rel)
  {
    if Reached(files, root, rel) && rel != [] {
      assert Below(root, root + rel) == rel;
    }
  }

  lemma InRegularFiles(files: Files, root: Path, rel: Path)
    ensures rel in RegularFiles(files, root) <==>
            rel != [] && root + rel in files && files[root + rel].Regular? && Reached(files, root, Parent(rel))
  {
    if rel != [] && root + rel in files {
      assert Below(root, root + rel) == rel;
    }
    if rel in RegularFiles(files, root) {
      var p :| p in files && files[p].Regular? && root < p && Reached(files, root, Parent(Below(root, p))) && Below(root, p) == rel;
      assert root + rel == p;
    }
  }

  ghost predicate WithinLimits(files: Files, root: Path) {
    && |Directories(files, root)| <= 25000
    && (forall d <- Directories(files, root) :: |d| <= 32)
    && |RegularFiles(files, root)| <= 100000
  }

  predicate Distinct<T(==)>(s: seq<T>) {
    forall i, j :: 0 <= i < j < |s| ==> s[i] != s[j]
  }

  function Elements<T>(s: seq<T>): set<T> {
    set x | x in s
  }

  lemma {:induction false} DistinctSize<T>(s: seq<T>)
    requires Distinct(s)
    ensures |Elements(s)| == |s|
  {
    if s != [] {
      DistinctSize(s[1..]);
      assert Elements(s) == {s[0]} + Elements(s[1..]);
    }
  }

  // ---------------------------------------------------------------- progress of the walk

  /** Directories waiting: reached, not visited, with a visited parent whose entry has been listed. */
  ghost predicate Waiting(files: Files, root: Path, visited: set<Path>, left: set<Path>, d: Path) {
    Reached(files, root, d) && d !in visited && (d == [] || (Parent(d) in visited && root + d !in left))
  }

  /** Files found: regular, with a visited parent whose entry has been listed. */
  ghost predicate Found(files: Files, root: Path, visited: set<Path>, left: set<Path>, f: Path) {
    f != [] && root + f in files && files[root + f].Regular? && Parent(f) in visited && root + f !in left
  }

  ghost predicate Progress(
      files: Files, root: Path, visited: set<Path>, left: set<Path>, pending: seq<Path>, result: seq<Path>) {
    && Distinct(pending) && Distinct(result)
    && (forall d <- visited ::
          Reached(files, root, d) && |d| <= MAX_DEPTH && (d != [] ==> Parent(d) in visited && root + d !in left))
    && (forall d :: d in pending <==> Waiting(files, root, visited, left, d))
    && (forall f :: f in result <==> Found(files, root, visited, left, f))
  }

  lemma {:induction false} AllVisited(files: Files, root: Path, visited: set<Path>, d: Path)
    requires forall e :: !Waiting(files, root, visited, {}, e)
    requires Reached(files, root, d)
    ensures d in visited
    decreases |d|
  {
    if d != [] {
      AllVisited(files, root, visited, Parent(d));
    }
    assert !Waiting(files, root, visited, {}, d);
  }

  lemma WalkIsComplete(files: Files, root: Path, visited: set<Path>, result: seq<Path>)
    requires Progress(files, root, visited, {}, [], result)
    ensures visited == Directories(files, root) && Elements(result) == RegularFiles(files, root)
    ensures Distinct(result)
    ensures |visited| <= MAX_DIRECTORIES && |result| <= MAX_FILES ==> WithinLimits(files, root)
  {
    assert forall e :: !Waiting(files, root, visited, {}, e);
    forall d ensures d in visited <==> d in Directories(files, root) {
      InDirectories(files, root, d);
      if Reached(files, root, d) {
        AllVisited(files, root, visited, d);
      }
    }
    forall f ensures f in Elements(result) <==> f in RegularFiles(files, root) {
      InRegularFiles(files, root, f);
      assert f in result <==> Found(files, root, visited, {}, f);
      if f != [] {
        InDirectories(files, root, Parent(f));
      }
    }
    DistinctSize(result);
  }

  lemma VisitedAreDirectories(files: Files, root: Path, visited: set<Path>)
    requires forall d <- visited :: Reached(files, root, d)
    ensures |visited| <= |Directories(files, root)|
  {
    forall d | d in visited ensures d in Directories(files, root) {
      InDirectories(files, root, d);
    }
    SubsetCount(visited, Directories(files, root));
  }

  lemma ResultsAreFiles(files: Files, root: Path, visited: set<Path>, left: set<Path>, result: seq<Path>, extra: Path)
    requires Distinct(result) && extra !in result
    requires forall d <- visited :: Reached(files, root, d)
    requires forall f :: f in result ==> Found(files, root, visited, left, f)
    requires extra != [] && root + extra in files && files[root + extra].Regular? && Parent(extra) in visited
    ensures |result| < |RegularFiles(files, root)|
  {
    var all := Elements(result) + {extra};
    forall f | f in all ensures f in RegularFiles(files, root) {
      InRegularFiles(files, root, f);
    }
    DistinctSize(result);
    SubsetCount(all, RegularFiles(files, root));
  }

  lemma OneFileTooMany(
      files: Files, root: Path, visited: set<Path>, left: set<Path>, pending: seq<Path>, result: seq<Path>, extra: Path)
    requires Progress(files, root, visited, left, pending, result) && root + extra in left
    requires extra != [] && root + extra in files && files[root + extra].Regular? && Parent(extra) in visited
    ensures |result| < |RegularFiles(files, root)|
  {
    assert !Found(files, root, visited, left, extra);
    ResultsAreFiles(files, root, visited, left, result, extra);
  }

  // ---------------------------------------------------------------- one directory, then all

  /** One entry: queue a directory, collect a regular file, skip everything else. */
  method ListEntry(
      files: Files, root: Path, rel: Path, p: Path, pending: seq<Path>, result: seq<Path>,
      ghost visited: set<Path>, ghost left: set<Path>)
    returns (ok: bool, pending': seq<Path>, result': seq<Path>)
    requires rel in visited && p in left && p in Entries(files, root + rel)
    requires Progress(files, root, visited, left, pending, result) && |result| <= MAX_FILES
    ensures ok ==> Progress(files, root, visited, left - {p}, pending', result') && |result'| <= MAX_FILES
    ensures !ok ==> |RegularFiles(files, root)| > MAX_FILES
  {
    hide Progress;
    ok, pending', result' := true, pending, result;
    var child := rel + [FileName(p)];
    assert root + child == p && Parent(child) == rel;
    ListedOne(files, root, visited, left, pending, result, p, child);
    match files[p] {
      case Special =>
      case Directory => pending' := pending + [child];
      case Regular(_, _, _, _) =>
        if |result| >= MAX_FILES {
          OneFileTooMany(files, root, visited, left, pending, result, child);
          ok := false;
        } else {
          result' := result + [child];
        }
    }
  }

  /** List one directory, its entries in any order. */
  method ListDirectory(files: Files, root: Path, rel: Path, pending: seq<Path>, result: seq<Path>, ghost visited: set<Path>)
    returns (ok: bool, pending': seq<Path>, result': seq<Path>)
    requires rel in visited
    requires Progress(files, root, visited, Entries(files, root + rel), pending, result) && |result| <= MAX_FILES
    ensures ok ==> Progress(files, root, visited, {}, pending', result') && |result'| <= MAX_FILES
    ensures !ok ==> |RegularFiles(files, root)| > MAX_FILES
  {
    var left := Entries(files, root + rel);
    ok, pending', result' := true, pending, result;
    while left != {}
      invariant left <= Entries(files, root + rel) && ok
      invariant Progress(files, root, visited, left, pending', result') && |result'| <= MAX_FILES
      decreases |left|
    {
      var p :| p in left;
      ok, pending', result' := ListEntry(files, root, rel, p, pending', result', visited, left);
      if !ok {
        return;
      }
      left := left - {p};
    }
  }

  function Entries(files: Files, dir: Path): set<Path> {
    set p | p in files && p != [] && Parent(p) == dir
  }

  lemma ListedOne(
      files: Files, root: Path, visited: set<Path>, left: set<Path>, pending: seq<Path>, result: seq<Path>, p: Path, child: Path)
    requires Progress(files, root, visited, left, pending, result)
    requires p in left && p in files && child != [] && p == root + child && Parent(child) in visited
    ensures child !in pending && child !in result
    ensures files[p].Special? ==> Progress(files, root, visited, left - {p}, pending, result)
    ensures files[p].Regular? ==> Progress(files, root, visited, left - {p}, pending, result + [child])
    ensures files[p].Directory? ==> Progress(files, root, visited, left - {p}, pending + [child], result)
  {
    forall d | root + d == p ensures d == child {
      assert d == (root + d)[|root|..] == (root + child)[|root|..];
    }
    forall d ensures d in pending + [child] <==> d in pending || d == child {
    }
    forall f ensures f in result + [child] <==> f in result || f == child {
    }
  }

  /** Walk the tree below the root with an explicit stack. It succeeds exactly when the tree is within
      limits, and then lists every regular file below the root once. */
  method BoundedFiles(files: Files, root: Path) returns (r: Result<seq<Path>, WalkError>)
    ensures r == Err(Unreadable) <==> !(root in files && files[root].Directory?)
    ensures r.Ok? <==> root in files && files[root].Directory? && WithinLimits(files, root)
    ensures r.Ok? ==> Distinct(r.value) && Elements(r.value) == RegularFiles(files, root)
  {
    if root !in files || !files[root].Directory? {
      return Err(Unreadable);
    }
    hide *;
    var result: seq<Path>, pending: seq<Path>, directories := [], [[]], 0;
    WalkStarts(files, root);
    ghost var visited: set<Path> := {};
    while pending != []
      invariant Progress(files, root, visited, {}, pending, result)
      invariant directories == |visited| <= MAX_DIRECTORIES && |result| <= MAX_FILES
      decreases MAX_DIRECTORIES - directories
    {
      var rel := pending[|pending| - 1];
      assert pending == pending[..|pending| - 1] + [rel];
      pending := pending[..|pending| - 1];
      directories := directories + 1;
      if directories > MAX_DIRECTORIES || |rel| > MAX_DEPTH {
        BeyondLimits(files, root, visited, pending, rel, result);
        return Err(TooBig);
      }
      Popped(files, root, visited, pending, rel, result);
      visited := visited + {rel};
      var ok;
      ok, pending, result := ListDirectory(files, root, rel, pending, result, visited);
      if !ok {
        TooManyFiles(files, root);
        return Err(TooBig);
      }
    }
    WalkIsComplete(files, root, visited, result);
    return Ok(result);
  }

  lemma WalkStarts(files: Files, root: Path)
    ensures Progress(files, root, {}, {}, [[]], [])
  {
  }

  lemma TooManyFiles(files: Files, root: Path)
    requires |RegularFiles(files, root)| > MAX_FILES
    ensures !WithinLimits(files, root)
  {
  }

  lemma BeyondLimits(files: Files, root: Path, visited: set<Path>, pending: seq<Path>, rel: Path, result: seq<Path>)
    requires Progress(files, root, visited, {}, pending + [rel], result)
    requires |visited| >= MAX_DIRECTORIES || |rel| > MAX_DEPTH
    ensures !WithinLimits(files, root)
  {
    assert (pending + [rel])[|pending|] == rel;
    assert Waiting(files, root, visited, {}, rel);
    VisitedAreDirectories(files, root, visited + {rel});
    InDirectories(files, root, rel);
  }

  lemma EntriesOf(root: Path, rel: Path, files: Files, d: Path)
    requires d != [] && root + d in files
    ensures root + d in Entries(files, root + rel) <==> Parent(d) == rel
  {
    assert Parent(root + d) == root + Parent(d);
    assert Parent(d) == (root + Parent(d))[|root|..];
    assert rel == (root + rel)[|root|..];
  }

  lemma PoppedWaiting(files: Files, root: Path, visited: set<Path>, rel: Path, d: Path)
    requires Waiting(files, root, visited, {}, rel)
    ensures Waiting(files, root, visited + {rel}, Entries(files, root + rel), d) <==>
            Waiting(files, root, visited, {}, d) && d != rel
  {
    if d != [] && root + d in files {
      EntriesOf(root, rel, files, d);
    }
  }

  lemma PoppedFound(files: Files, root: Path, visited: set<Path>, rel: Path, f: Path)
    requires Waiting(files, root, visited, {}, rel)
    ensures Found(files, root, visited + {rel}, Entries(files, root + rel), f) <==> Found(files, root, visited, {}, f)
  {
    if f != [] && root + f in files {
      EntriesOf(root, rel, files, f);
    }
  }

  lemma PoppedVisited(files: Files, root: Path, visited: set<Path>, rel: Path, d: Path)
    requires Waiting(files, root, visited, {}, rel) && d in visited && Reached(files, root, d)
    requires d != [] ==> Parent(d) in visited
    ensures d != [] ==> root + d !in Entries(files, root + rel)
  {
    if d != [] {
      EntriesOf(root, rel, files, d);
    }
  }

  lemma DropLast(pending: seq<Path>, rel: Path)
    requires Distinct(pending + [rel])
    ensures Distinct(pending) && forall d :: d in pending <==> d in pending + [rel] && d != rel
  {
    var before := pending + [rel];
    assert forall i :: 0 <= i < |pending| ==> before[i] == pending[i];
    assert before[|pending|] == rel;
  }

  lemma Popped(files: Files, root: Path, visited: set<Path>, pending: seq<Path>, rel: Path, result: seq<Path>)
    requires Progress(files, root, visited, {}, pending + [rel], result) && |rel| <= MAX_DEPTH
    ensures rel !in visited
    ensures Progress(files, root, visited + {rel}, Entries(files, root + rel), pending, result)
  {
    hide Waiting;
    hide Found;
    var before, visited', entries := pending + [rel], visited + {rel}, Entries(files, root + rel);
    DropLast(pending, rel);
    assert before[|pending|] == rel;
    assert Waiting(files, root, visited, {}, rel);
    NewlyVisited(files, root, visited, rel);
    forall d ensures d in pending <==> Waiting(files, root, visited', entries, d) {
      PoppedWaiting(files, root, visited, rel, d);
    }
    forall f ensures f in result <==> Found(files, root, visited', entries, f) {
      PoppedFound(files, root, visited, rel, f);
    }
    forall d | d in visited'
      ensures Reached(files, root, d) && |d| <= MAX_DEPTH && (d != [] ==> Parent(d) in visited' && root + d !in entries)
    {
      if d in visited {
        PoppedVisited(files, root, visited, rel, d);
      }
    }
  }

  lemma NewlyVisited(files: Files, root: Path, visited: set<Path>, rel: Path)
    requires Waiting(files, root, visited, {}, rel)
    ensures rel !in visited && Reached(files, root, rel)
    ensures rel != [] ==> Parent(rel) in visited && root + rel !in Entries(files, root + rel)
  {
    if rel != [] {
      EntriesOf(root, rel, files, rel);
    }
  }
}
