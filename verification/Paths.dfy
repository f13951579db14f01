/** Relative directories as text, and the choice of the registered root that owns a folder. */
module Paths {
  import opened Model

  const MAX_PATH_BYTES: nat := 4096

  function Split(s: string): (parts: seq<string>)
    ensures parts != []
  {
    if s == "" then [""]
    else
      var rest := Split(s[1..]);
      if s[0] == '/' then [""] + rest else [[s[0]] + rest[0]] + rest[1..]
  }

  function Join(parts: seq<string>): string {
    if parts == [] then "" else if |parts| == 1 then parts[0] else parts[0] + "/" + Join(parts[1..])
  }

  lemma {:induction false} SplitPiece(part: string, rest: string)
    requires '/' !in part
    ensures Split(part + "/" + rest) == [part] + Split(rest)
    ensures Split(part) == [part]
  {
    if part == "" {
      assert part + "/" + rest == "/" + rest;
      assert ("/" + rest)[1..] == rest;
    } else {
      assert (part + "/" + rest)[1..] == part[1..] + "/" + rest;
      SplitPiece(part[1..], rest);
      assert [part[0]] + part[1..] == part;
      assert part[0] in part;
    }
  }

  /** Splitting undoes joining for components that hold no separator. */
  lemma {:induction false} SplitJoin(parts: seq<string>)
    requires parts != [] && forall i :: 0 <= i < |parts| ==> '/' !in parts[i]
    ensures Split(Join(parts)) == parts
  {
    if |parts| == 1 {
      SplitPiece(parts[0], "");
    } else {
      SplitPiece(parts[0], Join(parts[1..]));
      SplitJoin(parts[1..]);
    }
  }

  /** Joining undoes splitting, and no split piece holds a separator. */
  lemma {:induction false} JoinSplit(s: string)
    ensures Join(Split(s)) == s
    ensures forall i :: 0 <= i < |Split(s)| ==> '/' !in Split(s)[i]
  {
    if s != "" {
      JoinSplit(s[1..]);
      var rest := Split(s[1..]);
      if s[0] == '/' {
        assert Split(s)[1..] == rest;
      } else {
        assert Split(s)[1..] == rest[1..];
      }
    }
  }

  /** A component that names an ordinary entry of a directory. */
  predicate Plain(part: Name) {
    Kept(part) && '/' !in part
  }

  /** A piece that reading a path neither drops nor interprets. */
  predicate Kept(piece: string) {
    piece != "" && piece != "." && piece != ".."
  }

  predicate AllKept(pieces: seq<string>) {
    forall i :: 0 <= i < |pieces| ==> Kept(pieces[i])
  }

  predicate AllPlain(p: Path) {
    forall i :: 0 <= i < |p| ==> Plain(p[i])
  }

  predicate ValidDirectory(s: string) {
    s == "." ||
    (|s| <= MAX_PATH_BYTES && !("/" <= s) && AllKept(Split(s)))
  }

  /** The components appended to a root by joining it with a validated directory. */
  function DirectoryPath(s: string): Path {
    if s == "." then [] else Split(s)
  }

  function DirectoryText(p: Path): string {
    if p == [] then "." else Join(p)
  }

  datatype Component = RootDir | CurDir | ParentDir | Normal(name: Name)

  /** How the standard library reads the pieces of a path: empty and inner "." pieces vanish. */
  function ReadPieces(pieces: seq<string>, first: bool): seq<Component> {
    if pieces == [] then []
    else
      (if pieces[0] == "" then []
       else if pieces[0] == "." then (if first then [CurDir] else [])
       else if pieces[0] == ".." then [ParentDir]
       else [Normal(pieces[0])]) + ReadPieces(pieces[1..], false)
  }

  function Components(s: string): seq<Component> {
    if "/" <= s then [RootDir] + ReadPieces(Split(s[1..]), false) else ReadPieces(Split(s), true)
  }

  predicate ValidRelative(s: string) {
    s != "" && |s| <= MAX_PATH_BYTES && !("/" <= s) && forall c <- Components(s) :: c.Normal?
  }

  function AsNormal(pieces: seq<string>): (r: seq<Component>)
    ensures |r| == |pieces| && forall i :: 0 <= i < |r| ==> r[i] == Normal(pieces[i])
  {
    seq(|pieces|, i requires 0 <= i < |pieces| => Normal(pieces[i]))
  }

  lemma {:induction false} ReadPlain(pieces: seq<string>, first: bool)
    requires AllKept(pieces)
    ensures ReadPieces(pieces, first) == AsNormal(pieces)
  {
    if pieces != [] {
      ReadPlain(pieces[1..], false);
    }
  }

  /** A stored directory other than "." also passes the stricter-looking path check, and reading it
      back yields one plain component for every piece: it stays lexically beneath its root. */
  lemma DirectoryIsBeneath(root: Path, s: string)
    requires ValidDirectory(s)
    ensures s != "." ==> ValidRelative(s)
    ensures s != "." ==> Components(s) == AsNormal(Split(s))
    ensures root <= root + DirectoryPath(s) && AllPlain(DirectoryPath(s))
  {
    JoinSplit(s);
    if s != "." {
      ReadPlain(Split(s), true);
      assert Kept(Split(s)[0]);
    }
  }

  /** The two representations of a directory agree on plain components. */
  lemma DirectoryRoundTrip(p: Path)
    requires AllPlain(p)
    ensures DirectoryPath(DirectoryText(p)) == p
    ensures |DirectoryText(p)| <= MAX_PATH_BYTES <==> ValidDirectory(DirectoryText(p))
  {
    if p != [] {
      SplitJoin(p);
      assert Plain(p[0]) && p[0] <= Join(p);
      assert p[0][0] == Join(p)[0];
      SplitPiece(".", "");
    }
  }

  // ---------------------------------------------------------------- deepest root

  function PathText(p: Path): string {
    "/" + Join(p)
  }

  predicate Owns(root: Root, folder: Path) {
    root.destination && root.path <= folder
  }

  /** Longest registered path first, ties in registration order. */
  function DeepestRoot(roots: seq<Root>, folder: Path): Option<Root> {
    if roots == [] then None
    else
      var rest := DeepestRoot(roots[1..], folder);
      if Owns(roots[0], folder) && (rest.None? || |PathText(rest.value.path)| <= |PathText(roots[0].path)|)
      then Some(roots[0]) else rest
  }

  lemma {:induction false} LongerText(p: Path, q: Path)
    requires p < q && AllPlain(q)
    ensures |PathText(p)| < |PathText(q)|
  {
    if p == [] {
      assert Plain(q[0]);
    } else {
      assert p[1..] < q[1..];
      if |p| == 1 {
        assert |q| > 1;
      } else {
        LongerText(p[1..], q[1..]);
      }
    }
  }

  /** Comparing text lengths picks the deepest owner: no registered destination root that contains
      the folder lies below the chosen one. */
  lemma {:induction false} DeepestRootIsDeepest(roots: seq<Root>, folder: Path)
    requires AllPlain(folder)
    ensures DeepestRoot(roots, folder).None? <==> forall r <- roots :: !Owns(r, folder)
    ensures var d := DeepestRoot(roots, folder);
            d.Some? ==> (d.value in roots && Owns(d.value, folder)
                         && forall r <- roots :: Owns(r, folder) ==> r.path <= d.value.path)
  {
    if roots != [] {
      DeepestRootIsDeepest(roots[1..], folder);
      var d := DeepestRoot(roots, folder);
      if d.Some? {
        var rest := DeepestRoot(roots[1..], folder);
        forall r | r in roots && Owns(r, folder) ensures r.path <= d.value.path {
          if r != roots[0] {
            assert r in roots[1..];
          }
          if !(r.path <= d.value.path) {
            assert d.value.path < r.path by {
              assert d.value.path <= folder && r.path <= folder;
            }
            LongerText(d.value.path, r.path);
            if r in roots[1..] && r.path != rest.value.path {
              LongerText(r.path, rest.value.path);
            }
          }
        }
      }
    }
  }
}
