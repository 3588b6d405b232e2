/** Repo-relative paths: what the validator lets through stays inside the repository, segment for segment. */
module RepoPaths {
  import opened Wrappers
  import opened Texts

  datatype PathError = Empty | NotRelative | Escapes

  predicate IsLetter(c: char) {
    'a' <= c <= 'z' || 'A' <= c <= 'Z'
  }

  /** A drive letter, a colon and a slash of either kind. */
  predicate IsWindowsAbsolute(path: string) {
    |path| >= 3 && IsLetter(path[0]) && path[1] == ':' && (path[2] == '\\' || path[2] == '/')
  }

  predicate IsUnsafeSegment(segment: string) {
    |segment| == 0 || segment == "." || segment == ".."
  }

  function ValidatePath(path: string): Result<string, PathError> {
    if Trim(path) != path || |Trim(path)| == 0 then Err(Empty)
    else if "/" <= path || IsWindowsAbsolute(path) || '\\' in path then Err(NotRelative)
    else if exists i :: 0 <= i < |Split(path, '/')| && IsUnsafeSegment(Split(path, '/')[i]) then Err(Escapes)
    else Ok(path)
  }

  /** One step down from a directory: empty and dot segments stay, dot-dot goes up, never above the root. */
  function Enter(at: seq<string>, segment: string): seq<string> {
    if segment == "" || segment == "." then at
    else if segment == ".." then (if at == [] then [] else at[..|at| - 1])
    else at + [segment]
  }

  function Resolve(at: seq<string>, segments: seq<string>): seq<string>
    decreases |segments|
  {
    if segments == [] then at else Resolve(Enter(at, segments[0]), segments[1..])
  }

  predicate AllSafe(segments: seq<string>) {
    forall i :: 0 <= i < |segments| ==> !IsUnsafeSegment(segments[i])
  }

  /** An absolute path in normal form. */
  function AbsolutePath(segments: seq<string>): string {
    "/" + Join(segments, '/')
  }

  lemma {:induction false} SafeResolves(at: seq<string>, segments: seq<string>)
    requires AllSafe(segments)
    ensures Resolve(at, segments) == at + segments
    decreases |segments|
  {
    if segments == [] {
      assert at + segments == at;
    } else {
      SafeResolves(at + [segments[0]], segments[1..]);
      assert segments == [segments[0]] + segments[1..];
      assert at + [segments[0]] + segments[1..] == at + segments;
    }
  }

  lemma {:induction false} ResolveShortens(at: seq<string>, segments: seq<string>)
    ensures |Resolve(at, segments)| <= |at| + |segments|
    ensures !AllSafe(segments) ==> |Resolve(at, segments)| < |at| + |segments|
    decreases |segments|
  {
    if segments != [] {
      ResolveShortens(Enter(at, segments[0]), segments[1..]);
      if !IsUnsafeSegment(segments[0]) && AllSafe(segments[1..]) {
        assert forall i :: 1 <= i < |segments| ==> segments[i] == segments[1..][i - 1];
      }
    }
  }

  /** Segments resolve to themselves, from any directory, exactly when none is empty, dot or dot-dot. */
  lemma SafeIffExact(at: seq<string>, segments: seq<string>)
    ensures AllSafe(segments) <==> Resolve(at, segments) == at + segments
  {
    if AllSafe(segments) { SafeResolves(at, segments); } else { ResolveShortens(at, segments); }
  }

  /** Splitting an absolute path and a relative one after it gives an empty segment, then both. */
  lemma SplitBelowRoot(root: seq<string>, path: string)
    requires forall i :: 0 <= i < |root| ==> '/' !in root[i]
    ensures Split(AbsolutePath(root) + "/" + path, '/')
            == [""] + (if root == [] then [""] else root) + Split(path, '/')
  {
    SplitConcat(AbsolutePath(root), path, '/');
    SplitHead("", Join(root, '/'), '/');
    assert "" + "/" + Join(root, '/') == AbsolutePath(root);
    if root == [] { assert Split("", '/') == [""]; } else { SplitJoined(root); }
  }

  lemma {:induction false} SplitJoined(root: seq<string>)
    requires root != [] && forall i :: 0 <= i < |root| ==> '/' !in root[i]
    ensures Split(Join(root, '/'), '/') == root
    decreases |root|
  {
    if |root| == 1 {
      SplitWhole(root[0], '/');
    } else {
      SplitHead(root[0], Join(root[1..], '/'), '/');
      SplitJoined(root[1..]);
      assert root == [root[0]] + root[1..];
    }
  }

  lemma {:induction false} ResolveAppends(at: seq<string>, a: seq<string>, b: seq<string>)
    ensures Resolve(at, a + b) == Resolve(Resolve(at, a), b)
    decreases |a|
  {
    if a == [] {
      assert a + b == b;
    } else {
      assert (a + b)[0] == a[0] && (a + b)[1..] == a[1..] + b;
      ResolveAppends(Enter(at, a[0]), a[1..], b);
    }
  }

  lemma RootResolves(root: seq<string>)
    requires AllSafe(root)
    ensures Resolve([], [""] + (if root == [] then [""] else root)) == root
  {
    assert [""][1..] == [];
    ResolveAppends([], [""], if root == [] then [""] else root);
    assert Resolve([], [""]) == Resolve([], []);
    if root != [] {
      SafeResolves([], root);
      assert [] + root == root;
    }
  }

  /**
    An accepted path, placed below any normalised absolute root and resolved segment by segment, is
    the root's segments followed by its own: it neither escapes nor is rewritten.
  */
  lemma AcceptedPathStaysInside(root: seq<string>, path: string)
    requires AllSafe(root) && forall i :: 0 <= i < |root| ==> '/' !in root[i]
    requires ValidatePath(path).Ok?
    ensures ValidatePath(path) == Ok(path)
    ensures Resolve([], Split(AbsolutePath(root) + "/" + path, '/')) == root + Split(path, '/')
  {
    SplitBelowRoot(root, path);
    var front := [""] + (if root == [] then [""] else root);
    ResolveAppends([], front, Split(path, '/'));
    RootResolves(root);
    SafeIffExact(root, Split(path, '/'));
  }

  /** Acceptance in one condition: no outer space, no backslash, no drive, and segments that resolve to themselves. */
  lemma AcceptedIff(path: string)
    ensures ValidatePath(path).Ok?
            <==> && !IsSpaced(path) && '\\' !in path && !HasDrive(path)
                 && forall at :: Resolve(at, Split(path, '/')) == at + Split(path, '/')
  {
    TrimIsIdentity(path);
    forall at ensures AllSafe(Split(path, '/')) <==> Resolve(at, Split(path, '/')) == at + Split(path, '/') {
      SafeIffExact(at, Split(path, '/'));
    }
    assert AllSafe(Split(path, '/')) <==> Resolve([], Split(path, '/')) == [] + Split(path, '/');
    LeadingSlashIsEmptySegment(path);
  }

  /** A letter, a colon and a slash; with the other slash the path has a backslash anyway. */
  predicate HasDrive(path: string) {
    && |path| >= 3 && path[1] == ':' && path[2] == '/'
    && ('a' <= path[0] <= 'z' || 'A' <= path[0] <= 'Z')
  }

  predicate IsSpaced(path: string) {
    path != [] && (IsSpace(path[0]) || IsSpace(path[|path| - 1]))
  }

  /** The checks for an empty path and for a leading slash only name the fault: both leave an empty first segment. */
  lemma LeadingSlashIsEmptySegment(path: string)
    ensures path == [] || "/" <= path ==> Split(path, '/')[0] == ""
  {
  }
}
