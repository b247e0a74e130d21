/** Relative project paths and write authorisation, lexically
    (normalize_relative_path and unauthorized_paths in src/agentic_dev/local_execution.py). */
module Paths {
  import opened Common

  /** `path.replace("\\", "/")` */
  function ForwardSlashes(s: string): (r: string)
    ensures |r| == |s| && forall i | 0 <= i < |s| :: r[i] == if s[i] == '\\' then '/' else s[i]
  {
    seq(|s|, i requires 0 <= i < |s| => if s[i] == '\\' then '/' else s[i])
  }

  function Split(s: string): (parts: seq<string>)
    ensures |parts| > 0
    ensures forall p | p in parts :: '/' !in p && forall c | c in p :: c in s
  {
    if s == "" then [""]
    else
      var rest := Split(s[1..]);
      assert rest[0] in rest && (forall p | p in rest[1..] :: p in rest) && forall c | c in s[1..] :: c in s;
      if s[0] == '/' then [""] + rest else [[s[0]] + rest[0]] + rest[1..]
  }

  function Join(parts: seq<string>): string
    requires parts != []
  {
    if |parts| == 1 then parts[0] else parts[0] + "/" + Join(parts[1..])
  }

  /** A path segment that PurePosixPath keeps. */
  predicate Kept(p: string) {
    p != "" && p != "."
  }

  function KeepSegments(parts: seq<string>): (r: seq<string>)
    ensures forall p :: p in r <==> p in parts && Kept(p)
    ensures (forall p | p in parts :: Kept(p)) ==> r == parts
  {
    if parts == [] then []
    else if Kept(parts[0]) then [parts[0]] + KeepSegments(parts[1..])
    else KeepSegments(parts[1..])
  }

  /** `PurePosixPath(path).parts` of a relative path. */
  function Segments(path: string): seq<string> {
    KeepSegments(Split(path))
  }

  /** The accepted form of a relative path, or None for an absolute path or one with "..". */
  function Normalize(path: string): Option<string> {
    var posix := ForwardSlashes(path);
    var segments := Segments(posix);
    if (|posix| > 0 && posix[0] == '/') || ".." in segments then None
    else if segments == [] then Some(".")
    else Some(Join(segments))
  }

  /** What `Path.resolve` does to "..", without following links. */
  function Resolve(location: seq<string>): seq<string> {
    if location == [] then []
    else
      var last := |location| - 1;
      var base := Resolve(location[..last]);
      if location[last] != ".." then base + [location[last]]
      else if base == [] then []
      else base[..|base| - 1]
  }

  lemma {:induction false} SplitPrefix(a: string, b: string)
    requires '/' !in a
    ensures Split(a) == [a]
    ensures Split(a + "/" + b) == [a] + Split(b)
  {
    if a == "" {
      assert a + "/" + b == "/" + b;
      assert ("/" + b)[1..] == b;
    } else {
      SplitPrefix(a[1..], b);
      assert (a + "/" + b)[1..] == a[1..] + "/" + b;
      assert a == [a[0]] + a[1..];
    }
  }

  lemma {:induction false} SplitJoin(parts: seq<string>)
    requires parts != [] && forall p | p in parts :: '/' !in p
    ensures Split(Join(parts)) == parts
  {
    hide Split;
    SplitPrefix(parts[0], if |parts| == 1 then "" else Join(parts[1..]));
    if |parts| > 1 { SplitJoin(parts[1..]); }
  }

  lemma {:induction false} JoinAvoids(parts: seq<string>, c: char)
    requires parts != [] && c != '/' && forall p | p in parts :: c !in p
    ensures c !in Join(parts)
  {
    if |parts| > 1 {
      JoinAvoids(parts[1..], c);
    }
  }

  /** Joining the parts of a path gives the path. */
  lemma {:induction false} JoinSplit(s: string)
    ensures Join(Split(s)) == s
  {
    if s != "" {
      JoinSplit(s[1..]);
      var rest := Split(s[1..]);
      if s[0] == '/' {
        assert Split(s)[1..] == rest && Join(Split(s)) == "" + "/" + Join(rest);
      } else if |rest| > 1 {
        assert Split(s)[1..] == rest[1..];
        assert Join(Split(s)) == [s[0]] + rest[0] + "/" + Join(rest[1..]);
      }
    }
  }

  lemma {:induction false} KeptAre(parts: seq<string>)
    ensures KeepSegments(parts) == Without(Without(parts, ""), ".")
  {
    if parts != [] { KeptAre(parts[1..]); }
  }

  lemma BackslashesAre(path: string)
    ensures '\\' !in path ==> ForwardSlashes(path) == path
  {
  }

  /** A path is refused exactly when, with backslashes turned, it begins with a slash or has a part "..".
      Otherwise its normal form has the path's parts, in order, without the empty ones and the "." ones;
      with no part left it is ".". */
  lemma {:induction false} NormalizeExactly(path: string)
    ensures var posix := ForwardSlashes(path);
            Normalize(path).None? <==> (|posix| > 0 && posix[0] == '/') || ".." in Split(posix)
    ensures var kept := Without(Without(Split(ForwardSlashes(path)), ""), ".");
            Normalize(path).Some? ==> if kept == [] then Normalize(path).value == "." else Split(Normalize(path).value) == kept
  {
    hide Split, Join;
    var parts := Split(ForwardSlashes(path));
    KeptAre(parts);
    assert KeepSegments(parts) != [] ==> Split(Join(KeepSegments(parts))) == KeepSegments(parts) by {
      if KeepSegments(parts) != [] { SplitJoin(KeepSegments(parts)); }
    }
  }

  /** A path without backslashes and with plain parts only is accepted as it stands. */
  lemma {:induction false} PlainPathsAreUnchanged(path: string)
    requires '\\' !in path && "" !in Split(path) && "." !in Split(path) && ".." !in Split(path)
    ensures Normalize(path) == Some(path)
  {
    BackslashesAre(path);
    JoinSplit(path);
    assert Split(path)[0] in Split(path);
    hide Split, Join;
  }

  /** An accepted path is its own normal form: normalising again changes nothing. */
  lemma {:induction false} NormalizeIsIdempotent(path: string)
    requires Normalize(path).Some?
    ensures Normalize(Normalize(path).value) == Normalize(path)
    ensures Segments(Normalize(path).value) == Segments(ForwardSlashes(path))
  {
    var posix := ForwardSlashes(path);
    var segments := Segments(posix);
    var q := Normalize(path).value;
    if segments == [] {
      SplitPrefix(".", "");
      assert q == "." && Split(".") == ["."];
      assert KeepSegments(["."]) == [];
      assert ForwardSlashes(q) == q;
    } else {
      SplitJoin(segments);
      assert Segments(q) == segments;
      JoinAvoids(segments, '\\');
      assert ForwardSlashes(q) == q;
      assert q[0] == segments[0][0];
    }
  }

  lemma {:induction false} ResolveKeepsPlainSuffix(root: seq<string>, suffix: seq<string>)
    requires ".." !in suffix
    ensures Resolve(root + suffix) == Resolve(root) + suffix
  {
    if suffix == [] {
      assert root + suffix == root;
    } else {
      var last := |suffix| - 1;
      ResolveKeepsPlainSuffix(root, suffix[..last]);
      assert (root + suffix)[..|root + suffix| - 1] == root + suffix[..last];
      assert suffix == suffix[..last] + [suffix[last]];
    }
  }

  /** What the refusal of ".." prevents: one such part behind a root leads out of it. */
  lemma {:induction false} ParentLeavesRoot(root: seq<string>)
    requires root != [] && ".." !in root
    ensures Resolve(root + [".."]) == root[..|root| - 1] && !(Resolve(root) <= Resolve(root + [".."]))
  {
    ResolveKeepsPlainSuffix([], root);
    assert [] + root == root && (root + [".."])[..|root|] == root;
  }

  /** An accepted path has no "..", is not absolute, and joined to a root it stays below it. */
  lemma NormalizedPathsStayUnderRoot(root: seq<string>, path: string)
    requires Normalize(path).Some?
    ensures var q := Normalize(path).value;
            ".." !in Segments(q) && q != "" && q[0] != '/' && '\\' !in q
    ensures Resolve(root) <= Resolve(root + Segments(Normalize(path).value))
  {
    NormalizeIsIdempotent(path);
    var q := Normalize(path).value;
    ResolveKeepsPlainSuffix(root, Segments(q));
    assert Normalize(q) == Some(q);
    assert ForwardSlashes(q) == q by {
      assert Normalize(q).value == q;
      NormalForm(q);
    }
  }

  lemma NormalForm(q: string)
    requires Normalize(q) == Some(q)
    ensures q != "" && q[0] != '/' && '\\' !in q
  {
    var segments := Segments(ForwardSlashes(q));
    if segments != [] {
      assert segments[0] in segments;
      JoinAvoids(segments, '\\');
    }
  }

  // ---------------------------------------------------------------- unauthorized_paths

  /** A glob matcher: `fnmatch.fnmatchcase(path, pattern)`. */
  type Matcher = (string, string) -> bool

  predicate Writable(matches: Matcher, path: string, patterns: seq<string>) {
    exists k :: 0 <= k < |patterns| && matches(path, patterns[k])
  }

  /** Paths no pattern admits, in request order; with no pattern at all nothing is admitted. */
  function Unauthorized(matches: Matcher, paths: seq<string>, patterns: seq<string>): (r: seq<string>)
    ensures forall p :: p in r <==> p in paths && !Writable(matches, p, patterns)
  {
    if patterns == [] then paths
    else if paths == [] then []
    else
      assert paths == [paths[0]] + paths[1..];
      var rest := Unauthorized(matches, paths[1..], patterns);
      if Writable(matches, paths[0], patterns) then rest else [paths[0]] + rest
  }
}
