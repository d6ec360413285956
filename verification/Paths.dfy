/** Sandbox paths: normal form, ancestry, and moving a path under and out of a mount prefix. */
module Paths {
  import opened Wrappers

  datatype PathError = InvalidPath(path: string)

  /** `str::split('/')`: one more part than there are slashes. */
  function Split(raw: string): (parts: seq<string>)
    ensures |parts| >= 1
  {
    if raw == "" then [""]
    else
      var rest := Split(raw[1..]);
      if raw[0] == '/' then [""] + rest else [[raw[0]] + rest[0]] + rest[1..]
  }

  /** Drops what normalisation skips: empty parts and single dots. */
  function Keep(parts: seq<string>): seq<string> {
    if parts == [] then []
    else if parts[0] == "" || parts[0] == "." then Keep(parts[1..])
    else [parts[0]] + Keep(parts[1..])
  }

  function Segments(path: string): seq<string> {
    Keep(Split(path))
  }

  function Join(segs: seq<string>): string {
    if segs == [] then ""
    else if |segs| == 1 then segs[0]
    else segs[0] + "/" + Join(segs[1..])
  }

  function Render(segs: seq<string>): string {
    "/" + Join(segs)
  }

  predicate Acceptable(raw: string) {
    raw != "" && '\0' !in raw && '\\' !in raw && ".." !in Split(raw)
  }

  /** What `BackendPath::new` promises, in one line. */
  function Normalize(raw: string): Result<string, PathError> {
    if Acceptable(raw) then Ok(Render(Segments(raw))) else Err(InvalidPath(raw))
  }

  /** `BackendPath::new`: checks, then one pass over the parts. */
  method New(raw: string) returns (r: Result<string, PathError>)
    ensures r == Normalize(raw)
  {
    if raw == "" || '\0' in raw || '\\' in raw {
      return Err(InvalidPath(raw));
    }
    var parts := Split(raw);
    var normalized: seq<string> := [];
    for i := 0 to |parts|
      invariant normalized + Keep(parts[i..]) == Keep(parts)
      invariant ".." !in parts[..i]
    {
      assert parts[i..] == [parts[i]] + parts[i + 1..];
      assert parts[..i + 1] == parts[..i] + [parts[i]];
      if parts[i] == "" || parts[i] == "." {
        continue;
      }
      if parts[i] == ".." {
        return Err(InvalidPath(raw));
      }
      normalized := normalized + [parts[i]];
    }
    assert parts[..|parts|] == parts && normalized + [] == normalized;
    return Ok("/" + Join(normalized));
  }

  // ── Normal form ─────────────────────────────────────────────────────

  predicate Normal(path: string) {
    Normalize(path) == Ok(path)
  }

  type BackendPath = p: string | Normal(p) witness (NormalRoot(); "/")

  lemma NormalRoot()
    ensures Normal("/")
  {
    var raw := "/";
    assert raw[1..] == "" && Split(raw) == [""] + [""];
    assert ([""] + [""])[1..] == [""] && [""][1..] == [];
    assert Segments(raw) == Keep([""]) == [];
    assert "/" + "" == "/";
  }

  const ROOT: BackendPath := (NormalRoot(); "/")

  ghost predicate ValidSegment(s: string) {
    s != "" && s != "." && s != ".." && '/' !in s && '\0' !in s && '\\' !in s
  }

  ghost predicate ValidSegments(segs: seq<string>) {
    forall s <- segs :: ValidSegment(s)
  }

  /** Splitting at an inner slash splits the parts there. */
  lemma {:induction false} SplitConcat(x: string, y: string)
    ensures Split(x + "/" + y) == Split(x) + Split(y)
  {
    if x == "" {
      assert ("" + "/" + y)[1..] == y;
    } else {
      assert (x + "/" + y)[1..] == x[1..] + "/" + y;
      SplitConcat(x[1..], y);
    }
  }

  lemma {:induction false} SplitNoSlash(s: string)
    requires '/' !in s
    ensures Split(s) == [s]
  {
    if s != "" {
      assert s == [s[0]] + s[1..];
      SplitNoSlash(s[1..]);
    }
  }

  lemma {:induction false} KeepConcat(a: seq<string>, b: seq<string>)
    ensures Keep(a + b) == Keep(a) + Keep(b)
  {
    if a == [] {
      assert a + b == b;
    } else {
      assert (a + b)[1..] == a[1..] + b;
      KeepConcat(a[1..], b);
    }
  }

  lemma {:induction false} KeepValid(segs: seq<string>)
    requires ValidSegments(segs)
    ensures Keep(segs) == segs
  {
    if segs != [] {
      assert segs[0] in segs && segs == [segs[0]] + segs[1..];
      KeepValid(segs[1..]);
    }
  }

  /** Segments of two paths joined by a slash. */
  lemma {:induction false} SegmentsConcat(x: string, y: string)
    ensures Segments(x + "/" + y) == Segments(x) + Segments(y)
  {
    SplitConcat(x, y);
    KeepConcat(Split(x), Split(y));
  }

  lemma {:induction false} SplitJoin(segs: seq<string>)
    requires ValidSegments(segs) && segs != []
    ensures Split(Join(segs)) == segs
  {
    assert segs[0] in segs;
    SplitNoSlash(segs[0]);
    if |segs| > 1 {
      SplitJoin(segs[1..]);
      SplitConcat(segs[0], Join(segs[1..]));
    }
  }

  lemma {:induction false} JoinClean(segs: seq<string>)
    requires ValidSegments(segs)
    ensures '\0' !in Join(segs) && '\\' !in Join(segs)
  {
    assert segs != [] ==> segs[0] in segs;
    if |segs| > 1 {
      JoinClean(segs[1..]);
    }
  }

  /** Rendering and reading segments are inverse, and a rendered path is in normal form. */
  lemma {:induction false} RenderRoundTrip(segs: seq<string>)
    requires ValidSegments(segs)
    ensures Segments(Render(segs)) == segs && Normal(Render(segs))
  {
    var p := Render(segs);
    JoinClean(segs);
    assert p == "" + "/" + Join(segs);
    SplitConcat("", Join(segs));
    assert Split("") == [""];
    KeepConcat([""], Split(Join(segs)));
    if segs != [] {
      SplitJoin(segs);
      KeepValid(segs);
    }
  }

  lemma {:induction false} SplitParts(raw: string)
    ensures forall s <- Split(raw) :: '/' !in s && forall c <- s :: c in raw
  {
    if raw != "" {
      var parts, rest := Split(raw), Split(raw[1..]);
      SplitParts(raw[1..]);
      assert raw == [raw[0]] + raw[1..];
      forall s | s in parts ensures '/' !in s && forall c <- s :: c in raw {
        var i :| 0 <= i < |parts| && parts[i] == s;
        if raw[0] == '/' {
          assert i > 0 ==> rest[i - 1] == s && s in rest;
        } else if i == 0 {
          assert s == [raw[0]] + rest[0] && rest[0] in rest;
        } else {
          assert rest[i] == s && s in rest;
        }
      }
    }
  }

  lemma {:induction false} KeepSubset(parts: seq<string>)
    ensures forall s <- Keep(parts) :: s in parts && s != "" && s != "."
  {
    if parts != [] {
      KeepSubset(parts[1..]);
    }
  }

  lemma {:induction false} AcceptableSegments(raw: string)
    requires Acceptable(raw)
    ensures ValidSegments(Segments(raw))
  {
    SplitParts(raw);
    KeepSubset(Split(raw));
  }

  /** Normalising keeps the segments, and normalising again changes nothing. */
  lemma {:induction false} NormalizeIdempotent(raw: string)
    requires Normalize(raw).Ok?
    ensures Segments(Normalize(raw).value) == Segments(raw)
    ensures Normal(Normalize(raw).value)
  {
    AcceptableSegments(raw);
    RenderRoundTrip(Segments(raw));
  }

  /** A normal path is its segments, rendered. */
  lemma {:induction false} NormalIsRender(p: BackendPath)
    ensures ValidSegments(Segments(p)) && p == Render(Segments(p))
  {
    AcceptableSegments(p);
  }

  /** A path is rejected for exactly these reasons. */
  lemma {:induction false} RejectedIff(raw: string)
    ensures Normalize(raw).Err? <==> raw == "" || '\0' in raw || '\\' in raw || ".." in Split(raw)
    ensures Normalize(raw).Ok? ==> forall s <- Segments(raw) :: s in Split(raw) && ValidSegment(s)
  {
    if Normalize(raw).Ok? {
      AcceptableSegments(raw);
      KeepSubset(Split(raw));
    }
  }

  // ── Ancestry ────────────────────────────────────────────────────────

  predicate IsAncestorOf(p: string, other: string) {
    p == other || (p <= other && ((p != "" && p[|p| - 1] == '/') || (|p| < |other| && other[|p|] == '/')))
  }

  lemma {:induction false} JoinAppend(a: seq<string>, b: seq<string>)
    requires a != [] && b != []
    ensures Join(a + b) == Join(a) + "/" + Join(b)
  {
    if |a| == 1 {
      assert (a + b)[1..] == b;
    } else {
      assert (a + b)[1..] == a[1..] + b;
      JoinAppend(a[1..], b);
    }
  }

  lemma {:induction false} JoinEnd(segs: seq<string>)
    requires ValidSegments(segs) && segs != []
    ensures Join(segs) != "" && Join(segs)[|Join(segs)| - 1] != '/' && Join(segs)[0] != '/'
  {
    assert segs[0] in segs && ValidSegment(segs[0]);
    if |segs| > 1 {
      JoinEnd(segs[1..]);
    }
  }

  /** On normal paths, being an ancestor is being a prefix of the segment list. */
  lemma {:induction false} AncestorIsSegmentPrefix(p: BackendPath, q: BackendPath)
    ensures IsAncestorOf(p, q) <==> Segments(p) <= Segments(q)
  {
    NormalIsRender(p);
    NormalIsRender(q);
    var a, b := Segments(p), Segments(q);
    if IsAncestorOf(p, q) && p != q && a != [] {
      JoinEnd(a);
      assert q == p + "/" + q[|p| + 1..];
      SegmentsConcat(p, q[|p| + 1..]);
    }
    if a <= b && a != b {
      assert b == a + b[|a|..];
      if a != [] {
        JoinAppend(a, b[|a|..]);
        assert q == p + "/" + Join(b[|a|..]);
      }
    }
  }

  /** The ancestors of one path form a chain, ordered by length. */
  lemma {:induction false} AncestorsFormChain(p: BackendPath, q: BackendPath, path: BackendPath)
    requires IsAncestorOf(p, path) && IsAncestorOf(q, path)
    ensures |p| <= |q| ==> IsAncestorOf(p, q)
    ensures |p| == |q| ==> p == q
  {
    AncestorIsSegmentPrefix(p, path);
    AncestorIsSegmentPrefix(q, path);
    AncestorIsSegmentPrefix(p, q);
    AncestorIsSegmentPrefix(q, p);
  }

  // ── Under and out of a prefix ───────────────────────────────────────

  function TrimStart(s: string): string {
    if s != "" && s[0] == '/' then TrimStart(s[1..]) else s
  }

  function TrimEnd(s: string): string {
    if s != "" && s[|s| - 1] == '/' then TrimEnd(s[..|s| - 1]) else s
  }

  function StripPrefix(path: string, prefix: string): Option<string> {
    if prefix <= path then Some(TrimStart(path[|prefix|..])) else None
  }

  /** The path a mounted backend sees: relative to the prefix, or the prefix itself at the mount point. */
  function Translate(prefix: string, path: string): string {
    var suffix := match StripPrefix(path, prefix) case Some(s) => s case None => path;
    if suffix == "" then prefix
    else
      match Normalize("/" + suffix)
      case Ok(p) => p
      case Err(_) => path
  }

  function Rebuild(prefix: string, child: string): string {
    if child == "/" || child == "" then prefix else TrimEnd(prefix) + child
  }

  /** Strictly below. */
  ghost predicate Below(prefix: string, path: string) {
    IsAncestorOf(prefix, path) && prefix != path
  }

  /** Below a mount, translation drops the prefix's segments. */
  lemma {:induction false} TranslateSegments(prefix: BackendPath, path: BackendPath)
    requires Below(prefix, path)
    ensures Normal(Translate(prefix, path)) && Translate(prefix, path) != "/"
    ensures Segments(prefix) <= Segments(path)
    ensures Segments(Translate(prefix, path)) == Segments(path)[|Segments(prefix)|..]
  {
    NormalIsRender(prefix);
    NormalIsRender(path);
    AncestorIsSegmentPrefix(prefix, path);
    var a, b := Segments(prefix), Segments(path);
    var rest := b[|a|..];
    assert b == a + rest;
    assert b[..|b|] == b && b[..|a|] == a && a != b;
    JoinEnd(rest);
    if a == [] {
      assert rest == b && path[1..] == Join(rest);
      assert TrimStart(Join(rest)) == Join(rest);
    } else {
      JoinAppend(a, rest);
      assert path[|prefix|..] == "/" + Join(rest);
      assert TrimStart(path[|prefix|..]) == TrimStart(Join(rest)) == Join(rest);
    }
    RenderRoundTrip(rest);
    assert "/" + Join(rest) == Render(rest);
  }

  /** Rebuilding puts the prefix's segments back in front. */
  lemma {:induction false} RebuildSegments(prefix: BackendPath, child: BackendPath)
    requires child != "/"
    ensures Normal(Rebuild(prefix, child))
    ensures Segments(Rebuild(prefix, child)) == Segments(prefix) + Segments(child)
    ensures Below(prefix, Rebuild(prefix, child))
  {
    NormalIsRender(prefix);
    NormalIsRender(child);
    var a, c := Segments(prefix), Segments(child);
    assert c != [];
    if a == [] {
      assert a + c == c && prefix == "/" && TrimEnd("/") == "";
    } else {
      JoinEnd(a);
      JoinAppend(a, c);
      assert prefix[|prefix| - 1] == Join(a)[|Join(a)| - 1];
      assert TrimEnd(prefix) == prefix;
    }
    assert Rebuild(prefix, child) == Render(a + c);
    RenderRoundTrip(a + c);
    AncestorIsSegmentPrefix(prefix, Rebuild(prefix, child));
  }

  /** Rebuilding undoes translation for every path strictly below the mount. */
  lemma {:induction false} RebuildTranslate(prefix: BackendPath, path: BackendPath)
    requires Below(prefix, path)
    ensures Rebuild(prefix, Translate(prefix, path)) == path && Rebuild(prefix, "/") == prefix
  {
    TranslateSegments(prefix, path);
    RebuildSegments(prefix, Translate(prefix, path));
    NormalIsRender(path);
    NormalIsRender(Rebuild(prefix, Translate(prefix, path)));
    assert Segments(path) == Segments(prefix) + Segments(path)[|Segments(prefix)|..];
  }

  /** Translation undoes rebuilding. */
  lemma {:induction false} TranslateRebuild(prefix: BackendPath, child: BackendPath)
    requires child != "/"
    ensures Normal(Rebuild(prefix, child)) && Translate(prefix, Rebuild(prefix, child)) == child
  {
    RebuildSegments(prefix, child);
    var path := Rebuild(prefix, child);
    TranslateSegments(prefix, path);
    NormalIsRender(child);
    NormalIsRender(Translate(prefix, path));
    assert Segments(path)[|Segments(prefix)|..] == Segments(child);
  }

  /** At the mount point itself translation yields the prefix, so rebuilding does not undo it. */
  lemma MountPointDoesNotRoundTrip()
    ensures Translate("/mem", "/mem") == "/mem"
    ensures Rebuild("/mem", Translate("/mem", "/mem")) == "/mem/mem"
  {
    assert TrimEnd("/mem") == "/mem";
    assert TrimStart("") == "";
  }
}
