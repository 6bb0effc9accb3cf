/** The `<base href>` of the admin pages, and its meaning: relative reference resolution by
    sections 5.2.3 and 5.2.4 of RFC 3986, both at the level of characters. */
module BaseHref {

  // ------------------------------------------------------- computeBaseHref

  /** strings.LastIndex for one character; -1 when it does not occur. */
  function LastIndex(s: string, c: char): (r: int)
    ensures -1 <= r < |s|
    ensures r >= 0 ==> s[r] == c
    ensures forall i :: r < i < |s| ==> s[i] != c
  {
    if s == "" then -1
    else if s[|s| - 1] == c then |s| - 1
    else LastIndex(s[..|s| - 1], c)
  }

  /** strings.Count for one character. */
  function Count(s: string, c: char): nat {
    if s == "" then 0 else Count(s[..|s| - 1], c) + if s[|s| - 1] == c then 1 else 0
  }

  function Repeat(s: string, n: nat): string {
    if n == 0 then "" else Repeat(s, n - 1) + s
  }

  function ComputeBaseHref(reqPath: string): string {
    var lastSlash := LastIndex(reqPath, '/');
    if lastSlash < 0 then "./"
    else
      var dir := reqPath[..lastSlash + 1];
      var depth := Count(dir, '/') - 1;
      if depth <= 0 then "./" else Repeat("../", depth)
  }

  // ------------------------------------------- RFC 3986 path resolution

  predicate StartsWith(s: string, prefix: string) { prefix <= s }

  /** The position of the first '/' at or after `from`, or the end. */
  function NextSlash(s: string, from: nat): (r: nat)
    requires from <= |s|
    ensures from <= r <= |s|
    ensures r < |s| ==> s[r] == '/'
    ensures forall i :: from <= i < r ==> s[i] != '/'
    decreases |s| - from
  {
    if from == |s| || s[from] == '/' then from else NextSlash(s, from + 1)
  }

  /** Removes the last segment and the '/' before it, if any, from the output buffer. */
  function DropLastSegment(output: string): string {
    var k := LastIndex(output, '/');
    if k < 0 then "" else output[..k]
  }

  /** Section 5.2.4, steps 2A to 2E. */
  function RemoveDotSegments(input: string, output: string): string
    decreases |input|
  {
    if input == "" then output
    else if StartsWith(input, "../") then RemoveDotSegments(input[3..], output)
    else if StartsWith(input, "./") then RemoveDotSegments(input[2..], output)
    else if StartsWith(input, "/./") then RemoveDotSegments(input[2..], output)
    else if input == "/." then RemoveDotSegments("/", output)
    else if StartsWith(input, "/../") then RemoveDotSegments(input[3..], DropLastSegment(output))
    else if input == "/.." then RemoveDotSegments("/", DropLastSegment(output))
    else if input == "." || input == ".." then output
    else
      var k := NextSlash(input, if input[0] == '/' then 1 else 0);
      assert k > 0;
      RemoveDotSegments(input[k..], output + input[..k])
  }

  /** Section 5.2.3: everything of the base path up to its last '/', then the reference. A base
      with an authority and an empty path counts as "/". */
  function Merge(basePath: string, reference: string): string {
    if basePath == "" then "/" + reference
    else basePath[..LastIndex(basePath, '/') + 1] + reference
  }

  /** Section 5.2.2 for a reference that is a non-empty path not starting with '/'. */
  function Resolve(basePath: string, reference: string): string {
    RemoveDotSegments(Merge(basePath, reference), "")
  }

  // ---------------------------------------------------- paths as segments

  predicate IsSegment(s: string) { '/' !in s && s != "." && s != ".." }

  /** "/" before every segment: Render(["a", "", "b"]) is "/a//b". */
  function Render(segments: seq<string>): string {
    if segments == [] then "" else Render(segments[..|segments| - 1]) + "/" + segments[|segments| - 1]
  }

  predicate Normal(segments: seq<string>) {
    forall i :: 0 <= i < |segments| ==> IsSegment(segments[i])
  }

  /** An input that a dot rule applies to has a dot segment first. */
  lemma DotPrefixes(input: string)
    requires input != "" && input[0] == '/'
    ensures StartsWith(input, "/./") || input == "/." ==> input[1..NextSlash(input, 1)] == "."
    ensures StartsWith(input, "/../") || input == "/.." ==> input[1..NextSlash(input, 1)] == ".."
    ensures !StartsWith(input, "../") && !StartsWith(input, "./") && input != "." && input != ".."
  {
    if StartsWith(input, "/./") { assert input[1] == '.' && input[2] == '/'; }
    if StartsWith(input, "/../") { assert input[1] == '.' && input[2] == '.' && input[3] == '/'; }
  }

  lemma FirstSegment(segment: string, rest: string, output: string)
    requires '/' !in segment && (rest == "" || rest[0] == '/')
    ensures var input := "/" + segment + rest;
            && input[0] == '/' && NextSlash(input, 1) == 1 + |segment|
            && input[1..1 + |segment|] == segment && input[1 + |segment|..] == rest
            && output + input[..1 + |segment|] == output + "/" + segment
  {
    var input := "/" + segment + rest;
    assert forall i :: 0 <= i < |segment| ==> input[1 + i] == segment[i];
    assert rest != "" ==> input[1 + |segment|] == rest[0];
    assert input[..1 + |segment|] == "/" + segment;
  }

  /** Step 2E. */
  lemma SegmentStep(input: string, output: string)
    requires input != "" && input[0] == '/' && input[1..NextSlash(input, 1)] !in ["..", "."]
    ensures var k := NextSlash(input, 1);
            RemoveDotSegments(input, output) == RemoveDotSegments(input[k..], output + input[..k])
  {
    DotPrefixes(input);
  }

  lemma FirstSegmentMoves(segment: string, rest: string, output: string)
    requires IsSegment(segment) && (rest == "" || rest[0] == '/')
    ensures RemoveDotSegments("/" + segment + rest, output) == RemoveDotSegments(rest, output + "/" + segment)
  {
    var input := "/" + segment + rest;
    FirstSegment(segment, rest, output);
    SegmentStep(input, output);
  }

  /** Step 2C. */
  lemma ParentStep(rest: string, output: string)
    requires rest != "" && rest[0] == '/'
    ensures RemoveDotSegments("/.." + rest, output) == RemoveDotSegments(rest, DropLastSegment(output))
  {
    var input := "/.." + rest;
    assert input[3..] == rest && input[..4] == "/../";
    DotPrefixes(input);
    assert input[1..3] == "..";
    assert input[2] == '.';
  }

  /** Normal segments pass to the output unchanged. */
  lemma {:induction false} SegmentsMove(segments: seq<string>, rest: string, output: string)
    requires Normal(segments) && (rest == "" || rest[0] == '/')
    ensures RemoveDotSegments(Render(segments) + rest, output) == RemoveDotSegments(rest, output + Render(segments))
  {
    if segments == [] {
      assert Render(segments) + rest == rest && output + Render(segments) == output;
    } else {
      var front, last := segments[..|segments| - 1], segments[|segments| - 1];
      RenderLast(segments, rest, output);
      SegmentsMove(front, "/" + last + rest, output);
      FirstSegmentMoves(last, rest, output + Render(front));
    }
  }

  lemma RenderLast(segments: seq<string>, rest: string, output: string)
    requires segments != []
    ensures var front, last := segments[..|segments| - 1], segments[|segments| - 1];
            && Render(segments) + rest == Render(front) + ("/" + last + rest)
            && output + Render(front) + "/" + last == output + Render(segments)
  {
    var front, last := segments[..|segments| - 1], segments[|segments| - 1];
    assert output + Render(segments) == output + (Render(front) + "/" + last);
  }

  lemma {:induction false} LastSlashBefore(s: string, segment: string)
    requires '/' !in segment
    ensures LastIndex(s + "/" + segment, '/') == |s|
  {
    var t := s + "/" + segment;
    if segment == "" {
      assert t[|t| - 1] == '/';
    } else {
      assert t[..|t| - 1] == s + "/" + segment[..|segment| - 1];
      assert t[|t| - 1] == segment[|segment| - 1];
      LastSlashBefore(s, segment[..|segment| - 1]);
    }
  }

  lemma DropRendered(before: string, segment: string)
    requires '/' !in segment
    ensures DropLastSegment(before + "/" + segment) == before
  {
    LastSlashBefore(before, segment);
    assert (before + "/" + segment)[..|before|] == before;
  }

  /** As many "/.." as there are segments in the output removes them all. */
  lemma {:induction false} ParentsDrop(segments: seq<string>, before: string)
    requires Normal(segments)
    ensures RemoveDotSegments(Repeat("/..", |segments|) + "/", before + Render(segments)) == before + "/"
  {
    if segments == [] {
      assert Repeat("/..", 0) + "/" == "/" && before + Render(segments) == before;
      LoneSlash(before);
    } else {
      var n, front, last := |segments|, segments[..|segments| - 1], segments[|segments| - 1];
      var rest := Repeat("/..", n - 1) + "/";
      RepeatFront("/..", n - 1);
      RestStartsWithSlash(n - 1);
      Associate("/..", Repeat("/..", n - 1), "/");
      ParentStep(rest, before + Render(segments));
      Associate(before, Render(front) + "/", last);
      Associate(before, Render(front), "/");
      DropRendered(before + Render(front), last);
      ParentsDrop(front, before);
    }
  }

  lemma Associate(a: string, b: string, c: string)
    ensures a + b + c == a + (b + c)
  {}

  lemma LoneSlash(output: string)
    ensures RemoveDotSegments("/", output) == output + "/"
  {
    FirstSegmentMoves("", "", output);
    assert "/" + "" + "" == "/";
    assert output + "/" + "" == output + "/";
  }

  lemma {:induction false} RepeatFront(s: string, n: nat)
    ensures Repeat(s, n + 1) == s + Repeat(s, n)
  {
    if n > 0 {
      RepeatFront(s, n - 1);
    }
  }

  lemma RestStartsWithSlash(n: nat)
    ensures (Repeat("/..", n) + "/")[0] == '/'
  {
    if n > 0 { RepeatFront("/..", n - 1); }
  }

  /** The "/" that ends a directory path followed by "../"s is "/.."s followed by "/". */
  lemma {:induction false} ShiftSlash(n: nat)
    ensures "/" + Repeat("../", n) == Repeat("/..", n) + "/"
  {
    if n > 0 {
      ShiftSlash(n - 1);
      assert "/" + Repeat("../", n) == (Repeat("/..", n - 1) + "/") + "../";
      assert Repeat("/..", n) + "/" == Repeat("/..", n - 1) + "/../";
    }
  }

  // ---------------------------------------------------------------- theorem

  lemma {:induction false} SlashesRendered(segments: seq<string>)
    requires forall i :: 0 <= i < |segments| ==> '/' !in segments[i]
    ensures Count(Render(segments), '/') == |segments|
  {
    if segments != [] {
      var front, last := segments[..|segments| - 1], segments[|segments| - 1];
      SlashesRendered(front);
      CountNone(Render(front) + "/", last);
      var t := Render(front) + "/";
      assert t[..|t| - 1] == Render(front);
    }
  }

  lemma {:induction false} CountNone(s: string, segment: string)
    requires '/' !in segment
    ensures Count(s + segment, '/') == Count(s, '/')
  {
    if segment == "" {
      assert s + segment == s;
    } else {
      var t := s + segment;
      assert t[..|t| - 1] == s + segment[..|segment| - 1];
      CountNone(s, segment[..|segment| - 1]);
    }
  }

  /** Every path that starts with '/' is a directory of segments, a '/', and a file name. */
  lemma {:induction false} PathShape(path: string) returns (dir: seq<string>, file: string)
    requires path != "" && path[0] == '/'
    ensures '/' !in file && forall i :: 0 <= i < |dir| ==> '/' !in dir[i]
    ensures path == Render(dir) + "/" + file
  {
    var k := LastIndex(path, '/');
    file := path[k + 1..];
    if k == 0 {
      dir := [];
      assert path == "/" + file;
    } else {
      var d, f := PathShape(path[..k]);
      dir := d + [f];
      assert dir[..|dir| - 1] == d;
      assert path == path[..k] + "/" + file;
    }
  }

  lemma HrefOfPath(dir: seq<string>, file: string)
    requires '/' !in file && forall i :: 0 <= i < |dir| ==> '/' !in dir[i]
    ensures var href := ComputeBaseHref(Render(dir) + "/" + file);
            href == if dir == [] then "./" else Repeat("../", |dir|)
  {
    var path := Render(dir) + "/" + file;
    LastSlashBefore(Render(dir), file);
    var d := path[..|Render(dir)| + 1];
    assert d == Render(dir) + "/" && d[..|d| - 1] == Render(dir);
    SlashesRendered(dir);
  }

  /** Some list of segments without dot segments reads like this: the empty path, or a path that
      starts with '/' and contains no "." or ".." segment. Empty segments are fine. */
  ghost predicate Plain(s: string) {
    exists segments :: Normal(segments) && s == Render(segments)
  }

  /** The document is at mount + path. For every plain mount prefix and every request path whose
      directory is plain (what follows its last '/' is never looked at), the `<base href>`
      resolves to the mount's own directory: mount + "/". */
  lemma BaseHrefResolvesToMount(mount: string, path: string)
    requires Plain(mount) && path != "" && path[0] == '/' && Plain(path[..LastIndex(path, '/')])
    ensures Resolve(mount + path, ComputeBaseHref(path)) == mount + "/"
  {
    var k := LastIndex(path, '/');
    var segments :| Normal(segments) && mount == Render(segments);
    var dir :| Normal(dir) && path[..k] == Render(dir);
    SplitAtLastSlash(path);
    ResolvesToMountAt(segments, mount, dir, path[k + 1..], path);
  }

  lemma SplitAtLastSlash(path: string)
    requires '/' in path
    ensures var k := LastIndex(path, '/'); path == path[..k] + "/" + path[k + 1..] && '/' !in path[k + 1..]
  {}

  lemma ResolvesToMountAt(segments: seq<string>, mount: string, dir: seq<string>, file: string, path: string)
    requires Normal(segments) && Normal(dir) && '/' !in file
    requires mount == Render(segments) && path == Render(dir) + "/" + file
    ensures Resolve(mount + path, ComputeBaseHref(path)) == mount + "/"
  {
    ResolvesToMount(segments, dir, file);
  }

  lemma ResolvesToMount(mount: seq<string>, dir: seq<string>, file: string)
    requires Normal(mount) && Normal(dir) && '/' !in file
    ensures var path := Render(dir) + "/" + file;
            Resolve(Render(mount) + path, ComputeBaseHref(path)) == Render(mount) + "/"
  {
    HrefOfPath(dir, file);
    var href := if dir == [] then "./" else Repeat("../", |dir|);
    MergeAtDirectory(Render(mount), dir, file, href);
    if dir == [] { DotStays(mount); } else { ParentsReturn(mount, dir); }
  }

  lemma MergeAtDirectory(mount: string, dir: seq<string>, file: string, href: string)
    requires '/' !in file
    ensures Merge(mount + (Render(dir) + "/" + file), href) == mount + (Render(dir) + ("/" + href))
  {
    var d := Render(dir);
    Associate(mount, d + "/", file);
    Associate(mount, d, "/");
    MergeAfterLastSlash(mount + d, file, href);
    Associate(mount, d, "/" + href);
    Associate(mount + d, "/", href);
  }

  lemma MergeAfterLastSlash(before: string, file: string, href: string)
    requires '/' !in file
    ensures Merge(before + "/" + file, href) == before + "/" + href
  {
    LastSlashBefore(before, file);
    assert (before + "/" + file)[..|before| + 1] == before + "/";
  }

  lemma DotStays(mount: seq<string>)
    requires Normal(mount)
    ensures RemoveDotSegments(Render(mount) + (Render([]) + ("/" + "./")), "") == Render(mount) + "/"
  {
    assert Render([]) + ("/" + "./") == "/./" && "" + Render(mount) == Render(mount);
    SegmentsMove(mount, "/./", "");
    DotStep(Render(mount));
  }

  lemma DotStep(output: string)
    ensures RemoveDotSegments("/./", output) == output + "/"
  {
    var input := "/./";
    assert input[0] == '/' && input[2..] == "/";
    LoneSlash(output);
  }

  lemma ParentsReturn(mount: seq<string>, dir: seq<string>)
    requires Normal(mount) && Normal(dir) && dir != []
    ensures RemoveDotSegments(Render(mount) + (Render(dir) + ("/" + Repeat("../", |dir|))), "") == Render(mount) + "/"
  {
    var ups := Repeat("/..", |dir|) + "/";
    ShiftSlash(|dir|);
    RestStartsWithSlash(|dir|);
    RenderStartsWithSlash(dir);
    SegmentsMove(mount, Render(dir) + ups, "");
    assert "" + Render(mount) == Render(mount);
    SegmentsMove(dir, ups, Render(mount));
    ParentsDrop(dir, Render(mount));
  }

  /** Plainness excludes nothing but dot segments: every path that is empty or starts with '/' is
      a list of slash-free segments, and it is plain exactly when none of them is a dot segment. */
  lemma PlainIffNoDots(segments: seq<string>)
    requires forall i :: 0 <= i < |segments| ==> '/' !in segments[i]
    ensures Plain(Render(segments)) <==> Normal(segments)
  {
    if Plain(Render(segments)) {
      var other :| Normal(other) && Render(segments) == Render(other);
      RenderInjective(segments, other);
    }
  }

  lemma {:induction false} RenderInjective(a: seq<string>, b: seq<string>)
    requires forall i :: 0 <= i < |a| ==> '/' !in a[i]
    requires forall i :: 0 <= i < |b| ==> '/' !in b[i]
    requires Render(a) == Render(b)
    ensures a == b
  {
    SlashesRendered(a);
    SlashesRendered(b);
    if a != [] {
      var x, y := a[..|a| - 1], b[..|b| - 1];
      DropRendered(Render(x), a[|a| - 1]);
      DropRendered(Render(y), b[|b| - 1]);
      RenderInjective(x, y);
      assert a[|a| - 1] == Render(a)[|Render(x)| + 1..];
      assert b[|b| - 1] == Render(b)[|Render(y)| + 1..];
      assert a == x + [a[|a| - 1]] && b == y + [b[|b| - 1]];
    }
  }

  lemma {:induction false} RenderStartsWithSlash(segments: seq<string>)
    requires segments != []
    ensures Render(segments) != "" && Render(segments)[0] == '/'
  {
    if |segments| > 1 { RenderStartsWithSlash(segments[..|segments| - 1]); }
  }
}
