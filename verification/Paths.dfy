/** Lexical containment of paths: the file paths of a drive under its mount point, and the paths a sender
    may name under its root. Paths are Unix paths. */
module Paths {
  import opened Wrappers
  import opened Text

  // ----- the path library, in terms of segments -----

  predicate Rooted(path: string) {
    path != "" && path[0] == '/'
  }

  /** One segment of a path, walked from the place that `at` stands for. */
  function Push(at: seq<string>, segment: string, rooted: bool): seq<string> {
    if segment == "" || segment == "." then at
    else if segment != ".." then at + [segment]
    else if at != [] && at[|at| - 1] != ".." then at[..|at| - 1]
    else if rooted then at
    else at + [".."]
  }

  function Walk(at: seq<string>, segments: seq<string>, rooted: bool): seq<string> {
    if segments == [] then at
    else Push(Walk(at, segments[..|segments| - 1], rooted), segments[|segments| - 1], rooted)
  }

  function Segments(path: string): seq<string> {
    Walk([], Split(path, '/'), Rooted(path))
  }

  /** `strings.Join(segments, "/")`. */
  function JoinSlash(segments: seq<string>): string {
    if segments == [] then ""
    else if |segments| == 1 then segments[0]
    else JoinSlash(segments[..|segments| - 1]) + "/" + segments[|segments| - 1]
  }

  function Render(rooted: bool, segments: seq<string>): string {
    if rooted then "/" + JoinSlash(segments)
    else if segments == [] then "."
    else JoinSlash(segments)
  }

  function Clean(path: string): string {
    Render(Rooted(path), Segments(path))
  }

  function Join(a: string, b: string): string {
    if a == "" && b == "" then "" else if a == "" then Clean(b) else if b == "" then Clean(a) else Clean(a + "/" + b)
  }

  /** `cwd` is the working directory, when it can be had. */
  function Abs(cwd: Option<string>, path: string): Option<string> {
    if Rooted(path) then Some(Clean(path))
    else if cwd.None? then None
    else Some(Join(cwd.value, path))
  }

  function Ups(n: nat): seq<string> {
    seq(n, _ => "..")
  }

  /** The path up to and with its last slash. */
  function UpToSlash(path: string): string {
    if path == "" || path[|path| - 1] == '/' then path else UpToSlash(path[..|path| - 1])
  }

  /** `filepath.Dir`. */
  function Dir(path: string): string {
    Clean(UpToSlash(path))
  }

  function TrimSlashes(path: string): string {
    if path == "" || path[|path| - 1] != '/' then path else TrimSlashes(path[..|path| - 1])
  }

  function AfterSlash(path: string): string {
    if path == "" || path[|path| - 1] == '/' then ""
    else AfterSlash(path[..|path| - 1]) + [path[|path| - 1]]
  }

  /** `filepath.Base`. */
  function Base(path: string): string {
    if path == "" then "."
    else if TrimSlashes(path) == "" then "/"
    else AfterSlash(TrimSlashes(path))
  }

  function Common(a: seq<string>, b: seq<string>): (n: nat)
    ensures n <= |a| && n <= |b|
  {
    if a != [] && b != [] && a[0] == b[0] then 1 + Common(a[1..], b[1..]) else 0
  }

  /** For two absolute paths: up to the common directory and down again. */
  function Rel(base: string, target: string): string {
    var b, t := Segments(base), Segments(target);
    var n := Common(b, t);
    Render(false, Ups(|b| - n) + t[n..])
  }

  // ----- cleaned segments -----

  predicate Normal(segment: string) {
    segment != "" && segment != "." && segment != ".." && '/' !in segment
  }

  predicate AllNormal(segments: seq<string>) {
    forall i :: 0 <= i < |segments| ==> Normal(segments[i])
  }

  /** Ups first and then normal segments, as in a cleaned relative path. */
  predicate UpsFirst(segments: seq<string>) {
    && (forall i :: 0 <= i < |segments| ==> Normal(segments[i]) || segments[i] == "..")
    && (forall i, j :: 0 <= i < j < |segments| && segments[j] == ".." ==> segments[i] == "..")
  }

  predicate NoSlashes(segments: seq<string>) {
    forall i :: 0 <= i < |segments| ==> '/' !in segments[i]
  }

  lemma {:induction false} WalkAppend(at: seq<string>, a: seq<string>, b: seq<string>, rooted: bool)
    ensures Walk(at, a + b, rooted) == Walk(Walk(at, a, rooted), b, rooted)
  {
    if b == [] {
      assert a + b == a;
    } else {
      assert (a + b)[..|a + b| - 1] == a + b[..|b| - 1];
      WalkAppend(at, a, b[..|b| - 1], rooted);
    }
  }

  lemma WalkOne(at: seq<string>, segment: string, rooted: bool)
    ensures Walk(at, [segment], rooted) == Push(at, segment, rooted)
  {
    assert [segment][..0] == [];
  }

  lemma {:induction false} WalkIsNormal(at: seq<string>, segments: seq<string>)
    requires AllNormal(at) && NoSlashes(segments)
    ensures AllNormal(Walk(at, segments, true))
  {
    if segments != [] {
      WalkIsNormal(at, segments[..|segments| - 1]);
    }
  }

  lemma {:induction false} WalkIsUpsFirst(segments: seq<string>)
    requires NoSlashes(segments)
    ensures UpsFirst(Walk([], segments, false))
  {
    if segments != [] {
      var front := segments[..|segments| - 1];
      WalkIsUpsFirst(front);
      PushUpsFirst(Walk([], front, false), segments[|segments| - 1]);
    }
  }

  lemma PushUpsFirst(at: seq<string>, segment: string)
    requires UpsFirst(at) && '/' !in segment
    ensures UpsFirst(Push(at, segment, false))
  {
    if at != [] && at[|at| - 1] == ".." {
      forall i | 0 <= i < |at|
        ensures at[i] == ".."
      {
        assert i < |at| - 1 ==> at[i] == "..";
      }
    }
  }

  /** Cleaning changes nothing more. */
  lemma {:induction false} WalkKeeps(segments: seq<string>, rooted: bool)
    requires if rooted then AllNormal(segments) else UpsFirst(segments)
    ensures Walk([], segments, rooted) == segments
  {
    if segments != [] {
      WalkKeeps(segments[..|segments| - 1], rooted);
    }
  }

  /** To clean a relative path and walk the result is to walk the path. */
  lemma {:induction false} WalkCleaned(at: seq<string>, segments: seq<string>)
    requires AllNormal(at) && NoSlashes(segments)
    ensures Walk(at, Walk([], segments, false), true) == Walk(at, segments, true)
  {
    if segments != [] {
      var front := segments[..|segments| - 1];
      WalkCleaned(at, front);
      WalkIsUpsFirst(front);
      PushCleaned(at, Walk([], front, false), segments[|segments| - 1]);
    }
  }

  lemma PushCleaned(at: seq<string>, relative: seq<string>, segment: string)
    requires AllNormal(at) && UpsFirst(relative)
    ensures Walk(at, Push(relative, segment, false), true) == Push(Walk(at, relative, true), segment, true)
  {
    var n := |relative|;
    if segment == "" || segment == "." {
    } else if segment == ".." && n > 0 && relative[n - 1] != ".." {
      WalkAppend(at, relative[..n - 1], [relative[n - 1]], true);
      assert relative == relative[..n - 1] + [relative[n - 1]];
      WalkOne(Walk(at, relative[..n - 1], true), relative[n - 1], true);
    } else {
      WalkAppend(at, relative, [segment], true);
      WalkOne(Walk(at, relative, true), segment, true);
    }
  }

  // ----- rendering and reading back -----

  lemma {:induction false} SplitJoined(segments: seq<string>)
    requires segments != [] && NoSlashes(segments)
    ensures Split(JoinSlash(segments), '/') == segments
  {
    if |segments| == 1 {
      SplitWhole(segments[0], '/');
    } else {
      var front, last := segments[..|segments| - 1], segments[|segments| - 1];
      SplitJoined(front);
      SplitWhole(last, '/');
      SplitAt(JoinSlash(front), last, '/');
      assert front + [last] == segments;
    }
  }

  lemma JoinNotRooted(segments: seq<string>)
    requires segments != [] && NoSlashes(segments) && segments[0] != ""
    ensures !Rooted(JoinSlash(segments))
  {
    SplitJoined(segments);
  }

  lemma SegmentsOfRooted(segments: seq<string>)
    requires AllNormal(segments)
    ensures Rooted(Render(true, segments)) && Segments(Render(true, segments)) == segments
  {
    var text := JoinSlash(segments);
    assert "/" + text == "" + ['/'] + text;
    SplitAt("", text, '/');
    WalkKeeps(segments, true);
    WalkAppend([], [""], if segments == [] then [""] else segments, true);
    WalkOne([], "", true);
    if segments != [] {
      SplitJoined(segments);
    }
  }

  lemma SegmentsOfRelative(segments: seq<string>)
    requires UpsFirst(segments)
    ensures !Rooted(Render(false, segments)) && Render(false, segments) != ""
    ensures Split(Render(false, segments), '/') == if segments == [] then ["."] else segments
    ensures Segments(Render(false, segments)) == segments
  {
    WalkKeeps(segments, false);
    if segments == [] {
      SplitWhole(".", '/');
      WalkOne([], ".", false);
    } else {
      SplitJoined(segments);
      JoinNotRooted(segments);
    }
  }

  lemma SegmentsForm(path: string)
    ensures if Rooted(path) then AllNormal(Segments(path)) else UpsFirst(Segments(path))
  {
    SplitHasNo(path, '/');
    if Rooted(path) {
      WalkIsNormal([], Split(path, '/'));
    } else {
      WalkIsUpsFirst(Split(path, '/'));
    }
  }

  /** A cleaned path names the same place, and is clean. */
  lemma CleanKeepsPlace(path: string)
    ensures Rooted(Clean(path)) == Rooted(path) && Segments(Clean(path)) == Segments(path)
    ensures Clean(Clean(path)) == Clean(path)
  {
    SegmentsForm(path);
    if Rooted(path) {
      SegmentsOfRooted(Segments(path));
    } else {
      SegmentsOfRelative(Segments(path));
    }
  }

  /** A path after a slash is walked from where the path before it leads. */
  lemma SegmentsOfJoined(a: string, b: string)
    requires a != ""
    ensures Segments(a + "/" + b) == Walk(Segments(a), Split(b, '/'), Rooted(a))
    ensures Rooted(a + "/" + b) == Rooted(a)
  {
    assert a + "/" + b == a + ['/'] + b;
    SplitAt(a, b, '/');
    WalkAppend([], Split(a, '/'), Split(b, '/'), Rooted(a));
  }

  // ----- absolute paths -----

  predicate ValidDirectory(cwd: Option<string>) {
    cwd.Some? ==> Rooted(cwd.value)
  }

  /** The place a path names, seen from the working directory. */
  function Place(cwd: Option<string>, path: string): seq<string>
    requires !Rooted(path) ==> cwd.Some?
  {
    if Rooted(path) then Segments(path) else Walk(Segments(cwd.value), Split(path, '/'), true)
  }

  lemma PlaceIsNormal(cwd: Option<string>, path: string)
    requires ValidDirectory(cwd) && (!Rooted(path) ==> cwd.Some?)
    ensures AllNormal(Place(cwd, path))
  {
    SegmentsForm(path);
    SplitHasNo(path, '/');
    if !Rooted(path) {
      SegmentsForm(cwd.value);
      WalkIsNormal(Segments(cwd.value), Split(path, '/'));
    }
  }

  lemma AbsIsPlace(cwd: Option<string>, path: string)
    requires ValidDirectory(cwd)
    ensures Abs(cwd, path).Some? <==> Rooted(path) || cwd.Some?
    ensures Abs(cwd, path).Some? ==> Abs(cwd, path).value == Render(true, Place(cwd, path))
  {
    if !Rooted(path) && cwd.Some? {
      if path == "" {
        WalkOne(Segments(cwd.value), "", true);
      } else {
        SegmentsOfJoined(cwd.value, path);
      }
    }
  }

  /** To clean a path first does not change the place it names. */
  lemma PlaceOfClean(cwd: Option<string>, path: string)
    requires ValidDirectory(cwd) && (!Rooted(path) ==> cwd.Some?)
    ensures Rooted(Clean(path)) == Rooted(path) && Place(cwd, Clean(path)) == Place(cwd, path)
  {
    CleanKeepsPlace(path);
    if !Rooted(path) {
      var at := Segments(cwd.value);
      SegmentsForm(cwd.value);
      SegmentsForm(path);
      SplitHasNo(path, '/');
      SegmentsOfRelative(Segments(path));
      WalkCleaned(at, Split(path, '/'));
      WalkOne(at, ".", true);
    }
  }

  lemma PlaceOfJoined(cwd: Option<string>, a: string, b: string)
    requires ValidDirectory(cwd) && (!Rooted(a) ==> cwd.Some?) && a != ""
    ensures Rooted(a + "/" + b) == Rooted(a) && Place(cwd, a + "/" + b) == Walk(Place(cwd, a), Split(b, '/'), true)
  {
    SegmentsOfJoined(a, b);
    if !Rooted(a) {
      assert a + "/" + b == a + ['/'] + b;
      SplitAt(a, b, '/');
      WalkAppend(Segments(cwd.value), Split(a, '/'), Split(b, '/'), true);
    }
  }

  // ----- plain file names -----

  lemma {:induction false} NameHasNoSlash(name: string)
    requires '/' !in name
    ensures UpToSlash(name) == "" && TrimSlashes(name) == name && AfterSlash(name) == name
  {
    if name != "" {
      NameHasNoSlash(name[..|name| - 1]);
    }
  }

  /** A plain name is its own base, and its directory is the working directory. */
  lemma PlainName(cwd: string, name: string)
    requires Normal(name)
    ensures Base(name) == name && Dir(name) == "."
    ensures Place(Some(cwd), name) == Segments(cwd) + [name] && Place(Some(cwd), ".") == Segments(cwd)
  {
    NameHasNoSlash(name);
    SplitWhole(name, '/');
    SplitWhole(".", '/');
    WalkOne(Segments(cwd), name, true);
    WalkOne(Segments(cwd), ".", true);
    assert Split("", '/') == [""];
    WalkOne([], "", false);
  }

  // ----- the traversal check -----

  /** The test on a relative path that both callers make. */
  predicate Escapes(rel: string) {
    rel == ".." || "../" <= rel
  }

  lemma {:induction false} JoinHead(segments: seq<string>)
    requires segments != []
    ensures JoinSlash(segments) == if |segments| == 1 then segments[0] else segments[0] + "/" + JoinSlash(segments[1..])
  {
    if |segments| > 1 {
      var front := segments[..|segments| - 1];
      JoinHead(front);
      if |segments| > 2 {
        assert segments[1..][..|segments| - 2] == front[1..];
      }
    }
  }

  /** The test looks at the first segment only, so a name like "..x" passes it. */
  lemma EscapesByFirst(segments: seq<string>)
    requires UpsFirst(segments)
    ensures Escapes(Render(false, segments)) <==> segments != [] && segments[0] == ".."
  {
    hide Split;
    hide JoinSlash;
    if segments != [] {
      var text := JoinSlash(segments);
      JoinHead(segments);
      SplitJoined(segments);
      if "../" <= text {
        assert text == ".." + ['/'] + text[3..];
        SplitAt("..", text[3..], '/');
        SplitWhole("..", '/');
      }
      if text == ".." {
        SplitWhole("..", '/');
      }
    }
  }

  lemma {:induction false} CommonIsPrefix(a: seq<string>, b: seq<string>)
    ensures Common(a, b) == |a| <==> a <= b
  {
    if a != [] && b != [] && a[0] == b[0] {
      CommonIsPrefix(a[1..], b[1..]);
      assert a[1..] <= b[1..] ==> a <= b by {
        assert a == [a[0]] + a[1..] && b == [b[0]] + b[1..];
      }
    }
  }

  /** The check passes exactly for the places at or below the base. */
  lemma RelEscapes(base: seq<string>, target: seq<string>)
    requires AllNormal(base) && AllNormal(target)
    ensures Escapes(Rel(Render(true, base), Render(true, target))) <==> !(base <= target)
    ensures base <= target ==> Rel(Render(true, base), Render(true, target)) == Render(false, target[|base|..])
  {
    hide Segments;
    hide Render;
    hide Common;
    hide Escapes;
    SegmentsOfRooted(base);
    SegmentsOfRooted(target);
    CommonIsPrefix(base, target);
    var n := Common(base, target);
    var rel := Ups(|base| - n) + target[n..];
    EscapesByFirst(rel);
    if n == |base| {
      assert rel == target[n..];
    }
  }
}
