/** The path checks of drives and of file senders. */
module PathChecks {
  import opened Wrappers
  import opened Text
  import opened Paths

  datatype PathError =
    | NoWorkingDirectory | Traversal | Uninspectable | SymlinkFound
    | NoRoot | NoPath | AbsolutePath | InvalidPath

  datatype Checked = Fine(path: string) | Bad(error: PathError)

  // ----- safeDrivePath -----

  function TrimSlash(file: string): string {
    if Rooted(file) then file[1..] else file
  }

  function Relative(file: string): string {
    if TrimSlash(file) == "" then "." else TrimSlash(file)
  }

  function SafeDrivePath(cwd: Option<string>, mount: string, file: string): Checked {
    var target := Clean(Join(mount, Relative(file)));
    var mountAbs := Abs(cwd, mount);
    var targetAbs := Abs(cwd, target);
    if mountAbs.None? || targetAbs.None? then Bad(NoWorkingDirectory)
    else if Escapes(Rel(mountAbs.value, targetAbs.value)) then Bad(Traversal)
    else Fine(targetAbs.value)
  }

  /** The place a drive's file path names: all its segments, walked from the mount point. Only with an empty mount
      point and two slashes in front are they walked from the root. */
  function Target(cwd: Option<string>, mount: string, file: string): seq<string>
    requires !Rooted(mount) ==> cwd.Some?
  {
    var start := if mount == "" && "//" <= file then [] else Place(cwd, mount);
    Walk(start, Split(file, '/'), true)
  }

  /** The slash in front of a file path, and a path left out, name no segment. */
  lemma RelativeIsWalked(at: seq<string>, file: string)
    ensures Walk(at, Split(Relative(file), '/'), true) == Walk(at, Split(file, '/'), true)
    ensures Rooted(Relative(file)) <==> "//" <= file
  {
    hide Push;
    assert Split("", '/') == [""];
    PushNothing(at);
    WalkOne(at, "", true);
    WalkOne(at, ".", true);
    SplitWhole(".", '/');
    if Rooted(file) {
      assert file == "" + ['/'] + file[1..];
      SplitAt("", file[1..], '/');
      WalkAppend(at, [""], Split(file[1..], '/'), true);
    }
  }

  lemma PushNothing(at: seq<string>)
    ensures Push(at, "", true) == at && Push(at, ".", true) == at
  {}

  lemma RootedSegments(path: string)
    ensures Rooted(path) ==> Segments(path) == Walk([], Split(path, '/'), true)
  {}

  lemma TargetIsPlace(cwd: Option<string>, mount: string, file: string)
    requires ValidDirectory(cwd) && (!Rooted(mount) ==> cwd.Some?)
    ensures var target := Clean(Join(mount, Relative(file)));
            (!Rooted(target) ==> cwd.Some?) && Place(cwd, target) == Target(cwd, mount, file)
  {
    hide Segments;
    hide Walk;
    hide Render;
    var joined := if mount == "" then Relative(file) else mount + "/" + Relative(file);
    if mount != "" {
      PlaceOfJoined(cwd, mount, Relative(file));
      RelativeIsWalked(Place(cwd, mount), file);
    } else {
      RelativeIsWalked([], file);
      RelativeIsWalked(Segments(cwd.value), file);
      WalkOne(Segments(cwd.value), "", true);
      RootedSegments(Relative(file));
    }
    PlaceOfClean(cwd, joined);
    CleanKeepsPlace(joined);
  }

  /** A path is accepted exactly when the place it names is at or below the mount point, wherever it goes on
      the way there; the answer is the absolute clean path of that place. */
  lemma SafePathExact(cwd: Option<string>, mount: string, file: string)
    requires ValidDirectory(cwd)
    ensures SafeDrivePath(cwd, mount, file)
         == if !Rooted(mount) && cwd.None? then Bad(NoWorkingDirectory)
            else if Place(cwd, mount) <= Target(cwd, mount, file) then Fine(Render(true, Target(cwd, mount, file)))
            else Bad(Traversal)
  {
    hide Segments;
    hide Walk;
    hide Render;
    hide Escapes;
    hide Rel;
    hide Target;
    hide Place;
    hide Join;
    AbsIsPlace(cwd, mount);
    if Rooted(mount) || cwd.Some? {
      TargetIsPlace(cwd, mount, file);
      var target := Clean(Join(mount, Relative(file)));
      AbsIsPlace(cwd, target);
      PlaceIsNormal(cwd, mount);
      PlaceIsNormal(cwd, target);
      RelEscapes(Place(cwd, mount), Place(cwd, target));
    }
  }

  /** For any mount point, the empty one included, what is accepted is an absolute clean path that has the
      mount point's segments as a prefix. */
  lemma SafePathContained(cwd: Option<string>, mount: string, file: string)
    requires ValidDirectory(cwd)
    ensures var checked := SafeDrivePath(cwd, mount, file);
            checked.Fine? ==>
              && (Rooted(mount) || cwd.Some?) && Rooted(checked.path)
              && Place(cwd, mount) <= Segments(checked.path) && AllNormal(Segments(checked.path))
              && checked.path == Clean(checked.path)
  {
    hide Segments;
    hide Walk;
    hide Render;
    hide Escapes;
    hide Rel;
    hide Place;
    hide Join;
    var target := Clean(Join(mount, Relative(file)));
    AbsIsPlace(cwd, mount);
    AbsIsPlace(cwd, target);
    if SafeDrivePath(cwd, mount, file).Fine? {
      PlaceIsNormal(cwd, mount);
      PlaceIsNormal(cwd, target);
      RelEscapes(Place(cwd, mount), Place(cwd, target));
      SegmentsOfRooted(Place(cwd, target));
    }
  }

  // ----- ResolveSenderPathUnderRoot -----

  function ResolveSenderPath(cwd: Option<string>, root: string, requested: string, fallback: string): Checked {
    var path := if requested == "" then fallback else requested;
    if root == "" then Bad(NoRoot)
    else if path == "" then Bad(NoPath)
    else if Rooted(path) then Bad(AbsolutePath)
    else
      var clean := Clean(path);
      if clean == "." || clean == "" || clean == ".." then Bad(InvalidPath)
      else if "../" <= clean then Bad(Traversal)
      else
        var rootAbs := Abs(cwd, root);
        if rootAbs.None? then Bad(NoWorkingDirectory)
        else
          var dest := Join(rootAbs.value, clean);
          if Escapes(Rel(rootAbs.value, dest)) then Bad(Traversal) else Fine(dest)
  }

  lemma DotIsNowhere(segments: seq<string>)
    requires UpsFirst(segments)
    ensures Render(false, segments) == "." <==> segments == []
  {
    hide JoinSlash;
    if segments != [] {
      SegmentsOfRelative(segments);
      SplitWhole(".", '/');
    }
  }

  lemma UpIsUp(segments: seq<string>)
    requires UpsFirst(segments)
    ensures Render(false, segments) == ".." <==> segments == [".."]
  {
    hide JoinSlash;
    SegmentsOfRelative(segments);
    SegmentsOfRelative([".."]);
    JustUp();
  }

  lemma JustUp()
    ensures Render(false, [".."]) == ".."
  {}

  lemma {:induction false} WalkDown(at: seq<string>, segments: seq<string>)
    requires AllNormal(segments)
    ensures Walk(at, segments, true) == at + segments
  {
    if segments != [] {
      WalkDown(at, segments[..|segments| - 1]);
    }
  }

  lemma DestOfClean(root: seq<string>, below: seq<string>)
    requires AllNormal(root) && AllNormal(below) && below != []
    ensures Join(Render(true, root), Render(false, below)) == Render(true, root + below)
  {
    hide Walk;
    hide JoinSlash;
    SegmentsOfRooted(root);
    SegmentsOfRelative(below);
    SegmentsOfJoined(Render(true, root), Render(false, below));
    WalkDown(root, below);
  }

  /** A sender's path is resolved exactly when it is relative and, cleaned, names something strictly below
      its start; it resolves to that place below the root, and the second traversal check rejects nothing. */
  lemma SenderPathExact(cwd: Option<string>, root: string, requested: string, fallback: string)
    requires ValidDirectory(cwd)
    ensures var path := if requested == "" then fallback else requested;
            var resolved := ResolveSenderPath(cwd, root, requested, fallback);
            && (resolved.Fine? <==>
                  && root != "" && path != "" && !Rooted(path) && (Rooted(root) || cwd.Some?)
                  && Segments(path) != [] && Segments(path)[0] != "..")
            && (resolved.Fine? ==> resolved.path == Render(true, Place(cwd, root) + Segments(path)))
            && (resolved == Bad(NoRoot) <==> root == "")
            && (resolved == Bad(NoPath) <==> root != "" && path == "")
            && (resolved == Bad(AbsolutePath) <==> root != "" && Rooted(path))
            && (root != "" && path != "" && !Rooted(path) ==>
                  && (resolved == Bad(InvalidPath) <==> Segments(path) == [] || Segments(path) == [".."])
                  && (resolved == Bad(Traversal) <==> |Segments(path)| > 1 && Segments(path)[0] == "..")
                  && (resolved == Bad(NoWorkingDirectory) ==> !Rooted(root) && cwd.None?))
  {
    hide Segments;
    hide Render;
    hide Rel;
    hide Join;
    hide Place;
    var path := if requested == "" then fallback else requested;
    if root != "" && path != "" && !Rooted(path) {
      var below := Segments(path);
      SegmentsForm(path);
      DotIsNowhere(below);
      UpIsUp(below);
      SegmentsOfRelative(below);
      EscapesByFirst(below);
      AbsIsPlace(cwd, root);
      if (Rooted(root) || cwd.Some?) && below != [] && below[0] != ".." {
        PlaceIsNormal(cwd, root);
        DestOfClean(Place(cwd, root), below);
        RelEscapes(Place(cwd, root), Place(cwd, root) + below);
      }
    }
  }

  // ----- noSymLinks -----

  /** What `os.Lstat` says of a path. */
  datatype Stat = NotLink | Link | Missing | Unreadable

  type Lstat = string -> Stat

  /** The walk over the segments below the mount point. */
  function Scan(current: string, segments: seq<string>, allowMissing: bool, lstat: Lstat): (err: Option<PathError>)
    ensures err in {None, Some(SymlinkFound), Some(Uninspectable)}
    decreases |segments|
  {
    if segments == [] then None
    else if segments[0] == "" || segments[0] == "." then Scan(current, segments[1..], allowMissing, lstat)
    else
      var next := Join(current, segments[0]);
      match lstat(next)
      case NotLink => Scan(next, segments[1..], allowMissing, lstat)
      case Link => Some(SymlinkFound)
      case Missing => if allowMissing then None else Some(Uninspectable)
      case Unreadable => Some(Uninspectable)
  }

  function SymlinkError(cwd: Option<string>, mount: string, target: string, allowMissing: bool,
                        lstat: Lstat): Option<PathError> {
    var mountAbs := Abs(cwd, mount);
    var targetAbs := Abs(cwd, target);
    if mountAbs.None? || targetAbs.None? then Some(NoWorkingDirectory)
    else
      var rel := Rel(mountAbs.value, targetAbs.value);
      if rel == "." then None else Scan(mountAbs.value, Split(rel, '/'), allowMissing, lstat)
  }

  method NoSymLinks(cwd: Option<string>, mount: string, target: string, allowMissing: bool, lstat: Lstat)
    returns (err: Option<PathError>)
    ensures err == SymlinkError(cwd, mount, target, allowMissing, lstat)
    ensures err == Some(NoWorkingDirectory) <==> cwd == None && !(Rooted(mount) && Rooted(target))
  {
    hide Split;
    hide Rel;
    hide Join;
    var mountAbs := Abs(cwd, mount);
    var targetAbs := Abs(cwd, target);
    if mountAbs == None || targetAbs == None {
      return Some(NoWorkingDirectory);
    }
    var rel := Rel(mountAbs.value, targetAbs.value);
    if rel == "." {
      return None;
    }
    var segments := Split(rel, '/');
    var current := mountAbs.value;
    var i := 0;
    while i < |segments|
      invariant i <= |segments|
      invariant Scan(current, segments[i..], allowMissing, lstat) == Scan(mountAbs.value, segments, allowMissing, lstat)
    {
      var segment := segments[i];
      assert segments[i..][1..] == segments[i + 1..];
      i := i + 1;
      if segment == "" || segment == "." {
        continue;
      }
      current := Join(current, segment);
      var stat := lstat(current);
      if stat == Missing && allowMissing {
        return None;
      }
      if stat == Missing || stat == Unreadable {
        return Some(Uninspectable);
      }
      if stat == Link {
        return Some(SymlinkFound);
      }
    }
    return None;
  }

  /** The directory or file `k` segments below the mount point. */
  function Component(base: seq<string>, below: seq<string>, k: nat): string
    requires k <= |below|
  {
    Render(true, base + below[..k])
  }

  /** The first `n` components exist and none of them is a symbolic link. */
  predicate ClearTo(base: seq<string>, below: seq<string>, n: nat, lstat: Lstat)
    requires n <= |below|
  {
    forall k :: 0 < k <= n ==> lstat(Component(base, below, k)) == NotLink
  }

  /** No symbolic link on the way down, as far as the way exists. */
  ghost predicate Clear(base: seq<string>, below: seq<string>, allowMissing: bool, lstat: Lstat) {
    || ClearTo(base, below, |below|, lstat)
    || (allowMissing && exists n :: 0 <= n < |below| && ClearTo(base, below, n, lstat)
                                 && lstat(Component(base, below, n + 1)) == Missing)
  }

  /** The first component that is anything but a file or a directory is a symbolic link. */
  ghost predicate LinkFirst(base: seq<string>, below: seq<string>, lstat: Lstat) {
    exists n :: 0 <= n < |below| && ClearTo(base, below, n, lstat) && lstat(Component(base, below, n + 1)) == Link
  }

  lemma LinkNext(base: seq<string>, below: seq<string>, lstat: Lstat)
    requires below != []
    ensures LinkFirst(base, below, lstat) <==>
              match lstat(Component(base, below, 1))
              case NotLink => LinkFirst(base + [below[0]], below[1..], lstat)
              case Link => true
              case Missing => false
              case Unreadable => false
  {
    hide Component;
    var base', below' := base + [below[0]], below[1..];
    assert ClearTo(base, below, 0, lstat);
    forall n | 0 < n < |below|
      ensures ClearTo(base, below, n, lstat) <==>
                lstat(Component(base, below, 1)) == NotLink && ClearTo(base', below', n - 1, lstat)
      ensures Component(base, below, n + 1) == Component(base', below', n)
    {
      ClearShift(base, below, n, lstat);
      ComponentShift(base, below, n + 1);
    }
    if LinkFirst(base', below', lstat) && lstat(Component(base, below, 1)) == NotLink {
      var n :| 0 <= n < |below'| && ClearTo(base', below', n, lstat) && lstat(Component(base', below', n + 1)) == Link;
      assert ClearTo(base, below, n + 1, lstat);
    }
    if LinkFirst(base, below, lstat) && lstat(Component(base, below, 1)) == NotLink {
      var n :| 0 <= n < |below| && ClearTo(base, below, n, lstat) && lstat(Component(base, below, n + 1)) == Link;
      assert ClearTo(base', below', n - 1, lstat);
    }
  }

  lemma ComponentShift(base: seq<string>, below: seq<string>, k: nat)
    requires 0 < k <= |below|
    ensures Component(base, below, k) == Component(base + [below[0]], below[1..], k - 1)
  {
    assert base + below[..k] == (base + [below[0]]) + below[1..][..k - 1];
  }

  lemma ClearShift(base: seq<string>, below: seq<string>, n: nat, lstat: Lstat)
    requires 0 < n <= |below|
    ensures ClearTo(base, below, n, lstat) <==>
              lstat(Component(base, below, 1)) == NotLink && ClearTo(base + [below[0]], below[1..], n - 1, lstat)
  {
    hide Component;
    forall k | 0 < k <= n
      ensures Component(base, below, k) == Component(base + [below[0]], below[1..], k - 1)
    {
      ComponentShift(base, below, k);
    }
    if lstat(Component(base, below, 1)) == NotLink && ClearTo(base + [below[0]], below[1..], n - 1, lstat) {
      forall k | 0 < k <= n
        ensures lstat(Component(base, below, k)) == NotLink
      {
        if k > 1 {
          assert lstat(Component(base + [below[0]], below[1..], k - 1)) == NotLink;
        }
      }
    }
    if ClearTo(base, below, n, lstat) {
      forall k | 0 < k <= n - 1
        ensures lstat(Component(base + [below[0]], below[1..], k)) == NotLink
      {
        assert Component(base, below, k + 1) == Component(base + [below[0]], below[1..], k + 1 - 1);
      }
    }
  }

  lemma ScanNext(base: seq<string>, below: seq<string>)
    requires AllNormal(base) && AllNormal(below) && below != []
    ensures Join(Render(true, base), below[0]) == Component(base, below, 1)
  {
    DestOfClean(base, [below[0]]);
    assert below[..1] == [below[0]];
  }

  lemma ClearNext(base: seq<string>, below: seq<string>, allowMissing: bool, lstat: Lstat)
    requires below != []
    ensures Clear(base, below, allowMissing, lstat) <==>
              match lstat(Component(base, below, 1))
              case NotLink => Clear(base + [below[0]], below[1..], allowMissing, lstat)
              case Link => false
              case Missing => allowMissing
              case Unreadable => false
  {
    hide Component;
    var base', below' := base + [below[0]], below[1..];
    ClearShift(base, below, |below|, lstat);
    assert ClearTo(base, below, 0, lstat);
    forall n | 0 < n < |below|
      ensures ClearTo(base, below, n, lstat) <==>
                lstat(Component(base, below, 1)) == NotLink && ClearTo(base', below', n - 1, lstat)
      ensures Component(base, below, n + 1) == Component(base', below', n)
    {
      ClearShift(base, below, n, lstat);
      ComponentShift(base, below, n + 1);
    }
    if Clear(base', below', allowMissing, lstat) && lstat(Component(base, below, 1)) == NotLink {
      if !ClearTo(base', below', |below'|, lstat) {
        var n :| 0 <= n < |below'| && ClearTo(base', below', n,
                                              lstat) && lstat(Component(base', below', n + 1)) == Missing;
        assert ClearTo(base, below, n + 1, lstat);
      }
    }
  }

  lemma {:induction false} ScanIsClear(base: seq<string>, below: seq<string>, allowMissing: bool, lstat: Lstat)
    requires AllNormal(base) && AllNormal(below)
    ensures Scan(Render(true, base), below, allowMissing, lstat) == None <==> Clear(base, below, allowMissing, lstat)
    ensures Scan(Render(true, base), below, allowMissing, lstat) == Some(SymlinkFound) <==> LinkFirst(base, below,
                                                                                                      lstat)
    ensures Scan(Render(true, base), below, allowMissing, lstat) in {None, Some(SymlinkFound), Some(Uninspectable)}
    decreases |below|
  {
    hide Render;
    hide Join;
    hide Clear;
    hide LinkFirst;
    hide Component;
    if below == [] {
      NothingBelow(base, allowMissing, lstat);
    } else {
      ComponentOne(base, below);
      LinkNext(base, below, lstat);
      ScanNext(base, below);
      ClearNext(base, below, allowMissing, lstat);
      ScanIsClear(base + [below[0]], below[1..], allowMissing, lstat);
      assert below[..1] == [below[0]];
    }
  }

  // ----- pathCheck -----

  method PathCheck(cwd: Option<string>, mount: string, file: string, allowMissing: bool, lstat: Lstat)
    returns (checked: Checked)
    requires ValidDirectory(cwd)
    ensures checked == Bad(NoWorkingDirectory) <==> !Rooted(mount) && cwd.None?
    ensures Rooted(mount) || cwd.Some? ==>
              var base, target := Place(cwd, mount), Target(cwd, mount, file);
              && (checked.Fine? <==> base <= target && Clear(base, target[|base|..], allowMissing, lstat))
              && (checked.Fine? ==> checked.path == Render(true, target))
              && (checked == Bad(Traversal) <==> !(base <= target))
              && (checked == Bad(SymlinkFound) <==> base <= target && LinkFirst(base, target[|base|..], lstat))
              && (checked.Bad? ==> checked.error in {Traversal, SymlinkFound, Uninspectable})
  {
    hide Target;
    hide Place;
    hide Clear;
    hide LinkFirst;
    hide SymlinkError;
    hide SafeDrivePath;
    SafePathExact(cwd, mount, file);
    checked := SafeDrivePath(cwd, mount, file);
    if checked.Bad? {
      return;
    }
    var err := NoSymLinks(cwd, mount, checked.path, allowMissing, lstat);
    SymlinkErrorBelow(cwd, mount, file, allowMissing, lstat);
    if err.Some? {
      return Bad(err.value);
    }
  }

  lemma SymlinkErrorBelow(cwd: Option<string>, mount: string, file: string, allowMissing: bool, lstat: Lstat)
    requires ValidDirectory(cwd) && (!Rooted(mount) ==> cwd.Some?)
    requires Place(cwd, mount) <= Target(cwd, mount, file)
    ensures var base, target := Place(cwd, mount), Target(cwd, mount, file);
            var err := SymlinkError(cwd, mount, Render(true, target), allowMissing, lstat);
            && (err == None <==> Clear(base, target[|base|..], allowMissing, lstat))
            && (err == Some(SymlinkFound) <==> LinkFirst(base, target[|base|..], lstat))
            && err in {None, Some(SymlinkFound), Some(Uninspectable)}
  {
    hide Target;
    hide Place;
    hide Clear;
    hide LinkFirst;
    hide Render;
    hide Rel;
    hide Segments;
    hide Scan;
    hide Split;
    var base, target := Place(cwd, mount), Target(cwd, mount, file);
    var below := target[|base|..];
    TargetIsPlace(cwd, mount, file);
    PlaceIsNormal(cwd, mount);
    PlaceIsNormal(cwd, Clean(Join(mount, Relative(file))));
    AbsIsPlace(cwd, mount);
    SegmentsOfRooted(target);
    RelEscapes(base, target);
    DotIsNowhere(below);
    SegmentsOfRelative(below);
    NothingBelow(base, allowMissing, lstat);
    ScanIsClear(base, below, allowMissing, lstat);
  }

  lemma NothingBelow(base: seq<string>, allowMissing: bool, lstat: Lstat)
    ensures Clear(base, [], allowMissing, lstat) && !LinkFirst(base, [], lstat)
  {}

  lemma ComponentOne(base: seq<string>, below: seq<string>)
    requires below != []
    ensures Component(base, below, 1) == Render(true, base + [below[0]])
  {
    assert below[..1] == [below[0]];
  }
}
