/** Whole calls of a drive: what an unmount and a delete do when nothing comes between their regions, and what has
    happened in a run that ends with the drive deleted. */
module DriveCalls {
  import opened Wrappers
  import opened Drive
  import opened DriveRuns

  // ----- calls that nothing interrupts -----

  lemma RunNext(kind: Kind, s: System, step: Step, next: System, rest: seq<Step>, s': System)
    requires Enabled(kind, s, step) && next == Apply(kind, s, step) && Run(kind, next, rest, s')
    ensures Run(kind, s, [step] + rest, s')
  {
    hide Apply;
    hide Possible;
    assert ([step] + rest)[1..] == rest;
  }

  lemma RunNone(kind: Kind, s: System)
    ensures Run(kind, s, [], s)
  {}

  /** The steps up to the last region of `Unmount`; only an ephemeral drive's directory is removed. */
  function Unmounts(t: Thread, deleting: bool, ephemeral: bool, rest: seq<Step>): seq<Step> {
    var last := [Close(t)] + rest;
    var remove := if ephemeral then [RemoveDir(t, true)] + last else last;
    [CallUnmount(t, deleting)] + ([SeeDrained(t)] + ([Snapshot(t)] + ([RunUnmount(t, Detached)] + remove)))
  }

  /** A mounted drive that no call is inside of. */
  predicate Idle(s: System) {
    && s.drive.params.Some? && s.drive.mounted && s.drive.mountPoint != "" && s.drive.hasUnmount
    && !s.drive.unMounting && s.drive.io == 0 && s.unmounter == None
  }

  /** The drive with its file system off and its flags cleared. */
  function Off(s: System): System {
    s.(drive := s.drive.(mounted := false, mountPoint := "", hasUnmount := false, unMounting := false), up := false)
  }

  /** An idle drive of which call `t` has begun the unmount and is now at `pc`. */
  function Begun(s: System, t: Thread, pc: Pc, up: bool): System {
    s.(drive := s.drive.(unMounting := true), unmounter := Some(t), threads := s.threads[t := pc], up := up)
  }

  function AfterDetach(s: System, deleting: bool): Pc {
    if Ephemeral(s.drive) then RemovingDir(deleting, s.drive.mountPoint) else Closing(deleting)
  }

  /** The unmount function runs at the drive's mount point. */
  lemma Detaches(kind: Kind, s: System, t: Thread, deleting: bool, rest: seq<Step>, s': System)
    requires Idle(s) && t !in s.threads && Run(kind, Begun(s, t, AfterDetach(s, deleting), false), rest, s')
    ensures Run(kind, Begun(s, t, Drained(deleting), s.up), [Snapshot(t)] + ([RunUnmount(t, Detached)] + rest), s')
  {
    hide Run;
    var s2 := Begun(s, t, Drained(deleting), s.up);
    var s3 := Begun(s, t, Detaching(deleting, s.drive.mountPoint, Ephemeral(s.drive)), s.up);
    var s4 := Begun(s, t, AfterDetach(s, deleting), false);
    RunNext(kind, s3, RunUnmount(t, Detached), s4, rest, s');
    RunNext(kind, s2, Snapshot(t), s3, [RunUnmount(t, Detached)] + rest, s');
  }

  /** With no I/O to wait for, an unmount that has begun is drained at once. */
  lemma Drains(kind: Kind, s: System, t: Thread, deleting: bool, rest: seq<Step>, s': System)
    requires Idle(s) && t !in s.threads && Run(kind, Begun(s, t, Drained(deleting), s.up), rest, s')
    ensures Run(kind, s, [CallUnmount(t, deleting)] + ([SeeDrained(t)] + rest), s')
  {
    hide Run;
    var s1 := Begun(s, t, Draining(deleting), s.up);
    RunNext(kind, s1, SeeDrained(t), Begun(s, t, Drained(deleting), s.up), rest, s');
    RunNext(kind, s, CallUnmount(t, deleting), s1, [SeeDrained(t)] + rest, s');
  }

  /** The whole of an unmount, and then what comes after it. */
  lemma Closes(kind: Kind, s: System, t: Thread, deleting: bool, rest: seq<Step>, s': System)
    requires Idle(s) && t !in s.threads
    requires Run(kind, if deleting then Goto(Off(s), t, Inspecting) else Off(s), rest, s')
    ensures Run(kind, s, Unmounts(t, deleting, Ephemeral(s.drive), rest), s')
  {
    hide Run;
    var closing := Begun(s, t, Closing(deleting), false);
    var after := if deleting then Goto(Off(s), t, Inspecting) else Off(s);
    assert s.threads[t := Closing(deleting)] - {t} == s.threads;
    RunNext(kind, closing, Close(t), after, rest, s');
    var last := [Close(t)] + rest;
    var remove := if Ephemeral(s.drive) then [RemoveDir(t, true)] + last else last;
    if Ephemeral(s.drive) {
      RunNext(kind, Begun(s, t, AfterDetach(s, deleting), false), RemoveDir(t, true), closing, last, s');
    }
    Detaches(kind, s, t, deleting, remove, s');
    Drains(kind, s, t, deleting, [Snapshot(t)] + ([RunUnmount(t, Detached)] + remove), s');
  }

  /** An unmount that nothing interrupts takes the file system off, removes the directory exactly of an ephemeral
      drive, and leaves every other call where it was. */
  lemma UnmountAlone(kind: Kind, s: System, t: Thread)
    requires Idle(s) && t !in s.threads
    ensures Run(kind, s, Unmounts(t, false, Ephemeral(s.drive), []), Off(s))
  {
    RunNone(kind, Off(s));
    Closes(kind, s, t, false, [], Off(s));
  }

  /** A delete that nothing interrupts does the same, goes on when the image is gone, forgets everything and destroys a
      key that is there. */
  lemma DeleteAlone(kind: Kind, s: System, t: Thread)
    requires Idle(s) && t !in s.threads
    ensures var destroys := if s.drive.keyed then s.drive.destroys + 1 else s.drive.destroys;
            Run(kind, s, Unmounts(t, true, Ephemeral(s.drive), [Inspect(t), RemoveImage(t, true), Forget(t)]),
                s.(drive := Fields(None, "", false, false, "", false, false, 0, destroys), up := false))
  {
    hide Run;
    var off := Off(s);
    var s1 := Goto(off, t, Inspecting);
    var s2 := Goto(off, t, RemovingImage(Ephemeral(off.drive), off.drive.imagePath));
    var s3 := Goto(off, t, Forgetting);
    var s4 := off.(drive := FinishDelete(off.drive));
    assert s.threads[t := Forgetting] - {t} == s.threads;
    assert [Forget(t)] + [] == [Forget(t)];
    assert [RemoveImage(t, true)] + [Forget(t)] == [RemoveImage(t, true), Forget(t)];
    assert [Inspect(t)] + [RemoveImage(t, true), Forget(t)] == [Inspect(t), RemoveImage(t, true), Forget(t)];
    RunNone(kind, s4);
    RunNext(kind, s3, Forget(t), s4, [], s4);
    RunNext(kind, s2, RemoveImage(t, true), s3, [Forget(t)], s4);
    RunNext(kind, s1, Inspect(t), s2, [RemoveImage(t, true), Forget(t)], s4);
    Closes(kind, s, t, true, [Inspect(t), RemoveImage(t, true), Forget(t)], s4);
  }

  // ----- how a drive comes to be deleted -----

  /** No call is inside a `Delete`. */
  ghost predicate NoDelete(s: System) {
    && s.drive.params.Some?
    && forall t :: t in s.threads ==> !AfterUnmount(s.threads[t]) && !(InUnmount(s.threads[t]) && s.threads[t].deleting)
  }

  predicate CallsDelete(step: Step) {
    step.CallUnmount? && step.deleting
  }

  lemma NoDeleteStep(kind: Kind, s: System, step: Step)
    requires NoDelete(s) && Enabled(kind, s, step) && !CallsDelete(step)
    ensures NoDelete(Apply(kind, s, step))
  {
    hide Validates;
    hide MountErrorOf;
    hide BeginIoErrorOf;
  }

  lemma {:induction false} NoDeleteInRun(kind: Kind, s: System, steps: seq<Step>, s': System)
    requires NoDelete(s) && Run(kind, s, steps, s')
    requires forall k :: 0 <= k < |steps| ==> !CallsDelete(steps[k])
    ensures NoDelete(s')
    decreases |steps|
  {
    hide NoDelete;
    hide Apply;
    hide Possible;
    if steps != [] {
      NoDeleteStep(kind, s, steps[0]);
      NoDeleteInRun(kind, Apply(kind, s, steps[0]), steps[1..], s');
    }
  }

  /** An ephemeral drive's image is still there, and no `Delete` has gone on without removing it. */
  ghost predicate ImageThere(s: System) {
    && s.drive.params.Some? && s.drive.params.value.ephemeral && s.drive.imagePath != ""
    && forall t :: t in s.threads ==>
         && !s.threads[t].Forgetting?
         && (s.threads[t].RemovingImage? ==> s.threads[t].ephemeral && s.threads[t].image == s.drive.imagePath)
  }

  predicate RemovesImage(step: Step) {
    step.RemoveImage? && step.ok
  }

  lemma ImageThereStep(kind: Kind, s: System, step: Step)
    requires ImageThere(s) && Enabled(kind, s, step) && !RemovesImage(step)
    ensures ImageThere(Apply(kind, s, step))
  {
    hide Validates;
    hide MountErrorOf;
    hide BeginIoErrorOf;
  }

  lemma {:induction false} ImageThereInRun(kind: Kind, s: System, steps: seq<Step>, s': System)
    requires ImageThere(s) && Run(kind, s, steps, s')
    requires forall k :: 0 <= k < |steps| ==> !RemovesImage(steps[k])
    ensures ImageThere(s')
    decreases |steps|
  {
    hide ImageThere;
    hide Apply;
    hide Possible;
    if steps != [] {
      ImageThereStep(kind, s, steps[0]);
      ImageThereInRun(kind, Apply(kind, s, steps[0]), steps[1..], s');
    }
  }

  /** In every run from a new drive: the drive ends deleted only if some call was a `Delete`, and, if it is ephemeral
      and has an image, only if the image was removed. */
  lemma DeletedOnlyBy(kind: Kind, s: System, steps: seq<Step>, s': System)
    requires Start(s) && Run(kind, s, steps, s') && LifeOf(s') == Deleted
    ensures exists k :: 0 <= k < |steps| && CallsDelete(steps[k])
    ensures Ephemeral(s.drive) && s.drive.imagePath != "" ==>
              exists k :: 0 <= k < |steps| && RemovesImage(steps[k])
  {
    hide Run;
    if forall k :: 0 <= k < |steps| ==> !CallsDelete(steps[k]) {
      NoDeleteInRun(kind, s, steps, s');
    }
    if Ephemeral(s.drive) && s.drive.imagePath != "" && forall k :: 0 <= k < |steps| ==> !RemovesImage(steps[k]) {
      ImageThereInRun(kind, s, steps, s');
    }
  }

  /** A new drive starts, whatever its kind, options and image. */
  lemma NewDriveStarts(options: Options, image: Path, keyed: bool)
    ensures Start(System(Fields(Some(options), image, keyed, false, "", false, false, 0, 0), map[], {}, None, false,
                         false))
  {}
}
