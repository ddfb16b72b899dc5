/** Concrete runs of a drive that end badly. */
module DriveFailures {
  import opened Wrappers
  import opened Drive
  import opened DriveRuns

  // ----- a mount between the regions of a delete -----

  function After(kind: Kind, s: System, steps: seq<Step>): System
    requires Possibly(kind, s, steps)
    decreases |steps|
  {
    if steps == [] then s else After(kind, Apply(kind, s, steps[0]), steps[1..])
  }

  lemma Then(kind: Kind, s: System, steps: seq<Step>, k: nat, s': System)
    requires k < |steps| && Possible(s, steps[k]) && s' == Apply(kind, s, steps[k])
    requires Possibly(kind, s', steps[k + 1..])
    ensures Possibly(kind, s, steps[k..]) && After(kind, s, steps[k..]) == After(kind, s', steps[k + 1..])
  {
    assert steps[k..][1..] == steps[k + 1..];
  }

  lemma NoMore(kind: Kind, s: System)
    ensures Possibly(kind, s, []) && After(kind, s, []) == s
  {}

  function Forgotten(at: Path, host: Host): seq<Step> {
    [CallUnmount(1, true), CallMount(at, host), CallIo(2, Load), StartIo(2), Inspect(1), RemoveImage(1, true),
     Forget(1)]
  }

  lemma DeleteFinishes(s: System, at: Path, host: Host)
    requires s.threads == map[1 := Inspecting, 2 := Working(Load, at)]
    requires s.drive.params.Some? && !s.drive.params.value.ephemeral
    ensures Possibly(Base, s, Forgotten(at, host)[4..])
    ensures After(Base, s, Forgotten(at, host)[4..])
         == s.(threads := map[2 := Working(Load, at)], drive := FinishDelete(s.drive))
  {
    hide Possibly;
    hide After;
    hide Possible;
    hide Apply;
    var steps := Forgotten(at, host);
    var s5 := Inspected(s, at);
    var s6 := ImageGone(s5, at);
    var s7 := s6.(threads := map[2 := Working(Load, at)], drive := FinishDelete(s6.drive));
    NoMore(Base, s7);
    assert steps[7..] == [];
    ForgetStep(s6, at);
    Then(Base, s6, steps, 6, s7);
    Then(Base, s5, steps, 5, s6);
    Then(Base, s, steps, 4, s5);
  }

  function Inspected(s: System, at: Path): (s': System)
    requires s.threads == map[1 := Inspecting, 2 := Working(Load, at)]
    requires s.drive.params.Some? && !s.drive.params.value.ephemeral
    ensures Possible(s, Inspect(1)) && s' == Apply(Base, s, Inspect(1))
  {
    s.(threads := map[1 := RemovingImage(false, s.drive.imagePath), 2 := Working(Load, at)])
  }

  function ImageGone(s: System, at: Path): (s': System)
    requires s.threads == map[1 := RemovingImage(false, s.drive.imagePath), 2 := Working(Load, at)]
    ensures Possible(s, RemoveImage(1, true)) && s' == Apply(Base, s, RemoveImage(1, true))
  {
    s.(threads := map[1 := Forgetting, 2 := Working(Load, at)])
  }

  lemma ForgetStep(s: System, at: Path)
    requires s.threads == map[1 := Forgetting, 2 := Working(Load, at)]
    ensures Possible(s, Forget(1))
    ensures Apply(Base, s, Forget(1)) == s.(threads := map[2 := Working(Load, at)], drive := FinishDelete(s.drive))
  {}

  /** The reading call, and then the rest of the delete. */
  lemma ReadsAndFinishes(s: System, at: Path, host: Host)
    requires s.threads == map[1 := Inspecting] && s.workers == {} && Validates(Base, s.drive)
    requires s.drive.mounted && !s.drive.unMounting && s.drive.mountPoint == at && s.drive.io == 0
    requires s.drive.params.Some? && !s.drive.params.value.ephemeral
    ensures Possibly(Base, s, Forgotten(at, host)[2..])
    ensures After(Base, s, Forgotten(at, host)[2..])
         == s.(threads := map[2 := Working(Load, at)], drive := FinishDelete(s.drive.(io := 1)), workers := {2})
  {
    hide Possibly;
    hide After;
    hide Validates;
    hide MountErrorOf;
    hide FinishDelete;
    var steps := Forgotten(at, host);
    var s3 := s.(threads := map[1 := Inspecting, 2 := Checked(Load)]);
    var s4 := s.(threads := map[1 := Inspecting, 2 := Working(Load, at)], drive := s.drive.(io := 1), workers := {2});
    DeleteFinishes(s4, at, host);
    Then(Base, s3, steps, 3, s4);
    Then(Base, s, steps, 2, s3);
  }

  /** A `Mount` between the regions of a `Delete` is forgotten by its last one: the drive is then deleted and
      not mounted, while its file system is still attached and a call is reading from it. */
  lemma MountDuringDeleteIsForgotten(s: System, at: Path, host: Host)
    requires Start(s) && at != "" && s.drive.params.value == Options("d", false, false, 1, "ext4", GuestMount)
    requires host.tempDir.None? && host.works
    ensures var steps := Forgotten(at, host);
            && Possibly(Base, s, steps)
            && var s' := After(Base, s, steps);
               && LifeOf(s') == Deleted && !s'.drive.mounted && s'.up
               && 2 in s'.threads && s'.threads[2] == Working(Load, at)
  {
    hide Possibly;
    hide After;
    hide BeginIo;
    var steps := Forgotten(at, host);
    var s1 := s.(threads := map[1 := Inspecting]);
    var s2 := s1.(drive := s.drive.(mounted := true, mountPoint := at, hasUnmount := true), up := true, torn := false);
    ReadsAndFinishes(s2, at, host);
    Then(Base, s1, steps, 1, s2);
    Then(Base, s, steps, 0, s1);
    assert steps[0..] == steps;
  }

  // ----- a removal that fails -----

  function StuckSteps(at: Path, host: Host): seq<Step> {
    [CallMount(at, host), CallUnmount(1, false), SeeDrained(1), Snapshot(1), RunUnmount(1, Detached),
     RemoveDir(1, false)]
  }

  /** The states of that run: the drive's fields, where call 1 stands, and whether the file system is attached. */
  function Along(d: Fields, threads: map<Thread, Pc>, up: bool, unmounter: Option<Thread>): System {
    System(d, threads, {}, unmounter, up, false)
  }

  lemma RemovalFails(kind: Kind, e: Fields, at: Path, host: Host)
    requires e.io == 0 && e.mountPoint == at && at != "" && Ephemeral(e)
    ensures var steps := StuckSteps(at, host);
            var s2 := Along(e, map[1 := Draining(false)], true, Some(1));
            Possibly(kind, s2, steps[2..]) && After(kind, s2, steps[2..]) == Along(e, map[], false, None)
  {
    hide Possibly;
    hide After;
    hide MountErrorOf;
    hide BeginIoErrorOf;
    hide BeginUnmountErrorOf;
    var steps := StuckSteps(at, host);
    var s2 := Along(e, map[1 := Draining(false)], true, Some(1));
    var s3 := Along(e, map[1 := Drained(false)], true, Some(1));
    var s4 := Along(e, map[1 := Detaching(false, at, true)], true, Some(1));
    var s5 := Along(e, map[1 := RemovingDir(false, at)], false, Some(1));
    var s6 := Along(e, map[], false, None);
    NoMore(kind, s6);
    assert steps[6..] == [];
    Then(kind, s5, steps, 5, s6);
    Then(kind, s4, steps, 4, s5);
    Then(kind, s3, steps, 3, s4);
    Then(kind, s2, steps, 2, s3);
  }

  /** An ephemeral drive of either kind that has been mounted, unmounted, and whose directory could not be removed
      is stuck. */
  lemma FailedRemovalSticks(kind: Kind, s: System, at: Path, host: Host)
    requires Start(s) && s.drive.params.value.ephemeral && at != ""
    requires MountErrorOf(kind, s.drive, at, host) == NoError && (host.tempDir.Some? ==> host.tempDir.value != "")
    ensures var steps := StuckSteps(at, host);
            Possibly(kind, s, steps) && LifeOf(After(kind, s, steps)) == Stuck
  {
    hide Possibly;
    hide After;
    hide MountErrorOf;
    var steps := StuckSteps(at, host);
    var d := s.drive.(mounted := true, mountPoint := at, hasUnmount := true);
    var e := d.(unMounting := true);
    var s1 := Along(d, map[], true, None);
    var s2 := Along(e, map[1 := Draining(false)], true, Some(1));
    RemovalFails(kind, e, at, host);
    Then(kind, s1, steps, 1, s2);
    Then(kind, s, steps, 0, s1);
    assert steps[0..] == steps;
  }
}
