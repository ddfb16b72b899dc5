/** Every interleaving of Mount, Unmount, WriteToDrive, LoadFromDrive and Delete calls on one drive, each
    locked region and each outside operation being one step. */
module DriveRuns {
  import opened Wrappers
  import opened Drive

  type Thread = nat

  /** Where a call stands between its regions. `deleting` marks the `Unmount` inside a `Delete`. */
  datatype Pc =
    | Checked(op: Op)
    | Working(op: Op, at: Path)
    | Draining(deleting: bool)
    | Drained(deleting: bool)
    | Detaching(deleting: bool, at: Path, ephemeral: bool)
    | RemovingDir(deleting: bool, at: Path)
    | Closing(deleting: bool)
    | Aborting(deleting: bool)
    | Inspecting
    | RemovingImage(ephemeral: bool, image: Path)
    | Forgetting

  /** What the unmount function did; a failure may come after the file system was taken down. */
  datatype Detach = Detached | NotDetached(stillUp: bool)

  /** `up` tells whether the drive's file system is attached at its mount point, and `torn` whether a failed
      unmount may have taken it down. `workers` are the calls doing I/O and `unmounter` the call inside
      `Unmount`; both only record what `threads` says. */
  datatype System = System(
    drive: Fields,
    threads: map<Thread, Pc>,
    workers: set<Thread>,
    unmounter: Option<Thread>,
    up: bool,
    torn: bool)

  datatype Step =
    | CallMount(at: Path, host: Host)
    | CallIo(t: Thread, op: Op)
    | StartIo(t: Thread)
    | EndIo(t: Thread)
    | CallUnmount(t: Thread, deleting: bool)
    | SeeDrained(t: Thread)
    | Snapshot(t: Thread)
    | RunUnmount(t: Thread, result: Detach)
    | RemoveDir(t: Thread, ok: bool)
    | Abort(t: Thread)
    | Close(t: Thread)
    | Inspect(t: Thread)
    | RemoveImage(t: Thread, ok: bool)
    | Forget(t: Thread)

  predicate InUnmount(pc: Pc) {
    pc.Draining? || pc.Drained? || pc.Detaching? || pc.RemovingDir? || pc.Closing? || pc.Aborting?
  }

  /** A `Delete` that has got past its `Unmount`. */
  predicate AfterUnmount(pc: Pc) {
    pc.Inspecting? || pc.RemovingImage? || pc.Forgetting?
  }

  predicate At(s: System, t: Thread) {
    t in s.threads
  }

  predicate Possible(s: System, step: Step) {
    match step
    case CallMount(_, host) => s.drive.params.Some? && (host.tempDir.Some? ==> host.tempDir.value != "")
    case CallIo(t, _) => t !in s.threads
    case StartIo(t) => At(s, t) && s.threads[t].Checked? && (s.drive.mounted ==> s.drive.params.Some?)
    case EndIo(t) => At(s, t) && s.threads[t].Working? && s.drive.io > 0
    case CallUnmount(t, _) => t !in s.threads
    case SeeDrained(t) => At(s, t) && s.threads[t].Draining? && s.drive.io == 0
    case Snapshot(t) => At(s, t) && s.threads[t].Drained?
    case RunUnmount(t, _) => At(s, t) && s.threads[t].Detaching?
    case RemoveDir(t, _) => At(s, t) && s.threads[t].RemovingDir?
    case Abort(t) => At(s, t) && s.threads[t].Aborting?
    case Close(t) => At(s, t) && s.threads[t].Closing?
    case Inspect(t) => At(s, t) && s.threads[t].Inspecting?
    case RemoveImage(t, _) => At(s, t) && s.threads[t].RemovingImage?
    case Forget(t) => At(s, t) && s.threads[t].Forgetting?
  }

  /** No `Mount` succeeds between the later regions of a `Delete`. */
  ghost predicate Enabled(kind: Kind, s: System, step: Step) {
    && Possible(s, step)
    && (step.CallMount? ==>
          || MountErrorOf(kind, s.drive, step.at, step.host) != NoError
          || forall t :: t in s.threads ==> !AfterUnmount(s.threads[t]))
  }

  function Goto(s: System, t: Thread, pc: Pc): System {
    s.(threads := s.threads[t := pc])
  }

  function Return(s: System, t: Thread): System {
    s.(threads := s.threads - {t})
  }

  function Apply(kind: Kind, s: System, step: Step): System
    requires Possible(s, step)
  {
    match step
    case CallMount(at, host) =>
      var (drive, err) := Drive.Mount(kind, s.drive, at, host);
      if err == NoError then s.(drive := drive, up := true, torn := false) else s
    case CallIo(t, op) => if Validates(kind, s.drive) then Goto(s, t, Checked(op)) else s
    case StartIo(t) =>
      var op := s.threads[t].op;
      var (drive, err) := BeginIo(kind, s.drive, op);
      if err == NoError
      then Goto(s, t, Working(op, s.drive.mountPoint)).(drive := drive, workers := s.workers + {t})
      else Return(s, t)
    case EndIo(t) => Return(s, t).(drive := Drive.EndIo(s.drive), workers := s.workers - {t})
    case CallUnmount(t, deleting) =>
      var (drive, err) := BeginUnmount(s.drive);
      if err == NoError then Goto(s, t, Draining(deleting)).(drive := drive, unmounter := Some(t))
      else if deleting && err == NotMounted then Goto(s, t, Inspecting)
      else s
    case SeeDrained(t) => Goto(s, t, Drained(s.threads[t].deleting))
    case Snapshot(t) => Goto(s, t, Detaching(s.threads[t].deleting, s.drive.mountPoint, Ephemeral(s.drive)))
    case RunUnmount(t, result) =>
      var pc := s.threads[t];
      if result == Detached
      then Goto(s, t, if pc.ephemeral && pc.at != "" then RemovingDir(pc.deleting, pc.at) else Closing(pc.deleting))
           .(up := false)
      else Goto(s, t, Aborting(pc.deleting)).(up := s.up && result.stillUp, torn := s.torn || !result.stillUp)
    case RemoveDir(t, ok) =>
      if ok then Goto(s, t, Closing(s.threads[t].deleting)) else Return(s, t).(unmounter := None)
    case Abort(t) => Return(s, t).(drive := AbortUnmount(s.drive), unmounter := None)
    case Close(t) =>
      (if s.threads[t].deleting then Goto(s, t, Inspecting) else Return(s, t))
      .(drive := FinishUnmount(s.drive), unmounter := None)
    case Inspect(t) => Goto(s, t, RemovingImage(Ephemeral(s.drive), s.drive.imagePath))
    case RemoveImage(t, ok) =>
      if s.threads[t].ephemeral && s.threads[t].image != "" && !ok then Return(s, t) else Goto(s, t, Forgetting)
    case Forget(t) => Return(s, t).(drive := FinishDelete(s.drive))
  }

  ghost predicate Run(kind: Kind, s: System, steps: seq<Step>, s': System)
    decreases |steps|
  {
    if steps == [] then s' == s
    else Enabled(kind, s, steps[0]) && Run(kind, Apply(kind, s, steps[0]), steps[1..], s')
  }

  /** A new drive, of either kind. */
  predicate Start(s: System) {
    && s.drive.params.Some? && !s.drive.mounted && s.drive.mountPoint == "" && !s.drive.hasUnmount
    && !s.drive.unMounting && s.drive.io == 0 && s.drive.destroys == 0
    && s.threads == map[] && s.workers == {} && s.unmounter == None && !s.up && !s.torn
  }

  // ----- what every step keeps -----

  ghost predicate FieldsOk(d: Fields) {
    && (d.mounted ==> d.params.Some?) && d.hasUnmount == d.mounted && (d.unMounting ==> d.mounted)
    && (d.io > 0 ==> d.mounted) && (d.mounted <==> d.mountPoint != "")
    && (d.keyed ==> d.destroys == 0) && d.destroys <= 1
  }

  /** What a call knows at each place. */
  ghost predicate ThreadOk(d: Fields, up: bool, torn: bool, pc: Pc) {
    match pc
    case Checked(_) => true
    case Working(_, at) => d.mounted && at == d.mountPoint && (up || torn)
    case Draining(_) => up || torn
    case Drained(_) => d.io == 0 && (up || torn)
    case Detaching(_, at, ephemeral) =>
      d.io == 0 && at == d.mountPoint && ephemeral == Ephemeral(d) && (up || torn)
    case RemovingDir(_, at) => d.io == 0 && at == d.mountPoint && Ephemeral(d) && !up
    case Closing(_) => d.io == 0 && !up
    case Aborting(_) => d.io == 0 && (up || torn)
    case Inspecting => !d.mounted
    case RemovingImage(_, _) => !d.mounted
    case Forgetting => !d.mounted
  }

  ghost predicate ThreadsOk(d: Fields, up: bool, torn: bool, threads: map<Thread, Pc>) {
    forall t :: t in threads ==> ThreadOk(d, up, torn, threads[t])
  }

  /** The wait group counts the calls doing I/O. */
  ghost predicate Counted(io: nat, threads: map<Thread, Pc>, workers: set<Thread>) {
    && io == |workers|
    && (forall t :: t in workers <==> t in threads && threads[t].Working?)
  }

  /** At most one call is inside `Unmount`, and `unMounting` is set while it is. */
  ghost predicate OneUnmounter(unMounting: bool, threads: map<Thread, Pc>, unmounter: Option<Thread>) {
    && (forall t :: t in threads && InUnmount(threads[t]) <==> unmounter == Some(t))
    && (unmounter.Some? ==> unMounting)
  }

  ghost predicate Attached(d: Fields, unmounter: Option<Thread>, up: bool, torn: bool) {
    && (!d.mounted ==> !up)
    && (d.mounted && !d.unMounting ==> up || torn)
    && (d.unMounting && unmounter.None? ==> !up && d.io == 0)
    && !(up && torn)
  }

  ghost predicate Inv(s: System) {
    && FieldsOk(s.drive)
    && ThreadsOk(s.drive, s.up, s.torn, s.threads)
    && Counted(s.drive.io, s.threads, s.workers)
    && OneUnmounter(s.drive.unMounting, s.threads, s.unmounter)
    && Attached(s.drive, s.unmounter, s.up, s.torn)
  }

  lemma CountedGoto(io: nat, threads: map<Thread, Pc>, workers: set<Thread>, t: Thread, pc: Pc)
    requires Counted(io, threads, workers) && !pc.Working? && (t in threads ==> !threads[t].Working?)
    ensures Counted(io, threads[t := pc], workers)
    ensures Counted(io, threads - {t}, workers)
  {}

  lemma CountedStart(io: nat, threads: map<Thread, Pc>, workers: set<Thread>, t: Thread, pc: Pc)
    requires Counted(io, threads, workers) && pc.Working? && t in threads && !threads[t].Working?
    ensures Counted(io + 1, threads[t := pc], workers + {t})
  {}

  lemma CountedEnd(io: nat, threads: map<Thread, Pc>, workers: set<Thread>, t: Thread)
    requires Counted(io, threads, workers) && t in threads && threads[t].Working?
    ensures io > 0 && Counted(io - 1, threads - {t}, workers - {t})
  {
    assert t in workers;
  }

  lemma UnmounterSame(unMounting: bool, threads: map<Thread, Pc>, unmounter: Option<Thread>, t: Thread, pc: Pc)
    requires OneUnmounter(unMounting, threads, unmounter)
    ensures (InUnmount(pc) <==> unmounter == Some(t)) ==> OneUnmounter(unMounting, threads[t := pc], unmounter)
    ensures unmounter != Some(t) ==> OneUnmounter(unMounting, threads - {t}, unmounter)
  {}

  lemma UnmounterEnters(unMounting: bool, threads: map<Thread, Pc>, unmounter: Option<Thread>, t: Thread, pc: Pc)
    requires OneUnmounter(unMounting, threads, unmounter) && !unMounting && InUnmount(pc)
    ensures OneUnmounter(true, threads[t := pc], Some(t))
  {}

  lemma UnmounterLeaves(unMounting: bool, threads: map<Thread, Pc>, unmounter: Option<Thread>, t: Thread, pc: Pc,
                        after: bool)
    requires OneUnmounter(unMounting, threads, unmounter) && t in threads && InUnmount(threads[t]) && !InUnmount(pc)
    ensures OneUnmounter(after, threads[t := pc], None) && OneUnmounter(after, threads - {t}, None)
  {}

  /** With the counter at zero no call is doing I/O. */
  lemma NoWorkers(s: System)
    requires Counted(s.drive.io, s.threads, s.workers) && s.drive.io == 0
    ensures s.workers == {}
    ensures forall t :: t in s.threads ==> !s.threads[t].Working?
  {}

  lemma MountNeeds(kind: Kind, d: Fields, at: Path, host: Host)
    requires d.params.Some? && Drive.Mount(kind, d, at, host).1 == NoError
    ensures !d.mounted && !d.unMounting && (at == "" ==> host.tempDir.Some?)
  {}

  lemma BeginIoNeeds(kind: Kind, d: Fields, op: Op)
    requires (d.mounted ==> d.params.Some?) && BeginIoErrorOf(kind, d, op) == NoError
    ensures d.mounted && !d.unMounting
  {}

  // ----- one step at a time -----

  /** What the invariant says of one call. */
  lemma Standing(s: System, t: Thread)
    requires Inv(s)
    ensures (t in s.threads && InUnmount(s.threads[t])) <==> s.unmounter == Some(t)
    ensures t in s.threads ==> ThreadOk(s.drive, s.up, s.torn, s.threads[t])
    ensures t in s.threads && InUnmount(s.threads[t]) ==> s.drive.unMounting && s.drive.mounted
    ensures FieldsOk(s.drive)
  {}

  /** A call that has only looked at the drive. */
  lemma Moves(s: System, t: Thread, pc: Pc)
    requires Inv(s) && ThreadOk(s.drive, s.up, s.torn, pc)
    requires InUnmount(pc) <==> s.unmounter == Some(t)
    requires !pc.Working? && (t in s.threads ==> !s.threads[t].Working?)
    ensures Inv(Goto(s, t, pc))
    ensures !InUnmount(pc) ==> Inv(Return(s, t))
  {
    hide FieldsOk;
    hide ThreadOk;
    hide Attached;
    hide Counted;
    hide OneUnmounter;
    CountedGoto(s.drive.io, s.threads, s.workers, t, pc);
    UnmounterSame(s.drive.unMounting, s.threads, s.unmounter, t, pc);
  }

  lemma NoneInUnmount(unMounting: bool, threads: map<Thread, Pc>, unmounter: Option<Thread>)
    requires OneUnmounter(unMounting, threads, unmounter) && !unMounting
    ensures forall t :: t in threads ==> !InUnmount(threads[t])
  {}

  lemma StartIoKept(kind: Kind, s: System, t: Thread)
    requires Inv(s) && Possible(s, StartIo(t))
    ensures Inv(Apply(kind, s, StartIo(t)))
  {
    hide Counted;
    hide OneUnmounter;
    hide BeginIoErrorOf;
    var pc := Working(s.threads[t].op, s.drive.mountPoint);
    if BeginIoErrorOf(kind, s.drive, s.threads[t].op) == NoError {
      BeginIoNeeds(kind, s.drive, s.threads[t].op);
      NoneInUnmount(s.drive.unMounting, s.threads, s.unmounter);
    }
    Standing(s, t);
    Moves(s, t, Checked(Write));
    CountedStart(s.drive.io, s.threads, s.workers, t, pc);
    UnmounterSame(s.drive.unMounting, s.threads, s.unmounter, t, pc);
  }

  lemma EndIoKept(kind: Kind, s: System, t: Thread)
    requires Inv(s) && Possible(s, EndIo(t))
    ensures Inv(Apply(kind, s, EndIo(t)))
  {
    hide Counted;
    hide OneUnmounter;
    Standing(s, t);
    CountedEnd(s.drive.io, s.threads, s.workers, t);
    UnmounterSame(s.drive.unMounting, s.threads, s.unmounter, t, Inspecting);
  }

  lemma CallMountKept(kind: Kind, s: System, at: Path, host: Host)
    requires Inv(s) && Enabled(kind, s, CallMount(at, host))
    ensures Inv(Apply(kind, s, CallMount(at, host)))
  {
    hide Counted;
    hide MountErrorOf;
    if Drive.Mount(kind, s.drive, at, host).1 == NoError {
      MountNeeds(kind, s.drive, at, host);
    }
  }

  /** The guard of `Enabled` is exact: a mount breaks what is kept if and only if it succeeds while a `Delete` is
      between its later regions. */
  lemma MountKeptExactly(kind: Kind, s: System, at: Path, host: Host)
    requires Inv(s) && Possible(s, CallMount(at, host))
    ensures Inv(Apply(kind, s, CallMount(at, host))) <==> Enabled(kind, s, CallMount(at, host))
    ensures var s' := Apply(kind, s, CallMount(at, host));
            if Drive.Mount(kind, s.drive, at, host).1 == NoError then s'.up && !s'.torn else s' == s
  {
    hide Counted;
    hide OneUnmounter;
    hide MountErrorOf;
    if Enabled(kind, s, CallMount(at, host)) {
      CallMountKept(kind, s, at, host);
    } else {
      var t :| t in s.threads && AfterUnmount(s.threads[t]);
      MountNeeds(kind, s.drive, at, host);
      assert !ThreadOk(Apply(kind, s, CallMount(at, host)).drive, true, false, s.threads[t]);
    }
  }

  lemma CallUnmountKept(kind: Kind, s: System, t: Thread, deleting: bool)
    requires Inv(s) && Possible(s, CallUnmount(t, deleting))
    ensures Inv(Apply(kind, s, CallUnmount(t, deleting)))
  {
    hide Counted;
    hide OneUnmounter;
    Standing(s, t);
    if !s.drive.mounted {
      Moves(s, t, Inspecting);
    } else if !s.drive.unMounting {
      CountedGoto(s.drive.io, s.threads, s.workers, t, Draining(deleting));
      UnmounterEnters(s.drive.unMounting, s.threads, s.unmounter, t, Draining(deleting));
    }
  }

  lemma RunUnmountKept(kind: Kind, s: System, t: Thread, result: Detach)
    requires Inv(s) && Possible(s, RunUnmount(t, result))
    ensures Inv(Apply(kind, s, RunUnmount(t, result)))
  {
    hide Counted;
    Standing(s, t);
    NoWorkers(s);
    var pc := Apply(kind, s, RunUnmount(t, result)).threads[t];
    CountedGoto(s.drive.io, s.threads, s.workers, t, pc);
    UnmounterSame(s.drive.unMounting, s.threads, s.unmounter, t, pc);
  }

  /** The last region of a call inside `Unmount`. */
  lemma RemoveDirKept(kind: Kind, s: System, t: Thread, ok: bool)
    requires Inv(s) && Possible(s, RemoveDir(t, ok))
    ensures Inv(Apply(kind, s, RemoveDir(t, ok)))
  {
    hide Counted;
    hide OneUnmounter;
    Standing(s, t);
    if ok {
      Moves(s, t, Closing(s.threads[t].deleting));
    } else {
      CountedGoto(s.drive.io, s.threads, s.workers, t, Inspecting);
      UnmounterLeaves(s.drive.unMounting, s.threads, s.unmounter, t, Inspecting, s.drive.unMounting);
    }
  }

  lemma AbortKept(kind: Kind, s: System, t: Thread)
    requires Inv(s) && Possible(s, Abort(t))
    ensures Inv(Apply(kind, s, Abort(t)))
  {
    hide Counted;
    hide OneUnmounter;
    Standing(s, t);
    CountedGoto(s.drive.io, s.threads, s.workers, t, Inspecting);
    UnmounterLeaves(s.drive.unMounting, s.threads, s.unmounter, t, Inspecting, false);
  }

  lemma CloseKept(kind: Kind, s: System, t: Thread)
    requires Inv(s) && Possible(s, Close(t))
    ensures Inv(Apply(kind, s, Close(t)))
  {
    hide Counted;
    Standing(s, t);
    NoWorkers(s);
    CountedGoto(s.drive.io, s.threads, s.workers, t, Inspecting);
    UnmounterLeaves(s.drive.unMounting, s.threads, s.unmounter, t, Inspecting, false);
  }

  lemma ForgetKept(kind: Kind, s: System, t: Thread)
    requires Inv(s) && Possible(s, Forget(t))
    ensures Inv(Apply(kind, s, Forget(t)))
  {
    hide Counted;
    Standing(s, t);
    NoWorkers(s);
    CountedGoto(s.drive.io, s.threads, s.workers, t, Inspecting);
    UnmounterSame(s.drive.unMounting, s.threads, s.unmounter, t, Inspecting);
  }

  lemma StepKept(kind: Kind, s: System, step: Step)
    requires Inv(s) && Enabled(kind, s, step)
    ensures Inv(Apply(kind, s, step))
  {
    hide Inv;
    hide MountErrorOf;
    hide Validates;
    hide BeginIoErrorOf;
    hide BeginUnmountErrorOf;
    match step
    case CallMount(at, host) => CallMountKept(kind, s, at, host);
    case CallIo(t, op) => Standing(s, t); Moves(s, t, Checked(op));
    case StartIo(t) => StartIoKept(kind, s, t);
    case EndIo(t) => EndIoKept(kind, s, t);
    case CallUnmount(t, deleting) => CallUnmountKept(kind, s, t, deleting);
    case SeeDrained(t) => Standing(s, t); Moves(s, t, Drained(s.threads[t].deleting));
    case Snapshot(t) =>
      Standing(s, t);
      Moves(s, t, Detaching(s.threads[t].deleting, s.drive.mountPoint, Ephemeral(s.drive)));
    case RunUnmount(t, result) => RunUnmountKept(kind, s, t, result);
    case RemoveDir(t, ok) => RemoveDirKept(kind, s, t, ok);
    case Abort(t) => AbortKept(kind, s, t);
    case Close(t) => CloseKept(kind, s, t);
    case Inspect(t) => Standing(s, t); Moves(s, t, RemovingImage(Ephemeral(s.drive), s.drive.imagePath));
    case RemoveImage(t, ok) => Standing(s, t); Moves(s, t, Forgetting);
    case Forget(t) => ForgetKept(kind, s, t);
  }

  lemma StartInv(s: System)
    requires Start(s)
    ensures Inv(s)
  {}

  lemma {:induction false} RunKeepsInv(kind: Kind, s: System, steps: seq<Step>, s': System)
    requires Inv(s) && Run(kind, s, steps, s')
    ensures Inv(s')
    decreases |steps|
  {
    hide Inv;
    hide Possible;
    hide Apply;
    if steps != [] {
      StepKept(kind, s, steps[0]);
      RunKeepsInv(kind, Apply(kind, s, steps[0]), steps[1..], s');
    }
  }

  // ----- safety of the mount point -----

  /** In every run no I/O is in flight when the unmount function is about to run, when the directory of an
      ephemeral drive is about to be removed (and then the file system is no longer attached there), or
      between the two; only an ephemeral drive's directory is removed; and every I/O in flight works at the
      drive's current mount point, while the drive is mounted and its file system attached, unless an unmount
      function that failed has taken it down. */
  lemma NoIoWhileDetaching(kind: Kind, s: System, steps: seq<Step>, s': System, t: Thread)
    requires Start(s) && Run(kind, s, steps, s') && t in s'.threads
    ensures s'.threads[t].Detaching? || s'.threads[t].RemovingDir? || s'.threads[t].Closing? ==>
              && (forall u :: u in s'.threads ==> !s'.threads[u].Working?)
              && s'.drive.mounted && s'.drive.unMounting
    ensures s'.threads[t].RemovingDir? ==>
              !s'.up && Ephemeral(s'.drive) && s'.threads[t].at == s'.drive.mountPoint != ""
    ensures s'.threads[t].Working? ==>
              s'.drive.mounted && s'.threads[t].at == s'.drive.mountPoint != "" && (s'.up <==> !s'.torn)
  {
    hide Run;
    StartInv(s);
    RunKeepsInv(kind, s, steps, s');
    Standing(s', t);
    if s'.drive.io == 0 {
      NoWorkers(s');
    }
  }

  /** No call starts I/O while the drive is unmounting. */
  lemma NoneStartsWhileUnmounting(kind: Kind, s: System, step: Step)
    requires Inv(s) && Enabled(kind, s, step) && s.drive.unMounting
    ensures Apply(kind, s, step).workers <= s.workers
  {
    hide MountErrorOf;
    hide Inv;
  }

  /** Two `Unmount` calls, alone or inside `Delete`, are never past the first region together. */
  lemma UnmountsDoNotOverlap(kind: Kind, s: System, steps: seq<Step>, s': System, t: Thread, u: Thread)
    requires Start(s) && Run(kind, s, steps, s') && t in s'.threads && u in s'.threads
    requires InUnmount(s'.threads[t]) && InUnmount(s'.threads[u])
    ensures t == u
  {
    hide Run;
    hide Inv;
    StartInv(s);
    RunKeepsInv(kind, s, steps, s');
    Standing(s', t);
    Standing(s', u);
  }

  /** The next step of a call, for whatever becomes of the operations outside the drive. */
  function NextOf(t: Thread, pc: Pc, result: Detach, ok: bool): Step {
    match pc
    case Checked(_) => StartIo(t)
    case Working(_, _) => EndIo(t)
    case Draining(_) => SeeDrained(t)
    case Drained(_) => Snapshot(t)
    case Detaching(_, _, _) => RunUnmount(t, result)
    case RemovingDir(_, _) => RemoveDir(t, ok)
    case Closing(_) => Close(t)
    case Aborting(_) => Abort(t)
    case Inspecting => Inspect(t)
    case RemovingImage(_, _) => RemoveImage(t, ok)
    case Forgetting => Forget(t)
  }

  /** No call is ever stuck in the drive: each can take its next step at once, whatever the outcome of the operation
      outside, except that an unmount waits for the calls doing I/O, each of which can finish. A new call can always
      be made. */
  lemma EveryCallCanGoOn(kind: Kind, s: System, steps: seq<Step>, s': System, t: Thread)
    requires Start(s) && Run(kind, s, steps, s')
    ensures t in s'.threads && !(s'.threads[t].Draining? && s'.drive.io > 0) ==>
              forall result, ok :: Enabled(kind, s', NextOf(t, s'.threads[t], result, ok))
    ensures s'.drive.io > 0 ==> exists u :: u in s'.threads && s'.threads[u].Working? && Enabled(kind, s', EndIo(u))
    ensures t !in s'.threads ==> forall op :: Enabled(kind, s', CallIo(t, op))
    ensures t !in s'.threads ==> forall deleting :: Enabled(kind, s', CallUnmount(t, deleting))
  {
    hide Run;
    StartInv(s);
    RunKeepsInv(kind, s, steps, s');
    if s'.drive.io > 0 {
      var u :| u in s'.workers;
      assert Enabled(kind, s', EndIo(u));
    }
    if t in s'.threads {
      Standing(s', t);
    }
  }

  // ----- the abstract lifecycle -----

  datatype Life = Unmounted | Mounted(k: nat) | LifeDraining(k: nat) | Unmounting | Stuck | Deleted

  function LifeOf(s: System): Life {
    if s.drive.params.None? then Deleted
    else if !s.drive.mounted then Unmounted
    else if !s.drive.unMounting then Mounted(s.drive.io)
    else
      match s.unmounter
      case None => Stuck
      case Some(t) =>
        if t in s.threads && s.threads[t].Draining? then LifeDraining(s.drive.io) else Unmounting
  }

  /** A failed removal of an ephemeral drive's directory leaves it stuck. */
  predicate LifeStep(a: Life, b: Life) {
    match a
    case Unmounted => b == Mounted(0) || b == Deleted
    case Mounted(k) => b == Mounted(k + 1) || (k > 0 && b == Mounted(k - 1)) || b == LifeDraining(k)
    case LifeDraining(k) => (k > 0 && b == LifeDraining(k - 1)) || (k == 0 && b == Unmounting)
    case Unmounting => b == Unmounted || b == Mounted(0) || b == Stuck
    case Stuck => false
    case Deleted => false
  }

  predicate Refines(a: Life, b: Life) {
    a == b || LifeStep(a, b)
  }

  lemma IoRefines(kind: Kind, s: System, step: Step)
    requires Inv(s) && Enabled(kind, s, step) && (step.CallMount? || step.StartIo? || step.EndIo? || step.CallIo?)
    ensures Refines(LifeOf(s), LifeOf(Apply(kind, s, step)))
  {
    hide MountErrorOf;
    hide Validates;
    hide Inv;
    Standing(s, if step.CallMount? then 0 else step.t);
    match step
    case CallMount(at, host) =>
      if Drive.Mount(kind, s.drive, at, host).1 == NoError {
        MountNeeds(kind, s.drive, at, host);
      }
    case _ =>
  }

  lemma UnmountRefines(kind: Kind, s: System, step: Step)
    requires Inv(s) && Possible(s, step)
    requires step.CallUnmount? || step.SeeDrained? || step.Snapshot? || step.RunUnmount?
    ensures Refines(LifeOf(s), LifeOf(Apply(kind, s, step)))
  {
    hide Inv;
    Standing(s, step.t);
  }

  lemma LeaveRefines(kind: Kind, s: System, step: Step)
    requires Inv(s) && Possible(s, step) && (step.RemoveDir? || step.Abort? || step.Close?)
    ensures Refines(LifeOf(s), LifeOf(Apply(kind, s, step)))
  {
    hide Inv;
    Standing(s, step.t);
  }

  lemma DeleteRefines(kind: Kind, s: System, step: Step)
    requires Inv(s) && Possible(s, step) && (step.Inspect? || step.RemoveImage? || step.Forget?)
    ensures Refines(LifeOf(s), LifeOf(Apply(kind, s, step)))
  {
    hide Inv;
    Standing(s, step.t);
  }

  lemma StepRefines(kind: Kind, s: System, step: Step)
    requires Inv(s) && Enabled(kind, s, step)
    ensures Refines(LifeOf(s), LifeOf(Apply(kind, s, step)))
  {
    hide Inv;
    hide Possible;
    hide Apply;
    hide Refines;
    hide LifeOf;
    if step.CallMount? || step.StartIo? || step.EndIo? || step.CallIo? {
      IoRefines(kind, s, step);
    } else if step.CallUnmount? || step.SeeDrained? || step.Snapshot? || step.RunUnmount? {
      UnmountRefines(kind, s, step);
    } else if step.RemoveDir? || step.Abort? || step.Close? {
      LeaveRefines(kind, s, step);
    } else {
      DeleteRefines(kind, s, step);
    }
  }

  function Lives(kind: Kind, s: System, steps: seq<Step>): (lives: seq<Life>)
    requires Possibly(kind, s, steps)
    ensures |lives| == |steps| + 1
    decreases |steps|
  {
    [LifeOf(s)] + (if steps == [] then [] else Lives(kind, Apply(kind, s, steps[0]), steps[1..]))
  }

  lemma EnabledIsPossible(kind: Kind, s: System, step: Step)
    requires Enabled(kind, s, step)
    ensures Possible(s, step)
  {}

  predicate Possibly(kind: Kind, s: System, steps: seq<Step>)
    decreases |steps|
  {
    steps == [] || (Possible(s, steps[0]) && Possibly(kind, Apply(kind, s, steps[0]), steps[1..]))
  }

  /** A sequence of lives in which every change is a step of the abstract lifecycle. */
  predicate Lifecycle(lives: seq<Life>) {
    |lives| <= 1 || (Refines(lives[0], lives[1]) && Lifecycle(lives[1..]))
  }

  /** Both kinds of drive refine the abstract lifecycle over every run. */
  lemma {:induction false} RunRefines(kind: Kind, s: System, steps: seq<Step>, s': System)
    requires Inv(s) && Run(kind, s, steps, s')
    ensures Possibly(kind, s, steps) && Lifecycle(Lives(kind, s, steps))
    ensures Lives(kind, s, steps)[|steps|] == LifeOf(s')
    decreases |steps|
  {
    hide Inv;
    hide Enabled;
    hide MountErrorOf;
    hide Apply;
    hide LifeOf;
    hide Refines;
    if steps != [] {
      EnabledIsPossible(kind, s, steps[0]);
      var next := Apply(kind, s, steps[0]);
      StepKept(kind, s, steps[0]);
      StepRefines(kind, s, steps[0]);
      RunRefines(kind, next, steps[1..], s');
      assert Lives(kind, s, steps)[1..] == Lives(kind, next, steps[1..]);
    }
  }

  /** What a caller is told is where the drive is in its lifecycle. */
  lemma ErrorsTellTheLife(kind: Kind, s: System, op: Op)
    requires Inv(s)
    ensures s.drive.mounted ==> s.drive.params.Some?
    ensures var life := LifeOf(s);
            var unmounting := life.LifeDraining? || life.Unmounting? || life.Stuck?;
            && (BeginIoErrorOf(kind, s.drive, op) == NotMounted <==> life.Unmounted? || life.Deleted?)
            && (BeginIoErrorOf(kind, s.drive, op) == CurrentlyUnmounting <==> unmounting)
            && (BeginUnmountErrorOf(s.drive) == NotMounted <==> life.Unmounted? || life.Deleted?)
            && (BeginUnmountErrorOf(s.drive) == CurrentlyUnmounting <==> unmounting)
            && (BeginUnmountErrorOf(s.drive) == NoError <==> life.Mounted?)
  {
    hide ThreadsOk;
    hide Counted;
    hide OneUnmounter;
    hide Attached;
  }

  lemma StuckStep(kind: Kind, s: System, step: Step)
    requires Inv(s) && Enabled(kind, s, step)
    ensures LifeOf(s) == Stuck ==> LifeOf(Apply(kind, s, step)) == Stuck && !step.RemoveDir?
    ensures LifeOf(s) != Stuck ==> (LifeOf(Apply(kind, s, step)) == Stuck <==> step.RemoveDir? && !step.ok)
  {
    hide Inv;
    hide MountErrorOf;
    hide Validates;
    hide BeginIoErrorOf;
    StepRefines(kind, s, step);
    Standing(s, if step.CallMount? then 0 else step.t);
  }

  predicate FailedRemoval(step: Step) {
    step.RemoveDir? && !step.ok
  }

  /** A drive is stuck at the end of a run if and only if it was stuck before or the removal of its ephemeral mount
      directory failed in the run. A stuck drive is never unmounted, mounted, read, written or deleted again. */
  lemma {:induction false} StuckExactly(kind: Kind, s: System, steps: seq<Step>, s': System)
    requires Inv(s) && Run(kind, s, steps, s')
    ensures LifeOf(s') == Stuck <==> LifeOf(s) == Stuck || exists k :: 0 <= k < |steps| && FailedRemoval(steps[k])
    decreases |steps|
  {
    hide Inv;
    hide Possible;
    hide Apply;
    hide LifeOf;
    hide MountErrorOf;
    if steps != [] {
      var next := Apply(kind, s, steps[0]);
      StepKept(kind, s, steps[0]);
      StuckStep(kind, s, steps[0]);
      StuckExactly(kind, next, steps[1..], s');
      if k :| 0 <= k < |steps| - 1 && FailedRemoval(steps[1..][k]) {
        assert FailedRemoval(steps[k + 1]);
      }
      if k :| 0 < k < |steps| && FailedRemoval(steps[k]) {
        assert FailedRemoval(steps[1..][k - 1]);
      }
    }
  }

  // ----- the key -----

  lemma ForgetKey(kind: Kind, s: System, t: Thread)
    requires Possible(s, Forget(t))
    ensures Apply(kind, s, Forget(t)).drive == FinishDelete(s.drive)
  {}

  lemma KeyUntouchedByIo(kind: Kind, s: System, step: Step)
    requires Possible(s, step)
    requires step.CallMount? || step.CallIo? || step.StartIo? || step.EndIo? || step.CallUnmount?
    ensures SameKey(s.drive, Apply(kind, s, step).drive)
  {
    hide MountErrorOf;
    hide Validates;
    hide BeginIoErrorOf;
    hide BeginUnmountErrorOf;
  }

  predicate SameKey(d: Fields, d': Fields) {
    d'.keyed == d.keyed && d'.destroys == d.destroys && d'.params == d.params
  }

  /** Only the last region of a `Delete` touches the key and the options. */
  lemma KeyUntouched(kind: Kind, s: System, step: Step)
    requires Possible(s, step) && !step.Forget?
    ensures SameKey(s.drive, Apply(kind, s, step).drive)
  {
    hide Drive.Mount;
    hide Validates;
    hide BeginIo;
    hide BeginUnmount;
    hide SameKey;
    if step.CallMount? || step.CallIo? || step.StartIo? || step.EndIo? || step.CallUnmount? {
      KeyUntouchedByIo(kind, s, step);
    } else {
      KeyUntouchedByRest(kind, s, step);
    }
  }

  lemma KeyUntouchedByRest(kind: Kind, s: System, step: Step)
    requires Possible(s, step) && !step.Forget?
    requires !(step.CallMount? || step.CallIo? || step.StartIo? || step.EndIo? || step.CallUnmount?)
    ensures SameKey(s.drive, Apply(kind, s, step).drive)
  {
    hide Drive.Mount;
    hide Validates;
    hide BeginIo;
    hide BeginUnmount;
  }

  lemma KeyStep(kind: Kind, s: System, step: Step)
    requires Inv(s) && Enabled(kind, s, step)
    ensures var d, d' := s.drive, Apply(kind, s, step).drive;
            && (d'.keyed || d'.destroys == 1 <==> d.keyed || d.destroys == 1)
            && (d.keyed && !d'.keyed ==> d'.params.None?)
            && (d.params.Some? && d'.params.None? ==> !d'.keyed)
            && (d.params.None? ==> d'.params.None?) && (!d.keyed ==> !d'.keyed)
  {
    hide Inv;
    hide Possible;
    hide Apply;
    Standing(s, 0);
    if step.Forget? {
      ForgetKey(kind, s, step.t);
    } else {
      KeyUntouched(kind, s, step);
    }
  }

  /** Over every run, with any number of `Delete` calls at once, the key is destroyed at most once: exactly
      once when the drive has been deleted and had a key, and not before. */
  lemma {:induction false} KeyDestroyedAtMostOnce(kind: Kind, s: System, steps: seq<Step>, s': System)
    requires Inv(s) && Run(kind, s, steps, s') && (s.drive.params.None? ==> !s.drive.keyed)
    requires s.drive.destroys == 1 ==> s.drive.params.None?
    ensures s'.drive.destroys <= 1
    ensures (s'.drive.destroys == 1) <==> (LifeOf(s') == Deleted && (s.drive.keyed || s.drive.destroys == 1))
    decreases |steps|
  {
    hide Inv;
    hide Possible;
    hide Apply;
    if steps != [] {
      var next := Apply(kind, s, steps[0]);
      KeyStep(kind, s, steps[0]);
      StepKept(kind, s, steps[0]);
      Standing(next, 0);
      KeyDestroyedAtMostOnce(kind, next, steps[1..], s');
    } else {
      Standing(s, 0);
    }
  }
}
