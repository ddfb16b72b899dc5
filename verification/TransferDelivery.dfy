/** What a `SendFile` call that returned an OK result means. */
module TransferDelivery {
  import opened BigEndian
  import opened Wrappers
  import opened Frames
  import opened ByteChannel
  import opened TransferBody
  import opened TransferReceiver
  import TransferRuns
  import opened TransferLink
  import opened TransferFlow
  import opened TransferKept

  // ----- the messages that the receiver handles in a run -----

  /** The event of a step that handles a message. */
  function EventAt(u: Setup, l: Link, s: Step): seq<TransferRuns.Event>
    requires CanStep(u, l, s)
  {
    if !Handles(s) then []
    else
      match EventOf(u, Front(l.toReceiver), s.env)
      case None => []
      case Some(e) => [e]
  }

  function EventsOf(u: Setup, l: Link, steps: seq<Step>): seq<TransferRuns.Event>
    decreases |steps|
  {
    if steps == [] || !CanStep(u, l, steps[0]) then []
    else EventAt(u, l, steps[0]) + EventsOf(u, Apply(u, l, steps[0]), steps[1..])
  }

  /** A step changes the receiver only by handling a message. */
  lemma ReceiverAfter(u: Setup, l: Link, s: Step)
    requires CanStep(u, l, s)
    ensures var events := EventAt(u, l, s);
            Apply(u, l, s).receiver
            == if events == [] then l.receiver else TransferRuns.Step(u.sha, l.receiver, events[0]).0
  {
    hide Head;
    hide ReceiveBody;
    hide Commit;
    hide Open;
    hide SizeFits;
  }

  lemma EventIsPossible(u: Setup, l: Link, s: Step)
    requires Enabled(u, l, s) && EventAt(u, l, s) != []
    ensures EventAt(u, l, s) == [EventAt(u, l, s)[0]] && TransferRuns.Possible(l.receiver, EventAt(u, l, s)[0])
  {
    hide Head;
    hide CanStep;
    hide EventOf;
    hide TransferRuns.Possible;
  }

  /** The receiver of a run is the receiver that has handled these messages, whatever else happened. */
  lemma {:induction false} ReceiverOfRun(u: Setup, l: Link, steps: seq<Step>, l': Link)
    requires Run(u, l, steps, l')
    ensures l'.receiver == TransferRuns.After(u.sha, l.receiver, EventsOf(u, l, steps))
    ensures TransferRuns.Allowed(u.sha, l.receiver, EventsOf(u, l, steps))
    decreases |steps|
  {
    hide CanStep;
    hide EventPossible;
    hide EventAt;
    hide Apply;
    hide TransferRuns.Possible;
    hide TransferRuns.Step;
    if steps != [] {
      var next := Apply(u, l, steps[0]);
      var rest := EventsOf(u, next, steps[1..]);
      ReceiverOfRun(u, next, steps[1..], l');
      ReceiverAfter(u, l, steps[0]);
      if EventAt(u, l, steps[0]) == [] {
        assert [] + rest == rest;
      } else {
        EventIsPossible(u, l, steps[0]);
        TransferRuns.AfterFirst(u.sha, l.receiver, EventAt(u, l, steps[0])[0], rest);
      }
    }
  }

  // ----- the step that handled a call's commit -----

  /** Step `k` of the run handled a commit with this message id in state `m`, and gave this result. */
  ghost predicate AnsweredAt(u: Setup, l: Link, steps: seq<Step>, k: nat, m: Link, id: uint64, result: Result) {
    && k < |steps| && Run(u, l, steps[..k], m)
    && steps[k].HandleCommit? && Enabled(u, m, steps[k])
    && Front(m.toReceiver).id == id
    && id in Apply(u, m, steps[k]).delivered && Apply(u, m, steps[k]).delivered[id] == result
  }

  /** Only handling a commit records a result. */
  lemma DeliveredByStep(u: Setup, l: Link, s: Step, id: uint64, result: Result)
    requires CanStep(u, l, s) && id in Apply(u, l, s).delivered && Apply(u, l, s).delivered[id] == result
    ensures (id in l.delivered && l.delivered[id] == result) || (s.HandleCommit? && Front(l.toReceiver).id == id)
  {
    hide Head;
    hide ReceiveBody;
    hide Commit;
    hide Open;
    hide SizeFits;
  }

  lemma {:induction false} DeliveredInRun(u: Setup, l: Link, steps: seq<Step>, l': Link, id: uint64)
    requires Run(u, l, steps, l') && id in l'.delivered
    ensures (id in l.delivered && l.delivered[id] == l'.delivered[id])
         || exists k: nat, m :: AnsweredAt(u, l, steps, k, m, id, l'.delivered[id])
    decreases |steps|
  {
    hide CanStep;
    hide EventPossible;
    hide Apply;
    hide Head;
    if steps != [] {
      var result := l'.delivered[id];
      var next := Apply(u, l, steps[0]);
      DeliveredInRun(u, next, steps[1..], l', id);
      if id in next.delivered && next.delivered[id] == result {
        DeliveredByStep(u, l, steps[0], id, result);
        if !(id in l.delivered && l.delivered[id] == result) {
          assert steps[..0] == [];
          assert AnsweredAt(u, l, steps, 0, l, id, result);
        }
      } else {
        var k: nat, m :| AnsweredAt(u, next, steps[1..], k, m, id, result);
        assert steps[..k + 1][1..] == steps[1..][..k];
        assert AnsweredAt(u, l, steps, k + 1, m, id, result);
      }
    }
  }

  lemma DoneMeansDelivered(u: Setup, l: Link, t: Call, result: Result)
    requires Inv(u, l) && In(l, t, Done(result))
    ensures t in u.jobs && u.jobs[t].commitId in l.delivered && l.delivered[u.jobs[t].commitId] == result
    ensures result == Result(u.jobs[t].req.transferId, true, |u.jobs[t].content|, u.sha(u.jobs[t].content), Fine)
    ensures DigestFits(u.jobs[t].req.sha256, u.sha(u.jobs[t].content))
  {
    hide Wires;
    hide TransferRuns.Inv;
    hide Entries;
    hide Owners;
    hide Replies;
    hide DigestFits;
    assert SenderOk(u.jobs[t], l.calls[t], l.delivered);
  }

  /** A message id of a commit is of one call. */
  lemma CommitStepIsOwn(u: Setup, m: Link, s: Step, t: Call)
    requires ValidSetup(u) && s.HandleCommit? && Enabled(u, m, s) && t in u.jobs
    requires Front(m.toReceiver).id == u.jobs[t].commitId
    ensures s.t == t
  {
    hide Head;
    hide EventPossible;
  }

  /** What is at the destination of a transfer right after a step. */
  function LeftBy(u: Setup, m: Link, s: Step, id: Id): Option<seq<byte>>
    requires CanStep(u, m, s) && id in m.receiver.incoming
  {
    TransferRuns.Content(Apply(u, m, s).receiver.disk, m.receiver.incoming[id].finalPath)
  }

  /** An OK commit of call `t` leaves what the temporary name stands for at the destination: the call's content, if
      the name still stands for the transfer's own file. */
  lemma CommitStepLeaves(u: Setup, m: Link, s: Step, t: Call)
    requires ValidSetup(u) && Inv(u, m) && s.HandleCommit? && Enabled(u, m, s) && s.t == t && t in u.jobs
    requires u.jobs[t].commitId in Apply(u, m, s).delivered && Apply(u, m, s).delivered[u.jobs[t].commitId].ok
    ensures u.jobs[t].req.transferId in m.receiver.incoming
    ensures var id := u.jobs[t].req.transferId;
            var inc := m.receiver.incoming[id];
            && LeftBy(u, m, s, id) == TransferRuns.Content(m.receiver.disk, inc.tempPath)
            && (TransferRuns.Intact(inc, m.receiver.disk) ==> LeftBy(u, m, s, id) == Some(u.jobs[t].content))
  {
    hide Wires;
    hide TransferRuns.Inv;
    hide Books;
    hide Head;
    hide Mine;
    hide SizeFits;
    hide Script;
    hide Rest;
    hide TransferRuns.Possible;
    hide TransferRuns.Content;
    hide TransferRuns.Intact;
    hide Commit;
    var f := Front(m.toReceiver);
    WiresTake(u, m.calls, m.toReceiver, m.toSender, t, m.calls[t].(read := m.calls[t].read + 1));
    ScriptAt(u, u.jobs[t], m.calls[t].read);
    InProgress(u, m, t);
    ReceivedIsContent(u, m, t);
    ReceiverInv(u, m);
    var e := TransferRuns.CommitEvent(u.jobs[t].req.transferId, s.env.renames, s.env.removes);
    assert EventOf(u, f, s.env) == Some(e);
    TransferRuns.OkCommitDelivers(u.sha, m.receiver, e);
  }

  // ----- what a successful SendFile means -----

  /** Step `k` of the run handled the commit of call `t` in state `m`. */
  ghost predicate CommitAt(u: Setup, l: Link, steps: seq<Step>, k: nat, m: Link, t: Call) {
    && k < |steps| && Run(u, l, steps[..k], m) && Enabled(u, m, steps[k])
    && steps[k].HandleCommit? && steps[k].t == t
    && t in u.jobs && u.jobs[t].req.transferId in m.receiver.incoming
  }

  /** Before step `k`, an OK commit of another transfer has had the temporary file of call `t` as its destination. */
  predicate ReplacedBefore(u: Setup, l: Link, steps: seq<Step>, k: nat, t: Call)
    requires k <= |steps| && t in u.jobs
  {
    TransferRuns.Replaced(u.sha, l.receiver, EventsOf(u, l, steps[..k]), u.jobs[t].req.transferId)
  }

  /** What step `k` left at the destination of call `t`: the call's file, unless another transfer had replaced its
      temporary file; then what that transfer had put there. */
  ghost predicate Leaves(u: Setup, l: Link, steps: seq<Step>, k: nat, m: Link, t: Call)
    requires CommitAt(u, l, steps, k, m, t)
  {
    var id := u.jobs[t].req.transferId;
    var left := LeftBy(u, m, steps[k], id);
    && left == TransferRuns.Content(m.receiver.disk, m.receiver.incoming[id].tempPath)
    && (!ReplacedBefore(u, l, steps, k, t) ==> left == Some(u.jobs[t].content))
    && (ReplacedBefore(u, l, steps, k, t) ==>
          exists j :: TransferRuns.LastReplacedBy(u.sha, l.receiver, EventsOf(u, l, steps[..k]), id, j))
  }

  /** In every run of any number of `SendFile` calls, a call that returned an OK result was committed at some step, and
      the result has the size and the digest of the sender's file. Right after that step the destination that the
      receiver chose for it held the sender's file, byte for byte, if no OK commit of another transfer had replaced
      its temporary file; otherwise it held what that commit had put there. */
  lemma SendFileOutcome(u: Setup, l: Link, steps: seq<Step>, l': Link, t: Call, result: Result)
    requires ValidSetup(u) && Start(u, l) && Run(u, l, steps, l') && In(l', t, Done(result))
    ensures t in u.jobs
    ensures result == Result(u.jobs[t].req.transferId, true, |u.jobs[t].content|, u.sha(u.jobs[t].content), Fine)
    ensures DigestFits(u.jobs[t].req.sha256, u.sha(u.jobs[t].content))
    ensures exists k: nat, m :: CommitAt(u, l, steps, k, m, t) && Leaves(u, l, steps, k, m, t)
  {
    hide Inv;
    hide Enabled;
    hide Apply;
    hide ValidSetup;
    hide Head;
    hide DigestFits;
    hide LeftBy;
    hide TransferRuns.Content;
    hide TransferRuns.Replaced;
    hide TransferRuns.Intact;
    hide TransferRuns.LastReplacedBy;
    hide Run;
    StartInv(u, l);
    RunKeepsInv(u, l, steps, l');
    DoneMeansDelivered(u, l', t, result);
    var id := u.jobs[t].commitId;
    DeliveredInRun(u, l, steps, l', id);
    StartIsEmpty(u, l);
    var k: nat, m :| AnsweredAt(u, l, steps, k, m, id, result);
    RunKeepsInv(u, l, steps[..k], m);
    CommitStepIsOwn(u, m, steps[k], t);
    CommitStepLeaves(u, m, steps[k], t);
    ReceiverOfRun(u, l, steps[..k], m);
    var events := EventsOf(u, l, steps[..k]);
    TransferRuns.ReplacedExactly(u.sha, l.receiver, events, u.jobs[t].req.transferId);
    if TransferRuns.Replaced(u.sha, l.receiver, events, u.jobs[t].req.transferId) {
      var j := TransferRuns.ReplacedHolds(u.sha, l.receiver, events, u.jobs[t].req.transferId);
    }
    assert CommitAt(u, l, steps, k, m, t) && Leaves(u, l, steps, k, m, t);
  }

  lemma StartIsEmpty(u: Setup, l: Link)
    requires Start(u, l)
    ensures l.receiver.incoming == map[] && l.delivered == map[]
  {}

  /** No OK commit of another transfer ever replaces the temporary file of call `t` before its commit is handled. */
  ghost predicate Undisturbed(u: Setup, l: Link, steps: seq<Step>, t: Call) {
    forall k :: 0 <= k < |steps| && steps[k].HandleCommit? && steps[k].t == t && t in u.jobs ==>
      !ReplacedBefore(u, l, steps, k, t)
  }

  /** Some step of the run handled the commit of call `t`, and right after that step the destination that the
      receiver chose for it held the call's file. */
  ghost predicate WasDelivered(u: Setup, l: Link, steps: seq<Step>, t: Call) {
    exists k: nat, m ::
      && CommitAt(u, l, steps, k, m, t)
      && LeftBy(u, m, steps[k], u.jobs[t].req.transferId) == Some(u.jobs[t].content)
  }

  /** An undisturbed call that returned an OK result was delivered, whatever happens to the other transfers. */
  lemma SendFileDelivers(u: Setup, l: Link, steps: seq<Step>, l': Link, t: Call, result: Result)
    requires ValidSetup(u) && Start(u, l) && Run(u, l, steps, l') && In(l', t, Done(result))
    requires Undisturbed(u, l, steps, t)
    ensures t in u.jobs && WasDelivered(u, l, steps, t)
    ensures result == Result(u.jobs[t].req.transferId, true, |u.jobs[t].content|, u.sha(u.jobs[t].content), Fine)
  {
    hide ValidSetup;
    hide Start;
    hide Run;
    hide In;
    hide Enabled;
    hide Head;
    hide DigestFits;
    hide LeftBy;
    hide ReplacedBefore;
    hide TransferRuns.LastReplacedBy;
    SendFileOutcome(u, l, steps, l', t, result);
    var k: nat, m :| CommitAt(u, l, steps, k, m, t) && Leaves(u, l, steps, k, m, t);
    assert !ReplacedBefore(u, l, steps, k, t);
  }

  // ----- a receiver whose policy gives safe destinations -----

  /** The receiver's policy gives no destination a name that temporary files have. */
  ghost predicate SafelyEnabled(u: Setup, l: Link, s: Step) {
    && Enabled(u, l, s)
    && forall i :: 0 <= i < |EventAt(u, l, s)| ==> TransferRuns.SafeDestination(l.receiver, EventAt(u, l, s)[i])
  }

  ghost predicate SafeRun(u: Setup, l: Link, steps: seq<Step>, l': Link)
    decreases |steps|
  {
    if steps == [] then l' == l
    else SafelyEnabled(u, l, steps[0]) && SafeRun(u, Apply(u, l, steps[0]), steps[1..], l')
  }

  lemma {:induction false} SafeEvents(u: Setup, l: Link, steps: seq<Step>, l': Link)
    requires SafeRun(u, l, steps, l')
    ensures Run(u, l, steps, l') && TransferRuns.AllowedAndSafe(u.sha, l.receiver, EventsOf(u, l, steps))
    decreases |steps|
  {
    hide CanStep;
    hide EventPossible;
    hide EventAt;
    hide Apply;
    hide TransferRuns.Possible;
    hide TransferRuns.Step;
    hide TransferRuns.SafeDestination;
    if steps != [] {
      var next := Apply(u, l, steps[0]);
      var rest := EventsOf(u, next, steps[1..]);
      SafeEvents(u, next, steps[1..], l');
      ReceiverAfter(u, l, steps[0]);
      if EventAt(u, l, steps[0]) == [] {
        assert [] + rest == rest;
      } else {
        EventIsPossible(u, l, steps[0]);
        TransferRuns.SafeFirst(u.sha, l.receiver, EventAt(u, l, steps[0])[0], rest);
      }
    }
  }

  lemma {:induction false} SafePrefix(u: Setup, l: Link, steps: seq<Step>, l': Link, k: nat) returns (m: Link)
    requires SafeRun(u, l, steps, l') && k <= |steps|
    ensures SafeRun(u, l, steps[..k], m)
    decreases |steps|
  {
    hide Apply;
    hide SafelyEnabled;
    hide CanStep;
    if k == 0 {
      m := l;
    } else {
      EnabledSafely(u, l, steps[0]);
      m := SafePrefix(u, Apply(u, l, steps[0]), steps[1..], l', k - 1);
      assert steps[..k][1..] == steps[1..][..k - 1];
    }
  }

  lemma EnabledSafely(u: Setup, l: Link, s: Step)
    requires SafelyEnabled(u, l, s)
    ensures CanStep(u, l, s)
  {
    hide CanStep;
    hide EventAt;
  }

  /** The theorem for a receiver that never gives a transfer a destination named like a temporary file: nothing
      is asked of what happens during the run. */
  lemma SafeReceiverDelivers(u: Setup, l: Link, steps: seq<Step>, l': Link, t: Call, result: Result)
    requires ValidSetup(u) && Start(u, l) && TransferRuns.TempFilesExact(l.receiver)
    requires SafeRun(u, l, steps, l') && In(l', t, Done(result))
    ensures t in u.jobs && WasDelivered(u, l, steps, t)
    ensures result == Result(u.jobs[t].req.transferId, true, |u.jobs[t].content|, u.sha(u.jobs[t].content), Fine)
  {
    hide ValidSetup;
    hide Start;
    hide Run;
    hide SafeRun;
    hide In;
    hide WasDelivered;
    hide EventsOf;
    hide TransferRuns.TempFilesExact;
    StartIsEmpty(u, l);
    SafeEvents(u, l, steps, l');
    forall k | 0 <= k < |steps| && t in u.jobs
      ensures !ReplacedBefore(u, l, steps, k, t)
    {
      var m := SafePrefix(u, l, steps, l', k);
      SafeEvents(u, l, steps[..k], m);
      NeverReplaced(u.sha, l.receiver, EventsOf(u, l, steps[..k]), u.jobs[t].req.transferId);
    }
    SendFileDelivers(u, l, steps, l', t, result);
  }

  lemma NeverReplaced(sha: TransferRuns.Digest, s: State, events: seq<TransferRuns.Event>, x: Id)
    requires s.incoming == map[] && TransferRuns.TempFilesExact(s) && TransferRuns.AllowedAndSafe(sha, s, events)
    ensures !TransferRuns.Replaced(sha, s, events, x)
  {
    hide TransferRuns.TempFilesExact;
    hide TransferRuns.AllowedAndSafe;
    hide TransferRuns.Inv;
    hide TransferRuns.Intact;
    TransferRuns.TempFilesAreIncoming(sha, s, events);
    if x in TransferRuns.After(sha, s, events).incoming {
      TransferRuns.ReplacedExactly(sha, s, events, x);
    }
  }

  // ----- every message can be handled -----

  /** The step that handles a message of the given type. */
  function Handler(typ: uint32, t: Call, env: Env): Step {
    if typ == OPEN then HandleOpen(t, env) else if typ == BODY then HandleBody(t, env) else HandleCommit(t, env)
  }

  /** A receiver that has no handler and whose rename fails. */
  const UNHELPFUL: Env := Env(NoHandler, NotCreated, Complete, false, true)

  /** The answer to the message at the front fits a frame. */
  ghost predicate AnswerFits(u: Setup, l: Link, f: Frame, env: Env) {
    match EventOf(u, f, env)
    case None => true
    case Some(e) => Fits(ReplyTo(u, f, TransferRuns.Step(u.sha, l.receiver, e).1))
  }

  lemma HandlerEnabled(u: Setup, l: Link, t: Call, env: Env)
    requires l.serving && CanTake(l.toReceiver) && TransferType(Front(l.toReceiver).typ)
    requires AtReceiver(u, l, t, Front(l.toReceiver).typ)
    ensures Enabled(u, l, Handler(Front(l.toReceiver).typ, t, env)) <==> EventPossible(u, l, Front(l.toReceiver), env)
  {
    hide AtReceiver;
    hide EventPossible;
    hide Head;
  }

  lemma FrontIsOfACall(u: Setup, l: Link) returns (t: Call)
    requires Wires(u, l.calls, l.toReceiver, l.toSender) && l.serving && CanTake(l.toReceiver)
    requires TransferType(Front(l.toReceiver).typ) && Admits(u.receiver.receives, HeaderOf(Front(l.toReceiver)))
    ensures AtReceiver(u, l, t, Front(l.toReceiver).typ)
  {
    hide Head;
    hide FlowOf;
    TakeFaithful(l.toReceiver);
    var f := Front(l.toReceiver);
    assert f in l.toReceiver.flying;
    t :| t in u.jobs && Mine(f, u.jobs[t]);
  }

  /** Whatever admitted transfer message comes to the front of the receiver's stream, it is of a call whose handling
      is a step for everything that the surroundings may do; and there is such a step, provided that a refusal or a
      failed commit fits a frame. */
  lemma EveryMessageIsHandled(u: Setup, l: Link, steps: seq<Step>, l': Link)
    requires ValidSetup(u) && Start(u, l) && Run(u, l, steps, l') && l'.serving && CanTake(l'.toReceiver)
    requires TransferType(Front(l'.toReceiver).typ) && Admits(u.receiver.receives, HeaderOf(Front(l'.toReceiver)))
    ensures var f := Front(l'.toReceiver);
            exists t ::
              && t in u.jobs && Mine(f, u.jobs[t])
              && (forall env :: Enabled(u, l', Handler(f.typ, t, env)) <==> EventPossible(u, l', f, env))
              && (AnswerFits(u, l', f, UNHELPFUL) ==> Enabled(u, l', Handler(f.typ, t, UNHELPFUL)))
  {
    hide Run;
    hide ValidSetup;
    hide Head;
    hide TransferRuns.Inv;
    hide Books;
    hide Wires;
    hide Handler;
    hide Enabled;
    StartInv(u, l);
    RunKeepsInv(u, l, steps, l');
    var f := Front(l'.toReceiver);
    var t := FrontIsOfACall(u, l');
    forall env
      ensures Enabled(u, l', Handler(f.typ, t, env)) <==> EventPossible(u, l', f, env)
    {
      HandlerEnabled(u, l', t, env);
    }
  }
}
