/** When a `SendFile` call can succeed: exactly when its messages and the replies to them are within the size limits of
    both messengers and the digest it asks for, if any, is that of its file. */
module TransferLimits {
  import opened Wrappers
  import opened Frames
  import opened ByteChannel
  import opened TransferBody
  import opened TransferReceiver
  import TransferRuns
  import opened TransferLink
  import opened TransferFlow
  import opened TransferKept
  import TransferDelivery
  import opened TransferSuccess

  // ----- what has passed the limits so far -----

  /** The first messages of a call, in the order of its script. */
  ghost predicate AllSendable(u: Setup, job: Job, n: nat)
    requires SizeFits(job.req.transferId, |job.content|)
  {
    forall i :: 0 <= i < n && i < 3 ==> Sendable(u.sender.sends, Script(u, job)[i])
  }

  ghost predicate Admitted(u: Setup, job: Job, n: nat)
    requires SizeFits(job.req.transferId, |job.content|)
  {
    forall i :: 0 <= i < n && i < 3 ==> Admits(u.receiver.receives, HeaderOf(Script(u, job)[i]))
  }

  predicate HasHeardAccepted(phase: Phase) {
    phase == Phase.Accepted || phase == BodySent || phase == Committing || phase.Done?
  }

  /** What a call has sent was sendable, what the receiver has read was admitted, and so were the replies heard. */
  ghost predicate Passed(u: Setup, job: Job, p: Progress) {
    && SizeFits(job.req.transferId, |job.content|)
    && AllSendable(u, job, p.sent) && Admitted(u, job, p.read)
    && (HasHeardAccepted(p.phase) ==> Passes(u.receiver, u.sender, AcceptReply(u, job)))
    && (p.phase.Done? ==> Passes(u.receiver, u.sender, OkReply(u, job)))
  }

  ghost predicate AllPassed(u: Setup, calls: map<Call, Progress>) {
    calls.Keys == u.jobs.Keys && forall t :: t in calls ==> Passed(u, u.jobs[t], calls[t])
  }

  /** A reply under way that reports success is the reply to its call, and was sendable. */
  ghost predicate GoodReply(u: Setup, f: Frame) {
    forall t :: t in u.jobs ==>
      && (f.typ == OPEN_RESPONSE && f.id == u.jobs[t].openId && u.codec.getResponse(f.payload).Some?
          && u.codec.getResponse(f.payload).value.accepted ==>
            f == AcceptReply(u, u.jobs[t]) && Sendable(u.receiver.sends, f))
      && (f.typ == COMMIT_RESPONSE && f.id == u.jobs[t].commitId && u.codec.getResult(f.payload).Some?
          && u.codec.getResult(f.payload).value.ok ==>
            f == OkReply(u, u.jobs[t]) && Sendable(u.receiver.sends, f))
  }

  ghost predicate GoodReplies(u: Setup, flying: seq<Frame>) {
    forall f :: f in flying ==> GoodReply(u, f)
  }

  ghost predicate LimitsKept(u: Setup, l: Link) {
    AllPassed(u, l.calls) && GoodReplies(u, l.toSender.flying)
  }

  // ----- one effect at a time -----

  lemma PassedSet(u: Setup, calls: map<Call, Progress>, t: Call, p: Progress)
    requires AllPassed(u, calls) && t in calls && t in u.jobs && Passed(u, u.jobs[t], p)
    ensures AllPassed(u, calls[t := p])
  {
    hide Passed;
  }

  lemma PassedOf(u: Setup, calls: map<Call, Progress>, t: Call)
    requires AllPassed(u, calls) && t in calls
    ensures t in u.jobs && Passed(u, u.jobs[t], calls[t])
  {
    hide Passed;
  }

  lemma RepliesPush(u: Setup, flying: seq<Frame>, f: Frame)
    requires GoodReplies(u, flying) && GoodReply(u, f)
    ensures GoodReplies(u, flying + [f])
  {
    hide GoodReply;
  }

  lemma RepliesPop(u: Setup, c: Channel)
    requires Faithful(c) && CanTake(c) && GoodReplies(u, c.flying)
    ensures GoodReply(u, Front(c)) && GoodReplies(u, Rest(c).flying)
  {
    hide GoodReply;
    hide Head;
    TakeFaithful(c);
  }

  lemma ToSenderFaithful(u: Setup, l: Link)
    requires Inv(u, l)
    ensures Faithful(l.toSender)
  {
    hide Faithful;
    hide Flow;
    hide Known;
    hide Books;
    hide TransferRuns.Inv;
  }

  lemma SentPassed(u: Setup, job: Job, p: Progress, phase: Phase)
    requires Passed(u, job, p) && p.sent < 3 && Sendable(u.sender.sends, Script(u, job)[p.sent])
    requires HasHeardAccepted(phase) ==> HasHeardAccepted(p.phase)
    requires !phase.Done?
    ensures Passed(u, job, p.(phase := phase, sent := p.sent + 1))
  {
    hide Script;
    hide Sendable;
    hide Admitted;
    hide Passes;
    hide SizeFits;
  }

  lemma ReadPassed(u: Setup, job: Job, p: Progress, p': Progress)
    requires Passed(u, job, p) && p.read < 3 && Admits(u.receiver.receives, HeaderOf(Script(u, job)[p.read]))
    requires p'.phase == p.phase && p'.sent == p.sent && p'.read == p.read + 1
    ensures Passed(u, job, p')
  {
    hide Script;
    hide AllSendable;
    hide Passes;
    hide SizeFits;
  }

  // ----- steps -----

  lemma SendKeepsLimits(u: Setup, l: Link, t: Call, phase: Phase, f: Frame)
    requires LimitsKept(u, l) && t in l.calls && t in u.jobs && l.calls[t].sent < 3
    requires SizeFits(u.jobs[t].req.transferId, |u.jobs[t].content|)
    requires f == Script(u, u.jobs[t])[l.calls[t].sent] && Sendable(u.sender.sends, f)
    requires HasHeardAccepted(phase) ==> HasHeardAccepted(l.calls[t].phase)
    requires !phase.Done?
    ensures LimitsKept(u, Sending(l, t, phase, f))
  {
    hide Passed;
    hide GoodReplies;
    hide Script;
    hide SizeFits;
    hide Sendable;
    PassedOf(u, l.calls, t);
    SentPassed(u, u.jobs[t], l.calls[t], phase);
    PassedSet(u, l.calls, t, l.calls[t].(phase := phase, sent := l.calls[t].sent + 1));
  }

  lemma SendStepsKeepLimits(u: Setup, l: Link, s: Step)
    requires ValidSetup(u) && Inv(u, l) && LimitsKept(u, l) && CanStep(u, l, s)
    requires s.SendOpen? || s.SendBody? || s.SendCommit?
    ensures LimitsKept(u, Apply(u, l, s))
  {
    hide Inv;
    hide ValidSetup;
    hide LimitsKept;
    hide FlowOf;
    hide SizeFits;
    hide BodyMessage;
    hide Sending;
    hide Sendable;
    Standing(u, l, s.t);
    ValidFits(u, s.t);
    match s
    case SendOpen(t) =>
      SendableFits(u.sender.sends, OpenMessage(u, u.jobs[t]));
      SendKeepsLimits(u, l, t, Asked, OpenMessage(u, u.jobs[t]));
    case SendBody(t) => SendKeepsLimits(u, l, t, BodySent, BodyMessage(u.jobs[t]));
    case SendCommit(t) =>
      SendableFits(u.sender.sends, CommitMessage(u, u.jobs[t]));
      SendKeepsLimits(u, l, t, Committing, CommitMessage(u, u.jobs[t]));
  }

  lemma AbandonKeepsLimits(u: Setup, l: Link, t: Call)
    requires LimitsKept(u, l) && t in l.calls
    ensures LimitsKept(u, WithCall(l, t, l.calls[t].(phase := Failed)))
  {
    hide GoodReplies;
    hide AllSendable;
    hide Admitted;
    hide Passes;
    hide SizeFits;
    PassedOf(u, l.calls, t);
    PassedSet(u, l.calls, t, l.calls[t].(phase := Failed));
  }

  lemma AcceptIsGood(u: Setup, t: Call, s: State, plan: Plan, temp: Temp, f: Frame)
    requires ValidSetup(u) && t in u.jobs && Sendable(u.receiver.sends, f)
    requires f == Message(u.jobs[t].openId, OPEN_RESPONSE,
                          u.codec.putResponse(Open(s, u.jobs[t].req, plan, temp).1))
    ensures GoodReply(u, f)
  {
    hide Where;
    hide SizeFits;
  }

  lemma OkIsGood(u: Setup, t: Call, result: Result, f: Frame)
    requires ValidSetup(u) && t in u.jobs && Sendable(u.receiver.sends, f) && TrueResult(u.sha, u.jobs[t], result)
    requires f == Message(u.jobs[t].commitId, COMMIT_RESPONSE, u.codec.putResult(result))
    ensures GoodReply(u, f)
  {
    hide DigestFits;
    hide SizeFits;
  }

  /** A message has been read and, unless it was a body or its answer was too large, answered. */
  lemma ReadKeepsLimits(u: Setup, l: Link, t: Call, p: Progress)
    requires ValidSetup(u) && Inv(u, l) && AllPassed(u, l.calls) && t in l.calls && t in u.jobs
    requires l.serving && CanTake(l.toReceiver) && AtReceiver(u, l, t, Front(l.toReceiver).typ)
    requires p.phase == l.calls[t].phase && p.sent == l.calls[t].sent && p.read == l.calls[t].read + 1
    ensures AllPassed(u, l.calls[t := p])
    ensures SizeFits(u.jobs[t].req.transferId, |u.jobs[t].content|) && l.calls[t].read < l.calls[t].sent <= 3
    ensures Front(l.toReceiver) == Script(u, u.jobs[t])[l.calls[t].read]
  {
    hide Wires;
    hide Books;
    hide TransferRuns.Inv;
    hide AllPassed;
    hide Passed;
    hide ValidSetup;
    hide Mine;
    hide Head;
    hide Script;
    hide SizeFits;
    hide HeaderOf;
    hide Admits;
    WiresTake(u, l.calls, l.toReceiver, l.toSender, t, p);
    PassedOf(u, l.calls, t);
    ReadPassed(u, u.jobs[t], l.calls[t], p);
    PassedSet(u, l.calls, t, p);
  }

  lemma HandleOpenKeepsLimits(u: Setup, l: Link, t: Call, env: Env)
    requires ValidSetup(u) && Inv(u, l) && LimitsKept(u, l) && AtReceiver(u, l, t, OPEN)
    ensures LimitsKept(u, HandleAt(u, l, t, env))
  {
    hide Inv;
    hide AllPassed;
    hide GoodReplies;
    hide GoodReply;
    hide Mine;
    hide Head;
    hide Script;
    hide SizeFits;
    hide Open;
    hide Sendable;
    hide Admits;
    var p := l.calls[t].(read := l.calls[t].read + 1);
    ReadKeepsLimits(u, l, t, p);
    ScriptAt(u, u.jobs[t], l.calls[t].read);
    var f := Front(l.toReceiver);
    var e := TransferRuns.OpenEvent(u.jobs[t].req, env.plan, env.temp);
    assert EventOf(u, f, env) == Some(e);
    var (receiver, resp) := Open(l.receiver, u.jobs[t].req, env.plan, env.temp);
    ReadKeepsLimits(u, l, t, p.(accepted := resp.accepted));
    var reply := ReplyTo(u, f, TransferRuns.Opened(resp));
    if Sendable(u.receiver.sends, reply) {
      SendableFits(u.receiver.sends, reply);
      AcceptIsGood(u, t, l.receiver, env.plan, env.temp, reply);
      RepliesPush(u, l.toSender.flying, reply);
    }
  }

  lemma SendableFits(limit: nat, m: Message)
    requires Sendable(limit, m)
    ensures Fits(m)
  {}

  lemma HandleBodyKeepsLimits(u: Setup, l: Link, t: Call, env: Env)
    requires ValidSetup(u) && Inv(u, l) && LimitsKept(u, l) && AtReceiver(u, l, t, BODY)
    ensures LimitsKept(u, HandleAt(u, l, t, env))
  {
    hide Inv;
    hide AllPassed;
    hide GoodReplies;
    hide Mine;
    hide Head;
    hide Script;
    hide SizeFits;
    hide ReceiveBody;
    hide Admits;
    ReadKeepsLimits(u, l, t, l.calls[t].(read := l.calls[t].read + 1));
  }

  lemma HandleCommitKeepsLimits(u: Setup, l: Link, t: Call, env: Env)
    requires ValidSetup(u) && Inv(u, l) && LimitsKept(u, l) && AtReceiver(u, l, t, COMMIT)
    ensures LimitsKept(u, HandleAt(u, l, t, env))
  {
    hide Inv;
    hide AllPassed;
    hide GoodReplies;
    hide GoodReply;
    hide Mine;
    hide Head;
    hide Script;
    hide SizeFits;
    hide Commit;
    hide Sendable;
    hide Admits;
    hide TrueResult;
    var p := l.calls[t].(read := l.calls[t].read + 1);
    ReadKeepsLimits(u, l, t, p);
    ScriptAt(u, u.jobs[t], l.calls[t].read);
    InProgress(u, l, t);
    var f := Front(l.toReceiver);
    var e := TransferRuns.CommitEvent(u.jobs[t].req.transferId, env.renames, env.removes);
    assert EventOf(u, f, env) == Some(e);
    CommitAnswers(u, l, t, e);
    var (receiver, result) := Commit(u.sha, l.receiver, e.id, e.renames, e.removes);
    var reply := ReplyTo(u, f, TransferRuns.Committed(result));
    if Sendable(u.receiver.sends, reply) {
      SendableFits(u.receiver.sends, reply);
      OkIsGood(u, t, result, reply);
      RepliesPush(u, l.toSender.flying, reply);
    }
  }

  lemma HearsKeepsLimits(u: Setup, l: Link, t: Call, phase: Phase)
    requires Inv(u, l) && LimitsKept(u, l) && CanTake(l.toSender) && t in l.calls && t in u.jobs
    requires HasHeardAccepted(phase) ==>
               HasHeardAccepted(l.calls[t].phase) || Passes(u.receiver, u.sender, AcceptReply(u, u.jobs[t]))
    requires phase.Done? ==> Passes(u.receiver, u.sender, OkReply(u, u.jobs[t]))
    ensures LimitsKept(u, WithCall(l.(toSender := Rest(l.toSender)), t, l.calls[t].(phase := phase)))
  {
    hide Inv;
    hide GoodReplies;
    hide AllSendable;
    hide Admitted;
    hide Passes;
    hide SizeFits;
    hide Head;
    hide Faithful;
    hide Rest;
    ToSenderFaithful(u, l);
    RepliesPop(u, l.toSender);
    PassedOf(u, l.calls, t);
    PassedSet(u, l.calls, t, l.calls[t].(phase := phase));
  }

  lemma OpeningKeepsLimits(u: Setup, l: Link, t: Call)
    requires ValidSetup(u) && Inv(u, l) && LimitsKept(u, l) && t in u.jobs
    requires In(l, t, Asked) && AtSender(u, l, u.jobs[t].openId, OPEN_RESPONSE)
    ensures LimitsKept(u, Opening(u, l, t))
  {
    hide Inv;
    hide AllPassed;
    hide GoodReplies;
    hide Head;
    hide Faithful;
    hide Rest;
    hide SizeFits;
    hide Sendable;
    hide Admits;
    hide HeaderOf;
    ToSenderFaithful(u, l);
    RepliesPop(u, l.toSender);
    var resp := u.codec.getResponse(Front(l.toSender).payload);
    var phase := if resp.Some? && resp.value.accepted then Phase.Accepted else Failed;
    HearsKeepsLimits(u, l, t, phase);
  }

  lemma ClosingKeepsLimits(u: Setup, l: Link, t: Call)
    requires ValidSetup(u) && Inv(u, l) && LimitsKept(u, l) && t in u.jobs
    requires In(l, t, Committing) && AtSender(u, l, u.jobs[t].commitId, COMMIT_RESPONSE)
    ensures LimitsKept(u, Closing(u, l, t))
  {
    hide Inv;
    hide AllPassed;
    hide GoodReplies;
    hide Head;
    hide Faithful;
    hide Rest;
    hide SizeFits;
    hide Sendable;
    hide Admits;
    hide HeaderOf;
    ToSenderFaithful(u, l);
    RepliesPop(u, l.toSender);
    var result := u.codec.getResult(Front(l.toSender).payload);
    var phase := if result.Some? && result.value.ok then Done(result.value) else Failed;
    HearsKeepsLimits(u, l, t, phase);
  }

  lemma OtherReplyKeepsLimits(u: Setup, l: Link, f: Frame)
    requires LimitsKept(u, l) && !ResponseType(f.typ)
    ensures LimitsKept(u, l.(toSender := Push(l.toSender, f)))
  {
    hide AllPassed;
    hide GoodReplies;
    RepliesPush(u, l.toSender.flying, f);
  }

  lemma StepKeepsLimits(u: Setup, l: Link, s: Step)
    requires ValidSetup(u) && Inv(u, l) && LimitsKept(u, l) && CanStep(u, l, s)
    ensures LimitsKept(u, Apply(u, l, s))
  {
    hide Inv;
    hide ValidSetup;
    hide AllPassed;
    hide GoodReplies;
    hide AtReceiver;
    hide HandleAt;
    hide Sending;
    hide SizeFits;
    hide Head;
    hide Opening;
    hide Closing;
    hide Sendable;
    hide Admits;
    match s
    case SendOpen(t) => SendStepsKeepLimits(u, l, s);
    case SendBody(t) => SendStepsKeepLimits(u, l, s);
    case SendCommit(t) => SendStepsKeepLimits(u, l, s);
    case Abandon(t) => AbandonKeepsLimits(u, l, t);
    case HandleOpen(t, env) => HandleOpenKeepsLimits(u, l, t, env);
    case HandleBody(t, env) => HandleBodyKeepsLimits(u, l, t, env);
    case HandleCommit(t, env) => HandleCommitKeepsLimits(u, l, t, env);
    case OtherToSender(f) => OtherReplyKeepsLimits(u, l, f);
    case GetOpenResponse(t) => OpeningKeepsLimits(u, l, t);
    case GetCommitResponse(t) => ClosingKeepsLimits(u, l, t);
    case GetOther =>
      ToSenderFaithful(u, l);
      RepliesPop(u, l.toSender);
    case _ =>
  }

  lemma {:induction false} RunKeepsLimits(u: Setup, l: Link, steps: seq<Step>, l': Link)
    requires ValidSetup(u) && Inv(u, l) && LimitsKept(u, l) && Run(u, l, steps, l')
    ensures LimitsKept(u, l')
    decreases |steps|
  {
    hide Inv;
    hide LimitsKept;
    hide CanStep;
    hide EventPossible;
    hide Apply;
    hide ValidSetup;
    if steps != [] {
      StepKept(u, l, steps[0]);
      StepKeepsLimits(u, l, steps[0]);
      RunKeepsLimits(u, Apply(u, l, steps[0]), steps[1..], l');
    }
  }

  lemma StartKeepsLimits(u: Setup, l: Link)
    requires ValidSetup(u) && Start(u, l)
    ensures LimitsKept(u, l)
  {
    hide Inverse;
    hide SizeFits;
    hide Script;
  }

  // ----- when a call can succeed -----

  lemma AllThree(u: Setup, job: Job, p: Progress)
    requires Passed(u, job, p) && p.sent == 3 && p.read == 3 && p.phase.Done?
    ensures WithinLimits(u, job)
  {
    hide SizeFits;
    hide Sendable;
    hide Admits;
    hide HeaderOf;
    hide EncodeId;
    var script := Script(u, job);
    assert script[0] == OpenMessage(u, job) && script[1] == BodyMessage(job) && script[2] == CommitMessage(u, job);
    assert Sendable(u.sender.sends, script[0]) && Sendable(u.sender.sends, script[1]);
    assert Sendable(u.sender.sends, script[2]);
    assert Admits(u.receiver.receives, HeaderOf(script[0])) && Admits(u.receiver.receives, HeaderOf(script[1]));
    assert Admits(u.receiver.receives, HeaderOf(script[2]));
  }

  lemma DoneHasReadAll(u: Setup, l: Link, t: Call, result: Result)
    requires Inv(u, l) && In(l, t, Done(result))
    ensures l.calls[t].sent == 3 && l.calls[t].read == 3
  {
    hide Wires;
    hide TransferRuns.Inv;
    hide Entries;
    hide Owners;
    hide Replies;
    hide TrueResult;
    assert SenderOk(u.jobs[t], l.calls[t], l.delivered);
  }

  /** A call that has succeeded could pass. */
  lemma SuccessNeeds(u: Setup, l: Link, steps: seq<Step>, l': Link, t: Call, result: Result)
    requires ValidSetup(u) && Start(u, l) && Run(u, l, steps, l') && In(l', t, Done(result))
    ensures t in u.jobs && SizeFits(u.jobs[t].req.transferId, |u.jobs[t].content|) && CanPass(u, t)
    ensures u.jobs[t].req.sha256 != "" && NoCapitals(u.jobs[t].req.sha256) && NoCapitals(u.sha(u.jobs[t].content)) ==>
              u.jobs[t].req.sha256 == u.sha(u.jobs[t].content)
  {
    hide Inv;
    hide Run;
    hide Start;
    hide ValidSetup;
    hide AllPassed;
    hide GoodReplies;
    hide Passed;
    hide WithinLimits;
    hide DigestFits;
    hide SizeFits;
    StartInv(u, l);
    StartKeepsLimits(u, l);
    RunKeepsInv(u, l, steps, l');
    RunKeepsLimits(u, l, steps, l');
    TransferDelivery.DoneMeansDelivered(u, l', t, result);
    DoneHasReadAll(u, l', t, result);
    ValidFits(u, t);
    PassedOf(u, l'.calls, t);
    AllThree(u, u.jobs[t], l'.calls[t]);
    PassesSmall(u, t);
  }

  lemma PassesSmall(u: Setup, t: Call)
    requires t in u.jobs && SizeFits(u.jobs[t].req.transferId, |u.jobs[t].content|)
    ensures NoCapitals(u.jobs[t].req.sha256) && NoCapitals(u.sha(u.jobs[t].content)) ==>
              (CanPass(u, t) <==>
                 WithinLimits(u, u.jobs[t]) && u.jobs[t].req.sha256 in {"", u.sha(u.jobs[t].content)})
  {
    hide WithinLimits;
    hide SizeFits;
    hide SameButForCase;
    hide NoCapitals;
    EqualFoldExactly(u.sha(u.jobs[t].content), u.jobs[t].req.sha256);
  }

  /** From a fresh link with helpful surroundings, a call can succeed if and only if its three messages and the two
      replies are within the limits of the two messengers and the digest it asks for is empty or matches. */
  lemma SendFileSucceedsExactly(u: Setup, l: Link, t: Call, w: Setting)
    requires ValidSetup(u) && Start(u, l) && Helpful(l, t, w) && t in u.jobs
    ensures SizeFits(u.jobs[t].req.transferId, |u.jobs[t].content|)
    ensures (exists l', result :: Reaches(u, l, l') && In(l', t, Done(result))) <==> CanPass(u, t)
    ensures NoCapitals(u.jobs[t].req.sha256) && NoCapitals(u.sha(u.jobs[t].content)) ==>
              (CanPass(u, t) <==>
                 WithinLimits(u, u.jobs[t]) && u.jobs[t].req.sha256 in {"", u.sha(u.jobs[t].content)})
  {
    hide ValidSetup;
    hide Start;
    hide Helpful;
    hide CanPass;
    hide Run;
    hide SizeFits;
    ValidFits(u, t);
    PassesSmall(u, t);
    if l', result :| Reaches(u, l, l') && In(l', t, Done(result)) {
      var steps :| Run(u, l, steps, l');
      SuccessNeeds(u, l, steps, l', t, result);
    }
    if CanPass(u, t) {
      SendFileCanSucceed(u, l, t, w);
    }
  }
}
