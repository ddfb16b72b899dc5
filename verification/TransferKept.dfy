/** What every step of the transfer link keeps. */
module TransferKept {
  import opened BigEndian
  import opened Wrappers
  import opened Frames
  import opened ByteChannel
  import opened TransferBody
  import opened TransferReceiver
  import TransferRuns
  import opened TransferLink
  import opened TransferFlow

  ghost predicate ResultKnown(delivered: map<uint64, Result>, id: uint64, result: Result) {
    id in delivered && delivered[id] == result && result.ok
  }

  /** Where a call stands, in terms of what it has sent and what the receiver has done. */
  ghost predicate SenderOk(job: Job, p: Progress, delivered: map<uint64, Result>) {
    && (p.accepted ==> p.read >= 1)
    && (p.sent >= 2 || p.phase == Phase.Accepted ==> p.accepted)
    && (match p.phase
        case Ready => p.sent == 0
        case Asked => p.sent == 1
        case Accepted => p.sent == 1
        case BodySent => p.sent == 2
        case Committing => p.sent == 3
        case Done(result) => p.sent == 3 && ResultKnown(delivered, job.commitId, result)
        case Failed => true)
  }

  ghost predicate Senders(jobs: map<Call, Job>, calls: map<Call, Progress>, delivered: map<uint64, Result>) {
    && calls.Keys == jobs.Keys
    && (forall t :: t in calls ==> SenderOk(jobs[t], calls[t], delivered))
  }

  /** A transfer under way and the call it belongs to. */
  ghost predicate Owned(job: Job, p: Progress, id: Id, inc: Incoming) {
    && job.req.transferId == id && inc.expected == job.req
    && p.accepted && 1 <= p.read <= 2
    && (inc.bodyWritten ==> p.read == 2 && inc.hashed == job.content)
  }

  ghost predicate Entries(jobs: map<Call, Job>, calls: map<Call, Progress>, incoming: map<Id, Incoming>,
                          owner: map<Id, Call>) {
    && calls.Keys == jobs.Keys && owner.Keys == incoming.Keys
    && (forall id :: id in incoming ==>
          owner[id] in jobs && Owned(jobs[owner[id]], calls[owner[id]], id, incoming[id]))
  }

  /** An accepted call owns its transfer until its commit is handled. */
  ghost predicate Owners(jobs: map<Call, Job>, calls: map<Call, Progress>, owner: map<Id, Call>) {
    && calls.Keys == jobs.Keys
    && (forall t :: t in calls && calls[t].accepted && calls[t].read < 3 ==>
          jobs[t].req.transferId in owner && owner[jobs[t].req.transferId] == t)
  }

  /** What the result of an OK commit says. */
  ghost predicate TrueResult(sha: TransferRuns.Digest, job: Job, result: Result) {
    result.ok ==>
      && result == Result(job.req.transferId, true, |job.content|, sha(job.content), Fine)
      && DigestFits(job.req.sha256, sha(job.content))
  }

  ghost predicate Deliveries(u: Setup, calls: map<Call, Progress>, delivered: map<uint64, Result>) {
    && calls.Keys == u.jobs.Keys
    && (forall t :: t in calls && u.jobs[t].commitId in delivered ==>
          calls[t].read == 3 && TrueResult(u.sha, u.jobs[t], delivered[u.jobs[t].commitId]))
  }

  /** A response under way says what the receiver did. */
  ghost predicate Truthful(u: Setup, calls: map<Call, Progress>, delivered: map<uint64, Result>, f: Frame) {
    && (f.typ == OPEN_RESPONSE ==>
          forall t :: t in calls && t in u.jobs && u.jobs[t].openId == f.id ==>
            match u.codec.getResponse(f.payload)
            case None => true
            case Some(resp) => resp.accepted ==> calls[t].accepted)
    && (f.typ == COMMIT_RESPONSE ==>
          && f.id in delivered
          && u.codec.getResult(f.payload) == Some(delivered[f.id]))
  }

  ghost predicate Replies(u: Setup, calls: map<Call, Progress>, delivered: map<uint64, Result>, flying: seq<Frame>) {
    forall f :: f in flying ==> Truthful(u, calls, delivered, f)
  }

  ghost predicate Wires(u: Setup, calls: map<Call, Progress>, toReceiver: Channel, toSender: Channel) {
    && Faithful(toReceiver) && Faithful(toSender)
    && Flow(u, calls, toReceiver.flying) && Known(u.jobs, toReceiver.flying)
  }

  ghost predicate Books(u: Setup, calls: map<Call, Progress>, incoming: map<Id, Incoming>,
                        owner: map<Id, Call>, delivered: map<uint64, Result>, replies: seq<Frame>)
  {
    && Senders(u.jobs, calls, delivered)
    && Entries(u.jobs, calls, incoming, owner)
    && Owners(u.jobs, calls, owner)
    && Deliveries(u, calls, delivered)
    && Replies(u, calls, delivered, replies)
  }

  ghost predicate Inv(u: Setup, l: Link) {
    && Wires(u, l.calls, l.toReceiver, l.toSender)
    && TransferRuns.Inv(l.receiver)
    && Books(u, l.calls, l.receiver.incoming, l.owner, l.delivered, l.toSender.flying)
  }

  // ----- steps of the sender -----

  lemma RepliesSet(u: Setup, calls: map<Call, Progress>, delivered: map<uint64, Result>, flying: seq<Frame>, t: Call,
                   p: Progress)
    requires Replies(u, calls, delivered, flying) && t in calls && (calls[t].accepted ==> p.accepted)
    ensures Replies(u, calls[t := p], delivered, flying)
  {
    forall f | f in flying
      ensures Truthful(u, calls[t := p], delivered, f)
    {
      assert Truthful(u, calls, delivered, f);
    }
  }

  /** A call moves on while nothing is delivered. */
  lemma CallSet(u: Setup, calls: map<Call, Progress>, delivered: map<uint64, Result>, replies: seq<Frame>, t: Call,
                p: Progress)
    requires Senders(u.jobs, calls, delivered) && Deliveries(u, calls, delivered)
    requires Replies(u, calls, delivered, replies)
    requires t in calls && t in u.jobs && SenderOk(u.jobs[t], p, delivered)
    requires (calls[t].accepted ==> p.accepted) && (calls[t].read == 3 ==> p.read == 3)
    ensures Senders(u.jobs, calls[t := p], delivered) && Deliveries(u, calls[t := p], delivered)
    ensures Replies(u, calls[t := p], delivered, replies)
  {
    hide SenderOk;
    hide TrueResult;
    hide Replies;
    RepliesSet(u, calls, delivered, replies, t, p);
  }

  lemma OwnersSame(jobs: map<Call, Job>, calls: map<Call, Progress>, incoming: map<Id, Incoming>,
                   owner: map<Id, Call>, t: Call, p: Progress)
    requires Entries(jobs, calls, incoming, owner) && Owners(jobs, calls, owner)
    requires t in calls && p.read == calls[t].read && p.accepted == calls[t].accepted
    ensures Entries(jobs, calls[t := p], incoming, owner) && Owners(jobs, calls[t := p], owner)
  {
    forall id | id in incoming
      ensures Owned(jobs[owner[id]], calls[t := p][owner[id]], id, incoming[id])
    {
      assert Owned(jobs[owner[id]], calls[owner[id]], id, incoming[id]);
    }
  }

  /** A step of a call that leaves what the receiver has done alone. */
  lemma CallMoves(u: Setup, calls: map<Call, Progress>, incoming: map<Id, Incoming>,
                  owner: map<Id, Call>, delivered: map<uint64, Result>, replies: seq<Frame>, t: Call, p: Progress)
    requires Books(u, calls, incoming, owner, delivered, replies)
    requires t in calls && t in u.jobs && p.read == calls[t].read && p.accepted == calls[t].accepted
    requires SenderOk(u.jobs[t], p, delivered)
    ensures Books(u, calls[t := p], incoming, owner, delivered, replies)
  {
    hide SenderOk;
    hide Senders;
    hide Deliveries;
    hide Replies;
    hide Entries;
    hide Owners;
    CallSet(u, calls, delivered, replies, t, p);
    OwnersSame(u.jobs, calls, incoming, owner, t, p);
  }

  lemma WiresSend(u: Setup, calls: map<Call, Progress>, toReceiver: Channel, toSender: Channel, t: Call, f: Frame,
                  p: Progress)
    requires ValidSetup(u) && Wires(u, calls, toReceiver, toSender) && t in calls && t in u.jobs && calls[t].sent < 3
    requires FlowOf(u, u.jobs[t], calls[t], toReceiver.flying) && f == Script(u, u.jobs[t])[calls[t].sent]
    requires p.sent == calls[t].sent + 1 && p.read == calls[t].read
    ensures Wires(u, calls[t := p], Push(toReceiver, f), toSender)
  {
    assert Mine(f, u.jobs[t]);
    PushFaithful(toReceiver, f);
    FlowPush(u, calls, toReceiver.flying, t, f, p);
    KnownPush(u.jobs, toReceiver.flying, f);
  }

  lemma SendKept(u: Setup, l: Link, t: Call, phase: Phase, f: Frame)
    requires ValidSetup(u) && Inv(u, l) && t in l.calls && t in u.jobs && l.calls[t].sent < 3
    requires FlowOf(u, u.jobs[t], l.calls[t], l.toReceiver.flying) && f == Script(u, u.jobs[t])[l.calls[t].sent]
    requires SenderOk(u.jobs[t], l.calls[t].(phase := phase, sent := l.calls[t].sent + 1), l.delivered)
    ensures Inv(u, Sending(l, t, phase, f))
  {
    hide Books;
    hide Wires;
    hide SenderOk;
    hide FlowOf;
    hide Script;
    var p := l.calls[t].(phase := phase, sent := l.calls[t].sent + 1);
    Standing(u, l, t);
    WiresSend(u, l.calls, l.toReceiver, l.toSender, t, f, p);
    CallMoves(u, l.calls, l.receiver.incoming, l.owner, l.delivered, l.toSender.flying, t, p);
  }

  /** What the invariant says of one call. */
  lemma Standing(u: Setup, l: Link, t: Call)
    requires Inv(u, l) && t in l.calls
    ensures t in u.jobs && SenderOk(u.jobs[t], l.calls[t], l.delivered)
    ensures FlowOf(u, u.jobs[t], l.calls[t], l.toReceiver.flying)
  {
    hide SenderOk;
    hide FlowOf;
  }

  lemma SendOpenKept(u: Setup, l: Link, t: Call)
    requires ValidSetup(u) && Inv(u, l) && t in u.jobs && In(l, t, Ready)
    requires Fits(OpenMessage(u, u.jobs[t]))
    ensures Inv(u, Sending(l, t, Asked, OpenMessage(u, u.jobs[t])))
  {
    hide Inv;
    hide ValidSetup;
    hide FlowOf;
    hide SizeFits;
    hide BodyMessage;
    hide Sending;
    Standing(u, l, t);
    SendKept(u, l, t, Asked, OpenMessage(u, u.jobs[t]));
  }

  lemma SendBodyKept(u: Setup, l: Link, t: Call)
    requires ValidSetup(u) && Inv(u, l) && t in u.jobs && In(l, t, Phase.Accepted)
    requires SizeFits(u.jobs[t].req.transferId, |u.jobs[t].content|)
    ensures Inv(u, Sending(l, t, BodySent, BodyMessage(u.jobs[t])))
  {
    hide Inv;
    hide ValidSetup;
    hide FlowOf;
    hide SizeFits;
    hide BodyMessage;
    hide Sending;
    Standing(u, l, t);
    SendKept(u, l, t, BodySent, BodyMessage(u.jobs[t]));
  }

  lemma SendCommitKept(u: Setup, l: Link, t: Call)
    requires ValidSetup(u) && Inv(u, l) && t in u.jobs && In(l, t, BodySent)
    requires Fits(CommitMessage(u, u.jobs[t]))
    ensures Inv(u, Sending(l, t, Committing, CommitMessage(u, u.jobs[t])))
  {
    hide Inv;
    hide ValidSetup;
    hide FlowOf;
    hide SizeFits;
    hide BodyMessage;
    hide Sending;
    Standing(u, l, t);
    SendKept(u, l, t, Committing, CommitMessage(u, u.jobs[t]));
  }

  lemma FlowOfSame(u: Setup, job: Job, p: Progress, flying: seq<Frame>, p': Progress)
    requires FlowOf(u, job, p, flying) && p'.read == p.read && p'.sent == p.sent
    ensures FlowOf(u, job, p', flying)
  {}

  lemma FlowSame(u: Setup, calls: map<Call, Progress>, flying: seq<Frame>, t: Call, p: Progress)
    requires Flow(u, calls, flying) && t in calls && p.read == calls[t].read && p.sent == calls[t].sent
    ensures Flow(u, calls[t := p], flying)
  {
    hide FlowOf;
    FlowOfSame(u, u.jobs[t], calls[t], flying, p);
  }

  /** A call moves on without sending anything. */
  lemma PhaseKept(u: Setup, l: Link, t: Call, phase: Phase)
    requires Inv(u, l) && t in l.calls && t in u.jobs
    requires SenderOk(u.jobs[t], l.calls[t].(phase := phase), l.delivered)
    ensures Inv(u, WithCall(l, t, l.calls[t].(phase := phase)))
  {
    hide Books;
    hide SenderOk;
    hide Flow;
    var p := l.calls[t].(phase := phase);
    FlowSame(u, l.calls, l.toReceiver.flying, t, p);
    CallMoves(u, l.calls, l.receiver.incoming, l.owner, l.delivered, l.toSender.flying, t, p);
  }

  lemma AbandonKept(u: Setup, l: Link, t: Call)
    requires Inv(u, l) && t in l.calls && !l.calls[t].phase.Done?
    ensures Inv(u, WithCall(l, t, l.calls[t].(phase := Failed)))
  {
    hide Inv;
    Standing(u, l, t);
    PhaseKept(u, l, t, Failed);
  }

  // ----- steps of the sender's serve loop -----

  lemma TakeReply(u: Setup, l: Link)
    requires Inv(u, l) && CanTake(l.toSender)
    ensures Truthful(u, l.calls, l.delivered, Front(l.toSender))
    ensures Inv(u, l.(toSender := Rest(l.toSender)))
  {
    hide Senders;
    hide Entries;
    hide Owners;
    hide Deliveries;
    hide Truthful;
    hide Flow;
    hide Known;
    hide TransferRuns.Inv;
    hide Head;
    TakeFaithful(l.toSender);
  }

  lemma GetOpenResponseKept(u: Setup, l: Link, t: Call)
    requires Inv(u, l) && t in u.jobs && In(l, t, Asked) && AtSender(u, l, u.jobs[t].openId, OPEN_RESPONSE)
    ensures Inv(u, Opening(u, l, t))
  {
    hide Inv;
    hide Head;
    hide FlowOf;
    hide Rest;
    Standing(u, l, t);
    TakeReply(u, l);
    var resp := u.codec.getResponse(Front(l.toSender).payload);
    var phase := if resp.Some? && resp.value.accepted then Phase.Accepted else Failed;
    PhaseKept(u, l.(toSender := Rest(l.toSender)), t, phase);
  }

  lemma GetCommitResponseKept(u: Setup, l: Link, t: Call)
    requires Inv(u, l) && t in u.jobs && In(l, t, Committing) && AtSender(u, l, u.jobs[t].commitId, COMMIT_RESPONSE)
    ensures Inv(u, Closing(u, l, t))
  {
    hide Inv;
    hide Head;
    hide FlowOf;
    hide Rest;
    Standing(u, l, t);
    TakeReply(u, l);
    var result := u.codec.getResult(Front(l.toSender).payload);
    var phase := if result.Some? && result.value.ok then Done(result.value) else Failed;
    PhaseKept(u, l.(toSender := Rest(l.toSender)), t, phase);
  }

  // ----- steps of the receiver -----

  lemma RepliesAdd(u: Setup, calls: map<Call, Progress>, delivered: map<uint64, Result>, flying: seq<Frame>, f: Frame)
    requires Replies(u, calls, delivered, flying) && Truthful(u, calls, delivered, f)
    ensures Replies(u, calls, delivered, flying + [f])
  {
    hide Truthful;
  }

  lemma OpenTruthful(u: Setup, calls: map<Call, Progress>, delivered: map<uint64, Result>, t: Call, resp: Response,
                     f: Frame)
    requires ValidSetup(u) && calls.Keys == u.jobs.Keys && t in calls && (resp.accepted ==> calls[t].accepted)
    requires f == Message(u.jobs[t].openId, OPEN_RESPONSE, u.codec.putResponse(resp))
    ensures Truthful(u, calls, delivered, f)
  {}

  lemma AcceptedBooks(u: Setup, calls: map<Call, Progress>, incoming: map<Id, Incoming>,
                      owner: map<Id, Call>, delivered: map<uint64, Result>, replies: seq<Frame>, t: Call,
                      inc: Incoming)
    requires Books(u, calls, incoming, owner, delivered, replies)
    requires t in calls && t in u.jobs && calls[t].read == 0 && SenderOk(u.jobs[t], calls[t], delivered)
    requires u.jobs[t].req.transferId !in incoming && inc.expected == u.jobs[t].req && !inc.bodyWritten
    ensures var id := u.jobs[t].req.transferId;
            Books(u, calls[t := calls[t].(read := 1, accepted := true)], incoming[id := inc],
                  owner[id := t], delivered, replies)
  {
    hide Senders;
    hide Deliveries;
    hide Replies;
    hide ResultKnown;
    CallSet(u, calls, delivered, replies, t, calls[t].(read := 1, accepted := true));
  }

  lemma RejectedBooks(u: Setup, calls: map<Call, Progress>, incoming: map<Id, Incoming>,
                      owner: map<Id, Call>, delivered: map<uint64, Result>, replies: seq<Frame>, t: Call)
    requires Books(u, calls, incoming, owner, delivered, replies)
    requires t in calls && t in u.jobs && calls[t].read == 0 && SenderOk(u.jobs[t], calls[t], delivered)
    ensures Books(u, calls[t := calls[t].(read := 1, accepted := false)], incoming, owner, delivered, replies)
  {
    hide Senders;
    hide Deliveries;
    hide Replies;
    hide ResultKnown;
    CallSet(u, calls, delivered, replies, t, calls[t].(read := 1, accepted := false));
  }

  /** The body of a call has been handled: if its entry has a body now, that is the content. */
  lemma BodyBooks(u: Setup, calls: map<Call, Progress>, incoming: map<Id, Incoming>,
                  owner: map<Id, Call>, delivered: map<uint64, Result>, replies: seq<Frame>, t: Call, inc: Incoming)
    requires Books(u, calls, incoming, owner, delivered, replies)
    requires t in calls && t in u.jobs && calls[t].read == 1 && calls[t].sent >= 2
    requires SenderOk(u.jobs[t], calls[t], delivered)
    requires u.jobs[t].req.transferId in incoming ==> inc.expected == incoming[u.jobs[t].req.transferId].expected
    requires inc.bodyWritten ==> inc.hashed == u.jobs[t].content
    ensures u.jobs[t].req.transferId in incoming
    ensures var id := u.jobs[t].req.transferId;
            Books(u, calls[t := calls[t].(read := 2)], incoming[id := inc], owner, delivered, replies)
  {
    hide Senders;
    hide Deliveries;
    hide Replies;
    hide ResultKnown;
    CallSet(u, calls, delivered, replies, t, calls[t].(read := 2));
  }

  /** A delivery is recorded under its own commit id. */
  lemma DeliveryAdds(u: Setup, calls: map<Call, Progress>, delivered: map<uint64, Result>, replies: seq<Frame>,
                     t: Call, d: Result)
    requires ValidSetup(u)
    requires Senders(u.jobs, calls, delivered) && Deliveries(u, calls, delivered)
    requires Replies(u, calls, delivered, replies)
    requires t in calls && t in u.jobs && calls[t].read == 3 && u.jobs[t].commitId !in delivered
    requires TrueResult(u.sha, u.jobs[t], d)
    ensures var delivered' := delivered[u.jobs[t].commitId := d];
            && Senders(u.jobs, calls, delivered') && Deliveries(u, calls, delivered')
            && Replies(u, calls, delivered', replies)
  {
    hide TrueResult;
    hide Inverse;
    hide SizeFits;
  }

  lemma CommitTruthful(u: Setup, calls: map<Call, Progress>, delivered: map<uint64, Result>, f: Frame)
    requires ValidSetup(u) && f.id in delivered
    requires f == Message(f.id, COMMIT_RESPONSE, u.codec.putResult(delivered[f.id]))
    ensures Truthful(u, calls, delivered, f)
  {}

  lemma CommitBooks(u: Setup, calls: map<Call, Progress>, incoming: map<Id, Incoming>,
                    owner: map<Id, Call>, delivered: map<uint64, Result>, replies: seq<Frame>, t: Call, d: Result)
    requires ValidSetup(u) && Books(u, calls, incoming, owner, delivered, replies)
    requires t in calls && t in u.jobs && calls[t].read == 2 && calls[t].sent >= 2
    requires SenderOk(u.jobs[t], calls[t], delivered)
    requires u.jobs[t].commitId !in delivered && TrueResult(u.sha, u.jobs[t], d)
    ensures var id := u.jobs[t].req.transferId;
            Books(u, calls[t := calls[t].(read := 3)], incoming - {id}, owner - {id},
                  delivered[u.jobs[t].commitId := d], replies)
  {
    hide Senders;
    hide Deliveries;
    hide Replies;
    hide ResultKnown;
    hide ValidSetup;
    hide TrueResult;
    var calls' := calls[t := calls[t].(read := 3)];
    CallSet(u, calls, delivered, replies, t, calls[t].(read := 3));
    DeliveryAdds(u, calls', delivered, replies, t, d);
  }

  /** The receiver has taken the message of call `t` at the front and has not answered it yet. */
  lemma WiresTake(u: Setup, calls: map<Call, Progress>, toReceiver: Channel, toSender: Channel, t: Call, p: Progress)
    requires ValidSetup(u) && Wires(u, calls, toReceiver, toSender) && CanTake(toReceiver)
    requires t in calls && t in u.jobs && Mine(Front(toReceiver), u.jobs[t])
    requires p.sent == calls[t].sent && p.read == calls[t].read + 1
    ensures SizeFits(u.jobs[t].req.transferId, |u.jobs[t].content|) && calls[t].read < calls[t].sent <= 3
    ensures Front(toReceiver) == Script(u, u.jobs[t])[calls[t].read]
    ensures Wires(u, calls[t := p], Rest(toReceiver), toSender)
  {
    hide Head;
    hide Flow;
    hide Script;
    hide Mine;
    hide ValidSetup;
    hide SizeFits;
    TakeFaithful(toReceiver);
    FlowPop(u, calls, toReceiver.flying, t, p);
  }

  lemma WiresReply(u: Setup, calls: map<Call, Progress>, toReceiver: Channel, toSender: Channel, f: Frame)
    requires Wires(u, calls, toReceiver, toSender)
    ensures Wires(u, calls, toReceiver, Push(toSender, f))
  {
    hide Flow;
    hide Known;
    PushFaithful(toSender, f);
  }

  /** Which message of its script a call's frame is. */
  lemma ScriptAt(u: Setup, job: Job, k: nat)
    requires SizeFits(job.req.transferId, |job.content|) && k < 3
    ensures var f := Script(u, job)[k];
            && (f.typ == OPEN ==> k == 0 && f == OpenMessage(u, job))
            && (f.typ == BODY ==> k == 1 && f == BodyMessage(job))
            && (f.typ == COMMIT ==> k == 2 && f == CommitMessage(u, job))
  {}

  /** The transfer of a call whose commit is at the front: a body it has received is the call's content. */
  lemma ReceivedIsContent(u: Setup, l: Link, t: Call)
    requires Inv(u, l) && t in l.calls && t in u.jobs && l.calls[t].read == 2 && l.calls[t].accepted
    ensures u.jobs[t].req.transferId in l.receiver.incoming
    ensures var inc := l.receiver.incoming[u.jobs[t].req.transferId];
            inc.expected == u.jobs[t].req && (inc.bodyWritten ==> inc.hashed == u.jobs[t].content)
  {
    hide TransferRuns.Inv;
    hide Wires;
    hide Replies;
    hide Senders;
    hide Deliveries;
  }

  /** What the commit of call `t` answers. */
  lemma CommitAnswers(u: Setup, l: Link, t: Call, e: TransferRuns.Event)
    requires Inv(u, l) && t in l.calls && t in u.jobs && l.calls[t].read == 2 && l.calls[t].accepted
    requires e.CommitEvent? && e.id == u.jobs[t].req.transferId
    ensures e.id in l.receiver.incoming
    ensures var (receiver, o) := TransferRuns.Step(u.sha, l.receiver, e);
            && o.Committed? && o.result.transferId == e.id && receiver.incoming == l.receiver.incoming - {e.id}
            && TrueResult(u.sha, u.jobs[t], o.result)
  {
    hide TransferRuns.Inv;
    hide Wires;
    hide Books;
    hide DigestFits;
    ReceivedIsContent(u, l, t);
    ReceiverInv(u, l);
    var (receiver, o) := TransferRuns.Step(u.sha, l.receiver, e);
    if o.result.ok {
      TransferRuns.OkCommitDelivers(u.sha, l.receiver, e);
    }
  }

  lemma ReceiverInv(u: Setup, l: Link)
    requires Inv(u, l)
    ensures TransferRuns.Inv(l.receiver)
  {
    hide TransferRuns.Inv;
    hide Wires;
    hide Books;
  }

  lemma OpenEffect(s: State, req: Request, plan: Plan, temp: Temp)
    ensures var (s', resp) := Open(s, req, plan, temp);
            && resp.transferId == req.transferId
            && (!resp.accepted ==> s' == s)
            && (resp.accepted ==>
                  && req.transferId !in s.incoming && req.transferId in s'.incoming
                  && s'.incoming == s.incoming[req.transferId := s'.incoming[req.transferId]]
                  && s'.incoming[req.transferId].expected == req && !s'.incoming[req.transferId].bodyWritten)
  {}

  /** The books after an open of call `t` has been handled, with or without its answer. */
  lemma AfterOpenBooks(u: Setup, l: Link, t: Call, plan: Plan, temp: Temp, receiver: State, resp: Response, f: Frame)
    requires ValidSetup(u) && Inv(u, l) && t in l.calls && t in u.jobs && l.calls[t].read == 0
    requires (receiver, resp) == Open(l.receiver, u.jobs[t].req, plan, temp)
    requires f == Message(u.jobs[t].openId, OPEN_RESPONSE, u.codec.putResponse(resp))
    ensures var owner := if resp.accepted then l.owner[resp.transferId := t] else l.owner;
            var calls' := l.calls[t := l.calls[t].(read := 1, accepted := resp.accepted)];
            && Books(u, calls', receiver.incoming, owner, l.delivered, l.toSender.flying)
            && Books(u, calls', receiver.incoming, owner, l.delivered, l.toSender.flying + [f])
  {
    hide Wires;
    hide TransferRuns.Inv;
    hide Senders;
    hide Entries;
    hide Owners;
    hide Deliveries;
    hide Truthful;
    hide Replies;
    hide SenderOk;
    hide ValidSetup;
    hide Open;
    hide FlowOf;
    OpenEffect(l.receiver, u.jobs[t].req, plan, temp);
    Standing(u, l, t);
    var p := l.calls[t].(read := 1, accepted := resp.accepted);
    if resp.accepted {
      AcceptedBooks(u, l.calls, l.receiver.incoming, l.owner, l.delivered, l.toSender.flying, t,
                    receiver.incoming[u.jobs[t].req.transferId]);
    } else {
      RejectedBooks(u, l.calls, l.receiver.incoming, l.owner, l.delivered, l.toSender.flying, t);
    }
    BooksKeys(u, l.calls[t := p], l.delivered);
    OpenTruthful(u, l.calls[t := p], l.delivered, t, resp, f);
    RepliesAdd(u, l.calls[t := p], l.delivered, l.toSender.flying, f);
  }

  lemma BooksKeys(u: Setup, calls: map<Call, Progress>, delivered: map<uint64, Result>)
    requires Senders(u.jobs, calls, delivered)
    ensures calls.Keys == u.jobs.Keys
  {}

  lemma HandleOpenKept(u: Setup, l: Link, t: Call, env: Env)
    requires ValidSetup(u) && Inv(u, l) && AtReceiver(u, l, t, OPEN) && EventPossible(u, l, Front(l.toReceiver), env)
    ensures Inv(u, HandleAt(u, l, t, env))
  {
    hide Wires;
    hide TransferRuns.Inv;
    hide Books;
    hide Head;
    hide Open;
    hide Mine;
    hide SizeFits;
    hide Script;
    hide Rest;
    hide TransferRuns.Possible;
    var f := Front(l.toReceiver);
    var p := l.calls[t].(read := l.calls[t].read + 1);
    WiresTake(u, l.calls, l.toReceiver, l.toSender, t, p);
    ScriptAt(u, u.jobs[t], l.calls[t].read);
    var e := TransferRuns.OpenEvent(u.jobs[t].req, env.plan, env.temp);
    assert EventOf(u, f, env) == Some(e);
    TransferRuns.StepKept(u.sha, l.receiver, e);
    var (receiver, resp) := Open(l.receiver, u.jobs[t].req, env.plan, env.temp);
    var reply := ReplyTo(u, f, TransferRuns.Opened(resp));
    AfterOpenBooks(u, l, t, env.plan, env.temp, receiver, resp, reply);
    WiresTake(u, l.calls, l.toReceiver, l.toSender, t, p.(accepted := resp.accepted));
    WiresReply(u, l.calls[t := p.(accepted := resp.accepted)], Rest(l.toReceiver), l.toSender, reply);
  }

  /** A body changes nothing else of the transfers, and one that is received now is the whole content. */
  lemma BodyEffect(s: State, payload: seq<byte>, end: CopyEnd, id: Id, content: seq<byte>)
    requires TransferRuns.Inv(s) && DecodeBody(payload) == Body(id, content)
    requires id in s.incoming && !s.incoming[id].bodyWritten
    ensures var s' := ReceiveBody(s, payload, end).0;
            && id in s'.incoming && s'.incoming == s.incoming[id := s'.incoming[id]]
            && s'.incoming[id].expected == s.incoming[id].expected
            && (s'.incoming[id].bodyWritten ==> s'.incoming[id].hashed == content)
  {
    hide DecodeBody;
    hide TransferRuns.OnlyName;
    assert TransferRuns.EntryOk(s.incoming[id], s.disk);
    assert [] + content == content;
  }

  /** A call whose body is handled owns a transfer under way. */
  lemma InProgress(u: Setup, l: Link, t: Call)
    requires Inv(u, l) && t in l.calls && t in u.jobs && l.calls[t].sent >= 2 && l.calls[t].read < 3
    ensures u.jobs[t].req.transferId in l.receiver.incoming && l.calls[t].accepted
  {
    hide Wires;
    hide TransferRuns.Inv;
    hide Deliveries;
    hide Replies;
    hide Owned;
    hide ResultKnown;
    assert SenderOk(u.jobs[t], l.calls[t], l.delivered);
  }

  lemma NotYetReceived(u: Setup, l: Link, t: Call)
    requires Inv(u, l) && t in l.calls && t in u.jobs && l.calls[t].accepted && l.calls[t].read == 1
    ensures u.jobs[t].req.transferId in l.receiver.incoming
    ensures !l.receiver.incoming[u.jobs[t].req.transferId].bodyWritten
  {
    hide Wires;
    hide TransferRuns.Inv;
    hide Deliveries;
    hide Replies;
    hide Senders;
  }

  lemma AfterBodyBooks(u: Setup, l: Link, t: Call, payload: seq<byte>, end: CopyEnd, receiver: State)
    requires Inv(u, l) && t in l.calls && t in u.jobs && l.calls[t].read == 1 && l.calls[t].sent >= 2
    requires DecodeBody(payload) == Body(u.jobs[t].req.transferId, u.jobs[t].content)
    requires receiver == ReceiveBody(l.receiver, payload, end).0
    ensures Books(u, l.calls[t := l.calls[t].(read := 2)], receiver.incoming,
                  l.owner, l.delivered, l.toSender.flying)
  {
    hide Wires;
    hide TransferRuns.Inv;
    hide Books;
    hide SenderOk;
    hide FlowOf;
    hide DecodeBody;
    hide ReceiveBody;
    Standing(u, l, t);
    InProgress(u, l, t);
    NotYetReceived(u, l, t);
    BodyEffect(l.receiver, payload, end, u.jobs[t].req.transferId, u.jobs[t].content);
    BodyBooks(u, l.calls, l.receiver.incoming, l.owner, l.delivered, l.toSender.flying, t,
              receiver.incoming[u.jobs[t].req.transferId]);
  }

  lemma HandleBodyKept(u: Setup, l: Link, t: Call, env: Env)
    requires ValidSetup(u) && Inv(u, l) && AtReceiver(u, l, t, BODY) && EventPossible(u, l, Front(l.toReceiver), env)
    ensures Inv(u, HandleAt(u, l, t, env))
  {
    hide Wires;
    hide TransferRuns.Inv;
    hide Books;
    hide Head;
    hide ReceiveBody;
    hide DecodeBody;
    hide Mine;
    hide EncodeId;
    hide Script;
    hide Rest;
    hide TransferRuns.Possible;
    var f := Front(l.toReceiver);
    WiresTake(u, l.calls, l.toReceiver, l.toSender, t, l.calls[t].(read := l.calls[t].read + 1));
    ScriptAt(u, u.jobs[t], l.calls[t].read);
    DecodeAfterEncode(u.jobs[t].req.transferId, u.jobs[t].content);
    TransferRuns.StepKept(u.sha, l.receiver, TransferRuns.BodyEvent(f.payload, env.end));
    AfterBodyBooks(u, l, t, f.payload, env.end, ReceiveBody(l.receiver, f.payload, env.end).0);
  }

  lemma AfterCommitBooks(u: Setup, l: Link, t: Call, e: TransferRuns.Event, receiver: State, result: Result, f: Frame)
    requires ValidSetup(u) && Inv(u, l) && t in l.calls && t in u.jobs
    requires l.calls[t].read == 2 && l.calls[t].sent == 3
    requires e.CommitEvent? && e.id == u.jobs[t].req.transferId
    requires (receiver, TransferRuns.Committed(result)) == TransferRuns.Step(u.sha, l.receiver, e)
    ensures result.transferId == e.id && u.jobs[t].commitId !in l.delivered
    ensures var calls' := l.calls[t := l.calls[t].(read := 3)];
            var delivered' := l.delivered[u.jobs[t].commitId := result];
            && Books(u, calls', receiver.incoming, l.owner - {e.id}, delivered', l.toSender.flying)
            && (f == Message(u.jobs[t].commitId, COMMIT_RESPONSE, u.codec.putResult(result)) ==>
                  Books(u, calls', receiver.incoming, l.owner - {e.id}, delivered', l.toSender.flying + [f]))
  {
    hide Wires;
    hide TransferRuns.Inv;
    hide TransferRuns.Step;
    hide Senders;
    hide Entries;
    hide Owners;
    hide Deliveries;
    hide Replies;
    hide Truthful;
    hide SenderOk;
    hide FlowOf;
    hide ValidSetup;
    hide TrueResult;
    Standing(u, l, t);
    InProgress(u, l, t);
    NotYetDelivered(u, l.calls, l.delivered, t);
    CommitAnswers(u, l, t, e);
    CommitBooks(u, l.calls, l.receiver.incoming, l.owner, l.delivered, l.toSender.flying, t, result);
    var calls' := l.calls[t := l.calls[t].(read := 3)];
    var delivered' := l.delivered[u.jobs[t].commitId := result];
    if f == Message(u.jobs[t].commitId, COMMIT_RESPONSE, u.codec.putResult(result)) {
      CommitTruthful(u, calls', delivered', f);
      RepliesAdd(u, calls', delivered', l.toSender.flying, f);
    }
  }

  lemma NotYetDelivered(u: Setup, calls: map<Call, Progress>, delivered: map<uint64, Result>, t: Call)
    requires Deliveries(u, calls, delivered) && t in calls && t in u.jobs && calls[t].read < 3
    ensures u.jobs[t].commitId !in delivered
  {}

  lemma HandleCommitKept(u: Setup, l: Link, t: Call, env: Env)
    requires ValidSetup(u) && Inv(u, l) && AtReceiver(u, l, t, COMMIT) && EventPossible(u, l, Front(l.toReceiver), env)
    ensures Inv(u, HandleAt(u, l, t, env))
  {
    hide Wires;
    hide TransferRuns.Inv;
    hide Books;
    hide Head;
    hide Mine;
    hide SizeFits;
    hide Script;
    hide Rest;
    hide TransferRuns.Possible;
    hide Commit;
    var f := Front(l.toReceiver);
    var p := l.calls[t].(read := l.calls[t].read + 1);
    WiresTake(u, l.calls, l.toReceiver, l.toSender, t, p);
    ScriptAt(u, u.jobs[t], l.calls[t].read);
    var e := TransferRuns.CommitEvent(u.jobs[t].req.transferId, env.renames, env.removes);
    assert EventOf(u, f, env) == Some(e);
    TransferRuns.StepKept(u.sha, l.receiver, e);
    var (receiver, result) := Commit(u.sha, l.receiver, e.id, e.renames, e.removes);
    var reply := ReplyTo(u, f, TransferRuns.Committed(result));
    AfterCommitBooks(u, l, t, e, receiver, result, reply);
    WiresReply(u, l.calls[t := p], Rest(l.toReceiver), l.toSender, reply);
  }

  // ----- steps that are not of any call -----

  lemma OtherToReceiverKept(u: Setup, l: Link, f: Frame)
    requires Inv(u, l) && !TransferType(f.typ)
    ensures Inv(u, l.(toReceiver := Push(l.toReceiver, f)))
  {
    hide Books;
    hide TransferRuns.Inv;
    hide Flow;
    PushFaithful(l.toReceiver, f);
    FlowPushOther(u, l.calls, l.toReceiver.flying, f);
    KnownPush(u.jobs, l.toReceiver.flying, f);
  }

  lemma OtherToSenderKept(u: Setup, l: Link, f: Frame)
    requires Inv(u, l) && !ResponseType(f.typ)
    ensures Inv(u, l.(toSender := Push(l.toSender, f)))
  {
    hide Wires;
    hide TransferRuns.Inv;
    hide Senders;
    hide Entries;
    hide Owners;
    hide Deliveries;
    hide Replies;
    WiresReply(u, l.calls, l.toReceiver, l.toSender, f);
    RepliesAdd(u, l.calls, l.delivered, l.toSender.flying, f);
  }

  lemma HandleOtherKept(u: Setup, l: Link)
    requires Inv(u, l) && CanTake(l.toReceiver) && !TransferType(Front(l.toReceiver).typ)
    ensures Inv(u, l.(toReceiver := Rest(l.toReceiver)))
  {
    hide Books;
    hide TransferRuns.Inv;
    hide Flow;
    hide Head;
    TakeFaithful(l.toReceiver);
    FlowPopOther(u, l.calls, l.toReceiver.flying);
  }

  lemma ServingKept(u: Setup, l: Link, serving: bool)
    requires Inv(u, l)
    ensures Inv(u, l.(serving := serving))
  {
    hide Wires;
    hide TransferRuns.Inv;
    hide Books;
  }

  lemma StepKept(u: Setup, l: Link, s: Step)
    requires ValidSetup(u) && Inv(u, l) && Enabled(u, l, s)
    ensures Inv(u, Apply(u, l, s))
  {
    hide Inv;
    hide ValidSetup;
    hide EventPossible;
    hide AtReceiver;
    hide HandleAt;
    hide Sending;
    hide SizeFits;
    hide Head;
    hide Opening;
    hide Closing;
    match s
    case SendOpen(t) => SendOpenKept(u, l, t);
    case SendBody(t) => SendBodyKept(u, l, t);
    case SendCommit(t) => SendCommitKept(u, l, t);
    case Abandon(t) => AbandonKept(u, l, t);
    case OtherToReceiver(f) => OtherToReceiverKept(u, l, f);
    case OtherToSender(f) => OtherToSenderKept(u, l, f);
    case HandleOpen(t, env) => HandleOpenKept(u, l, t, env);
    case HandleBody(t, env) => HandleBodyKept(u, l, t, env);
    case HandleCommit(t, env) => HandleCommitKept(u, l, t, env);
    case HandleOther => HandleOtherKept(u, l);
    case StopServing => ServingKept(u, l, false);
    case ServeAgain => ServingKept(u, l, true);
    case GetOpenResponse(t) => GetOpenResponseKept(u, l, t);
    case GetCommitResponse(t) => GetCommitResponseKept(u, l, t);
    case GetOther => TakeReply(u, l);
  }

  lemma {:induction false} RunKeepsInv(u: Setup, l: Link, steps: seq<Step>, l': Link)
    requires ValidSetup(u) && Inv(u, l) && Run(u, l, steps, l')
    ensures Inv(u, l')
    decreases |steps|
  {
    hide Inv;
    hide CanStep;
    hide EventPossible;
    hide Apply;
    hide ValidSetup;
    if steps != [] {
      StepKept(u, l, steps[0]);
      RunKeepsInv(u, Apply(u, l, steps[0]), steps[1..], l');
    }
  }

  lemma StartFlow(u: Setup, l: Link)
    requires ValidSetup(u) && Start(u, l)
    ensures Flow(u, l.calls, l.toReceiver.flying)
  {
    forall t | t in l.calls
      ensures FlowOf(u, u.jobs[t], l.calls[t], l.toReceiver.flying)
    {
      assert Script(u, u.jobs[t])[0..0] == [];
    }
  }

  lemma StartInv(u: Setup, l: Link)
    requires ValidSetup(u) && Start(u, l)
    ensures Inv(u, l)
  {
    hide Flow;
    hide ValidSetup;
    StartFlow(u, l);
  }
}
