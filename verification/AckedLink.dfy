/** Acknowledged sending between two messengers, as steps of the sending node, its serve loop, the
    peer's serve loop and the peer's acknowledging goroutines. Frames are written whole: the write
    lock and the absence of failed writes are what modules WireLock and WireChannel account for. A peer's
    handler need not wait for the whole frame, so an acknowledgement may come while it is being written. */
module AckedLink {
  import opened BigEndian
  import opened Frames
  import opened Wrappers
  import opened ByteChannel
  import Acks

  type SendId = nat

  datatype Phase = Idle | Registered | Written | Returned(ok: bool)

  /** One call of the acknowledged send: `attempt` counts from 0, `copies` the frames it has written,
      `skipped` the attempts that ended before writing any byte. */
  datatype Send = Send(frame: Frame, allowed: nat, attempt: nat, phase: Phase, copies: nat, skipped: nat)

  datatype Out = Out(sender: Option<SendId>, frame: Frame)

  /** A handler may finish before its frame has been written whole: then the frame's writer still holds the
      lock, or the rest of the frame is on the wire and is drained. */
  datatype Early = NotEarly | WhileWriting(t: SendId) | ToDrain

  /** `asked`, `wrote`, `handled` and `handledIds` are history: the frames of the sends begun, the frames
      written by the sending node, and the frames the peer's `handleMessage` finished without error.
      `owed` holds the ids of the acknowledging goroutines that have not written yet. */
  datatype Link = Link(
    acks: Acks.State,
    sends: map<SendId, Send>,
    asked: set<Frame>,
    wrote: seq<Out>,
    toPeer: Channel,
    handled: seq<Frame>,
    handledIds: set<uint64>,
    owed: multiset<uint64>,
    peerServing: bool,
    early: Early,
    toSender: Channel)

  const START: Link := Link(Acks.EMPTY, map[], {}, [], EMPTY, [], {}, multiset{}, true, NotEarly, EMPTY)

  /** The sending node's serve loop in its acknowledgement table. */
  const LOOP: Acks.Actor := 0

  datatype Step =
    | Begin(t: SendId, frame: Frame, allowed: nat)
    | StartAttempt(t: SendId)
    | GiveUp(t: SendId)
    | WriteFrame(t: SendId)
    | WriteNothing(t: SendId)
    | SeeAck(t: SendId)
    | TimeOut(t: SendId)
    | Cancel(t: SendId)
    | SenderAcks(id: uint64)
    | PeerReads(ok: bool)
    | PeerReadsEarly(t: SendId, ok: bool)
    | PeerDrains
    | PeerServesAgain
    | PeerAcks(id: uint64)
    | PeerWrites(frame: Frame)
    | SenderReads(claimed: bool)
    | SenderCloses

  function AckFrame(id: uint64): Frame {
    Message(id, ACKNOWLEDGE_TYPE, [])
  }

  predicate InPhase(l: Link, t: SendId, phase: Phase) {
    t in l.sends && l.sends[t].phase == phase
  }

  /** Leaving an attempt runs the deferred clean-up of its registration. */
  predicate MayLeave(l: Link, t: SendId) {
    Acks.Enabled(l.acks, Acks.Unregister(t))
  }

  /** No other send is between the first and the last byte of its frame. */
  predicate Unlocked(l: Link, t: SendId) {
    l.early.WhileWriting? ==> l.early.t == t
  }

  predicate Enabled(l: Link, s: Step) {
    match s
    case Begin(t, f, allowed) => t !in l.sends && f.typ != ACKNOWLEDGE_TYPE && allowed > 0
    case StartAttempt(t) => InPhase(l, t, Idle) && Acks.Enabled(l.acks, Acks.Register(t, l.sends[t].frame.id))
    case GiveUp(t) => InPhase(l, t, Idle) && l.sends[t].attempt > 0
    case WriteFrame(t) => InPhase(l, t, Registered) && Unlocked(l, t)
    case WriteNothing(t) => InPhase(l, t, Registered) && MayLeave(l, t) && l.early != WhileWriting(t)
    case SeeAck(t) =>
      && InPhase(l, t, Written) && MayLeave(l, t)
      && l.acks.attempts[t].ch < |l.acks.table.closes| && l.acks.table.closes[l.acks.attempts[t].ch] > 0
    case TimeOut(t) => InPhase(l, t, Written) && MayLeave(l, t)
    case Cancel(t) => InPhase(l, t, Written) && MayLeave(l, t)
    case SenderAcks(id) => !l.early.WhileWriting?
    case PeerReads(ok) => l.peerServing && l.early == NotEarly && CanTake(l.toPeer)
    case PeerReadsEarly(t, ok) =>
      l.peerServing && l.early == NotEarly && l.toPeer.bytes == [] && InPhase(l, t, Registered)
    case PeerDrains => l.early == ToDrain && CanTake(l.toPeer)
    case PeerServesAgain => l.early == NotEarly
    case PeerAcks(id) => id in l.owed
    case PeerWrites(f) => f.typ != ACKNOWLEDGE_TYPE
    case SenderReads(claimed) => CanTake(l.toSender) && LOOP !in l.acks.holding
    case SenderCloses => Acks.Enabled(l.acks, Acks.Close(LOOP))
  }

  function Leave(l: Link, t: SendId, send: Send): Link
    requires MayLeave(l, t)
  {
    l.(acks := Acks.Apply(l.acks, Acks.Unregister(t)), sends := l.sends[t := send])
  }

  /** The peer's `handleMessage` has finished on a frame; an error ends the peer's serve loop. */
  function Handled(l: Link, f: Frame, ok: bool): Link {
    if ok then
      l.(handled := l.handled + [f], handledIds := l.handledIds + {f.id}, owed := l.owed + multiset{f.id})
    else l.(peerServing := false)
  }

  /** The retry loop after a failed attempt. */
  function Again(send: Send): Send {
    if send.attempt + 1 < send.allowed then send.(attempt := send.attempt + 1, phase := Idle)
    else send.(phase := Returned(false))
  }

  /** A return before the next attempt: the seek back failed, or the context was done after a failed write. The last
      attempt made was the one before. */
  function GivenUp(send: Send): Send
    requires send.attempt > 0
  {
    send.(attempt := send.attempt - 1, phase := Returned(false))
  }

  function Apply(l: Link, s: Step): Link
    requires Enabled(l, s)
  {
    match s
    case Begin(t, f, allowed) => l.(sends := l.sends[t := Send(f, allowed, 0, Idle, 0, 0)], asked := l.asked + {f})
    case StartAttempt(t) =>
      l.(acks := Acks.Apply(l.acks, Acks.Register(t, l.sends[t].frame.id)),
         sends := l.sends[t := l.sends[t].(phase := Registered)])
    case GiveUp(t) => l.(sends := l.sends[t := GivenUp(l.sends[t])])
    case WriteFrame(t) =>
      var send := l.sends[t];
      l.(sends := l.sends[t := send.(phase := Written, copies := send.copies + 1)],
         wrote := l.wrote + [Out(Some(t), send.frame)],
         toPeer := Push(l.toPeer, send.frame),
         early := if l.early == WhileWriting(t) then ToDrain else l.early)
    case WriteNothing(t) => Leave(l, t, Again(l.sends[t].(skipped := l.sends[t].skipped + 1)))
    case SeeAck(t) => Leave(l, t, l.sends[t].(phase := Returned(true)))
    case TimeOut(t) => Leave(l, t, Again(l.sends[t]))
    case Cancel(t) => Leave(l, t, l.sends[t].(phase := Returned(false)))
    case SenderAcks(id) =>
      l.(wrote := l.wrote + [Out(None, AckFrame(id))], toPeer := Push(l.toPeer, AckFrame(id)))
    case PeerReads(ok) =>
      var f := Front(l.toPeer);
      var l' := l.(toPeer := Rest(l.toPeer));
      if f.typ == ACKNOWLEDGE_TYPE then l' else Handled(l', f, ok)
    case PeerReadsEarly(t, ok) => Handled(l, l.sends[t].frame, ok).(early := WhileWriting(t))
    case PeerDrains => l.(toPeer := Rest(l.toPeer), early := NotEarly)
    case PeerServesAgain => l.(peerServing := true)
    case PeerAcks(id) => l.(owed := l.owed - multiset{id}, toSender := Push(l.toSender, AckFrame(id)))
    case PeerWrites(f) => l.(toSender := Push(l.toSender, f))
    case SenderReads(claimed) =>
      var f := Front(l.toSender);
      var l' := l.(toSender := Rest(l.toSender));
      if f.typ == ACKNOWLEDGE_TYPE && !claimed then l'.(acks := Acks.Apply(l.acks, Acks.Take(LOOP, f.id))) else l'
    case SenderCloses => l.(acks := Acks.Apply(l.acks, Acks.Close(LOOP)))
  }

  ghost predicate Run(l: Link, steps: seq<Step>, l': Link)
    decreases |steps|
  {
    if steps == [] then l' == l
    else Enabled(l, steps[0]) && Run(Apply(l, steps[0]), steps[1..], l')
  }

  // ----- what every step keeps -----

  type Sends = map<SendId, Send>

  /** The sends inside an attempt are those with a registration, under their own id. */
  ghost predicate Linked(attempts: map<Acks.Actor, Acks.Registration>, sends: Sends) {
    && (forall t :: t in attempts ==> t in sends && attempts[t].id == sends[t].frame.id)
    && (forall t :: t in sends ==>
          (t in attempts <==> sends[t].phase == Registered || sends[t].phase == Written))
  }

  /** What the peer has handled, or will find on the wire, was asked to be sent or is an acknowledgement. */
  ghost predicate Asked(sends: Sends, asked: set<Frame>, flying: seq<Frame>, handled: seq<Frame>) {
    && (forall t :: t in sends ==> sends[t].frame in asked)
    && (forall f :: f in asked ==> f.typ != ACKNOWLEDGE_TYPE)
    && (forall f :: f in flying && f.typ != ACKNOWLEDGE_TYPE ==> f in asked)
    && (forall f :: f in handled ==> f in asked)
  }

  /** Every acknowledgement owed or under way is for a handled frame's id. */
  ghost predicate Answers(owed: multiset<uint64>, flying: seq<Frame>, handledIds: set<uint64>) {
    && (forall id :: id in owed ==> id in handledIds)
    && (forall f :: f in flying && f.typ == ACKNOWLEDGE_TYPE ==> f.id in handledIds)
  }

  /** Every channel closed, or about to be, was made for a handled frame's id. */
  ghost predicate Resolved(acks: Acks.State, handledIds: set<uint64>) {
    && |acks.ids| == |acks.table.closes|
    && (forall ch :: 0 <= ch < |acks.ids| && acks.table.closes[ch] > 0 ==> acks.ids[ch] in handledIds)
    && (forall r :: r in acks.holding ==> acks.holding[r] < |acks.ids| && acks.ids[acks.holding[r]] in handledIds)
  }

  /** A send that returned successfully has had its id acknowledged. */
  ghost predicate Returns(sends: Sends, handledIds: set<uint64>) {
    forall t :: t in sends && sends[t].phase == Returned(true) ==> sends[t].frame.id in handledIds
  }

  /** The histories are what their names say. */
  ghost predicate History(sends: Sends, asked: set<Frame>, handled: seq<Frame>, handledIds: set<uint64>) {
    && (forall f :: f in asked ==> exists t :: t in sends && sends[t].frame == f)
    && (forall id :: id in handledIds ==> exists f :: f in handled && f.id == id)
  }

  /** How many attempts of a send have ended or written their frame. */
  function AttemptsMade(send: Send): nat {
    send.attempt + (if send.phase == Idle || send.phase == Registered then 0 else 1)
  }

  predicate Counted(send: Send) {
    send.attempt < send.allowed && send.copies + send.skipped == AttemptsMade(send)
  }

  ghost predicate AllCounted(sends: Sends) {
    forall t :: t in sends ==> Counted(sends[t])
  }

  function CountBy(wrote: seq<Out>, t: SendId): nat {
    if wrote == [] then 0
    else CountBy(wrote[..|wrote| - 1], t) + (if wrote[|wrote| - 1].sender == Some(t) then 1 else 0)
  }

  /** The frames written are counted by their senders, and all those of one send are the same. */
  ghost predicate Copies(sends: Sends, wrote: seq<Out>) {
    && (forall t :: CountBy(wrote, t) == if t in sends then sends[t].copies else 0)
    && (forall o :: o in wrote ==>
          match o.sender
          case None => o.frame.typ == ACKNOWLEDGE_TYPE
          case Some(t) => t in sends && o.frame == sends[t].frame)
  }

  ghost predicate Wires(l: Link) {
    Faithful(l.toPeer) && Faithful(l.toSender)
  }

  ghost predicate Books(l: Link) {
    AllCounted(l.sends) && Copies(l.sends, l.wrote)
  }

  ghost predicate Cause(l: Link) {
    && Acks.Named(l.acks)
    && Linked(l.acks.attempts, l.sends)
    && Asked(l.sends, l.asked, l.toPeer.flying, l.handled)
    && Answers(l.owed, l.toSender.flying, l.handledIds)
    && Resolved(l.acks, l.handledIds)
    && Returns(l.sends, l.handledIds)
    && History(l.sends, l.asked, l.handled, l.handledIds)
  }

  // ----- one effect at a time -----

  lemma LinkedSet(attempts: map<Acks.Actor, Acks.Registration>, sends: Sends, t: SendId, send: Send,
                  attempts': map<Acks.Actor, Acks.Registration>)
    requires Linked(attempts, sends) && attempts' - {t} == attempts - {t}
    requires t in attempts' <==> send.phase == Registered || send.phase == Written
    requires t in attempts' ==> attempts'[t].id == send.frame.id
    ensures Linked(attempts', sends[t := send])
  {
    forall u | u != t
      ensures u in attempts' <==> u in attempts
      ensures u in attempts ==> attempts'[u] == attempts[u]
    {
      assert u in attempts' <==> u in attempts' - {t};
      assert u in attempts <==> u in attempts - {t};
    }
  }

  lemma HistorySet(sends: Sends, asked: set<Frame>, handled: seq<Frame>, handledIds: set<uint64>, t: SendId, send: Send)
    requires t in sends ==> send.frame == sends[t].frame
    requires History(sends, asked, handled, handledIds)
    ensures History(sends[t := send], asked + {send.frame}, handled, handledIds)
  {
    var sends' := sends[t := send];
    forall f | f in asked + {send.frame}
      ensures exists u :: u in sends' && sends'[u].frame == f
    {
      if f == send.frame {
        assert sends'[t].frame == f;
      } else {
        var u :| u in sends && sends[u].frame == f;
        assert sends'[u].frame == f;
      }
    }
  }

  lemma HistoryHandled(sends: Sends, asked: set<Frame>, handled: seq<Frame>, handledIds: set<uint64>, f: Frame)
    requires History(sends, asked, handled, handledIds)
    ensures History(sends, asked, handled + [f], handledIds + {f.id})
  {
    forall id | id in handledIds + {f.id}
      ensures exists g :: g in handled + [f] && g.id == id
    {
      if id in handledIds {
        var g :| g in handled && g.id == id;
        assert g in handled + [f];
      } else {
        assert f in handled + [f];
      }
    }
  }

  lemma CopiesSet(sends: Sends, wrote: seq<Out>, t: SendId, send: Send)
    requires Copies(sends, wrote)
    requires if t in sends then send.frame == sends[t].frame && send.copies == sends[t].copies else send.copies == 0
    ensures Copies(sends[t := send], wrote)
  {}

  lemma CopiesWrite(sends: Sends, wrote: seq<Out>, t: SendId)
    requires Copies(sends, wrote) && t in sends
    ensures Copies(sends[t := sends[t].(phase := Written, copies := sends[t].copies + 1)],
                   wrote + [Out(Some(t), sends[t].frame)])
  {
    var wrote' := wrote + [Out(Some(t), sends[t].frame)];
    assert wrote'[..|wrote|] == wrote;
  }

  lemma CopiesAck(sends: Sends, wrote: seq<Out>, id: uint64)
    requires Copies(sends, wrote)
    ensures Copies(sends, wrote + [Out(None, AckFrame(id))])
  {
    assert (wrote + [Out(None, AckFrame(id))])[..|wrote|] == wrote;
  }

  // ----- one step at a time -----

  lemma WiresKept(l: Link, s: Step)
    requires Enabled(l, s) && Wires(l)
    ensures Wires(Apply(l, s))
  {
    match s
    case WriteFrame(t) => PushFaithful(l.toPeer, l.sends[t].frame);
    case SenderAcks(id) => PushFaithful(l.toPeer, AckFrame(id));
    case PeerReads(ok) => TakeFaithful(l.toPeer);
    case PeerDrains => TakeFaithful(l.toPeer);
    case PeerAcks(id) => PushFaithful(l.toSender, AckFrame(id));
    case PeerWrites(f) => PushFaithful(l.toSender, f);
    case SenderReads(claimed) => TakeFaithful(l.toSender);
    case _ =>
  }

  lemma CopiesKept(l: Link, s: Step)
    requires Enabled(l, s) && Copies(l.sends, l.wrote)
    ensures Copies(Apply(l, s).sends, Apply(l, s).wrote)
  {
    hide Copies;
    hide Binary;
    hide Head;
    match s
    case Begin(t, f, allowed) => CopiesSet(l.sends, l.wrote, t, Send(f, allowed, 0, Idle, 0, 0));
    case StartAttempt(t) => CopiesSet(l.sends, l.wrote, t, l.sends[t].(phase := Registered));
    case GiveUp(t) => CopiesSet(l.sends, l.wrote, t, GivenUp(l.sends[t]));
    case WriteFrame(t) => CopiesWrite(l.sends, l.wrote, t);
    case WriteNothing(t) => CopiesSet(l.sends, l.wrote, t, Again(l.sends[t].(skipped := l.sends[t].skipped + 1)));
    case SeeAck(t) => CopiesSet(l.sends, l.wrote, t, l.sends[t].(phase := Returned(true)));
    case TimeOut(t) => CopiesSet(l.sends, l.wrote, t, Again(l.sends[t]));
    case Cancel(t) => CopiesSet(l.sends, l.wrote, t, l.sends[t].(phase := Returned(false)));
    case SenderAcks(id) => CopiesAck(l.sends, l.wrote, id);
    case _ =>
  }

  lemma CountedKept(l: Link, s: Step)
    requires Enabled(l, s) && AllCounted(l.sends)
    ensures AllCounted(Apply(l, s).sends)
  {
    hide Binary;
    hide Head;
  }

  lemma BeginKept(l: Link, t: SendId, f: Frame, allowed: nat)
    requires Cause(l) && Enabled(l, Begin(t, f, allowed))
    ensures Cause(Apply(l, Begin(t, f, allowed)))
  {
    hide History;
    hide Acks.Named;
    hide Answers;
    hide Resolved;
    var send := Send(f, allowed, 0, Idle, 0, 0);
    LinkedSet(l.acks.attempts, l.sends, t, send, l.acks.attempts);
    HistorySet(l.sends, l.asked, l.handled, l.handledIds, t, send);
  }

  lemma StartKept(l: Link, t: SendId)
    requires Cause(l) && Enabled(l, StartAttempt(t))
    ensures Cause(Apply(l, StartAttempt(t)))
  {
    hide History;
    hide Linked;
    hide Acks.Named;
    var send := l.sends[t].(phase := Registered);
    var step := Acks.Register(t, send.frame.id);
    Acks.NamedKept(l.acks, step);
    LinkedSet(l.acks.attempts, l.sends, t, send, Acks.Apply(l.acks, step).attempts);
    HistorySet(l.sends, l.asked, l.handled, l.handledIds, t, send);
    assert l.asked + {send.frame} == l.asked;
  }

  lemma GiveUpKept(l: Link, t: SendId)
    requires Cause(l) && Enabled(l, GiveUp(t))
    ensures Cause(Apply(l, GiveUp(t)))
  {
    hide History;
    hide Acks.Named;
    hide Answers;
    hide Resolved;
    var send := GivenUp(l.sends[t]);
    LinkedSet(l.acks.attempts, l.sends, t, send, l.acks.attempts);
    HistorySet(l.sends, l.asked, l.handled, l.handledIds, t, send);
    assert l.asked + {send.frame} == l.asked;
  }

  lemma WriteKept(l: Link, t: SendId)
    requires Cause(l) && Enabled(l, WriteFrame(t))
    ensures Cause(Apply(l, WriteFrame(t)))
  {
    hide Acks.Named;
    hide Answers;
    hide Resolved;
    hide History;
    hide Binary;
    var send := l.sends[t].(phase := Written, copies := l.sends[t].copies + 1);
    LinkedSet(l.acks.attempts, l.sends, t, send, l.acks.attempts);
    HistorySet(l.sends, l.asked, l.handled, l.handledIds, t, send);
    assert l.asked + {send.frame} == l.asked;
  }

  /** Any way out of an attempt, to the next one or out of the call. */
  lemma LeaveKept(l: Link, t: SendId, send: Send)
    requires Cause(l) && t in l.sends && MayLeave(l, t)
    requires send.frame == l.sends[t].frame && (send.phase == Idle || send.phase.Returned?)
    requires send.phase == Returned(true) ==> send.frame.id in l.handledIds
    ensures Cause(Leave(l, t, send))
  {
    hide History;
    hide Linked;
    Acks.NamedKept(l.acks, Acks.Unregister(t));
    LinkedSet(l.acks.attempts, l.sends, t, send, Acks.Apply(l.acks, Acks.Unregister(t)).attempts);
    HistorySet(l.sends, l.asked, l.handled, l.handledIds, t, send);
    assert l.asked + {send.frame} == l.asked;
  }

  lemma SeeAckKept(l: Link, t: SendId)
    requires Cause(l) && Enabled(l, SeeAck(t))
    ensures Cause(Apply(l, SeeAck(t)))
  {
    assert l.acks.ids[l.acks.attempts[t].ch] == l.sends[t].frame.id;
    LeaveKept(l, t, l.sends[t].(phase := Returned(true)));
  }

  lemma HandledKept(l: Link, f: Frame, ok: bool)
    requires Cause(l) && f in l.asked
    ensures Cause(Handled(l, f, ok))
  {
    hide Linked;
    hide History;
    hide Acks.Named;
    HistoryHandled(l.sends, l.asked, l.handled, l.handledIds, f);
  }

  lemma PeerReadsEarlyKept(l: Link, t: SendId, ok: bool)
    requires Cause(l) && Enabled(l, PeerReadsEarly(t, ok))
    ensures Cause(Apply(l, PeerReadsEarly(t, ok)))
  {
    hide Linked;
    hide History;
    hide Acks.Named;
    hide Answers;
    hide Resolved;
    hide Returns;
    HandledKept(l, l.sends[t].frame, ok);
  }

  /** Whether a frame is being drained plays no part. */
  lemma EarlyKept(l: Link, early: Early)
    requires Cause(l)
    ensures Cause(l.(early := early))
  {
    hide Linked;
    hide History;
    hide Acks.Named;
    hide Answers;
    hide Resolved;
    hide Returns;
    hide Asked;
  }

  lemma PeerDrainsKept(l: Link)
    requires Wires(l) && Cause(l) && Enabled(l, PeerDrains)
    ensures Cause(Apply(l, PeerDrains))
  {
    hide Head;
    hide Cause;
    hide Wires;
    TakenKept(l);
    EarlyKept(l.(toPeer := Rest(l.toPeer)), NotEarly);
  }

  lemma PeerServesAgainKept(l: Link)
    requires Cause(l)
    ensures Cause(l.(peerServing := true))
  {
    hide Linked;
    hide History;
    hide Acks.Named;
    hide Answers;
    hide Resolved;
    hide Returns;
    hide Asked;
  }

  /** The peer takes the frame at the front. */
  lemma TakenKept(l: Link)
    requires Wires(l) && Cause(l) && CanTake(l.toPeer)
    ensures Cause(l.(toPeer := Rest(l.toPeer)))
    ensures Front(l.toPeer).typ != ACKNOWLEDGE_TYPE ==> Front(l.toPeer) in l.asked
  {
    hide Head;
    hide Linked;
    hide History;
    hide Acks.Named;
    hide Answers;
    hide Resolved;
    hide Returns;
    TakeFaithful(l.toPeer);
    assert Front(l.toPeer) in l.toPeer.flying;
  }

  lemma PeerReadsKept(l: Link, ok: bool)
    requires Wires(l) && Cause(l) && Enabled(l, PeerReads(ok))
    ensures Cause(Apply(l, PeerReads(ok)))
  {
    hide Head;
    hide Cause;
    hide Wires;
    hide Handled;
    TakenKept(l);
    var l' := l.(toPeer := Rest(l.toPeer));
    if Front(l.toPeer).typ != ACKNOWLEDGE_TYPE {
      HandledKept(l', Front(l.toPeer), ok);
    }
  }

  lemma OwnAckKept(l: Link, id: uint64)
    requires Cause(l) && Enabled(l, SenderAcks(id))
    ensures Cause(Apply(l, SenderAcks(id)))
  {}

  lemma PeerSendsKept(l: Link, s: Step)
    requires Cause(l) && Enabled(l, s) && (s.PeerAcks? || s.PeerWrites?)
    ensures Cause(Apply(l, s))
  {
    hide History;
    hide Linked;
    hide Acks.Named;
    hide Asked;
    hide Resolved;
    hide Returns;
    hide Binary;
  }

  /** The front of the sender's stream, if it acknowledges anything, acknowledges a handled frame's id. */
  lemma AnswersTake(l: Link)
    requires Faithful(l.toSender) && CanTake(l.toSender) && Answers(l.owed, l.toSender.flying, l.handledIds)
    ensures Front(l.toSender).typ == ACKNOWLEDGE_TYPE ==> Front(l.toSender).id in l.handledIds
    ensures Answers(l.owed, Rest(l.toSender).flying, l.handledIds)
  {
    hide Head;
    TakeFaithful(l.toSender);
  }

  lemma ResolvedTake(acks: Acks.State, handledIds: set<uint64>, id: uint64)
    requires Acks.Named(acks) && Resolved(acks, handledIds) && id in handledIds && LOOP !in acks.holding
    requires Acks.Enabled(acks, Acks.Take(LOOP, id))
    ensures Resolved(Acks.Apply(acks, Acks.Take(LOOP, id)), handledIds)
  {}

  lemma SenderReadsKept(l: Link, claimed: bool)
    requires Wires(l) && Cause(l) && Enabled(l, SenderReads(claimed))
    ensures Cause(Apply(l, SenderReads(claimed)))
  {
    hide Head;
    hide Linked;
    hide History;
    hide Asked;
    hide Returns;
    hide Answers;
    hide Resolved;
    hide Acks.Named;
    AnswersTake(l);
    var f := Front(l.toSender);
    if f.typ == ACKNOWLEDGE_TYPE && !claimed {
      ResolvedTake(l.acks, l.handledIds, f.id);
      Acks.NamedKept(l.acks, Acks.Take(LOOP, f.id));
    }
  }

  lemma SenderClosesKept(l: Link)
    requires Cause(l) && Enabled(l, SenderCloses)
    ensures Cause(Apply(l, SenderCloses))
  {
    hide Linked;
    hide History;
    hide Asked;
    hide Answers;
    hide Returns;
    Acks.NamedKept(l.acks, Acks.Close(LOOP));
  }

  lemma CauseKept(l: Link, s: Step)
    requires Wires(l) && Cause(l) && Enabled(l, s)
    ensures Cause(Apply(l, s))
  {
    hide Cause;
    hide Wires;
    match s
    case Begin(t, f, allowed) => BeginKept(l, t, f, allowed);
    case StartAttempt(t) => StartKept(l, t);
    case GiveUp(t) => GiveUpKept(l, t);
    case WriteFrame(t) => WriteKept(l, t);
    case WriteNothing(t) => LeaveKept(l, t, Again(l.sends[t].(skipped := l.sends[t].skipped + 1)));
    case SeeAck(t) => SeeAckKept(l, t);
    case TimeOut(t) => LeaveKept(l, t, Again(l.sends[t]));
    case Cancel(t) => LeaveKept(l, t, l.sends[t].(phase := Returned(false)));
    case SenderAcks(id) => OwnAckKept(l, id);
    case PeerReads(ok) => PeerReadsKept(l, ok);
    case PeerReadsEarly(t, ok) => PeerReadsEarlyKept(l, t, ok);
    case PeerDrains => PeerDrainsKept(l);
    case PeerServesAgain => PeerServesAgainKept(l);
    case PeerAcks(id) => PeerSendsKept(l, s);
    case PeerWrites(f) => PeerSendsKept(l, s);
    case SenderReads(claimed) => SenderReadsKept(l, claimed);
    case SenderCloses => SenderClosesKept(l);
  }

  ghost predicate Inv(l: Link) {
    Wires(l) && Books(l) && Cause(l)
  }

  lemma {:induction false} RunKeepsInv(l: Link, steps: seq<Step>, l': Link)
    requires Run(l, steps, l') && Inv(l)
    ensures Inv(l')
    decreases |steps|
  {
    if steps != [] {
      WiresKept(l, steps[0]);
      CopiesKept(l, steps[0]);
      CountedKept(l, steps[0]);
      CauseKept(l, steps[0]);
      RunKeepsInv(Apply(l, steps[0]), steps[1..], l');
    }
  }

  lemma StartInv()
    ensures Inv(START)
  {}

  // ----- what acknowledged sending means -----

  /** A send that returned without error was handled: the peer's `handleMessage` finished without error on
      a frame with its id that this node sent, and on exactly its frame when no other send has its id. */
  lemma AcknowledgedMeansHandled(steps: seq<Step>, l: Link, t: SendId)
    requires Run(START, steps, l) && InPhase(l, t, Returned(true))
    ensures exists f :: f in l.handled && f.id == l.sends[t].frame.id && f.typ != ACKNOWLEDGE_TYPE
                     && exists u :: u in l.sends && l.sends[u].frame == f
    ensures (forall u :: u in l.sends && u != t ==> l.sends[u].frame.id != l.sends[t].frame.id) ==>
              l.sends[t].frame in l.handled
  {
    StartInv();
    RunKeepsInv(START, steps, l);
    var f :| f in l.handled && f.id == l.sends[t].frame.id;
    var u :| u in l.sends && l.sends[u].frame == f;
  }

  /** The frames a send has put on the wire are identical copies, at most one for every attempt it may
      make, and exactly one for every attempt made when no attempt ended before writing. */
  lemma IdenticalCopies(steps: seq<Step>, l: Link, t: SendId)
    requires Run(START, steps, l) && t in l.sends
    ensures forall o :: o in l.wrote && o.sender == Some(t) ==> o.frame == l.sends[t].frame
    ensures CountBy(l.wrote, t) <= l.sends[t].allowed
    ensures CountBy(l.wrote, t) + l.sends[t].skipped == AttemptsMade(l.sends[t])
  {
    StartInv();
    RunKeepsInv(START, steps, l);
  }

  // ----- sends go through -----

  /** In every run, a send that has not returned can take a step of its own: an attempt can start, its write can begin
      or fail unless the lock is held for another frame, and a wait can be answered once its channel is closed, or end
      without. */
  lemma NoSendIsStuck(steps: seq<Step>, l: Link, t: SendId)
    requires Run(START, steps, l) && t in l.sends
    ensures match l.sends[t].phase
            case Idle => Enabled(l, StartAttempt(t)) && (l.sends[t].attempt > 0 ==> Enabled(l, GiveUp(t)))
            case Registered =>
              && (Unlocked(l, t) ==> Enabled(l, WriteFrame(t)))
              && (l.early != WhileWriting(t) ==> Enabled(l, WriteNothing(t)))
            case Written =>
              && Enabled(l, TimeOut(t)) && Enabled(l, Cancel(t))
              && (Enabled(l, SeeAck(t)) <==> Closed(l, t))
            case Returned(_) => !Enabled(l, StartAttempt(t)) && !Enabled(l, GiveUp(t))
  {
    hide Run;
    hide Wires;
    hide Copies;
    hide Asked;
    hide Answers;
    hide History;
    hide Returns;
    hide AllCounted;
    StartInv();
    RunKeepsInv(START, steps, l);
  }

  /** The channel of the send's attempt is closed. */
  predicate Closed(l: Link, t: SendId) {
    && t in l.acks.attempts && l.acks.attempts[t].ch < |l.acks.table.closes|
    && l.acks.table.closes[l.acks.attempts[t].ch] > 0
  }

  /** What each way for an attempt to fail makes of the send. */
  lemma FailedAttempts(l: Link, t: SendId)
    requires t in l.sends
    ensures Enabled(l, TimeOut(t)) ==>
              var send, now := l.sends[t], Apply(l, TimeOut(t)).sends[t];
              now == if send.attempt + 1 < send.allowed
                     then send.(attempt := send.attempt + 1, phase := Idle) else send.(phase := Returned(false))
    ensures Enabled(l, WriteNothing(t)) ==>
              var send, now := l.sends[t], Apply(l, WriteNothing(t)).sends[t];
              now == if send.attempt + 1 < send.allowed
                     then send.(attempt := send.attempt + 1, phase := Idle, skipped := send.skipped + 1)
                     else send.(phase := Returned(false), skipped := send.skipped + 1)
    ensures Enabled(l, Cancel(t)) ==> Apply(l, Cancel(t)).sends[t] == l.sends[t].(phase := Returned(false))
    ensures Enabled(l, GiveUp(t)) ==> Apply(l, GiveUp(t)).sends[t].phase == Returned(false)
  {}

  /** Nothing is on the wires, and nobody is in the middle of anything. */
  predicate Quiet(l: Link) {
    l.toPeer.bytes == [] && l.toSender.bytes == [] && LOOP !in l.acks.holding && l.peerServing && l.early == NotEarly
  }

  /** A send has gone through, and nothing else has happened to the sends and the wires. */
  ghost predicate WentThrough(l: Link, t: SendId, f: Frame, allowed: nat, l': Link) {
    && Quiet(l') && l'.sends == l.sends[t := Send(f, allowed, 0, Returned(true), 1, 0)]
    && l'.handled == l.handled + [f] && l'.wrote == l.wrote + [Out(Some(t), f)] && l'.owed == l.owed
    && l'.acks.attempts == l.acks.attempts && l'.acks.holding == l.acks.holding
    && l'.acks.table.pending == l.acks.table.pending - {f.id}
  }

  ghost predicate Next(l: Link, s: Step, l': Link) {
    Enabled(l, s) && l' == Apply(l, s)
  }

  /** Each state leads to the next one by the step between them. */
  ghost predicate Path(states: seq<Link>, steps: seq<Step>) {
    && |states| == |steps| + 1
    && forall i :: 0 <= i < |steps| ==> Next(states[i], steps[i], states[i + 1])
  }

  lemma {:induction false} PathRuns(states: seq<Link>, steps: seq<Step>)
    requires Path(states, steps)
    ensures Run(states[0], steps, states[|steps|])
    decreases |steps|
  {
    hide Enabled;
    hide Apply;
    if steps != [] {
      assert Next(states[0], steps[0], states[1]);
      PathRuns(states[1..], steps[1..]);
    }
  }

  lemma Takes(c: Channel, f: Frame)
    requires c.bytes == []
    ensures CanTake(Push(c, f)) && Front(Push(c, f)) == f && Rest(Push(c, f)).bytes == []
  {
    assert c.bytes + Binary(f) == Binary(f) + [];
    HeadOfFrame(f, []);
  }

  /** The first attempt of a send has begun and waits to write. */
  ghost predicate Begun(l: Link, t: SendId, f: Frame, allowed: nat, l': Link) {
    && l'.sends == l.sends[t := Send(f, allowed, 0, Registered, 0, 0)] && Quiet(l')
    && l'.handled == l.handled && l'.wrote == l.wrote && l'.owed == l.owed
    && t !in l.acks.attempts && l'.acks == Acks.Apply(l.acks, Acks.Register(t, f.id))
  }

  lemma Begins(l: Link, t: SendId, f: Frame, allowed: nat) returns (l1: Link, l2: Link)
    requires Quiet(l) && t !in l.sends && t !in l.acks.attempts && f.typ != ACKNOWLEDGE_TYPE && allowed > 0
    ensures Next(l, Begin(t, f, allowed), l1) && Next(l1, StartAttempt(t), l2) && Begun(l, t, f, allowed, l2)
  {
    l1 := Apply(l, Begin(t, f, allowed));
    l2 := Apply(l1, StartAttempt(t));
  }

  /** The peer's acknowledgement reaches the waiting attempt. */
  lemma AckReaches(l: Link, id: uint64) returns (l1: Link, l2: Link, l3: Link)
    requires id in l.owed && l.toSender.bytes == [] && LOOP !in l.acks.holding
    requires id in l.acks.table.pending && l.acks.table.pending[id] < |l.acks.table.closes|
    ensures Next(l, PeerAcks(id), l1) && Next(l1, SenderReads(false), l2) && Next(l2, SenderCloses, l3)
    ensures l3.acks.attempts == l.acks.attempts && l3.acks.holding == l.acks.holding
    ensures l3.acks.table.pending == l.acks.table.pending - {id}
    ensures l3.acks.table.closes == var ch := l.acks.table.pending[id];
                                    l.acks.table.closes[ch := l.acks.table.closes[ch] + 1]
    ensures l3 == l.(acks := l3.acks, owed := l.owed - multiset{id}, toSender := l3.toSender)
    ensures l3.toSender.bytes == []
  {
    hide Acks.Apply;
    hide Acks.Enabled;
    hide Next;
    hide CanTake;
    hide Front;
    hide Rest;
    hide Push;
    Acks.ResolvesOnce(l.acks, LOOP, id);
    Takes(l.toSender, AckFrame(id));
    l1 := AckSent(l, id);
    l2 := AckRead(l1, id);
    l3 := LoopCloses(l2);
  }

  lemma AckSent(l: Link, id: uint64) returns (l1: Link)
    requires id in l.owed
    ensures Next(l, PeerAcks(id), l1)
    ensures l1 == l.(owed := l.owed - multiset{id}, toSender := Push(l.toSender, AckFrame(id)))
  {
    hide Push;
    l1 := Apply(l, PeerAcks(id));
  }

  lemma AckRead(l: Link, id: uint64) returns (l1: Link)
    requires LOOP !in l.acks.holding && CanTake(l.toSender) && Front(l.toSender) == AckFrame(id)
    ensures Acks.Enabled(l.acks, Acks.Take(LOOP, id)) && Next(l, SenderReads(false), l1)
    ensures l1 == l.(toSender := Rest(l.toSender), acks := Acks.Apply(l.acks, Acks.Take(LOOP, id)))
  {
    hide CanTake;
    hide Front;
    hide Rest;
    hide Acks.Apply;
    l1 := Apply(l, SenderReads(false));
  }

  lemma LoopCloses(l: Link) returns (l1: Link)
    requires Acks.Enabled(l.acks, Acks.Close(LOOP))
    ensures Next(l, SenderCloses, l1) && l1 == l.(acks := Acks.Apply(l.acks, Acks.Close(LOOP)))
  {
    hide Acks.Enabled;
    hide Acks.Apply;
    l1 := Apply(l, SenderCloses);
  }

  lemma Handles(l: Link, l2: Link, t: SendId, f: Frame, allowed: nat) returns (l3: Link, l4: Link)
    requires Quiet(l) && t !in l.sends && f.typ != ACKNOWLEDGE_TYPE && Begun(l, t, f, allowed, l2)
    ensures Next(l2, WriteFrame(t), l3) && Next(l3, PeerReads(true), l4)
    ensures l4 == l2.(sends := l.sends[t := Send(f, allowed, 0, Written, 1, 0)], wrote := l.wrote + [Out(Some(t), f)],
                      toPeer := l4.toPeer, handled := l.handled + [f], handledIds := l2.handledIds + {f.id},
                      owed := l.owed + multiset{f.id})
    ensures l4.toPeer.bytes == []
  {
    Takes(l2.toPeer, f);
    l3 := Apply(l2, WriteFrame(t));
    l4 := Apply(l3, PeerReads(true));
  }

  lemma Sees(l: Link, l7: Link, t: SendId, f: Frame, allowed: nat) returns (l8: Link)
    requires Quiet(l) && t !in l.sends && t !in l.acks.attempts && l.early == NotEarly
    requires Quiet(l7) && l7.sends == l.sends[t := Send(f, allowed, 0, Written, 1, 0)]
    requires l7.handled == l.handled + [f] && l7.wrote == l.wrote + [Out(Some(t), f)] && l7.owed == l.owed
    requires l7.acks.attempts == l.acks.attempts[t := Acks.Registration(f.id, |l.acks.table.closes|)]
    requires l7.acks.holding == l.acks.holding && l7.acks.table.pending == l.acks.table.pending - {f.id}
    requires l7.acks.table.closes == l.acks.table.closes + [1]
    ensures Next(l7, SeeAck(t), l8) && WentThrough(l, t, f, allowed, l8)
  {
    l8 := Apply(l7, SeeAck(t));
    assert l8.acks.attempts == l.acks.attempts;
  }

  /** The steps of a send whose first attempt is acknowledged. */
  function GoesThrough(t: SendId, f: Frame, allowed: nat): seq<Step> {
    [Begin(t, f, allowed), StartAttempt(t), WriteFrame(t), PeerReads(true), PeerAcks(f.id), SenderReads(false),
     SenderCloses, SeeAck(t)]
  }

  /** Whatever has happened before, once the wires are quiet a new send goes through: the peer handles its frame and
      its first attempt is acknowledged. */
  lemma SendGoesThrough(l: Link, t: SendId, f: Frame, allowed: nat)
    requires Quiet(l) && t !in l.sends && t !in l.acks.attempts && f.typ != ACKNOWLEDGE_TYPE && allowed > 0
    ensures exists l' :: Run(l, GoesThrough(t, f, allowed), l') && WentThrough(l, t, f, allowed, l')
  {
    hide Run;
    hide Next;
    hide WentThrough;
    hide Apply;
    hide Enabled;
    var l1, l2 := Begins(l, t, f, allowed);
    var l3, l4 := Handles(l, l2, t, f, allowed);
    var l5, l6, l7 := AckReaches(l4, f.id);
    assert l4.acks.table.closes[|l.acks.table.closes| := 1] == l.acks.table.closes + [1];
    assert l7.acks.table.pending == l.acks.table.pending - {f.id};
    assert l7.owed == l.owed;
    var l8 := Sees(l, l7, t, f, allowed);
    PathRuns([l, l1, l2, l3, l4, l5, l6, l7, l8], GoesThrough(t, f, allowed));
  }

  /** The steps of a send whose frame the peer handles and acknowledges before it has been written whole. */
  function GoesThroughEarly(t: SendId, f: Frame, allowed: nat): seq<Step> {
    [Begin(t, f, allowed), StartAttempt(t), PeerReadsEarly(t, true), PeerAcks(f.id), SenderReads(false), SenderCloses,
     WriteFrame(t), PeerDrains, SeeAck(t)]
  }

  lemma HandlesEarly(l: Link, l2: Link, t: SendId, f: Frame, allowed: nat) returns (l3: Link)
    requires Quiet(l) && t !in l.sends && f.typ != ACKNOWLEDGE_TYPE && Begun(l, t, f, allowed, l2)
    ensures Next(l2, PeerReadsEarly(t, true), l3)
    ensures l3 == l2.(handled := l.handled + [f], handledIds := l2.handledIds + {f.id},
                      owed := l.owed + multiset{f.id}, early := WhileWriting(t))
  {
    l3 := Apply(l2, PeerReadsEarly(t, true));
  }

  lemma WritesAndDrains(l: Link, l6: Link, t: SendId, f: Frame, allowed: nat) returns (l7: Link, l8: Link)
    requires t !in l.sends && l6.sends == l.sends[t := Send(f, allowed, 0, Registered, 0, 0)]
    requires l6.early == WhileWriting(t) && l6.toPeer.bytes == [] && l6.wrote == l.wrote
    ensures Next(l6, WriteFrame(t), l7) && Next(l7, PeerDrains, l8)
    ensures l8 == l6.(sends := l.sends[t := Send(f, allowed, 0, Written, 1, 0)], wrote := l.wrote + [Out(Some(t), f)],
                      toPeer := l8.toPeer, early := NotEarly)
    ensures l8.toPeer.bytes == []
  {
    Takes(l6.toPeer, f);
    l7 := Apply(l6, WriteFrame(t));
    l8 := Apply(l7, PeerDrains);
  }

  /** A new send goes through in the same way when the acknowledgement comes before the frame is whole. */
  lemma SendGoesThroughEarly(l: Link, t: SendId, f: Frame, allowed: nat)
    requires Quiet(l) && t !in l.sends && t !in l.acks.attempts && f.typ != ACKNOWLEDGE_TYPE && allowed > 0
    ensures exists l' :: Run(l, GoesThroughEarly(t, f, allowed), l') && WentThrough(l, t, f, allowed, l')
  {
    hide Run;
    hide Next;
    hide WentThrough;
    hide Apply;
    hide Enabled;
    var id := f.id;
    var l1, l2 := Begins(l, t, f, allowed);
    var l3 := HandlesEarly(l, l2, t, f, allowed);
    var l4, l5, l6 := AckReaches(l3, id);
    assert l3.acks.table.closes[|l.acks.table.closes| := 1] == l.acks.table.closes + [1];
    assert l6.acks.table.pending == l.acks.table.pending - {id};
    assert l6.owed == l.owed;
    var l7, l8 := WritesAndDrains(l, l6, t, f, allowed);
    var l9 := Sees(l, l8, t, f, allowed);
    PathRuns([l, l1, l2, l3, l4, l5, l6, l7, l8, l9], GoesThroughEarly(t, f, allowed));
  }

  /** A handler that fails ends the peer's serve loop without an acknowledgement, and the loop may serve again. A loop
      that has read a frame of the sender's own acknowledgements goes on. */
  lemma PeerFails(l: Link, f: Frame)
    requires l.peerServing && l.early == NotEarly && l.toPeer.bytes == []
    ensures var l1 := l.(toPeer := Push(l.toPeer, f));
            && Enabled(l1, PeerReads(false))
            && var l2 := Apply(l1, PeerReads(false));
               && l2.toPeer.bytes == [] && l2.handled == l.handled && l2.owed == l.owed
               && (l2.peerServing <==> f.typ == ACKNOWLEDGE_TYPE)
               && (forall ok :: !l2.peerServing ==> !Enabled(l2, PeerReads(ok)))
               && Enabled(l2, PeerServesAgain) && Apply(l2, PeerServesAgain) == l2.(peerServing := true)
  {
    Takes(l.toPeer, f);
  }

  /** The sending node's own acknowledgements pass the peer without reaching a handler or being answered. */
  lemma OwnAcksPass(l: Link, id: uint64, ok: bool)
    requires l.peerServing && l.early == NotEarly && l.toPeer.bytes == []
    ensures Enabled(l, SenderAcks(id))
    ensures var l1 := Apply(l, SenderAcks(id));
            && Enabled(l1, PeerReads(ok))
            && var l2 := Apply(l1, PeerReads(ok));
               l2 == l.(wrote := l.wrote + [Out(None, AckFrame(id))], toPeer := l2.toPeer) && l2.toPeer.bytes == []
  {
    Takes(l.toPeer, AckFrame(id));
  }
}
