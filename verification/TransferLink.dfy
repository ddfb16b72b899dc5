/** Sending files from one node to another over a byte channel in each direction: any number of `SendFile`
    calls, the receiver's serve loop with its three handlers, and the sender's serve loop. */
module TransferLink {
  import opened BigEndian
  import opened Wrappers
  import opened Frames
  import opened ByteChannel
  import opened TransferBody
  import opened TransferReceiver
  import opened TransferRuns

  const OPEN: uint32 := 0xFFFF_0001
  const BODY: uint32 := 0xFFFF_0002
  const COMMIT: uint32 := 0xFFFF_0003
  const OPEN_RESPONSE: uint32 := OPEN + 100
  const COMMIT_RESPONSE: uint32 := COMMIT + 100

  predicate TransferType(typ: uint32) {
    typ == OPEN || typ == BODY || typ == COMMIT
  }

  predicate ResponseType(typ: uint32) {
    typ == OPEN_RESPONSE || typ == COMMIT_RESPONSE
  }

  /** The payload codec; that decoding undoes encoding is assumed of it. */
  datatype Codec = Codec(
    putRequest: Request -> seq<byte>, getRequest: seq<byte> -> Option<Request>,
    putResponse: Response -> seq<byte>, getResponse: seq<byte> -> Option<Response>,
    putCommit: Id -> seq<byte>, getCommit: seq<byte> -> Option<Id>,
    putResult: Result -> seq<byte>, getResult: seq<byte> -> Option<Result>)

  ghost predicate Inverse(c: Codec) {
    && (forall r :: c.getRequest(c.putRequest(r)) == Some(r))
    && (forall r :: c.getResponse(c.putResponse(r)) == Some(r))
    && (forall i :: c.getCommit(c.putCommit(i)) == Some(i))
    && (forall r :: c.getResult(c.putResult(r)) == Some(r))
  }

  type Call = nat

  /** One `SendFile` call: the file's bytes, the request it sends, and the fresh ids of its messages. */
  datatype Job = Job(content: seq<byte>, req: Request, openId: uint64, bodyId: uint64, commitId: uint64)

  /** A messenger's size limits, header included for what it sends and not for what it receives; 0 means none. */
  datatype Limits = Limits(sends: nat, receives: nat)

  datatype Setup = Setup(jobs: map<Call, Job>, codec: Codec, sha: Digest, sender: Limits, receiver: Limits)

  /** What `SendFile` fills in and checks before it sends anything. */
  function Prepare(sha: Digest, asked: Request, content: seq<byte>, baseName: string, newId: Id): Option<Request> {
    if |content| > MAX_UINT32 then None
    else
      var req := Request(
        if asked.transferId == [] then newId else asked.transferId,
        if asked.name == "" then baseName else asked.name,
        asked.destination,
        |content|,
        if asked.sha256 == "" then sha(content) else asked.sha256);
      match EncodeId(req.transferId)
      case NotEncoded(_) => None
      case Prefix(bytes) => if |bytes| + |content| > MAX_UINT32 then None else Some(req)
  }

  /** A request that passes is one whose body, with its id in front, fits its frame; what was given is kept, and a
      missing id, name or digest is filled in. */
  lemma PreparedFits(sha: Digest, asked: Request, content: seq<byte>, baseName: string, newId: Id)
    ensures var r := Prepare(sha, asked, content, baseName, newId);
            var id := if asked.transferId == [] then newId else asked.transferId;
            && (r.Some? <==> 0 < |id| <= 0xFFFF && 2 + |id| + |content| < 0x1_0000_0000)
            && (r.Some? <==> SizeFits(id, |content|))
            && (r.Some? ==>
                  && r.value.size == |content| && r.value.destination == asked.destination
                  && r.value.transferId == id
                  && r.value.name == (if asked.name != "" then asked.name else baseName)
                  && r.value.sha256 == (if asked.sha256 != "" then asked.sha256 else sha(content)))
  {}

  ghost predicate ValidSetup(u: Setup) {
    && Inverse(u.codec)
    && (forall t :: t in u.jobs ==>
          && SizeFits(u.jobs[t].req.transferId, |u.jobs[t].content|) && u.jobs[t].req.size == |u.jobs[t].content|
          && u.jobs[t].openId != 0 && u.jobs[t].bodyId != 0 && u.jobs[t].commitId != 0)
    && (forall t, v :: t in u.jobs && v in u.jobs && t != v ==>
          && u.jobs[t].openId != u.jobs[v].openId
          && u.jobs[t].bodyId != u.jobs[v].bodyId
          && u.jobs[t].commitId != u.jobs[v].commitId)
  }

  // ----- the frames of a call -----

  function OpenMessage(u: Setup, job: Job): Message {
    Message(job.openId, OPEN, u.codec.putRequest(job.req))
  }

  function BodyMessage(job: Job): Frame
    requires SizeFits(job.req.transferId, |job.content|)
  {
    Message(job.bodyId, BODY, EncodeId(job.req.transferId).bytes + job.content)
  }

  function CommitMessage(u: Setup, job: Job): Message {
    Message(job.commitId, COMMIT, u.codec.putCommit(job.req.transferId))
  }

  predicate Mine(f: Frame, job: Job) {
    || (f.typ == OPEN && f.id == job.openId)
    || (f.typ == BODY && f.id == job.bodyId)
    || (f.typ == COMMIT && f.id == job.commitId)
  }

  // ----- states and steps -----

  datatype Phase = Ready | Asked | Accepted | BodySent | Committing | Done(result: Result) | Failed

  /** `sent` frames of the call have been written and `read` of them handled; `accepted` tells whether the
      receiver accepted its open. All three are history. */
  datatype Progress = Progress(phase: Phase, sent: nat, read: nat, accepted: bool)

  /** `owner` and `delivered` are history: which call each transfer under way belongs to, and the result that
      each commit message gave. */
  datatype Link = Link(
    calls: map<Call, Progress>,
    toReceiver: Channel,
    receiver: State,
    serving: bool,
    toSender: Channel,
    owner: map<Id, Call>,
    delivered: map<uint64, Result>)

  /** What the receiver's surroundings decide while it handles one message. */
  datatype Env = Env(plan: Plan, temp: Temp, end: CopyEnd, renames: bool, removes: bool)

  datatype Step =
    | SendOpen(t: Call)
    | SendBody(t: Call)
    | SendCommit(t: Call)
    | Abandon(t: Call)
    | OtherToReceiver(f: Frame)
    | OtherToSender(f: Frame)
    | HandleOpen(t: Call, env: Env)
    | HandleBody(t: Call, env: Env)
    | HandleCommit(t: Call, env: Env)
    | HandleOther
    | StopServing
    | ServeAgain
    | GetOpenResponse(t: Call)
    | GetCommitResponse(t: Call)
    | GetOther

  predicate In(l: Link, t: Call, phase: Phase) {
    t in l.calls && l.calls[t].phase == phase
  }

  function WithCall(l: Link, t: Call, p: Progress): Link {
    l.(calls := l.calls[t := p])
  }

  /** The message at the front of the receiver's stream, of the given type and from the given call. */
  predicate AtReceiver(u: Setup, l: Link, t: Call, typ: uint32) {
    && l.serving && CanTake(l.toReceiver) && t in u.jobs && t in l.calls
    && Front(l.toReceiver).typ == typ && Mine(Front(l.toReceiver), u.jobs[t])
    && Admits(u.receiver.receives, HeaderOf(Front(l.toReceiver)))
  }

  /** The same for the sender's stream. */
  predicate AtSender(u: Setup, l: Link, id: uint64, typ: uint32) {
    && CanTake(l.toSender) && Front(l.toSender).typ == typ && Front(l.toSender).id == id
    && Admits(u.sender.receives, HeaderOf(Front(l.toSender)))
  }

  predicate Fits(m: Message) {
    |m.payload| <= MAX_UINT32
  }

  /** What `SendStreamWithID` lets through. */
  predicate Sendable(limit: nat, m: Message) {
    Fits(m) && (limit > 0 ==> HEADER_LENGTH + |m.payload| <= limit)
  }

  /** The event the receiver's handlers see for the message at the front. */
  function EventOf(u: Setup, f: Frame, env: Env): Option<Event> {
    if f.typ == OPEN then
      match u.codec.getRequest(f.payload)
      case None => None
      case Some(req) => Some(OpenEvent(req, env.plan, env.temp))
    else if f.typ == BODY then Some(BodyEvent(f.payload, env.end))
    else
      match u.codec.getCommit(f.payload)
      case None => None
      case Some(id) => Some(CommitEvent(id, env.renames, env.removes))
  }

  /** The reply a handler sends under the request's own id. */
  function ReplyTo(u: Setup, f: Frame, o: Outcome): Message {
    match o
    case Opened(resp) => Message(f.id, OPEN_RESPONSE, u.codec.putResponse(resp))
    case Committed(result) => Message(f.id, COMMIT_RESPONSE, u.codec.putResult(result))
    case Received(_) => Message(f.id, 0, [])
  }

  /** The operating system allows what the handler is given, and the reply fits its frame. */
  ghost predicate EventPossible(u: Setup, l: Link, f: Frame, env: Env) {
    match EventOf(u, f, env)
    case None => true
    case Some(e) =>
      && Possible(l.receiver, e)
      && Fits(ReplyTo(u, f, TransferRuns.Step(u.sha, l.receiver, e).1))
  }

  /** The step fits where the two nodes stand. A header that is not admitted is never passed. */
  predicate CanStep(u: Setup, l: Link, s: Step) {
    match s
    case SendOpen(t) => t in u.jobs && In(l, t, Ready) && Sendable(u.sender.sends, OpenMessage(u, u.jobs[t]))
    case SendBody(t) =>
      && t in u.jobs && In(l, t, Phase.Accepted) && SizeFits(u.jobs[t].req.transferId, |u.jobs[t].content|)
      && Sendable(u.sender.sends, BodyMessage(u.jobs[t]))
    case SendCommit(t) => t in u.jobs && In(l, t, BodySent) && Sendable(u.sender.sends, CommitMessage(u, u.jobs[t]))
    case Abandon(t) => t in l.calls && !l.calls[t].phase.Done?
    case OtherToReceiver(f) => !TransferType(f.typ)
    case OtherToSender(f) => !ResponseType(f.typ)
    case HandleOpen(t, _) => AtReceiver(u, l, t, OPEN)
    case HandleBody(t, _) => AtReceiver(u, l, t, BODY)
    case HandleCommit(t, _) => AtReceiver(u, l, t, COMMIT)
    case HandleOther =>
      && l.serving && CanTake(l.toReceiver) && !TransferType(Front(l.toReceiver).typ)
      && Admits(u.receiver.receives, HeaderOf(Front(l.toReceiver)))
    case StopServing => true
    case ServeAgain => true
    case GetOpenResponse(t) => t in u.jobs && In(l, t, Asked) && AtSender(u, l, u.jobs[t].openId, OPEN_RESPONSE)
    case GetCommitResponse(t) =>
      t in u.jobs && In(l, t, Committing) && AtSender(u, l, u.jobs[t].commitId, COMMIT_RESPONSE)
    case GetOther => CanTake(l.toSender) && Admits(u.sender.receives, HeaderOf(Front(l.toSender)))
  }

  predicate Handles(s: Step) {
    s.HandleOpen? || s.HandleBody? || s.HandleCommit?
  }

  ghost predicate Enabled(u: Setup, l: Link, s: Step) {
    && CanStep(u, l, s)
    && (Handles(s) ==> EventPossible(u, l, Front(l.toReceiver), s.env))
  }

  function Sending(l: Link, t: Call, phase: Phase, f: Frame): Link
    requires t in l.calls
  {
    var p := l.calls[t];
    WithCall(l, t, p.(phase := phase, sent := p.sent + 1)).(toReceiver := Push(l.toReceiver, f))
  }

  /** The receiver has taken an open of call `t` and answered it. */
  function AfterOpen(u: Setup, l: Link, t: Call, f: Frame, rest: Channel, receiver: State, resp: Response): Link
    requires t in l.calls
  {
    var l' := WithCall(l, t, l.calls[t].(read := l.calls[t].read + 1, accepted := resp.accepted))
              .(toReceiver := rest, receiver := receiver,
                owner := if resp.accepted then l.owner[resp.transferId := t] else l.owner);
    Replied(u, l', ReplyTo(u, f, Opened(resp)))
  }

  /** The receiver has taken a body of call `t`; an error ends its serve loop. */
  function AfterBody(l: Link, t: Call, rest: Channel, receiver: State, outcome: BodyOutcome): Link
    requires t in l.calls
  {
    WithCall(l, t, l.calls[t].(read := l.calls[t].read + 1))
    .(toReceiver := rest, receiver := receiver, serving := outcome == Stored)
  }

  /** The receiver has taken a commit of call `t` and answered it. */
  function AfterCommit(u: Setup, l: Link, t: Call, f: Frame, rest: Channel, receiver: State, result: Result): Link
    requires t in l.calls
  {
    var l' := WithCall(l, t, l.calls[t].(read := l.calls[t].read + 1))
              .(toReceiver := rest, receiver := receiver,
                owner := l.owner - {result.transferId}, delivered := l.delivered[f.id := result]);
    Replied(u, l', ReplyTo(u, f, Committed(result)))
  }

  /** The receiver has taken a message of call `t` and handled it as `e`. */
  function Handling(u: Setup, l: Link, t: Call, f: Frame, rest: Channel, e: Event): Link
    requires t in l.calls
  {
    var (receiver, o) := TransferRuns.Step(u.sha, l.receiver, e);
    match o
    case Opened(resp) => AfterOpen(u, l, t, f, rest, receiver, resp)
    case Received(outcome) => AfterBody(l, t, rest, receiver, outcome)
    case Committed(result) => AfterCommit(u, l, t, f, rest, receiver, result)
  }

  /** A reply within the limit is pushed whole; one beyond it is an error of the handler, which ends the loop. */
  function Replied(u: Setup, l: Link, m: Message): Link {
    if Sendable(u.receiver.sends, m) then l.(toSender := Push(l.toSender, m)) else l.(serving := false)
  }

  function Apply(u: Setup, l: Link, s: Step): Link
    requires CanStep(u, l, s)
  {
    match s
    case SendOpen(t) => Sending(l, t, Asked, OpenMessage(u, u.jobs[t]))
    case SendBody(t) => Sending(l, t, BodySent, BodyMessage(u.jobs[t]))
    case SendCommit(t) => Sending(l, t, Committing, CommitMessage(u, u.jobs[t]))
    case Abandon(t) => WithCall(l, t, l.calls[t].(phase := Failed))
    case OtherToReceiver(f) => l.(toReceiver := Push(l.toReceiver, f))
    case OtherToSender(f) => l.(toSender := Push(l.toSender, f))
    case HandleOpen(t, env) => HandleAt(u, l, t, env)
    case HandleBody(t, env) => HandleAt(u, l, t, env)
    case HandleCommit(t, env) => HandleAt(u, l, t, env)
    case HandleOther => l.(toReceiver := Rest(l.toReceiver))
    case StopServing => l.(serving := false)
    case ServeAgain => l.(serving := true)
    case GetOpenResponse(t) => Opening(u, l, t)
    case GetCommitResponse(t) => Closing(u, l, t)
    case GetOther => l.(toSender := Rest(l.toSender))
  }

  /** The call gets the response to its open. */
  function Opening(u: Setup, l: Link, t: Call): Link
    requires CanTake(l.toSender) && t in l.calls
  {
    var resp := u.codec.getResponse(Front(l.toSender).payload);
    var phase := if resp.Some? && resp.value.accepted then Phase.Accepted else Failed;
    var l' := l.(toSender := Rest(l.toSender));
    WithCall(l', t, l'.calls[t].(phase := phase))
  }

  /** The call gets the response to its commit. */
  function Closing(u: Setup, l: Link, t: Call): Link
    requires CanTake(l.toSender) && t in l.calls
  {
    var result := u.codec.getResult(Front(l.toSender).payload);
    var phase := if result.Some? && result.value.ok then Done(result.value) else Failed;
    var l' := l.(toSender := Rest(l.toSender));
    WithCall(l', t, l'.calls[t].(phase := phase))
  }

  /** A message that does not decode is an error of the handler; it is drained before the loop ends. */
  function HandleAt(u: Setup, l: Link, t: Call, env: Env): Link
    requires CanTake(l.toReceiver) && t in l.calls
  {
    match EventOf(u, Front(l.toReceiver), env)
    case None =>
      WithCall(l, t, l.calls[t].(read := l.calls[t].read + 1)).(toReceiver := Rest(l.toReceiver), serving := false)
    case Some(e) => Handling(u, l, t, Front(l.toReceiver), Rest(l.toReceiver), e)
  }

  ghost predicate Run(u: Setup, l: Link, steps: seq<Step>, l': Link)
    decreases |steps|
  {
    if steps == [] then l' == l
    else Enabled(u, l, steps[0]) && Run(u, Apply(u, l, steps[0]), steps[1..], l')
  }

  ghost predicate Start(u: Setup, l: Link) {
    && l.calls.Keys == u.jobs.Keys && (forall t :: t in l.calls ==> l.calls[t] == Progress(Ready, 0, 0, false))
    && l.toReceiver == ByteChannel.EMPTY && l.toSender == ByteChannel.EMPTY
    && l.receiver.incoming == map[] && l.owner == map[] && l.delivered == map[]
  }

  // ----- when the receiver's loop goes on -----

  /** Every message that is handled leaves the stream and counts as read, whether or not its handler fails. After a body
      the loop goes on exactly when the body was stored, after another message exactly when the handler has sent its
      reply. */
  lemma ServesOn(u: Setup, l: Link, s: Step)
    requires Handles(s) && Enabled(u, l, s)
    ensures var next := Apply(u, l, s);
            && next.toReceiver == Rest(l.toReceiver)
            && next.calls[s.t].read == l.calls[s.t].read + 1 && next.calls[s.t].phase == l.calls[s.t].phase
            && (s.HandleBody? ==>
                  && next.toSender == l.toSender
                  && (next.serving <==> ReceiveBody(l.receiver, Front(l.toReceiver).payload, s.env.end).1 == Stored))
            && (!s.HandleBody? ==> (next.serving <==> |next.toSender.flying| == |l.toSender.flying| + 1))
            && (next.serving || next.toSender == l.toSender)
  {
    hide HandleAt;
    match s
    case HandleBody(t, env) => AfterBodyServes(u, l, t, env);
    case HandleOpen(t, env) => AfterReplyServes(u, l, t, env, OPEN);
    case HandleCommit(t, env) => AfterReplyServes(u, l, t, env, COMMIT);
  }

  /** What a step that handles does: the message is gone and counted, and `serves` tells whether the loop goes on. */
  ghost predicate Took(l: Link, t: Call, next: Link, serves: bool)
    requires CanTake(l.toReceiver)
  {
    && t in l.calls && t in next.calls && next.toReceiver == Rest(l.toReceiver) && (next.serving <==> serves)
    && next.calls[t].read == l.calls[t].read + 1 && next.calls[t].phase == l.calls[t].phase
  }

  lemma AfterBodyServes(u: Setup, l: Link, t: Call, env: Env)
    requires AtReceiver(u, l, t, BODY)
    ensures var next, payload := HandleAt(u, l, t, env), Front(l.toReceiver).payload;
            && Took(l, t, next, ReceiveBody(l.receiver, payload, env.end).1 == Stored)
            && next.toSender == l.toSender
  {
    hide Front;
    hide Rest;
    hide ReceiveBody;
  }

  lemma AfterReplyServes(u: Setup, l: Link, t: Call, env: Env, typ: uint32)
    requires AtReceiver(u, l, t, typ) && (typ == OPEN || typ == COMMIT)
    ensures var next := HandleAt(u, l, t, env);
            && Took(l, t, next, |next.toSender.flying| == |l.toSender.flying| + 1)
            && (next.serving || next.toSender == l.toSender)
  {
    hide Front;
    hide Rest;
    hide Open;
    hide Commit;
    hide Replied;
    match EventOf(u, Front(l.toReceiver), env)
    case None =>
    case Some(e) =>
      var o := TransferRuns.Step(u.sha, l.receiver, e).1;
      RepliedServes(u, ReplyTo(u, Front(l.toReceiver), o));
  }

  lemma RepliedServes(u: Setup, m: Message)
    ensures forall l: Link :: l.serving ==>
              var next := Replied(u, l, m);
              && next == l.(serving := next.serving, toSender := next.toSender)
              && (next.serving <==> |next.toSender.flying| == |l.toSender.flying| + 1)
              && (next.serving || next.toSender == l.toSender)
  {
    hide Sendable;
  }

  /** The loop can end between any two messages and be called again, with nothing else changed. */
  lemma LoopEnds(u: Setup, l: Link)
    ensures CanStep(u, l, StopServing) && Apply(u, l, StopServing) == l.(serving := false)
    ensures CanStep(u, l, ServeAgain) && Apply(u, l, ServeAgain) == l.(serving := true)
  {}

  /** A loop that has ended handles nothing, and one that serves never passes a header that is not admitted. */
  lemma NothingPassed(u: Setup, l: Link, s: Step)
    requires CanStep(u, l, s) && (Handles(s) || s.HandleOther?)
    ensures l.serving && CanTake(l.toReceiver)
    ensures var f := Front(l.toReceiver);
            && f.id != 0 && (u.receiver.receives == 0 || |f.payload| <= u.receiver.receives)
            && (TransferType(f.typ) <==> Handles(s))
  {}
}
