/** The table of pending responses: a request registers a one-place channel under its message id, the
    serve loop takes a matching entry out under the lock, sends on the channel and closes it. */
module Responses {
  import opened BigEndian
  import opened Wrappers

  /** Channels are numbered in the order they are made. */
  type Channel = nat

  /** A response frame; `serial` tells apart frames with equal headers. */
  datatype Reply = Reply(id: uint64, typ: uint32, serial: nat)

  /** Everything sent on a channel, how much of it has been received, and how often it was closed. */
  datatype Chan = Chan(sent: seq<Reply>, taken: nat, closes: nat)

  const CAPACITY: nat := 1
  const NEW: Chan := Chan([], 0, 0)

  datatype Pending = Pending(typ: uint32, ch: Channel)
  datatype Table = Table(pending: map<uint64, Pending>, chans: seq<Chan>)

  function Registered(t: Table, id: uint64, typ: uint32): Table {
    Table(t.pending[id := Pending(typ, |t.chans|)], t.chans + [NEW])
  }

  function Unregistered(t: Table, id: uint64, ch: Channel): Table {
    if id in t.pending && t.pending[id].ch == ch then t.(pending := t.pending - {id}) else t
  }

  /** The channel waiting for a response with this header. */
  function Matching(t: Table, id: uint64, typ: uint32): Option<Channel> {
    if id in t.pending && t.pending[id].typ == typ then Some(t.pending[id].ch) else None
  }

  function Sent(c: Chan, reply: Reply): Chan {
    c.(sent := c.sent + [reply])
  }

  class ResponseTable {
    var pending: map<uint64, Pending>
    var chans: seq<Chan>

    constructor ()
      ensures State() == Table(map[], [])
    {
      pending, chans := map[], [];
    }

    ghost function State(): Table
      reads this
    {
      Table(pending, chans)
    }

    /** No channel means that the id is already waiting for a response. */
    method RegisterPendingResponse(id: uint64, typ: uint32) returns (ch: Option<Channel>)
      modifies this
      ensures id in old(pending) ==> ch == None && State() == old(State())
      ensures id !in old(pending) ==> ch == Some(|old(chans)|) && State() == Registered(old(State()), id, typ)
    {
      if id in pending {
        return None;
      }
      ch := Some(|chans|);
      pending := pending[id := Pending(typ, |chans|)];
      chans := chans + [NEW];
    }

    method UnregisterPendingResponse(id: uint64, ch: Channel)
      modifies this
      ensures State() == Unregistered(old(State()), id, ch)
    {
      if id in pending && pending[id].ch == ch {
        pending := pending - {id};
      }
    }

    /** The part of resolving under the lock. */
    method TakeOut(id: uint64, typ: uint32) returns (ch: Option<Channel>)
      modifies this
      ensures ch == Matching(old(State()), id, typ)
      ensures State() == if ch == None then old(State()) else old(State()).(pending := old(pending) - {id})
    {
      ch := None;
      if id in pending && pending[id].typ == typ {
        ch := Some(pending[id].ch);
        pending := pending - {id};
      }
    }

    /** A response goes to the channel of the request that waits for its id and type, or to nobody. */
    method ResolveResponse(reply: Reply) returns (resolved: bool)
      requires Matching(State(), reply.id, reply.typ).Some? ==> pending[reply.id].ch < |chans|
      modifies this
      ensures resolved == Matching(old(State()), reply.id, reply.typ).Some?
      ensures !resolved ==> State() == old(State())
      ensures resolved ==>
                var ch := old(pending)[reply.id].ch;
                && pending == old(pending) - {reply.id}
                && chans == old(chans)[ch := Sent(old(chans)[ch], reply).(closes := old(chans)[ch].closes + 1)]
    {
      var ch := TakeOut(reply.id, reply.typ);
      if ch == None {
        return false;
      }
      chans := chans[ch.value := Sent(chans[ch.value], reply)];
      chans := chans[ch.value := chans[ch.value].(closes := chans[ch.value].closes + 1)];
      return true;
    }

    /** One request, when nothing but the arrival of one response comes between its registration and its clean-up: it
        gets the response exactly when id and type are its own, and it leaves no entry. */
    method Request(id: uint64, typ: uint32, arrives: Option<Reply>) returns (got: Option<Reply>, duplicate: bool)
      requires forall k :: k in pending ==> pending[k].ch < |chans|
      modifies this
      ensures duplicate <==> id in old(pending)
      ensures duplicate ==> got == None && State() == old(State())
      ensures !duplicate && arrives.Some? && arrives.value.id == id && arrives.value.typ == typ ==> got == arrives
      ensures got.Some? ==> got == arrives && got.value.id == id && got.value.typ == typ
      ensures !duplicate ==> id !in pending
      ensures forall k :: k in pending ==> k in old(pending) && pending[k] == old(pending)[k]
      ensures forall k :: k in old(pending) && k !in pending ==> arrives.Some? && arrives.value.id == k
    {
      got := None;
      var ch := RegisterPendingResponse(id, typ);
      if ch == None {
        return None, true;
      }
      duplicate := false;
      if arrives.Some? {
        var resolved := ResolveResponse(arrives.value);
        if resolved && |chans[ch.value].sent| > 0 {
          got := Some(chans[ch.value].sent[0]);
        }
      }
      UnregisterPendingResponse(id, ch.value);
    }
  }

  // ----- every interleaving of requests and resolvers -----

  type Actor = nat

  /** How a request stands: waiting, through with a message, with a closed empty channel, or without. */
  datatype Phase = Waiting | GotMessage(reply: Reply) | GotNothing | GaveUp

  datatype Request = Request(id: uint64, typ: uint32, ch: Channel, phase: Phase, left: bool)

  datatype Resolving = Resolving(ch: Channel, reply: Reply, pushed: bool)

  /** Where a channel is in its life: in the table, cleaned up unused, with a resolver, or closed. */
  datatype Stage = InTable | Dropped | Held(holder: Actor, reply: Reply, pushed: bool) | Finished(reply: Reply)

  /** What a channel was made for, and its stage: history that no step depends on. */
  datatype Info = Info(id: uint64, typ: uint32, owner: Actor, stage: Stage)

  /** `reached` records the channel each resolved frame went to. */
  datatype State = State(
    pending: map<uint64, Pending>,
    chans: seq<Chan>,
    requests: map<Actor, Request>,
    resolving: map<Actor, Resolving>,
    received: nat,
    infos: seq<Info>,
    reached: map<nat, Channel>)

  const EMPTY: State := State(map[], [], map[], map[], 0, [], map[])

  datatype Step =
    | Ask(a: Actor, id: uint64, typ: uint32)
    | Receive(a: Actor)
    | GiveUp(a: Actor)
    | Leave(a: Actor)
    | Resolve(r: Actor, id: uint64, typ: uint32)
    | Push(r: Actor)
    | Close(r: Actor)

  predicate IsChannel(s: State, ch: Channel) {
    ch < |s.chans| && ch < |s.infos|
  }

  predicate IsWaiting(s: State, a: Actor) {
    a in s.requests && s.requests[a].phase == Waiting && IsChannel(s, s.requests[a].ch)
  }

  predicate HasRoom(c: Chan) {
    |c.sent| < c.taken + CAPACITY
  }

  /** A receive needs something sent or a closed channel. A push needs room; that it never waits for
      room is proved below. */
  predicate Enabled(s: State, step: Step) {
    match step
    case Ask(a, id, typ) => a !in s.requests
    case Receive(a) =>
      && IsWaiting(s, a)
      && (s.chans[s.requests[a].ch].taken < |s.chans[s.requests[a].ch].sent| || s.chans[s.requests[a].ch].closes > 0)
    case GiveUp(a) => IsWaiting(s, a)
    case Leave(a) =>
      a in s.requests && s.requests[a].phase != Waiting && !s.requests[a].left && IsChannel(s, s.requests[a].ch)
    case Resolve(r, id, typ) =>
      r !in s.resolving && (id in s.pending ==> IsChannel(s, s.pending[id].ch))
    case Push(r) =>
      && r in s.resolving && !s.resolving[r].pushed && IsChannel(s, s.resolving[r].ch)
      && HasRoom(s.chans[s.resolving[r].ch])
    case Close(r) => r in s.resolving && s.resolving[r].pushed && IsChannel(s, s.resolving[r].ch)
  }

  function TableOf(s: State): Table {
    Table(s.pending, s.chans)
  }

  function WithTable(s: State, t: Table): State {
    s.(pending := t.pending, chans := t.chans)
  }

  function InStage(infos: seq<Info>, ch: Channel, stage: Stage): seq<Info>
    requires ch < |infos|
  {
    infos[ch := infos[ch].(stage := stage)]
  }

  function Apply(s: State, step: Step): State
    requires Enabled(s, step)
  {
    match step
    case Ask(a, id, typ) =>
      if id in s.pending then s
      else
        WithTable(s, Registered(TableOf(s), id, typ))
        .(infos := s.infos + [Info(id, typ, a, InTable)],
          requests := s.requests[a := Request(id, typ, |s.chans|, Waiting, false)])
    case Receive(a) =>
      var req := s.requests[a];
      var c := s.chans[req.ch];
      if c.taken < |c.sent| then
        s.(chans := s.chans[req.ch := c.(taken := c.taken + 1)],
           requests := s.requests[a := req.(phase := GotMessage(c.sent[c.taken]))])
      else s.(requests := s.requests[a := req.(phase := GotNothing)])
    case GiveUp(a) => s.(requests := s.requests[a := s.requests[a].(phase := GaveUp)])
    case Leave(a) =>
      var req := s.requests[a];
      var table := Unregistered(TableOf(s), req.id, req.ch);
      WithTable(s, table)
      .(requests := s.requests[a := req.(left := true)],
        infos := if table == TableOf(s) then s.infos else InStage(s.infos, req.ch, Dropped))
    case Resolve(r, id, typ) =>
      (match Matching(TableOf(s), id, typ)
       case None => s.(received := s.received + 1)
       case Some(ch) =>
         var reply := Reply(id, typ, s.received);
         s.(pending := s.pending - {id}, received := s.received + 1,
            resolving := s.resolving[r := Resolving(ch, reply, false)],
            infos := InStage(s.infos, ch, Held(r, reply, false)),
            reached := s.reached[s.received := ch]))
    case Push(r) =>
      var job := s.resolving[r];
      s.(chans := s.chans[job.ch := Sent(s.chans[job.ch], job.reply)],
         resolving := s.resolving[r := job.(pushed := true)],
         infos := InStage(s.infos, job.ch, Held(r, job.reply, true)))
    case Close(r) =>
      var job := s.resolving[r];
      s.(chans := s.chans[job.ch := s.chans[job.ch].(closes := s.chans[job.ch].closes + 1)],
         resolving := s.resolving - {r},
         infos := InStage(s.infos, job.ch, Finished(job.reply)))
  }

  ghost predicate Run(s: State, steps: seq<Step>, s': State)
    decreases |steps|
  {
    if steps == [] then s' == s
    else Enabled(s, steps[0]) && Run(Apply(s, steps[0]), steps[1..], s')
  }

  // ----- what every step keeps -----

  ghost predicate ReplyFor(reply: Reply, info: Info, ch: Channel, received: nat, reached: map<nat, Channel>) {
    && reply.id == info.id && reply.typ == info.typ
    && reply.serial < received && reply.serial in reached && reached[reply.serial] == ch
  }

  /** What a channel has carried, by its stage. */
  ghost predicate ChannelIn(c: Chan, info: Info, ch: Channel, received: nat, reached: map<nat, Channel>) {
    && c.taken <= |c.sent|
    && match info.stage
       case InTable => c == NEW
       case Dropped => c == NEW
       case Held(r, reply, pushed) =>
         c.closes == 0 && c.sent == (if pushed then [reply] else []) && ReplyFor(reply, info, ch, received, reached)
       case Finished(reply) => c.closes == 1 && c.sent == [reply] && ReplyFor(reply, info, ch, received, reached)
  }

  ghost predicate Channels(chans: seq<Chan>, infos: seq<Info>, received: nat, reached: map<nat, Channel>) {
    && |infos| == |chans|
    && (forall ch :: 0 <= ch < |chans| ==> ChannelIn(chans[ch], infos[ch], ch, received, reached))
    && (forall serial :: serial in reached ==> serial < received)
  }

  /** The entries are the channels that are in the table. */
  ghost predicate Entries(pending: map<uint64, Pending>, infos: seq<Info>) {
    && (forall id :: id in pending ==>
          && pending[id].ch < |infos|
          && infos[pending[id].ch].id == id && infos[pending[id].ch].typ == pending[id].typ
          && infos[pending[id].ch].stage == InTable)
    && (forall ch :: 0 <= ch < |infos| && infos[ch].stage == InTable ==>
          infos[ch].id in pending && pending[infos[ch].id].ch == ch)
  }

  ghost predicate Jobs(resolving: map<Actor, Resolving>, infos: seq<Info>) {
    forall r :: r in resolving ==>
      && resolving[r].ch < |infos|
      && infos[resolving[r].ch].stage == Held(r, resolving[r].reply, resolving[r].pushed)
  }

  /** A request's channel is its own, and what it got is what was sent there. */
  ghost predicate RequestIn(a: Actor, req: Request, chans: seq<Chan>, infos: seq<Info>) {
    && req.ch < |infos| && req.ch < |chans|
    && infos[req.ch].id == req.id && infos[req.ch].typ == req.typ && infos[req.ch].owner == a
    && req.phase != GotNothing
    && (req.phase == Waiting ==> chans[req.ch].taken == 0 && !req.left)
    && (req.phase.GotMessage? ==> chans[req.ch].sent == [req.phase.reply] && chans[req.ch].taken == 1)
    && (req.left ==> infos[req.ch].stage != InTable)
  }

  ghost predicate Requests(requests: map<Actor, Request>, chans: seq<Chan>, infos: seq<Info>) {
    forall a :: a in requests ==> RequestIn(a, requests[a], chans, infos)
  }

  ghost predicate Inv(s: State) {
    && Channels(s.chans, s.infos, s.received, s.reached)
    && Entries(s.pending, s.infos)
    && Jobs(s.resolving, s.infos)
    && Requests(s.requests, s.chans, s.infos)
  }

  lemma AskRequests(s: State, a: Actor, id: uint64, typ: uint32)
    requires Inv(s) && Enabled(s, Ask(a, id, typ))
    ensures var s' := Apply(s, Ask(a, id, typ)); Jobs(s'.resolving, s'.infos) && Requests(s'.requests, s'.chans,
                                                                                          s'.infos)
  {
    hide Entries;
    hide ReplyFor;
  }

  lemma AskKept(s: State, a: Actor, id: uint64, typ: uint32)
    requires Inv(s) && Enabled(s, Ask(a, id, typ))
    ensures Inv(Apply(s, Ask(a, id, typ)))
  {
    hide Jobs;
    hide Requests;
    hide ReplyFor;
    AskRequests(s, a, id, typ);
  }

  lemma ReceiveKept(s: State, a: Actor)
    requires Inv(s) && Enabled(s, Receive(a))
    ensures Inv(Apply(s, Receive(a)))
  {}

  lemma GiveUpKept(s: State, a: Actor)
    requires Inv(s) && Enabled(s, GiveUp(a))
    ensures Inv(Apply(s, GiveUp(a)))
  {}

  lemma LeaveTable(s: State, a: Actor)
    requires Inv(s) && Enabled(s, Leave(a))
    ensures var s' := Apply(s, Leave(a)); Channels(s'.chans, s'.infos, s'.received, s'.reached) && Entries(s'.pending,
                                                                                                           s'.infos)
  {
    hide Jobs;
    hide Requests;
    OwnEntry(s, a);
    OwnStage(s, a);
  }

  lemma OwnStage(s: State, a: Actor)
    requires Inv(s) && a in s.requests
    ensures IsChannel(s, s.requests[a].ch) && s.infos[s.requests[a].ch].id == s.requests[a].id
  {
    hide Jobs;
    hide Entries;
    SameLength(s);
    assert RequestIn(a, s.requests[a], s.chans, s.infos);
  }

  lemma LeaveKept(s: State, a: Actor)
    requires Inv(s) && Enabled(s, Leave(a))
    ensures Inv(Apply(s, Leave(a)))
  {
    hide Channels;
    LeaveTable(s, a);
  }

  lemma ResolveChannels(s: State, r: Actor, id: uint64, typ: uint32)
    requires Inv(s) && Enabled(s, Resolve(r, id, typ))
    ensures var s' := Apply(s, Resolve(r, id, typ)); Channels(s'.chans, s'.infos, s'.received, s'.reached)
  {
    hide Jobs;
    hide Requests;
  }

  lemma ResolveEntries(s: State, r: Actor, id: uint64, typ: uint32)
    requires Inv(s) && Enabled(s, Resolve(r, id, typ))
    ensures var s' := Apply(s, Resolve(r, id, typ)); Entries(s'.pending, s'.infos)
  {
    hide Channels;
    hide Jobs;
    hide Requests;
  }

  lemma ResolveJobs(s: State, r: Actor, id: uint64, typ: uint32)
    requires Inv(s) && Enabled(s, Resolve(r, id, typ))
    ensures var s' := Apply(s, Resolve(r, id, typ)); Jobs(s'.resolving, s'.infos)
  {
    hide Channels;
    hide Requests;
  }

  lemma ResolveRequests(s: State, r: Actor, id: uint64, typ: uint32)
    requires Inv(s) && Enabled(s, Resolve(r, id, typ))
    ensures var s' := Apply(s, Resolve(r, id, typ)); Requests(s'.requests, s'.chans, s'.infos)
  {
    hide Channels;
    hide Jobs;
  }

  lemma ResolveKept(s: State, r: Actor, id: uint64, typ: uint32)
    requires Inv(s) && Enabled(s, Resolve(r, id, typ))
    ensures Inv(Apply(s, Resolve(r, id, typ)))
  {
    hide Channels;
    hide Entries;
    hide Jobs;
    hide Requests;
    ResolveChannels(s, r, id, typ);
    ResolveEntries(s, r, id, typ);
    ResolveJobs(s, r, id, typ);
    ResolveRequests(s, r, id, typ);
  }

  lemma PushKept(s: State, r: Actor)
    requires Inv(s) && Enabled(s, Push(r))
    ensures Inv(Apply(s, Push(r)))
  {
    hide Requests;
    PushRequests(s, r);
  }

  lemma PushRequests(s: State, r: Actor)
    requires Inv(s) && Enabled(s, Push(r))
    ensures Requests(Apply(s, Push(r)).requests, Apply(s, Push(r)).chans, Apply(s, Push(r)).infos)
  {
    hide Entries;
  }

  lemma CloseKept(s: State, r: Actor)
    requires Inv(s) && Enabled(s, Close(r))
    ensures Inv(Apply(s, Close(r)))
  {
    hide Requests;
    CloseRequests(s, r);
  }

  lemma CloseRequests(s: State, r: Actor)
    requires Inv(s) && Enabled(s, Close(r))
    ensures Requests(Apply(s, Close(r)).requests, Apply(s, Close(r)).chans, Apply(s, Close(r)).infos)
  {
    hide Entries;
  }

  lemma InvKept(s: State, step: Step)
    requires Inv(s) && Enabled(s, step)
    ensures Inv(Apply(s, step))
  {
    hide Inv;
    match step
    case Ask(a, id, typ) => AskKept(s, a, id, typ);
    case Receive(a) => ReceiveKept(s, a);
    case GiveUp(a) => GiveUpKept(s, a);
    case Leave(a) => LeaveKept(s, a);
    case Resolve(r, id, typ) => ResolveKept(s, r, id, typ);
    case Push(r) => PushKept(s, r);
    case Close(r) => CloseKept(s, r);
  }

  lemma {:induction false} RunKeepsInv(s: State, steps: seq<Step>, s': State)
    requires Run(s, steps, s') && Inv(s)
    ensures Inv(s')
    decreases |steps|
  {
    if steps != [] {
      InvKept(s, steps[0]);
      RunKeepsInv(Apply(s, steps[0]), steps[1..], s');
    }
  }

  // ----- what a request may rely on -----

  /** A request gets a message of the id and type it registered, the only one its channel ever carried, and no frame
      reaches two requests. */
  lemma RepliesMatch(steps: seq<Step>, s: State, a: Actor)
    requires Run(EMPTY, steps, s) && a in s.requests && s.requests[a].phase.GotMessage?
    ensures s.requests[a].ch < |s.chans|
    ensures var reply := s.requests[a].phase.reply;
            && reply.id == s.requests[a].id && reply.typ == s.requests[a].typ
            && s.chans[s.requests[a].ch].sent == [reply] && s.chans[s.requests[a].ch].taken == 1
            && forall b :: b in s.requests && b != a && s.requests[b].phase.GotMessage? ==>
                 s.requests[b].phase.reply.serial != reply.serial
  {
    RunKeepsInv(EMPTY, steps, s);
    forall b | b in s.requests && s.requests[b].phase.GotMessage?
      ensures s.requests[b].phase.reply.serial in s.reached
      ensures s.reached[s.requests[b].phase.reply.serial] == s.requests[b].ch
    {
      assert RequestIn(b, s.requests[b], s.chans, s.infos);
      assert ChannelIn(s.chans[s.requests[b].ch], s.infos[s.requests[b].ch], s.requests[b].ch, s.received, s.reached);
    }
  }

  /** No request ever finds its channel closed and empty, so a request that returns without a message was
      cancelled or failed to send: what waits on a closed channel has its message there. */
  lemma NeverEmptyHanded(steps: seq<Step>, s: State)
    requires Run(EMPTY, steps, s)
    ensures forall a :: a in s.requests ==> s.requests[a].phase != GotNothing
    ensures forall a :: a in s.requests && s.requests[a].phase == Waiting ==>
              && s.requests[a].ch < |s.chans|
              && (s.chans[s.requests[a].ch].closes > 0 ==>
                    s.chans[s.requests[a].ch].taken == 0 && |s.chans[s.requests[a].ch].sent| == 1)
  {
    RunKeepsInv(EMPTY, steps, s);
    forall a | a in s.requests && s.requests[a].phase == Waiting
      ensures s.requests[a].ch < |s.chans|
      ensures s.chans[s.requests[a].ch].closes > 0 ==>
                s.chans[s.requests[a].ch].taken == 0 && |s.chans[s.requests[a].ch].sent| == 1
    {
      var ch := s.requests[a].ch;
      assert RequestIn(a, s.requests[a], s.chans, s.infos);
      assert ChannelIn(s.chans[ch], s.infos[ch], ch, s.received, s.reached);
    }
  }

  /** A resolver that has taken a channel out can send on it at once, and closes it as the only one. */
  lemma ResolversNeverBlock(steps: seq<Step>, s: State, r: Actor)
    requires Run(EMPTY, steps, s) && r in s.resolving
    ensures Enabled(s, if s.resolving[r].pushed then Close(r) else Push(r))
    ensures s.chans[s.resolving[r].ch].closes == 0
    ensures !s.resolving[r].pushed ==> s.chans[s.resolving[r].ch].sent == []
    ensures s.resolving[r].pushed ==> s.chans[s.resolving[r].ch].sent == [s.resolving[r].reply]
    ensures forall q :: q in s.resolving && q != r ==> s.resolving[q].ch != s.resolving[r].ch
    ensures forall ch :: 0 <= ch < |s.chans| ==> s.chans[ch].closes <= 1
  {
    RunKeepsInv(EMPTY, steps, s);
    assert ChannelIn(s.chans[s.resolving[r].ch], s.infos[s.resolving[r].ch], s.resolving[r].ch, s.received, s.reached);
    forall ch | 0 <= ch < |s.chans|
      ensures s.chans[ch].closes <= 1
    {
      assert ChannelIn(s.chans[ch], s.infos[ch], ch, s.received, s.reached);
    }
  }

  /** Once a request has left, no entry is its own, and its leaving took no other entry away. */
  lemma LeavesOnlyItsOwn(steps: seq<Step>, s: State, a: Actor)
    requires Run(EMPTY, steps, s)
    ensures a in s.requests && s.requests[a].left ==>
              forall id :: id in s.pending ==> s.pending[id].ch != s.requests[a].ch
    ensures Enabled(s, Leave(a)) ==>
              forall id :: id in s.pending && s.pending[id].ch != s.requests[a].ch ==>
                id in Apply(s, Leave(a)).pending && Apply(s, Leave(a)).pending[id] == s.pending[id]
  {
    hide Run;
    hide Channels;
    hide Jobs;
    RunKeepsInv(EMPTY, steps, s);
    if a in s.requests {
      assert RequestIn(a, s.requests[a], s.chans, s.infos);
    }
  }

  // ----- requests go through -----

  lemma RunNone(s: State)
    ensures Run(s, [], s)
  {}

  lemma RunNext(s: State, step: Step, rest: seq<Step>, s': State)
    requires Enabled(s, step) && Run(Apply(s, step), rest, s')
    ensures Run(s, [step] + rest, s')
  {
    assert ([step] + rest)[1..] == rest;
  }

  /** What a request, its response and nothing else leave behind. */
  ghost predicate Answered(s: State, a: Actor, id: uint64, typ: uint32, s': State) {
    var reply := Reply(id, typ, s.received);
    && s'.requests == s.requests[a := Request(id, typ, |s.chans|, GotMessage(reply), true)]
    && s'.pending == s.pending && s'.resolving == s.resolving
    && s'.chans == s.chans + [Chan([reply], 1, 1)]
  }

  /** The request has its response on the way to it. */
  ghost predicate OnItsWay(s: State, a: Actor, r: Actor, id: uint64, typ: uint32, s': State) {
    var reply, n := Reply(id, typ, s.received), |s.chans|;
    && s'.requests == s.requests[a := Request(id, typ, n, Waiting, false)]
    && s'.pending == s.pending && s'.resolving == s.resolving[r := Resolving(n, reply, true)]
    && s'.chans == s.chans + [Chan([reply], 0, 0)] && |s'.infos| == n + 1
  }

  lemma SetLast<T>(front: seq<T>, last: T, other: T)
    ensures (front + [last])[|front| := other] == front + [other]
  {}

  lemma Sends(s: State, a: Actor, r: Actor, id: uint64, typ: uint32) returns (s1: State, s2: State, s3: State)
    requires |s.infos| == |s.chans| && a !in s.requests && r !in s.resolving && id !in s.pending
    ensures Enabled(s, Ask(a, id, typ)) && s1 == Apply(s, Ask(a, id, typ))
    ensures Enabled(s1, Resolve(r, id, typ)) && s2 == Apply(s1, Resolve(r, id, typ))
    ensures Enabled(s2, Push(r)) && s3 == Apply(s2, Push(r))
    ensures OnItsWay(s, a, r, id, typ, s3)
  {
    s1 := Apply(s, Ask(a, id, typ));
    s2 := Apply(s1, Resolve(r, id, typ));
    assert s2.pending == s.pending;
    s3 := Apply(s2, Push(r));
    assert [] + [Reply(id, typ, s.received)] == [Reply(id, typ, s.received)];
    SetLast(s.chans, NEW, Chan([Reply(id, typ, s.received)], 0, 0));
  }

  lemma Gets(s: State, s3: State, a: Actor, r: Actor, id: uint64, typ: uint32)
      returns (s4: State, s5: State, s6: State)
    requires OnItsWay(s, a, r, id, typ, s3) && r !in s.resolving && id !in s.pending
    ensures Enabled(s3, Receive(a)) && s4 == Apply(s3, Receive(a))
    ensures Enabled(s4, Leave(a)) && s5 == Apply(s4, Leave(a))
    ensures Enabled(s5, Close(r)) && s6 == Apply(s5, Close(r))
    ensures Answered(s, a, id, typ, s6)
  {
    var reply := Reply(id, typ, s.received);
    s4 := Apply(s3, Receive(a));
    SetLast(s.chans, Chan([reply], 0, 0), Chan([reply], 1, 0));
    s5 := Apply(s4, Leave(a));
    s6 := Apply(s5, Close(r));
    SetLast(s.chans, Chan([reply], 1, 0), Chan([reply], 1, 1));
    assert s6.resolving == s.resolving;
  }

  /** Whatever has happened before, a request with an id that is not waiting and one response to it can go through: the
      request may receive as soon as the response is sent, and has left before the channel is closed. */
  lemma ResponseArrives(steps: seq<Step>, s: State, a: Actor, r: Actor, id: uint64, typ: uint32)
    requires Run(EMPTY, steps, s) && a !in s.requests && r !in s.resolving && id !in s.pending
    ensures exists s' :: Run(s, [Ask(a, id, typ), Resolve(r, id, typ), Push(r), Receive(a), Leave(a), Close(r)], s')
                         && Answered(s, a, id, typ, s')
  {
    hide Run;
    hide Apply;
    hide Enabled;
    hide Answered;
    hide OnItsWay;
    RunKeepsInv(EMPTY, steps, s);
    var s1, s2, s3 := Sends(s, a, r, id, typ);
    var s4, s5, s6 := Gets(s, s3, a, r, id, typ);
    assert [Close(r)] + [] == [Close(r)];
    assert [Leave(a)] + [Close(r)] == [Leave(a), Close(r)];
    assert [Receive(a)] + [Leave(a), Close(r)] == [Receive(a), Leave(a), Close(r)];
    assert [Push(r)] + [Receive(a), Leave(a), Close(r)] == [Push(r), Receive(a), Leave(a), Close(r)];
    assert [Resolve(r, id, typ)] + [Push(r), Receive(a), Leave(a), Close(r)]
        == [Resolve(r, id, typ), Push(r), Receive(a), Leave(a), Close(r)];
    assert [Ask(a, id, typ)] + [Resolve(r, id, typ), Push(r), Receive(a), Leave(a), Close(r)]
        == [Ask(a, id, typ), Resolve(r, id, typ), Push(r), Receive(a), Leave(a), Close(r)];
    RunNone(s6);
    RunNext(s5, Close(r), [], s6);
    RunNext(s4, Leave(a), [Close(r)], s6);
    RunNext(s3, Receive(a), [Leave(a), Close(r)], s6);
    RunNext(s2, Push(r), [Receive(a), Leave(a), Close(r)], s6);
    RunNext(s1, Resolve(r, id, typ), [Push(r), Receive(a), Leave(a), Close(r)], s6);
    RunNext(s, Ask(a, id, typ), [Resolve(r, id, typ), Push(r), Receive(a), Leave(a), Close(r)], s6);
  }

  /** A waiting request can give up and leave at any moment; its entry is then gone if it was still there, and no other
      request, entry, resolver or channel has changed. */
  lemma WaitingCanLeave(steps: seq<Step>, s: State, a: Actor)
    requires Run(EMPTY, steps, s) && a in s.requests && s.requests[a].phase == Waiting
    ensures exists s' :: Run(s, [GiveUp(a), Leave(a)], s')
                         && s'.requests == s.requests[a := s.requests[a].(phase := GaveUp, left := true)]
                         && s'.chans == s.chans && s'.resolving == s.resolving
                         && (forall id :: id in s'.pending <==> id in s.pending && s.pending[id].ch != s.requests[a].ch)
                         && (forall id :: id in s'.pending ==> s'.pending[id] == s.pending[id])
  {
    hide Apply;
    hide Enabled;
    RunKeepsInv(EMPTY, steps, s);
    OwnEntry(s, a);
    var s1, s2 := GivesUp(s, a);
    assert [Leave(a)] + [] == [Leave(a)] && [GiveUp(a)] + [Leave(a)] == [GiveUp(a), Leave(a)];
    RunNone(s2);
    RunNext(s1, Leave(a), [], s2);
    RunNext(s, GiveUp(a), [Leave(a)], s2);
  }

  lemma OwnEntry(s: State, a: Actor)
    requires Inv(s) && a in s.requests
    ensures IsChannel(s, s.requests[a].ch)
    ensures forall id :: id in s.pending && s.pending[id].ch == s.requests[a].ch ==> id == s.requests[a].id
    ensures s.requests[a].phase == Waiting ==> !s.requests[a].left
  {
    hide Jobs;
    SameLength(s);
    assert RequestIn(a, s.requests[a], s.chans, s.infos);
  }

  lemma GivesUp(s: State, a: Actor) returns (s1: State, s2: State)
    requires a in s.requests && s.requests[a].phase == Waiting && !s.requests[a].left
    requires IsChannel(s, s.requests[a].ch)
    requires forall id :: id in s.pending && s.pending[id].ch == s.requests[a].ch ==> id == s.requests[a].id
    ensures Enabled(s, GiveUp(a)) && s1 == Apply(s, GiveUp(a))
    ensures Enabled(s1, Leave(a)) && s2 == Apply(s1, Leave(a))
    ensures s2.requests == s.requests[a := s.requests[a].(phase := GaveUp, left := true)]
    ensures s2.chans == s.chans && s2.resolving == s.resolving
    ensures forall id :: id in s2.pending <==> id in s.pending && s.pending[id].ch != s.requests[a].ch
    ensures forall id :: id in s2.pending ==> s2.pending[id] == s.pending[id]
  {
    s1 := Apply(s, GiveUp(a));
    s2 := Apply(s1, Leave(a));
  }

  lemma SameLength(s: State)
    requires Inv(s)
    ensures |s.infos| == |s.chans|
  {}
}
