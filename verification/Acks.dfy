/** The table of pending acknowledgements: attempts register a fresh channel under their message id,
    resolvers take the channel out under the lock and close it after leaving the lock. */
module Acks {
  import opened BigEndian
  import opened Wrappers

  /** Channels are numbered in the order they are made. */
  type Channel = nat

  /** `closes[ch]` counts how often channel `ch` has been closed; a second close would panic. */
  datatype Table = Table(pending: map<uint64, Channel>, closes: seq<nat>)

  function Registered(t: Table, id: uint64): Table {
    Table(t.pending[id := |t.closes|], t.closes + [0])
  }

  function Unregistered(t: Table, id: uint64, ch: Channel): Table {
    if id in t.pending && t.pending[id] == ch then t.(pending := t.pending - {id}) else t
  }

  function Found(t: Table, id: uint64): Option<Channel> {
    if id in t.pending then Some(t.pending[id]) else None
  }

  function Closed(t: Table, ch: Channel): Table
    requires ch < |t.closes|
  {
    t.(closes := t.closes[ch := t.closes[ch] + 1])
  }

  class AckTable {
    var pending: map<uint64, Channel>
    var closes: seq<nat>

    constructor ()
      ensures State() == Table(map[], [])
    {
      pending, closes := map[], [];
    }

    ghost function State(): Table
      reads this
    {
      Table(pending, closes)
    }

    method RegisterPendingAck(id: uint64) returns (ch: Channel)
      modifies this
      ensures ch == |old(closes)| && State() == Registered(old(State()), id)
    {
      ch := |closes|;
      closes := closes + [0];
      pending := pending[id := ch];
    }

    method UnregisterPendingAck(id: uint64, ch: Channel)
      modifies this
      ensures State() == Unregistered(old(State()), id, ch)
    {
      if id in pending && pending[id] == ch {
        pending := pending - {id};
      }
    }

    /** The part of resolving under the lock. */
    method TakeOut(id: uint64) returns (ch: Option<Channel>)
      modifies this
      ensures ch == Found(old(State()), id)
      ensures State() == old(State()).(pending := old(pending) - {id})
    {
      ch := None;
      if id in pending {
        ch := Some(pending[id]);
      }
      pending := pending - {id};
    }

    method ResolveAck(id: uint64)
      requires id in pending ==> pending[id] < |closes|
      modifies this
      ensures State() ==
              match Found(old(State()), id)
              case None => old(State())
              case Some(ch) => Closed(old(State()).(pending := old(pending) - {id}), ch)
    {
      var ch := TakeOut(id);
      assert ch == None ==> pending == old(pending);
      if ch.Some? {
        closes := closes[ch.value := closes[ch.value] + 1];
      }
    }

    /** One awaited attempt, when nothing but the arrival of one acknowledgement comes between its registration and
        its clean-up: it is told of the acknowledgement exactly when that is for its own id, and it leaves no entry. */
    method AwaitedAttempt(id: uint64, arrives: Option<uint64>) returns (acked: bool)
      requires forall k :: k in pending ==> pending[k] < |closes|
      modifies this
      ensures acked <==> arrives == Some(id)
      ensures pending == if arrives.Some? then old(pending) - {id, arrives.value} else old(pending) - {id}
      ensures |closes| == |old(closes)| + 1
      ensures closes[|old(closes)|] == if arrives == Some(id) then 1 else 0
    {
      var ch := RegisterPendingAck(id);
      if arrives.Some? {
        ResolveAck(arrives.value);
      }
      acked := closes[ch] > 0;
      UnregisterPendingAck(id, ch);
    }
  }

  // ----- every interleaving of attempts and resolvers -----

  type Actor = nat

  datatype Registration = Registration(id: uint64, ch: Channel)

  /** `attempts` are the registrations of the attempts under way, `holding` the channels that resolvers
      have taken out and not closed yet, `ids[ch]` the id channel `ch` was made for. */
  datatype State = State(
    table: Table,
    attempts: map<Actor, Registration>,
    holding: map<Actor, Channel>,
    ids: seq<uint64>)

  datatype Step =
    | Register(attempt: Actor, id: uint64)
    | Unregister(attempt: Actor)
    | Take(resolver: Actor, id: uint64)
    | Close(resolver: Actor)

  predicate Enabled(s: State, step: Step) {
    match step
    case Register(t, _) => t !in s.attempts
    case Unregister(t) => t in s.attempts
    case Take(r, _) => r !in s.holding
    case Close(r) => r in s.holding && s.holding[r] < |s.table.closes|
  }

  function Apply(s: State, step: Step): State
    requires Enabled(s, step)
  {
    match step
    case Register(t, id) =>
      s.(table := Registered(s.table, id),
         attempts := s.attempts[t := Registration(id, |s.table.closes|)],
         ids := s.ids + [id])
    case Unregister(t) =>
      s.(table := Unregistered(s.table, s.attempts[t].id, s.attempts[t].ch), attempts := s.attempts - {t})
    case Take(r, id) =>
      (match Found(s.table, id)
       case None => s
       case Some(ch) =>
         s.(table := s.table.(pending := s.table.pending - {id}), holding := s.holding[r := ch]))
    case Close(r) =>
      s.(table := Closed(s.table, s.holding[r]), holding := s.holding - {r})
  }

  const EMPTY: State := State(Table(map[], []), map[], map[], [])

  ghost predicate IsOpen(s: State, ch: Channel) {
    ch < |s.table.closes| && s.table.closes[ch] == 0
  }

  ghost predicate Inv(s: State) {
    && |s.ids| == |s.table.closes|
    && (forall id :: id in s.table.pending ==>
          IsOpen(s, s.table.pending[id]) && s.ids[s.table.pending[id]] == id)
    && (forall r :: r in s.holding ==> IsOpen(s, s.holding[r]))
    && (forall r, id :: r in s.holding && id in s.table.pending ==> s.holding[r] != s.table.pending[id])
    && (forall r, q :: r in s.holding && q in s.holding && r != q ==> s.holding[r] != s.holding[q])
    && (forall ch :: 0 <= ch < |s.table.closes| ==> s.table.closes[ch] <= 1)
    && (forall t :: t in s.attempts ==>
          s.attempts[t].ch < |s.ids| && s.ids[s.attempts[t].ch] == s.attempts[t].id)
    && (forall t, u :: t in s.attempts && u in s.attempts && t != u ==> s.attempts[t].ch != s.attempts[u].ch)
  }

  /** Each channel still known by an id was made for that id. */
  ghost predicate Named(s: State) {
    && |s.ids| == |s.table.closes|
    && (forall id :: id in s.table.pending ==>
          s.table.pending[id] < |s.ids| && s.ids[s.table.pending[id]] == id)
    && (forall t :: t in s.attempts ==>
          s.attempts[t].ch < |s.ids| && s.ids[s.attempts[t].ch] == s.attempts[t].id)
  }

  lemma NamedKept(s: State, step: Step)
    requires Enabled(s, step) && Named(s)
    ensures Named(Apply(s, step))
  {}

  lemma RegisterKept(s: State, t: Actor, id: uint64)
    requires Enabled(s, Register(t, id)) && Inv(s)
    ensures Inv(Apply(s, Register(t, id)))
  {}

  lemma UnregisterKept(s: State, t: Actor)
    requires Enabled(s, Unregister(t)) && Inv(s)
    ensures Inv(Apply(s, Unregister(t)))
  {}

  lemma TakeKept(s: State, r: Actor, id: uint64)
    requires Enabled(s, Take(r, id)) && Inv(s)
    ensures Inv(Apply(s, Take(r, id)))
  {}

  lemma CloseKept(s: State, r: Actor)
    requires Enabled(s, Close(r)) && Inv(s)
    ensures Inv(Apply(s, Close(r)))
  {}

  lemma InvKept(s: State, step: Step)
    requires Enabled(s, step) && Inv(s)
    ensures Inv(Apply(s, step))
  {
    match step
    case Register(t, id) => RegisterKept(s, t, id);
    case Unregister(t) => UnregisterKept(s, t);
    case Take(r, id) => TakeKept(s, r, id);
    case Close(r) => CloseKept(s, r);
  }

  ghost predicate Run(s: State, steps: seq<Step>, s': State)
    decreases |steps|
  {
    if steps == [] then s' == s
    else Enabled(s, steps[0]) && Run(Apply(s, steps[0]), steps[1..], s')
  }

  lemma {:induction false} RunKeepsInv(s: State, steps: seq<Step>, s': State)
    requires Run(s, steps, s') && Inv(s)
    ensures Inv(s')
    decreases |steps|
  {
    if steps != [] {
      InvKept(s, steps[0]);
      RunKeepsInv(Apply(s, steps[0]), steps[1..], s');
    }
  }

  /** In every interleaving, reused ids included, every channel in the table is open, and a resolver
      about to close a channel is the only one that ever does. */
  lemma ChannelsCloseOnce(steps: seq<Step>, s: State)
    requires Run(EMPTY, steps, s)
    ensures forall id :: id in s.table.pending ==> IsOpen(s, s.table.pending[id])
    ensures forall r :: r in s.holding ==> IsOpen(s, s.holding[r])
    ensures forall ch :: 0 <= ch < |s.table.closes| ==> s.table.closes[ch] <= 1
    ensures forall r, q :: r in s.holding && q in s.holding && s.holding[r] == s.holding[q] ==> r == q
  {
    RunKeepsInv(EMPTY, steps, s);
  }

  /** A registration leaves the table only through its own attempt's clean-up, a resolver of its id, or a
      newer registration of the same id: the clean-up of any other attempt leaves it in place. */
  lemma CleanUpSparesOthers(steps: seq<Step>, s: State, t: Actor, step: Step)
    requires Run(EMPTY, steps, s) && Enabled(s, step)
    requires t in s.attempts && Found(s.table, s.attempts[t].id) == Some(s.attempts[t].ch)
    ensures var reg := s.attempts[t];
            Found(Apply(s, step).table, reg.id) == Some(reg.ch) <==>
              !(step == Unregister(t)
                || (step.Take? && step.id == reg.id)
                || (step.Register? && step.id == reg.id))
  {
    RunKeepsInv(EMPTY, steps, s);
  }

  // ----- which channels are closed, and when -----

  /** A resolver of the channel's id comes at step `k`, while the channel is in the table. */
  ghost predicate TakenAt(s: State, steps: seq<Step>, k: nat, ch: Channel)
    decreases |steps|
  {
    && k < |steps| && Enabled(s, steps[0])
    && if k == 0 then steps[0].Take? && Found(s.table, steps[0].id) == Some(ch)
       else TakenAt(Apply(s, steps[0]), steps[1..], k - 1, ch)
  }

  ghost predicate Taken(s: State, steps: seq<Step>, ch: Channel) {
    exists k: nat :: TakenAt(s, steps, k, ch)
  }

  /** The channel has been closed, or a resolver is about to close it. */
  ghost predicate Resolved(s: State, ch: Channel) {
    ch < |s.table.closes| && (s.table.closes[ch] == 1 || exists r :: r in s.holding && s.holding[r] == ch)
  }

  lemma ResolvedStep(s: State, step: Step, ch: Channel)
    requires Inv(s) && Enabled(s, step)
    ensures Resolved(Apply(s, step), ch) <==>
              Resolved(s, ch) || (step.Take? && Found(s.table, step.id) == Some(ch))
  {
    var s' := Apply(s, step);
    if step.Take? && Found(s.table, step.id) == Some(ch) {
      assert s'.holding[step.resolver] == ch;
    }
    if r :| r in s.holding && s.holding[r] == ch && ch < |s.table.closes| {
      assert step == Close(r) || s'.holding[r] == ch;
    }
  }

  /** In every interleaving a channel has been closed, or is about to be, if and only if a resolver of its id came
      while it was in the table: no acknowledgement is lost, and none is made up. */
  lemma {:induction false} ClosedIfTaken(s: State, steps: seq<Step>, s': State, ch: Channel)
    requires Inv(s) && Run(s, steps, s')
    ensures Resolved(s', ch) <==> Resolved(s, ch) || Taken(s, steps, ch)
    decreases |steps|
  {
    hide Inv;
    hide Enabled;
    hide Apply;
    hide Resolved;
    if steps == [] {
      assert forall k: nat :: !TakenAt(s, steps, k, ch);
    } else {
      var next, rest := Apply(s, steps[0]), steps[1..];
      InvKept(s, steps[0]);
      ResolvedStep(s, steps[0], ch);
      ClosedIfTaken(next, rest, s', ch);
      TakenNext(s, steps, ch);
    }
  }

  lemma TakenNext(s: State, steps: seq<Step>, ch: Channel)
    requires steps != [] && Enabled(s, steps[0])
    ensures Taken(s, steps, ch) <==>
              || (steps[0].Take? && Found(s.table, steps[0].id) == Some(ch))
              || Taken(Apply(s, steps[0]), steps[1..], ch)
  {
    hide Apply;
    hide Enabled;
    var next, rest := Apply(s, steps[0]), steps[1..];
    if Taken(next, rest, ch) {
      var k: nat :| TakenAt(next, rest, k, ch);
      assert TakenAt(s, steps, k + 1, ch);
    }
    if steps[0].Take? && Found(s.table, steps[0].id) == Some(ch) {
      assert TakenAt(s, steps, 0, ch);
    }
    if Taken(s, steps, ch) {
      var k: nat :| TakenAt(s, steps, k, ch);
      if k == 0 {
        assert TakenAt(s, steps, 0, ch);
      } else {
        var j: nat := k - 1;
        assert TakenAt(next, rest, j, ch);
      }
    }
  }

  /** Whatever has happened before, a new attempt and one resolver of its id can go through with nothing between
      them: the attempt's channel is closed once, and the table is then as before without the id. */
  lemma AcknowledgementArrives(s: State, t: Actor, r: Actor, id: uint64)
    requires t !in s.attempts && r !in s.holding
    ensures exists s' :: Run(s, [Register(t, id), Take(r, id), Close(r), Unregister(t)], s')
                         && s'.table == Table(s.table.pending - {id}, s.table.closes + [1])
                         && s'.attempts == s.attempts && s'.holding == s.holding
  {
    hide Run;
    var s1, s2, s3, s4 := Arrives(s, t, r, id);
    assert [Unregister(t)] + [] == [Unregister(t)];
    assert [Close(r)] + [Unregister(t)] == [Close(r), Unregister(t)];
    assert [Take(r, id)] + [Close(r), Unregister(t)] == [Take(r, id), Close(r), Unregister(t)];
    assert [Register(t, id)] + [Take(r, id), Close(r), Unregister(t)]
        == [Register(t, id), Take(r, id), Close(r), Unregister(t)];
    RunNone(s4);
    RunNext(s3, Unregister(t), [], s4);
    RunNext(s2, Close(r), [Unregister(t)], s4);
    RunNext(s1, Take(r, id), [Close(r), Unregister(t)], s4);
    RunNext(s, Register(t, id), [Take(r, id), Close(r), Unregister(t)], s4);
  }

  lemma Arrives(s: State, t: Actor, r: Actor, id: uint64) returns (s1: State, s2: State, s3: State, s4: State)
    requires t !in s.attempts && r !in s.holding
    ensures Enabled(s, Register(t, id)) && s1 == Apply(s, Register(t, id))
    ensures Enabled(s1, Take(r, id)) && s2 == Apply(s1, Take(r, id))
    ensures Enabled(s2, Close(r)) && s3 == Apply(s2, Close(r))
    ensures Enabled(s3, Unregister(t)) && s4 == Apply(s3, Unregister(t))
    ensures s4.table == Table(s.table.pending - {id}, s.table.closes + [1])
    ensures s4.attempts == s.attempts && s4.holding == s.holding
  {
    var n := |s.table.closes|;
    s1 := Apply(s, Register(t, id));
    s2 := Apply(s1, Take(r, id));
    s3 := Apply(s2, Close(r));
    s4 := Apply(s3, Unregister(t));
    assert s3.table.closes == s.table.closes + [1];
    assert s2.table.pending == s.table.pending - {id};
  }

  /** A resolver that finds a channel and closes it has changed nothing else. */
  lemma ResolvesOnce(s: State, r: Actor, id: uint64)
    requires r !in s.holding && id in s.table.pending && s.table.pending[id] < |s.table.closes|
    ensures Enabled(s, Take(r, id)) && Enabled(Apply(s, Take(r, id)), Close(r))
    ensures var ch, t := s.table.pending[id], s.table;
            Apply(Apply(s, Take(r, id)), Close(r)) == s.(table := Table(t.pending - {id},
                                                                        t.closes[ch := t.closes[ch] + 1]))
  {
    assert Apply(Apply(s, Take(r, id)), Close(r)).holding == s.holding;
  }

  lemma RunNone(s: State)
    ensures Run(s, [], s)
  {}

  lemma RunNext(s: State, step: Step, rest: seq<Step>, s': State)
    requires Enabled(s, step) && Run(Apply(s, step), rest, s')
    ensures Run(s, [step] + rest, s')
  {
    assert ([step] + rest)[1..] == rest;
  }
}
