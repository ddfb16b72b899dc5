/** Any number of senders sharing one connection under the write lock. A step is one lock operation
    or one write of some bytes, so every interleaving of the senders is a sequence of steps. */
module WireLock {
  import opened BigEndian
  import opened Frames
  import opened Wrappers

  type Thread = nat

  /** The sender that holds the lock, its frame, and the frame's bytes already written and still to come. */
  datatype Hold = Hold(thread: Thread, frame: Frame, written: seq<byte>, rest: seq<byte>)
  datatype Sent = Sent(thread: Thread, frame: Frame)

  /** `todo` holds what each sender still wants to send, acknowledgements included; `done` the frames
      completed so far in the order the lock was taken; `torn` that some write of a frame failed. */
  datatype Wire = Wire(
    bytes: seq<byte>,
    holder: Option<Hold>,
    done: seq<Sent>,
    todo: map<Thread, seq<Frame>>,
    torn: bool)

  datatype Step = Acquire(thread: Thread) | Append(count: nat) | Release | Fail

  predicate Enabled(w: Wire, s: Step) {
    match s
    case Acquire(t) => w.holder == None && t in w.todo && w.todo[t] != []
    case Append(n) => w.holder.Some? && n <= |w.holder.value.rest|
    case Release => w.holder.Some? && w.holder.value.rest == []
    case Fail => w.holder.Some?
  }

  function Apply(w: Wire, s: Step): Wire
    requires Enabled(w, s)
  {
    match s
    case Acquire(t) =>
      var f := w.todo[t][0];
      w.(holder := Some(Hold(t, f, [], Binary(f))), todo := w.todo[t := w.todo[t][1..]])
    case Append(n) =>
      var h := w.holder.value;
      var bytes := h.rest[..n];
      w.(bytes := w.bytes + bytes, holder := Some(h.(written := h.written + bytes, rest := h.rest[n..])))
    case Release =>
      var h := w.holder.value;
      w.(holder := None, done := w.done + [Sent(h.thread, h.frame)])
    case Fail => w.(holder := None, torn := true)
  }

  ghost predicate Run(w: Wire, steps: seq<Step>, w': Wire)
    decreases |steps|
  {
    if steps == [] then w' == w
    else Enabled(w, steps[0]) && Run(Apply(w, steps[0]), steps[1..], w')
  }

  predicate Start(w: Wire) {
    w.bytes == [] && w.holder == None && w.done == [] && !w.torn
  }

  function FramesOf(done: seq<Sent>): (frames: seq<Frame>)
    ensures |frames| == |done|
  {
    if done == [] then [] else [done[0].frame] + FramesOf(done[1..])
  }

  lemma {:induction false} FramesOfAppend(done: seq<Sent>, last: Sent)
    ensures FramesOf(done + [last]) == FramesOf(done) + [last.frame]
  {
    if done == [] {
      assert FramesOf([]) == [];
      assert done + [last] == [last];
    } else {
      FramesOfAppend(done[1..], last);
      assert (done + [last])[1..] == done[1..] + [last];
    }
  }

  /** The frames one sender has completed, in order. */
  function SentBy(done: seq<Sent>, t: Thread): seq<Frame> {
    if done == [] then []
    else
      var front := SentBy(done[..|done| - 1], t);
      var last := done[|done| - 1];
      if last.thread == t then front + [last.frame] else front
  }

  lemma SentByAppend(done: seq<Sent>, last: Sent, t: Thread)
    ensures SentBy(done + [last], t) == SentBy(done, t) + (if last.thread == t then [last.frame] else [])
  {
    assert (done + [last])[..|done|] == done;
  }

  /** The bytes of the frame being written that are already on the wire. */
  function Partial(holder: Option<Hold>): seq<byte> {
    match holder
    case None => []
    case Some(h) => h.written
  }

  function Current(holder: Option<Hold>, t: Thread): seq<Frame> {
    if holder.Some? && holder.value.thread == t then [holder.value.frame] else []
  }

  /** Whole frames in lock order, then a prefix of the holder's frame. */
  ghost predicate WholeFrames(w: Wire) {
    && (w.holder.Some? ==> w.holder.value.written + w.holder.value.rest == Binary(w.holder.value.frame))
    && w.bytes == Concat(FramesOf(w.done)) + Partial(w.holder)
  }

  /** What a sender has completed, is writing, and still wants to send. */
  function Account(w: Wire, t: Thread): seq<Frame>
    requires t in w.todo
  {
    SentBy(w.done, t) + Current(w.holder, t) + w.todo[t]
  }

  /** Each sender's frames went out in its own order, none lost, none repeated. */
  ghost predicate InOrder(programs: map<Thread, seq<Frame>>, w: Wire) {
    && w.todo.Keys == programs.Keys
    && forall t :: t in programs ==> Account(w, t) == programs[t]
  }

  ghost predicate Inv(programs: map<Thread, seq<Frame>>, w: Wire) {
    !w.torn ==> WholeFrames(w) && InOrder(programs, w)
  }

  lemma AppendKept(w: Wire, n: nat)
    requires Enabled(w, Append(n)) && WholeFrames(w)
    ensures WholeFrames(Apply(w, Append(n)))
  {
    var h := w.holder.value;
    assert h.rest == h.rest[..n] + h.rest[n..];
    assert h.written + h.rest[..n] + h.rest[n..] == h.written + h.rest;
    assert Concat(FramesOf(w.done)) + h.written + h.rest[..n] == Concat(FramesOf(w.done)) + (h.written + h.rest[..n]);
  }

  lemma ReleaseKept(w: Wire)
    requires Enabled(w, Release) && WholeFrames(w)
    ensures WholeFrames(Apply(w, Release))
  {
    var h := w.holder.value;
    FramesOfAppend(w.done, Sent(h.thread, h.frame));
    ConcatAppend(FramesOf(w.done), [h.frame]);
    ConcatOne(h.frame);
    assert h.written + [] == h.written;
    assert w.bytes + [] == w.bytes;
  }

  lemma WholeFramesKept(w: Wire, s: Step)
    requires Enabled(w, s) && !s.Fail? && WholeFrames(w)
    ensures WholeFrames(Apply(w, s))
  {
    match s
    case Acquire(t) => assert w.bytes + [] == w.bytes;
    case Append(n) => AppendKept(w, n);
    case Release => ReleaseKept(w);
  }

  lemma AcquireInOrder(w: Wire, who: Thread, t: Thread)
    requires Enabled(w, Acquire(who)) && t in w.todo
    ensures Account(Apply(w, Acquire(who)), t) == Account(w, t)
  {
    var sent := SentBy(w.done, t);
    if who == t {
      assert w.todo[t] == [w.todo[t][0]] + w.todo[t][1..];
      assert sent + [] + w.todo[t] == sent + [w.todo[t][0]] + w.todo[t][1..];
    }
  }

  lemma ReleaseInOrder(w: Wire, t: Thread)
    requires Enabled(w, Release) && t in w.todo
    ensures Account(Apply(w, Release), t) == Account(w, t)
  {
    var h := w.holder.value;
    SentByAppend(w.done, Sent(h.thread, h.frame), t);
    var sent := SentBy(w.done, t) + Current(w.holder, t);
    assert sent + [] == sent;
  }

  lemma InOrderKept(programs: map<Thread, seq<Frame>>, w: Wire, s: Step)
    requires Enabled(w, s) && !s.Fail? && InOrder(programs, w)
    ensures InOrder(programs, Apply(w, s))
  {
    var w' := Apply(w, s);
    forall t | t in programs
      ensures Account(w', t) == programs[t]
    {
      match s
      case Acquire(who) => AcquireInOrder(w, who, t);
      case Append(n) =>
      case Release => ReleaseInOrder(w, t);
    }
  }

  lemma {:induction false} InvKept(programs: map<Thread, seq<Frame>>, w: Wire, steps: seq<Step>, w': Wire)
    requires Run(w, steps, w') && Inv(programs, w)
    ensures Inv(programs, w')
    decreases |steps|
  {
    if steps != [] {
      var next := Apply(w, steps[0]);
      if !next.torn {
        WholeFramesKept(w, steps[0]);
        InOrderKept(programs, w, steps[0]);
      }
      InvKept(programs, next, steps[1..], w');
    }
  }

  /** Until the first failed write, and for every interleaving of any number of senders, the wire is
      a concatenation of whole frames in lock order and a prefix of the holder's frame, and every
      sender's frames are on it in the order it sent them. */
  lemma SharedWire(start: Wire, steps: seq<Step>, w: Wire)
    requires Start(start) && Run(start, steps, w) && !w.torn
    ensures WholeFrames(w)
    ensures InOrder(start.todo, w)
  {
    assert Concat(FramesOf(start.done)) + Partial(start.holder) == start.bytes;
    forall t | t in start.todo
      ensures Account(start, t) == start.todo[t]
    {
      assert [] + [] + start.todo[t] == start.todo[t];
    }
    InvKept(start.todo, start, steps, w);
  }

  /** What is on the wire is never taken back, so the claim holds of the wire's beginning for ever. */
  lemma {:induction false} WireOnlyGrows(w: Wire, steps: seq<Step>, w': Wire)
    requires Run(w, steps, w')
    ensures w.bytes <= w'.bytes
    ensures w.done <= w'.done
    decreases |steps|
  {
    if steps != [] {
      WireOnlyGrows(Apply(w, steps[0]), steps[1..], w');
    }
  }

  lemma CutFrame(max: nat, f: Frame, written: seq<byte>)
    requires written <= Binary(f) && |written| >= HEADER_LENGTH && Admits(max, HeaderOf(f))
    ensures Read(max, written) == Reading([Item(HeaderOf(f), written[HEADER_LENGTH..])], AtBoundary)
  {
    assert FirstItem(written) == Item(HeaderOf(f), written[HEADER_LENGTH..]) by {
      assert written[..HEADER_LENGTH] == EncodeHeader(HeaderOf(f));
      HeaderRoundTrip(HeaderOf(f));
    }
    assert written[|written|..] == [];
    ReadStep(max, written);
  }

  lemma ReadPartial(max: nat, done: seq<Frame>, f: Frame, written: seq<byte>)
    requires AllAdmitted(max, done) && Admits(max, HeaderOf(f)) && written <= Binary(f)
    ensures Read(max, Concat(done) + written)
         == if |written| < HEADER_LENGTH then Reading(ItemsOf(done), if written == [] then AtBoundary else InHeader)
            else Reading(ItemsOf(done) + [Item(HeaderOf(f), written[HEADER_LENGTH..])], AtBoundary)
  {
    ReadConcat(max, done, written);
    if |written| < HEADER_LENGTH {
      assert ItemsOf(done) + [] == ItemsOf(done);
    } else {
      CutFrame(max, f, written);
    }
  }

  /** The peer that reads such a wire finds the completed frames in lock order, and then at most the
      holder's frame cut short. */
  lemma PeerReadsInLockOrder(start: Wire, steps: seq<Step>, w: Wire, max: nat)
    requires Start(start) && Run(start, steps, w) && !w.torn
    requires AllAdmitted(max, FramesOf(w.done))
    ensures w.holder == None ==> Read(max, w.bytes) == Reading(ItemsOf(FramesOf(w.done)), AtBoundary)
    ensures w.holder.Some? && Admits(max, HeaderOf(w.holder.value.frame)) ==>
              var written := w.holder.value.written;
              var done := ItemsOf(FramesOf(w.done));
              Read(max, w.bytes) ==
                if |written| < HEADER_LENGTH then Reading(done, if written == [] then AtBoundary else InHeader)
                else Reading(done + [Item(HeaderOf(w.holder.value.frame), written[HEADER_LENGTH..])], AtBoundary)
  {
    SharedWire(start, steps, w);
    var done := FramesOf(w.done);
    if w.holder == None {
      ReadConcat(max, done, []);
      assert ItemsOf(done) + [] == ItemsOf(done);
    } else if Admits(max, HeaderOf(w.holder.value.frame)) {
      ReadPartial(max, done, w.holder.value.frame, w.holder.value.written);
    }
  }

  // ----- frames go out -----

  lemma RunNext(w: Wire, s: Step, rest: seq<Step>, w': Wire)
    requires Enabled(w, s) && Run(Apply(w, s), rest, w')
    ensures Run(w, [s] + rest, w')
  {
    assert ([s] + rest)[1..] == rest;
  }

  /** Whenever the lock is free, a sender can write its next frame, in two pieces of any size, and free the lock: the
      wire has gained exactly that frame, and the other senders' programs are as before. */
  lemma FrameGoesOut(w: Wire, t: Thread, n: nat)
    requires w.holder == None && t in w.todo && w.todo[t] != [] && n <= |Binary(w.todo[t][0])|
    ensures var f := w.todo[t][0];
            var w' := Wire(w.bytes + Binary(f), None, w.done + [Sent(t, f)], w.todo[t := w.todo[t][1..]], w.torn);
            Run(w, [Acquire(t), Append(n), Append(|Binary(f)| - n), Release], w')
  {
    hide Binary;
    var f := w.todo[t][0];
    var bytes := Binary(f);
    var w1 := Apply(w, Acquire(t));
    var w2 := Apply(w1, Append(n));
    var w3 := Apply(w2, Append(|bytes| - n));
    assert bytes[n..][..|bytes| - n] == bytes[n..] && bytes[n..][|bytes| - n..] == [];
    assert w.bytes + bytes[..n] + bytes[n..] == w.bytes + bytes;
    var w4 := Apply(w3, Release);
    assert Run(w4, [], w4);
    assert [Release] + [] == [Release];
    RunNext(w3, Release, [], w4);
    assert [Append(|bytes| - n)] + [Release] == [Append(|bytes| - n), Release];
    RunNext(w2, Append(|bytes| - n), [Release], w4);
    assert [Append(n)] + [Append(|bytes| - n), Release] == [Append(n), Append(|bytes| - n), Release];
    RunNext(w1, Append(n), [Append(|bytes| - n), Release], w4);
    assert [Acquire(t)] + [Append(n), Append(|bytes| - n), Release]
        == [Acquire(t), Append(n), Append(|bytes| - n), Release];
    RunNext(w, Acquire(t), [Append(n), Append(|bytes| - n), Release], w4);
  }

  /** A failed write frees the lock for the others, leaves what is on the wire, and is remembered for good. */
  lemma FailureFreesLock(w: Wire, steps: seq<Step>, w': Wire)
    requires w.holder.Some? && Run(Apply(w, Fail), steps, w')
    ensures Apply(w, Fail).holder == None && Apply(w, Fail).bytes == w.bytes && Apply(w, Fail).todo == w.todo
    ensures w'.torn
  {
    TornStays(Apply(w, Fail), steps, w');
  }

  lemma {:induction false} TornStays(w: Wire, steps: seq<Step>, w': Wire)
    requires w.torn && Run(w, steps, w')
    ensures w'.torn
    decreases |steps|
  {
    if steps != [] {
      TornStays(Apply(w, steps[0]), steps[1..], w');
    }
  }

  /** The wire on which nothing has happened yet, for any programs of the senders. */
  lemma FreshStarts(programs: map<Thread, seq<Frame>>)
    ensures Start(Wire([], None, [], programs, false))
  {}
}
