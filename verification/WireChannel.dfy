/** Why a link may treat a connection as a channel of whole frames: the wire under the write lock is one, a reader
    never takes a frame before all of it has arrived, and the serve loop dispatches what the channel holds. */
module WireChannel {
  import opened BigEndian
  import opened Wrappers
  import opened Frames
  import opened ByteChannel
  import opened Receiving
  import WireLock

  /** Part of a frame at the front is not yet a frame to take. */
  lemma PartIsNotTaken(f: Frame, written: seq<byte>)
    requires written <= Binary(f) && written != Binary(f)
    ensures Head(written) == None
  {
    if |written| >= HEADER_LENGTH {
      assert written[..HEADER_LENGTH] == EncodeHeader(HeaderOf(f));
      HeaderRoundTrip(HeaderOf(f));
      assert FirstItem(written).header == HeaderOf(f);
    }
  }

  /** Whatever whole frames are left, and whatever part of the next one has arrived, a reader takes the oldest
      whole frame, and nothing when there is none. */
  lemma OldestOrNothing(frames: seq<Frame>, f: Frame, written: seq<byte>)
    requires written <= Binary(f) && written != Binary(f)
    ensures Head(Concat(frames) + written) == if frames == [] then None else Some(frames[0])
  {
    hide Head;
    if frames == [] {
      assert Concat(frames) + written == written;
      PartIsNotTaken(f, written);
    } else {
      assert Concat(frames) + written == Binary(frames[0]) + (Concat(frames[1..]) + written);
      HeadOfFrame(frames[0], Concat(frames[1..]) + written);
    }
  }

  /** The channel that a wire is: its bytes, and the frames completed in lock order. */
  function ChannelOf(w: WireLock.Wire): Channel {
    Channel(w.bytes, WireLock.FramesOf(w.done))
  }

  /** Until the first failed write, for every interleaving of the senders: while nobody holds the lock the wire is a
      faithful channel, and while somebody does a reader finds the same completed frames in it. */
  lemma WireIsChannel(start: WireLock.Wire, steps: seq<WireLock.Step>, w: WireLock.Wire)
    requires WireLock.Start(start) && WireLock.Run(start, steps, w) && !w.torn
    ensures w.holder == None ==> Faithful(ChannelOf(w))
    ensures w.holder.Some? && w.holder.value.rest != [] ==>
              var written := w.holder.value.written;
              && w.bytes == Concat(WireLock.FramesOf(w.done)) + written
              && forall k :: 0 <= k <= |w.done| ==>
                   var left := WireLock.FramesOf(w.done)[k..];
                   Head(Concat(left) + written) == if left == [] then None else Some(left[0])
  {
    hide Head;
    hide WireLock.Run;
    WireLock.SharedWire(start, steps, w);
    if w.holder == None {
      assert Concat(WireLock.FramesOf(w.done)) + [] == Concat(WireLock.FramesOf(w.done));
    } else if w.holder.value.rest != [] {
      var h := w.holder.value;
      assert |h.written| < |h.written + h.rest|;
      forall k | 0 <= k <= |w.done|
        ensures var left := WireLock.FramesOf(w.done)[k..];
                Head(Concat(left) + h.written) == if left == [] then None else Some(left[0])
      {
        OldestOrNothing(WireLock.FramesOf(w.done)[k..], h.frame, h.written);
      }
    }
  }

  /** The serve loop on the bytes of a faithful channel dispatches its frames in order, and returns nil once it has
      dispatched them all. */
  lemma ServedFromChannel(c: Channel, max: nat, dispatched: seq<Dispatch>, end: ServeEnd)
    requires Faithful(c) && AllAdmitted(max, c.flying) && Served(max, c.bytes, dispatched, end)
    ensures Follows(dispatched, ItemsOf(c.flying))
    ensures end.Framing? ==> |dispatched| == |c.flying| && ReturnsNil(end)
  {
    hide Concat;
    assert c.bytes == Concat(c.flying) + [];
    ReadConcat(max, c.flying, []);
    assert ItemsOf(c.flying) + [] == ItemsOf(c.flying);
  }
}
