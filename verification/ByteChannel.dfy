/** One direction of a connection between two messengers, as the bytes written and not yet read. */
module ByteChannel {
  import opened BigEndian
  import opened Frames
  import opened Wrappers

  /** `flying` records the frames that the bytes were written as; nothing a reader does depends on it. */
  datatype Channel = Channel(bytes: seq<byte>, flying: seq<Frame>)

  const EMPTY: Channel := Channel([], [])

  function Push(c: Channel, f: Frame): Channel {
    Channel(c.bytes + Binary(f), c.flying + [f])
  }

  /** The frame a reader finds at the front of the bytes, once all of it has arrived. */
  function Head(bytes: seq<byte>): Option<Frame> {
    if |bytes| < HEADER_LENGTH || !Whole(FirstItem(bytes)) then None
    else
      var item := FirstItem(bytes);
      Some(Message(item.header.id, item.header.typ, item.payload))
  }

  predicate CanTake(c: Channel) {
    Head(c.bytes).Some?
  }

  function Front(c: Channel): Frame
    requires CanTake(c)
  {
    Head(c.bytes).value
  }

  function Rest(c: Channel): Channel
    requires CanTake(c)
  {
    Channel(c.bytes[HEADER_LENGTH + |Front(c).payload|..], if c.flying == [] then [] else c.flying[1..])
  }

  /** The bytes are whole frames, and the record says which. */
  ghost predicate Faithful(c: Channel) {
    c.bytes == Concat(c.flying)
  }

  lemma PushFaithful(c: Channel, f: Frame)
    requires Faithful(c)
    ensures Faithful(Push(c, f))
  {
    ConcatAppend(c.flying, [f]);
    ConcatOne(f);
  }

  lemma HeadOfFrame(f: Frame, rest: seq<byte>)
    ensures Head(Binary(f) + rest) == Some(f)
    ensures (Binary(f) + rest)[HEADER_LENGTH + |f.payload|..] == rest
  {
    var bytes := Binary(f) + rest;
    assert FirstItem(bytes) == ItemOf(f) by {
      assert bytes[..HEADER_LENGTH] == EncodeHeader(HeaderOf(f));
      HeaderRoundTrip(HeaderOf(f));
      assert bytes[HEADER_LENGTH..HEADER_LENGTH + |f.payload|] == f.payload;
    }
  }

  /** A reader of whole frames gets the oldest frame and leaves the others. */
  lemma TakeFaithful(c: Channel)
    requires Faithful(c) && CanTake(c)
    ensures c.flying != [] && Front(c) == c.flying[0] && Faithful(Rest(c))
  {
    if c.flying != [] {
      HeadOfFrame(c.flying[0], Concat(c.flying[1..]));
    }
  }
}
