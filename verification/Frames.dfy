/** The wire format of a message and the recursive reading of a byte stream as frames. */
module Frames {
  import opened BigEndian

  const HEADER_LENGTH: nat := 16

  /** The message type of acknowledgements. */
  const ACKNOWLEDGE_TYPE: uint32 := 0xFFFF_FFFF

  datatype Header = Header(id: uint64, typ: uint32, length: uint32)

  /** A message with its whole payload in memory; the payload may be longer than a frame can carry. */
  datatype Message = Message(id: uint64, typ: uint32, payload: seq<byte>)

  /** A message whose length field is the length of its payload. */
  type Frame = m: Message | |m.payload| <= MAX_UINT32 witness Message(1, 0, [])

  // ----- headers -----

  function EncodeHeader(h: Header): (bytes: seq<byte>)
    ensures |bytes| == HEADER_LENGTH
  {
    Put(h.id, 8) + Put(h.typ, 4) + Put(h.length, 4)
  }

  function DecodeHeader(bytes: seq<byte>): Header
    requires |bytes| == HEADER_LENGTH
  {
    Limits();
    Header(Get(bytes[0..8]), Get(bytes[8..12]), Get(bytes[12..16]))
  }

  /** The bytes of a header: id, type and length, each with its most significant byte first. */
  lemma HeaderBytes(h: Header, i: nat)
    ensures i < 8 ==> EncodeHeader(h)[i] == h.id / Limit(7 - i) % 256
    ensures i < 4 ==> EncodeHeader(h)[8 + i] == h.typ / Limit(3 - i) % 256
    ensures i < 4 ==> EncodeHeader(h)[12 + i] == h.length / Limit(3 - i) % 256
  {
    if i < 8 {
      PutAt(h.id, 8, i);
    }
    if i < 4 {
      PutAt(h.typ, 4, i);
      PutAt(h.length, 4, i);
    }
  }

  lemma HeaderRoundTrip(h: Header)
    ensures DecodeHeader(EncodeHeader(h)) == h
  {
    Limits();
    var bytes := EncodeHeader(h);
    assert bytes[0..8] == Put(h.id, 8);
    assert bytes[8..12] == Put(h.typ, 4);
    assert bytes[12..16] == Put(h.length, 4);
    GetPut(h.id, 8);
    GetPut(h.typ, 4);
    GetPut(h.length, 4);
  }

  lemma HeaderBytesRoundTrip(bytes: seq<byte>)
    requires |bytes| == HEADER_LENGTH
    ensures EncodeHeader(DecodeHeader(bytes)) == bytes
  {
    PutGet(bytes[0..8]);
    PutGet(bytes[8..12]);
    PutGet(bytes[12..16]);
    assert bytes == bytes[0..8] + bytes[8..12] + bytes[12..16];
  }

  // ----- whole messages -----

  /** The length field holds the payload length cut to 32 bits. */
  function HeaderOf(m: Message): Header {
    Header(m.id, m.typ, |m.payload| % 0x1_0000_0000)
  }

  function Binary(m: Message): seq<byte> {
    EncodeHeader(HeaderOf(m)) + m.payload
  }

  datatype ParseError = TooShort | LengthMismatch | IdRequired
  datatype Parse = Accepted(message: Message) | Rejected(error: ParseError)

  function ParseBinary(raw: seq<byte>): Parse {
    if |raw| < HEADER_LENGTH then Rejected(TooShort)
    else
      var h := DecodeHeader(raw[..HEADER_LENGTH]);
      var payload := raw[HEADER_LENGTH..];
      if |payload| != h.length then Rejected(LengthMismatch)
      else if h.id == 0 then Rejected(IdRequired)
      else Accepted(Message(h.id, h.typ, payload))
  }

  /** Parsing undoes printing exactly for the messages with an id whose payload length fits 32 bits. */
  lemma ParseAfterBinary(m: Message)
    ensures ParseBinary(Binary(m)) == Accepted(m) <==> m.id != 0 && |m.payload| <= MAX_UINT32
    ensures |m.payload| > MAX_UINT32 ==> ParseBinary(Binary(m)) == Rejected(LengthMismatch)
    ensures m.id == 0 ==> ParseBinary(Binary(m)).Rejected?
  {
    var raw := Binary(m);
    assert raw[..HEADER_LENGTH] == EncodeHeader(HeaderOf(m));
    assert raw[HEADER_LENGTH..] == m.payload;
    HeaderRoundTrip(HeaderOf(m));
  }

  /** Printing undoes parsing on every accepted byte string. */
  lemma BinaryAfterParse(raw: seq<byte>)
    requires ParseBinary(raw).Accepted?
    ensures Binary(ParseBinary(raw).message) == raw
  {
    HeaderBytesRoundTrip(raw[..HEADER_LENGTH]);
    assert raw == raw[..HEADER_LENGTH] + raw[HEADER_LENGTH..];
  }

  /** The accepted byte strings are the images of the messages that `ParseAfterBinary` names. */
  lemma AcceptedBytes(raw: seq<byte>)
    ensures ParseBinary(raw).Accepted? <==> exists f: Frame :: f.id != 0 && Binary(f) == raw
  {
    if ParseBinary(raw).Accepted? {
      BinaryAfterParse(raw);
      var f: Frame := ParseBinary(raw).message;
      assert f.id != 0 && Binary(f) == raw;
    }
    if f: Frame :| f.id != 0 && Binary(f) == raw {
      ParseAfterBinary(f);
    }
  }

  /** The other byte strings are told apart by the frame they print, if any. */
  lemma RejectedExactly(raw: seq<byte>)
    ensures ParseBinary(raw) == Rejected(TooShort) <==> |raw| < 16
    ensures ParseBinary(raw) == Rejected(IdRequired) <==> exists f: Frame :: f.id == 0 && Binary(f) == raw
    ensures ParseBinary(raw) == Rejected(LengthMismatch) <==> |raw| >= 16 && !exists f: Frame :: Binary(f) == raw
  {
    hide DecodeHeader;
    hide Binary;
    if |raw| >= HEADER_LENGTH && |raw| - HEADER_LENGTH == DecodeHeader(raw[..HEADER_LENGTH]).length {
      var f := FrameOf(raw);
    }
    if f: Frame :| Binary(f) == raw {
      ParseOfFrame(f);
    }
    if f: Frame :| f.id == 0 && Binary(f) == raw {
      ParseOfFrame(f);
    }
  }

  lemma FrameOf(raw: seq<byte>) returns (f: Frame)
    requires |raw| >= HEADER_LENGTH && |raw| - HEADER_LENGTH == DecodeHeader(raw[..HEADER_LENGTH]).length
    ensures Binary(f) == raw && f.id == DecodeHeader(raw[..HEADER_LENGTH]).id
  {
    var h := DecodeHeader(raw[..HEADER_LENGTH]);
    f := Message(h.id, h.typ, raw[HEADER_LENGTH..]);
    HeaderBytesRoundTrip(raw[..HEADER_LENGTH]);
    assert raw == raw[..HEADER_LENGTH] + raw[HEADER_LENGTH..];
  }

  lemma ParseOfFrame(f: Frame)
    ensures ParseBinary(Binary(f)) == if f.id == 0 then Rejected(IdRequired) else Accepted(f)
    ensures |Binary(f)| >= HEADER_LENGTH
  {
    hide EncodeHeader;
    hide DecodeHeader;
    var raw := Binary(f);
    assert raw[..HEADER_LENGTH] == EncodeHeader(HeaderOf(f));
    assert raw[HEADER_LENGTH..] == f.payload;
    HeaderRoundTrip(HeaderOf(f));
  }

  // ----- streams of frames -----

  function Concat(frames: seq<Frame>): seq<byte> {
    if frames == [] then [] else Binary(frames[0]) + Concat(frames[1..])
  }

  lemma {:induction false} ConcatAppend(xs: seq<Frame>, ys: seq<Frame>)
    ensures Concat(xs + ys) == Concat(xs) + Concat(ys)
  {
    if xs == [] {
      assert xs + ys == ys;
    } else {
      assert (xs + ys)[0] == xs[0] && (xs + ys)[1..] == xs[1..] + ys;
      calc {
        Concat(xs + ys);
        Binary(xs[0]) + Concat(xs[1..] + ys);
        { ConcatAppend(xs[1..], ys); }
        Binary(xs[0]) + (Concat(xs[1..]) + Concat(ys));
        (Binary(xs[0]) + Concat(xs[1..])) + Concat(ys);
        Concat(xs) + Concat(ys);
      }
    }
  }

  lemma ConcatOne(f: Frame)
    ensures Concat([f]) == Binary(f)
  {
    assert Concat([]) == [];
  }

  /** No frame's bytes start another's: what follows a frame never changes how it is read. */
  lemma PrefixFree(f: Frame, x: seq<byte>, g: Frame, y: seq<byte>)
    requires Binary(f) + x == Binary(g) + y
    ensures f == g && x == y
  {
    var s := Binary(f) + x;
    assert s[..HEADER_LENGTH] == EncodeHeader(HeaderOf(f));
    assert s[..HEADER_LENGTH] == EncodeHeader(HeaderOf(g));
    HeaderRoundTrip(HeaderOf(f));
    HeaderRoundTrip(HeaderOf(g));
    assert s[HEADER_LENGTH..][..|f.payload|] == f.payload;
    assert s[HEADER_LENGTH..][..|g.payload|] == g.payload;
    assert s[|Binary(f)|..] == x;
    assert s[|Binary(g)|..] == y;
  }

  /** A concatenation of frames splits in only one way. */
  lemma {:induction false} UniqueSplit(fs: seq<Frame>, gs: seq<Frame>)
    requires Concat(fs) == Concat(gs)
    ensures fs == gs
  {
    if fs != [] && gs != [] {
      PrefixFree(fs[0], Concat(fs[1..]), gs[0], Concat(gs[1..]));
      UniqueSplit(fs[1..], gs[1..]);
      assert fs == [fs[0]] + fs[1..];
      assert gs == [gs[0]] + gs[1..];
    }
  }

  /** Why the reading of a stream stops. */
  datatype End = AtBoundary | InHeader | ZeroId | Oversized

  /** One dispatched header with the payload bytes the stream still holds for it. */
  datatype Item = Item(header: Header, payload: seq<byte>)
  datatype Reading = Reading(items: seq<Item>, end: End) {
    function After(before: seq<Item>): Reading {
      Reading(before + items, end)
    }
  }

  /** `max` is the received-size limit; 0 means none. */
  predicate Admits(max: nat, h: Header) {
    h.id != 0 && (max > 0 ==> h.length <= max)
  }

  function Min(a: nat, b: nat): nat {
    if a <= b then a else b
  }

  /** The frames of a byte stream, up to the first rejected header or the end of the stream. */
  function Read(max: nat, stream: seq<byte>): (r: Reading)
    decreases |stream|
  {
    if stream == [] then Reading([], AtBoundary)
    else if |stream| < HEADER_LENGTH then Reading([], InHeader)
    else
      var h := DecodeHeader(stream[..HEADER_LENGTH]);
      if h.id == 0 then Reading([], ZeroId)
      else if !Admits(max, h) then Reading([], Oversized)
      else
        var end := HEADER_LENGTH + Min(h.length, |stream| - HEADER_LENGTH);
        Read(max, stream[end..]).After([Item(h, stream[HEADER_LENGTH..end])])
  }

  /** The frame at the front of a stream, for a header that is admitted. */
  function FirstItem(stream: seq<byte>): (item: Item)
    requires |stream| >= HEADER_LENGTH
    ensures |item.payload| <= item.header.length
    ensures |item.payload| < item.header.length ==> HEADER_LENGTH + |item.payload| == |stream|
  {
    var h := DecodeHeader(stream[..HEADER_LENGTH]);
    Item(h, stream[HEADER_LENGTH..HEADER_LENGTH + Min(h.length, |stream| - HEADER_LENGTH)])
  }

  lemma ReadStep(max: nat, stream: seq<byte>)
    requires |stream| >= HEADER_LENGTH && Admits(max, FirstItem(stream).header)
    ensures var item := FirstItem(stream);
            Read(max, stream) == Read(max, stream[HEADER_LENGTH + |item.payload|..]).After([item])
  {}

  function ItemOf(f: Frame): Item {
    Item(HeaderOf(f), f.payload)
  }

  function ItemsOf(frames: seq<Frame>): (items: seq<Item>)
    ensures |items| == |frames|
    ensures forall i :: 0 <= i < |items| ==> items[i] == ItemOf(frames[i])
  {
    if frames == [] then [] else [ItemOf(frames[0])] + ItemsOf(frames[1..])
  }

  ghost predicate AllAdmitted(max: nat, frames: seq<Frame>) {
    forall f :: f in frames ==> Admits(max, HeaderOf(f))
  }

  lemma AfterAfter(r: Reading, first: seq<Item>, second: seq<Item>)
    ensures r.After(second).After(first) == r.After(first + second)
  {
    assert first + (second + r.items) == first + second + r.items;
  }

  lemma ReadOne(max: nat, f: Frame, tail: seq<byte>)
    requires Admits(max, HeaderOf(f))
    ensures Read(max, Binary(f) + tail) == Read(max, tail).After([ItemOf(f)])
  {
    var s := Binary(f) + tail;
    assert FirstItem(s) == ItemOf(f) by {
      assert s[..HEADER_LENGTH] == EncodeHeader(HeaderOf(f));
      HeaderRoundTrip(HeaderOf(f));
      assert s[HEADER_LENGTH..HEADER_LENGTH + |f.payload|] == f.payload;
    }
    assert s[HEADER_LENGTH + |f.payload|..] == tail;
    hide Read;
    ReadStep(max, s);
  }

  /** What the reader does with a frame at the front of a stream, in the terms of the frame. */
  lemma FrontExactly(max: nat, f: Frame, tail: seq<byte>)
    ensures var r := Read(max, Binary(f) + tail);
            && (f.id == 0 ==> r == Reading([], ZeroId))
            && (f.id != 0 && 0 < max < |f.payload| ==> r == Reading([], Oversized))
            && (f.id != 0 && (max == 0 || |f.payload| <= max) ==> r == Read(max, tail).After([ItemOf(f)]))
  {
    hide EncodeHeader;
    hide DecodeHeader;
    if Admits(max, HeaderOf(f)) {
      ReadOne(max, f, tail);
    } else {
      FrontHeader(f, tail);
    }
  }

  lemma FrontHeader(f: Frame, tail: seq<byte>)
    ensures |Binary(f) + tail| >= HEADER_LENGTH
    ensures DecodeHeader((Binary(f) + tail)[..HEADER_LENGTH]) == HeaderOf(f)
  {
    hide EncodeHeader;
    hide DecodeHeader;
    var s := Binary(f) + tail;
    assert s[..HEADER_LENGTH] == EncodeHeader(HeaderOf(f));
    HeaderRoundTrip(HeaderOf(f));
  }

  /** Reading back whole admitted frames gives exactly those frames, whatever follows them. */
  lemma {:induction false} ReadConcat(max: nat, frames: seq<Frame>, tail: seq<byte>)
    requires AllAdmitted(max, frames)
    ensures Read(max, Concat(frames) + tail) == Read(max, tail).After(ItemsOf(frames))
  {
    if frames == [] {
      assert Concat(frames) + tail == tail;
      assert [] + Read(max, tail).items == Read(max, tail).items;
    } else {
      var after := Concat(frames[1..]) + tail;
      assert Concat(frames) + tail == Binary(frames[0]) + after;
      ReadOne(max, frames[0], after);
      ReadConcat(max, frames[1..], tail);
      AfterAfter(Read(max, tail), [ItemOf(frames[0])], ItemsOf(frames[1..]));
    }
  }

  predicate Whole(item: Item) {
    |item.payload| == item.header.length
  }

  ghost predicate CutOnlyAtTheEnd(r: Reading) {
    && (forall i :: 0 <= i < |r.items| - 1 ==> Whole(r.items[i]))
    && (forall i :: 0 <= i < |r.items| && !Whole(r.items[i]) ==>
          |r.items[i].payload| < r.items[i].header.length && r.end == AtBoundary)
  }

  /** Only the last payload can be cut short, and only when the stream ended inside it. */
  lemma {:induction false} OnlyLastCutShort(max: nat, stream: seq<byte>)
    ensures CutOnlyAtTheEnd(Read(max, stream))
    ensures forall item :: item in Read(max, stream).items ==> Admits(max, item.header)
    decreases |stream|
  {
    if |stream| >= HEADER_LENGTH && Admits(max, FirstItem(stream).header) {
      var item := FirstItem(stream);
      var tail := stream[HEADER_LENGTH + |item.payload|..];
      var rest := Read(max, tail);
      OnlyLastCutShort(max, tail);
      ReadStep(max, stream);
      assert !Whole(item) ==> tail == [];
      assert !Whole(item) ==> rest == Reading([], AtBoundary);
    }
  }

  // ----- when the reading ends between frames -----

  /** The stream ends inside the payload of its next frame. */
  ghost predicate EndsCut(max: nat, stream: seq<byte>) {
    |stream| >= HEADER_LENGTH && Admits(max, FirstItem(stream).header) && !Whole(FirstItem(stream))
  }

  /** The stream is these frames, and then nothing or one that is cut short. */
  ghost predicate FramesThen(max: nat, stream: seq<byte>, frames: seq<Frame>, rest: seq<byte>) {
    AllAdmitted(max, frames) && stream == Concat(frames) + rest && (rest == [] || EndsCut(max, rest))
  }

  lemma ReadRest(max: nat, rest: seq<byte>)
    requires rest == [] || EndsCut(max, rest)
    ensures Read(max, rest) == Reading(if rest == [] then [] else [FirstItem(rest)], AtBoundary)
  {
    if rest != [] {
      ReadStep(max, rest);
      assert rest[|rest|..] == [];
    }
  }

  /** The first frame of a stream, when all of it is there. */
  lemma FirstFrame(stream: seq<byte>) returns (f: Frame, tail: seq<byte>)
    requires |stream| >= HEADER_LENGTH && Whole(FirstItem(stream))
    ensures stream == Binary(f) + tail && ItemOf(f) == FirstItem(stream)
    ensures tail == stream[HEADER_LENGTH + |FirstItem(stream).payload|..] && |tail| < |stream|
  {
    hide EncodeHeader;
    hide DecodeHeader;
    var item := FirstItem(stream);
    f := Message(item.header.id, item.header.typ, item.payload);
    tail := stream[HEADER_LENGTH + |item.payload|..];
    HeaderBytesRoundTrip(stream[..HEADER_LENGTH]);
    assert stream == stream[..HEADER_LENGTH] + item.payload + tail;
  }

  lemma BoundaryHasHeader(max: nat, stream: seq<byte>)
    requires Read(max, stream).end == AtBoundary && stream != []
    ensures |stream| >= HEADER_LENGTH && Admits(max, FirstItem(stream).header)
  {}

  lemma ConcatFront(f: Frame, more: seq<Frame>, rest: seq<byte>)
    ensures Concat([f] + more) + rest == Binary(f) + (Concat(more) + rest)
  {
    assert ([f] + more)[1..] == more;
  }

  lemma {:induction false} SplitFrames(max: nat, stream: seq<byte>) returns (frames: seq<Frame>, rest: seq<byte>)
    requires Read(max, stream).end == AtBoundary
    ensures FramesThen(max, stream, frames, rest)
    decreases |stream|
  {
    hide Binary;
    hide Read;
    hide FirstItem;
    hide Concat;
    frames, rest := [], stream;
    ConcatNone(stream);
    if stream != [] {
      BoundaryHasHeader(max, stream);
      if Whole(FirstItem(stream)) {
        var f, tail := FirstFrame(stream);
        ReadStep(max, stream);
        var more;
        more, rest := SplitFrames(max, tail);
        frames := [f] + more;
        ConcatFront(f, more, rest);
      }
    }
  }

  lemma ConcatNone(stream: seq<byte>)
    ensures Concat([]) + stream == stream
  {}

  lemma ReadFramesThen(max: nat, stream: seq<byte>, frames: seq<Frame>, rest: seq<byte>)
    requires FramesThen(max, stream, frames, rest)
    ensures Read(max, stream)
         == Reading(ItemsOf(frames) + (if rest == [] then [] else [FirstItem(rest)]), AtBoundary)
  {
    ReadConcat(max, frames, rest);
    ReadRest(max, rest);
  }

  predicate AllWhole(items: seq<Item>) {
    forall i :: 0 <= i < |items| ==> Whole(items[i])
  }

  /** A reading ends between frames exactly when the stream is whole admitted frames, followed by nothing or by one
      frame that is cut short inside its payload. */
  lemma EndsBetweenFrames(max: nat, stream: seq<byte>)
    ensures Read(max, stream).end == AtBoundary <==> exists frames, rest :: FramesThen(max, stream, frames, rest)
  {
    hide FramesThen;
    hide Read;
    if Read(max, stream).end == AtBoundary {
      var frames, rest := SplitFrames(max, stream);
    }
    if frames, rest :| FramesThen(max, stream, frames, rest) {
      ReadFramesThen(max, stream, frames, rest);
    }
  }

  /** Then every payload is whole exactly when nothing is cut: this is the converse of `ReadConcat`. */
  lemma WholeExactly(max: nat, stream: seq<byte>)
    ensures Read(max, stream).end == AtBoundary && AllWhole(Read(max, stream).items)
       <==> exists frames :: AllAdmitted(max, frames) && stream == Concat(frames)
  {
    hide Read;
    hide Concat;
    hide Binary;
    hide FirstItem;
    if Read(max, stream).end == AtBoundary && AllWhole(Read(max, stream).items) {
      var frames, rest := SplitFrames(max, stream);
      ReadFramesThen(max, stream, frames, rest);
      if rest == [] {
        assert Concat(frames) + rest == Concat(frames);
      } else {
        CutIsNotWhole(max, ItemsOf(frames), rest);
      }
    }
    if frames :| AllAdmitted(max, frames) && stream == Concat(frames) {
      assert stream == Concat(frames) + [];
      ReadFramesThen(max, stream, frames, []);
      FramesAreWhole(frames);
    }
  }

  lemma CutIsNotWhole(max: nat, items: seq<Item>, rest: seq<byte>)
    requires EndsCut(max, rest)
    ensures !AllWhole(items + [FirstItem(rest)])
  {
    assert !Whole((items + [FirstItem(rest)])[|items|]);
  }

  lemma FramesAreWhole(frames: seq<Frame>)
    ensures AllWhole(ItemsOf(frames) + [])
  {
    hide ItemOf;
    hide Whole;
    var items := ItemsOf(frames);
    assert items + [] == items;
    forall i | 0 <= i < |items| ensures Whole(items[i]) {
      FrameIsWhole(frames[i]);
    }
  }

  lemma FrameIsWhole(f: Frame)
    ensures Whole(ItemOf(f))
  {}
}
