/** The body message of a file transfer: a length-prefixed transfer id, then the bytes of the file. */
module TransferBody {
  import opened BigEndian
  import opened Frames
  import opened Runtime
  import opened Receiving
  import opened Wrappers

  /** A transfer id, as the bytes of its string. */
  type Id = seq<byte>

  const MAX_ID_LENGTH: nat := 0xFFFF

  datatype BodyError = NoId | IdTooLong | BodyTooLarge | Truncated

  datatype Encoded = Prefix(bytes: seq<byte>) | NotEncoded(error: BodyError)

  function EncodeId(id: Id): Encoded {
    if id == [] then NotEncoded(NoId)
    else if |id| > MAX_ID_LENGTH then NotEncoded(IdTooLong)
    else Prefix(Put(|id|, 2) + id)
  }

  datatype Decoded = Body(id: Id, content: seq<byte>) | NotDecoded(error: BodyError)

  function DecodeBody(payload: seq<byte>): Decoded {
    if |payload| < 2 then NotDecoded(Truncated)
    else
      var n := Get(payload[..2]);
      if n == 0 then NotDecoded(NoId)
      else if |payload| < 2 + n then NotDecoded(Truncated)
      else Body(payload[2..2 + n], payload[2 + n..])
  }

  /** Decoding gives back the id and stops exactly where the content starts, for every id that encodes. */
  lemma DecodeAfterEncode(id: Id, content: seq<byte>)
    requires EncodeId(id).Prefix?
    ensures DecodeBody(EncodeId(id).bytes + content) == Body(id, content)
  {
    Limits();
    GetPut(|id|, 2);
    var payload := EncodeId(id).bytes + content;
    assert payload[..2] == Put(|id|, 2);
    assert payload[2..2 + |id|] == id;
    assert payload[2 + |id|..] == content;
  }

  /** Nothing else decodes to that id and content. */
  lemma EncodeAfterDecode(payload: seq<byte>)
    requires DecodeBody(payload).Body?
    ensures var body := DecodeBody(payload);
            EncodeId(body.id).Prefix? && EncodeId(body.id).bytes + body.content == payload
  {
    Limits();
    var n := Get(payload[..2]);
    PutGet(payload[..2]);
    assert payload == payload[..2] + payload[2..2 + n] + payload[2 + n..];
  }

  lemma SliceOfSlice(s: seq<byte>, a: nat, b: nat, i: nat, j: nat)
    requires a <= b <= |s| && i <= j <= b - a
    ensures s[a..b][i..j] == s[a + i..a + j]
  {
    var inner, whole := s[a..b][i..j], s[a + i..a + j];
    assert |inner| == |whole|;
    assert forall k :: 0 <= k < |inner| ==> inner[k] == whole[k];
  }

  /** The same decoding on a message whose payload is still arriving: on success the reader stands at the
      first byte of the content. `available` is what the stream holds of the payload. */
  method DecodeFrom(msg: StreamMessage) returns (id: Id, err: Error)
    requires msg.Valid() && msg.cache == None && msg.conn.pos == msg.start
    modifies msg, msg.conn
    ensures msg.Valid() && msg.start <= msg.conn.pos && msg.cache == None
    ensures var stream := msg.conn.stream;
            var available := stream[msg.start..Min(msg.start + msg.header.length, |stream|)];
            && (err == Nil ==>
                  && DecodeBody(available).Body? && DecodeBody(available).id == id
                  && stream[msg.conn.pos..msg.start + |available|] == DecodeBody(available).content)
            && (err == MissingId ==> DecodeBody(available) == NotDecoded(NoId))
            && (err == Eof || err == UnexpectedEof ==> DecodeBody(available) == NotDecoded(Truncated))
    ensures err in {Nil, MissingId, Eof, UnexpectedEof, ConnectionClosed, ConnectionFailed}
    ensures Accounts(err, old(msg.conn.failures), msg.conn.failures)
  {
    hide Get;
    ghost var stream := msg.conn.stream;
    ghost var available := stream[msg.start..Min(msg.start + msg.header.length, |stream|)];
    var prefix;
    prefix, err := msg.ReadFull(2);
    id := [];
    if err != Nil {
      return;
    }
    SliceOfSlice(stream, msg.start, msg.start + |available|, 0, 2);
    var n := Get(prefix);
    if n == 0 {
      return [], MissingId;
    }
    id, err := msg.ReadFull(n);
    if err == Nil {
      SliceOfSlice(stream, msg.start, msg.start + |available|, 2, 2 + n);
      SliceOfSlice(stream, msg.start, msg.start + |available|, 2 + n, |available|);
    }
  }

  // ----- the sending side -----

  datatype Declared = Source(header: seq<byte>, length: uint32) | NotDeclared(error: BodyError)

  /** The stream source of a body: the header joined to the file reader, and the total length. */
  function StreamSource(id: Id, length: uint32): Declared {
    match EncodeId(id)
    case NotEncoded(error) => NotDeclared(error)
    case Prefix(bytes) =>
      if |bytes| + length > MAX_UINT32 then NotDeclared(BodyTooLarge)
      else Source(bytes, |bytes| + length)
  }

  /** `SendFile` refuses a file whose header and size together exceed the length field. */
  predicate SizeFits(id: Id, size: nat) {
    EncodeId(id).Prefix? && size <= MAX_UINT32 && |EncodeId(id).bytes| + size <= MAX_UINT32
  }

  /** For a reader that yields the announced number of bytes, the declared length is what the joined reader
      yields, without wrap-around, and the receiver decodes that payload to the id and the content. */
  lemma DeclaredLengthIsExact(id: Id, content: seq<byte>)
    requires |content| <= MAX_UINT32
    ensures StreamSource(id, |content|).Source? <==> SizeFits(id, |content|)
    ensures SizeFits(id, |content|) <==> 0 < |id| <= 0xFFFF && 2 + |id| + |content| < 0x1_0000_0000
    ensures StreamSource(id, |content|) == NotDeclared(NoId) <==> id == []
    ensures StreamSource(id, |content|) == NotDeclared(IdTooLong) <==> |id| > 0xFFFF
    ensures StreamSource(id, |content|) == NotDeclared(BodyTooLarge) <==>
              0 < |id| <= 0xFFFF && 2 + |id| + |content| >= 0x1_0000_0000
    ensures SizeFits(id, |content|) ==>
              var source := StreamSource(id, |content|);
              && source.length == |source.header + content|
              && DecodeBody(source.header + content) == Body(id, content)
  {
    if SizeFits(id, |content|) {
      DecodeAfterEncode(id, content);
    }
  }
}
