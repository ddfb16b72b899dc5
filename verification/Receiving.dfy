/** The reading half of a messenger: the serve loop over a stream that arrives in pieces. */
module Receiving {
  import opened BigEndian
  import opened Frames
  import opened Runtime
  import opened Wrappers

  predicate IsFailure(err: Error) {
    err == ConnectionClosed || err == ConnectionFailed
  }

  /** An error of the connection is the failure that one of its reads has reported last. */
  predicate Accounts(err: Error, before: seq<Error>, failures: seq<Error>) {
    && before <= failures
    && (IsFailure(err) ==> |failures| > |before| && failures[|failures| - 1] == err)
  }

  /** The incoming direction of a connection: the bytes the peer ever sends before the stream ends.
      A read may give any part of what is left, may fail, and may give nothing only finitely often. The
      connection itself keeps the record of the failures its reads have reported. */
  class Incoming {
    const stream: seq<byte>
    var pos: nat
    var stalls: nat
    ghost var failures: seq<Error>

    ghost predicate Valid()
      reads this
    {
      pos <= |stream|
    }

    method Read(limit: nat) returns (bytes: seq<byte>, err: Error)
      requires Valid() && limit > 0
      modifies this
      ensures Valid() && |bytes| <= limit && pos == old(pos) + |bytes|
      ensures bytes == stream[old(pos)..pos]
      ensures err == Nil || err == ConnectionClosed || err == ConnectionFailed || (err == Eof && pos == |stream|)
      ensures stalls <= old(stalls)
      ensures err == Nil && bytes == [] ==> stalls < old(stalls)
      ensures failures == if IsFailure(err) then old(failures) + [err] else old(failures)
    {
      var most := Min(limit, |stream| - pos);
      var n: nat :| 0 <= n <= most;
      bytes := stream[pos..pos + n];
      pos := pos + n;
      var fails, ended, closed: bool := *, *, *;
      if ended && pos == |stream| {
        err := Eof;
      } else if fails || (n == 0 && stalls == 0) {
        err := if closed then ConnectionClosed else ConnectionFailed;
        failures := failures + [err];
      } else {
        err := Nil;
        stalls := if n == 0 then stalls - 1 else stalls;
      }
    }

    /** Exactly `count` bytes, or an error that says whether the stream ended before the first of them. */
    method ReadFull(count: nat) returns (bytes: seq<byte>, err: Error)
      requires Valid() && count > 0
      modifies this
      ensures Valid() && old(pos) <= pos
      ensures err == Nil ==> pos == old(pos) + count && bytes == stream[old(pos)..pos]
      ensures err == Eof ==> old(pos) == |stream|
      ensures err == UnexpectedEof ==> 0 < |stream| - old(pos) < count
      ensures err in {Nil, Eof, UnexpectedEof, ConnectionClosed, ConnectionFailed}
      ensures Accounts(err, old(failures), failures)
    {
      bytes, err := [], Nil;
      while |bytes| < count && err == Nil
        invariant Valid() && pos == old(pos) + |bytes| && |bytes| <= count
        invariant Accounts(err, old(failures), failures)
        invariant bytes == stream[old(pos)..pos]
        invariant err == Nil || err == ConnectionClosed || err == ConnectionFailed || (err == Eof && pos == |stream|)
        decreases count - |bytes|, stalls, err == Nil
      {
        ghost var before := pos;
        var more;
        more, err := Read(count - |bytes|);
        assert stream[old(pos)..pos] == stream[old(pos)..before] + stream[before..pos];
        bytes := bytes + more;
      }
      if |bytes| >= count {
        err := Nil;
      } else if |bytes| > 0 && err == Eof {
        err := UnexpectedEof;
      }
    }
  }

  /** A received message: a header and a reader over the connection cut off at the payload length.
      Once the payload has been read as a whole it is served from the cache. */
  class StreamMessage {
    const header: Header
    const conn: Incoming
    ghost const start: nat
    var left: nat
    var cache: Option<seq<byte>>
    var cacheRead: nat

    ghost predicate Valid()
      reads this, conn
    {
      && conn.Valid() && start <= conn.pos
      && conn.pos + left == start + header.length
      && (cache.Some? ==> cacheRead <= |cache.value| && AtEnd())
    }

    /** Nothing of the payload is left in the stream. */
    ghost predicate AtEnd()
      reads this, conn
    {
      left == 0 || conn.pos == |conn.stream|
    }

    constructor (header: Header, conn: Incoming)
      requires conn.Valid()
      ensures Valid() && this.header == header && this.conn == conn && start == conn.pos && cache == None
    {
      this.header := header;
      this.conn := conn;
      this.start := conn.pos;
      this.left := header.length;
      this.cache := None;
      this.cacheRead := 0;
    }

    /** One read through the limited reader. */
    method Read(limit: nat) returns (bytes: seq<byte>, err: Error)
      requires Valid() && limit > 0
      modifies this, conn
      ensures Valid() && old(conn.pos) <= conn.pos && cache == old(cache) && |bytes| <= limit
      ensures cache == None ==> bytes == conn.stream[old(conn.pos)..conn.pos]
      ensures cache.Some? ==> conn.pos == old(conn.pos)
      ensures cache == None && err == Eof ==> AtEnd()
      ensures conn.stalls <= old(conn.stalls)
      ensures cache == None && err == Nil && bytes == [] ==> conn.stalls < old(conn.stalls)
      ensures err in {Nil, Eof, ConnectionClosed, ConnectionFailed}
      ensures cache.Some? ==>
                && old(cacheRead) <= cacheRead && bytes == cache.value[old(cacheRead)..cacheRead]
                && (err == Eof <==> old(cacheRead) == |cache.value|) && (err != Eof ==> err == Nil && bytes != [])
      ensures Accounts(err, old(conn.failures), conn.failures)
    {
      if cache.Some? {
        var n := Min(limit, |cache.value| - cacheRead);
        bytes := cache.value[cacheRead..cacheRead + n];
        cacheRead := cacheRead + n;
        err := if n == 0 then Eof else Nil;
      } else if left == 0 {
        bytes, err := [], Eof;
      } else {
        bytes, err := conn.Read(Min(limit, left));
        left := left - |bytes|;
      }
    }

    /** Reads to the end of the payload, as `io.Copy` and `io.ReadAll` do: the end is not an error,
        even when the stream ended before the announced length. */
    method ReadRest() returns (bytes: seq<byte>, err: Error)
      requires Valid() && cache == None
      modifies this, conn
      ensures Valid() && old(conn.pos) <= conn.pos && cache == None
      ensures bytes == conn.stream[old(conn.pos)..conn.pos]
      ensures err == Nil ==> AtEnd()
      ensures err in {Nil, ConnectionClosed, ConnectionFailed}
      ensures Accounts(err, old(conn.failures), conn.failures)
    {
      bytes, err := [], Nil;
      while err == Nil
        invariant Accounts(err, old(conn.failures), conn.failures)
        invariant Valid() && old(conn.pos) <= conn.pos && cache == None
        invariant bytes == conn.stream[old(conn.pos)..conn.pos]
        invariant err == Eof ==> AtEnd()
        invariant err in {Nil, Eof, ConnectionClosed, ConnectionFailed}
        decreases left, conn.stalls, err == Nil
      {
        ghost var before := conn.pos;
        var more;
        more, err := Read(32 * 1024);
        assert conn.stream[old(conn.pos)..conn.pos]
            == conn.stream[old(conn.pos)..before] + conn.stream[before..conn.pos];
        bytes := bytes + more;
      }
      err := if err == Eof then Nil else err;
    }

    /** The payload as a whole, remembered for the next call. */
    method ReadAll() returns (bytes: seq<byte>, err: Error)
      requires Valid()
      modifies this, conn
      ensures Valid() && old(conn.pos) <= conn.pos
      ensures old(cache) == None ==> bytes == conn.stream[old(conn.pos)..conn.pos]
      ensures old(cache).Some? ==> bytes == old(cache).value && conn.pos == old(conn.pos) && err == Nil
      ensures err == Nil ==> cache == Some(bytes) && AtEnd()
      ensures err in {Nil, ConnectionClosed, ConnectionFailed}
      ensures Accounts(err, old(conn.failures), conn.failures)
    {
      if cache.Some? {
        return cache.value, Nil;
      }
      bytes, err := ReadRest();
      if err == Nil {
        cache, cacheRead := Some(bytes), 0;
      }
    }

    /** Exactly `count` bytes of the payload, or an error that says whether any byte was left. */
    method ReadFull(count: nat) returns (bytes: seq<byte>, err: Error)
      requires Valid() && cache == None && count > 0
      modifies this, conn
      ensures Valid() && old(conn.pos) <= conn.pos && cache == None
      ensures bytes == conn.stream[old(conn.pos)..conn.pos]
      ensures err == Nil ==> |bytes| == count
      ensures err == Eof ==> bytes == [] && AtEnd()
      ensures err == UnexpectedEof ==> 0 < |bytes| < count && AtEnd()
      ensures err in {Nil, Eof, UnexpectedEof, ConnectionClosed, ConnectionFailed}
      ensures Accounts(err, old(conn.failures), conn.failures)
    {
      bytes, err := [], Nil;
      while |bytes| < count && err == Nil
        invariant Accounts(err, old(conn.failures), conn.failures)
        invariant Valid() && old(conn.pos) <= conn.pos && cache == None
        invariant bytes == conn.stream[old(conn.pos)..conn.pos] && |bytes| <= count
        invariant err == Eof ==> AtEnd()
        invariant err in {Nil, Eof, ConnectionClosed, ConnectionFailed}
        decreases count - |bytes|, conn.stalls, err == Nil
      {
        ghost var before := conn.pos;
        var more;
        more, err := Read(count - |bytes|);
        assert conn.stream[old(conn.pos)..conn.pos]
            == conn.stream[old(conn.pos)..before] + conn.stream[before..conn.pos];
        bytes := bytes + more;
      }
      if |bytes| >= count {
        err := Nil;
      } else if |bytes| > 0 && err == Eof {
        err := UnexpectedEof;
      }
    }

    /** What the loop does with whatever a handler left unread. */
    method Drain() returns (err: Error)
      requires Valid()
      modifies this, conn
      ensures Valid() && old(conn.pos) <= conn.pos
      ensures err == Nil ==> AtEnd()
      ensures err in {Nil, ConnectionClosed, ConnectionFailed}
      ensures Accounts(err, old(conn.failures), conn.failures)
    {
      err := Nil;
      if cache == None && left > 0 {
        var rest;
        rest, err := ReadRest();
      }
    }
  }

  // ----- the serve loop -----

  /** What a handler was given, how much of the payload it read, and what it returned. */
  datatype Dispatch = Dispatch(header: Header, read: seq<byte>, err: Error)

  /** Why the loop returned: the framing, or an error of the connection, the context or a handler. */
  datatype ServeEnd = Framing(end: End) | Failed(err: Error)

  /** The loop reports success for a stream that ends between frames and for a closed connection. */
  predicate ReturnsNil(end: ServeEnd) {
    end == Framing(AtBoundary) || end == Failed(ConnectionClosed)
  }

  datatype HeaderRead = Got(header: Header) | Stopped(end: ServeEnd)

  /** Each dispatch is the reader's item at the same place, its payload read up to some point. */
  ghost predicate Follows(dispatched: seq<Dispatch>, items: seq<Item>) {
    && |dispatched| <= |items|
    && (forall i :: 0 <= i < |dispatched| ==>
          dispatched[i].header == items[i].header && dispatched[i].read <= items[i].payload)
  }

  function ItemAt(stream: seq<byte>, p: nat): (item: Item)
    requires p + HEADER_LENGTH <= |stream|
  {
    var h := DecodeHeader(stream[p..p + HEADER_LENGTH]);
    Item(h, stream[p + HEADER_LENGTH..p + HEADER_LENGTH + Min(h.length, |stream| - (p + HEADER_LENGTH))])
  }

  /** Where and why the recursive reading stops at position `p`. */
  ghost predicate StopsAt(max: nat, stream: seq<byte>, p: nat, end: End) {
    match end
    case AtBoundary => p == |stream|
    case InHeader => p < |stream| < p + HEADER_LENGTH
    case ZeroId => p + HEADER_LENGTH <= |stream| && ItemAt(stream, p).header.id == 0
    case Oversized =>
      && p + HEADER_LENGTH <= |stream|
      && ItemAt(stream, p).header.id != 0 && !Admits(max, ItemAt(stream, p).header)
  }

  lemma StopsRead(max: nat, stream: seq<byte>, p: nat, end: End)
    requires p <= |stream| && StopsAt(max, stream, p, end)
    ensures Read(max, stream[p..]) == Reading([], end)
  {
    if p + HEADER_LENGTH <= |stream| {
      assert stream[p..][..HEADER_LENGTH] == stream[p..p + HEADER_LENGTH];
    }
  }

  /** An admitted frame lies between positions `from` and `to`. */
  ghost predicate Link(max: nat, stream: seq<byte>, from: nat, item: Item, to: nat) {
    && from + HEADER_LENGTH <= |stream|
    && item == ItemAt(stream, from)
    && Admits(max, item.header)
    && to == from + HEADER_LENGTH + |item.payload|
  }

  /** `items` are admitted frames one after the other, from one position to another. */
  ghost predicate Chain(max: nat, stream: seq<byte>, from: nat, items: seq<Item>, to: nat)
    decreases |items|
  {
    if items == [] then from == to <= |stream|
    else
      var next := from + HEADER_LENGTH + |items[0].payload|;
      Link(max, stream, from, items[0], next) && Chain(max, stream, next, items[1..], to)
  }

  lemma ChainNone(max: nat, stream: seq<byte>, p: nat)
    requires p <= |stream|
    ensures Chain(max, stream, p, [], p)
  {}

  lemma LinkEnds(max: nat, stream: seq<byte>, from: nat, item: Item, to: nat)
    requires Link(max, stream, from, item, to)
    ensures to == from + HEADER_LENGTH + |item.payload| <= |stream|
  {}

  lemma {:induction false} ChainAppend(max: nat, stream: seq<byte>, from: nat, items: seq<Item>, mid: nat,
                                       item: Item, to: nat)
    requires Chain(max, stream, from, items, mid) && Link(max, stream, mid, item, to)
    ensures Chain(max, stream, from, items + [item], to)
    decreases |items|
  {
    hide Link;
    LinkEnds(max, stream, mid, item, to);
    if items == [] {
      assert items + [item] == [item];
      assert Chain(max, stream, to, [], to);
    } else {
      var next := from + HEADER_LENGTH + |items[0].payload|;
      ChainAppend(max, stream, next, items[1..], mid, item, to);
      assert (items + [item])[1..] == items[1..] + [item];
    }
  }

  lemma ReadLink(max: nat, stream: seq<byte>, from: nat, item: Item, to: nat)
    requires Link(max, stream, from, item, to)
    ensures from <= |stream| && to <= |stream|
    ensures Read(max, stream[from..]) == Read(max, stream[to..]).After([item])
  {
    var rest := stream[from..];
    assert FirstItem(rest) == item by {
      assert rest[..HEADER_LENGTH] == stream[from..from + HEADER_LENGTH];
      assert rest[HEADER_LENGTH..HEADER_LENGTH + |item.payload|]
          == stream[from + HEADER_LENGTH..from + HEADER_LENGTH + |item.payload|];
    }
    assert rest[HEADER_LENGTH + |item.payload|..] == stream[to..];
    ReadStep(max, rest);
  }

  lemma {:induction false} ChainRead(max: nat, stream: seq<byte>, from: nat, items: seq<Item>, to: nat)
    requires Chain(max, stream, from, items, to)
    ensures from <= |stream| && to <= |stream|
    ensures Read(max, stream[from..]) == Read(max, stream[to..]).After(items)
    decreases |items|
  {
    hide Link;
    hide Read;
    if items == [] {
      var last := Read(max, stream[from..]);
      assert [] + last.items == last.items;
    } else {
      var next := from + HEADER_LENGTH + |items[0].payload|;
      ChainRead(max, stream, next, items[1..], to);
      ReadLink(max, stream, from, items[0], next);
      AfterAfter(Read(max, stream[to..]), [items[0]], items[1..]);
      assert items == [items[0]] + items[1..];
    }
  }

  /** A header, or the reason why there is none: the framing, a failure that a read has reported, or, when the context
      is done, any of these. */
  method ReadHeader(conn: Incoming, ctx: Context, max: nat) returns (r: HeaderRead)
    requires conn.Valid()
    modifies conn, ctx
    ensures conn.Valid() && old(conn.pos) <= conn.pos && old(conn.failures) <= conn.failures
    ensures r.Got? ==>
              && conn.pos == old(conn.pos) + HEADER_LENGTH <= |conn.stream|
              && r.header == ItemAt(conn.stream, old(conn.pos)).header
              && Admits(max, r.header)
    ensures r.Stopped? && r.end.Framing? ==> StopsAt(max, conn.stream, old(conn.pos), r.end.end)
    ensures r.Stopped? && r.end.Failed? ==>
              Explains(conn.stream, old(conn.pos), r.end.err, old(conn.failures), conn.failures, ctx.done)
    ensures old(ctx.done) ==> ctx.done
  {
    var bytes, err := conn.ReadFull(HEADER_LENGTH);
    if err != Nil {
      var cancelled := ctx.Poll();
      if cancelled {
        return Stopped(Failed(Cancelled));
      }
      match err
      case Eof => return Stopped(Framing(AtBoundary));
      case UnexpectedEof => return Stopped(Framing(InHeader));
      case _ => return Stopped(Failed(err));
    }
    var h := DecodeHeader(bytes);
    if h.id == 0 {
      return Stopped(Framing(ZeroId));
    }
    if max > 0 && h.length > max {
      return Stopped(Framing(Oversized));
    }
    return Got(h);
  }

  /** Why no header was read: a read has failed, or the context is done and the stream ended or a read failed. */
  predicate Explains(stream: seq<byte>, p: nat, err: Error, before: seq<Error>, failures: seq<Error>, done: bool) {
    && (IsFailure(err) || err == Cancelled) && Accounts(err, before, failures)
    && (err == Cancelled ==> done && (|stream| < p + HEADER_LENGTH || |failures| > |before|))
  }

  /** The handlers of a messenger. They keep the record of what they were given and what they returned. */
  class Handlers {
    ghost var given: seq<Dispatch>

    /** Any handler: it may read pieces of the payload, may then ask for all of it, and may fail. */
    method Handle(msg: StreamMessage) returns (read: seq<byte>, err: Error)
      requires msg.Valid() && msg.cache == None && msg.conn.pos == msg.start
      modifies this, msg, msg.conn
      ensures msg.Valid() && msg.start <= msg.conn.pos && old(msg.conn.failures) <= msg.conn.failures
      ensures read == msg.conn.stream[msg.start..msg.conn.pos]
      ensures err == Nil || err == HandlerFailed
      ensures given == old(given) + [Dispatch(msg.header, read, err)]
    {
      read := [];
      var turns: nat := *;
      while turns > 0
        invariant msg.Valid() && msg.start <= msg.conn.pos && msg.cache == None
        invariant read == msg.conn.stream[msg.start..msg.conn.pos]
        invariant old(msg.conn.failures) <= msg.conn.failures && given == old(given)
      {
        ghost var before := msg.conn.pos;
        var limit: nat :| limit > 0;
        var piece, readErr := msg.Read(limit);
        assert msg.conn.stream[msg.start..msg.conn.pos]
            == msg.conn.stream[msg.start..before] + msg.conn.stream[before..msg.conn.pos];
        read := read + piece;
        turns := turns - 1;
      }
      var wantsAll, fails: bool := *, *;
      if wantsAll {
        ghost var before := msg.conn.pos;
        var rest;
        rest, err := msg.ReadAll();
        assert msg.conn.stream[msg.start..msg.conn.pos]
            == msg.conn.stream[msg.start..before] + msg.conn.stream[before..msg.conn.pos];
        read := read + rest;
      }
      err := if fails then HandlerFailed else Nil;
      given := given + [Dispatch(msg.header, read, err)];
    }
  }

  /** One turn: a header, the handler, and the draining of what the handler left, also when the handler failed. */
  method ServeOne(conn: Incoming, ctx: Context, max: nat, handlers: Handlers)
      returns (r: HeaderRead, read: seq<byte>, err: Error)
    requires conn.Valid()
    modifies conn, ctx, handlers
    ensures conn.Valid() && old(conn.pos) <= conn.pos && old(conn.failures) <= conn.failures
    ensures old(ctx.done) ==> ctx.done
    ensures r.Stopped? && r.end.Framing? ==> StopsAt(max, conn.stream, old(conn.pos), r.end.end)
    ensures r.Stopped? && r.end.Failed? ==>
              Explains(conn.stream, old(conn.pos), r.end.err, old(conn.failures), conn.failures, ctx.done)
    ensures r.Stopped? ==> handlers.given == old(handlers.given)
    ensures r.Got? ==>
              && old(conn.pos) + HEADER_LENGTH <= |conn.stream|
              && var item := ItemAt(conn.stream, old(conn.pos));
                 && r.header == item.header && Admits(max, item.header)
                 && read <= item.payload
                 && (conn.pos == old(conn.pos) + HEADER_LENGTH + |item.payload|
                     || |conn.failures| > |old(conn.failures)|)
                 && (err == Nil ==> conn.pos == old(conn.pos) + HEADER_LENGTH + |item.payload|)
    ensures r.Got? ==>
              exists outcome: Error ::
                && handlers.given == old(handlers.given) + [Dispatch(r.header, read, outcome)]
                && (outcome != Nil ==> err == outcome)
                && (outcome == Nil ==> (err == Nil || IsFailure(err)) && Accounts(err, old(conn.failures),
                                                                                  conn.failures))
                && outcome in {Nil, HandlerFailed}
  {
    read, err := [], Nil;
    r := ReadHeader(conn, ctx, max);
    if r.Got? {
      var msg := new StreamMessage(r.header, conn);
      read, err := handlers.Handle(msg);
      var drainErr := msg.Drain();
      err := if err != Nil then err else drainErr;
    }
  }

  /** Why the loop ended without the framing: the last handler returned this error, or a read has reported it, or the
      context is done. */
  predicate EndsWith(end: ServeEnd, given: seq<Dispatch>, before: seq<Error>, failures: seq<Error>, done: bool) {
    end.Failed? ==>
      match end.err
      case HandlerFailed => given != [] && given[|given| - 1].err == HandlerFailed
      case Cancelled => done
      case _ => IsFailure(end.err) && Accounts(end.err, before, failures)
  }

  /** Every handler but the last has succeeded, and the last too unless its error ends the loop. */
  predicate Succeeded(given: seq<Dispatch>, end: ServeEnd) {
    forall i :: 0 <= i < |given| && given[i].err != Nil ==> i == |given| - 1 && end == Failed(given[i].err)
  }

  method ServeLoop(conn: Incoming, ctx: Context, max: nat, handlers: Handlers)
      returns (dispatched: seq<Dispatch>, end: ServeEnd, ghost items: seq<Item>, ghost at: nat)
    requires conn.Valid()
    modifies conn, ctx, handlers
    ensures conn.Valid()
    ensures Chain(max, conn.stream, old(conn.pos), items, at)
    ensures end.Framing? ==> StopsAt(max, conn.stream, at, end.end)
    ensures |dispatched| == |items| && Follows(dispatched, items)
    ensures handlers.given == old(handlers.given) + dispatched
    ensures EndsWith(end, dispatched, old(conn.failures), conn.failures, ctx.done) && Succeeded(dispatched, end)
    ensures end == Failed(Cancelled) ==>
              at <= |conn.stream| && (|conn.stream| < at + HEADER_LENGTH || |conn.failures| > |old(conn.failures)|)
  {
    hide Chain;
    hide ItemAt;
    hide StopsAt;
    dispatched, items, at := [], [], conn.pos;
    ChainNone(max, conn.stream, at);
    while true
      invariant conn.Valid() && conn.pos == at
      invariant Chain(max, conn.stream, old(conn.pos), items, at)
      invariant |items| == |dispatched| && Follows(dispatched, items)
      invariant handlers.given == old(handlers.given) + dispatched && old(conn.failures) <= conn.failures
      invariant forall i :: 0 <= i < |dispatched| ==> dispatched[i].err == Nil
      decreases |conn.stream| - at
    {
      var r, read, err := ServeOne(conn, ctx, max, handlers);
      if r.Stopped? {
        end := r.end;
        return;
      }
      ghost var item := ItemAt(conn.stream, at);
      ghost var next := at + HEADER_LENGTH + |item.payload|;
      ChainAppend(max, conn.stream, old(conn.pos), items, at, item, next);
      dispatched := dispatched + [Dispatch(r.header, read, if err == HandlerFailed then err else Nil)];
      items, at := items + [item], next;
      if err != Nil {
        end := Failed(err);
        return;
      }
    }
  }

  /** What the loop does with a stream: it dispatches the frames that the recursive reading finds, in order; it stops
      early only on an error of the connection, the context or a handler. */
  ghost predicate Served(max: nat, stream: seq<byte>, dispatched: seq<Dispatch>, end: ServeEnd) {
    && Follows(dispatched, Read(max, stream).items)
    && (end.Framing? ==> |dispatched| == |Read(max, stream).items| && end.end == Read(max, stream).end)
  }

  lemma FollowsOn(dispatched: seq<Dispatch>, items: seq<Item>, rest: Reading)
    requires Follows(dispatched, items)
    ensures Follows(dispatched, rest.After(items).items)
  {}

  /** Whatever each handler reads of its payload. The handlers were given exactly what was dispatched, and a loop that
      did not end for a framing reason ended for the error that its last handler returned, for a failure that a read
      reported, or because the context was done. */
  method Serve(conn: Incoming, ctx: Context, max: nat, handlers: Handlers)
      returns (dispatched: seq<Dispatch>, end: ServeEnd)
    requires conn.Valid()
    modifies conn, ctx, handlers
    ensures conn.Valid()
    ensures Served(max, conn.stream[old(conn.pos)..], dispatched, end)
    ensures handlers.given == old(handlers.given) + dispatched
    ensures EndsWith(end, dispatched, old(conn.failures), conn.failures, ctx.done) && Succeeded(dispatched, end)
    ensures conn.failures == old(conn.failures) && !ctx.done && (forall d :: d in dispatched ==> d.err == Nil) ==>
              end.Framing?
    ensures end.Failed? ==>
              (ReturnsNil(end) <==>
                 && |conn.failures| > |old(conn.failures)| && conn.failures[|conn.failures| - 1] == ConnectionClosed
                 && end.err == ConnectionClosed)
    ensures end == Failed(Cancelled) && conn.failures == old(conn.failures) ==>
              |dispatched| == |Read(max, conn.stream[old(conn.pos)..]).items|
  {
    hide Chain;
    hide ItemAt;
    hide StopsAt;
    hide Follows;
    hide Succeeded;
    hide Read;
    ghost var items, at;
    dispatched, end, items, at := ServeLoop(conn, ctx, max, handlers);
    ChainRead(max, conn.stream, old(conn.pos), items, at);
    FollowsOn(dispatched, items, Read(max, conn.stream[at..]));
    if end.Framing? {
      StopsRead(max, conn.stream, at, end.end);
    } else if at <= |conn.stream| < at + HEADER_LENGTH {
      StopsRead(max, conn.stream, at, if at == |conn.stream| then AtBoundary else InHeader);
    }
  }

  // ----- what a nil result of the loop means -----

  /** Unless the connection or a handler failed, the loop returns nil exactly when the stream was whole admitted
      frames, followed by nothing or by one frame that is cut short inside its payload. So a nil result alone does
      not tell whether the last payload was whole; it was exactly when the stream was whole frames. */
  lemma NilResult(max: nat, stream: seq<byte>, dispatched: seq<Dispatch>, end: ServeEnd)
    requires Served(max, stream, dispatched, end) && end.Framing?
    ensures ReturnsNil(end) <==> exists frames, rest :: FramesThen(max, stream, frames, rest)
    ensures ReturnsNil(end) && AllWhole(Read(max, stream).items)
       <==> exists frames :: AllAdmitted(max, frames) && stream == Concat(frames)
  {
    hide Read;
    hide FramesThen;
    hide AllWhole;
    hide Concat;
    EndsBetweenFrames(max, stream);
    WholeExactly(max, stream);
  }

  /** The loop on frames that are followed by one cut short: it returns nil, and it has handed the short payload to
      a handler as if it were the whole. */
  lemma CutFrameGoesUnreported(max: nat, frames: seq<Frame>, rest: seq<byte>, dispatched: seq<Dispatch>, end: ServeEnd)
    requires AllAdmitted(max, frames) && EndsCut(max, rest)
    requires Served(max, Concat(frames) + rest, dispatched, end) && end.Framing?
    ensures ReturnsNil(end) && |dispatched| == |frames| + 1
    ensures var last := dispatched[|frames|];
            && last.header == FirstItem(rest).header && last.read <= rest[HEADER_LENGTH..]
            && |last.read| < last.header.length
  {
    hide Read;
    hide Concat;
    var stream := Concat(frames) + rest;
    assert FramesThen(max, stream, frames, rest);
    ReadFramesThen(max, stream, frames, rest);
    var items := ItemsOf(frames) + [FirstItem(rest)];
    assert items[|frames|] == FirstItem(rest);
    assert FirstItem(rest).payload == rest[HEADER_LENGTH..];
  }
}
