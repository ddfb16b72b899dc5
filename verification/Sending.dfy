/** The writing half of a messenger: header and payload onto a connection that may take them in pieces. */
module Sending {
  import opened BigEndian
  import opened Frames
  import opened Runtime

  /** The outgoing direction of a connection. A write may take any part of what it is given,
      may fail after taking some of it, and may take nothing only finitely often (`stalls`). The
      connection itself counts the writes that have failed. */
  class Connection {
    var sent: seq<byte>
    var stalls: nat
    ghost var failures: nat

    method Write(p: seq<byte>) returns (n: nat, err: Error)
      modifies this
      ensures n <= |p| && sent == old(sent) + p[..n]
      ensures err == Nil || err == ConnectionFailed
      ensures stalls <= old(stalls)
      ensures err == Nil && n == 0 && p != [] ==> stalls < old(stalls)
      ensures failures == if err == Nil then old(failures) else old(failures) + 1
    {
      n :| 0 <= n <= |p|;
      sent := sent + p[..n];
      if n == 0 && stalls > 0 {
        stalls := stalls - 1;
        err := Nil;
      } else if n == 0 {
        err := ConnectionFailed;
      } else if * {
        err := Nil;
      } else {
        err := ConnectionFailed;
      }
      failures := if err == Nil then failures else failures + 1;
    }
  }

  /** A reader over fixed bytes. A read may give any part of what is left, may report the end of
      the data together with the last bytes or after them, may fail, and may give nothing only
      finitely often. The source itself counts the reads and the seeks that have failed. */
  class Source {
    const data: seq<byte>
    const seekable: bool
    var pos: nat
    var stalls: nat
    ghost var readFailures: nat
    ghost var seekFailures: nat

    ghost predicate Valid()
      reads this
    {
      pos <= |data|
    }

    method Read(buf: array<byte>, limit: nat) returns (n: nat, err: Error)
      requires Valid() && 0 < limit <= buf.Length
      modifies this, buf
      ensures Valid() && n <= limit && pos == old(pos) + n
      ensures buf[..n] == data[old(pos)..pos]
      ensures err == Nil || err == SourceFailed || (err == Eof && pos == |data|)
      ensures stalls <= old(stalls)
      ensures err == Nil && n == 0 ==> stalls < old(stalls)
      ensures readFailures == (if err == SourceFailed then old(readFailures) + 1 else old(readFailures))
      ensures seekFailures == old(seekFailures)
    {
      var most := Min(limit, |data| - pos);
      n :| 0 <= n <= most;
      forall i | 0 <= i < n {
        buf[i] := data[pos + i];
      }
      assert buf[..n] == data[pos..pos + n];
      pos := pos + n;
      var fails, ended: bool := *, *;
      if ended && pos == |data| {
        err := Eof;
      } else if fails || (n == 0 && stalls == 0) {
        err := SourceFailed;
        readFailures := readFailures + 1;
      } else {
        err := Nil;
        stalls := if n == 0 then stalls - 1 else stalls;
      }
    }

    method Seek(to: nat) returns (err: Error)
      requires Valid() && to <= |data|
      modifies this`pos, this`seekFailures
      ensures Valid()
      ensures err == Nil ==> pos == to
      ensures err == Nil || (err == SourceFailed && pos == old(pos))
      ensures seekFailures == if err == Nil then old(seekFailures) else old(seekFailures) + 1
    {
      if * {
        pos := to;
        err := Nil;
      } else {
        err := SourceFailed;
        seekFailures := seekFailures + 1;
      }
    }
  }

  /** What waiting for an acknowledgement ends with. */
  datatype Wait = Acknowledged | TimedOut | ContextDone

  datatype Attempt = SendFailed(err: Error) | Unawaited | Waited(wait: Wait)

  datatype Config = Config(requireAcknowledge: bool, maxRetries: nat, maxMessageSize: nat)

  const BUFFER_SIZE: nat := 32 * 1024

  /** What one write of a frame can report. */
  const SEND_ERRORS: set<Error> := {Nil, UnexpectedEof, Cancelled, ConnectionFailed, SourceFailed}

  function RepeatBytes(bytes: seq<byte>, times: nat): seq<byte> {
    if times == 0 then [] else RepeatBytes(bytes, times - 1) + bytes
  }

  /** `copies` attempts wrote their whole frame before the first one that failed to write. */
  ghost predicate CleanFor(attempts: seq<Attempt>, copies: nat) {
    && copies <= |attempts|
    && (forall i :: 0 <= i < copies ==> !attempts[i].SendFailed?)
    && (copies < |attempts| ==> attempts[copies].SendFailed?)
  }

  /** The frame a send of `length` bytes from position `start` writes, when the data reach that far. */
  function FrameAt(data: seq<byte>, start: nat, id: uint64, typ: uint32, length: uint32): seq<byte> {
    if start + length <= |data| then EncodeHeader(Header(id, typ, length)) + data[start..start + length] else []
  }

  /** The bytes on the wire are the printed message. */
  lemma FrameAtIsBinary(data: seq<byte>, start: nat, id: uint64, typ: uint32, length: uint32)
    requires start + length <= |data|
    ensures FrameAt(data, start, id, typ, length) == Binary(Message(id, typ, data[start..start + length]))
  {
    assert HeaderOf(Message(id, typ, data[start..start + length])) == Header(id, typ, length);
  }

  /** `now` is `before` and `copies` times the same frame, with nothing after it when `exactly`. */
  ghost predicate Copied(before: seq<byte>, frame: seq<byte>, copies: nat, exactly: bool, now: seq<byte>) {
    var whole := before + RepeatBytes(frame, copies);
    if exactly then now == whole else whole <= now
  }

  lemma CopiedOnceMore(before: seq<byte>, frame: seq<byte>, copies: nat, now: seq<byte>)
    requires Copied(before, frame, copies, true, now)
    ensures Copied(before, frame, copies + 1, true, now + frame)
  {
    assert before + RepeatBytes(frame, copies + 1) == before + RepeatBytes(frame, copies) + frame;
  }

  /** Each error of a write is the failure of what it names: the context is done, a write of the connection has failed,
      or a read of the source has. */
  predicate Explained(err: Error, done: bool, writeFailed: bool, readFailed: bool) {
    && (err == Cancelled ==> done) && (err == ConnectionFailed ==> writeFailed) && (err == SourceFailed ==> readFailed)
  }

  /** The acknowledgement, the timer and the context race; the peer and the clock decide which wins, and keep the
      record of it. */
  class Peer {
    ghost var waits: seq<Wait>

    method WaitForAcknowledge(ctx: Context) returns (wait: Wait)
      modifies this, ctx
      ensures wait == ContextDone ==> ctx.done
      ensures old(ctx.done) ==> ctx.done
      ensures waits == old(waits) + [wait]
    {
      var cancelled := ctx.Poll();
      var acked: bool := *;
      wait := if acked then Acknowledged else if cancelled then ContextDone else TimedOut;
      waits := waits + [wait];
    }
  }

  /** What the attempts that waited were told, in order. */
  function WaitsOf(attempts: seq<Attempt>): seq<Wait> {
    if attempts == [] then []
    else
      var last := attempts[|attempts| - 1];
      WaitsOf(attempts[..|attempts| - 1]) + (if last.Waited? then [last.wait] else [])
  }

  lemma WaitsOfAppend(attempts: seq<Attempt>, last: Attempt)
    ensures WaitsOf(attempts + [last]) == WaitsOf(attempts) + (if last.Waited? then [last.wait] else [])
  {
    assert (attempts + [last])[..|attempts|] == attempts;
  }

  /** What a sequence of attempts has put on the wire and been told by the peer. */
  ghost predicate Tried(attempts: seq<Attempt>, copies: nat, frame: seq<byte>, before: seq<byte>, sent: seq<byte>,
                        waitsBefore: seq<Wait>, waits: seq<Wait>)
  {
    && CleanFor(attempts, copies) && Copied(before, frame, copies, copies == |attempts|, sent)
    && waits == waitsBefore + WaitsOf(attempts)
  }

  /** What a sequence of attempts has done, and why those that failed did. */
  ghost predicate Record(attempts: seq<Attempt>, copies: nat, frame: seq<byte>, before: seq<byte>, sent: seq<byte>,
                         waitsBefore: seq<Wait>, waits: seq<Wait>, done: bool, writeFailed: bool, readFailed: bool)
  {
    && Tried(attempts, copies, frame, before, sent, waitsBefore, waits)
    && AllExplained(attempts, done, writeFailed, readFailed)
  }

  /** How the retry loop ends: nil exactly when the last attempt succeeded, and was acknowledged if that is asked for;
      otherwise after all allowed attempts, unless the context is done, which is then the error, or the source could not
      go back. Every attempt
      before the last has failed. */
  predicate Ended(err: Error, attempts: seq<Attempt>, allowed: nat, awaitAck: bool, done: bool, seekFailed: bool)
    requires attempts != []
  {
    var last := attempts[|attempts| - 1];
    && |attempts| <= allowed && err !in {MissingId, TooLarge}
    && (err == Nil <==> last == if awaitAck then Waited(Acknowledged) else Unawaited)
    && (forall i :: 0 <= i < |attempts| && ErrorOf(attempts[i]) == Nil ==> i == |attempts| - 1 && err == Nil)
    && (err == AckTimeout ==> last == Waited(TimedOut))
    && (last == Waited(TimedOut) ==> err in {AckTimeout, Cancelled, SourceFailed})
    && (last.SendFailed? ==> err in {last.err, Cancelled, SourceFailed})
    && (err != Nil ==>
          && (done <==> err == Cancelled)
          && (done || (err == ErrorOf(last) && |attempts| == allowed) || (err == SourceFailed && seekFailed)))
  }

  /** The error one attempt reports to the retry loop. */
  function ErrorOf(attempt: Attempt): Error {
    match attempt
    case SendFailed(err) => err
    case Unawaited => Nil
    case Waited(Acknowledged) => Nil
    case Waited(TimedOut) => AckTimeout
    case Waited(ContextDone) => Cancelled
  }

  class Messenger {
    const vsock: Connection
    const peer: Peer
    const config: Config

    constructor (vsock: Connection, peer: Peer, config: Config)
      ensures this.vsock == vsock && this.peer == peer && this.config == config
    {
      this.vsock := vsock;
      this.peer := peer;
      this.config := config;
    }

    /** Writes all of `payload` unless the context or the connection ends it. */
    method WriteAll(ctx: Context, payload: seq<byte>) returns (err: Error)
      modifies ctx, vsock
      ensures old(vsock.sent) <= vsock.sent <= old(vsock.sent) + payload
      ensures err == Nil ==> vsock.sent == old(vsock.sent) + payload
      ensures err == Nil || (err == ConnectionFailed && vsock.failures > old(vsock.failures))
           || (err == Cancelled && ctx.done)
      ensures old(vsock.failures) <= vsock.failures && (err == Nil ==> vsock.failures == old(vsock.failures))
      ensures old(ctx.done) ==> ctx.done
    {
      var rest := payload;
      while |rest| > 0
        invariant vsock.sent + rest == old(vsock.sent) + payload
        invariant old(vsock.sent) <= vsock.sent && vsock.failures == old(vsock.failures)
        invariant old(ctx.done) ==> ctx.done
        decreases |rest|, vsock.stalls
      {
        var cancelled := ctx.Poll();
        if cancelled {
          return Cancelled;
        }
        var n;
        n, err := vsock.Write(rest);
        assert rest == rest[..n] + rest[n..];
        if err != Nil {
          return;
        }
        rest := rest[n..];
      }
      return Nil;
    }

    /** One turn of the copying loop: read at most `chunk` bytes and write what was read. */
    method CopyChunk(ctx: Context, buf: array<byte>, chunk: nat, source: Source)
        returns (n: nat, readErr: Error, writeErr: Error)
      requires source.Valid() && 0 < chunk <= buf.Length
      modifies ctx, vsock, source, buf
      ensures source.Valid() && n <= chunk && source.pos == old(source.pos) + n
      ensures var bytes := source.data[old(source.pos)..source.pos];
              && old(vsock.sent) <= vsock.sent <= old(vsock.sent) + bytes
              && (writeErr == Nil ==> vsock.sent == old(vsock.sent) + bytes)
      ensures readErr == Nil || readErr == SourceFailed || (readErr == Eof && source.pos == |source.data|)
      ensures source.readFailures == (if readErr == SourceFailed then old(source.readFailures) + 1
                                      else old(source.readFailures))
      ensures writeErr == Nil || (writeErr == ConnectionFailed && vsock.failures > old(vsock.failures))
           || (writeErr == Cancelled && ctx.done)
      ensures old(vsock.failures) <= vsock.failures && (writeErr == Nil ==> vsock.failures == old(vsock.failures))
      ensures source.seekFailures == old(source.seekFailures)
      ensures readErr == Nil && n == 0 ==> source.stalls < old(source.stalls)
      ensures old(ctx.done) ==> ctx.done
    {
      n, readErr := source.Read(buf, chunk);
      writeErr := Nil;
      if n > 0 {
        writeErr := WriteAll(ctx, buf[..n]);
      }
    }

    /** The next `length` bytes of the source, in pieces of at most one buffer. */
    method WritePayload(ctx: Context, length: uint32, source: Source) returns (err: Error)
      requires source.Valid()
      modifies ctx, vsock, source
      ensures source.Valid() && old(source.pos) <= source.pos <= old(source.pos) + length
      ensures var bytes := source.data[old(source.pos)..source.pos];
              && old(vsock.sent) <= vsock.sent <= old(vsock.sent) + bytes
              && (err == Nil || err == UnexpectedEof ==> vsock.sent == old(vsock.sent) + bytes)
      ensures err == Nil ==> source.pos == old(source.pos) + length
      ensures err == UnexpectedEof ==> source.pos == |source.data| < old(source.pos) + length
      ensures err in SEND_ERRORS
      ensures old(ctx.done) ==> ctx.done
      ensures Explained(err, ctx.done, vsock.failures > old(vsock.failures),
                        source.readFailures > old(source.readFailures))
      ensures err == Nil ==> vsock.failures == old(vsock.failures) && source.readFailures == old(source.readFailures)
      ensures old(vsock.failures) <= vsock.failures && old(source.readFailures) <= source.readFailures
      ensures source.seekFailures == old(source.seekFailures)
    {
      ghost var start := source.pos;
      assert source.data[start..start] == [];
      var remaining: nat := length;
      var buf := new byte[BUFFER_SIZE];
      while remaining > 0
        invariant source.Valid() && remaining <= length && source.pos == start + (length - remaining)
        invariant vsock.sent == old(vsock.sent) + source.data[start..source.pos]
        invariant old(ctx.done) ==> ctx.done
        invariant vsock.failures == old(vsock.failures) && source.readFailures == old(source.readFailures)
        invariant source.seekFailures == old(source.seekFailures)
        decreases remaining, source.stalls
      {
        var cancelled := ctx.Poll();
        if cancelled {
          return Cancelled;
        }
        ghost var before := source.pos;
        var n, readErr, writeErr := CopyChunk(ctx, buf, Min(BUFFER_SIZE, remaining), source);
        assert source.data[start..source.pos] == source.data[start..before] + source.data[before..source.pos];
        if writeErr != Nil {
          return writeErr;
        }
        remaining := remaining - n;
        if readErr != Nil {
          if readErr == Eof && remaining == 0 {
            return Nil;
          }
          return if readErr == Eof then UnexpectedEof else readErr;
        }
      }
      return Nil;
    }

    /** One frame, written while the write lock is held: a nil result means exactly the header and
        the next `length` bytes of the source, an error means a prefix of them. */
    method SendStreamOnce(ctx: Context, id: uint64, typ: uint32, length: uint32, source: Source)
        returns (err: Error)
      requires source.Valid()
      modifies ctx, vsock, source
      ensures source.Valid() && old(source.pos) <= source.pos <= old(source.pos) + length
      ensures var bytes := EncodeHeader(Header(id, typ, length)) + source.data[old(source.pos)..source.pos];
              && old(vsock.sent) <= vsock.sent <= old(vsock.sent) + bytes
              && (err == Nil || err == UnexpectedEof ==> vsock.sent == old(vsock.sent) + bytes)
      ensures err == Nil ==> source.pos == old(source.pos) + length
      ensures err == UnexpectedEof ==> source.pos == |source.data| < old(source.pos) + length
      ensures err in SEND_ERRORS
      ensures old(ctx.done) ==> ctx.done
      ensures Explained(err, ctx.done, vsock.failures > old(vsock.failures),
                        source.readFailures > old(source.readFailures))
      ensures err == Nil ==> vsock.failures == old(vsock.failures) && source.readFailures == old(source.readFailures)
      ensures old(vsock.failures) <= vsock.failures && old(source.readFailures) <= source.readFailures
      ensures source.seekFailures == old(source.seekFailures)
    {
      err := WriteAll(ctx, EncodeHeader(Header(id, typ, length)));
      if err != Nil {
        return;
      }
      err := WritePayload(ctx, length, source);
    }

    method SendStreamAttempt(ctx: Context, id: uint64, typ: uint32, length: uint32, source: Source, awaitAck: bool)
        returns (attempt: Attempt)
      requires source.Valid()
      modifies ctx, vsock, source, peer
      ensures source.Valid()
      ensures old(vsock.sent) <= vsock.sent
      ensures !attempt.SendFailed? ==>
                && source.pos == old(source.pos) + length
                && vsock.sent == old(vsock.sent) + FrameAt(source.data, old(source.pos), id, typ, length)
      ensures attempt.SendFailed? ==> attempt.err in SEND_ERRORS && attempt.err != Nil
      ensures attempt.SendFailed? && attempt.err == UnexpectedEof ==> |source.data| < old(source.pos) + length
      ensures attempt.SendFailed? ==>
                Explained(attempt.err, ctx.done, vsock.failures > old(vsock.failures),
                          source.readFailures > old(source.readFailures))
      ensures old(vsock.failures) <= vsock.failures && old(source.readFailures) <= source.readFailures
      ensures source.seekFailures == old(source.seekFailures)
      ensures attempt.Waited? ==> awaitAck && peer.waits == old(peer.waits) + [attempt.wait]
      ensures attempt.Waited? && attempt.wait == ContextDone ==> ctx.done
      ensures attempt.Unawaited? ==> !awaitAck
      ensures !attempt.Waited? ==> peer.waits == old(peer.waits)
      ensures old(ctx.done) ==> ctx.done
    {
      var err := SendStreamOnce(ctx, id, typ, length, source);
      if err != Nil {
        return SendFailed(err);
      }
      if !awaitAck {
        return Unawaited;
      }
      var wait := peer.WaitForAcknowledge(ctx);
      return Waited(wait);
    }

    /** One more attempt, put on the record of those made so far. */
    method AttemptAgain(ctx: Context, id: uint64, typ: uint32, length: uint32, source: Source, awaitAck: bool,
                        made: seq<Attempt>, copied: nat, ghost allowed: nat, ghost frame: seq<byte>,
                        ghost sent: seq<byte>, ghost waits: seq<Wait>, ghost writes: nat, ghost readings: nat)
        returns (err: Error, attempts: seq<Attempt>, copies: nat)
      requires source.Valid() && frame == FrameAt(source.data, source.pos, id, typ, length)
      requires AllFailed(made) && |made| < allowed && writes <= vsock.failures && readings <= source.readFailures
      requires Record(made, copied, frame, sent, vsock.sent, waits, peer.waits, ctx.done, vsock.failures > writes,
                      source.readFailures > readings)
      modifies ctx, vsock, source, peer
      ensures source.Valid() && source.seekFailures == old(source.seekFailures)
      ensures |attempts| == |made| + 1 && err == ErrorOf(attempts[|made|])
      ensures err !in {MissingId, TooLarge} && (err == Cancelled ==> ctx.done)
      ensures if err == Nil then Ended(err, attempts, allowed, awaitAck, ctx.done, false) else AllFailed(attempts)
      ensures Record(attempts, copies, frame, sent, vsock.sent, waits, peer.waits, ctx.done, vsock.failures > writes,
                     source.readFailures > readings)
      ensures writes <= vsock.failures && readings <= source.readFailures
      ensures copies > copied ==> old(source.pos) + length <= |source.data|
    {
      hide Record;
      hide FrameAt;
      hide Explained;
      hide Ended;
      hide AllFailed;
      hide EncodeHeader;
      ghost var was := (ctx.done, vsock.failures > writes, source.readFailures > readings);
      var attempt := SendStreamAttempt(ctx, id, typ, length, source, awaitAck);
      RecordOnceMore(made, copied, frame, sent, old(vsock.sent), vsock.sent, waits, old(peer.waits), peer.waits,
                     attempt, vsock.failures > old(vsock.failures), source.readFailures > old(source.readFailures),
                     was, (ctx.done, vsock.failures > writes, source.readFailures > readings));
      LastAttempt(made, attempt, allowed, awaitAck, ctx.done, false);
      err, attempts := ErrorOf(attempt), made + [attempt];
      copies := if copied == |made| && !attempt.SendFailed? then copied + 1 else copied;
    }

    /** The retry loop. The wire gains one copy of the same frame for every attempt up to the first
        that failed to write, and nothing else while no attempt failed to write. Unless the context is done or the
        source could not go back to its start, an error means that every attempt allowed was made. */
    method Retry(ctx: Context, id: uint64, typ: uint32, length: uint32, source: Source, awaitAck: bool, allowed: nat)
        returns (err: Error, attempts: seq<Attempt>, copies: nat)
      requires source.Valid() && allowed > 0
      modifies ctx, vsock, source, peer
      ensures source.Valid() && 0 < |attempts| <= allowed
      ensures Ended(err, attempts, allowed, awaitAck, ctx.done, source.seekFailures > old(source.seekFailures))
      ensures Record(attempts, copies, FrameAt(source.data, old(source.pos), id, typ, length), old(vsock.sent),
                     vsock.sent,
                     old(peer.waits), peer.waits, ctx.done, vsock.failures > old(vsock.failures),
                     source.readFailures > old(source.readFailures))
      ensures copies > 0 ==> old(source.pos) + length <= |source.data|
    {
      hide Record;
      hide FrameAt;
      hide Ended;
      hide AllFailed;
      hide ErrorOf;
      attempts, copies := [], 0;
      var start := source.pos;
      ghost var frame := FrameAt(source.data, start, id, typ, length);
      NoneMade(frame, vsock.sent, peer.waits, ctx.done);
      var attempt := 0;
      while attempt < allowed
        invariant attempt < allowed && |attempts| == attempt && source.Valid()
        invariant attempt == 0 ==> source.pos == start
        invariant copies > 0 ==> start + length <= |source.data|
        invariant AllFailed(attempts)
        invariant Record(attempts, copies, frame, old(vsock.sent), vsock.sent, old(peer.waits), peer.waits, ctx.done,
                         vsock.failures > old(vsock.failures), source.readFailures > old(source.readFailures))
        invariant source.seekFailures == old(source.seekFailures)
        invariant old(vsock.failures) <= vsock.failures && old(source.readFailures) <= source.readFailures
        invariant attempt > 0 ==> !ctx.done
      {
        if attempt > 0 {
          err := source.Seek(start);
          if err != Nil {
            EndedFailing(err, attempts, allowed, awaitAck, ctx.done, true);
            return;
          }
        }
        err, attempts, copies :=
          AttemptAgain(ctx, id, typ, length, source, awaitAck, attempts, copies, allowed, frame, old(vsock.sent),
                       old(peer.waits), old(vsock.failures), old(source.readFailures));
        if err != Nil {
          ghost var done := ctx.done;
          var cancelled := ctx.Poll();
          DoneMore(attempts, copies, frame, old(vsock.sent), vsock.sent, old(peer.waits), peer.waits, done, ctx.done,
                   vsock.failures > old(vsock.failures), source.readFailures > old(source.readFailures));
          if cancelled {
            EndedFailing(Cancelled, attempts, allowed, awaitAck, ctx.done, false);
            return Cancelled, attempts, copies;
          }
          if attempt == allowed - 1 {
            EndedFailing(err, attempts, allowed, awaitAck, ctx.done, false);
            return;
          }
        }
        if err == Nil {
          return;
        }
        attempt := attempt + 1;
      }
      assert false;
    }

    function AwaitsAcknowledge(typ: uint32): (awaits: bool)
      ensures awaits <==> config.requireAcknowledge && typ != ACKNOWLEDGE_TYPE
    {
      config.requireAcknowledge && typ != ACKNOWLEDGE_TYPE
    }

    /** The checks before the first attempt, then the retry loop. Only a message that requires an acknowledgement and
        is not one waits for it, and only such a message from a reader that can go back to its start is retried. */
    method SendStreamWithId(ctx: Context, id: uint64, typ: uint32, length: uint32, source: Source)
        returns (err: Error, attempts: seq<Attempt>, copies: nat)
      requires source.Valid()
      modifies ctx, vsock, source, peer
      ensures source.Valid()
      ensures err == MissingId <==> id == 0
      ensures err == TooLarge <==> id != 0 && 0 < config.maxMessageSize < HEADER_LENGTH + length
      ensures err in {MissingId, TooLarge} ==> attempts == [] && vsock.sent == old(vsock.sent)
      ensures err !in {MissingId, TooLarge} && !(err == SourceFailed && attempts == []) ==>
                0 < |attempts|
                && Ended(err, attempts,
                         if config.requireAcknowledge && typ != ACKNOWLEDGE_TYPE && source.seekable
                         then 1 + config.maxRetries else 1,
                         config.requireAcknowledge && typ != ACKNOWLEDGE_TYPE, ctx.done,
                         source.seekFailures > old(source.seekFailures))
      ensures err == SourceFailed && attempts == [] ==> source.seekFailures > old(source.seekFailures)
      ensures Record(attempts, copies, FrameAt(source.data, old(source.pos), id, typ, length), old(vsock.sent),
                     vsock.sent,
                     old(peer.waits), peer.waits, ctx.done, vsock.failures > old(vsock.failures),
                     source.readFailures > old(source.readFailures))
      ensures copies > 0 ==> old(source.pos) + length <= |source.data|
    {
      hide Record;
      hide FrameAt;
      hide Explained;
      attempts, copies := [], 0;
      NoneMade(FrameAt(source.data, source.pos, id, typ, length), vsock.sent, peer.waits, ctx.done);
      if id == 0 {
        return MissingId, [], 0;
      }
      if config.maxMessageSize > 0 && HEADER_LENGTH + length > config.maxMessageSize {
        return TooLarge, [], 0;
      }
      var allowed := 1;
      if AwaitsAcknowledge(typ) && source.seekable {
        err := source.Seek(source.pos);
        if err != Nil {
          return err, [], 0;
        }
        allowed := 1 + config.maxRetries;
      }
      err, attempts, copies := Retry(ctx, id, typ, length, source, AwaitsAcknowledge(typ), allowed);
    }
  }

  /** Every attempt that failed to write, or saw the context done, has a cause outside the messenger. */
  predicate AllExplained(attempts: seq<Attempt>, done: bool, writeFailed: bool, readFailed: bool) {
    forall i :: 0 <= i < |attempts| ==>
      && (attempts[i].SendFailed? ==> Explained(attempts[i].err, done, writeFailed, readFailed))
      && (attempts[i] == Waited(ContextDone) ==> done)
  }

  lemma DoneMore(attempts: seq<Attempt>, copies: nat, frame: seq<byte>, before: seq<byte>, sent: seq<byte>,
                 waitsBefore: seq<Wait>, waits: seq<Wait>, done: bool, done': bool, writeFailed: bool, readFailed: bool)
    requires Record(attempts, copies, frame, before, sent, waitsBefore, waits, done, writeFailed, readFailed)
    requires done ==> done'
    ensures Record(attempts, copies, frame, before, sent, waitsBefore, waits, done', writeFailed, readFailed)
  {
    hide Tried;
  }

  /** No attempt so far has succeeded. */
  predicate AllFailed(attempts: seq<Attempt>) {
    forall i :: 0 <= i < |attempts| ==>
      ErrorOf(attempts[i]) != Nil && (attempts[i].SendFailed? ==> attempts[i].err in SEND_ERRORS)
  }

  lemma EndedFailing(err: Error, attempts: seq<Attempt>, allowed: nat, awaitAck: bool, done: bool, seekFailed: bool)
    requires 0 < |attempts| <= allowed && AllFailed(attempts) && err !in {Nil, MissingId, TooLarge}
    requires done <==> err == Cancelled
    requires || done
             || (err == ErrorOf(attempts[|attempts| - 1]) && |attempts| == allowed)
             || (err == SourceFailed && seekFailed)
    ensures Ended(err, attempts, allowed, awaitAck, done, seekFailed)
  {}

  lemma LastAttempt(attempts: seq<Attempt>, outcome: Attempt, allowed: nat, awaitAck: bool, done: bool,
                    seekFailed: bool)
    requires AllFailed(attempts) && |attempts| < allowed
    requires outcome.SendFailed? ==> outcome.err in SEND_ERRORS && outcome.err != Nil
    requires (outcome.Waited? ==> awaitAck) && (outcome.Unawaited? ==> !awaitAck)
    ensures ErrorOf(outcome) == Nil ==> Ended(Nil, attempts + [outcome], allowed, awaitAck, done, seekFailed)
    ensures ErrorOf(outcome) != Nil ==> AllFailed(attempts + [outcome])
    ensures ErrorOf(outcome) !in {MissingId, TooLarge}
  {}

  lemma NoneMade(frame: seq<byte>, sent: seq<byte>, waits: seq<Wait>, done: bool)
    ensures AllFailed([]) && Record([], 0, frame, sent, sent, waits, waits, done, false, false)
  {
    assert sent + [] == sent && waits + [] == waits;
  }

  lemma RecordOnceMore(attempts: seq<Attempt>, copies: nat, frame: seq<byte>, before: seq<byte>, wire: seq<byte>,
                       sent: seq<byte>, waitsBefore: seq<Wait>, waits: seq<Wait>, waits': seq<Wait>, outcome: Attempt,
                       written: bool, read: bool, was: (bool, bool, bool), now: (bool, bool, bool))
    requires Record(attempts, copies, frame, before, wire, waitsBefore, waits, was.0, was.1, was.2)
    requires wire <= sent && (copies == |attempts| && !outcome.SendFailed? ==> sent == wire + frame)
    requires waits' == waits + (if outcome.Waited? then [outcome.wait] else [])
    requires (was.0 ==> now.0) && (was.1 || written ==> now.1) && (was.2 || read ==> now.2)
    requires outcome.SendFailed? ==> Explained(outcome.err, now.0, written, read)
    requires outcome == Waited(ContextDone) ==> now.0
    ensures Record(attempts + [outcome],
                   if copies == |attempts| && !outcome.SendFailed? then copies + 1 else copies,
                   frame, before, sent, waitsBefore, waits', now.0, now.1, now.2)
    ensures copies <= |attempts|
  {
    hide Tried;
    TriedFits(attempts, copies, frame, before, wire, waitsBefore, waits);
    TriedOnceMore(attempts, copies, frame, before, wire, sent, waitsBefore, waits, waits', outcome);
  }

  lemma TriedFits(attempts: seq<Attempt>, copies: nat, frame: seq<byte>, before: seq<byte>, sent: seq<byte>,
                  waitsBefore: seq<Wait>, waits: seq<Wait>)
    requires Tried(attempts, copies, frame, before, sent, waitsBefore, waits)
    ensures copies <= |attempts|
  {}

  lemma TriedOnceMore(attempts: seq<Attempt>, copies: nat, frame: seq<byte>, before: seq<byte>, wire: seq<byte>,
                      sent: seq<byte>, waitsBefore: seq<Wait>, waits: seq<Wait>, waits': seq<Wait>, outcome: Attempt)
    requires Tried(attempts, copies, frame, before, wire, waitsBefore, waits)
    requires wire <= sent && (copies == |attempts| && !outcome.SendFailed? ==> sent == wire + frame)
    requires waits' == waits + (if outcome.Waited? then [outcome.wait] else [])
    ensures Tried(attempts + [outcome],
                  if copies == |attempts| && !outcome.SendFailed? then copies + 1 else copies,
                  frame, before, sent, waitsBefore, waits')
  {
    hide RepeatBytes;
    WaitsOfAppend(attempts, outcome);
    if copies == |attempts| && !outcome.SendFailed? {
      CopiedOnceMore(before, frame, copies, wire);
    }
  }
}
