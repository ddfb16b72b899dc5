/** What the messenger's loops get from the Go runtime: errors and cancellable contexts. */
module Runtime {
  datatype Error =
    | Nil | Eof | UnexpectedEof | Cancelled | ConnectionClosed | ConnectionFailed | SourceFailed
    | MissingId | TooLarge | AckTimeout | HandlerFailed

  /** A context that may be cancelled at any moment and then stays cancelled. */
  class Context {
    var done: bool

    method Poll() returns (cancelled: bool)
      modifies this
      ensures cancelled == done && (old(done) ==> done)
    {
      if * {
        done := true;
      }
      cancelled := done;
    }
  }
}
