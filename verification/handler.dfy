/** handleConnection (port_forwarder.go:107-133): open a remote channel for
    one local connection, relay until the context is done, and close both
    streams on the way out through deferred calls that run last-in,
    first-out. */
module Handler {
  import opened Errors
  import opened Closing

  /** What session.openStreamingChannel yields: an error, or a fresh channel
      whose Close will return `closeResult`. */
  datatype OpenOutcome = OpenFails(cause: Error) | Opens(closeResult: Option<Error>)

  /** The candidate results of one handler run, in the order the code lets
      them claim the named result: the open failure alone, or the context's
      error, then the channel close (io.EOF suppressed); the local close is
      always last. */
  function HandlerOutcomes(open: OpenOutcome, ctxErr: Option<Error>, connClose: Option<Error>): (s: seq<Option<Error>>)
    ensures |s| >= 2 && s[|s| - 1] == connClose
    ensures open.OpenFails? ==> s[0] == Some(OpeningChannel(open.cause))
    ensures open.Opens? ==> s[0] == ctxErr && s[1] == SuppressEOF(open.closeResult)
  {
    match open
    case OpenFails(cause) => [Some(OpeningChannel(cause)), connClose]
    case Opens(closeResult) => [ctxErr, SuppressEOF(closeResult), connClose]
  }

  /** The error handleConnection returns, as the composition of its steps:
      the open result or ctx.Err() is returned, then the deferred channel
      close runs, then the deferred safeClose of the local connection. */
  function HandleResult(open: OpenOutcome, ctxErr: Option<Error>, connClose: Option<Error>): (r: Option<Error>)
    ensures open.OpenFails? ==> r == Some(OpeningChannel(open.cause))
    ensures open.Opens? && ctxErr.Some? ==> r == ctxErr
    ensures open.Opens? && r != ctxErr ==> ctxErr.None? && r.Some? &&
                                           (r == open.closeResult || r == connClose)
    ensures r == Some(EOF) ==> ctxErr == Some(EOF) || connClose == Some(EOF)
  {
    match open
    case OpenFails(cause) => SafeCloseResult(Some(OpeningChannel(cause)), connClose)
    case Opens(closeResult) => SafeCloseResult(ChannelCloseResult(ctxErr, closeResult), connClose)
  }

  /** The composition rule: a handler returns the first non-nil of its
      candidate results, so closes run on every path but never displace an
      earlier error. */
  lemma HandleResultIsFirstOutcome(open: OpenOutcome, ctxErr: Option<Error>, connClose: Option<Error>)
    ensures HandleResult(open, ctxErr, connClose) == FirstNonNil(HandlerOutcomes(open, ctxErr, connClose))
  {
    var s := HandlerOutcomes(open, ctxErr, connClose);
    var last := s[|s| - 1..];
    assert last == [connClose] && last[1..] == [];
    assert FirstNonNil(last) == connClose;
    if open.Opens? {
      assert s[1..][1..] == last;
    } else {
      assert s[1..] == last;
    }
  }

  /** How far a handleConnection call gets: while ctx is not done
      (ctx.Err() is nil) a handler whose channel opened stays blocked at
      `<-ctx.Done()` (line 131) and none of its deferred closes run; any
      other run returns HandleResult. */
  function HandlerRun(open: OpenOutcome, ctxErr: Option<Error>, connClose: Option<Error>): (w: Wait)
    ensures w.Blocked? <==> open.Opens? && ctxErr.None?
    ensures w.Returns? ==> w.err == HandleResult(open, ctxErr, connClose)
  {
    if open.Opens? && ctxErr.None? then Blocked else Returns(HandleResult(open, ctxErr, connClose))
  }

  /** Once the context is done, a handler whose channel opened returns
      ctx.Err() itself, whatever the two closes report; a close error can
      win only over a nil ctx.Err(), which the context contract rules out. */
  lemma OpenedHandlerReturnsContextError(closeResult: Option<Error>, ctxErr: Option<Error>, connClose: Option<Error>)
    ensures HandlerRun(Opens(closeResult), ctxErr, connClose) ==
            if ctxErr.Some? then Returns(ctxErr) else Blocked
  {
  }

  /** A handler whose channel failed to open returns at once, with the
      wrapped open error, whatever the context and the local close report. */
  lemma FailedOpenReturnsOpenError(cause: Error, ctxErr: Option<Error>, connClose: Option<Error>)
    ensures HandlerRun(OpenFails(cause), ctxErr, connClose) == Returns(Some(OpeningChannel(cause)))
  {
  }

  /** The error a handler goroutine hands over: its non-nil result, or
      nothing while it is blocked or when it returns nil. */
  function Sent(w: Wait): (e: Option<Error>)
    ensures e.Some? <==> w.Returns? && w.err.Some?
    ensures e.Some? ==> e == w.err
  {
    if w.Returns? then w.err else None
  }

  /** One run of handleConnection on `conn`, up to its return or to the
      point where it blocks for good. `ctxErr` is what ctx.Err() yields; a
      nil value means ctx.Done() is not closed. The channel it opens is
      returned so that callers can see how often it was closed. */
  method HandleConnection(ctxErr: Option<Error>, open: OpenOutcome, conn: Closer, log: CloseLog)
    returns (w: Wait, channel: Closer?)
    modifies conn, log
    ensures w == HandlerRun(open, ctxErr, conn.script)
    ensures conn.closes == old(conn.closes) + (if w.Returns? then 1 else 0)
    ensures open.OpenFails? ==> channel == null && log.events == old(log.events) + [conn]
    ensures open.Opens? ==> channel != null && fresh(channel) && channel.script == open.closeResult
    ensures open.Opens? && w.Returns? ==> channel.closes == 1 && log.events == old(log.events) + [channel, conn]
    ensures w.Blocked? ==> channel.closes == 0 && log.events == old(log.events)
  {
    // the named result; `defer safeClose(conn, &err)` runs on every return
    var result := new ErrorSlot();
    match open {
      case OpenFails(cause) =>
        channel := null;
        result.err := Some(cause);
        result.err := Some(OpeningChannel(cause));
      case Opens(closeResult) =>
        channel := new Closer(closeResult);
        result.err := None;
        if ctxErr.None? {
          // `<-ctx.Done()` never returns, so no deferred call runs
          w := Blocked;
          return;
        }
        result.err := ctxErr;
        // the deferred close of the channel runs first
        var closeErr := channel.Close(log);
        result.err := ChannelCloseResult(result.err, closeErr);
    }
    SafeClose(conn, result, log);
    w := Returns(result.err);
  }

  /** Were ctx.Err() nil when a handler returns, a channel-close error other
      than io.EOF would win over a local close error, and io.EOF would give
      way to the local close result. */
  lemma CloseErrorsWithoutContextError(closeResult: Option<Error>, connClose: Option<Error>)
    ensures closeResult != Some(EOF) && closeResult.Some? ==>
              HandleResult(Opens(closeResult), None, connClose) == closeResult
    ensures closeResult == Some(EOF) || closeResult.None? ==>
              HandleResult(Opens(closeResult), None, connClose) == connClose
  {
  }
}
