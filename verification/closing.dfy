/** Streams that are closed by the forwarder, and the two rules by which a
    close result is folded into a pending error: safeClose
    (port_forwarder.go:137-142) and the remote channel's deferred close
    (port_forwarder.go:118-123). */
module Closing {
  import opened Errors

  /** An io.Closer whose Close returns a scripted result and counts its calls. */
  class Closer {
    const script: Option<Error>
    var closes: nat

    constructor (script: Option<Error>)
      ensures this.script == script && closes == 0
    {
      this.script := script;
      closes := 0;
    }

    method Close(log: CloseLog) returns (e: Option<Error>)
      modifies this, log
      ensures e == script
      ensures closes == old(closes) + 1
      ensures log.events == old(log.events) + [this]
    {
      closes := closes + 1;
      log.events := log.events + [this];
      e := script;
    }
  }

  /** The order in which Close was called on the streams. */
  class CloseLog {
    var events: seq<Closer>

    constructor ()
      ensures events == []
    {
      events := [];
    }
  }

  /** A pointer to an error variable (`*error`), here the named result of
      handleConnection. */
  class ErrorSlot {
    var err: Option<Error>

    constructor ()
      ensures err == None
    {
      err := None;
    }
  }

  /** The error left in the slot by safeClose: the close result only when no
      error was reported before. */
  function SafeCloseResult(prior: Option<Error>, closeErr: Option<Error>): (r: Option<Error>)
    ensures prior.Some? ==> r == prior
    ensures prior.None? ==> r == closeErr
  {
    if prior.None? then closeErr else prior
  }

  /** io.EOF from closing the remote channel is treated as success. */
  function SuppressEOF(closeErr: Option<Error>): (r: Option<Error>)
    ensures r != Some(EOF)
    ensures closeErr != Some(EOF) ==> r == closeErr
  {
    if closeErr == Some(EOF) then None else closeErr
  }

  /** The error left by the deferred close of the remote channel: a close
      result other than io.EOF is recorded only when no error is pending. */
  function ChannelCloseResult(prior: Option<Error>, closeErr: Option<Error>): (r: Option<Error>)
    ensures r == Some(EOF) ==> prior == Some(EOF)
    ensures prior.Some? ==> r == prior
    ensures prior.None? ==> r == SuppressEOF(closeErr)
  {
    if prior.None? && closeErr != Some(EOF) then closeErr else prior
  }

  /** safeClose(closer, err): close once, and report the close error through
      the slot only if no other error was reported there. */
  method SafeClose(closer: Closer, slot: ErrorSlot, log: CloseLog)
    modifies closer, slot, log
    ensures closer.closes == old(closer.closes) + 1
    ensures slot.err == SafeCloseResult(old(slot.err), closer.script)
    ensures log.events == old(log.events) + [closer]
  {
    var closeErr := closer.Close(log);
    if slot.err.None? {
      slot.err := closeErr;
    }
  }
}
