/** The PortForwarder and its two entry points, ForwardToListener and
    Forward (port_forwarder.go:10-105). The session, the listener and the
    context are inputs: a scripted startSharing result, the sequence of
    results Accept returns, and the value of ctx.Err(). */
module PortForwarding {
  import opened Errors
  import opened Closing
  import opened Handler
  import opened ErrorMailbox

  /** An opaque handle on a Live Share session, owned by the caller. */
  datatype Session = Session(handle: nat)

  /** The token startSharing returns to correlate later channel opens. */
  datatype ChannelId = ChannelId(token: nat)

  datatype PortForwarder = PortForwarder(session: Session, name: string, remotePort: int)

  /** NewPortForwarder: a forwarder for one remote port of one session. */
  function NewPortForwarder(session: Session, name: string, remotePort: int): (fwd: PortForwarder)
    ensures fwd.session == session && fwd.name == name && fwd.remotePort == remotePort
  {
    PortForwarder(session, name, remotePort)
  }

  /** What session.startSharing(ctx, name, remotePort) returns. */
  datatype Sharing = Sharing(id: ChannelId, err: Option<Error>)

  /** shareRemotePort as written: the wrapped error is built and then
      dropped, so the identifier comes back with a nil error even when
      sharing failed. */
  function ShareRemotePort(fwd: PortForwarder, started: Sharing): (r: (ChannelId, Option<Error>))
    ensures r.0 == started.id
    ensures r.1.None?
  {
    var err := if started.err.Some? then Some(SharingPort(fwd.remotePort, started.err.value)) else started.err;
    (started.id, None)
  }

  /** awaitError: a select between a delivered error and ctx.Done(). The
      context is done exactly when ctx.Err() is non-nil. When both arms are
      ready, `preferDelivered` stands for the choice the runtime makes. */
  function AwaitError(ctxErr: Option<Error>, delivered: Option<Error>, preferDelivered: bool): (w: Wait)
    ensures w.Returns? <==> delivered.Some? || ctxErr.Some?
    ensures w.Returns? ==> w.err.Some? && (w.err == delivered || w.err == ctxErr)
    ensures delivered.Some? && ctxErr.None? ==> w == Returns(delivered)
    ensures delivered.None? && ctxErr.Some? ==> w == Returns(ctxErr)
  {
    if delivered.Some? && (preferDelivered || ctxErr.None?) then Returns(delivered)
    else if ctxErr.Some? then Returns(ctxErr)
    else Blocked
  }

  /** When both arms are ready, either may win. */
  lemma AwaitErrorEitherArm(ctxErr: Error, delivered: Error)
    ensures AwaitError(Some(ctxErr), Some(delivered), true) == Returns(Some(delivered))
    ensures AwaitError(Some(ctxErr), Some(delivered), false) == Returns(Some(ctxErr))
  {
  }

  /** One result of listen.Accept(): a connection, with the scripted result
      of its Close and of the channel open its handler will attempt, or an
      error. */
  datatype Accept = Accepted(connClose: Option<Error>, open: OpenOutcome) | AcceptFailed(cause: Error)

  /** One iteration of the accept loop as the error mailbox sees it: a
      spawned handler with the error it hands over, or the Accept failure
      that ends the loop. */
  datatype Step = Served(err: Option<Error>) | Stopped(cause: Error)

  /** The iteration an Accept result leads to. */
  function StepOf(ctxErr: Option<Error>, a: Accept): (s: Step)
    ensures s.Stopped? <==> a.AcceptFailed?
    ensures a.AcceptFailed? ==> s.cause == a.cause
    ensures a.Accepted? ==> s.err == Sent(HandlerRun(a.open, ctxErr, a.connClose))
  {
    match a
    case Accepted(connClose, open) => Served(Sent(HandlerRun(open, ctxErr, connClose)))
    case AcceptFailed(cause) => Stopped(cause)
  }

  /** The iterations of a whole sequence of Accept results. */
  function Steps(ctxErr: Option<Error>, accepts: seq<Accept>): (steps: seq<Step>)
    ensures |steps| == |accepts|
    ensures forall k :: 0 <= k < |accepts| ==> steps[k] == StepOf(ctxErr, accepts[k])
  {
    seq(|accepts|, k requires 0 <= k < |accepts| => StepOf(ctxErr, accepts[k]))
  }

  /** How many handlers the loop spawns before the first Accept failure. */
  function HandledCount(steps: seq<Step>): (n: nat)
    ensures n <= |steps|
    ensures forall k :: 0 <= k < n ==> steps[k].Served?
    ensures n < |steps| ==> steps[n].Stopped?
  {
    if steps == [] || steps[0].Stopped? then 0
    else
      var n := 1 + HandledCount(steps[1..]);
      assert forall k :: 1 <= k < |steps| ==> steps[k] == steps[1..][k - 1];
      n
  }

  /** The errors one iteration hands to sendError: the handler's error, if
      it is non-nil, or the Accept failure. */
  function StepOffers(s: Step): seq<Error>
  {
    match s
    case Served(err) => NonNil(err)
    case Stopped(cause) => [cause]
  }

  /** All errors handed to sendError, in order, when each handler runs to
      completion as soon as it is spawned; the loop stops at the first
      Accept failure. */
  function Offers(steps: seq<Step>): seq<Error>
  {
    if steps == [] then []
    else if steps[0].Stopped? then StepOffers(steps[0])
    else StepOffers(steps[0]) + Offers(steps[1..])
  }

  /** An error the iterations genuinely produced: the result of a spawned
      handler, or the Accept failure that ended the loop. */
  predicate IsGenuineFailure(steps: seq<Step>, e: Error) {
    var n := HandledCount(steps);
    (exists k :: 0 <= k < n && steps[k].err == Some(e)) || (n < |steps| && e == steps[n].cause)
  }

  /** Offers grows one iteration at a time, and stops growing at the first
      Accept failure. */
  lemma {:induction false} OffersAt(steps: seq<Step>, i: nat)
    requires i <= HandledCount(steps) && i < |steps|
    ensures Offers(steps[..i + 1]) == Offers(steps[..i]) + StepOffers(steps[i])
    ensures steps[i].Stopped? ==> Offers(steps) == Offers(steps[..i + 1])
  {
    if i == 0 {
      assert steps[..1] == [steps[0]];
      assert steps[..0] == [];
    } else {
      var rest := steps[1..];
      OffersAt(rest, i - 1);
      assert steps[..i + 1][1..] == rest[..i];
      assert steps[..i][1..] == rest[..i - 1];
      assert rest[i - 1] == steps[i];
    }
  }

  /** Every offered error is genuine; there is at most one per spawned
      handler plus the Accept failure, which comes last. */
  lemma {:induction false} OffersAreGenuine(steps: seq<Step>)
    ensures forall e :: e in Offers(steps) ==> IsGenuineFailure(steps, e)
    ensures |Offers(steps)| <= HandledCount(steps) + 1
    ensures HandledCount(steps) < |steps| ==>
              |Offers(steps)| > 0 && Offers(steps)[|Offers(steps)| - 1] == steps[HandledCount(steps)].cause
    decreases |steps|
  {
    if steps != [] && steps[0].Served? {
      var rest := steps[1..];
      OffersAreGenuine(rest);
      var here := NonNil(steps[0].err);
      assert Offers(steps) == here + Offers(rest);
      forall e | e in Offers(steps)
        ensures IsGenuineFailure(steps, e)
      {
        if e in here {
          assert steps[0].err == Some(e);
        } else {
          assert IsGenuineFailure(rest, e);
          var n := HandledCount(rest);
          if n < |rest| && e == rest[n].cause {
            assert steps[n + 1] == rest[n];
          } else {
            var k :| 0 <= k < n && rest[k].err == Some(e);
            assert steps[k + 1] == rest[k];
          }
        }
      }
    }
  }

  /** A ForwardToListener call returns one error, and it is either the
      context's error, the result of one of its handlers, or the Accept
      failure that ended its loop; it returns at all exactly when the
      context is done or some error was sent. */
  lemma ListenerReturnsOneGenuineError(ctxErr: Option<Error>, accepts: seq<Accept>, preferDelivered: bool)
    ensures var steps := Steps(ctxErr, accepts);
            var n := HandledCount(steps);
            var w := AwaitError(ctxErr, DeliverAll(None, Offers(steps)), preferDelivered);
            (w.Returns? <==> ctxErr.Some? || Offers(steps) != []) &&
            (w.Returns? ==>
               w.err == ctxErr ||
               (exists k :: 0 <= k < n && accepts[k].Accepted? &&
                            HandlerRun(accepts[k].open, ctxErr, accepts[k].connClose) == Returns(w.err)) ||
               (n < |accepts| && accepts[n].AcceptFailed? && w.err == Some(accepts[n].cause)))
  {
    var steps := Steps(ctxErr, accepts);
    var n := HandledCount(steps);
    var offers := Offers(steps);
    DeliverAllKeepsFirst(None, offers);
    OffersAreGenuine(steps);
    if offers != [] {
      var e := offers[0];
      assert e in offers;
      assert IsGenuineFailure(steps, e);
      if n < |steps| && e == steps[n].cause {
        assert accepts[n].AcceptFailed?;
      } else {
        var k :| 0 <= k < n && steps[k].err == Some(e);
        assert accepts[k].Accepted?;
      }
    }
  }

  /** The goroutine spawned for each accepted connection (lines 60-64):
      handle it, and hand a non-nil result to sendError; a handler that
      blocks hands over nothing. The channel its handler opened, if any, is
      returned so that callers can see how often it was closed. */
  method ServeConnection(ctxErr: Option<Error>, open: OpenOutcome, conn: Closer, errc: Mailbox, log: CloseLog)
    returns (channel: Closer?)
    modifies conn, errc, log
    ensures errc.slot == DeliverAll(old(errc.slot), StepOffers(Served(Sent(HandlerRun(open, ctxErr, conn.script)))))
    ensures conn.closes == old(conn.closes) + (if HandlerRun(open, ctxErr, conn.script).Returns? then 1 else 0)
    ensures open.OpenFails? ==> channel == null && log.events == old(log.events) + [conn]
    ensures open.Opens? ==> channel != null && fresh(channel) && channel.script == open.closeResult
    ensures open.Opens? && ctxErr.Some? ==> channel.closes == 1 && log.events == old(log.events) + [channel, conn]
    ensures open.Opens? && ctxErr.None? ==> channel.closes == 0 && log.events == old(log.events)
  {
    var w;
    w, channel := HandleConnection(ctxErr, open, conn, log);
    if w.Returns? && w.err.Some? {
      errc.SendError(w.err.value);
      assert [w.err.value][1..] == [];
    }
  }

  /** The goroutine running the accept loop, run sequentially: each
      accepted connection gets one handler run, whose error (if any) goes
      to sendError; the first Accept failure goes to sendError and ends the
      loop. Running out of scripted results means Accept is still blocked. */
  method AcceptLoop(ctxErr: Option<Error>, accepts: seq<Accept>, errc: Mailbox) returns (handled: nat)
    modifies errc
    ensures errc.slot == DeliverAll(old(errc.slot), Offers(Steps(ctxErr, accepts)))
    ensures handled == HandledCount(Steps(ctxErr, accepts))
  {
    ghost var steps := Steps(ctxErr, accepts);
    ghost var slot0 := errc.slot;
    var log := new CloseLog();
    handled := 0;
    var i := 0;
    while i < |accepts| && accepts[i].Accepted?
      invariant 0 <= i <= HandledCount(steps)
      invariant errc.slot == DeliverAll(slot0, Offers(steps[..i]))
      invariant handled == i
    {
      var conn := new Closer(accepts[i].connClose);
      var channel := ServeConnection(ctxErr, accepts[i].open, conn, errc, log);
      assert errc.slot == DeliverAll(slot0, Offers(steps[..i + 1])) by {
        assert steps[i] == Served(Sent(HandlerRun(accepts[i].open, ctxErr, conn.script)));
        OffersAt(steps, i);
        DeliverAllAppend(slot0, Offers(steps[..i]), StepOffers(steps[i]));
      }
      handled := handled + 1;
      i := i + 1;
    }
    if i < |accepts| {
      // the first Accept failure: offer it and leave the loop
      errc.SendError(accepts[i].cause);
      assert errc.slot == DeliverAll(slot0, Offers(steps)) by {
        assert steps[i] == Stopped(accepts[i].cause);
        OffersAt(steps, i);
        DeliverAllAppend(slot0, Offers(steps[..i]), [accepts[i].cause]);
        assert [accepts[i].cause][1..] == [];
      }
    } else {
      assert steps[..i] == steps;
    }
  }

  /** ForwardToListener: share the port, run the accept loop, then wait for
      the first delivered error or the context. */
  method ForwardToListener(fwd: PortForwarder, started: Sharing, ctxErr: Option<Error>,
                           accepts: seq<Accept>, preferDelivered: bool)
    returns (w: Wait, handled: nat)
    ensures w == AwaitError(ctxErr, DeliverAll(None, Offers(Steps(ctxErr, accepts))), preferDelivered)
    ensures handled == HandledCount(Steps(ctxErr, accepts))
  {
    var (id, err) := ShareRemotePort(fwd, started);
    if err.Some? {
      // `return err` is never taken: shareRemotePort reports nil
      assert false;
    }
    var errc := new Mailbox();
    handled := AcceptLoop(ctxErr, accepts, errc);
    w := AwaitError(ctxErr, errc.slot, preferDelivered);
  }

  /** Forward: share the port, handle the one connection, and wait for its
      error or the context. The handler delivers at most one error, and
      only a non-nil one; `delivered` is what the mailbox holds when the
      wait starts. */
  method Forward(fwd: PortForwarder, started: Sharing, ctxErr: Option<Error>, open: OpenOutcome,
                 conn: Closer, preferDelivered: bool)
    returns (w: Wait, delivered: Option<Error>, channel: Closer?)
    modifies conn
    ensures delivered == Sent(HandlerRun(open, ctxErr, conn.script))
    ensures w == AwaitError(ctxErr, delivered, preferDelivered)
    ensures conn.closes == old(conn.closes) + (if HandlerRun(open, ctxErr, conn.script).Returns? then 1 else 0)
    ensures open.OpenFails? ==> channel == null
    ensures open.Opens? ==> channel != null && fresh(channel) &&
                            channel.closes == (if ctxErr.Some? then 1 else 0)
  {
    var (id, err) := ShareRemotePort(fwd, started);
    if err.Some? {
      // `conn.Close(); return err` is never taken: shareRemotePort reports nil
      assert false;
    }
    var errc := new Mailbox();
    var log := new CloseLog();
    var run;
    run, channel := HandleConnection(ctxErr, open, conn, log);
    if run.Returns? && run.err.Some? {
      errc.Send(run.err.value);
    }
    delivered := errc.slot;
    w := AwaitError(ctxErr, errc.slot, preferDelivered);
  }

  /** What Forward returns: ctx.Err() once the channel is open (and it
      blocks until the context is done); the wrapped open error when the
      channel fails to open, unless the select picks an already-done
      context instead. */
  lemma ForwardOutcome(ctxErr: Option<Error>, open: OpenOutcome, connClose: Option<Error>, preferDelivered: bool)
    ensures var w := AwaitError(ctxErr, Sent(HandlerRun(open, ctxErr, connClose)), preferDelivered);
            (open.Opens? ==> w == if ctxErr.Some? then Returns(ctxErr) else Blocked) &&
            (open.OpenFails? ==> w.Returns? && (w.err == Some(OpeningChannel(open.cause)) || w.err == ctxErr)) &&
            (open.OpenFails? && ctxErr.None? ==> w == Returns(Some(OpeningChannel(open.cause))))
  {
    match open
    case Opens(closeResult) =>
      OpenedHandlerReturnsContextError(closeResult, ctxErr, connClose);
    case OpenFails(cause) =>
      FailedOpenReturnsOpenError(cause, ctxErr, connClose);
  }
}
