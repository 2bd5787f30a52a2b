# Port forwarder: error and close bookkeeping

This project models the port forwarder of a Live Share client
(`port_forwarder.go`). A `PortForwarder` shares one remote port of a session.
It then relays traffic between that port and local streams, either every
connection a listener accepts (`ForwardToListener`) or one supplied stream
(`Forward`). The model covers the sequential bookkeeping around the
goroutines:

- which streams are closed, how often and in what order, by the deferred
  calls of `handleConnection` and by `safeClose`;
- which error a handler returns when several of its steps report one;
- the one-slot error channel, whose non-blocking `sendError` keeps the first
  error and drops the rest;
- the accept loop, as a loop over a scripted sequence of `Accept` results;
- `shareRemotePort`, `awaitError` and the two entry points.

Go's `error` is `Option<Error>`, where `None` is nil. Errors built with
`fmt.Errorf` are tagged values that keep their cause (`OpeningChannel`,
`SharingPort`). Streams are `Closer` objects. Each returns a scripted result
from `Close`, counts its calls and appends itself to a `CloseLog`. The
named result `err` that the deferred closures write through a pointer is an
`ErrorSlot` object.

The collaborators are inputs to the model:

- the session's `startSharing` result is a `Sharing` value;
- each connection's `openStreamingChannel` result is an `OpenOutcome`;
- the listener is the sequence of its `Accept` results;
- the context is the value `ctx.Err()` yields, where nil means `ctx.Done()`
  is not closed;
- the runtime's choice between two ready `select` arms is a boolean.

The model proves these properties:

- `safeClose` closes exactly once and never replaces an earlier error.
- The channel close never records `io.EOF`.
- A handler, once it returns, has closed its channel before its connection,
  each exactly once; a handler still blocked on the context has closed neither.
- A handler returns the first non-nil of its candidate results, which is
  `ctx.Err()` once its channel is open.
- The mailbox holds the first error ever sent to it.
- The accept loop spawns exactly one handler per successful `Accept` before
  the first failure, offers that failure, and stops.
- A `ForwardToListener` call returns one error, and only one it genuinely
  produced: `ctx.Err()`, a handler's result, or the `Accept` failure.

The code of `shareRemotePort` departs from its evident intent, which is
inferred from the wrapping at line 93 and from the callers' checks at lines
39-41 and 75-78. That intent is to propagate a wrapped sharing error: `Forward` would then close
the stream and return that error, and no channel would be opened. The code
builds the wrapped error at line 93 but returns nil at line 95. The model
follows the code. `ShareRemotePort` always reports a nil error, so the
early-return branches of both entry points are unreachable, which the
model's proofs of `ForwardToListener` and `Forward` establish.

## Model

| member | source | states |
|---|---|---|
| Errors.FirstNonNilIsFirst | port_forwarder.go:109-142 | the composition rule of the deferred calls: the winning error is nil exactly when every candidate is nil; otherwise it is a candidate preceded only by nil ones |
| Errors.NonNil | port_forwarder.go:61-63 | only a non-nil error is handed on, as a list of at most one element |
| Closing.Closer.Close | port_forwarder.go:137-138 | Close returns the stream's scripted result, counts one more call and is logged in call order |
| Closing.SafeCloseResult | port_forwarder.go:137-142 | an earlier error is never replaced; with none, the close result is reported |
| Closing.SuppressEOF | port_forwarder.go:118-123 | io.EOF from the channel close becomes nil; any other close result is kept |
| Closing.ChannelCloseResult | port_forwarder.go:118-123 | the channel-close defer never records io.EOF; an error that is already set is kept; otherwise any close result other than io.EOF is recorded |
| Closing.SafeClose | port_forwarder.go:137-142 | closes the stream exactly once, logs it, and leaves the slot as SafeCloseResult of its old content |
| Handler.HandlerOutcomes | port_forwarder.go:107-133 | the candidate results in the order the defers let them claim `err`: the open error, or ctx.Err() and then the channel close; the local close comes last |
| Handler.HandleResult | port_forwarder.go:107-133 | a failed open returns the wrapped open error; once the channel is open, a non-nil ctx.Err() is returned; a close result can win only over a nil ctx.Err(); io.EOF surfaces only from the local close or the context |
| Handler.HandleResultIsFirstOutcome | port_forwarder.go:107-142 | the handler's result is the first non-nil of its candidate results |
| Handler.HandlerRun | port_forwarder.go:107-133 | a handler blocks exactly when its channel opened and the context is not done; otherwise it returns HandleResult |
| Handler.OpenedHandlerReturnsContextError | port_forwarder.go:118-132 | with an open channel, the handler returns ctx.Err() whatever both closes report, or blocks while the context is not done |
| Handler.FailedOpenReturnsOpenError | port_forwarder.go:109-114 | a failed open returns the wrapped open error at once, whatever the context and the local close report |
| Handler.Sent | port_forwarder.go:60-64 | a handler goroutine hands over an error exactly when its handler returned a non-nil one |
| Handler.HandleConnection | port_forwarder.go:107-142 | returns HandlerRun; a failed open closes only the local stream, once; an opened channel is closed before the local stream, each once; a blocked handler closes nothing |
| Handler.CloseErrorsWithoutContextError | port_forwarder.go:118-123 | were ctx.Err() nil on return, a channel-close error other than io.EOF would win over the local close result, and io.EOF would give way to it |
| ErrorMailbox.Mailbox.SendError | port_forwarder.go:44-51 | a non-blocking send that always completes: the slot ends up holding Offer of its old content |
| ErrorMailbox.Mailbox.Send | port_forwarder.go:81-85 | a send into the empty buffered channel leaves exactly that error in the slot |
| ErrorMailbox.Offer | port_forwarder.go:47-50 | after a send the slot is full; a full slot keeps its error; an empty one takes the new error |
| ErrorMailbox.DeliverAllKeepsFirst | port_forwarder.go:43-51 | after any sequence of sends, the slot holds its earlier error, or the first error sent, or stays empty if nothing was sent |
| ErrorMailbox.DeliverAllAppend | port_forwarder.go:43-51 | sending two sequences one after the other has the same effect as sending their concatenation |
| PortForwarding.NewPortForwarder | port_forwarder.go:21-27 | the forwarder keeps the session, the name and the remote port it was given |
| PortForwarding.ShareRemotePort | port_forwarder.go:90-96 | returns the identifier startSharing gave and a nil error, even when sharing failed |
| PortForwarding.AwaitError | port_forwarder.go:98-105 | returns exactly when an error was delivered or the context is done, and then only the delivered error or ctx.Err(); with only one arm ready, that arm wins |
| PortForwarding.AwaitErrorEitherArm | port_forwarder.go:98-105 | when both arms are ready, either may win |
| PortForwarding.StepOf | port_forwarder.go:53-64 | an Accept failure ends the loop with its error; an accepted connection spawns a handler that hands over what Sent says |
| PortForwarding.Steps | port_forwarder.go:53-65 | one iteration per Accept result, in order |
| PortForwarding.HandledCount | port_forwarder.go:53-64 | the handlers spawned are exactly the Accept results before the first failure |
| PortForwarding.OffersAt | port_forwarder.go:53-65 | the errors offered grow by one iteration at a time and stop growing at the first Accept failure |
| PortForwarding.OffersAreGenuine | port_forwarder.go:53-65 | every error offered is a spawned handler's result or the Accept failure; there is at most one per handler plus the failure, which is offered last |
| PortForwarding.ListenerReturnsOneGenuineError | port_forwarder.go:37-69 | ForwardToListener returns exactly when the context is done or an error was offered, and then returns ctx.Err(), a returned handler's error, or the Accept failure that ended the loop |
| PortForwarding.ServeConnection | port_forwarder.go:60-64 | the handler goroutine runs handleConnection once and offers its non-nil result to sendError; a failed open closes only the connection, once; an opened channel is closed before the connection, each once, once the context is done; a blocked handler closes nothing |
| PortForwarding.AcceptLoop | port_forwarder.go:52-66 | the mailbox receives, in order, the errors of the handlers and the first Accept failure; one handler per Accept result before that failure |
| PortForwarding.ForwardToListener | port_forwarder.go:37-69 | never takes the early return; waits on the mailbox the accept loop filled and spawns HandledCount handlers |
| PortForwarding.Forward | port_forwarder.go:73-88 | never takes the early return; delivers at most one handler error, and only a non-nil one; closes the stream once unless the handler blocks, and then waits for that error or the context |
| PortForwarding.ForwardOutcome | port_forwarder.go:73-88 | with an open channel, Forward returns ctx.Err() or stays blocked while the context is not done; a failed open returns the wrapped open error, unless the select picks a context that is already done |

## Left out

- Goroutine scheduling: each handler goroutine is run to its return, or to the point where it blocks for good, as soon as it is spawned. So the model covers one interleaving. Races between handlers, or between a handler and `awaitError`, are represented only by the order of the sends and by the `select` choice.
- The bidirectional `io.Copy` relay (lines 128-129): it moves bytes and its errors are discarded, so it does not affect any result.
- `Session.startSharing`, `Session.openStreamingChannel`, `net.Listener`, `io.ReadWriteCloser` and `context.Context` are foreign code. They appear only as scripted results.
- Error message text: wrapped errors are tagged values, not formatted strings.
- PortForwarding.ForwardToListener: it does not record how often each accepted connection and its channel are closed. ServeConnection states that for each connection and its channel; AcceptLoop does not collect those facts across the loop.
- ErrorMailbox.Mailbox.Send: it requires an empty slot instead of modelling a blocking send on a full channel; its one caller sends into a fresh channel.
- Forward's postcondition that the stream is closed on return holds in the model only because the handler runs before `awaitError`. In the code, `awaitError` can return on a done context before the handler's deferred close runs.
- The context is fixed for a whole call: `ctxErr` is either non-nil from the start (the context was already done) or nil throughout (it is never done). A cancellation that arrives while handlers are blocked at `<-ctx.Done()`, for example after some bytes were copied, is represented only by a context that was done from the start. For a handler this gives the same result and the same closes.
