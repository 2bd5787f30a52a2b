/** Go's `error` values as the port forwarder sees them.
    A nil error is `None`; a non-nil one is `Some(e)`. Errors built with
    fmt.Errorf are tagged values that keep their cause and arguments
    instead of the formatted text. */
module Errors {

  datatype Option<+T> = None | Some(value: T)

  datatype Error =
    | EOF                                   // io.EOF
    | Canceled                              // context.Canceled
    | DeadlineExceeded                      // context.DeadlineExceeded
    | Failure(code: nat)                    // any other error of a collaborator
    | OpeningChannel(cause: Error)          // "error opening streaming channel for new connection"
    | SharingPort(port: int, cause: Error)  // "failed to share remote port"

  /** The outcome of a call that may block for good: still blocked, or
      returned an error value. */
  datatype Wait = Blocked | Returns(err: Option<Error>)

  /** The first non-nil error of a list of outcomes, or nil when all are nil. */
  function FirstNonNil(outcomes: seq<Option<Error>>): Option<Error>
  {
    if outcomes == [] then None
    else if outcomes[0].Some? then outcomes[0]
    else FirstNonNil(outcomes[1..])
  }

  /** FirstNonNil is nil exactly when every outcome is, and otherwise it is
      an outcome that only nil outcomes precede. */
  lemma {:induction false} FirstNonNilIsFirst(outcomes: seq<Option<Error>>)
    ensures FirstNonNil(outcomes).None? <==> forall k :: 0 <= k < |outcomes| ==> outcomes[k].None?
    ensures FirstNonNil(outcomes).Some? ==>
              exists k :: 0 <= k < |outcomes| && outcomes[k] == FirstNonNil(outcomes) &&
                          forall j :: 0 <= j < k ==> outcomes[j].None?
    decreases |outcomes|
  {
    if outcomes != [] && outcomes[0].None? {
      var rest := outcomes[1..];
      FirstNonNilIsFirst(rest);
      assert forall k :: 1 <= k < |outcomes| ==> outcomes[k] == rest[k - 1];
      if FirstNonNil(rest).Some? {
        var k :| 0 <= k < |rest| && rest[k] == FirstNonNil(rest) && forall j :: 0 <= j < k ==> rest[j].None?;
        assert outcomes[k + 1] == FirstNonNil(outcomes);
      }
    }
  }

  /** A nil error contributes nothing to a list of errors sent somewhere. */
  function NonNil(e: Option<Error>): (s: seq<Error>)
    ensures |s| <= 1
    ensures s == [] <==> e.None?
    ensures e.Some? ==> s[0] == e.value
  {
    if e.Some? then [e.value] else []
  }
}
