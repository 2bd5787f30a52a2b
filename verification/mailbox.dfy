/** The error channel `errc := make(chan error, 1)` of the two entry points
    (port_forwarder.go:43-51, 81-85): a one-slot buffer. sendError puts
    without blocking and drops the error when the slot is taken. */
module ErrorMailbox {
  import opened Errors

  class Mailbox {
    var slot: Option<Error>

    constructor ()
      ensures slot == None
    {
      slot := None;
    }

    /** sendError: `select { case errc <- err: default: }`. */
    method SendError(e: Error)
      modifies this
      ensures slot == Offer(old(slot), e)
    {
      if slot.None? {
        slot := Some(e);
      }
    }

    /** A plain `errc <- err`; it would block on a full slot, which the one
        sender in Forward never meets. */
    method Send(e: Error)
      requires slot.None?
      modifies this
      ensures slot == Some(e)
    {
      slot := Some(e);
    }
  }

  /** The slot after one non-blocking send: a taken slot keeps its error, an
      empty one takes the new error; the send always completes. */
  function Offer(slot: Option<Error>, e: Error): (r: Option<Error>)
    ensures r.Some?
    ensures slot.Some? ==> r == slot
    ensures slot.None? ==> r == Some(e)
  {
    if slot.None? then Some(e) else slot
  }

  /** The slot after a sequence of non-blocking sends, in order. */
  function DeliverAll(slot: Option<Error>, sends: seq<Error>): Option<Error>
    decreases |sends|
  {
    if sends == [] then slot else DeliverAll(Offer(slot, sends[0]), sends[1..])
  }

  /** After any sequence of sends the slot holds the first error it ever
      received: the one it had, or else the first one sent. */
  lemma {:induction false} DeliverAllKeepsFirst(slot: Option<Error>, sends: seq<Error>)
    ensures DeliverAll(slot, sends) ==
              if slot.Some? then slot else if sends == [] then None else Some(sends[0])
    decreases |sends|
  {
    if sends != [] {
      DeliverAllKeepsFirst(Offer(slot, sends[0]), sends[1..]);
    }
  }

  /** Sending one sequence and then another is sending their concatenation. */
  lemma {:induction false} DeliverAllAppend(slot: Option<Error>, first: seq<Error>, later: seq<Error>)
    ensures DeliverAll(slot, first + later) == DeliverAll(DeliverAll(slot, first), later)
    decreases |first|
  {
    if first == [] {
      assert first + later == later;
    } else {
      assert (first + later)[1..] == first[1..] + later;
      DeliverAllAppend(Offer(slot, first[0]), first[1..], later);
    }
  }
}
