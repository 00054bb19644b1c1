/** What `getLunches` hands to its callback. The HTTPS request itself is not
    modelled: its outcome is a parameter. */
module Fetch {
  import opened Locale
  import opened Lunches

  /** How the single request for today's menu ends: a parsed body, or a
      transport-level error (DNS, TLS, refused connection, ...). */
  datatype Outcome = Body(items: seq<MenuItem>) | TransportError

  /** The text passed to the callback for an outcome. */
  function Reply(outcome: Outcome, t: Lookup): string
  {
    match outcome
    case Body(items) => Spoken(items, t)
    case TransportError => t(Sorry) + " " + t(CanteenClosedToday)
  }

  /** A transport error is spoken exactly like a menu without a main dish,
      the empty menu included: the listener cannot tell the two apart. */
  lemma TransportErrorReadsAsClosed(items: seq<MenuItem>, t: Lookup)
    requires forall i :: 0 <= i < |items| ==> !IsMainDish(items[i])
    ensures Reply(TransportError, t) == Reply(Body(items), t)
    ensures Reply(TransportError, t) == Reply(Body([]), t)
  {
    NoMainDishIffEmpty(items);
    NoMainDishIffEmpty([]);
  }
}
