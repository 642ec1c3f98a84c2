/** The pure parts of the wrapped `options.report`: the subscription filter,
    the envelope it builds, and what reaches the user's original callback. */
module Dispatcher {
  import opened Scopes

  /** The timestamp the wrapper attaches. How the host clock and locale render
      it is not modelled: it is an opaque token read at dispatch time. */
  type Stamp = string

  /** A payload value as the wrapper receives it. `Undefined` is what the
      wrapper's `data` parameter holds when the caller passed no payload. */
  datatype Datum<P> =
    | Undefined
    | Value(v: P)
    | ErrorRecord(event: P, source: P, lineno: P, colno: P, error: P)
    | Notice(message: string)

  /** The object `{data, context, timestamp}` handed to the user's callback. */
  datatype Envelope<P> = Envelope(data: Datum<P>, context: Scope, timestamp: Stamp)

  /** One call of the user's original callback: `_report(scope, envelope)`. */
  datatype Delivery<P> = Delivery(scope: Scope, envelope: Envelope<P>)

  /** The subscription filter `options.scope.includes(scope)`: a scan of the list. */
  function Includes(scopes: seq<Scope>, scope: Scope): (r: bool)
    ensures r <==> scope in scopes
  {
    if scopes == [] then false
    else scopes[0] == scope || Includes(scopes[1..], scope)
  }

  /** The wrapper declares a single payload parameter, so of the arguments a
      caller spreads into it only the first is bound; none binds `Undefined`. */
  function FirstArgument<P>(args: seq<Datum<P>>): Datum<P> {
    if args == [] then Undefined else args[0]
  }

  /** The envelope built for an accepted call. */
  function BuildEnvelope<P>(scope: Scope, args: seq<Datum<P>>, now: Stamp): Envelope<P> {
    Envelope(FirstArgument(args), scope, now)
  }

  /** What one call of the wrapped `options.report(scope, ...args)` hands to the
      original callback: nothing when the scope is not subscribed, otherwise
      exactly one call whose first argument is that same scope. */
  function Deliver<P>(scopes: seq<Scope>, scope: Scope, args: seq<Datum<P>>, now: Stamp): (r: seq<Delivery<P>>)
    ensures |r| <= 1
    ensures r == [] <==> scope !in scopes
    ensures forall d :: d in r ==> d.scope == scope && d.envelope.context == scope
    ensures forall d :: d in r ==> d.envelope.timestamp == now
    ensures forall d :: d in r ==> d.envelope.data == (if args == [] then Undefined else args[0])
  {
    if Includes(scopes, scope) then [Delivery(scope, BuildEnvelope(scope, args, now))] else []
  }
}
