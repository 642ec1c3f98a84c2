/** The interceptors `defineReporter` installs, as a function from a trace of
    host events to the effects they produce: invocations of the original
    console members and deliveries to the user's original callback. */
module Interceptors {
  import opened Scopes
  import opened Dispatcher

  /** The fixed payload of the connectivity-restored handler. */
  const OnlineMessage: string := "Device is online again."

  /** The console members the patched console overrides; all others are
      copied from the original console by the object spread. */
  const WrappedMembers: seq<string> := ["log", "info", "debug", "warn", "error"]

  /** How an axios interceptor is entered: on the fulfilled or the rejected path. */
  datatype Settled<P> = Fulfilled(value: P) | Rejected(reason: P)

  /** A host event that reaches code installed by `defineReporter`. */
  datatype Event<P> =
    | Report(scope: Scope, payload: seq<Datum<P>>)                // a direct call of the wrapped `options.report`
    | ConsoleCall(member: string, args: seq<P>)                    // `console.<member>(...args)` on the patched console
    | WindowError(event: P, source: P, lineno: P, colno: P, error: P) // `window.onerror(...)`
    | WindowOnline                                                 // `window.ononline()`
    | AxiosRequest(outcome: Settled<P>)                            // the registered request interceptor pair
    | AxiosResponse(outcome: Settled<P>)                           // the registered response interceptor pair

  /** An event together with the clock reading at the moment it is handled. */
  datatype Tick<P> = Tick(event: Event<P>, now: Stamp)

  /** A call of a member of the ORIGINAL console, with its arguments. */
  datatype Invocation<P> = Invocation(member: string, args: seq<P>)

  /** The observable effects, in the order they happen. */
  datatype Effect<P> = Invoked(invocation: Invocation<P>) | Delivered(delivery: Delivery<P>)

  /** A call of the wrapped `options.report` made by an interceptor. */
  datatype Call<P> = Call(scope: Scope, args: seq<Datum<P>>)

  /** The scope a console member dispatches under, if the patched console overrides it. */
  function WrappedScope(member: string): Option<Scope> {
    if member == "log" then Some(Log)
    else if member == "info" then Some(Info)
    else if member == "debug" then Some(Debug)
    else if member == "warn" then Some(Warn)
    else if member == "error" then Some(Error)
    else None
  }

  /** Each console wrapper dispatches under the scope of the same name, and
      exactly the five wrapped members dispatch at all. */
  lemma WrappedScopeMatchesName(member: string)
    ensures WrappedScope(member).Some? <==> member in WrappedMembers
    ensures WrappedScope(member).Some? ==> Name(WrappedScope(member).value) == member
  {
  }

  /** Console arguments as the payload values they become. */
  function Values<P>(args: seq<P>): (r: seq<Datum<P>>)
    ensures |r| == |args|
    ensures forall i :: 0 <= i < |args| ==> r[i] == Value(args[i])
  {
    seq(|args|, i requires 0 <= i < |args| => Value(args[i]))
  }

  /** The call of the wrapped `options.report` an event makes, if any. */
  function DispatchOf<P>(e: Event<P>): Option<Call<P>> {
    match e
    case Report(scope, args) => Some(Call(scope, args))
    case ConsoleCall(member, args) =>
      (match WrappedScope(member)
       case Some(scope) => Some(Call(scope, Values(args)))
       case None => None)
    case WindowError(event, source, lineno, colno, error) =>
      Some(Call(Exception, [ErrorRecord(event, source, lineno, colno, error)]))
    case WindowOnline => Some(Call(OnOnline, [Notice(OnlineMessage)]))
    case AxiosRequest(Fulfilled(value)) => Some(Call(OnSuccessfulRequest, [Value(value)]))
    case AxiosRequest(Rejected(error)) => Some(Call(OnUnsuccessfulRequest, [Value(error)]))
    case AxiosResponse(Fulfilled(value)) => Some(Call(OnSuccessfulResponse, [Value(value)]))
    case AxiosResponse(Rejected(error)) => Some(Call(OnUnsuccessfulResponse, [Value(error)]))
  }

  /** The original console member an event invokes: every console call, wrapped
      or copied, runs the original member of the same name with the same arguments. */
  function InvocationsOf<P>(e: Event<P>): seq<Invocation<P>> {
    if e.ConsoleCall? then [Invocation(e.member, e.args)] else []
  }

  /** The effects of one event: first the original console member, then the dispatch. */
  function StepEffects<P>(scopes: seq<Scope>, t: Tick<P>): seq<Effect<P>> {
    var printed := if t.event.ConsoleCall? then [Invoked(Invocation(t.event.member, t.event.args))] else [];
    var delivered :=
      match DispatchOf(t.event)
      case None => []
      case Some(c) =>
        var ds := Deliver(scopes, c.scope, c.args, t.now);
        if ds == [] then [] else [Delivered(ds[0])];
    printed + delivered
  }

  /** The effects of a whole trace of events, in order. */
  function Run<P>(scopes: seq<Scope>, ticks: seq<Tick<P>>): seq<Effect<P>> {
    if ticks == [] then []
    else Run(scopes, ticks[..|ticks| - 1]) + StepEffects(scopes, ticks[|ticks| - 1])
  }

  /** The console log: the invocations of original console members among the effects. */
  function Output<P>(effects: seq<Effect<P>>): seq<Invocation<P>> {
    if effects == [] then []
    else (if effects[0].Invoked? then [effects[0].invocation] else []) + Output(effects[1..])
  }

  /** The report log: the calls of the user's original callback among the effects. */
  function Reports<P>(effects: seq<Effect<P>>): seq<Delivery<P>> {
    if effects == [] then []
    else (if effects[0].Delivered? then [effects[0].delivery] else []) + Reports(effects[1..])
  }

  /** What the unpatched console would have been asked to do for the same events. */
  function UnpatchedOutput<P>(ticks: seq<Tick<P>>): seq<Invocation<P>> {
    if ticks == [] then []
    else UnpatchedOutput(ticks[..|ticks| - 1]) + InvocationsOf(ticks[|ticks| - 1].event)
  }

  /** Whether an event's dispatch passes the subscription filter. */
  predicate Accepted<P>(scopes: seq<Scope>, e: Event<P>) {
    DispatchOf(e).Some? && DispatchOf(e).value.scope in scopes
  }

  /** How many events of a trace pass the subscription filter. */
  function AcceptedCount<P>(scopes: seq<Scope>, ticks: seq<Tick<P>>): nat {
    if ticks == [] then 0
    else AcceptedCount(scopes, ticks[..|ticks| - 1]) + (if Accepted(scopes, ticks[|ticks| - 1].event) then 1 else 0)
  }

  /** The deliveries the callback should receive over a trace, stated
      independently of the effects: for each event whose dispatch passes the
      filter, in order, one call carrying the dispatch scope, an envelope with
      that scope as context, the event's first payload argument (or
      `Undefined`) and its clock reading. */
  function ExpectedReports<P>(scopes: seq<Scope>, ticks: seq<Tick<P>>): seq<Delivery<P>> {
    if ticks == [] then []
    else
      var last := ticks[|ticks| - 1];
      ExpectedReports(scopes, ticks[..|ticks| - 1]) +
        if Accepted(scopes, last.event)
        then
          var c := DispatchOf(last.event).value;
          [Delivery(c.scope, Envelope(if c.args == [] then Undefined else c.args[0], c.scope, last.now))]
        else []
  }

  // ---------------------------------------------------------------- projections

  lemma {:induction false} OutputAppend<P>(a: seq<Effect<P>>, b: seq<Effect<P>>)
    ensures Output(a + b) == Output(a) + Output(b)
  {
    if a == [] {
      assert a + b == b;
    } else {
      assert (a + b)[0] == a[0];
      assert (a + b)[1..] == a[1..] + b;
      OutputAppend(a[1..], b);
    }
  }

  lemma {:induction false} ReportsAppend<P>(a: seq<Effect<P>>, b: seq<Effect<P>>)
    ensures Reports(a + b) == Reports(a) + Reports(b)
  {
    if a == [] {
      assert a + b == b;
    } else {
      assert (a + b)[0] == a[0];
      assert (a + b)[1..] == a[1..] + b;
      ReportsAppend(a[1..], b);
    }
  }

  // ---------------------------------------------------------------- one event

  /** One event: the console log grows by the original member's invocation (or
      not at all), and the report log by at most one delivery, which happens
      exactly when the event dispatches under a subscribed scope and then
      carries that scope, the first payload argument and the clock reading. */
  lemma StepLogs<P>(scopes: seq<Scope>, t: Tick<P>)
    ensures Output(StepEffects(scopes, t)) == InvocationsOf(t.event)
    ensures Reports(StepEffects(scopes, t)) ==
      if Accepted(scopes, t.event)
      then [Delivery(DispatchOf(t.event).value.scope,
                     Envelope(FirstArgument(DispatchOf(t.event).value.args), DispatchOf(t.event).value.scope, t.now))]
      else []
  {
    var printed := if t.event.ConsoleCall? then [Invoked(Invocation(t.event.member, t.event.args))] else [];
    var delivered := StepEffects(scopes, t)[|printed|..];
    assert StepEffects(scopes, t) == printed + delivered;
    OutputAppend(printed, delivered);
    ReportsAppend(printed, delivered);
  }

  /** A console call first invokes the original member of the same name with
      exactly the same arguments; any delivery comes after it. */
  lemma ConsoleInvokesOriginalFirst<P>(scopes: seq<Scope>, member: string, args: seq<P>, now: Stamp)
    ensures var effects := StepEffects(scopes, Tick(ConsoleCall(member, args), now));
      |effects| >= 1 && effects[0] == Invoked(Invocation(member, args)) &&
      forall i :: 1 <= i < |effects| ==> effects[i].Delivered?
  {
  }

  /** A wrapped console call delivers only its first argument (or `Undefined`
      when called without arguments); the remaining arguments are printed but
      never delivered. Members other than the five wrapped ones never deliver. */
  lemma ConsoleDeliversFirstArgumentOnly<P>(scopes: seq<Scope>, member: string, args: seq<P>, now: Stamp)
    ensures var delivered := Reports(StepEffects(scopes, Tick(ConsoleCall(member, args), now)));
      if member in WrappedMembers && Parse(member).value in scopes
      then delivered == [Delivery(Parse(member).value,
                                  Envelope(if args == [] then Undefined else Value(args[0]), Parse(member).value, now))]
      else delivered == []
  {
    StepLogs(scopes, Tick(ConsoleCall(member, args), now));
    WrappedScopeMatchesName(member);
    if member in WrappedMembers {
      ParseName(WrappedScope(member).value);
    }
  }

  /** The uncaught-error handler delivers, under "exception", one record holding
      exactly its five arguments. */
  lemma WindowErrorDeliversRecord<P>(scopes: seq<Scope>, event: P, source: P, lineno: P, colno: P, error: P, now: Stamp)
    ensures Reports(StepEffects(scopes, Tick(WindowError(event, source, lineno, colno, error), now))) ==
      if Exception in scopes
      then [Delivery(Exception, Envelope(ErrorRecord(event, source, lineno, colno, error), Exception, now))]
      else []
    ensures Output(StepEffects(scopes, Tick(WindowError(event, source, lineno, colno, error), now))) == []
  {
    StepLogs(scopes, Tick(WindowError(event, source, lineno, colno, error), now));
  }

  /** The connectivity handler delivers, under "onOnline", the fixed message. */
  lemma WindowOnlineDeliversMessage<P>(scopes: seq<Scope>, now: Stamp)
    ensures Reports(StepEffects(scopes, Tick(Event<P>.WindowOnline, now))) ==
      if OnOnline in scopes
      then [Delivery(OnOnline, Envelope(Notice("Device is online again."), OnOnline, now))]
      else []
    ensures Output(StepEffects(scopes, Tick(Event<P>.WindowOnline, now))) == []
  {
    StepLogs(scopes, Tick(Event<P>.WindowOnline, now));
  }

  /** The axios handlers dispatch the value or error they were given under the
      scope of their pipeline and outcome. */
  lemma AxiosDeliversInput<P>(scopes: seq<Scope>, response: bool, outcome: Settled<P>, now: Stamp)
    ensures var scope :=
        if !response then (if outcome.Fulfilled? then OnSuccessfulRequest else OnUnsuccessfulRequest)
        else (if outcome.Fulfilled? then OnSuccessfulResponse else OnUnsuccessfulResponse);
      var input := if outcome.Fulfilled? then outcome.value else outcome.reason;
      Reports(StepEffects(scopes, Tick(if response then AxiosResponse(outcome) else AxiosRequest(outcome), now))) ==
        if scope in scopes then [Delivery(scope, Envelope(Value(input), scope, now))] else []
  {
    StepLogs(scopes, Tick(if response then AxiosResponse(outcome) else AxiosRequest(outcome), now));
  }

  // ---------------------------------------------------------------- whole traces

  lemma RunSnoc<P>(scopes: seq<Scope>, ticks: seq<Tick<P>>, t: Tick<P>)
    ensures Run(scopes, ticks + [t]) == Run(scopes, ticks) + StepEffects(scopes, t)
  {
    assert (ticks + [t])[..|ticks|] == ticks;
  }

  /** Extending a trace by one event extends both logs by that event's share. */
  lemma LogsSnoc<P>(scopes: seq<Scope>, ticks: seq<Tick<P>>, t: Tick<P>)
    ensures Output(Run(scopes, ticks + [t])) == Output(Run(scopes, ticks)) + InvocationsOf(t.event)
    ensures Reports(Run(scopes, ticks + [t])) == Reports(Run(scopes, ticks)) + Reports(StepEffects(scopes, t))
  {
    RunSnoc(scopes, ticks, t);
    OutputAppend(Run(scopes, ticks), StepEffects(scopes, t));
    ReportsAppend(Run(scopes, ticks), StepEffects(scopes, t));
    StepLogs(scopes, t);
  }

  /** The console log is what the unpatched console would have been asked to
      do for the same events, whatever the subscription list. */
  lemma {:induction false} OutputIsUnpatched<P>(scopes: seq<Scope>, ticks: seq<Tick<P>>)
    ensures Output(Run(scopes, ticks)) == UnpatchedOutput(ticks)
    decreases |ticks|
  {
    if ticks != [] {
      var init, last := ticks[..|ticks| - 1], ticks[|ticks| - 1];
      assert ticks == init + [last];
      OutputIsUnpatched(scopes, init);
      LogsSnoc(scopes, init, last);
    }
  }

  /** Corollary: subscribing to more or fewer scopes never changes the console log. */
  lemma OutputIndependentOfScopes<P>(scopes1: seq<Scope>, scopes2: seq<Scope>, ticks: seq<Tick<P>>)
    ensures Output(Run(scopes1, ticks)) == Output(Run(scopes2, ticks))
  {
    OutputIsUnpatched(scopes1, ticks);
    OutputIsUnpatched(scopes2, ticks);
  }

  /** Every delivery is under a subscribed scope, and its envelope's context is
      the scope it was delivered under. */
  lemma {:induction false} ReportsSubscribed<P>(scopes: seq<Scope>, ticks: seq<Tick<P>>)
    ensures forall d :: d in Reports(Run(scopes, ticks)) ==> d.scope in scopes && d.envelope.context == d.scope
    decreases |ticks|
  {
    if ticks != [] {
      var init, last := ticks[..|ticks| - 1], ticks[|ticks| - 1];
      assert ticks == init + [last];
      ReportsSubscribed(scopes, init);
      LogsSnoc(scopes, init, last);
      StepLogs(scopes, last);
    }
  }

  /** Over any trace the callback receives exactly the expected deliveries:
      one per accepted event, in order, each carrying its event's first payload
      argument and clock reading. */
  lemma {:induction false} ReportsAreExpected<P>(scopes: seq<Scope>, ticks: seq<Tick<P>>)
    ensures Reports(Run(scopes, ticks)) == ExpectedReports(scopes, ticks)
    decreases |ticks|
  {
    if ticks != [] {
      var init, last := ticks[..|ticks| - 1], ticks[|ticks| - 1];
      assert ticks == init + [last];
      ReportsAreExpected(scopes, init);
      LogsSnoc(scopes, init, last);
      StepLogs(scopes, last);
    }
  }

  /** With an empty subscription list nothing is ever delivered. */
  lemma {:induction false} NothingDeliveredWithoutScopes<P>(ticks: seq<Tick<P>>)
    ensures Reports(Run([], ticks)) == []
    decreases |ticks|
  {
    if ticks != [] {
      var init, last := ticks[..|ticks| - 1], ticks[|ticks| - 1];
      assert ticks == init + [last];
      NothingDeliveredWithoutScopes(init);
      LogsSnoc([], init, last);
      StepLogs([], last);
    }
  }

  /** Each event that passes the filter is delivered exactly once and every
      other event not at all: the callback is called once per accepted event. */
  lemma {:induction false} OneDeliveryPerAcceptedEvent<P>(scopes: seq<Scope>, ticks: seq<Tick<P>>)
    ensures |Reports(Run(scopes, ticks))| == AcceptedCount(scopes, ticks) <= |ticks|
    decreases |ticks|
  {
    if ticks != [] {
      var init, last := ticks[..|ticks| - 1], ticks[|ticks| - 1];
      assert ticks == init + [last];
      OneDeliveryPerAcceptedEvent(scopes, init);
      LogsSnoc(scopes, init, last);
      StepLogs(scopes, last);
    }
  }

  /** The logs of a three-event trace are the three events' shares, in order. */
  lemma LogsOfThree<P>(scopes: seq<Scope>, a: Tick<P>, b: Tick<P>, c: Tick<P>)
    ensures Output(Run(scopes, [a, b, c])) == InvocationsOf(a.event) + InvocationsOf(b.event) + InvocationsOf(c.event)
    ensures Reports(Run(scopes, [a, b, c])) ==
      Reports(StepEffects(scopes, a)) + Reports(StepEffects(scopes, b)) + Reports(StepEffects(scopes, c))
  {
    var none: seq<Tick<P>> := [];
    var one := none + [a];
    var two := one + [b];
    var three := two + [c];
    assert three == [a, b, c];
    LogsSnoc(scopes, none, a);
    LogsSnoc(scopes, one, b);
    LogsSnoc(scopes, two, c);
  }

  /** Subscribed to "error" and "exception", a warning, an error log and an
      uncaught error produce exactly two deliveries: "error", then "exception". */
  lemma ErrorAndExceptionScenario<P>(warning: P, failure: P, event: P, source: P, lineno: P, colno: P, error: P,
                                     t1: Stamp, t2: Stamp, t3: Stamp)
    ensures var ticks := [Tick(ConsoleCall("warn", [warning]), t1), Tick(ConsoleCall("error", [failure]), t2),
                          Tick(WindowError(event, source, lineno, colno, error), t3)];
      Reports(Run([Error, Exception], ticks)) ==
        [Delivery(Error, Envelope(Value(failure), Error, t2)),
         Delivery(Exception, Envelope(ErrorRecord(event, source, lineno, colno, error), Exception, t3))]
      && Output(Run([Error, Exception], ticks)) == [Invocation("warn", [warning]), Invocation("error", [failure])]
  {
    var scopes := [Error, Exception];
    var a, b, c := Tick(ConsoleCall("warn", [warning]), t1), Tick(ConsoleCall("error", [failure]), t2),
                   Tick(WindowError(event, source, lineno, colno, error), t3);
    LogsOfThree(scopes, a, b, c);
    ConsoleDeliversFirstArgumentOnly(scopes, "warn", [warning], t1);
    ConsoleDeliversFirstArgumentOnly(scopes, "error", [failure], t2);
    WindowErrorDeliversRecord(scopes, event, source, lineno, colno, error, t3);
  }
}
