/** The host after `defineReporter(options)` has run: the wrapped
    `options.report`, the patched console, the window handlers and the axios
    interceptor pairs, acting on two append-only logs. */
module Host {
  import opened Scopes
  import opened Dispatcher
  import opened Interceptors

  class Reporter<P> {
    // the configuration `defineReporter` closes over
    const scopes: seq<Scope>           // `options.scope`
    const axiosHooked: bool            // whether `options.networkingFrameworks.axios` was present
    const consoleMembers: set<string>  // the members of the patched console: the original's plus the five wrappers

    // what an observer of the host can see
    var output: seq<Invocation<P>>     // calls of the original console's members
    var reports: seq<Delivery<P>>      // calls of the user's original callback `_report`

    // the events handled so far, with their clock readings
    ghost var trace: seq<Tick<P>>

    /** Both logs are what the trace of events produces, no axios interceptor
        ran unless axios was supplied, and every console call was to a member
        the patched console has. */
    ghost predicate Valid()
      reads this
    {
      output == Output(Run(scopes, trace)) &&
      reports == Reports(Run(scopes, trace)) &&
      (!axiosHooked ==> forall i :: 0 <= i < |trace| ==> !trace[i].event.AxiosRequest? && !trace[i].event.AxiosResponse?) &&
      (forall i :: 0 <= i < |trace| && trace[i].event.ConsoleCall? ==> trace[i].event.member in consoleMembers)
    }

    /** `defineReporter(options)`: installs every interceptor; nothing is printed
        or reported yet. The patched console keeps every member of the original
        console and has the five wrappers in place of (or beside) theirs. The
        axios pairs are registered only when axios is given. */
    constructor DefineReporter(scopes: seq<Scope>, axiosPresent: bool, originalMembers: set<string>)
      ensures Valid()
      ensures this.scopes == scopes && axiosHooked == axiosPresent
      ensures consoleMembers == originalMembers + {"log", "info", "debug", "warn", "error"}
      ensures forall m :: m in WrappedMembers ==> m in consoleMembers
      ensures output == [] && reports == [] && trace == []
    {
      this.scopes := scopes;
      axiosHooked := axiosPresent;
      consoleMembers := originalMembers + {"log", "info", "debug", "warn", "error"};
      output, reports := [], [];
      trace := [];
    }

    /** The body of the wrapped `options.report`, shared by every entry point
        below: if the scope is subscribed, build the envelope and call the saved
        original callback once. It is an internal step, not an entry point: it
        records no event, and the entry points re-establish Valid() after it. */
    method Dispatch(scope: Scope, args: seq<Datum<P>>, now: Stamp)
      modifies this`reports
      ensures reports == old(reports) + Deliver(scopes, scope, args, now)
    {
      if Includes(scopes, scope) {
        var envelope := BuildEnvelope(scope, args, now);
        reports := reports + [Delivery(scope, envelope)];
      }
    }

    /** Records one handled event in the trace and re-establishes Valid(). */
    ghost method Record(t: Tick<P>)
      requires output == Output(Run(scopes, trace)) + InvocationsOf(t.event)
      requires reports == Reports(Run(scopes, trace)) + Reports(StepEffects(scopes, t))
      requires !axiosHooked ==> forall i :: 0 <= i < |trace| ==> !trace[i].event.AxiosRequest? && !trace[i].event.AxiosResponse?
      requires !axiosHooked ==> !t.event.AxiosRequest? && !t.event.AxiosResponse?
      requires forall i :: 0 <= i < |trace| && trace[i].event.ConsoleCall? ==> trace[i].event.member in consoleMembers
      requires t.event.ConsoleCall? ==> t.event.member in consoleMembers
      modifies this`trace
      ensures Valid() && trace == old(trace) + [t]
    {
      LogsSnoc(scopes, trace, t);
      trace := trace + [t];
    }

    /** A direct call `options.report(scope, ...payload)` of the wrapped callback. */
    method Report(scope: Scope, payload: seq<Datum<P>>, now: Stamp)
      requires Valid()
      modifies this`reports, this`trace
      ensures Valid() && trace == old(trace) + [Tick(Event.Report(scope, payload), now)]
      ensures output == old(output)
      ensures reports == old(reports) +
        if scope in scopes then [Delivery(scope, Envelope(FirstArgument(payload), scope, now))] else []
    {
      var t := Tick(Event.Report(scope, payload), now);
      StepLogs(scopes, t);
      Dispatch(scope, payload, now);
      Record(t);
    }

    /** `console.<member>(...args)` on the patched console: the original member
        of the same name runs first with the same arguments; the five wrapped
        members then dispatch under the scope of the same name, and every other
        member, copied from the original console, does nothing more. Only
        members the patched console has can be called. */
    method Console(member: string, args: seq<P>, now: Stamp)
      requires Valid() && member in consoleMembers
      modifies this`output, this`reports, this`trace
      ensures Valid() && trace == old(trace) + [Tick(ConsoleCall(member, args), now)]
      ensures output == old(output) + [Invocation(member, args)]
      ensures reports == old(reports) +
        if member in WrappedMembers && Parse(member).value in scopes
        then [Delivery(Parse(member).value, Envelope(if args == [] then Undefined else Value(args[0]), Parse(member).value, now))]
        else []
    {
      var t := Tick(ConsoleCall(member, args), now);
      ConsoleDeliversFirstArgumentOnly(scopes, member, args, now);
      StepLogs(scopes, t);
      output := output + [Invocation(member, args)];
      match WrappedScope(member) {
        case Some(scope) => Dispatch(scope, Values(args), now);
        case None =>
      }
      Record(t);
    }

    /** `window.onerror(event, source, lineno, colno, error)`: one dispatch under
        "exception" of a record holding exactly the five arguments. */
    method OnError(event: P, source: P, lineno: P, colno: P, error: P, now: Stamp)
      requires Valid()
      modifies this`reports, this`trace
      ensures Valid() && trace == old(trace) + [Tick(WindowError(event, source, lineno, colno, error), now)]
      ensures output == old(output)
      ensures reports == old(reports) +
        if Exception in scopes
        then [Delivery(Exception, Envelope(ErrorRecord(event, source, lineno, colno, error), Exception, now))]
        else []
    {
      var t := Tick(WindowError(event, source, lineno, colno, error), now);
      WindowErrorDeliversRecord(scopes, event, source, lineno, colno, error, now);
      StepLogs(scopes, t);
      Dispatch(Exception, [ErrorRecord(event, source, lineno, colno, error)], now);
      Record(t);
    }

    /** `window.ononline()`: one dispatch under "onOnline" of the fixed message. */
    method OnOnline(now: Stamp)
      requires Valid()
      modifies this`reports, this`trace
      ensures Valid() && trace == old(trace) + [Tick(WindowOnline, now)]
      ensures output == old(output)
      ensures reports == old(reports) +
        if Scope.OnOnline in scopes then [Delivery(Scope.OnOnline, Envelope(Notice("Device is online again."), Scope.OnOnline, now))] else []
    {
      var t := Tick(Event<P>.WindowOnline, now);
      WindowOnlineDeliversMessage<P>(scopes, now);
      StepLogs(scopes, t);
      Dispatch(Scope.OnOnline, [Notice(OnlineMessage)], now);
      Record(t);
    }

    /** The request interceptor's fulfilled handler: dispatch, then pass the value on. */
    method RequestFulfilled(value: P, now: Stamp) returns (r: P)
      requires Valid() && axiosHooked
      modifies this`reports, this`trace
      ensures r == value
      ensures Valid() && trace == old(trace) + [Tick(AxiosRequest(Fulfilled(value)), now)]
      ensures output == old(output)
      ensures reports == old(reports) +
        if OnSuccessfulRequest in scopes
        then [Delivery(OnSuccessfulRequest, Envelope(Value(value), OnSuccessfulRequest, now))] else []
    {
      var t := Tick(AxiosRequest(Fulfilled(value)), now);
      AxiosDeliversInput(scopes, false, Fulfilled(value), now);
      StepLogs(scopes, t);
      Dispatch(OnSuccessfulRequest, [Value(value)], now);
      Record(t);
      r := value;
    }

    /** The request interceptor's rejected handler: dispatch, then return the
        error as an ordinary value (it is not rethrown). */
    method RequestRejected(error: P, now: Stamp) returns (r: P)
      requires Valid() && axiosHooked
      modifies this`reports, this`trace
      ensures r == error
      ensures Valid() && trace == old(trace) + [Tick(AxiosRequest(Rejected(error)), now)]
      ensures output == old(output)
      ensures reports == old(reports) +
        if OnUnsuccessfulRequest in scopes
        then [Delivery(OnUnsuccessfulRequest, Envelope(Value(error), OnUnsuccessfulRequest, now))] else []
    {
      var t := Tick(AxiosRequest(Rejected(error)), now);
      AxiosDeliversInput(scopes, false, Rejected(error), now);
      StepLogs(scopes, t);
      Dispatch(OnUnsuccessfulRequest, [Value(error)], now);
      Record(t);
      r := error;
    }

    /** The response interceptor's fulfilled handler: dispatch, then pass the value on. */
    method ResponseFulfilled(value: P, now: Stamp) returns (r: P)
      requires Valid() && axiosHooked
      modifies this`reports, this`trace
      ensures r == value
      ensures Valid() && trace == old(trace) + [Tick(AxiosResponse(Fulfilled(value)), now)]
      ensures output == old(output)
      ensures reports == old(reports) +
        if OnSuccessfulResponse in scopes
        then [Delivery(OnSuccessfulResponse, Envelope(Value(value), OnSuccessfulResponse, now))] else []
    {
      var t := Tick(AxiosResponse(Fulfilled(value)), now);
      AxiosDeliversInput(scopes, true, Fulfilled(value), now);
      StepLogs(scopes, t);
      Dispatch(OnSuccessfulResponse, [Value(value)], now);
      Record(t);
      r := value;
    }

    /** The response interceptor's rejected handler: dispatch, then return the
        error as an ordinary value (it is not rethrown). */
    method ResponseRejected(error: P, now: Stamp) returns (r: P)
      requires Valid() && axiosHooked
      modifies this`reports, this`trace
      ensures r == error
      ensures Valid() && trace == old(trace) + [Tick(AxiosResponse(Rejected(error)), now)]
      ensures output == old(output)
      ensures reports == old(reports) +
        if OnUnsuccessfulResponse in scopes
        then [Delivery(OnUnsuccessfulResponse, Envelope(Value(error), OnUnsuccessfulResponse, now))] else []
    {
      var t := Tick(AxiosResponse(Rejected(error)), now);
      AxiosDeliversInput(scopes, true, Rejected(error), now);
      StepLogs(scopes, t);
      Dispatch(OnUnsuccessfulResponse, [Value(error)], now);
      Record(t);
      r := error;
    }
  }
}
