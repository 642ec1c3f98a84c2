/** The closed set of event categories ("scopes") a reporter can subscribe to,
    and the string names under which the embedding application lists them. */
module Scopes {

  datatype Option<+T> = None | Some(value: T)

  /** The eleven members of the `Scope` union type. */
  datatype Scope =
    | Log | Info | Debug | Warn | Error
    | Exception
    | OnOnline
    | OnSuccessfulRequest | OnUnsuccessfulRequest
    | OnSuccessfulResponse | OnUnsuccessfulResponse

  /** Every scope, once each, in declaration order. */
  const AllScopes: seq<Scope> := [
    Log, Info, Debug, Warn, Error, Exception, OnOnline,
    OnSuccessfulRequest, OnUnsuccessfulRequest, OnSuccessfulResponse, OnUnsuccessfulResponse
  ]

  /** The string literal that stands for a scope in the source's union type. */
  function Name(s: Scope): string {
    match s
    case Log => "log"
    case Info => "info"
    case Debug => "debug"
    case Warn => "warn"
    case Error => "error"
    case Exception => "exception"
    case OnOnline => "onOnline"
    case OnSuccessfulRequest => "onSuccessfulRequest"
    case OnUnsuccessfulRequest => "onUnsuccessfulRequest"
    case OnSuccessfulResponse => "onSuccessfulResponse"
    case OnUnsuccessfulResponse => "onUnsuccessfulResponse"
  }

  /** Reads a scope back from its name; any other string is not a scope. */
  function Parse(name: string): (r: Option<Scope>)
    ensures r.Some? ==> Name(r.value) == name
  {
    if name == "log" then Some(Log)
    else if name == "info" then Some(Info)
    else if name == "debug" then Some(Debug)
    else if name == "warn" then Some(Warn)
    else if name == "error" then Some(Error)
    else if name == "exception" then Some(Exception)
    else if name == "onOnline" then Some(OnOnline)
    else if name == "onSuccessfulRequest" then Some(OnSuccessfulRequest)
    else if name == "onUnsuccessfulRequest" then Some(OnUnsuccessfulRequest)
    else if name == "onSuccessfulResponse" then Some(OnSuccessfulResponse)
    else if name == "onUnsuccessfulResponse" then Some(OnUnsuccessfulResponse)
    else None
  }

  /** Naming a scope and reading the name back gives the same scope. */
  lemma ParseName(s: Scope)
    ensures Parse(Name(s)) == Some(s)
  {
  }

  /** A string is a scope name exactly when it is the name of a member of AllScopes. */
  lemma ParseExactlyNames(name: string)
    ensures Parse(name).Some? <==> exists s :: s in AllScopes && Name(s) == name
  {
    if s :| s in AllScopes && Name(s) == name {
      ParseName(s);
    }
  }

  /** Distinct scopes have distinct names, and AllScopes lists every scope exactly once. */
  lemma NamesDistinct(a: Scope, b: Scope)
    ensures Name(a) == Name(b) ==> a == b
    ensures a in AllScopes && |AllScopes| == 11
  {
    if Name(a) == Name(b) {
      ParseName(a);
      ParseName(b);
    }
  }
}
