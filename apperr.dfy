/** pkg/apperr: application errors with a string type, an integer code and
    free-form details, identified by origin, with HTTP and gRPC codes. */
module AppErr {
  import Errx

  // Error types.
  const Authorization := "AUTHORIZATION"
  const Forbidden := "FORBIDDEN"
  const Validation := "VALIDATION"
  const NotFound := "NOT_FOUND"
  const Conflict := "CONFLICT"
  const Internal := "INTERNAL"

  // Default error codes, one per type in the order above.
  const DefaultAuthorizationCode := 1000
  const DefaultForbiddenCode := 2000
  const DefaultValidationCode := 3000
  const DefaultNotFoundCode := 4000
  const DefaultConflictCode := 5000
  const DefaultInternalCode := 6000

  /** A detail value (`any`): the kinds the package's users store. */
  datatype Value = Str(s: string) | Int(i: int) | Bool(b: bool)

  /** A Go `map[string]any`, shared by reference. */
  class ValueMap {
    var entries: map<string, Value>

    constructor ()
      ensures entries == map[]
    {
      entries := map[];
    }
  }

  class AppError {
    /** `errors.New(msg)` at creation, carried along by every copy. */
    const origin: Errx.Origin
    var message: string
    var code: int
    var typ: string
    /** `null` is a nil map. */
    var details: ValueMap?

    /** `New(t, msg, code)`: no details and a fresh origin. */
    constructor New(errType: string, msg: string, code: int)
      ensures message == msg && this.code == code && typ == errType
      ensures details == null
      ensures fresh(origin) && origin.msg == msg
    {
      origin := new Errx.Origin(msg);
      message := msg;
      this.code := code;
      typ := errType;
      details := null;
    }

    /** `newErr := *e`. */
    constructor Copy(e: AppError)
      ensures origin == e.origin && message == e.message && code == e.code
      ensures typ == e.typ && details == e.details
    {
      origin := e.origin;
      message := e.message;
      code := e.code;
      typ := e.typ;
      details := e.details;
    }

    /** `WithDetail(k, v)`: a new error with `Details[k] = v`, all else
        copied. A receiver without details stays without; one with a
        details map shares it with the copy. */
    method WithDetail(key: string, value: Value) returns (r: AppError)
      modifies if details == null then {} else {details}
      ensures fresh(r) && r != this
      ensures r.origin == origin && r.message == message && r.code == code && r.typ == typ
      ensures details == old(details)
      ensures old(details) == null ==> fresh(r.details) && r.details.entries == map[key := value]
      ensures old(details) != null ==>
        r.details == details && details.entries == old(details.entries)[key := value]
    {
      r := new AppError.Copy(this);
      if r.details == null {
        var m := new ValueMap();
        r.details := m;
      }
      r.details.entries := r.details.entries[key := value];
    }
  }

  /** The details of an error, a nil map read as empty. */
  function DetailsOf(e: AppError): map<string, Value>
    reads e, e.details
  {
    if e.details == null then map[] else e.details.entries
  }

  /** A Go `error` value as this package meets it. */
  datatype Error =
    | Nil
    | App(e: AppError)
    | Plain(o: Errx.Origin)
    | Wrapped(prefix: string, inner: Error)

  /** `err.Error()`: an AppError's message, a wrapper's prefix followed by
      its inner error's text. */
  function Message(err: Error): (s: string)
    requires !err.Nil?
    reads AppObjs(err)
    ensures err.App? ==> s == err.e.message
  {
    match err
    case App(e) => e.message
    case Plain(o) => o.msg
    case Wrapped(prefix, inner) => if inner.Nil? then prefix else prefix + Message(inner)
  }

  function AppObjs(err: Error): set<object>
  {
    match err
    case App(e) => {e}
    case Wrapped(_, inner) => AppObjs(inner)
    case _ => {}
  }

  /** `errors.Is(err, target)` with the `Is` method of AppError: some error
      along the chain is target, or is an AppError with target's origin. */
  predicate Is(err: Error, target: Error)
  {
    if target.Nil? then err.Nil?
    else match err
      case Nil => false
      case App(e) => target.App? && target.e.origin == e.origin
      case Wrapped(_, inner) => err == target || Is(inner, target)
      case Plain(_) => err == target
  }

  /** Every error Is itself; a nil target is met by nil alone, and nil
      meets no other target. */
  lemma IsBasics(err: Error, target: Error)
    ensures err == target ==> Is(err, target)
    ensures target.Nil? ==> (Is(err, target) <==> err.Nil?)
    ensures err.Nil? ==> (Is(err, target) <==> target.Nil?)
  {
  }

  function WrapIn(prefixes: seq<string>, err: Error): Error
  {
    if prefixes == [] then err else Wrapped(prefixes[0], WrapIn(prefixes[1..], err))
  }

  /** A wrapped AppError Is another AppError exactly when both have the
      same origin, so a detailed copy Is its original; it is never a plain
      error, even one made from the same message. */
  lemma {:induction false} IsByOrigin(prefixes: seq<string>, a: AppError, b: AppError, o: Errx.Origin)
    ensures Is(WrapIn(prefixes, App(a)), App(b)) <==> a.origin == b.origin
    ensures !Is(WrapIn(prefixes, App(a)), Plain(o))
  {
    if prefixes != [] {
      IsByOrigin(prefixes[1..], a, b, o);
    }
  }

  /** The HTTP status of each type; 500 for any other type string. */
  function HTTPCodeForType(t: string): (s: int)
    ensures s in {400, 401, 403, 404, 409, 500}
    ensures s == 500 <==> t !in {Authorization, Forbidden, Validation, NotFound, Conflict}
  {
    if t == Authorization then 401
    else if t == Forbidden then 403
    else if t == Validation then 400
    else if t == NotFound then 404
    else if t == Conflict then 409
    else 500
  }

  /** The gRPC code of each type; 13 (Internal) for any other type string. */
  function GRPCCodeForType(t: string): (c: int)
    ensures c in {3, 5, 6, 7, 13, 16}
    ensures c == 13 <==> t !in {Authorization, Forbidden, Validation, NotFound, Conflict}
  {
    if t == Authorization then 16
    else if t == Forbidden then 7
    else if t == Validation then 3
    else if t == NotFound then 5
    else if t == Conflict then 6
    else 13
  }

  /** `HTTPCode`: the type's status for a direct AppError; 500 for any
      other error, nil and a wrapped AppError included. */
  function HTTPCode(err: Error): (s: int)
    reads if err.App? then {err.e} else {}
    ensures err.App? ==> s == HTTPCodeForType(err.e.typ)
    ensures !err.App? ==> s == 500
  {
    if err.App? then HTTPCodeForType(err.e.typ) else 500
  }

  /** `GRPCCode`: the type's code for a direct AppError; 13 otherwise. */
  function GRPCCode(err: Error): (c: int)
    reads if err.App? then {err.e} else {}
    ensures err.App? ==> c == GRPCCodeForType(err.e.typ)
    ensures !err.App? ==> c == 13
  {
    if err.App? then GRPCCodeForType(err.e.typ) else 13
  }

  /** The six types. */
  const Types: set<string> := {Authorization, Forbidden, Validation, NotFound, Conflict, Internal}

  /** Each table tells the six types apart: two types share an HTTP status,
      and likewise a gRPC code, only when they are the same type. */
  lemma TypesDistinguished(t: string, u: string)
    requires t in Types && u in Types
    ensures HTTPCodeForType(t) == HTTPCodeForType(u) <==> t == u
    ensures GRPCCodeForType(t) == GRPCCodeForType(u) <==> t == u
  {
  }

  /** The two tables agree: each tells the six types apart, and an error is
      answered with 500 exactly when it is answered with 13. */
  lemma CodesAgree(err: Error, t: string, u: string)
    ensures HTTPCode(err) == 500 <==> GRPCCode(err) == 13
    ensures HTTPCodeForType(t) == HTTPCodeForType(u) <==> GRPCCodeForType(t) == GRPCCodeForType(u)
  {
  }

  /** One member of the serialised form, in output order. */
  datatype JsonField =
    | JMessage(message: string)
    | JCode(code: int)
    | JType(typ: string)
    | JDetails(details: map<string, Value>)

  /** The JSON form: message, code and type, then details unless empty
      (`omitempty`); the origin is never serialised. */
  function ToJSON(e: AppError): (fields: seq<JsonField>)
    reads e, e.details
    ensures |fields| == (if DetailsOf(e) == map[] then 3 else 4)
    ensures fields[0].JMessage? && fields[1].JCode? && fields[2].JType?
  {
    [JMessage(e.message), JCode(e.code), JType(e.typ)] +
    (if DetailsOf(e) == map[] then [] else [JDetails(DetailsOf(e))])
  }

  /** The values a JSON form carries: message, code, type and details. */
  datatype Decoded = Decoded(message: string, code: int, typ: string, details: map<string, Value>)

  /** Reading a JSON form back; a missing details member reads as empty. */
  function FromJSON(fields: seq<JsonField>): (r: Decoded)
    requires |fields| >= 3 && fields[0].JMessage? && fields[1].JCode? && fields[2].JType?
  {
    Decoded(fields[0].message, fields[1].code, fields[2].typ,
      if |fields| > 3 && fields[3].JDetails? then fields[3].details else map[])
  }

  /** Round trip: the JSON form carries everything but the origin. */
  lemma JSONRoundTrip(e: AppError)
    ensures FromJSON(ToJSON(e)) == Decoded(e.message, e.code, e.typ, DetailsOf(e))
  {
  }
}
