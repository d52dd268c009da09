/** The structured error of pkg/errx (errx.go, defaults.go, replace.go).
    An `ErrorX` is a heap object: copies made by `WithDetail` and `WithCode`
    are new objects sharing the receiver's origin and, when it has one, its
    details map. Go `error` values are the datatype `Error`. */
module Errx {
  import Grpc

  /** `Type` is an int8; the six named types are 0..5. */
  type ErrType = t: int | -128 <= t < 128

  const Internal: ErrType := 0
  const Authentication: ErrType := 1
  const Forbidden: ErrType := 2
  const Validation: ErrType := 3
  const NotFound: ErrType := 4
  const Conflict: ErrType := 5

  predicate KnownType(t: ErrType)
  {
    Internal <= t <= Conflict
  }

  // Default error codes (defaults.go).
  const CodeInternal := "INTERNAL"
  const CodeAuthentication := "AUTHENTICATION"
  const CodeForbidden := "FORBIDDEN"
  const CodeValidation := "VALIDATION"
  const CodeNotFound := "NOT_FOUND"
  const CodeConflict := "ALREADY_EXISTS"

  /** The value `errors.New(msg)` returns: compared by identity. */
  class Origin {
    const msg: string

    constructor (msg: string)
      ensures this.msg == msg
    {
      this.msg := msg;
    }
  }

  /** A Go `map[string]string`, shared by reference. */
  class DetailMap {
    var entries: map<string, string>

    constructor ()
      ensures entries == map[]
    {
      entries := map[];
    }
  }

  class ErrorX {
    var message: string
    var code: string
    var typ: ErrType
    /** `null` is a nil map. */
    var details: DetailMap?
    /** Set by `New`, carried along by every copy. */
    const origin: Origin
    var trace: string

    /** `New(t, msg, code)`: no details, an empty trace and a fresh origin. */
    constructor New(errType: ErrType, msg: string, code: string)
      ensures message == msg && this.code == code && typ == errType
      ensures details == null && trace == ""
      ensures fresh(origin)
    {
      message := msg;
      this.code := code;
      typ := errType;
      details := null;
      trace := "";
      origin := new Origin(msg);
    }

    /** `newErr := *e`: a field-by-field copy. */
    constructor Copy(e: ErrorX)
      ensures message == e.message && code == e.code && typ == e.typ
      ensures details == e.details && origin == e.origin && trace == e.trace
    {
      message := e.message;
      code := e.code;
      typ := e.typ;
      details := e.details;
      origin := e.origin;
      trace := e.trace;
    }

    /** `WithDetail(k, v)`: a new error with `Details[k] = v`, all else
        copied. A receiver without details keeps none; a receiver with a
        details map shares it with the copy, and so gains the key too. */
    method WithDetail(key: string, value: string) returns (r: ErrorX)
      modifies if details == null then {} else {details}
      ensures fresh(r) && r != this
      ensures r.message == message && r.code == code && r.typ == typ
      ensures r.origin == origin && r.trace == trace
      ensures details == old(details)
      ensures old(details) == null ==> fresh(r.details) && r.details.entries == map[key := value]
      ensures old(details) != null ==>
        r.details == details && details.entries == old(details.entries)[key := value]
    {
      r := new ErrorX.Copy(this);
      if r.details == null {
        var m := new DetailMap();
        r.details := m;
      }
      r.details.entries := r.details.entries[key := value];
    }

    /** `WithCode(c)`: a new error differing from the receiver only in its
        code. */
    method WithCode(code: string) returns (r: ErrorX)
      ensures fresh(r)
      ensures r.code == code
      ensures r.message == message && r.typ == typ && r.details == details
      ensures r.origin == origin && r.trace == trace
    {
      r := new ErrorX.Copy(this);
      r.code := code;
    }
  }

  /** The details an error carries, a nil map read as empty. */
  function DetailsOf(e: ErrorX): map<string, string>
    reads e, e.details
  {
    if e.details == null then map[] else e.details.entries
  }

  /** A Go `error` value as the package meets it. */
  datatype Error =
    | Nil
    | X(x: ErrorX)
    | Plain(o: Origin)
    | NoRows
    | Pg(severity: string, pgCode: string, constraintName: string, pgMessage: string)
    | Status(st: Grpc.Status)
    | Wrapped(prefix: string, inner: Error)

  /** The ErrorX objects along an error's unwrap chain. */
  function Objs(err: Error): set<object>
  {
    match err
    case X(x) => {x}
    case Wrapped(_, inner) => Objs(inner)
    case _ => {}
  }

  /** Every object along the chain is allocated, so a call that changes no
      existing object leaves the chain's message as it was. */
  lemma ObjsAllocated(err: Error)
    ensures forall o :: o in Objs(err) ==> allocated(o)
  {
    if err.Wrapped? {
      ObjsAllocated(err.inner);
    }
  }

  /** `err.Error()`: for an ErrorX exactly its message; pgx's no-rows
      sentinel reads "no rows in result set"; a Postgres error reads
      "<severity>: <message> (SQLSTATE <code>)" (pgconn's `PgError.Error`);
      a status error reads "rpc error: code = <name> desc = <message>". */
  function Message(err: Error): (s: string)
    requires !err.Nil?
    reads Objs(err)
    ensures err.X? ==> s == err.x.message
    ensures err.Pg? ==> |err.severity| + 2 <= |s| && err.pgMessage <= s[|err.severity| + 2..]
    ensures err.Status? ==> |err.st.message| <= |s| && s[|s| - |err.st.message|..] == err.st.message
  {
    match err
    case X(x) => x.message
    case Plain(o) => o.msg
    case NoRows => "no rows in result set"
    case Pg(severity, code, _, msg) => severity + ": " + msg + " (SQLSTATE " + code + ")"
    case Status(st) => Grpc.ErrorText(st)
    case Wrapped(prefix, inner) => if inner.Nil? then prefix else prefix + Message(inner)
  }

  /** `errors.Is(err, target)`: some error along err's unwrap chain equals
      target, or is an ErrorX with target's origin (the `Is` method). */
  predicate Is(err: Error, target: Error)
  {
    if target.Nil? then err.Nil?
    else match err
      case Nil => false
      case X(x) => target.X? && target.x.origin == x.origin
      case Wrapped(_, inner) => err == target || Is(inner, target)
      case _ => err == target
  }

  /** Every error Is itself; a nil target is met by nil alone, and nil
      meets no other target. */
  lemma IsBasics(err: Error, target: Error)
    ensures err == target ==> Is(err, target)
    ensures target.Nil? ==> (Is(err, target) <==> err.Nil?)
    ensures err.Nil? ==> (Is(err, target) <==> target.Nil?)
  {
  }

  /** Identity by origin: an ErrorX is Is another exactly when both have the
      same origin, also when it sits inside wrappers. */
  lemma {:induction false} IsByOrigin(prefixes: seq<string>, a: ErrorX, b: ErrorX)
    ensures Is(WrapIn(prefixes, X(a)), X(b)) <==> a.origin == b.origin
  {
    if prefixes != [] {
      IsByOrigin(prefixes[1..], a, b);
    }
  }

  /** `err` inside one `fmt.Errorf("...%w")` per prefix. */
  function WrapIn(prefixes: seq<string>, err: Error): Error
  {
    if prefixes == [] then err else Wrapped(prefixes[0], WrapIn(prefixes[1..], err))
  }

  /** `GetCode`: the code of a direct ErrorX; INTERNAL for anything else,
      an error that merely wraps an ErrorX included. */
  function GetCode(err: Error): (c: string)
    reads if err.X? then {err.x} else {}
    ensures err.X? ==> c == err.x.code
    ensures !err.X? ==> c == CodeInternal
  {
    if err.X? then err.x.code else CodeInternal
  }

  /** `GetType`: the type of a direct ErrorX; Internal otherwise. */
  function GetType(err: Error): (t: ErrType)
    reads if err.X? then {err.x} else {}
    ensures err.X? ==> t == err.x.typ
    ensures !err.X? ==> t == Internal
  {
    if err.X? then err.x.typ else Internal
  }

  /** `ReplaceWith`: newErr exactly when err Is targetErr, else err itself. */
  function ReplaceWith(err: Error, targetErr: Error, newErr: Error): (r: Error)
    ensures Is(err, targetErr) ==> r == newErr
    ensures !Is(err, targetErr) ==> r == err
  {
    if Is(err, targetErr) then newErr else err
  }

  /** A copy made from targetErr (same origin), even wrapped, is replaced;
      an ErrorX of another origin is not, whatever its fields. */
  lemma ReplaceWithCopies(prefixes: seq<string>, e: ErrorX, target: ErrorX, newErr: Error)
    ensures e.origin == target.origin ==> ReplaceWith(WrapIn(prefixes, X(e)), X(target), newErr) == newErr
    ensures e.origin != target.origin ==>
      ReplaceWith(WrapIn(prefixes, X(e)), X(target), newErr) == WrapIn(prefixes, X(e))
  {
    IsByOrigin(prefixes, e, target);
  }

  /** `ReplaceWithCode`: replaced exactly when GetCode(err) is targetCode;
      an error that is not an ErrorX is replaced exactly when targetCode is
      INTERNAL. */
  function ReplaceWithCode(err: Error, targetCode: string, newErr: Error): (r: Error)
    reads if err.X? then {err.x} else {}
    ensures err.X? ==> r == (if err.x.code == targetCode then newErr else err)
    ensures !err.X? ==> r == (if targetCode == CodeInternal then newErr else err)
  {
    if GetCode(err) == targetCode then newErr else err
  }

  /** `ReplaceWithType`: replaced exactly when GetType(err) is targetType;
      an error that is not an ErrorX is replaced exactly when targetType is
      Internal. */
  function ReplaceWithType(err: Error, targetType: ErrType, newErr: Error): (r: Error)
    reads if err.X? then {err.x} else {}
    ensures err.X? ==> r == (if err.x.typ == targetType then newErr else err)
    ensures !err.X? ==> r == (if targetType == Internal then newErr else err)
  {
    if GetType(err) == targetType then newErr else err
  }

  /** The shape of a default error: type, message, code and no details. */
  predicate DefaultShape(e: ErrorX, t: ErrType, msg: string, code: string)
    reads e
  {
    e.typ == t && e.message == msg && e.code == code && e.details == null
  }

  /** The package-level default errors of defaults.go. Their fields other
      than the trace never change. */
  class Defaults {
    const errInternal: ErrorX
    const errAuthentication: ErrorX
    const errForbidden: ErrorX
    const errValidation: ErrorX
    const errNotFound: ErrorX
    const errConflict: ErrorX

    function All(): seq<ErrorX>
    {
      [errInternal, errAuthentication, errForbidden, errValidation, errNotFound, errConflict]
    }

    predicate Valid()
      reads errInternal, errAuthentication, errForbidden, errValidation, errNotFound, errConflict
    {
      && DefaultShape(errInternal, Internal, "Internal server error", CodeInternal)
      && DefaultShape(errAuthentication, Authentication, "Unauthenticated", CodeAuthentication)
      && DefaultShape(errForbidden, Forbidden, "Forbidden", CodeForbidden)
      && DefaultShape(errValidation, Validation, "Validation error", CodeValidation)
      && DefaultShape(errNotFound, NotFound, "Resource not found", CodeNotFound)
      && DefaultShape(errConflict, Conflict, "Resource already exists", CodeConflict)
      && (forall i, j :: 0 <= i < j < 6 ==> All()[i].origin != All()[j].origin)
    }

    constructor ()
      ensures Valid()
      ensures fresh(errInternal) && fresh(errAuthentication) && fresh(errForbidden)
      ensures fresh(errValidation) && fresh(errNotFound) && fresh(errConflict)
      ensures errInternal.trace == "" && errAuthentication.trace == "" && errForbidden.trace == ""
      ensures errValidation.trace == "" && errNotFound.trace == "" && errConflict.trace == ""
    {
      var a := new ErrorX.New(Internal, "Internal server error", CodeInternal);
      var b := new ErrorX.New(Authentication, "Unauthenticated", CodeAuthentication);
      assert b.origin != a.origin;
      var c := new ErrorX.New(Forbidden, "Forbidden", CodeForbidden);
      assert c.origin !in {a.origin, b.origin};
      var d := new ErrorX.New(Validation, "Validation error", CodeValidation);
      assert d.origin !in {a.origin, b.origin, c.origin};
      var e := new ErrorX.New(NotFound, "Resource not found", CodeNotFound);
      assert e.origin !in {a.origin, b.origin, c.origin, d.origin};
      var f := new ErrorX.New(Conflict, "Resource already exists", CodeConflict);
      assert f.origin !in {a.origin, b.origin, c.origin, d.origin, e.origin};
      errInternal, errAuthentication, errForbidden := a, b, c;
      errValidation, errNotFound, errConflict := d, e, f;
      new;
      assert All() == [a, b, c, d, e, f];
    }

    /** The default of each known type; ErrInternal for any other. */
    function ForType(t: ErrType): (e: ErrorX)
      ensures e in All()
    {
      if t == Authentication then errAuthentication
      else if t == Forbidden then errForbidden
      else if t == Validation then errValidation
      else if t == NotFound then errNotFound
      else if t == Conflict then errConflict
      else errInternal
    }

    /** Each default carries its own type, and no two share an origin. */
    lemma ForTypeShape(t: ErrType)
      requires Valid()
      ensures KnownType(t) ==> ForType(t).typ == t
      ensures !KnownType(t) ==> ForType(t) == errInternal
      ensures forall u: ErrType :: KnownType(t) && KnownType(u) && t != u ==>
        ForType(t).origin != ForType(u).origin
    {
      var s := All();
      assert forall u: ErrType :: KnownType(u) ==> ForType(u) == s[u];
    }
  }
}
