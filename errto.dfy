/** pkg/errx/errto: turning errors into HTTP responses and gRPC status
    errors. */
module Errto {
  import opened Wrappers
  import Grpc
  import opened Errx
  import opened ErrxConverters
  import opened ErrxWrap

  /** The HTTP status of each error type; 500 for any unknown type. */
  function HttpStatusForType(t: ErrType): (s: int)
    ensures s in {400, 401, 403, 404, 409, 500}
    ensures !KnownType(t) ==> s == 500
  {
    if t == Authentication then 401
    else if t == Forbidden then 403
    else if t == Validation then 400
    else if t == NotFound then 404
    else if t == Conflict then 409
    else 500
  }

  /** Distinct known types get distinct HTTP statuses, and the Internal type
      is the only known one answered with 500. */
  lemma HttpStatusDistinguishesTypes(t: ErrType, u: ErrType)
    requires KnownType(t) && KnownType(u) && t != u
    ensures HttpStatusForType(t) != HttpStatusForType(u)
    ensures HttpStatusForType(t) == 500 <==> t == Internal
  {
  }

  /** `httpStatusCode`: 200 for nil, the type's status for an ErrorX, 500
      for any other error. */
  function HttpStatusCode(err: Error): (s: int)
    reads if err.X? then {err.x} else {}
    ensures s == 200 <==> err.Nil?
    ensures err.X? ==> s == HttpStatusForType(err.x.typ)
    ensures !err.Nil? && !err.X? ==> s == 500
  {
    if err.Nil? then 200
    else if err.X? then HttpStatusForType(err.x.typ)
    else 500
  }

  /** `HTTP`: nothing is written for nil. An ErrorX is written as it is,
      its trace untouched; any other error is first passed through `Wrap`.
      The status written is that of the resulting ErrorX, whose JSON form is
      the body. */
  method HTTP(err: Error, d: Defaults, caller: Frame) returns (written: Option<(int, ErrorX)>)
    requires d.Valid()
    modifies d.errNotFound
    ensures d.Valid()
    ensures written.None? <==> err.Nil?
    ensures written.Some? ==> written.value.0 == HttpStatusForType(written.value.1.typ)
    ensures err.X? ==> written == Some((HttpStatusForType(err.x.typ), err.x)) && unchanged(err.x)
    ensures !ClassifyPg(err).PgNoRows? ==> unchanged(d.errNotFound)
    ensures ClassifyPg(err).PgNoRows? ==> written == Some((404, d.errNotFound))
    ensures ClassifyPg(err).PgConflict? ==> written.value.0 == 409
    ensures err.Status? && FirstProto(err.st.details).None? ==>
      written.value.0 == HttpStatusForType(TypeForGrpcCode(err.st.code))
    ensures !err.Nil? && !err.X? && !err.Status? && ClassifyPg(err).PgUnchanged? ==>
      written.value.0 == 500 && written.value.1.origin == d.errInternal.origin
  {
    if err.Nil? {
      return None;
    }
    var e := err;
    if !err.X? {
      e := Wrap(err, d, caller);
    }
    return Some((HttpStatusCode(e), e.x));
  }

  /** The gRPC code of each error type; Internal for any unknown type. */
  function GrpcStatusCodeForType(t: ErrType): (c: Grpc.Code)
    ensures !KnownType(t) ==> c == Grpc.Internal
  {
    if t == Authentication then Grpc.Unauthenticated
    else if t == Forbidden then Grpc.PermissionDenied
    else if t == Validation then Grpc.InvalidArgument
    else if t == NotFound then Grpc.NotFound
    else if t == Conflict then Grpc.AlreadyExists
    else Grpc.Internal
  }

  /** Type round trip: the code `gRPCStatusCode` gives each of the six
      types is mapped back to that type by `fromGRPCCode`. */
  lemma GrpcTypeRoundTrip(t: ErrType)
    requires KnownType(t)
    ensures TypeForGrpcCode(GrpcStatusCodeForType(t)) == t
  {
  }

  /** And the other way: every code `fromGRPCCode` gives a type for is the
      code of that type, except codes it does not list, read as Internal. */
  lemma GrpcCodeRoundTrip(c: Grpc.Code)
    ensures c in {Grpc.AlreadyExists, Grpc.NotFound, Grpc.PermissionDenied,
                  Grpc.Unauthenticated, Grpc.InvalidArgument, Grpc.Internal} ==>
      GrpcStatusCodeForType(TypeForGrpcCode(c)) == c
    ensures c !in {Grpc.AlreadyExists, Grpc.NotFound, Grpc.PermissionDenied,
                   Grpc.Unauthenticated, Grpc.InvalidArgument} ==>
      TypeForGrpcCode(c) == Internal
  {
  }

  /** `gRPCStatusCode`: the type's code for an ErrorX, Internal for any
      other error. */
  function GrpcStatusCode(err: Error): (c: Grpc.Code)
    reads if err.X? then {err.x} else {}
    ensures err.X? ==> c == GrpcStatusCodeForType(err.x.typ)
    ensures !err.X? ==> c == Grpc.Internal
  {
    if err.X? then GrpcStatusCodeForType(err.x.typ) else Grpc.Internal
  }

  /** `toStatus`: for an ErrorX, a status with its type's code and message
      and one detail carrying message, code, type and details; any other
      error becomes an Internal status with its message. */
  function ToStatus(err: Error): (st: Grpc.Status)
    requires !err.Nil?
    reads Objs(err), if err.X? then {err.x.details} else {}
    ensures st.message == Message(err)
    ensures st.code == GrpcStatusCode(err)
    ensures err.X? ==> st.details == [Grpc.ErrorXProto(err.x.message, err.x.code, err.x.typ, DetailsOf(err.x))]
    ensures !err.X? ==> st.details == []
  {
    if err.X? then
      Grpc.Status(GrpcStatusCode(err), err.x.message,
        [Grpc.ErrorXProto(err.x.message, err.x.code, err.x.typ, DetailsOf(err.x))])
    else Grpc.Status(Grpc.Internal, Message(err), [])
  }

  /** `GRPC`: nil stays nil; an ErrorX becomes its status as it is, any
      other error is passed through `Wrap` first. */
  method GRPC(err: Error, d: Defaults, caller: Frame) returns (r: Error)
    requires d.Valid()
    modifies d.errNotFound
    ensures d.Valid()
    ensures r.Nil? <==> err.Nil?
    ensures err.X? ==> unchanged(err.x) && r == Status(ToStatus(err))
    ensures !ClassifyPg(err).PgNoRows? ==> unchanged(d.errNotFound)
    ensures !err.Nil? ==> r.Status? && |r.st.details| == 1 && r.st.details[0].ErrorXProto?
    ensures ClassifyPg(err).PgNoRows? ==> r == Status(ToStatus(X(d.errNotFound)))
    ensures !err.Nil? && !err.X? && !err.Status? && ClassifyPg(err).PgUnchanged? ==>
      r.st.code == Grpc.Internal && r.st.details[0].details == map["error" := old(Message(err))]
  {
    if err.Nil? {
      return Nil;
    }
    var e := err;
    if !err.X? {
      e := Wrap(err, d, caller);
    }
    return Status(ToStatus(e));
  }

  /** Round trip: decoding the status of an ErrorX with `fromGRPC` gives an
      error with the same message, code, type and details, whose origin is
      none of the defaults'. */
  method StatusRoundTrip(e: ErrorX, d: Defaults) returns (back: Error)
    requires d.Valid()
    ensures back.X?
    ensures back.x.message == e.message && back.x.code == e.code && back.x.typ == e.typ
    ensures DetailsOf(back.x) == DetailsOf(e)
    ensures forall t: ErrType :: !Is(back, X(d.ForType(t)))
  {
    var st := ToStatus(X(e));
    back := FromGRPC(Status(st), d);
  }
}
