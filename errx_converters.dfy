/** The converters of pkg/errx/converters.go: Postgres errors and gRPC
    status errors into ErrorX values. */
module ErrxConverters {
  import opened Wrappers
  import Grpc
  import opened Errx

  /** `x` has `base`'s origin, message, code and type, and carries `details`. */
  predicate Like(x: ErrorX, base: ErrorX, details: map<string, string>)
    reads x, x.details, base
  {
    && x.origin == base.origin && x.message == base.message
    && x.code == base.code && x.typ == base.typ
    && DetailsOf(x) == details
  }

  /** `x` is a copy of `base`, its trace included, carrying `details`. */
  predicate CopyWith(x: ErrorX, base: ErrorX, details: map<string, string>)
    reads x, x.details, base
  {
    Like(x, base, details) && x.trace == base.trace
  }

  /** `errors.As(err, &pgErr)`: the first Postgres error along the chain. */
  function FindPg(err: Error): (r: Option<(string, string)>)
  {
    match err
    case Pg(_, code, constraint, _) => Some((code, constraint))
    case Wrapped(_, inner) => FindPg(inner)
    case _ => None
  }

  /** What `fromPG` does with an error. */
  datatype PgOutcome = PgConflict(constraint: string) | PgNoRows | PgUnchanged

  /** A unique-violation ("23505") or cardinality-violation ("21000")
      Postgres error becomes a conflict; else an error that Is the no-rows
      sentinel becomes not-found; else nothing happens. */
  function ClassifyPg(err: Error): (o: PgOutcome)
    ensures o.PgConflict? <==> FindPg(err).Some? && FindPg(err).value.0 in {"23505", "21000"}
    ensures o.PgNoRows? ==> Is(err, NoRows)
    ensures o.PgUnchanged? ==> !Is(err, NoRows)
  {
    var pg := FindPg(err);
    if pg.Some? && pg.value.0 in {"23505", "21000"} then PgConflict(pg.value.1)
    else if Is(err, NoRows) then PgNoRows
    else PgUnchanged
  }

  /** `fromPG`: a conflict becomes a fresh copy of ErrConflict with the
      constraint name as detail; no-rows becomes ErrNotFound itself, the
      shared default; any other error is returned unchanged. */
  method FromPG(err: Error, d: Defaults) returns (r: Error)
    requires d.Valid()
    ensures ClassifyPg(err).PgConflict? ==>
      r.X? && fresh(r.x) && fresh(r.x.details) &&
      CopyWith(r.x, d.errConflict, map["constraint" := ClassifyPg(err).constraint])
    ensures ClassifyPg(err).PgNoRows? ==> r == X(d.errNotFound)
    ensures ClassifyPg(err).PgUnchanged? ==> r == err
  {
    var pg := FindPg(err);
    if pg.Some? && pg.value.0 in {"23505", "21000"} {
      var e := d.errConflict.WithDetail("constraint", pg.value.1);
      return X(e);
    }
    if Is(err, NoRows) {
      return X(d.errNotFound);
    }
    return err;
  }

  /** `Type(int32)`: Go's conversion to int8 keeps the low eight bits. */
  function Int8(v: Grpc.Int32): (t: ErrType)
    ensures -128 <= v < 128 ==> t == v
    ensures (v - t) % 256 == 0
  {
    var m := v % 256;
    if m >= 128 then m - 256 else m
  }

  /** `fromProto`: a new error (fresh origin) with the proto's message,
      code and type, and exactly the proto's details. */
  method FromProto(pb: Grpc.StatusDetail) returns (r: ErrorX)
    requires pb.ErrorXProto?
    ensures fresh(r) && fresh(r.origin) && (r.details == null || fresh(r.details))
    ensures r.message == pb.message && r.code == pb.code && r.typ == Int8(pb.typ)
    ensures r.trace == ""
    ensures DetailsOf(r) == pb.details
  {
    r := new ErrorX.New(Int8(pb.typ), pb.message, pb.code);
    var remaining := pb.details.Keys;
    while remaining != {}
      invariant remaining <= pb.details.Keys
      invariant fresh(r) && fresh(r.origin) && (r.details == null || fresh(r.details))
      invariant r.message == pb.message && r.code == pb.code && r.typ == Int8(pb.typ)
      invariant r.trace == ""
      invariant DetailsOf(r) == map k | k in pb.details.Keys - remaining :: pb.details[k]
      decreases remaining
    {
      var k :| k in remaining;
      r := r.WithDetail(k, pb.details[k]);
      remaining := remaining - {k};
    }
    assert pb.details.Keys - remaining == pb.details.Keys;
  }

  /** The first ErrorX detail of a status, if any. */
  function FirstProto(details: seq<Grpc.StatusDetail>): (r: Option<Grpc.StatusDetail>)
    ensures r.Some? ==> r.value.ErrorXProto? && r.value in details
    ensures r.Some? ==> exists i :: (0 <= i < |details| && details[i] == r.value &&
      forall j :: 0 <= j < i ==> !details[j].ErrorXProto?)
    ensures r.None? ==> forall k :: 0 <= k < |details| ==> !details[k].ErrorXProto?
  {
    if details == [] then None
    else if details[0].ErrorXProto? then Some(details[0])
    else FirstProto(details[1..])
  }

  /** The field violations of all BadRequest details, in order. */
  function Violations(details: seq<Grpc.StatusDetail>): seq<Grpc.FieldViolation>
  {
    if details == [] then []
    else (if details[0].BadRequest? then details[0].fieldViolations else []) + Violations(details[1..])
  }

  /** Writing the violations into a map one after the other. */
  function Overlay(m: map<string, string>, vs: seq<Grpc.FieldViolation>): map<string, string>
    decreases |vs|
  {
    if vs == [] then m else Overlay(m[vs[0].field := vs[0].description], vs[1..])
  }

  /** The keys after the overlay: those of the map and every violated field. */
  lemma {:induction false} OverlayKeys(m: map<string, string>, vs: seq<Grpc.FieldViolation>, k: string)
    ensures k in Overlay(m, vs) <==> k in m || exists i :: 0 <= i < |vs| && vs[i].field == k
    decreases |vs|
  {
    if vs != [] {
      OverlayKeys(m[vs[0].field := vs[0].description], vs[1..], k);
      if exists i :: 0 <= i < |vs| && vs[i].field == k {
        var i :| 0 <= i < |vs| && vs[i].field == k;
        if i > 0 {
          assert vs[1..][i - 1].field == k;
        }
      }
    }
  }

  /** A field no violation names keeps its value. */
  lemma {:induction false} OverlayUntouched(m: map<string, string>, vs: seq<Grpc.FieldViolation>, k: string)
    requires k in m
    requires forall i :: 0 <= i < |vs| ==> vs[i].field != k
    ensures k in Overlay(m, vs) && Overlay(m, vs)[k] == m[k]
    decreases |vs|
  {
    if vs != [] {
      assert vs[0].field != k;
      assert forall i :: 0 <= i < |vs[1..]| ==> vs[1..][i].field != k by {
        forall i | 0 <= i < |vs[1..]| ensures vs[1..][i].field != k {
          assert vs[1..][i] == vs[i + 1];
        }
      }
      OverlayUntouched(m[vs[0].field := vs[0].description], vs[1..], k);
    }
  }

  /** The last violation of a field wins, also over an "error" entry. */
  lemma OverlayLastWins(m: map<string, string>, vs: seq<Grpc.FieldViolation>, k: string, i: nat)
    requires i < |vs| && vs[i].field == k
    requires forall j :: i < j < |vs| ==> vs[j].field != k
    ensures k in Overlay(m, vs) && Overlay(m, vs)[k] == vs[i].description
  {
    assert vs == vs[..i] + ([vs[i]] + vs[i + 1..]);
    OverlayAppend(m, vs[..i], [vs[i]] + vs[i + 1..]);
    var m' := Overlay(m, vs[..i]);
    assert Overlay(m', [vs[i]] + vs[i + 1..]) == Overlay(m'[k := vs[i].description], vs[i + 1..]) by {
      assert ([vs[i]] + vs[i + 1..])[1..] == vs[i + 1..];
    }
    var rest := vs[i + 1..];
    assert forall j :: 0 <= j < |rest| ==> rest[j].field != k by {
      forall j | 0 <= j < |rest| ensures rest[j].field != k {
        assert rest[j] == vs[i + 1 + j];
      }
    }
    OverlayUntouched(m'[k := vs[i].description], rest, k);
  }

  lemma {:induction false} OverlayAppend(m: map<string, string>, a: seq<Grpc.FieldViolation>, b: seq<Grpc.FieldViolation>)
    ensures Overlay(m, a + b) == Overlay(Overlay(m, a), b)
    decreases |a|
  {
    if a == [] {
      assert a + b == b;
    } else {
      assert (a + b)[1..] == a[1..] + b;
      OverlayAppend(m[a[0].field := a[0].description], a[1..], b);
    }
  }

  lemma {:induction false} ViolationsAppend(ds: seq<Grpc.StatusDetail>, d: Grpc.StatusDetail)
    ensures Violations(ds + [d]) == Violations(ds) + (if d.BadRequest? then d.fieldViolations else [])
  {
    var tail := if d.BadRequest? then d.fieldViolations else [];
    if ds == [] {
      assert ds + [d] == [d];
      assert [d][1..] == [];
      assert Violations([d]) == tail + Violations([]);
    } else {
      var head := if ds[0].BadRequest? then ds[0].fieldViolations else [];
      assert (ds + [d])[0] == ds[0];
      assert (ds + [d])[1..] == ds[1..] + [d];
      ViolationsAppend(ds[1..], d);
      calc {
        Violations(ds + [d]);
        head + Violations(ds[1..] + [d]);
        head + (Violations(ds[1..]) + tail);
        (head + Violations(ds[1..])) + tail;
      }
    }
  }

  /** `handleInvalidArgument`: a copy of ErrValidation with "error" set to
      the status message, then every field violation written in order. */
  method HandleInvalidArgument(st: Grpc.Status, msg: string, d: Defaults) returns (r: ErrorX)
    requires d.Valid()
    ensures fresh(r) && r.details != null && fresh(r.details)
    ensures CopyWith(r, d.errValidation, Overlay(map["error" := msg], Violations(st.details)))
  {
    var base := map["error" := msg];
    r := d.errValidation.WithDetail("error", msg);
    var i := 0;
    while i < |st.details|
      invariant 0 <= i <= |st.details|
      invariant fresh(r) && r.details != null && fresh(r.details)
      invariant CopyWith(r, d.errValidation, Overlay(base, Violations(st.details[..i])))
    {
      ViolationsAppend(st.details[..i], st.details[i]);
      assert st.details[..i + 1] == st.details[..i] + [st.details[i]];
      var before := Overlay(base, Violations(st.details[..i]));
      if st.details[i].BadRequest? {
        var vs := st.details[i].fieldViolations;
        var j := 0;
        while j < |vs|
          invariant 0 <= j <= |vs|
          invariant fresh(r) && r.details != null && fresh(r.details)
          invariant CopyWith(r, d.errValidation, Overlay(before, vs[..j]))
        {
          OverlayAppend(before, vs[..j], [vs[j]]);
          assert vs[..j + 1] == vs[..j] + [vs[j]];
          assert [vs[j]][1..] == [];
          r := r.WithDetail(vs[j].field, vs[j].description);
          j := j + 1;
        }
        assert vs[..j] == vs;
        OverlayAppend(base, Violations(st.details[..i]), vs);
        assert Violations(st.details[..i + 1]) == Violations(st.details[..i]) + vs;
        assert DetailsOf(r) == Overlay(base, Violations(st.details[..i + 1]));
      } else {
        assert Violations(st.details[..i + 1]) == Violations(st.details[..i]) + [];
        assert Violations(st.details[..i]) + [] == Violations(st.details[..i]);
      }
      i := i + 1;
    }
    assert st.details[..i] == st.details;
  }

  /** The type `fromGRPCCode` gives to each status code. */
  function TypeForGrpcCode(c: Grpc.Code): (t: ErrType)
    ensures KnownType(t)
  {
    if c == Grpc.AlreadyExists then Conflict
    else if c == Grpc.NotFound then NotFound
    else if c == Grpc.PermissionDenied then Forbidden
    else if c == Grpc.Unauthenticated then Authentication
    else if c == Grpc.InvalidArgument then Validation
    else Internal
  }

  /** The details `fromGRPCCode` gives: the message under "error", and for
      InvalidArgument the field violations written over it. */
  function GrpcCodeDetails(st: Grpc.Status): map<string, string>
  {
    if st.code == Grpc.InvalidArgument then Overlay(map["error" := st.message], Violations(st.details))
    else map["error" := st.message]
  }

  /** `fromGRPCCode`: a copy of the default of the code's type (ErrInternal
      for any unlisted code) with the status message as detail. */
  method FromGRPCCode(st: Grpc.Status, d: Defaults) returns (r: ErrorX)
    requires d.Valid()
    ensures fresh(r) && fresh(r.details)
    ensures CopyWith(r, d.ForType(TypeForGrpcCode(st.code)), GrpcCodeDetails(st))
  {
    var msg := st.message;
    var grpcToAppErr := map[
      Grpc.AlreadyExists := d.errConflict,
      Grpc.NotFound := d.errNotFound,
      Grpc.PermissionDenied := d.errForbidden,
      Grpc.Unauthenticated := d.errAuthentication];

    if st.code == Grpc.InvalidArgument {
      r := HandleInvalidArgument(st, msg, d);
      return;
    }
    if st.code in grpcToAppErr {
      r := grpcToAppErr[st.code].WithDetail("error", msg);
      return;
    }
    r := d.errInternal.WithDetail("error", msg);
  }

  /** `fromGRPC`: an error that is not a status is returned unchanged; a
      status carrying an ErrorX detail decodes the first one; any other
      status goes through `fromGRPCCode`. */
  method FromGRPC(err: Error, d: Defaults) returns (r: Error)
    requires d.Valid()
    ensures !err.Status? ==> r == err
    ensures err.Status? ==> r.X? && fresh(r.x) && (r.x.details == null || fresh(r.x.details))
    ensures err.Status? && FirstProto(err.st.details).Some? ==>
      var pb := FirstProto(err.st.details).value;
      && fresh(r.x.origin) && r.x.message == pb.message && r.x.code == pb.code
      && r.x.typ == Int8(pb.typ) && DetailsOf(r.x) == pb.details && r.x.trace == ""
    ensures err.Status? && FirstProto(err.st.details).None? ==>
      CopyWith(r.x, d.ForType(TypeForGrpcCode(err.st.code)), GrpcCodeDetails(err.st))
  {
    if !err.Status? {
      return err;
    }
    var details := err.st.details;
    var i := 0;
    while i < |details|
      invariant 0 <= i <= |details|
      invariant FirstProto(details) == FirstProto(details[i..])
    {
      assert details[i..][1..] == details[i + 1..];
      if details[i].ErrorXProto? {
        var e := FromProto(details[i]);
        return X(e);
      }
      i := i + 1;
    }
    var e := FromGRPCCode(err.st, d);
    return X(e);
  }
}
