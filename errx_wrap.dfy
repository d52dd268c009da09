/** `Wrap` and the trace builder of pkg/errx/wrap.go. The caller frame that
    `runtime.Caller(2)` reports is a parameter. */
module ErrxWrap {
  import Grpc
  import Fmt
  import opened Errx
  import opened ErrxConverters

  /** The separator between two trace entries: " ➡️ ". */
  const Sep := " \U{27A1}\U{FE0F} "

  /** The caller frame: file path, line and function name. */
  datatype Frame = Frame(file: string, line: nat, funcName: string)

  /** The index of the last '/' at a position of 1 or more; 0 when there is
      none (a '/' at position 0 does not count). */
  function LastSep(path: string): (i: nat)
    ensures i == 0 || i < |path|
    ensures i >= 1 ==> path[i] == '/' && forall j :: i < j < |path| ==> path[j] != '/'
    ensures i == 0 ==> forall j :: 1 <= j < |path| ==> path[j] != '/'
  {
    if |path| <= 1 then 0
    else if path[|path| - 1] == '/' then |path| - 1
    else LastSep(path[..|path| - 1])
  }

  /** `pathSplit`: at the last '/' found scanning down to position 1, the
      part before and the part after it; ("", path) when there is none. */
  method PathSplit(path: string) returns (dir: string, file: string)
    ensures LastSep(path) >= 1 ==> dir == path[..LastSep(path)] && file == path[LastSep(path) + 1..]
    ensures LastSep(path) == 0 ==> dir == "" && file == path
    ensures dir != "" ==> dir + "/" + file == path && forall j :: 0 <= j < |file| ==> file[j] != '/'
  {
    var i := |path| - 1;
    while i > 0
      invariant -1 <= i < |path|
      invariant forall j :: i < j < |path| ==> path[j] != '/'
      decreases i
    {
      if path[i] == '/' {
        dir, file := path[..i], path[i + 1..];
        assert LastSep(path) == i;
        assert dir + "/" + file == path;
        return;
      }
      i := i - 1;
    }
    return "", path;
  }

  /** The file part `pathSplit` gives: a suffix of the path with no '/'
      after its first character. */
  function FileOf(path: string): (r: string)
    ensures |r| <= |path| && r == path[|path| - |r|..]
    ensures forall j :: 0 < j < |r| ==> r[j] != '/'
  {
    if LastSep(path) >= 1 then path[LastSep(path) + 1..] else path
  }

  /** The caller information `file:line|function`. */
  function CallerInfo(f: Frame): (s: string)
    ensures |s| > |FileOf(f.file)| && s[|FileOf(f.file)|] == ':'
  {
    FileOf(f.file) + ":" + Fmt.Decimal(f.line) + "|" + f.funcName
  }

  /** The parts of the caller information: the file part of the path, a
      colon, the decimal line (which reads back as the line by
      `Fmt.DecimalRoundTrip`), a bar and the function name, ending the
      text. */
  lemma CallerInfoFormat(f: Frame)
    ensures var s, n, m := CallerInfo(f), |FileOf(f.file)|, |f.funcName|;
      && n + 3 + m <= |s|
      && s[..n] == FileOf(f.file) && s[n] == ':'
      && s[n + 1..|s| - m - 1] == Fmt.Decimal(f.line)
      && s[|s| - m - 1] == '|' && s[|s| - m..] == f.funcName
  {
    Layout(FileOf(f.file), Fmt.Decimal(f.line), f.funcName);
  }

  /** Where the parts of `a:b|c` sit. */
  lemma Layout(a: string, b: string, c: string)
    ensures var s := a + ":" + b + "|" + c;
      && |s| == |a| + |b| + |c| + 2
      && s[..|a|] == a && s[|a|] == ':' && s[|a| + 1..|s| - |c| - 1] == b
      && s[|s| - |c| - 1] == '|' && s[|s| - |c|..] == c
  {
    var s := a + ":" + b + "|" + c;
    var front := a + ":" + b + "|";
    assert s == front + c;
    assert s[..|front|] == front && s[|front|..] == c;
    assert front[..|a| + 1 + |b|] == a + ":" + b;
    assert s[|a| + 1..|s| - |c| - 1] == (a + ":" + b)[|a| + 1..];
  }

  /** One `addTrace` step on a trace string. */
  function AppendTrace(trace: string, info: string): string
  {
    if trace == "" then info else trace + Sep + info
  }

  /** The trace after `addTrace` with each of `infos` in turn, from an
      empty trace. */
  function TraceOf(infos: seq<string>): string
  {
    if infos == [] then "" else AppendTrace(TraceOf(infos[..|infos| - 1]), infos[|infos| - 1])
  }

  /** `strings.Join(infos, Sep)`. */
  function Join(infos: seq<string>): string
  {
    if infos == [] then ""
    else if |infos| == 1 then infos[0]
    else infos[0] + Sep + Join(infos[1..])
  }

  lemma {:induction false} JoinSnoc(infos: seq<string>, x: string)
    requires infos != []
    ensures Join(infos + [x]) == Join(infos) + Sep + x
  {
    if |infos| == 1 {
      assert (infos + [x])[1..] == [x];
    } else {
      assert (infos + [x])[1..] == infos[1..] + [x];
      JoinSnoc(infos[1..], x);
    }
  }

  lemma {:induction false} JoinNonEmpty(infos: seq<string>)
    requires infos != [] && infos[0] != ""
    ensures Join(infos) != ""
  {
    if |infos| > 1 {
      assert |Join(infos)| >= |infos[0]|;
    }
  }

  /** After n `addTrace` calls with non-empty caller infos, the trace is the
      infos joined by the separator, in call order. */
  lemma {:induction false} TraceJoins(infos: seq<string>)
    requires forall k :: 0 <= k < |infos| ==> infos[k] != ""
    ensures TraceOf(infos) == Join(infos)
  {
    if infos != [] {
      var init := infos[..|infos| - 1];
      var x := infos[|infos| - 1];
      TraceJoins(init);
      assert infos == init + [x];
      if init != [] {
        JoinNonEmpty(init);
        JoinSnoc(init, x);
      }
    }
  }

  /** `addTrace`: appends the caller information to the receiver's trace in
      place; nothing else about the error changes. */
  method AddTrace(e: ErrorX, caller: Frame)
    modifies e
    ensures e.trace == AppendTrace(old(e.trace), CallerInfo(caller))
    ensures e.message == old(e.message) && e.code == old(e.code) && e.typ == old(e.typ)
    ensures e.details == old(e.details)
  {
    var _, filename := PathSplit(caller.file);
    assert filename == FileOf(caller.file);
    var callerInfo := filename + ":" + Fmt.Decimal(caller.line) + "|" + caller.funcName;
    if e.trace == "" {
      e.trace := callerInfo;
    } else {
      e.trace := e.trace + Sep + callerInfo;
    }
  }

  /** The errors `Wrap` turns into a fresh copy of a default: neither an
      ErrorX, nor no-rows, nor a status carrying an ErrorX detail. */
  predicate Copied(err: Error)
  {
    !err.Nil? && !err.X? && !ClassifyPg(err).PgNoRows? && !(err.Status? && FirstProto(err.st.details).Some?)
  }

  /** Which default such an error is copied from, and the details the copy
      carries. */
  datatype CopyPlan = CopyPlan(base: ErrorX, details: map<string, string>)

  /** A Postgres conflict copies ErrConflict with the constraint name; a
      status copies the default of its code's type with the status details;
      anything else copies ErrInternal with the error's text. */
  function PlanFor(err: Error, d: Defaults): CopyPlan
    requires Copied(err)
    reads Objs(err)
  {
    if ClassifyPg(err).PgConflict? then CopyPlan(d.errConflict, map["constraint" := ClassifyPg(err).constraint])
    else if err.Status? then CopyPlan(d.ForType(TypeForGrpcCode(err.st.code)), GrpcCodeDetails(err.st))
    else CopyPlan(d.errInternal, map["error" := Message(err)])
  }

  /** The conversion half of `Wrap`: `fromPG`, then `fromGRPC`, then a copy
      of ErrInternal carrying the error's message when the result is still
      not an ErrorX. No existing object changes; every new ErrorX is fresh. */
  method Convert(err: Error, d: Defaults) returns (e: ErrorX)
    requires d.Valid() && !err.Nil?
    ensures err.X? ==> e == err.x
    ensures ClassifyPg(err).PgNoRows? ==> e == d.errNotFound
    ensures err.Status? && FirstProto(err.st.details).Some? ==>
      var pb := FirstProto(err.st.details).value;
      && fresh(e) && fresh(e.origin) && e.message == pb.message && e.code == pb.code
      && e.typ == Int8(pb.typ) && DetailsOf(e) == pb.details && e.trace == ""
    ensures Copied(err) ==> fresh(e) && CopyWith(e, PlanFor(err, d).base, PlanFor(err, d).details)
  {
    ObjsAllocated(err);
    var converted := FromPG(err, d);
    converted := FromGRPC(converted, d);
    if converted.X? {
      e := converted.x;
    } else {
      assert converted == err;
      e := d.errInternal.WithDetail("error", Message(converted));
    }
  }

  /** `Wrap`: nil stays nil; any other error is converted and gets the
      caller appended to its trace. The trace is appended in place: a shared
      default (ErrNotFound for no-rows, or a default passed in directly) has
      its own trace extended. */
  method Wrap(err: Error, d: Defaults, caller: Frame) returns (r: Error)
    requires d.Valid()
    modifies if err.X? then {err.x} else if ClassifyPg(err).PgNoRows? then {d.errNotFound} else {}
    ensures d.Valid()
    ensures r.Nil? <==> err.Nil?
    ensures !err.Nil? ==> r.X?
    ensures err.X? ==> r == err && err.x.trace == AppendTrace(old(err.x.trace), CallerInfo(caller))
    ensures err.X? ==> && err.x.message == old(err.x.message) && err.x.code == old(err.x.code)
                       && err.x.typ == old(err.x.typ) && err.x.details == old(err.x.details)
    ensures !ClassifyPg(err).PgNoRows? && !(err.X? && err.x == d.errNotFound) ==> unchanged(d.errNotFound)
    ensures ClassifyPg(err).PgNoRows? ==>
      r == X(d.errNotFound) && d.errNotFound.trace == AppendTrace(old(d.errNotFound.trace), CallerInfo(caller))
    ensures err.Status? && FirstProto(err.st.details).Some? ==>
      var pb := FirstProto(err.st.details).value;
      && fresh(r.x) && fresh(r.x.origin) && r.x.message == pb.message && r.x.code == pb.code
      && r.x.typ == Int8(pb.typ) && DetailsOf(r.x) == pb.details && r.x.trace == CallerInfo(caller)
    ensures Copied(err) ==>
      var plan := old(PlanFor(err, d));
      && fresh(r.x) && Like(r.x, plan.base, plan.details)
      && r.x.trace == AppendTrace(old(plan.base.trace), CallerInfo(caller))
  {
    if err.Nil? {
      return Nil;
    }
    ObjsAllocated(err);
    var e := Convert(err, d);
    assert d.Valid();
    label converted:
    AddTrace(e, caller);
    assert DetailsOf(e) == old@converted(DetailsOf(e));
    return X(e);
  }
}
