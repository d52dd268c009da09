/** The Kafka subscriber of pkg/pskafka/consumer.go: topic registration,
    global interceptors, the composition of interceptors around a handler,
    and the per-topic fetch-and-handle loop. Interceptors and handlers are
    values whose behaviour `Run` gives; a run yields a call trace and the
    error the composed handler returns. */
module Kafka {
  import opened Wrappers

  /** A fetched message; the broker metadata is opaque here. */
  datatype Message = Message(topic: string, key: string, value: string, offset: int)

  /** A handler: it returns the error listed for a message, nil otherwise. */
  datatype Handler = Handler(name: string, errors: map<Message, string>)

  /** The error a handler returns for a message. */
  function HandlerResult(h: Handler, m: Message): Option<string>
  {
    if m in h.errors then Some(h.errors[m]) else None
  }

  /** The three interceptor behaviours: call next once and pass its error
      on; never call next and return a fixed result; call next once and
      then return an error of its own. */
  datatype Interceptor =
    | PassThrough(name: string)
    | ShortCircuit(name: string, result: Option<string>)
    | FailAfter(name: string, err: string)

  /** The call log a run leaves: an interceptor logs on entry and on exit,
      the handler logs the message it handled. */
  datatype Event = Before(name: string) | After(name: string) | Handled(name: string, msg: Message)

  /** A composed `HandleFunc`: the handler itself, or an interceptor around
      the rest of the chain. */
  datatype Chain = Terminal(handler: Handler) | Layer(interceptor: Interceptor, next: Chain)

  /** A subscription: topic, handler and local interceptors. */
  datatype Subscriber = Subscriber(topic: string, handler: Handler, localInterceptors: seq<Interceptor>)

  /** `ics[0]` outermost, `inner` innermost. */
  function WrapAll(ics: seq<Interceptor>, inner: Chain): Chain
  {
    if ics == [] then inner else Layer(ics[0], WrapAll(ics[1..], inner))
  }

  /** The handler `chainInterceptors` builds: `G0(G1(...(L0(...Lm-1(H)))))`,
      the first global outermost and the handler innermost. */
  function Compose(globals: seq<Interceptor>, locals: seq<Interceptor>, h: Handler): Chain
  {
    WrapAll(globals + locals, Terminal(h))
  }

  lemma {:induction false} WrapAllAppend(a: seq<Interceptor>, b: seq<Interceptor>, inner: Chain)
    ensures WrapAll(a + b, inner) == WrapAll(a, WrapAll(b, inner))
  {
    if a == [] {
      assert a + b == b;
    } else {
      assert (a + b)[1..] == a[1..] + b;
      WrapAllAppend(a[1..], b, inner);
    }
  }

  /** One more interceptor wrapped around the chain of the later ones. */
  lemma WrapAllStep(ics: seq<Interceptor>, i: nat, inner: Chain)
    requires i < |ics|
    ensures Layer(ics[i], WrapAll(ics[i + 1..], inner)) == WrapAll(ics[i..], inner)
  {
    assert ics[i..][1..] == ics[i + 1..];
  }

  datatype RunResult = RunResult(trace: seq<Event>, err: Option<string>)

  /** Calling a composed handler on one message. */
  function Run(ch: Chain, m: Message): RunResult
  {
    match ch
    case Terminal(h) => RunResult([Handled(h.name, m)], HandlerResult(h, m))
    case Layer(i, next) =>
      match i
      case PassThrough(n) =>
        var r := Run(next, m);
        RunResult([Before(n)] + r.trace + [After(n)], r.err)
      case ShortCircuit(n, res) => RunResult([Before(n), After(n)], res)
      case FailAfter(n, e) =>
        var r := Run(next, m);
        RunResult([Before(n)] + r.trace + [After(n)], Some(e))
  }

  function Names(ics: seq<Interceptor>): seq<string>
  {
    if ics == [] then [] else [ics[0].name] + Names(ics[1..])
  }

  /** The entry log of a list of interceptors, first to last. */
  function Entries(ics: seq<Interceptor>): seq<Event>
  {
    if ics == [] then [] else [Before(ics[0].name)] + Entries(ics[1..])
  }

  /** The exit log of a list of interceptors, last to first. */
  function Exits(ics: seq<Interceptor>): seq<Event>
  {
    if ics == [] then [] else Exits(ics[1..]) + [After(ics[0].name)]
  }

  /** Entries are in list order and exits in exactly the reverse order. */
  lemma {:induction false} EntriesExitsAt(ics: seq<Interceptor>, k: nat)
    requires k < |ics|
    ensures |Entries(ics)| == |ics| && Entries(ics)[k] == Before(ics[k].name)
    ensures |Exits(ics)| == |ics| && Exits(ics)[k] == After(ics[|ics| - 1 - k].name)
  {
    if k > 0 {
      EntriesExitsAt(ics[1..], k - 1);
    }
    if |ics| > 1 {
      EntriesExitsAt(ics[1..], if k < |ics| - 1 then k else 0);
    }
  }

  predicate AllPassThrough(ics: seq<Interceptor>)
  {
    forall k :: 0 <= k < |ics| ==> ics[k].PassThrough?
  }

  /** When every interceptor calls next once, the entries run in list order
      down to the handler and the exits in the reverse order; the handler's
      error is what the chain returns. */
  lemma {:induction false} OnionOrder(ics: seq<Interceptor>, h: Handler, m: Message)
    requires AllPassThrough(ics)
    ensures Run(WrapAll(ics, Terminal(h)), m).trace == Entries(ics) + [Handled(h.name, m)] + Exits(ics)
    ensures Run(WrapAll(ics, Terminal(h)), m).err == HandlerResult(h, m)
  {
    if ics != [] {
      OnionOrder(ics[1..], h, m);
      var inner := Run(WrapAll(ics[1..], Terminal(h)), m);
      assert Run(WrapAll(ics, Terminal(h)), m).trace == [Before(ics[0].name)] + inner.trace + [After(ics[0].name)];
    }
  }

  lemma {:induction false} EntriesExitsAppend(a: seq<Interceptor>, b: seq<Interceptor>)
    ensures Entries(a + b) == Entries(a) + Entries(b)
    ensures Exits(a + b) == Exits(b) + Exits(a)
  {
    if a == [] {
      assert a + b == b;
    } else {
      assert (a + b)[1..] == a[1..] + b;
      EntriesExitsAppend(a[1..], b);
    }
  }

  /** Global interceptors run outside local ones: with globals and locals
      all passing through, the entries are the globals, then the locals,
      then the handler, and the exits the exact reverse. */
  lemma GlobalsOutsideLocals(globals: seq<Interceptor>, locals: seq<Interceptor>, h: Handler, m: Message)
    requires AllPassThrough(globals) && AllPassThrough(locals)
    ensures Run(Compose(globals, locals, h), m).trace ==
      Entries(globals) + Entries(locals) + [Handled(h.name, m)] + Exits(locals) + Exits(globals)
  {
    assert AllPassThrough(globals + locals);
    OnionOrder(globals + locals, h, m);
    EntriesExitsAppend(globals, locals);
  }

  /** Two global and two local interceptors: G0, G1, L0, L1, the handler,
      then L1, L0, G1, G0. */
  lemma TwoGlobalsTwoLocals(g0: string, g1: string, l0: string, l1: string, h: Handler, m: Message)
    ensures Run(Compose([PassThrough(g0), PassThrough(g1)], [PassThrough(l0), PassThrough(l1)], h), m).trace ==
      [Before(g0), Before(g1), Before(l0), Before(l1), Handled(h.name, m),
       After(l1), After(l0), After(g1), After(g0)]
  {
    var gs, ls := [PassThrough(g0), PassThrough(g1)], [PassThrough(l0), PassThrough(l1)];
    GlobalsOutsideLocals(gs, ls, h, m);
    PairLogs(g0, g1);
    PairLogs(l0, l1);
  }

  /** The logs of two pass-through interceptors. */
  lemma PairLogs(a: string, b: string)
    ensures Entries([PassThrough(a), PassThrough(b)]) == [Before(a), Before(b)]
    ensures Exits([PassThrough(a), PassThrough(b)]) == [After(b), After(a)]
  {
    var ics := [PassThrough(a), PassThrough(b)];
    var last := [PassThrough(b)];
    assert ics[1..] == last && last[1..] == [];
    assert Entries(last) == [Before(b)] && Exits(last) == [After(b)];
  }

  /** An interceptor that never calls next: neither the handler nor any
      interceptor inside it runs, so only the interceptors up to it log. */
  lemma {:induction false} ShortCircuitStopsInner(ics: seq<Interceptor>, j: nat, h: Handler, m: Message)
    requires j < |ics| && ics[j].ShortCircuit?
    ensures forall e :: e in Run(WrapAll(ics, Terminal(h)), m).trace ==>
      !e.Handled? && e.name in Names(ics[..j + 1])
  {
    if j > 0 {
      ShortCircuitStopsInner(ics[1..], j - 1, h, m);
      assert ics[1..][..j] == ics[1..j + 1];
      assert Names(ics[..j + 1]) == [ics[0].name] + Names(ics[1..j + 1]);
    } else {
      assert Names(ics[..1]) == [ics[0].name];
    }
  }

  /** By position: when `ics[j]` is the first interceptor that does not call
      next, the log is the entries of `ics[..j + 1]` in order followed by
      their exits in reverse order; nothing inside it runs. */
  lemma {:induction false} ShortCircuitTrace(ics: seq<Interceptor>, j: nat, h: Handler, m: Message)
    requires j < |ics| && ics[j].ShortCircuit?
    requires forall k :: 0 <= k < j ==> !ics[k].ShortCircuit?
    ensures Run(WrapAll(ics, Terminal(h)), m).trace == Entries(ics[..j + 1]) + Exits(ics[..j + 1])
  {
    var outer := ics[..j + 1];
    assert outer[1..] == ics[1..][..j];
    if j > 0 {
      ShortCircuitTrace(ics[1..], j - 1, h, m);
      var inner := Run(WrapAll(ics[1..], Terminal(h)), m).trace;
      assert Run(WrapAll(ics, Terminal(h)), m).trace == [Before(ics[0].name)] + inner + [After(ics[0].name)];
    } else {
      assert outer[1..] == [];
    }
  }

  /** The error the chain returns, stated independently: the outermost
      interceptor that does not simply pass the error on decides it; when
      all pass through, the handler does. */
  function Decider(ics: seq<Interceptor>, h: Handler, m: Message): Option<string>
  {
    if ics == [] then HandlerResult(h, m)
    else match ics[0]
      case PassThrough(_) => Decider(ics[1..], h, m)
      case ShortCircuit(_, res) => res
      case FailAfter(_, e) => Some(e)
  }

  lemma {:induction false} RunErrorIsDecider(ics: seq<Interceptor>, h: Handler, m: Message)
    ensures Run(WrapAll(ics, Terminal(h)), m).err == Decider(ics, h, m)
  {
    if ics != [] && ics[0].PassThrough? {
      RunErrorIsDecider(ics[1..], h, m);
    }
  }

  /** What one fetch yields: a message, a fetch error, or (checked before
      the fetch) the closed shutdown signal or the finished context. */
  datatype Fetch = ShutdownClosed | ContextDone | Fetched(msg: Message) | FetchError(err: string)

  /** Why a topic's loop ended; `Blocked` means the fetches given ran out
      while it still waits for the next message. */
  datatype StopReason =
    | StoppedByShutdown
    | StoppedByContext
    | FetchFailed(err: string)
    | HandlerFailed(msg: Message, err: string)
    | Blocked

  datatype LoopResult = LoopResult(handled: seq<Message>, trace: seq<Event>, stop: StopReason)

  /** Specification of the per-topic loop: messages one at a time in fetch
      order, stopping at the first fetch error or non-nil chain result. */
  function Loop(ch: Chain, fetches: seq<Fetch>): (r: LoopResult)
    ensures |r.handled| <= |fetches|
  {
    if fetches == [] then LoopResult([], [], Blocked)
    else match fetches[0]
      case ShutdownClosed => LoopResult([], [], StoppedByShutdown)
      case ContextDone => LoopResult([], [], StoppedByContext)
      case FetchError(e) => LoopResult([], [], FetchFailed(e))
      case Fetched(m) =>
        var one := Run(ch, m);
        if one.err.Some? then LoopResult([m], one.trace, HandlerFailed(m, one.err.value))
        else
          var rest := Loop(ch, fetches[1..]);
          LoopResult([m] + rest.handled, one.trace + rest.trace, rest.stop)
  }

  /** The loop handles exactly the first messages fetched, in fetch order,
      skipping none and handling none twice. */
  lemma {:induction false} LoopHandlesPrefixInOrder(ch: Chain, fetches: seq<Fetch>)
    ensures var r := Loop(ch, fetches);
      forall k :: 0 <= k < |r.handled| ==> fetches[k] == Fetched(r.handled[k])
  {
    if fetches != [] && fetches[0].Fetched? && Run(ch, fetches[0].msg).err.None? {
      LoopHandlesPrefixInOrder(ch, fetches[1..]);
    }
  }

  /** Every message but the last handled one succeeded, and a loop stopped
      by a handler stopped at its last message with that message's error. */
  lemma {:induction false} LoopStopsAtFirstFailure(ch: Chain, fetches: seq<Fetch>)
    ensures var r := Loop(ch, fetches);
      && (forall k :: 0 <= k < |r.handled| - 1 ==> Run(ch, r.handled[k]).err.None?)
      && (r.stop.HandlerFailed? <==> r.handled != [] && Run(ch, r.handled[|r.handled| - 1]).err.Some?)
      && (r.stop.HandlerFailed? ==> r.stop.msg == r.handled[|r.handled| - 1]
                                    && Run(ch, r.stop.msg).err == Some(r.stop.err))
  {
    if fetches != [] && fetches[0].Fetched? && Run(ch, fetches[0].msg).err.None? {
      LoopStopsAtFirstFailure(ch, fetches[1..]);
    }
  }

  /** Why the loop stopped where it did: a handler failure ends it on a
      handled message; otherwise it ran out of fetches exactly when it is
      blocked, and else the first fetch it did not handle names the reason
      (a closed shutdown signal, a cancelled context or a fetch error). */
  lemma {:induction false} LoopStopReason(ch: Chain, fetches: seq<Fetch>)
    ensures var r := Loop(ch, fetches); var n := |r.handled|;
      && n <= |fetches|
      && (forall k :: 0 <= k < n ==> fetches[k].Fetched?)
      && (r.stop.HandlerFailed? ==> n > 0)
      && (!r.stop.HandlerFailed? ==>
            && (r.stop.Blocked? <==> n == |fetches|)
            && (n < |fetches| ==>
                  && (fetches[n] == ShutdownClosed <==> r.stop == StoppedByShutdown)
                  && (fetches[n] == ContextDone <==> r.stop == StoppedByContext)
                  && (fetches[n].FetchError? <==> r.stop.FetchFailed?)
                  && (fetches[n].FetchError? ==> r.stop.err == fetches[n].err)))
  {
    if fetches != [] && fetches[0].Fetched? && Run(ch, fetches[0].msg).err.None? {
      LoopStopReason(ch, fetches[1..]);
      var rest := Loop(ch, fetches[1..]);
      assert forall k :: 1 <= k <= |rest.handled| ==> fetches[k] == fetches[1..][k - 1];
    }
  }

  class Consumer {
    var brokers: seq<string>
    var groupID: string
    var interceptors: seq<Interceptor>
    var subscribers: seq<Subscriber>
    /** Whether the `shutdown` channel has been closed. */
    var shutdownClosed: bool

    /** `NewConsumer`: no subscribers, no global interceptors, an open
        shutdown signal. */
    constructor (brokers: seq<string>, groupID: string)
      ensures this.brokers == brokers && this.groupID == groupID
      ensures interceptors == [] && subscribers == [] && !shutdownClosed
    {
      this.brokers := brokers;
      this.groupID := groupID;
      interceptors := [];
      subscribers := [];
      shutdownClosed := false;
    }

    /** `Subscribe`: appends a registration without local interceptors. */
    method Subscribe(topic: string, handler: Handler)
      modifies this
      ensures subscribers == old(subscribers) + [Subscriber(topic, handler, [])]
      ensures brokers == old(brokers) && groupID == old(groupID)
      ensures interceptors == old(interceptors) && shutdownClosed == old(shutdownClosed)
    {
      subscribers := subscribers + [Subscriber(topic, handler, [])];
    }

    /** `SubscribeWithInterceptors`: appends a registration with the given
        local interceptors. */
    method SubscribeWithInterceptors(topic: string, ics: seq<Interceptor>, handler: Handler)
      modifies this
      ensures subscribers == old(subscribers) + [Subscriber(topic, handler, ics)]
      ensures brokers == old(brokers) && groupID == old(groupID)
      ensures interceptors == old(interceptors) && shutdownClosed == old(shutdownClosed)
    {
      subscribers := subscribers + [Subscriber(topic, handler, ics)];
    }

    /** `Use`: appends global interceptors after the existing ones, in
        argument order. */
    method Use(ics: seq<Interceptor>)
      modifies this
      ensures interceptors == old(interceptors) + ics
      ensures brokers == old(brokers) && groupID == old(groupID)
      ensures subscribers == old(subscribers) && shutdownClosed == old(shutdownClosed)
    {
      interceptors := interceptors + ics;
    }

    /** `chainInterceptors`: wraps the handler in the local interceptors,
        last first, then in the global ones, last first; without any
        interceptor the chain is the handler itself. */
    method ChainInterceptors(sub: Subscriber) returns (chain: Chain)
      ensures chain == Compose(interceptors, sub.localInterceptors, sub.handler)
      ensures interceptors == [] && sub.localInterceptors == [] ==> chain == Terminal(sub.handler)
    {
      var locals := sub.localInterceptors;
      chain := Terminal(sub.handler);
      // n interceptors remain to be wrapped; the next is the one at n - 1.
      var n := |locals|;
      while n > 0
        invariant 0 <= n <= |locals|
        invariant chain == WrapAll(locals[n..], Terminal(sub.handler))
      {
        WrapAllStep(locals, n - 1, Terminal(sub.handler));
        chain := Layer(locals[n - 1], chain);
        n := n - 1;
      }
      assert locals[0..] == locals;
      var globals := interceptors;
      var inner := chain;
      n := |globals|;
      while n > 0
        invariant 0 <= n <= |globals|
        invariant chain == WrapAll(globals[n..], inner)
      {
        WrapAllStep(globals, n - 1, inner);
        chain := Layer(globals[n - 1], chain);
        n := n - 1;
      }
      assert globals[0..] == globals;
      WrapAllAppend(globals, locals, Terminal(sub.handler));
    }

    /** The sequential body of `consume` for one subscriber: before each
        fetch the shutdown signal and the context are checked; a fetched
        message runs through a freshly built chain; the loop ends at the
        first fetch error or handler error, without retry. A consumer whose
        signal is already closed stops before reading anything; a `Close`
        from elsewhere while the loop runs is a `ShutdownClosed` fetch. */
    method ConsumeLoop(sub: Subscriber, fetches: seq<Fetch>) returns (r: LoopResult)
      ensures shutdownClosed ==> r == LoopResult([], [], StoppedByShutdown)
      ensures !shutdownClosed ==> r == Loop(Compose(interceptors, sub.localInterceptors, sub.handler), fetches)
    {
      if shutdownClosed {
        return LoopResult([], [], StoppedByShutdown);
      }
      ghost var ch := Compose(interceptors, sub.localInterceptors, sub.handler);
      var handled: seq<Message> := [];
      var trace: seq<Event> := [];
      var i := 0;
      while i < |fetches|
        invariant 0 <= i <= |fetches|
        invariant Loop(ch, fetches) == (var rest := Loop(ch, fetches[i..]);
          LoopResult(handled + rest.handled, trace + rest.trace, rest.stop))
      {
        assert fetches[i..][0] == fetches[i] && fetches[i..][1..] == fetches[i + 1..];
        match fetches[i]
        case ShutdownClosed =>
          return LoopResult(handled, trace, StoppedByShutdown);
        case ContextDone =>
          return LoopResult(handled, trace, StoppedByContext);
        case FetchError(e) =>
          return LoopResult(handled, trace, FetchFailed(e));
        case Fetched(m) =>
          var chain := ChainInterceptors(sub);
          var one := Run(chain, m);
          handled := handled + [m];
          trace := trace + one.trace;
          if one.err.Some? {
            return LoopResult(handled, trace, HandlerFailed(m, one.err.value));
          }
        i := i + 1;
      }
      return LoopResult(handled, trace, Blocked);
    }

    /** `Close`: closes the shutdown signal; closing it a second time
        panics, which is reported as `panicked`. */
    method Close() returns (panicked: bool)
      modifies this
      ensures panicked == old(shutdownClosed)
      ensures shutdownClosed
      ensures brokers == old(brokers) && groupID == old(groupID)
      ensures interceptors == old(interceptors) && subscribers == old(subscribers)
    {
      panicked := shutdownClosed;
      shutdownClosed := true;
    }
  }
}
