/** The wrapping decisions of the promise shim: which then/catch handlers
    get instrumented, when the promise a then-method returns is linked to
    its source, what an instrumented handler does on entry, and when the
    constructor and executor-caller hooks take over running the executor.

    JavaScript functions become `Callable` values: not a function at all, or
    a function with an identity and a mark telling whether the shim already
    wrapped it. Promises, segments and transactions are the ids of
    `PromiseContext`; "is an instance of the library's promise class" is an
    explicit argument. */
module PromiseShim {
  import opened Wrappers
  import opened JsValue
  import opened PromiseContext

  datatype Callable = NotAFunction | Function(id: nat, wrapped: bool)

  /** `shim.isWrapped(fn)`: a function the shim has already wrapped. */
  predicate ShimIsWrapped(f: Callable) {
    f.Function? && f.wrapped
  }

  /** The module-level `isWrapped(shim, fn)`: true for anything that is not a
      function, and for a function the shim already wrapped. */
  predicate AlreadyWrapped(f: Callable) {
    !f.Function? || ShimIsWrapped(f)
  }

  /** Wrapping `fn` with `shim.wrap`: declined when `isWrapped(shim, fn)`,
      otherwise a new function that the shim marks as its own. */
  function Wrap(f: Callable, wrapperId: nat): (r: Option<Callable>)
    ensures r.Some? <==> !AlreadyWrapped(f)
    ensures r.Some? ==> r.value.Function? && ShimIsWrapped(r.value)
    ensures r.Some? ==> r.value != f && AlreadyWrapped(r.value)
  {
    if AlreadyWrapped(f) then None else Some(Function(wrapperId, true))
  }

  /** Wrapping is never stacked: the wrapper itself is declined. */
  lemma WrapOnce(f: Callable, wrapperId: nat, otherId: nat)
    requires Wrap(f, wrapperId).Some?
    ensures Wrap(Wrap(f, wrapperId).value, otherId).None?
  {
  }

  /** Instrumenting the same function over and over, as happens when a
      module is wrapped again: what the property holds afterwards, and how
      many attempts produced a wrapper. A declined attempt leaves the
      property as it was. */
  function WrapSeveral(f: Callable, ids: seq<nat>): (r: (Callable, nat))
    ensures r.1 <= 1
    ensures r.1 == 1 <==> |ids| > 0 && !AlreadyWrapped(f)
    ensures r.1 == 0 ==> r.0 == f
    ensures r.1 == 1 ==> r.0 == Function(ids[0], true)
    decreases |ids|
  {
    if |ids| == 0 then (f, 0)
    else match Wrap(f, ids[0])
      case None => WrapSeveral(f, ids[1..])
      case Some(g) =>
        var (h, n) := WrapSeveral(g, ids[1..]);
        (h, n + 1)
  }

  // --------------------------------------------------------- then handlers

  /** `wrapHandler`'s test: the argument at `index` of `argsLength` is
      instrumented when it is an unwrapped function and either every
      argument is a handler (`then`) or it is the last one (`catch`, whose
      leading arguments may be error-class filters). */
  predicate HandlerEligible(h: Callable, index: nat, argsLength: nat, useAllParams: bool) {
    !AlreadyWrapped(h) && (useAllParams || index == argsLength - 1)
  }

  /** An argument as handed on to the library's then-method. */
  datatype Handler = Unchanged(f: Callable) | Instrumented(f: Callable)

  /** `ctx.isWrapped` once every argument went through `wrapHandler`: each
      argument that is not instrumented overwrites the flag with
      `shim.isWrapped` of itself, so the flag is set exactly when the LAST
      such argument is a function the shim already wrapped. */
  predicate LinkBlocked(args: seq<Callable>, useAllParams: bool) {
    exists j :: 0 <= j < |args| && !HandlerEligible(args[j], j, |args|, useAllParams) && ShimIsWrapped(args[j]) &&
      forall k :: j < k < |args| ==> HandlerEligible(args[k], k, |args|, useAllParams)
  }

  /** The argument loop of `_wrapThen`: wrap each eligible handler and keep
      `ctx.isWrapped` as `wrapHandler` leaves it. */
  method WrapHandlers(args: seq<Callable>, useAllParams: bool) returns (handlers: seq<Handler>, isWrapped: bool)
    ensures |handlers| == |args|
    ensures forall i :: 0 <= i < |args| ==> handlers[i].f == args[i]
    ensures forall i :: 0 <= i < |args| ==>
              (handlers[i].Instrumented? <==> HandlerEligible(args[i], i, |args|, useAllParams))
    ensures isWrapped <==> LinkBlocked(args, useAllParams)
  {
    var n := |args|;
    handlers := [];
    isWrapped := false;
    var i := 0;
    while i < n
      invariant 0 <= i <= n
      invariant |handlers| == i
      invariant forall m :: 0 <= m < i ==> handlers[m].f == args[m]
      invariant forall m :: 0 <= m < i ==> (handlers[m].Instrumented? <==> HandlerEligible(args[m], m, n, useAllParams))
      invariant isWrapped <==>
                  exists j :: 0 <= j < i && !HandlerEligible(args[j], j, n, useAllParams) && ShimIsWrapped(args[j]) &&
                    forall k :: j < k < i ==> HandlerEligible(args[k], k, n, useAllParams)
    {
      if HandlerEligible(args[i], i, n, useAllParams) {
        handlers := handlers + [Instrumented(args[i])];
      } else {
        isWrapped := ShimIsWrapped(args[i]);
        handlers := handlers + [Unchanged(args[i])];
        if isWrapped {
          assert !HandlerEligible(args[i], i, n, useAllParams) && ShimIsWrapped(args[i]);
        } else {
          forall j | 0 <= j < i + 1 && !HandlerEligible(args[j], j, n, useAllParams) && ShimIsWrapped(args[j])
            ensures exists k :: j < k < i + 1 && !HandlerEligible(args[k], k, n, useAllParams)
          {
            assert j != i;
          }
        }
      }
      i := i + 1;
    }
  }

  /** Whatever came before, a trailing argument that is not a function
      (`then(wrapped, undefined)`) never lets the link be blocked: it is not
      instrumented, and it overwrites the flag with `false`. */
  lemma TrailingNonFunctionClearsFlag(args: seq<Callable>, useAllParams: bool)
    ensures !LinkBlocked(args + [NotAFunction], useAllParams)
  {
    var all := args + [NotAFunction];
    var last := |all| - 1;
    assert !HandlerEligible(all[last], last, |all|, useAllParams) && !ShimIsWrapped(all[last]);
    forall j | 0 <= j < |all| && !HandlerEligible(all[j], j, |all|, useAllParams) && ShimIsWrapped(all[j])
      ensures exists k :: j < k < |all| && !HandlerEligible(all[k], k, |all|, useAllParams)
    {
      assert j != last;
    }
  }

  /** A handler the shim wrapped earlier in last position blocks the link. */
  lemma WrappedLastHandlerBlocks(args: seq<Callable>, useAllParams: bool)
    requires |args| > 0 && ShimIsWrapped(args[|args| - 1])
    ensures LinkBlocked(args, useAllParams)
  {
    assert !HandlerEligible(args[|args| - 1], |args| - 1, |args|, useAllParams);
  }

  /** Without any handler the shim wrapped earlier the link is never blocked. */
  lemma NoWrappedHandlerNoBlock(args: seq<Callable>, useAllParams: bool)
    requires forall i :: 0 <= i < |args| ==> !ShimIsWrapped(args[i])
    ensures !LinkBlocked(args, useAllParams)
  {
  }

  /** The guard before `link` in `_wrapThen`: no handler was already
      wrapped, the result is a promise of the library's class, and it is not
      the source promise itself. */
  predicate ThenLinks(isWrapped: bool, result: Option<PromiseId>, source: PromiseId) {
    !isWrapped && result.Some? && result.value != source
  }

  /** `__NR_wrappedThen`. `isInstance` says whether `this` is a promise of
      the library's class; `result` is what the original then-method
      returns when it is such a promise (`None` for anything else). */
  method WrappedThen(a: Arena, promise: PromiseId, isInstance: bool, args: seq<Callable>, useAllParams: bool,
                     result: Option<PromiseId>, thenSegment: Option<SegmentId>, transaction: Option<TransactionId>,
                     active: set<TransactionId>)
    returns (b: Arena, handlers: seq<Handler>, linked: bool)
    requires Valid(a)
    ensures Valid(b)
    ensures |handlers| == |args| && forall i :: 0 <= i < |args| ==> handlers[i].f == args[i]
    ensures !isInstance ==> forall i :: 0 <= i < |args| ==> handlers[i].Unchanged?
    ensures isInstance ==> forall i :: 0 <= i < |args| ==>
              (handlers[i].Instrumented? <==> HandlerEligible(args[i], i, |args|, useAllParams))
    ensures linked <==> isInstance && !LinkBlocked(args, useAllParams) && result.Some? && result.value != promise
    ensures !linked ==> b == a
    ensures linked && (LiveNode(a, Some(promise), active).Some? || thenSegment.Some?) ==>
              result.value in b.attached && b.attached[result.value] == |a.nodes| == |b.nodes| - 1
    ensures linked && LiveNode(a, Some(promise), active).Some? ==>
              |b.nodes| == |a.nodes| + 1 &&
              Resolve(b, |a.nodes|) == InheritedSegment(b, LiveNode(a, Some(promise), active).value)
    ensures linked && LiveNode(a, Some(promise), active).None? && thenSegment.Some? ==>
              |b.nodes| == |a.nodes| + 1 && Resolve(b, |a.nodes|) == thenSegment
    ensures linked && LiveNode(a, Some(promise), active).None? && thenSegment.None? ==>
              b == a.(attached := a.attached - Discarded(a, Some(promise), active))
  {
    if !isInstance {
      handlers := seq(|args|, i requires 0 <= i < |args| => Unchanged(args[i]));
      return a, handlers, false;
    }
    var isWrapped;
    handlers, isWrapped := WrapHandlers(args, useAllParams);
    linked := ThenLinks(isWrapped, result, promise);
    b := a;
    if linked {
      b := Link(a, Some(promise), result.value, thenSegment, transaction, active);
    }
  }

  // ------------------------------------------------------ handler entry

  /** What an instrumented handler runs under: nothing (the result promise
      carries no contextualizer, so the handler is called plainly), or the
      segment and transaction it enters. */
  datatype Entry = Plain | Entered(segment: Option<SegmentId>, transaction: Option<TransactionId>)

  /** `__NR_wrappedThenHandler` up to calling the handler: read the result
      promise's segment (memoising it), fall back to the shim's current
      segment and store that, then enter the segment with the context's
      transaction. */
  function EnterHandler(a: Arena, handlerPromise: Option<PromiseId>, shimSegment: Option<SegmentId>): (r: (Arena, Entry))
    requires Valid(a)
    ensures Valid(r.0)
    ensures r.0.nodes == a.nodes && r.0.attached == a.attached
    ensures r.1.Plain? <==> handlerPromise.None? || handlerPromise.value !in a.attached
    ensures r.1.Plain? ==> r.0 == a
    ensures r.1.Entered? ==>
              var n := a.attached[handlerPromise.value];
              && r.1.segment == (if Resolve(a, n).Some? then Resolve(a, n) else shimSegment)
              && r.1.transaction == TransactionOf(a, n)
              && SlotsOf(r.0, n)[a.nodes[n].idx] == r.1.segment
  {
    if handlerPromise.None? || handlerPromise.value !in a.attached then (a, Plain)
    else
      var n := a.attached[handlerPromise.value];
      var (a1, promSegment) := GetSegment(a, n);
      GetSegmentResolves(a, n);
      var segment := if promSegment.Some? then promSegment else shimSegment;
      var a2 := if segment.Some? && segment != promSegment then SetSegment(a1, n, segment) else a1;
      (a2, Entered(if segment.Some? && segment != promSegment then segment else promSegment, TransactionOf(a2, n)))
  }

  /** Entering a handler a second time, under the same current segment,
      enters the same segment and changes nothing further. */
  lemma EnterHandlerStable(a: Arena, handlerPromise: Option<PromiseId>, shimSegment: Option<SegmentId>)
    requires Valid(a)
    ensures var (a1, e1) := EnterHandler(a, handlerPromise, shimSegment);
            EnterHandler(a1, handlerPromise, shimSegment) == (a1, e1)
  {
    var (a1, e1) := EnterHandler(a, handlerPromise, shimSegment);
    if e1.Entered? {
      var n := a.attached[handlerPromise.value];
      assert InRange(a1.contexts, a1.nodes[n]);
      if e1.segment.Some? {
        assert GetSegment(a1, n) == (a1, e1.segment);
      } else {
        GetSegmentIdempotent(a, n);
        assert GetSegment(a1, n) == (a1, None);
      }
    }
  }

  // ------------------------------------------- constructor and executor

  /** How the real executor ends when the shim runs it. */
  datatype ExecutorOutcome = Returned | Threw(error: Value)

  /** A rejection issued through the captured, wrapped `reject`: it touches
      the promise's segment (when the promise has one) and rejects with the
      thrown value. */
  datatype Rejection = Rejection(reason: Value, touched: Option<SegmentId>)

  /** Who ran the executor: the library (the hooks stood aside), or the
      shim, possibly rejecting the promise. */
  datatype ExecutorRun = LeftToLibrary | RunByShim(rejection: Option<Rejection>)

  /** `wrapConstructor`'s pre-hook takes over the executor only for exactly
      one function argument while a segment is active. */
  predicate ConstructorEngages(args: seq<Callable>, activeSegment: Option<SegmentId>) {
    |args| == 1 && args[0].Function? && activeSegment.Some?
  }

  /** `_wrapResolver` around `reject`: touch the promise's segment, then
      reject. */
  function WrappedReject(a: Arena, promise: PromiseId, reason: Value): (r: (Arena, Rejection))
    requires Valid(a)
    ensures Valid(r.0) && r.0.nodes == a.nodes && r.0.attached == a.attached
    ensures r.1.reason == reason
    ensures r.1.touched == (if promise in a.attached then Resolve(a, a.attached[promise]) else None)
  {
    if promise in a.attached then
      var (a1, s) := GetSegment(a, a.attached[promise]);
      GetSegmentResolves(a, a.attached[promise]);
      (a1, Rejection(reason, s))
    else (a, Rejection(reason, None))
  }

  /** The try/catch around the executor in both hooks. */
  function RunExecutor(a: Arena, promise: PromiseId, outcome: ExecutorOutcome): (r: (Arena, Option<Rejection>))
    requires Valid(a)
    ensures Valid(r.0) && r.0.nodes == a.nodes && r.0.attached == a.attached
    ensures r.1.Some? <==> outcome.Threw?
    ensures outcome.Threw? ==> r.1.value.reason == outcome.error
    ensures outcome.Returned? ==> r.0 == a
  {
    match outcome
    case Returned => (a, None)
    case Threw(e) =>
      var (a1, rej) := WrappedReject(a, promise, e);
      (a1, Some(rej))
  }

  /** `wrapConstructor`: the pre-hook swaps the executor for one that
      captures `resolve`/`reject`; the post-hook, finding the capture, roots
      the new promise at the current segment and runs the real executor,
      turning a synchronous throw into a rejection. */
  method Construct(a: Arena, promise: PromiseId, args: seq<Callable>, activeSegment: Option<SegmentId>,
                   currentSegment: Option<SegmentId>, transaction: Option<TransactionId>,
                   active: set<TransactionId>, outcome: ExecutorOutcome)
    returns (b: Arena, run: ExecutorRun)
    requires Valid(a)
    ensures Valid(b)
    ensures run.RunByShim? <==> ConstructorEngages(args, activeSegment)
    ensures run.LeftToLibrary? ==> b == a
    ensures run.RunByShim? ==> (run.rejection.Some? <==> outcome.Threw?)
    ensures run.RunByShim? && outcome.Threw? ==> run.rejection.value.reason == outcome.error
    ensures run.RunByShim? && currentSegment.Some? ==>
              promise in b.attached && b.attached[promise] == |a.nodes| && Resolve(b, |a.nodes|) == currentSegment
    ensures run.RunByShim? && currentSegment.Some? && outcome.Threw? ==>
              run.rejection.value.touched == currentSegment
  {
    if !ConstructorEngages(args, activeSegment) {
      return a, LeftToLibrary;
    }
    var a1 := Link(a, None, promise, currentSegment, transaction, active);
    var r := RunExecutor(a1, promise, outcome);
    b, run := r.0, RunByShim(r.1);
  }

  /** `wrappedExecutorCaller`: with a receiver and an active segment, the
      promise is rooted at that segment unless it already carries a
      contextualizer; the library's caller then runs with the capturing
      executor, and the shim runs the real one, turning a synchronous throw
      into a rejection. */
  method CallExecutor(a: Arena, promise: Option<PromiseId>, activeSegment: Option<SegmentId>,
                      transaction: Option<TransactionId>, active: set<TransactionId>, outcome: ExecutorOutcome)
    returns (b: Arena, run: ExecutorRun)
    requires Valid(a)
    ensures Valid(b)
    ensures run.RunByShim? <==> promise.Some? && activeSegment.Some?
    ensures run.LeftToLibrary? ==> b == a
    ensures run.RunByShim? ==> (run.rejection.Some? <==> outcome.Threw?)
    ensures run.RunByShim? && outcome.Threw? ==> run.rejection.value.reason == outcome.error
    ensures run.RunByShim? ==> promise.value in b.attached
    ensures run.RunByShim? && promise.value in a.attached ==> b.nodes == a.nodes && b.attached == a.attached
    ensures run.RunByShim? && promise.value !in a.attached ==>
              b.attached[promise.value] == |a.nodes| && Resolve(b, |a.nodes|) == activeSegment
  {
    if promise.None? || activeSegment.None? {
      return a, LeftToLibrary;
    }
    var a1 := a;
    if promise.value !in a.attached {
      a1 := Link(a, None, promise.value, activeSegment, transaction, active);
    }
    var r := RunExecutor(a1, promise.value, outcome);
    b, run := r.0, RunByShim(r.1);
  }
}
