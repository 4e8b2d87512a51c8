/** The decorators of `AspectExtensions` and the right fold that runs a list
    of them around the work. Each decorator is one wrapper `Action<Action>`:
    it receives "the rest of the chain" as its continuation, which here is the
    list `rest` of the layers inside it followed by the terminal continuation. */
module Aspects {
  import opened Model
  import opened CacheAside

  /** A handler `Retry` receives: the caller's delegate, whose calls are
      recorded in the trace, or the library's `DoNothing`. */
  datatype Callback = DoNothing | CallerSupplied

  /** One wrapper appended by a decorator call. The logger and cache passed to
      the decorator are the single trace and store of the state. */
  datatype Aspect =
    | Retry(duration: int, retryCount: int, errorHandler: Callback, retryFailed: Callback)
    | Delay(ms: int)
    | MustBeNonDefault(args: seq<Value>, zero: Value)  // zero: default(T)
    | MustBeNonNull(args: seq<Value>)
    | Until
    | While
    | WhenTrue(conditions: nat)
    | Log(categories: Option<seq<string>>, message: string)
    | LogAround(categories: Option<seq<string>>, before: string, after: string)
    | TrapLog
    | TrapLogThrow
    | Expected(exceptionClass: string)
    | Transaction
    | Cache(key: string)
    | CacheRetry(key: string)
    | CacheList(listKey: string, itemKey: KeyFunction)

  /** The innermost continuation: `Do` calls the caller's action; `Return`
      calls whatever delegate the slot holds when it runs and keeps its value
      in the return cell. */
  datatype Terminal = RunWork | ReadSlot

  function Finish(t: Terminal, s: State): (r: Step)
    ensures Follows(s, r.st)
    ensures r.st.tests == s.tests
    ensures t.ReadSlot? && s.slot.NoWork? ==> r == Step(Done, s)
    ensures t.ReadSlot? && s.slot.Const? ==> r == Step(Done, s.(ret := s.slot.v))
  {
    match t
    case RunWork =>
      var e := Eval(Source, s);
      Step(e.status, e.st)
    case ReadSlot =>
      if s.slot.NoWork? then Step(Done, s)
      else
        var e := Eval(s.slot, s);
        if e.status.Done? then Step(Done, e.st.(ret := e.value)) else Step(e.status, e.st)
  }

  /** Runs the layers `k`, outermost first, around the terminal continuation. */
  function Exec(k: seq<Aspect>, t: Terminal, s: State): (r: Step)
    ensures Follows(s, r.st)
    decreases |k|, 0, 0
  {
    if |k| == 0 then Finish(t, s)
    else
      var rest := k[1..];
      match k[0]
      case Retry(d, n, onError, onFail) => RetryLoop(rest, t, d, onError, onFail, if n > 0 then n else 0, [], s)
      case Delay(ms) => Exec(rest, t, Emit(s, Slept(ms)))
      case MustBeNonDefault(args, zero) => Guarded(FirstDefault(args, zero), rest, t, s)
      case MustBeNonNull(args) => Guarded(FirstDefault(args, Null), rest, t, s)
      case Until => UntilSpin(rest, t, s)
      case While => WhileLoop(rest, t, s)
      case WhenTrue(n) => WhenAll(n, rest, t, s)
      case Log(cats, msg) => Exec(rest, t, Emit(s, LogEvent(cats, msg)))
      case LogAround(cats, before, after) => LoggedAround(cats, before, after, rest, t, s)
      case TrapLog => Trapped(false, rest, t, s)
      case TrapLogThrow => Trapped(true, rest, t, s)
      case Expected(cls) => Tolerated(cls, rest, t, s)
      case Transaction => Transacted(rest, t, s)
      case Cache(key) => CacheAttempt(key, AsIs, rest, t, s)
      case CacheRetry(key) => CacheRetried(key, rest, t, s)
      case CacheList(listKey, itemKey) =>
        CacheAttempt(listKey, FromItems(itemKey), rest, t, s.(slot := StoreEach(s.slot, itemKey)))
  }

  /** What one caught failure leaves in the trace: `LogException`, then the
      error handler if the caller supplied one, then the sleep. */
  function Handled(e: Exn, duration: int, onError: Callback): (r: seq<Event>)
    ensures |r| == if onError.CallerSupplied? then 3 else 2
    ensures ErrorHandled(e) in r <==> onError.CallerSupplied?
  {
    [ExceptionLogged(e)] + (if onError.CallerSupplied? then [ErrorHandled(e)] else []) + [Slept(duration)]
  }

  /** The core `Retry(retryDuration, retryCount, errorHandler, retryFailed, work, logger)`
      loop; `left` is how many more attempts the `retryCount-- > 0` test allows,
      `errors` the failures collected so far. */
  function RetryLoop(rest: seq<Aspect>, t: Terminal, duration: int, onError: Callback, onFail: Callback,
                     left: nat, errors: seq<Exn>, s: State): (r: Step)
    ensures Follows(s, r.st)
    ensures !r.status.Thrown?
    decreases |rest|, 1, left
  {
    var a := Exec(rest, t, s);
    match a.status
    case Thrown(e) =>
      var s1 := EmitAll(a.st, Handled(e, duration, onError));
      if left == 0 then Step(Done, if onFail.CallerSupplied? then Emit(s1, AllFailed(errors + [e])) else s1)
      else RetryLoop(rest, t, duration, onError, onFail, left - 1, errors + [e], s1)
    case _ => a
  }

  /** `arg == null || arg.Equals(default(T))`; with `zero` null this is the
      null test of MustBeNonNull. */
  predicate IsDefault(v: Value, zero: Value) {
    v == Null || v == zero
  }

  /** The index the argument scan of MustBeNonNull / MustBeNonDefault stops at. */
  function FirstDefault(args: seq<Value>, zero: Value): (r: Option<nat>)
    ensures r.Some? ==> r.value < |args| && IsDefault(args[r.value], zero)
    ensures r.Some? ==> forall j :: 0 <= j < r.value ==> !IsDefault(args[j], zero)
    ensures r.None? ==> forall j :: 0 <= j < |args| ==> !IsDefault(args[j], zero)
  {
    if |args| == 0 then None
    else if IsDefault(args[0], zero) then Some(0)
    else
      match FirstDefault(args[1..], zero)
      case None => None
      case Some(i) => Some(i + 1)
  }

  /** Throws `ArgumentException` for the offending index, or runs the rest. */
  function Guarded(offending: Option<nat>, rest: seq<Aspect>, t: Terminal, s: State): (r: Step)
    ensures Follows(s, r.st)
    ensures offending.Some? ==> r == Step(Thrown(ArgumentError(offending.value)), s)
    decreases |rest|, 1, 0
  {
    match offending
    case Some(i) => Step(Thrown(ArgumentError(i)), s)
    case None => Exec(rest, t, s)
  }

  /** Consumes the next scripted predicate answer and records the evaluation. */
  function Test(s: State): (s': State)
    requires |s.tests| > 0
    ensures Follows(s, s') && |s'.tests| == |s.tests| - 1
  {
    s.(tests := s.tests[1..], trace := s.trace + [Evaluated(s.tests[0])])
  }

  /** `while (!test()) { }` followed by the continuation. */
  function UntilSpin(rest: seq<Aspect>, t: Terminal, s: State): (r: Step)
    ensures Follows(s, r.st)
    ensures |s.tests| > 0 ==> |r.st.trace| > |s.trace| && r.st.trace[|s.trace|] == Evaluated(s.tests[0])
    ensures true !in s.tests ==> r.status.Stuck?
    decreases |rest|, 1, |s.tests|
  {
    if |s.tests| == 0 then Step(Stuck, s)
    else if s.tests[0] then Exec(rest, t, Test(s))
    else UntilSpin(rest, t, Test(s))
  }

  /** `while (test()) work();` */
  function WhileLoop(rest: seq<Aspect>, t: Terminal, s: State): (r: Step)
    ensures Follows(s, r.st)
    ensures |s.tests| > 0 ==> |r.st.trace| > |s.trace| && r.st.trace[|s.trace|] == Evaluated(s.tests[0])
    ensures r.status.Done? ==> |r.st.trace| > 0 && r.st.trace[|r.st.trace| - 1] == Evaluated(false)
    decreases |rest|, 1, |s.tests|
  {
    if |s.tests| == 0 then Step(Stuck, s)
    else if !s.tests[0] then Step(Done, Test(s))
    else
      var a := Exec(rest, t, Test(s));
      if a.status.Done? then WhileLoop(rest, t, a.st) else a
  }

  /** `if (conditions.Any(c => !c())) return; work();` with `n` conditions
      still to evaluate, left to right. */
  function WhenAll(n: nat, rest: seq<Aspect>, t: Terminal, s: State): (r: Step)
    ensures Follows(s, r.st)
    ensures n > 0 && |s.tests| > 0 ==> |r.st.trace| > |s.trace| && r.st.trace[|s.trace|] == Evaluated(s.tests[0])
    ensures n > 0 && |s.tests| > 0 && !s.tests[0] ==> r.status.Done? && r.st.work == s.work
    decreases |rest|, 1, n
  {
    if n == 0 then Exec(rest, t, s)
    else if |s.tests| == 0 then Step(Stuck, s)
    else if !s.tests[0] then Step(Done, Test(s))
    else WhenAll(n - 1, rest, t, Test(s))
  }

  /** The before/after `Log`: there is no `finally`, so the after-message is
      logged only when the continuation returns normally. */
  function LoggedAround(cats: Option<seq<string>>, before: string, after: string,
                        rest: seq<Aspect>, t: Terminal, s: State): (r: Step)
    ensures Follows(s, r.st)
    ensures |r.st.trace| > |s.trace| && r.st.trace[|s.trace|] == LogEvent(cats, before)
    ensures r.status.Done? ==> r.st.trace[|r.st.trace| - 1] == LogEvent(cats, after)
    decreases |rest|, 1, 0
  {
    var a := Exec(rest, t, Emit(s, LogEvent(cats, before)));
    if a.status.Done? then Step(Done, Emit(a.st, LogEvent(cats, after))) else a
  }

  /** `TrapLog` (`rethrow` false) and `TrapLogThrow` (`rethrow` true). */
  function Trapped(rethrow: bool, rest: seq<Aspect>, t: Terminal, s: State): (r: Step)
    ensures Follows(s, r.st)
    ensures !rethrow ==> !r.status.Thrown?
    decreases |rest|, 1, 0
  {
    var a := Exec(rest, t, s);
    match a.status
    case Thrown(e) => Step(if rethrow then a.status else Done, Emit(a.st, ExceptionLogged(e)))
    case _ => a
  }

  /** `Expected<TException>`: `catch (TException)` swallows instances of the
      class and its subclasses; the debug output it writes is not modelled. */
  function Tolerated(cls: string, rest: seq<Aspect>, t: Terminal, s: State): (r: Step)
    ensures Follows(s, r.st)
    ensures r.status.Thrown? ==> !IsA(r.status.e, cls)
    decreases |rest|, 1, 0
  {
    var a := Exec(rest, t, s);
    if a.status.Thrown? && IsA(a.status.e, cls) then Step(Done, a.st) else a
  }

  /** `Transaction`: `scope.Complete()` is reached only after a normal return. */
  function Transacted(rest: seq<Aspect>, t: Terminal, s: State): (r: Step)
    ensures Follows(s, r.st)
    ensures r.status == Exec(rest, t, s).status
    ensures r.status.Done? ==> |r.st.trace| > 0 && r.st.trace[|r.st.trace| - 1] == TransactionCompleted
    decreases |rest|, 1, 0
  {
    var a := Exec(rest, t, s);
    if a.status.Done? then Step(Done, Emit(a.st, TransactionCompleted)) else a
  }

  /** The private `Cache` helper: the cache-aside fetch, then the continuation. */
  function CacheAttempt(key: string, shape: Shape, rest: seq<Aspect>, t: Terminal, s: State): (r: Step)
    ensures Follows(s, r.st)
    ensures |r.st.trace| > |s.trace| && r.st.trace[|s.trace|] == CacheGet(key)
    decreases |rest|, 1, 0
  {
    var f := Fetch(key, shape, s);
    if f.status.Done? then Exec(rest, t, f.st) else f
  }

  /** `CacheRetry`: one cache-aside attempt (continuation included); on failure
      log it, sleep 1000 ms and attempt once more; a second failure is logged
      and rethrown. */
  function CacheRetried(key: string, rest: seq<Aspect>, t: Terminal, s: State): (r: Step)
    ensures Follows(s, r.st)
    ensures |r.st.trace| > |s.trace| && r.st.trace[|s.trace|] == CacheGet(key)
    ensures r.status.Thrown? ==> r.st.trace[|r.st.trace| - 1] == ExceptionLogged(r.status.e)
    decreases |rest|, 2, 0
  {
    var a1 := CacheAttempt(key, AsIs, rest, t, s);
    match a1.status
    case Thrown(e1) =>
      var a2 := CacheAttempt(key, AsIs, rest, t, EmitAll(a1.st, [ExceptionLogged(e1), Slept(1000)]));
      (match a2.status
       case Thrown(e2) => Step(a2.status, Emit(a2.st, ExceptionLogged(e2)))
       case _ => a2)
    case _ => a1
  }
}
