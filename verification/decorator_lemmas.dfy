/** Properties of the individual decorators: attempt counts, the order of
    their effects, and how each one relates the chain it wraps to itself. */
module DecoratorLemmas {
  import opened Model
  import opened CacheAside
  import opened Aspects

  // ---------------------------------------------------------------- Retry

  /** The number of scripted outcomes before the first normal return. */
  function FirstSuccess(os: seq<Outcome>): (j: nat)
    ensures j <= |os|
    ensures forall i :: 0 <= i < j ==> os[i].Throws?
    ensures j < |os| ==> os[j].Returns?
  {
    if |os| == 0 || os[0].Returns? then 0 else 1 + FirstSuccess(os[1..])
  }

  /** What the failed attempts raising `es` leave in the trace, in order: each
      is the call of the work followed by what `Retry` does with the failure. */
  function FailureEvents(es: seq<Exn>, duration: int, onError: Callback): seq<Event> {
    if |es| == 0 then []
    else [WorkCalled] + Handled(es[0], duration, onError) + FailureEvents(es[1..], duration, onError)
  }

  /** A caught failure is logged first and slept on last, with the error
      handler's call, if any, between the two. */
  lemma HandledInOrder(e: Exn, duration: int, onError: Callback)
    ensures var es := Handled(e, duration, onError);
            && es[0] == ExceptionLogged(e) && es[|es| - 1] == Slept(duration)
            && (onError.CallerSupplied? ==> es[1] == ErrorHandled(e))
  {
  }

  /** The failure events never include a call of `retryFailed`. */
  lemma {:induction false} FailureEventsHaveNoReport(es: seq<Exn>, duration: int, onError: Callback)
    ensures forall i :: 0 <= i < |FailureEvents(es, duration, onError)| ==> !FailureEvents(es, duration, onError)[i].AllFailed?
    decreases |es|
  {
    if |es| > 0 {
      FailureEventsHaveNoReport(es[1..], duration, onError);
    }
  }

  /** The call of `retryFailed` with all collected exceptions, if the caller supplied it. */
  function Reported(onFail: Callback, errors: seq<Exn>): seq<Event> {
    if onFail.CallerSupplied? then [AllFailed(errors)] else []
  }

  /** The state after a call of the work that returned `v`: `Return`'s
      terminal continuation also keeps `v` in the return cell. */
  function Returned(t: Terminal, v: Value, s: State): State {
    if t.ReadSlot? then s.(ret := v) else s
  }

  /** The terminal continuation on its own calls the work once: `Do` calls it
      directly, `Return` through the slot, which holds the work. */
  lemma AttemptOutcome(t: Terminal, s: State)
    requires |s.work| > 0 && (t.ReadSlot? ==> s.slot.Source?)
    ensures var s0 := s.(work := s.work[1..], trace := s.trace + [WorkCalled]);
            Exec([], t, s) == match s.work[0]
                              case Returns(v) => Step(Done, Returned(t, v, s0))
                              case Throws(e) => Step(Thrown(e), s0)
  {
  }

  /** One attempt of the retry loop directly around the terminal continuation. */
  lemma RetryAttempt(t: Terminal, duration: int, onError: Callback, onFail: Callback, left: nat, errors: seq<Exn>, s: State)
    requires |s.work| > 0 && (t.ReadSlot? ==> s.slot.Source?)
    ensures s.work[0].Returns? ==>
              RetryLoop([], t, duration, onError, onFail, left, errors, s)
              == Step(Done, Returned(t, s.work[0].v, s.(work := s.work[1..], trace := s.trace + [WorkCalled])))
    ensures s.work[0].Throws? ==>
              var e := s.work[0].e;
              var s1 := s.(work := s.work[1..], trace := s.trace + FailureEvents([e], duration, onError));
              RetryLoop([], t, duration, onError, onFail, left, errors, s)
              == if left == 0 then Step(Done, EmitAll(s1, Reported(onFail, errors + [e])))
                 else RetryLoop([], t, duration, onError, onFail, left - 1, errors + [e], s1)
  {
    AttemptOutcome(t, s);
    var a := Exec([], t, s);
    var s0 := s.(work := s.work[1..], trace := s.trace + [WorkCalled]);
    if s.work[0].Returns? {
      RetryLoopStops([], t, duration, onError, onFail, left, errors, s);
    } else {
      var e := s.work[0].e;
      assert a == Step(Thrown(e), s0);
      var block := Handled(e, duration, onError);
      assert FailureEvents([e], duration, onError) == [WorkCalled] + block by {
        assert [e][1..] == [];
      }
      assert s0.trace + block == s.trace + FailureEvents([e], duration, onError);
      var s1 := s.(work := s.work[1..], trace := s.trace + FailureEvents([e], duration, onError));
      assert EmitAll(a.st, block) == s1;
      if left == 0 {
        RetryLoopGivesUp([], t, duration, onError, onFail, errors, s);
        assert onFail.DoNothing? ==> EmitAll(s1, Reported(onFail, errors + [e])) == s1;
      } else {
        RetryLoopRetries([], t, duration, onError, onFail, left, errors, s);
      }
    }
  }

  lemma FailureEventsCons(e: Exn, es: seq<Exn>, duration: int, onError: Callback)
    ensures FailureEvents([e] + es, duration, onError)
         == FailureEvents([e], duration, onError) + FailureEvents(es, duration, onError)
  {
    assert ([e] + es)[1..] == es;
    assert [e][1..] == [];
  }

  /** The scripted outcomes start with failures raising `es`, in order. */
  ghost predicate FailsWith(work: seq<Outcome>, es: seq<Exn>) {
    |es| <= |work| && forall i :: 0 <= i < |es| ==> work[i] == Throws(es[i])
  }

  /** The retry loop directly around the terminal continuation, when the
      failures `es` are followed by a normal return within the `left` retries
      still allowed. */
  lemma {:induction false} RetryLoopSucceeds(t: Terminal, duration: int, onError: Callback, onFail: Callback,
                                             left: nat, errors: seq<Exn>, es: seq<Exn>, s: State)
    requires t.ReadSlot? ==> s.slot.Source?
    requires |es| <= left && FailsWith(s.work, es) && |es| < |s.work| && s.work[|es|].Returns?
    ensures RetryLoop([], t, duration, onError, onFail, left, errors, s)
         == Step(Done, Returned(t, s.work[|es|].v,
                                s.(work := s.work[|es| + 1..],
                                   trace := s.trace + FailureEvents(es, duration, onError) + [WorkCalled])))
    decreases |es|
  {
    if |es| == 0 {
      RetryAttempt(t, duration, onError, onFail, left, errors, s);
    } else {
      var e := es[0];
      var s1 := s.(work := s.work[1..], trace := s.trace + FailureEvents([e], duration, onError));
      var tail := es[1..];
      calc {
        RetryLoop([], t, duration, onError, onFail, left, errors, s);
        { RetryAttempt(t, duration, onError, onFail, left, errors, s); }
        RetryLoop([], t, duration, onError, onFail, left - 1, errors + [e], s1);
        { assert FailsWith(s1.work, tail);
          RetryLoopSucceeds(t, duration, onError, onFail, left - 1, errors + [e], tail, s1); }
        Step(Done, Returned(t, s1.work[|tail|].v,
                            s1.(work := s1.work[|tail| + 1..],
                                trace := s1.trace + FailureEvents(tail, duration, onError) + [WorkCalled])));
        { SucceededStateGlue(t, e, es, duration, onError, s); }
        Step(Done, Returned(t, s.work[|es|].v,
                            s.(work := s.work[|es| + 1..],
                               trace := s.trace + FailureEvents(es, duration, onError) + [WorkCalled])));
      }
    }
  }

  /** The state bookkeeping of peeling one failure off a successful retry loop. */
  lemma SucceededStateGlue(t: Terminal, e: Exn, es: seq<Exn>, duration: int, onError: Callback, s: State)
    requires |es| > 0 && es[0] == e && |es| < |s.work| && s.work[|es|].Returns?
    ensures var s1 := s.(work := s.work[1..], trace := s.trace + FailureEvents([e], duration, onError));
            var tail := es[1..];
            Returned(t, s1.work[|tail|].v,
                     s1.(work := s1.work[|tail| + 1..],
                         trace := s1.trace + FailureEvents(tail, duration, onError) + [WorkCalled]))
            == Returned(t, s.work[|es|].v,
                        s.(work := s.work[|es| + 1..],
                           trace := s.trace + FailureEvents(es, duration, onError) + [WorkCalled]))
  {
    assert s.work[1..][|es| - 1 + 1..] == s.work[|es| + 1..];
    assert es == [e] + es[1..];
    SucceededTraceGlue(s.trace, e, es[1..], duration, onError);
  }

  lemma SucceededTraceGlue(t: seq<Event>, e: Exn, es: seq<Exn>, duration: int, onError: Callback)
    ensures (t + FailureEvents([e], duration, onError)) + FailureEvents(es, duration, onError) + [WorkCalled]
            == t + FailureEvents([e] + es, duration, onError) + [WorkCalled]
  {
    FailureEventsCons(e, es, duration, onError);
  }

  /** The trace bookkeeping of peeling one failure off an exhausted retry loop. */
  lemma ExhaustedTraceGlue(t: seq<Event>, e: Exn, es: seq<Exn>, errors: seq<Exn>,
                           duration: int, onError: Callback, onFail: Callback)
    ensures (t + FailureEvents([e], duration, onError)) + FailureEvents(es, duration, onError)
              + Reported(onFail, errors + [e] + es)
            == t + FailureEvents([e] + es, duration, onError) + Reported(onFail, errors + ([e] + es))
  {
    FailureEventsCons(e, es, duration, onError);
    assert errors + [e] + es == errors + ([e] + es);
  }

  /** The retry loop directly around the terminal continuation, when all
      `left + 1` remaining attempts fail, raising `es`. */
  lemma {:induction false} RetryLoopExhausted(t: Terminal, duration: int, onError: Callback, onFail: Callback,
                                              left: nat, errors: seq<Exn>, es: seq<Exn>, s: State)
    requires t.ReadSlot? ==> s.slot.Source?
    requires |es| == left + 1 && FailsWith(s.work, es)
    ensures RetryLoop([], t, duration, onError, onFail, left, errors, s)
         == Step(Done, s.(work := s.work[left + 1..],
                          trace := s.trace + FailureEvents(es, duration, onError) + Reported(onFail, errors + es)))
    decreases left
  {
    var e := es[0];
    assert es == [e] + es[1..];
    if left == 0 {
      RetryLoopLastAttempt(t, duration, onError, onFail, errors, e, s);
      assert es == [e];
    } else {
      var s1 := s.(work := s.work[1..], trace := s.trace + FailureEvents([e], duration, onError));
      var tail := es[1..];
      calc {
        RetryLoop([], t, duration, onError, onFail, left, errors, s);
        { RetryAttempt(t, duration, onError, onFail, left, errors, s); }
        RetryLoop([], t, duration, onError, onFail, left - 1, errors + [e], s1);
        { assert FailsWith(s1.work, tail);
          RetryLoopExhausted(t, duration, onError, onFail, left - 1, errors + [e], tail, s1); }
        Step(Done, s1.(work := s1.work[left - 1 + 1..],
                       trace := s1.trace + FailureEvents(tail, duration, onError) + Reported(onFail, errors + [e] + tail)));
        { assert s1.work[left - 1 + 1..] == s.work[left + 1..];
          ExhaustedTraceGlue(s.trace, e, tail, errors, duration, onError, onFail); }
        Step(Done, s.(work := s.work[left + 1..],
                      trace := s.trace + FailureEvents(es, duration, onError) + Reported(onFail, errors + es)));
      }
    }
  }

  /** The last allowed attempt fails: the failure is handled and reported. */
  lemma RetryLoopLastAttempt(t: Terminal, duration: int, onError: Callback, onFail: Callback,
                             errors: seq<Exn>, e: Exn, s: State)
    requires t.ReadSlot? ==> s.slot.Source?
    requires |s.work| > 0 && s.work[0] == Throws(e)
    ensures RetryLoop([], t, duration, onError, onFail, 0, errors, s)
         == Step(Done, s.(work := s.work[1..],
                          trace := s.trace + FailureEvents([e], duration, onError) + Reported(onFail, errors + [e])))
  {
    RetryAttempt(t, duration, onError, onFail, 0, errors, s);
  }

  /** The exceptions of the first `n` scripted outcomes, when all of them fail. */
  function FailuresOf(work: seq<Outcome>, n: nat): (es: seq<Exn>)
    requires n <= |work| && forall i :: 0 <= i < n ==> work[i].Throws?
    ensures |es| == n && FailsWith(work, es)
  {
    seq(n, i requires 0 <= i < n => work[i].e)
  }

  /** How many attempts `Retry(duration, retryCount)` allows: the first call
      plus one per successful `retryCount-- > 0` test. */
  function Attempts(retryCount: int): (n: nat)
    ensures retryCount >= 0 ==> n == retryCount + 1
    ensures retryCount < 0 ==> n == 1
  {
    if retryCount > 0 then retryCount + 1 else 1
  }

  /** The script holds an outcome for every attempt the retry makes. */
  ghost predicate ScriptCoversRetry(retryCount: int, work: seq<Outcome>) {
    var j := FirstSuccess(work);
    |work| >= (if j < Attempts(retryCount) then j + 1 else Attempts(retryCount))
  }

  /** Reference behaviour of `Retry` directly around the terminal
      continuation, stated without the loop: with `j` failures before the first
      normal return, either that return falls within the allowed attempts (and
      `Return` keeps its value), or every attempt failed and `retryFailed`
      receives all their exceptions. */
  function RetriedWork(a: Aspect, t: Terminal, s: State): Step
    requires a.Retry? && ScriptCoversRetry(a.retryCount, s.work)
  {
    var j := FirstSuccess(s.work);
    var n := Attempts(a.retryCount);
    if j < n then
      Step(Done, Returned(t, s.work[j].v,
                          s.(work := s.work[j + 1..],
                             trace := s.trace + FailureEvents(FailuresOf(s.work, j), a.duration, a.errorHandler) + [WorkCalled])))
    else
      var es := FailuresOf(s.work, n);
      Step(Done, s.(work := s.work[n..],
                    trace := s.trace + FailureEvents(es, a.duration, a.errorHandler) + Reported(a.retryFailed, es)))
  }

  /** The reference behaviour when a normal return falls within the allowed attempts. */
  lemma RetryLoopMatchesSuccess(a: Aspect, t: Terminal, s: State)
    requires t.ReadSlot? ==> s.slot.Source?
    requires a.Retry? && ScriptCoversRetry(a.retryCount, s.work)
    requires FirstSuccess(s.work) < Attempts(a.retryCount)
    ensures RetryLoop([], t, a.duration, a.errorHandler, a.retryFailed, Attempts(a.retryCount) - 1, [], s)
         == RetriedWork(a, t, s)
  {
    var j := FirstSuccess(s.work);
    var es := FailuresOf(s.work, j);
    var succeeded := Step(Done, Returned(t, s.work[j].v,
                                         s.(work := s.work[j + 1..],
                                            trace := s.trace + FailureEvents(es, a.duration, a.errorHandler) + [WorkCalled])));
    assert RetriedWork(a, t, s) == succeeded;
    assert RetryLoop([], t, a.duration, a.errorHandler, a.retryFailed, Attempts(a.retryCount) - 1, [], s)
        == succeeded by {
      RetryLoopSucceeds(t, a.duration, a.errorHandler, a.retryFailed, Attempts(a.retryCount) - 1, [], es, s);
    }
  }

  /** The exhausted retry loop, started as `Retry` starts it. */
  lemma RetryLoopFromStartExhausted(a: Aspect, t: Terminal, es: seq<Exn>, s: State)
    requires t.ReadSlot? ==> s.slot.Source?
    requires a.Retry? && |es| == Attempts(a.retryCount) && FailsWith(s.work, es)
    ensures RetryLoop([], t, a.duration, a.errorHandler, a.retryFailed, Attempts(a.retryCount) - 1, [], s)
         == Step(Done, s.(work := s.work[|es|..],
                          trace := s.trace + FailureEvents(es, a.duration, a.errorHandler) + Reported(a.retryFailed, es)))
  {
    assert [] + es == es;
    RetryLoopExhausted(t, a.duration, a.errorHandler, a.retryFailed, |es| - 1, [], es, s);
  }

  /** The reference behaviour when every allowed attempt fails. */
  lemma RetryLoopMatchesExhaustion(a: Aspect, t: Terminal, s: State)
    requires t.ReadSlot? ==> s.slot.Source?
    requires a.Retry? && ScriptCoversRetry(a.retryCount, s.work)
    requires FirstSuccess(s.work) >= Attempts(a.retryCount)
    ensures RetryLoop([], t, a.duration, a.errorHandler, a.retryFailed, Attempts(a.retryCount) - 1, [], s)
         == RetriedWork(a, t, s)
  {
    RetryLoopFromStartExhausted(a, t, FailuresOf(s.work, Attempts(a.retryCount)), s);
  }

  /** The retry loop as `Retry` starts it agrees with the reference behaviour. */
  lemma RetryLoopMatchesReference(a: Aspect, t: Terminal, s: State)
    requires t.ReadSlot? ==> s.slot.Source?
    requires a.Retry? && ScriptCoversRetry(a.retryCount, s.work)
    ensures RetryLoop([], t, a.duration, a.errorHandler, a.retryFailed, Attempts(a.retryCount) - 1, [], s)
         == RetriedWork(a, t, s)
  {
    if FirstSuccess(s.work) < Attempts(a.retryCount) {
      RetryLoopMatchesSuccess(a, t, s);
    } else {
      RetryLoopMatchesExhaustion(a, t, s);
    }
  }

  /** `Retry(duration, retryCount, …)` around the work calls it until its first
      normal return, at most max(retryCount, 0) + 1 times; every failure is
      logged, handed to the error handler and followed by the sleep, in order;
      `retryFailed` is called, with one exception per attempt, only when every
      attempt failed; nothing is rethrown and nothing but the script, the trace
      and (under `Return`) the return cell, which receives the successful
      attempt's value, changes. */
  lemma RetryAroundWork(a: Aspect, t: Terminal, s: State)
    requires t.ReadSlot? ==> s.slot.Source?
    requires a.Retry? && ScriptCoversRetry(a.retryCount, s.work)
    ensures Exec([a], t, s) == RetriedWork(a, t, s)
  {
    assert Exec([a], t, s)
        == RetryLoop([], t, a.duration, a.errorHandler, a.retryFailed, Attempts(a.retryCount) - 1, [], s) by {
      assert [a][1..] == [];
    }
    RetryLoopMatchesReference(a, t, s);
  }

  /** A failed attempt with retries left is handled and followed by the next attempt. */
  lemma RetryLoopRetries(rest: seq<Aspect>, t: Terminal, duration: int, onError: Callback, onFail: Callback,
                         left: nat, errors: seq<Exn>, s: State)
    requires Exec(rest, t, s).status.Thrown? && left > 0
    ensures var a := Exec(rest, t, s);
            RetryLoop(rest, t, duration, onError, onFail, left, errors, s)
            == RetryLoop(rest, t, duration, onError, onFail, left - 1, errors + [a.status.e],
                         EmitAll(a.st, Handled(a.status.e, duration, onError)))
  {
  }

  /** An attempt that does not throw ends the retry loop with its own outcome. */
  lemma RetryLoopStops(rest: seq<Aspect>, t: Terminal, duration: int, onError: Callback, onFail: Callback,
                       left: nat, errors: seq<Exn>, s: State)
    requires !Exec(rest, t, s).status.Thrown?
    ensures RetryLoop(rest, t, duration, onError, onFail, left, errors, s) == Exec(rest, t, s)
  {
  }

  /** A failed last attempt is handled and then reported to `retryFailed`; the
      loop ends normally. */
  lemma RetryLoopGivesUp(rest: seq<Aspect>, t: Terminal, duration: int, onError: Callback, onFail: Callback,
                         errors: seq<Exn>, s: State)
    requires Exec(rest, t, s).status.Thrown?
    ensures var a := Exec(rest, t, s);
            var s1 := EmitAll(a.st, Handled(a.status.e, duration, onError));
            RetryLoop(rest, t, duration, onError, onFail, 0, errors, s)
            == Step(Done, if onFail.CallerSupplied? then Emit(s1, AllFailed(errors + [a.status.e])) else s1)
  {
  }

  /** Whatever it wraps, `Retry` never lets an exception out. */
  lemma RetryNeverThrows(a: Aspect, rest: seq<Aspect>, t: Terminal, s: State)
    requires a.Retry?
    ensures !Exec([a] + rest, t, s).status.Thrown?
  {
    assert ([a] + rest)[1..] == rest;
  }

  // ---------------------------------------------------------------- guards

  /** `MustBeNonNull(args)` throws for the first null argument, before anything
      else happens; with no null argument it is transparent. */
  lemma MustBeNonNullScans(args: seq<Value>, rest: seq<Aspect>, t: Terminal, s: State)
    ensures var r := Exec([MustBeNonNull(args)] + rest, t, s);
            && ((forall j :: 0 <= j < |args| ==> args[j] != Null) ==> r == Exec(rest, t, s))
            && (forall i :: 0 <= i < |args| && args[i] == Null && (forall j :: 0 <= j < i ==> args[j] != Null)
                  ==> r == Step(Thrown(ArgumentError(i)), s))
  {
    assert ([MustBeNonNull(args)] + rest)[1..] == rest;
    var f := FirstDefault(args, Null);
    if f.Some? {
      forall i | 0 <= i < |args| && args[i] == Null && (forall j :: 0 <= j < i ==> args[j] != Null)
        ensures i == f.value
      {
        assert IsDefault(args[i], Null);
        assert IsDefault(args[f.value], Null);
      }
    }
  }

  /** `MustBeNonDefault(args)` throws for the first argument that is null or
      equals `default(T)`; otherwise it is transparent. */
  lemma MustBeNonDefaultScans(args: seq<Value>, zero: Value, rest: seq<Aspect>, t: Terminal, s: State)
    ensures var r := Exec([MustBeNonDefault(args, zero)] + rest, t, s);
            && ((forall j :: 0 <= j < |args| ==> args[j] != Null && args[j] != zero) ==> r == Exec(rest, t, s))
            && (forall i :: 0 <= i < |args| && (args[i] == Null || args[i] == zero)
                  && (forall j :: 0 <= j < i ==> args[j] != Null && args[j] != zero)
                  ==> r == Step(Thrown(ArgumentError(i)), s))
  {
    assert ([MustBeNonDefault(args, zero)] + rest)[1..] == rest;
    var f := FirstDefault(args, zero);
    if f.Some? {
      forall i | 0 <= i < |args| && (args[i] == Null || args[i] == zero)
          && (forall j :: 0 <= j < i ==> args[j] != Null && args[j] != zero)
        ensures i == f.value
      {
        assert IsDefault(args[i], zero);
        assert IsDefault(args[f.value], zero);
      }
    }
  }

  /** `n` predicate evaluations answered `b`. */
  function Tests(n: nat, b: bool): (es: seq<Event>)
    ensures |es| == n && forall i :: 0 <= i < n ==> es[i] == Evaluated(b)
  {
    seq(n, i => Evaluated(b))
  }

  /** `WhenTrue` with `n` conditions evaluates them left to right up to the
      first false one; the rest of the chain runs exactly when all are true. */
  lemma {:induction false} WhenTrueAllOrNothing(n: nat, j: nat, rest: seq<Aspect>, t: Terminal, s: State)
    requires j <= n && j <= |s.tests|
    requires forall i :: 0 <= i < j ==> s.tests[i]
    requires j < n ==> j < |s.tests| && !s.tests[j]
    ensures var r := Exec([WhenTrue(n)] + rest, t, s);
            && (j == n ==> r == Exec(rest, t, s.(tests := s.tests[n..], trace := s.trace + Tests(n, true))))
            && (j < n ==> r == Step(Done, s.(tests := s.tests[j + 1..], trace := s.trace + Tests(j, true) + [Evaluated(false)])))
  {
    assert ([WhenTrue(n)] + rest)[1..] == rest;
    WhenAllCounts(n, j, rest, t, s);
  }

  lemma {:induction false} WhenAllCounts(n: nat, j: nat, rest: seq<Aspect>, t: Terminal, s: State)
    requires j <= n && j <= |s.tests|
    requires forall i :: 0 <= i < j ==> s.tests[i]
    requires j < n ==> j < |s.tests| && !s.tests[j]
    ensures var r := WhenAll(n, rest, t, s);
            && (j == n ==> r == Exec(rest, t, s.(tests := s.tests[n..], trace := s.trace + Tests(n, true))))
            && (j < n ==> r == Step(Done, s.(tests := s.tests[j + 1..], trace := s.trace + Tests(j, true) + [Evaluated(false)])))
  {
    if j == n {
      WhenAllPasses(n, rest, t, s);
    } else {
      WhenAllStops(n, j, rest, t, s);
    }
  }

  /** All `n` conditions true: the rest of the chain runs after `n` evaluations. */
  lemma {:induction false} WhenAllPasses(n: nat, rest: seq<Aspect>, t: Terminal, s: State)
    requires n <= |s.tests|
    requires forall i :: 0 <= i < n ==> s.tests[i]
    ensures WhenAll(n, rest, t, s) == Exec(rest, t, s.(tests := s.tests[n..], trace := s.trace + Tests(n, true)))
    decreases n
  {
    if n == 0 {
      assert s.tests[0..] == s.tests && s.trace + Tests(0, true) == s.trace;
    } else {
      var s1 := Test(s);
      assert s.tests[0];
      WhenAllPasses(n - 1, rest, t, s1);
      assert s.trace + Tests(n, true) == s1.trace + Tests(n - 1, true);
      assert s1.tests[n - 1..] == s.tests[n..];
    }
  }

  /** Condition `j` is the first false one: the chain stops there, normally. */
  lemma {:induction false} WhenAllStops(n: nat, j: nat, rest: seq<Aspect>, t: Terminal, s: State)
    requires j < n && j < |s.tests|
    requires forall i :: 0 <= i < j ==> s.tests[i]
    requires !s.tests[j]
    ensures WhenAll(n, rest, t, s) == Step(Done, s.(tests := s.tests[j + 1..], trace := s.trace + Tests(j, true) + [Evaluated(false)]))
    decreases j
  {
    if j == 0 {
      assert s.trace + Tests(0, true) == s.trace;
    } else {
      var s1 := Test(s);
      assert s.tests[0];
      WhenAllStops(n - 1, j - 1, rest, t, s1);
      assert s.trace + Tests(j, true) == s1.trace + Tests(j - 1, true);
      assert s1.tests[j - 1 + 1..] == s.tests[j + 1..];
    }
  }

  // ---------------------------------------------------------------- loops

  /** `Until` evaluates `test` until its first true answer and then runs the
      rest of the chain exactly once. */
  lemma {:induction false} UntilSpinsThenRunsOnce(j: nat, rest: seq<Aspect>, t: Terminal, s: State)
    requires j < |s.tests| && s.tests[j]
    requires forall i :: 0 <= i < j ==> !s.tests[i]
    ensures Exec([Until] + rest, t, s)
         == Exec(rest, t, s.(tests := s.tests[j + 1..], trace := s.trace + Tests(j, false) + [Evaluated(true)]))
  {
    assert ([Until] + rest)[1..] == rest;
    UntilCounts(j, rest, t, s);
  }

  lemma {:induction false} UntilCounts(j: nat, rest: seq<Aspect>, t: Terminal, s: State)
    requires j < |s.tests| && s.tests[j]
    requires forall i :: 0 <= i < j ==> !s.tests[i]
    ensures UntilSpin(rest, t, s)
         == Exec(rest, t, s.(tests := s.tests[j + 1..], trace := s.trace + Tests(j, false) + [Evaluated(true)]))
    decreases j
  {
    if j == 0 {
      assert s.trace + Tests(0, false) == s.trace;
    } else {
      var s1 := Test(s);
      UntilCounts(j - 1, rest, t, s1);
      assert s.trace + Tests(j, false) == s1.trace + Tests(j - 1, false);
      assert s1.tests[j - 1 + 1..] == s.tests[j + 1..];
    }
  }

  /** The trace of `n` iterations of `While` directly around the work. */
  function WhileEvents(n: nat): seq<Event> {
    if n == 0 then [] else [Evaluated(true), WorkCalled] + WhileEvents(n - 1)
  }

  /** The state after one iteration of `While` directly around the work whose
      next scripted outcome is a normal return: under `Return` that value is
      left in the return cell. */
  function WhileIteration(t: Terminal, s: State): (s': State)
    requires |s.tests| > 0 && |s.work| > 0 && s.work[0].Returns?
    ensures Follows(s, s') && |s'.tests| < |s.tests|
  {
    var s1 := s.(tests := s.tests[1..], work := s.work[1..], trace := s.trace + [Evaluated(true), WorkCalled]);
    if t.ReadSlot? then s1.(ret := s.work[0].v) else s1
  }

  /** One iteration of `While` directly around the work. */
  lemma WhileStep(t: Terminal, s: State)
    requires |s.tests| > 0
    requires s.tests[0] ==> |s.work| > 0 && s.work[0].Returns?
    requires t.ReadSlot? ==> s.slot.Source?
    ensures s.tests[0] ==> Exec([While], t, s) == Exec([While], t, WhileIteration(t, s))
    ensures !s.tests[0] ==> Exec([While], t, s) == Step(Done, Test(s))
  {
    assert [While][1..] == [];
    if s.tests[0] {
      var s1 := Test(s);
      assert Exec([], t, s1) == Step(Done, WhileIteration(t, s));
    }
  }

  /** The state `n` iterations and one false answer later. */
  function WhileEnd(n: nat, t: Terminal, s: State): State
    requires n < |s.tests| && n <= |s.work| && forall i :: 0 <= i < n ==> s.work[i].Returns?
    decreases n
  {
    if n == 0 then Test(s)
    else
      var s' := WhileIteration(t, s);
      assert s'.work == s.work[1..];
      WhileEnd(n - 1, t, s')
  }

  lemma {:induction false} WhileReachesEnd(n: nat, t: Terminal, s: State)
    requires n < |s.tests| && !s.tests[n]
    requires forall i :: 0 <= i < n ==> s.tests[i]
    requires n <= |s.work| && forall i :: 0 <= i < n ==> s.work[i].Returns?
    requires t.ReadSlot? ==> s.slot.Source?
    ensures Exec([While], t, s) == Step(Done, WhileEnd(n, t, s))
    decreases n
  {
    if n > 0 {
      var s' := WhileIteration(t, s);
      assert Exec([While], t, s) == Exec([While], t, s') by {
        assert s.tests[0];
        WhileStep(t, s);
      }
      assert s'.work == s.work[1..] && s'.tests == s.tests[1..];
      WhileReachesEnd(n - 1, t, s');
    } else {
      WhileStep(t, s);
    }
  }

  lemma {:induction false} WhileEndClosedForm(n: nat, t: Terminal, s: State)
    requires n < |s.tests| && n <= |s.work| && forall i :: 0 <= i < n ==> s.work[i].Returns?
    ensures WhileEnd(n, t, s)
         == s.(work := s.work[n..], tests := s.tests[n + 1..],
               trace := s.trace + WhileEvents(n) + [Evaluated(s.tests[n])],
               ret := if t.RunWork? || n == 0 then s.ret else s.work[n - 1].v)
    decreases n
  {
    if n > 0 {
      var s' := WhileIteration(t, s);
      assert s'.work == s.work[1..] && s'.tests == s.tests[1..];
      WhileEndClosedForm(n - 1, t, s');
      assert s'.work[n - 1..] == s.work[n..];
      assert s'.tests[n - 1 + 1..] == s.tests[n + 1..];
      AppendAssoc(s.trace, [Evaluated(true), WorkCalled], WhileEvents(n - 1));
    }
  }

  /** `While` directly around the work: one run of the work per consecutive
      true answer (none if the first answer is false); under `Return` the
      value of the last run is the one left in the return cell. */
  lemma WhileRunsOncePerTrue(n: nat, t: Terminal, s: State)
    requires n < |s.tests| && !s.tests[n]
    requires forall i :: 0 <= i < n ==> s.tests[i]
    requires n <= |s.work| && forall i :: 0 <= i < n ==> s.work[i].Returns?
    requires t.ReadSlot? ==> s.slot.Source?
    ensures var r := Exec([While], t, s);
            && r.status == Done
            && r.st.work == s.work[n..]
            && r.st.tests == s.tests[n + 1..]
            && r.st.trace == s.trace + WhileEvents(n) + [Evaluated(false)]
            && r.st.store == s.store && r.st.slot == s.slot && r.st.cacheCalls == s.cacheCalls
            && r.st.ret == (if t.RunWork? || n == 0 then s.ret else s.work[n - 1].v)
  {
    WhileReachesEnd(n, t, s);
    WhileEndClosedForm(n, t, s);
  }

  // ---------------------------------------------------------------- logging

  /** Before/after message pairs of nested `Log(before, after)` layers. */
  function Nested(cats: Option<seq<string>>, msgs: seq<(string, string)>): seq<Aspect> {
    if |msgs| == 0 then [] else [LogAround(cats, msgs[0].0, msgs[0].1)] + Nested(cats, msgs[1..])
  }

  function Befores(cats: Option<seq<string>>, msgs: seq<(string, string)>): seq<Event> {
    if |msgs| == 0 then [] else [LogEvent(cats, msgs[0].0)] + Befores(cats, msgs[1..])
  }

  /** The after-messages, innermost layer first. */
  function AftersReversed(cats: Option<seq<string>>, msgs: seq<(string, string)>): seq<Event> {
    if |msgs| == 0 then [] else AftersReversed(cats, msgs[1..]) + [LogEvent(cats, msgs[0].1)]
  }

  /** What the nested layers make of the inner chain's result: the
      after-messages follow a normal return; a failure passes through as is. */
  function Unwound(inner: Step, cats: Option<seq<string>>, msgs: seq<(string, string)>): Step {
    if inner.status.Done? then Step(Done, EmitAll(inner.st, AftersReversed(cats, msgs))) else inner
  }

  /** The before/after `Log` logs its before-message, runs what it wraps, and
      logs its after-message only if that returned normally. */
  lemma LogAroundLayer(cats: Option<seq<string>>, before: string, after: string,
                       rest: seq<Aspect>, t: Terminal, s: State)
    ensures Exec([LogAround(cats, before, after)] + rest, t, s)
         == Unwound(Exec(rest, t, Emit(s, LogEvent(cats, before))), cats, [(before, after)])
  {
    assert ([LogAround(cats, before, after)] + rest)[1..] == rest;
    assert AftersReversed(cats, [(before, after)]) == [LogEvent(cats, after)] by {
      assert [(before, after)][1..] == [];
    }
  }

  /** Unwinding the outermost layer after the inner ones. */
  lemma UnwoundCons(inner: Step, cats: Option<seq<string>>, msgs: seq<(string, string)>)
    requires |msgs| > 0
    ensures Unwound(Unwound(inner, cats, msgs[1..]), cats, [msgs[0]]) == Unwound(inner, cats, msgs)
  {
    assert AftersReversed(cats, [msgs[0]]) == [LogEvent(cats, msgs[0].1)] by {
      assert [msgs[0]][1..] == [];
    }
    AppendAssoc(inner.st.trace, AftersReversed(cats, msgs[1..]), [LogEvent(cats, msgs[0].1)]);
  }

  /** One more before/after layer outside the nested ones. */
  lemma OnionStep(cats: Option<seq<string>>, msgs: seq<(string, string)>,
                  rest: seq<Aspect>, t: Terminal, s: State)
    requires |msgs| > 0
    requires var s1 := Emit(s, LogEvent(cats, msgs[0].0));
             Exec(Nested(cats, msgs[1..]) + rest, t, s1)
             == Unwound(Exec(rest, t, EmitAll(s1, Befores(cats, msgs[1..]))), cats, msgs[1..])
    ensures Exec(Nested(cats, msgs) + rest, t, s)
         == Unwound(Exec(rest, t, EmitAll(s, Befores(cats, msgs))), cats, msgs)
  {
    var m := msgs[0];
    var k1 := Nested(cats, msgs[1..]) + rest;
    var s1 := Emit(s, LogEvent(cats, m.0));
    var inner := Exec(rest, t, EmitAll(s, Befores(cats, msgs)));
    calc {
      Exec(Nested(cats, msgs) + rest, t, s);
      { AppendAssoc([LogAround(cats, m.0, m.1)], Nested(cats, msgs[1..]), rest); }
      Exec([LogAround(cats, m.0, m.1)] + k1, t, s);
      { LogAroundLayer(cats, m.0, m.1, k1, t, s); assert [(m.0, m.1)] == [msgs[0]]; }
      Unwound(Exec(k1, t, s1), cats, [msgs[0]]);
      Unwound(Unwound(Exec(rest, t, EmitAll(s1, Befores(cats, msgs[1..]))), cats, msgs[1..]), cats, [msgs[0]]);
      { assert EmitAll(s1, Befores(cats, msgs[1..])) == EmitAll(s, Befores(cats, msgs)) by {
          AppendAssoc(s.trace, [LogEvent(cats, m.0)], Befores(cats, msgs[1..]));
        }
      }
      Unwound(Unwound(inner, cats, msgs[1..]), cats, [msgs[0]]);
      { UnwoundCons(inner, cats, msgs); }
      Unwound(inner, cats, msgs);
    }
  }

  /** Onion order: nested before/after logs put their before-messages ahead of
      the inner chain in append order, and their after-messages behind it in
      reverse order, and only when the inner chain returned normally. */
  lemma {:induction false} OnionOrder(cats: Option<seq<string>>, msgs: seq<(string, string)>,
                                      rest: seq<Aspect>, t: Terminal, s: State)
    ensures Exec(Nested(cats, msgs) + rest, t, s)
         == Unwound(Exec(rest, t, EmitAll(s, Befores(cats, msgs))), cats, msgs)
    decreases |msgs|
  {
    if |msgs| == 0 {
      assert Nested(cats, msgs) + rest == rest;
      assert EmitAll(s, []) == s;
      var inner := Exec(rest, t, s);
      assert inner.status.Done? ==> EmitAll(inner.st, []) == inner.st;
    } else {
      OnionOrder(cats, msgs[1..], rest, t, Emit(s, LogEvent(cats, msgs[0].0)));
      OnionStep(cats, msgs, rest, t, s);
    }
  }

  // ---------------------------------------------------------------- trapping

  /** `TrapLog` logs a failure of what it wraps and swallows it. */
  lemma TrapLogSwallows(rest: seq<Aspect>, t: Terminal, s: State)
    ensures var inner := Exec(rest, t, s);
            var r := Exec([TrapLog] + rest, t, s);
            && !r.status.Thrown?
            && (inner.status.Thrown? ==> r == Step(Done, Emit(inner.st, ExceptionLogged(inner.status.e))))
            && (!inner.status.Thrown? ==> r == inner)
  {
    assert ([TrapLog] + rest)[1..] == rest;
  }

  /** `TrapLogThrow` logs a failure of what it wraps and rethrows the same exception. */
  lemma TrapLogThrowRethrows(rest: seq<Aspect>, t: Terminal, s: State)
    ensures var inner := Exec(rest, t, s);
            var r := Exec([TrapLogThrow] + rest, t, s);
            && r.status == inner.status
            && (inner.status.Thrown? ==> r.st == Emit(inner.st, ExceptionLogged(inner.status.e)))
            && (!inner.status.Thrown? ==> r == inner)
  {
    assert ([TrapLogThrow] + rest)[1..] == rest;
  }

  /** `Expected<C>` swallows exactly the failures that are instances of `C`. */
  lemma ExpectedSwallowsOnlyItsClass(cls: string, rest: seq<Aspect>, t: Terminal, s: State)
    ensures var inner := Exec(rest, t, s);
            var r := Exec([Expected(cls)] + rest, t, s);
            && r.st == inner.st
            && (inner.status.Thrown? && IsA(inner.status.e, cls) ==> r.status == Done)
            && (!(inner.status.Thrown? && IsA(inner.status.e, cls)) ==> r.status == inner.status)
  {
    assert ([Expected(cls)] + rest)[1..] == rest;
  }

  /** `Transaction` completes its scope exactly when what it wraps returns normally. */
  lemma TransactionCompletesOnlyOnReturn(rest: seq<Aspect>, t: Terminal, s: State)
    ensures var inner := Exec(rest, t, s);
            var r := Exec([Transaction] + rest, t, s);
            && r.status == inner.status
            && (inner.status.Done? ==> r.st == Emit(inner.st, TransactionCompleted))
            && (!inner.status.Done? ==> r.st == inner.st)
  {
    assert ([Transaction] + rest)[1..] == rest;
  }

  /** `Delay` and the single-message `Log` record their effect and then run
      the rest of the chain once. */
  lemma DelayAndLogRunRestOnce(ms: int, cats: Option<seq<string>>, msg: string,
                               rest: seq<Aspect>, t: Terminal, s: State)
    ensures Exec([Delay(ms)] + rest, t, s) == Exec(rest, t, Emit(s, Slept(ms)))
    ensures Exec([Log(cats, msg)] + rest, t, s) == Exec(rest, t, Emit(s, LogEvent(cats, msg)))
  {
    assert ([Delay(ms)] + rest)[1..] == rest;
    assert ([Log(cats, msg)] + rest)[1..] == rest;
  }
}
