/** What `Return` yields when the terminal continuation never runs (the
    result type's default) or when a decorator retries it (the value of the
    attempt that returned). */
module ReturnLemmas {
  import opened Model
  import opened Aspects
  import opened Chain
  import opened DecoratorLemmas
  import opened CacheLemmas

  /** `Return` on a fluent expression with at least one decorator runs its
      layers, in the order written, around the slot reader, starting from the
      default value in the return cell. */
  lemma ReturnOfBuild(k: seq<Aspect>, zero: Value, s: State)
    requires |k| > 0
    ensures var x := Exec(k, ReadSlot, s.(slot := Source, ret := zero));
            Return(Build(k), zero, s) == Valued(x.status, if x.status.Done? then x.st.ret else Null, x.st)
  {
    BuildLayers(k);
    ReturnRunsLayers(Build(k), zero, s);
  }

  /** A `WhenTrue` whose first condition is false skips the work: `Return`
      yields `default(T)` and reports a normal return, after evaluating only
      that condition. */
  lemma ReturnSkippedByWhenTrue(n: nat, rest: seq<Aspect>, zero: Value, s: State)
    requires n > 0 && |s.tests| > 0 && !s.tests[0]
    ensures var r := Return(Build([WhenTrue(n)] + rest), zero, s);
            && r.status == Done
            && r.value == zero
            && r.st.work == s.work
            && r.st.trace == s.trace + [Evaluated(false)]
  {
    var s1 := s.(slot := Source, ret := zero);
    ReturnOfBuild([WhenTrue(n)] + rest, zero, s);
    assert Exec([WhenTrue(n)] + rest, ReadSlot, s1)
        == Step(Done, s1.(tests := s1.tests[1..], trace := s1.trace + [Evaluated(false)])) by {
      WhenTrueAllOrNothing(n, 0, rest, ReadSlot, s1);
      assert s1.trace + Tests(0, true) == s1.trace;
    }
  }

  /** A `TrapLog` around a failing `MustBeNonNull` swallows the
      `ArgumentException`: `Return` yields `default(T)` and reports a normal
      return, with the exception logged and the work never called. */
  lemma ReturnSkippedByTrappedGuard(args: seq<Value>, i: nat, rest: seq<Aspect>, zero: Value, s: State)
    requires i < |args| && args[i] == Null
    requires forall j :: 0 <= j < i ==> args[j] != Null
    ensures Return(Build([TrapLog, MustBeNonNull(args)] + rest), zero, s)
         == Valued(Done, zero, s.(slot := Source, ret := zero, trace := s.trace + [ExceptionLogged(ArgumentError(i))]))
  {
    var k := [TrapLog, MustBeNonNull(args)] + rest;
    var s1 := s.(slot := Source, ret := zero);
    ReturnOfBuild(k, zero, s);
    assert Exec(k, ReadSlot, s1) == Step(Done, Emit(s1, ExceptionLogged(ArgumentError(i)))) by {
      assert k == [TrapLog] + ([MustBeNonNull(args)] + rest);
      MustBeNonNullScans(args, rest, ReadSlot, s1);
      TrapLogSwallows([MustBeNonNull(args)] + rest, ReadSlot, s1);
    }
  }

  /** `Let.Us.Retry(…).Return(work)`: the value of the first attempt that
      returns within the allowed attempts, or `default(T)` when every attempt
      fails; either way the run ends normally. */
  lemma ReturnAfterRetry(a: Aspect, zero: Value, s: State)
    requires a.Retry? && ScriptCoversRetry(a.retryCount, s.work)
    ensures var r := Return(Build([a]), zero, s);
            var j := FirstSuccess(s.work);
            && r.status == Done
            && (j < Attempts(a.retryCount) ==> r.value == s.work[j].v && r.st.work == s.work[j + 1..])
            && (j >= Attempts(a.retryCount) ==> r.value == zero && r.st.work == s.work[Attempts(a.retryCount)..])
  {
    ReturnOfBuild([a], zero, s);
    var s1 := s.(slot := Source, ret := zero);
    RetryAroundWork(a, ReadSlot, s1);
  }
}
