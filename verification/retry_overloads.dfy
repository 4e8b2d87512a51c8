/** The fluent `Retry` overloads: which duration, retry count and handlers
    each one hands to the core retry loop. The logger argument, explicit or
    the registered default, is the single trace of the state. */
module RetryOverloads {
  import opened Model
  import opened Aspects
  import opened Chain
  import opened DecoratorLemmas

  /** `Retry()` and `Retry(logger)`: 1000 ms, one retry, no handlers. */
  function RetryDefault(l: Let): (r: Let)
    ensures Layers(r) == Layers(l) + [Retry(1000, 1, DoNothing, DoNothing)]
  {
    Combine(l, Retry(1000, 1, DoNothing, DoNothing))
  }

  /** `Retry(failHandler)` and `Retry(failHandler, logger)` as written: the
      caller's `failHandler` is accepted and then not passed on. */
  function RetryWithFailHandler(l: Let, failHandler: Callback): (r: Let)
    ensures Layers(r) == Layers(l) + [Retry(1000, 1, DoNothing, DoNothing)]
    ensures failHandler.CallerSupplied? ==> Layers(r)[|Layers(l)|].retryFailed != failHandler
  {
    Combine(l, Retry(1000, 1, DoNothing, DoNothing))
  }

  /** `Retry(failHandler)` as its signature intends: the caller's handler is
      the `retryFailed` of the loop. */
  function RetryWithFailHandlerFixed(l: Let, failHandler: Callback): (r: Let)
    ensures Layers(r) == Layers(l) + [Retry(1000, 1, DoNothing, failHandler)]
  {
    Combine(l, Retry(1000, 1, DoNothing, failHandler))
  }

  /** `Retry(retryDuration)` and `Retry(retryDuration, logger)`. */
  function RetryWithDuration(l: Let, retryDuration: int): (r: Let)
    ensures Layers(r) == Layers(l) + [Retry(retryDuration, 1, DoNothing, DoNothing)]
  {
    Combine(l, Retry(retryDuration, 1, DoNothing, DoNothing))
  }

  /** `Retry(retryDuration, errorHandler)` and its logger variant. */
  function RetryWithErrorHandler(l: Let, retryDuration: int): (r: Let)
    ensures Layers(r) == Layers(l) + [Retry(retryDuration, 1, CallerSupplied, DoNothing)]
  {
    Combine(l, Retry(retryDuration, 1, CallerSupplied, DoNothing))
  }

  /** `Retry(retryDuration, retryCount, errorHandler)` and its logger variant. */
  function RetryWithCount(l: Let, retryDuration: int, retryCount: int): (r: Let)
    ensures Layers(r) == Layers(l) + [Retry(retryDuration, retryCount, CallerSupplied, DoNothing)]
  {
    Combine(l, Retry(retryDuration, retryCount, CallerSupplied, DoNothing))
  }

  /** `Retry(retryDuration, retryCount, errorHandler, retryFailed)` and its
      logger variant. */
  function RetryWithAllHandlers(l: Let, retryDuration: int, retryCount: int): (r: Let)
    ensures Layers(r) == Layers(l) + [Retry(retryDuration, retryCount, CallerSupplied, CallerSupplied)]
  {
    Combine(l, Retry(retryDuration, retryCount, CallerSupplied, CallerSupplied))
  }

  /** The work fails on both attempts the one-retry overloads allow. */
  ghost predicate FailsTwice(s: State) {
    |s.work| >= 2 && s.work[0].Throws? && s.work[1].Throws?
  }

  /** As written, when both attempts fail the `failHandler` given to
      `Retry(failHandler)` is never called: the run ends normally with only the
      two failures and their sleeps in the trace. */
  lemma FailHandlerIgnored(s: State)
    requires FailsTwice(s)
    ensures var r := Do(RetryWithFailHandler(Us(), CallerSupplied), s);
            && r.status == Done
            && r.st.trace == s.trace + FailureEvents([s.work[0].e, s.work[1].e], 1000, DoNothing)
            && forall i :: |s.trace| <= i < |r.st.trace| ==> !r.st.trace[i].AllFailed?
  {
    var a := Retry(1000, 1, DoNothing, DoNothing);
    assert Layers(RetryWithFailHandler(Us(), CallerSupplied)) == [a];
    assert FirstSuccess(s.work) >= 2 by {
      assert FirstSuccess(s.work) != 0 && FirstSuccess(s.work[1..]) != 0;
    }
    RetryAroundWork(a, RunWork, s);
    var es := FailuresOf(s.work, 2);
    assert es == [s.work[0].e, s.work[1].e];
    FailureEventsHaveNoReport(es, 1000, DoNothing);
  }

  /** With the handler passed on, the same run calls it once, last, with both
      exceptions. */
  lemma FailHandlerCalledWhenPassedOn(s: State)
    requires FailsTwice(s)
    ensures var r := Do(RetryWithFailHandlerFixed(Us(), CallerSupplied), s);
            && r.status == Done
            && r.st.trace == s.trace + FailureEvents([s.work[0].e, s.work[1].e], 1000, DoNothing)
                               + [AllFailed([s.work[0].e, s.work[1].e])]
  {
    var a := Retry(1000, 1, DoNothing, CallerSupplied);
    assert Layers(RetryWithFailHandlerFixed(Us(), CallerSupplied)) == [a];
    assert FirstSuccess(s.work) >= 2 by {
      assert FirstSuccess(s.work) != 0 && FirstSuccess(s.work[1..]) != 0;
    }
    RetryAroundWork(a, RunWork, s);
    assert FailuresOf(s.work, 2) == [s.work[0].e, s.work[1].e];
  }
}
