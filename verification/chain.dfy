/** The `Let` composition engine: the chain of wrappers, `Combine`, `Do` and
    `Return`. */
module Chain {
  import opened Model
  import opened CacheAside
  import opened Aspects

  /** The closure `Chain` holds: one wrapper, or the closure `Combine` builds,
      `work => outer(() => inner(work))`. */
  datatype Wrapper = Single(aspect: Aspect) | Around(outer: Wrapper, inner: Aspect)

  /** A `Let` instance: its chain, null (`None`) until the first `Combine`. */
  datatype Let = Let(chain: Option<Wrapper>)

  /** `new Let()`, which is also what `Let.Us` returns. */
  function Us(): (l: Let)
    ensures l.chain.None? && Layers(l) == []
  {
    Let(None)
  }

  /** The layers, outermost first, that calling wrapper `w` with continuation
      `k` runs: `Around` hands the outer closure a continuation that first
      runs the inner wrapper. */
  function Unfold(w: Wrapper, k: seq<Aspect>): (r: seq<Aspect>)
    ensures |r| > |k| && r[|r| - |k|..] == k
  {
    match w
    case Single(a) => [a] + k
    case Around(outer, inner) =>
      var r := Unfold(outer, [inner] + k);
      assert r[|r| - |k|..] == r[|r| - |k| - 1..][1..];
      r
  }

  /** Running a wrapper on a longer continuation only extends its layers. */
  lemma {:induction false} UnfoldAppends(w: Wrapper, k: seq<Aspect>)
    ensures Unfold(w, k) == Unfold(w, []) + k
  {
    match w
    case Single(a) =>
    case Around(outer, inner) =>
      calc {
        Unfold(w, k);
        Unfold(outer, [inner] + k);
        { UnfoldAppends(outer, [inner] + k); }
        Unfold(outer, []) + ([inner] + k);
        (Unfold(outer, []) + [inner]) + k;
        { UnfoldAppends(outer, [inner]); }
        Unfold(outer, [inner]) + k;
        { assert [inner] + [] == [inner]; }
        Unfold(w, []) + k;
      }
  }

  /** The layers a `Let` runs around the work, outermost first. */
  function Layers(l: Let): (r: seq<Aspect>)
    ensures |r| == 0 <==> l.chain.None?
  {
    match l.chain
    case None => []
    case Some(w) => Unfold(w, [])
  }

  /** `Combine`: the first wrapper becomes the whole chain; later ones are
      nested innermost, so the appended wrapper ends up closest to the work. */
  function Combine(l: Let, a: Aspect): (r: Let)
    ensures l.chain.None? ==> r.chain == Some(Single(a))
    ensures r.chain.Some?
    ensures Layers(r) == Layers(l) + [a]
  {
    match l.chain
    case None => Let(Some(Single(a)))
    case Some(w) =>
      UnfoldAppends(w, [a]);
      assert [a] + [] == [a];
      Let(Some(Around(w, a)))
  }

  /** A fluent expression `Let.Us.A1()…An()`. */
  function Build(aspects: seq<Aspect>): (r: Let)
    ensures r.chain.None? <==> |aspects| == 0
    decreases |aspects|
  {
    if |aspects| == 0 then Us() else Combine(Build(aspects[..|aspects| - 1]), aspects[|aspects| - 1])
  }

  /** The wrappers of a fluent expression run in the order they were written. */
  lemma {:induction false} BuildLayers(aspects: seq<Aspect>)
    ensures Layers(Build(aspects)) == aspects
    decreases |aspects|
  {
    if |aspects| > 0 {
      var init := aspects[..|aspects| - 1];
      BuildLayers(init);
      assert init + [aspects[|aspects| - 1]] == aspects;
    }
  }

  /** `Do(work)`: the work alone on an empty chain, otherwise the chain with
      the work as its terminal continuation. Equal to the right fold of the
      layers around the work. */
  function Do(l: Let, s: State): (r: Step)
    ensures r == Exec(Layers(l), RunWork, s)
  {
    match l.chain
    case None => Finish(RunWork, s)
    case Some(w) => Exec(Unfold(w, []), RunWork, s)
  }

  /** `Return(work)`: the work goes into the slot first; an empty chain returns
      `work()` directly; otherwise the terminal continuation calls whatever
      the slot holds when it runs, and the last value it produced (or
      `zero`, the result type's default, if it never ran) is returned. */
  function Return(l: Let, zero: Value, s: State): (r: Valued)
    ensures Follows(s, r.st)
    ensures l.chain.None? && |s.work| > 0 ==>
      && r.st == s.(slot := Source, work := s.work[1..], trace := s.trace + [WorkCalled])
      && r.status == (if s.work[0].Returns? then Done else Thrown(s.work[0].e))
      && (s.work[0].Returns? ==> r.value == s.work[0].v)
    ensures r.status.Done? && l.chain.Some? ==> r.value == r.st.ret
  {
    var s1 := s.(slot := Source);
    match l.chain
    case None => Eval(Source, s1)
    case Some(w) =>
      var x := Exec(Unfold(w, []), ReadSlot, s1.(ret := zero));
      Valued(x.status, if x.status.Done? then x.st.ret else Null, x.st)
  }
}
