/** The work slot and the cache-aside sequence shared by `Cache`, `CacheRetry`
    and `CacheList`: running the delegate in the slot, `GetListFromSource`,
    and the private `Cache` helper up to (not including) its call of the
    continuation. */
module CacheAside {
  import opened Model
  import Store

  /** Calls the delegate `t`. `Source` consumes one scripted outcome of the
      caller's work; `StoreEach` runs its inner delegate and then `Set`s every
      item of the list it returned, in list order, under `KeyOf(itemKey, item)`. */
  function Eval(t: Thunk, s: State): (r: Valued)
    ensures Follows(s, r.st)
    ensures r.st.slot == s.slot && r.st.ret == s.ret && r.st.tests == s.tests
    ensures t.Const? ==> r == Valued(Done, t.v, s)
    ensures t.Source? && |s.work| > 0 ==>
      && r.st == s.(work := s.work[1..], trace := s.trace + [WorkCalled])
      && (s.work[0].Returns? ==> r.status == Done && r.value == s.work[0].v)
      && (s.work[0].Throws? ==> r.status == Thrown(s.work[0].e))
    ensures !r.status.Done? ==> r.value == Null
    decreases t
  {
    match t
    case NoWork => Valued(Done, Null, s)
    case Source =>
      if |s.work| == 0 then Valued(Stuck, Null, s)
      else
        var s' := s.(work := s.work[1..], trace := s.trace + [WorkCalled]);
        (match s.work[0]
         case Returns(v) => Valued(Done, v, s')
         case Throws(e) => Valued(Thrown(e), Null, s'))
    case Const(v) => Valued(Done, v, s)
    case StoreEach(inner, itemKey) =>
      // a null inner delegate makes the wrapper return default(TListType)
      if inner.NoWork? then Valued(Done, Null, s)
      else
        var a := Eval(inner, s);
        if !a.status.Done? then a
        else
          match a.value
          case Null => Valued(Thrown(NullReference), Null, a.st)
          case List(items) =>
            var w := SetEach(items, itemKey, a.st);
            Valued(w.status, if w.status.Done? then a.value else Null, w.st)
          case _ => Valued(Thrown(InvalidCast), Null, a.st)
  }

  /** The `Set` events of storing every item under its own key, in list order. */
  function SetEvents(items: seq<Value>, itemKey: KeyFunction): seq<Event> {
    if |items| == 0 then [] else [CacheSet(KeyOf(itemKey, items[0]), items[0])] + SetEvents(items[1..], itemKey)
  }

  /** The store after every item is stored under its own key, in list order. */
  function StoreAll(m: map<string, Value>, items: seq<Value>, itemKey: KeyFunction): map<string, Value>
    decreases |items|
  {
    if |items| == 0 then m else StoreAll(m[KeyOf(itemKey, items[0]) := items[0]], items[1..], itemKey)
  }

  /** None of the next `n` cache calls fails. */
  ghost predicate NoFaults(s: State, n: nat) {
    forall i: nat :: s.cacheCalls <= i < s.cacheCalls + n ==> i !in s.faults
  }

  /** The `foreach` of CacheList's replacement delegate: `Set` each item in
      order; the first failing `Set` ends the loop with its exception. */
  function SetEach(items: seq<Value>, itemKey: KeyFunction, s: State): (r: Step)
    ensures Follows(s, r.st)
    ensures r.st.slot == s.slot && r.st.ret == s.ret && r.st.work == s.work && r.st.tests == s.tests
    ensures r.status.Done? || r.status.Thrown?
  {
    if |items| == 0 then Step(Done, s)
    else
      var c := Store.Set(KeyOf(itemKey, items[0]), items[0], s);
      if !c.status.Done? then c
      else SetEach(items[1..], itemKey, c.st)
  }

  /** When none of its `Set`s fails, the loop stores every item under its own
      key, in list order, one call per item. */
  lemma {:induction false} SetEachStoresAll(items: seq<Value>, itemKey: KeyFunction, s: State)
    requires NoFaults(s, |items|)
    ensures SetEach(items, itemKey, s)
         == Step(Done, s.(trace := s.trace + SetEvents(items, itemKey),
                          store := StoreAll(s.store, items, itemKey),
                          cacheCalls := s.cacheCalls + |items|))
    decreases |items|
  {
    if |items| == 0 {
      assert s.trace + [] == s.trace;
    } else {
      var c := Store.Set(KeyOf(itemKey, items[0]), items[0], s);
      assert s.cacheCalls !in s.faults;
      assert NoFaults(c.st, |items| - 1);
      SetEachStoresAll(items[1..], itemKey, c.st);
      assert c.st.trace + SetEvents(items[1..], itemKey) == s.trace + SetEvents(items, itemKey);
    }
  }

  /** How a cache hit is shaped before it is accepted: as is (`Cache`,
      `CacheRetry`), or rebuilt item by item from the store (`CacheList`). */
  datatype Shape = AsIs | FromItems(itemKey: KeyFunction)

  /** The `Get` events of looking each item up under its own key, in list order. */
  function GetEvents(items: seq<Value>, itemKey: KeyFunction): seq<Event> {
    if |items| == 0 then [] else [CacheGet(KeyOf(itemKey, items[0]))] + GetEvents(items[1..], itemKey)
  }

  /** CacheList's shaping hook: looks every item of the cached list up in the
      store, in order, and answers the list of what it found, or null as soon
      as one item is missing. `acc` holds the items found so far. */
  function ItemsFromCache(items: seq<Value>, itemKey: KeyFunction, acc: seq<Value>, s: State): (r: Valued)
    ensures Follows(s, r.st)
    ensures r.st.slot == s.slot && r.st.ret == s.ret && r.st.work == s.work && r.st.tests == s.tests
    ensures r.st.store == s.store
    ensures r.status.Done? || r.status.Thrown?
    ensures r.status.Done? && r.value != Null ==> r.value.List? && |r.value.items| == |acc| + |items|
  {
    if |items| == 0 then Valued(Done, List(acc), s)
    else
      var g := Store.Get(KeyOf(itemKey, items[0]), s);
      if !g.status.Done? then g
      else if g.value == Null then Valued(Done, Null, g.st)
      else ItemsFromCache(items[1..], itemKey, acc + [g.value], g.st)
  }

  /** Applies the shaping hook to a non-null cached value. */
  function ShapeCached(shape: Shape, cached: Value, s: State): (r: Valued)
    ensures Follows(s, r.st)
    ensures r.st.slot == s.slot && r.st.ret == s.ret && r.st.work == s.work && r.st.tests == s.tests
    ensures r.st.store == s.store
    ensures shape.AsIs? ==> r == Valued(Done, cached, s)
  {
    match shape
    case AsIs => Valued(Done, cached, s)
    case FromItems(itemKey) =>
      match cached
      case List(items) => ItemsFromCache(items, itemKey, [], s)
      case _ => Valued(Thrown(InvalidCast), Null, s)
  }

  /** `GetListFromSource`: runs the delegate in the slot, `Add`s its value
      under `key` and replaces the slot by a delegate returning that value.
      A null slot stays null and nothing is called. */
  function GetFromSource(key: string, s: State): (r: Step)
    ensures Follows(s, r.st)
    ensures r.st.ret == s.ret && r.st.tests == s.tests
    ensures s.slot.NoWork? ==> r == Step(Done, s)
    ensures !r.status.Done? ==> r.st.slot == s.slot
    ensures r.status.Done? && !s.slot.NoWork? ==>
      r.st.slot.Const? && key in r.st.store && r.st.store[key] == r.st.slot.v
  {
    if s.slot.NoWork? then Step(Done, s)
    else
      var a := Eval(s.slot, s);
      if !a.status.Done? then Step(a.status, a.st)
      else
        var add := Store.Add(key, a.value, a.st);
        if !add.status.Done? then add
        else Step(Done, add.st.(slot := Const(a.value)))
  }

  /** The private `Cache` helper without its final call of the continuation:
      `Get(key)`; on a miss, or when the shaping hook answers null, load from
      the source; on a hit, make the slot return the shaped cached value. */
  function Fetch(key: string, shape: Shape, s: State): (r: Step)
    ensures Follows(s, r.st)
    ensures r.st.ret == s.ret && r.st.tests == s.tests
    ensures |r.st.trace| > |s.trace| && r.st.trace[|s.trace|] == CacheGet(key)
    ensures r.status.Done? && !s.slot.NoWork? ==> r.st.slot.Const?
    ensures !r.status.Done? ==> r.st.slot == s.slot
  {
    var g := Store.Get(key, s);
    if !g.status.Done? then Step(g.status, g.st)
    else if g.value == Null then GetFromSource(key, g.st)
    else
      var sh := ShapeCached(shape, g.value, g.st);
      if !sh.status.Done? then Step(sh.status, sh.st)
      else if sh.value == Null then GetFromSource(key, sh.st)
      else Step(Done, sh.st.(slot := Const(sh.value)))
  }
}
