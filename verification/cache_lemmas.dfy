/** Properties of the cache-aside decorators: what a hit, a miss and a
    failing source or store do; the round trip through `Return`; and how
    `CacheRetry` relates to a plain `Cache`. */
module CacheLemmas {
  import opened Model
  import opened Store
  import opened CacheAside
  import opened Aspects
  import opened Chain
  import opened DecoratorLemmas
  import opened RetryOverloads

  // ---------------------------------------------------------------- Cache

  /** A fault-free run of cache calls stays fault-free from any later point. */
  lemma NoFaultsLater(s: State, n: nat, s': State, k: nat)
    requires NoFaults(s, n) && s'.faults == s.faults
    requires s.cacheCalls <= s'.cacheCalls && s'.cacheCalls + k <= s.cacheCalls + n
    ensures NoFaults(s', k)
  {
  }

  /** A hit needs no source: the slot is replaced by the cached value after
      the single `Get`. */
  lemma FetchHit(key: string, s: State)
    requires s.cacheCalls !in s.faults && Lookup(s.store, key) != Null
    ensures Fetch(key, AsIs, s)
         == Step(Done, s.(slot := Const(Lookup(s.store, key)), trace := s.trace + [CacheGet(key)],
                          cacheCalls := s.cacheCalls + 1))
  {
  }

  /** A miss calls the source once, `Add`s its value under the key and makes
      the slot return that value. */
  lemma FetchMiss(key: string, s: State)
    requires NoFaults(s, 2) && Lookup(s.store, key) == Null
    requires s.slot == Source && |s.work| > 0 && s.work[0].Returns?
    ensures var v := s.work[0].v;
            Fetch(key, AsIs, s)
            == Step(Done, s.(slot := Const(v), work := s.work[1..], store := s.store[key := v],
                             trace := s.trace + [CacheGet(key), WorkCalled, CacheAdd(key, v)],
                             cacheCalls := s.cacheCalls + 2))
  {
    assert s.cacheCalls !in s.faults && s.cacheCalls + 1 !in s.faults;
  }

  /** A failure of the source on a miss propagates; nothing is added and the
      slot keeps the source. */
  lemma FetchMissSourceFails(key: string, s: State)
    requires s.cacheCalls !in s.faults && Lookup(s.store, key) == Null
    requires s.slot == Source && |s.work| > 0 && s.work[0].Throws?
    ensures Fetch(key, AsIs, s)
         == Step(Thrown(s.work[0].e), s.(work := s.work[1..], trace := s.trace + [CacheGet(key), WorkCalled],
                                         cacheCalls := s.cacheCalls + 1))
  {
  }

  /** Under `Do` the slot is empty: a miss calls nothing and adds nothing. */
  lemma FetchMissWithoutSource(key: string, shape: Shape, s: State)
    requires s.cacheCalls !in s.faults && Lookup(s.store, key) == Null && s.slot.NoWork?
    ensures Fetch(key, shape, s)
         == Step(Done, s.(trace := s.trace + [CacheGet(key)], cacheCalls := s.cacheCalls + 1))
  {
  }

  /** A failing `Get` propagates before anything else is called. */
  lemma FetchGetFails(key: string, shape: Shape, s: State)
    requires s.cacheCalls in s.faults
    ensures Fetch(key, shape, s)
         == Step(Thrown(s.faults[s.cacheCalls]), s.(trace := s.trace + [CacheGet(key)], cacheCalls := s.cacheCalls + 1))
  {
  }

  /** On a miss the cache-aside step is the load from the source, after the `Get`. */
  lemma FetchOnMiss(key: string, shape: Shape, s: State)
    requires s.cacheCalls !in s.faults && Lookup(s.store, key) == Null
    ensures Fetch(key, shape, s)
         == GetFromSource(key, s.(trace := s.trace + [CacheGet(key)], cacheCalls := s.cacheCalls + 1))
  {
  }

  /** A hit whose shaping hook answers a non-null value puts that value in the
      slot; nothing is loaded. */
  lemma FetchShapedHit(key: string, shape: Shape, s: State, v: Value, st: State)
    requires s.cacheCalls !in s.faults && Lookup(s.store, key) != Null && v != Null
    requires ShapeCached(shape, Lookup(s.store, key), s.(trace := s.trace + [CacheGet(key)], cacheCalls := s.cacheCalls + 1))
          == Valued(Done, v, st)
    ensures Fetch(key, shape, s) == Step(Done, st.(slot := Const(v)))
  {
  }

  /** A hit whose shaping hook answers null is treated as a miss. */
  lemma FetchShapedMiss(key: string, shape: Shape, s: State, st: State)
    requires s.cacheCalls !in s.faults && Lookup(s.store, key) != Null
    requires ShapeCached(shape, Lookup(s.store, key), s.(trace := s.trace + [CacheGet(key)], cacheCalls := s.cacheCalls + 1))
          == Valued(Done, Null, st)
    ensures Fetch(key, shape, s) == GetFromSource(key, st)
  {
  }

  /** `Cache(key)` on a hit runs the rest of the chain with the cached value
      in the slot, without calling the source. */
  lemma CacheHitSkipsSource(key: string, rest: seq<Aspect>, t: Terminal, s: State)
    requires s.cacheCalls !in s.faults && Lookup(s.store, key) != Null
    ensures Exec([Cache(key)] + rest, t, s)
         == Exec(rest, t, s.(slot := Const(Lookup(s.store, key)), trace := s.trace + [CacheGet(key)],
                             cacheCalls := s.cacheCalls + 1))
  {
    assert ([Cache(key)] + rest)[1..] == rest;
    FetchHit(key, s);
  }

  /** `Cache(key)` on a miss loads from the source once, caches the value and
      runs the rest of the chain with that value in the slot. */
  lemma CacheMissLoadsOnce(key: string, rest: seq<Aspect>, t: Terminal, s: State)
    requires NoFaults(s, 2) && Lookup(s.store, key) == Null
    requires s.slot == Source && |s.work| > 0 && s.work[0].Returns?
    ensures var v := s.work[0].v;
            Exec([Cache(key)] + rest, t, s)
            == Exec(rest, t, s.(slot := Const(v), work := s.work[1..], store := s.store[key := v],
                                trace := s.trace + [CacheGet(key), WorkCalled, CacheAdd(key, v)],
                                cacheCalls := s.cacheCalls + 2))
  {
    assert ([Cache(key)] + rest)[1..] == rest;
    FetchMiss(key, s);
  }

  /** `Return` on a non-empty chain runs its layers around the slot reader,
      with the work in the slot and the result type's default in the return
      cell. */
  lemma ReturnRunsLayers(l: Let, zero: Value, s: State)
    requires l.chain.Some?
    ensures var x := Exec(Layers(l), ReadSlot, s.(slot := Source, ret := zero));
            Return(l, zero, s) == Valued(x.status, if x.status.Done? then x.st.ret else Null, x.st)
  {
  }

  /** The chain `Let.Us.Cache(key)` alone. */
  function CacheOnly(key: string): (l: Let)
    ensures Layers(l) == [Cache(key)]
  {
    BuildLayers([Cache(key)]);
    Build([Cache(key)])
  }

  /** Round trip: the first `Return` through `Cache(key)` on a miss returns
      the source's value and caches it; a second `Return` returns the same
      value from the cache without calling the source. */
  lemma CacheRoundTrip(key: string, zero: Value, s: State)
    requires NoFaults(s, 3) && Lookup(s.store, key) == Null
    requires |s.work| > 0 && s.work[0].Returns? && s.work[0].v != Null
    ensures var r1 := Return(CacheOnly(key), zero, s);
            var r2 := Return(CacheOnly(key), zero, r1.st);
            && r1.status == Done && r1.value == s.work[0].v
            && r1.st.store == s.store[key := s.work[0].v]
            && r2.status == Done && r2.value == s.work[0].v
            && r2.st.work == s.work[1..]
            && r2.st.store == r1.st.store
  {
    var l := CacheOnly(key);
    var v := s.work[0].v;
    assert [Cache(key)] + [] == [Cache(key)];
    var s1 := s.(slot := Source, ret := zero);
    assert NoFaults(s1, 2);
    ReturnRunsLayers(l, zero, s);
    CacheMissLoadsOnce(key, [], ReadSlot, s1);
    var r1 := Return(l, zero, s);
    var s2 := r1.st.(slot := Source, ret := zero);
    assert Lookup(s2.store, key) == v;
    assert s2.cacheCalls == s.cacheCalls + 2;
    ReturnRunsLayers(l, zero, r1.st);
    CacheHitSkipsSource(key, [], ReadSlot, s2);
  }

  /** A null result is cached as null, which the next `Get` cannot tell from a
      miss: the second `Return` calls the source again. */
  lemma NullResultLoadsAgain(key: string, zero: Value, s: State)
    requires NoFaults(s, 4) && Lookup(s.store, key) == Null
    requires |s.work| > 1 && s.work[0] == Returns(Null) && s.work[1].Returns?
    ensures var r1 := Return(CacheOnly(key), zero, s);
            var r2 := Return(CacheOnly(key), zero, r1.st);
            && r1.status == Done && r1.value == Null
            && r2.status == Done && r2.value == s.work[1].v
            && r2.st.work == s.work[2..]
  {
    var l := CacheOnly(key);
    assert [Cache(key)] + [] == [Cache(key)];
    var s1 := s.(slot := Source, ret := zero);
    assert NoFaults(s1, 2);
    ReturnRunsLayers(l, zero, s);
    CacheMissLoadsOnce(key, [], ReadSlot, s1);
    var r1 := Return(l, zero, s);
    var s2 := r1.st.(slot := Source, ret := zero);
    assert Lookup(s2.store, key) == Null;
    assert s2.work == s.work[1..] && s2.work[1..] == s.work[2..];
    assert s2.cacheCalls == s.cacheCalls + 2;
    assert NoFaults(s2, 2);
    ReturnRunsLayers(l, zero, r1.st);
    CacheMissLoadsOnce(key, [], ReadSlot, s2);
  }

  // ---------------------------------------------------------------- CacheList

  /** What the store holds under the keys of `items`, in order. */
  function Rebuilt(store: map<string, Value>, items: seq<Value>, itemKey: KeyFunction): (r: seq<Value>)
    ensures |r| == |items|
  {
    if |items| == 0 then [] else [Lookup(store, KeyOf(itemKey, items[0]))] + Rebuilt(store, items[1..], itemKey)
  }

  /** The rebuilt list holds, at each position, what the store holds under
      that item's key. */
  lemma {:induction false} RebuiltLooksUpEachItem(store: map<string, Value>, items: seq<Value>, itemKey: KeyFunction)
    ensures forall i :: 0 <= i < |items| ==> Rebuilt(store, items, itemKey)[i] == Lookup(store, KeyOf(itemKey, items[i]))
    decreases |items|
  {
    if |items| > 0 {
      RebuiltLooksUpEachItem(store, items[1..], itemKey);
    }
  }

  /** Every item of the list is held in the store under its own key. */
  ghost predicate AllCached(store: map<string, Value>, items: seq<Value>, itemKey: KeyFunction) {
    forall i :: 0 <= i < |items| ==> Lookup(store, KeyOf(itemKey, items[i])) != Null
  }

  /** One successful lookup of the shaping hook. */
  lemma ItemsFromCacheStep(items: seq<Value>, itemKey: KeyFunction, acc: seq<Value>, s: State)
    requires |items| > 0 && s.cacheCalls !in s.faults && Lookup(s.store, KeyOf(itemKey, items[0])) != Null
    ensures ItemsFromCache(items, itemKey, acc, s)
         == ItemsFromCache(items[1..], itemKey, acc + [Lookup(s.store, KeyOf(itemKey, items[0]))],
                           s.(trace := s.trace + [CacheGet(KeyOf(itemKey, items[0]))], cacheCalls := s.cacheCalls + 1))
  {
  }

  /** With every item cached, the shaping hook looks each one up, in order,
      and answers the list of what it found. */
  lemma {:induction false} ItemsAllCached(items: seq<Value>, itemKey: KeyFunction, acc: seq<Value>, s: State)
    requires NoFaults(s, |items|) && AllCached(s.store, items, itemKey)
    ensures ItemsFromCache(items, itemKey, acc, s)
         == Valued(Done, List(acc + Rebuilt(s.store, items, itemKey)),
                   s.(trace := s.trace + GetEvents(items, itemKey), cacheCalls := s.cacheCalls + |items|))
    decreases |items|
  {
    if |items| == 0 {
      assert acc + [] == acc;
    } else {
      var v := Lookup(s.store, KeyOf(itemKey, items[0]));
      var s1 := s.(trace := s.trace + [CacheGet(KeyOf(itemKey, items[0]))], cacheCalls := s.cacheCalls + 1);
      assert ItemsFromCache(items, itemKey, acc, s) == ItemsFromCache(items[1..], itemKey, acc + [v], s1) by {
        assert s.cacheCalls !in s.faults;
        ItemsFromCacheStep(items, itemKey, acc, s);
      }
      assert NoFaults(s1, |items| - 1);
      assert AllCached(s1.store, items[1..], itemKey) by {
        forall i | 0 <= i < |items| - 1
          ensures Lookup(s1.store, KeyOf(itemKey, items[1..][i])) != Null
        {
          assert items[1..][i] == items[i + 1];
        }
      }
      ItemsAllCached(items[1..], itemKey, acc + [v], s1);
      AppendAssoc(acc, [v], Rebuilt(s.store, items[1..], itemKey));
      AppendAssoc(s.trace, [CacheGet(KeyOf(itemKey, items[0]))], GetEvents(items[1..], itemKey));
    }
  }

  /** The first item missing from the store stops the lookups; the hook
      answers null. */
  lemma {:induction false} ItemsStopAtMissing(items: seq<Value>, itemKey: KeyFunction, acc: seq<Value>,
                                              j: nat, s: State)
    requires j < |items| && NoFaults(s, j + 1)
    requires forall i :: 0 <= i < j ==> Lookup(s.store, KeyOf(itemKey, items[i])) != Null
    requires Lookup(s.store, KeyOf(itemKey, items[j])) == Null
    ensures ItemsFromCache(items, itemKey, acc, s)
         == Valued(Done, Null, s.(trace := s.trace + GetEvents(items[..j + 1], itemKey), cacheCalls := s.cacheCalls + j + 1))
    decreases j
  {
    var k0 := KeyOf(itemKey, items[0]);
    var s1 := s.(trace := s.trace + [CacheGet(k0)], cacheCalls := s.cacheCalls + 1);
    assert GetEvents(items[..j + 1], itemKey) == [CacheGet(k0)] + GetEvents(items[1..][..j], itemKey) by {
      assert items[..j + 1][1..] == items[1..][..j];
    }
    AppendAssoc(s.trace, [CacheGet(k0)], GetEvents(items[1..][..j], itemKey));
    assert s.cacheCalls !in s.faults;
    if j > 0 {
      var v := Lookup(s.store, k0);
      assert ItemsFromCache(items, itemKey, acc, s) == ItemsFromCache(items[1..], itemKey, acc + [v], s1) by {
        ItemsFromCacheStep(items, itemKey, acc, s);
      }
      assert NoFaults(s1, j);
      forall i | 0 <= i < j - 1
        ensures Lookup(s1.store, KeyOf(itemKey, items[1..][i])) != Null
      {
        assert items[1..][i] == items[i + 1];
      }
      ItemsStopAtMissing(items[1..], itemKey, acc + [v], j - 1, s1);
    } else {
      assert GetEvents(items[1..][..0], itemKey) == [];
    }
  }

  /** CacheList's replacement delegate calls the work once and `Set`s every
      item of the list it returned under its own key, in order. */
  lemma StoreEachSetsItems(itemKey: KeyFunction, items: seq<Value>, s: State)
    requires |s.work| > 0 && s.work[0] == Returns(List(items)) && NoFaults(s, |items|)
    ensures Eval(StoreEach(Source, itemKey), s)
         == Valued(Done, List(items), s.(work := s.work[1..], trace := s.trace + [WorkCalled] + SetEvents(items, itemKey),
                                         store := StoreAll(s.store, items, itemKey),
                                         cacheCalls := s.cacheCalls + |items|))
  {
    var s0 := s.(work := s.work[1..], trace := s.trace + [WorkCalled]);
    assert Eval(Source, s) == Valued(Done, List(items), s0);
    SetEachStoresAll(items, itemKey, s0);
  }

  /** CacheList's loading path: the source is called once through the
      replacement delegate, which `Set`s every item under its own key, in
      order; the list is then `Add`ed under the list key. */
  lemma ListSourceLoad(listKey: string, itemKey: KeyFunction, items: seq<Value>, s: State)
    requires s.slot == StoreEach(Source, itemKey) && |s.work| > 0 && s.work[0] == Returns(List(items))
    requires NoFaults(s, |items| + 1)
    ensures GetFromSource(listKey, s)
         == Step(Done, s.(slot := Const(List(items)), work := s.work[1..],
                          trace := s.trace + [WorkCalled] + SetEvents(items, itemKey) + [CacheAdd(listKey, List(items))],
                          store := StoreAll(s.store, items, itemKey)[listKey := List(items)],
                          cacheCalls := s.cacheCalls + |items| + 1))
  {
    StoreEachSetsItems(itemKey, items, s);
    assert s.cacheCalls + |items| !in s.faults;
  }

  /** The chain `Let.Us.CacheList(listKey, itemKey)` alone. */
  function CacheListOnly(listKey: string, itemKey: KeyFunction): (l: Let)
    ensures Layers(l) == [CacheList(listKey, itemKey)]
  {
    BuildLayers([CacheList(listKey, itemKey)]);
    Build([CacheList(listKey, itemKey)])
  }

  /** A CacheList layer wraps the slot in the item-storing delegate before its
      cache-aside step. */
  lemma CacheListWraps(listKey: string, itemKey: KeyFunction, t: Terminal, s: State)
    ensures Exec([CacheList(listKey, itemKey)], t, s)
         == CacheAttempt(listKey, FromItems(itemKey), [], t, s.(slot := StoreEach(s.slot, itemKey)))
  {
    assert [CacheList(listKey, itemKey)][1..] == [];
  }

  /** Once the cache-aside step has left a value in the slot, the slot reader
      returns it. */
  lemma CacheAttemptReads(key: string, shape: Shape, s: State, st: State)
    requires Fetch(key, shape, s) == Step(Done, st) && st.slot.Const?
    ensures CacheAttempt(key, shape, [], ReadSlot, s) == Step(Done, st.(ret := st.slot.v))
  {
  }

  /** `Return` through CacheList: the cache-aside step runs with the work
      wrapped in the item-storing delegate; when it leaves a value in the
      slot, that value is returned. */
  lemma ReturnThroughCacheList(listKey: string, itemKey: KeyFunction, zero: Value, s: State, st: State)
    requires Fetch(listKey, FromItems(itemKey), s.(slot := StoreEach(Source, itemKey), ret := zero)) == Step(Done, st)
    requires st.slot.Const?
    ensures Return(CacheListOnly(listKey, itemKey), zero, s) == Valued(Done, st.slot.v, st.(ret := st.slot.v))
  {
    var l := CacheListOnly(listKey, itemKey);
    ReturnRunsLayers(l, zero, s);
    CacheListWraps(listKey, itemKey, ReadSlot, s.(slot := Source, ret := zero));
    CacheAttemptReads(listKey, FromItems(itemKey), s.(slot := StoreEach(Source, itemKey), ret := zero), st);
  }

  /** CacheList's cache-aside step on a miss. */
  lemma FetchListMiss(listKey: string, itemKey: KeyFunction, items: seq<Value>, s: State)
    requires s.slot == StoreEach(Source, itemKey)
    requires Lookup(s.store, listKey) == Null && NoFaults(s, |items| + 2)
    requires |s.work| > 0 && s.work[0] == Returns(List(items))
    ensures Fetch(listKey, FromItems(itemKey), s)
         == Step(Done, s.(slot := Const(List(items)), work := s.work[1..],
                          trace := s.trace + [CacheGet(listKey), WorkCalled] + SetEvents(items, itemKey)
                                   + [CacheAdd(listKey, List(items))],
                          store := StoreAll(s.store, items, itemKey)[listKey := List(items)],
                          cacheCalls := s.cacheCalls + |items| + 2))
  {
    var list := List(items);
    var s1 := s.(trace := s.trace + [CacheGet(listKey)], cacheCalls := s.cacheCalls + 1);
    var loaded := s1.(slot := Const(list), work := s1.work[1..],
                      trace := s1.trace + [WorkCalled] + SetEvents(items, itemKey) + [CacheAdd(listKey, list)],
                      store := StoreAll(s1.store, items, itemKey)[listKey := list],
                      cacheCalls := s1.cacheCalls + |items| + 1);
    assert loaded == s.(slot := Const(list), work := s.work[1..],
                        trace := s.trace + [CacheGet(listKey), WorkCalled] + SetEvents(items, itemKey)
                                 + [CacheAdd(listKey, list)],
                        store := StoreAll(s.store, items, itemKey)[listKey := list],
                        cacheCalls := s.cacheCalls + |items| + 2) by {
      AppendTwo(s.trace, CacheGet(listKey), WorkCalled);
    }
    assert GetFromSource(listKey, s1) == Step(Done, loaded) by {
      NoFaultsLater(s, |items| + 2, s1, |items| + 1);
      ListSourceLoad(listKey, itemKey, items, s1);
    }
    assert s.cacheCalls !in s.faults;
    FetchOnMiss(listKey, FromItems(itemKey), s);
  }

  /** CacheList's cache-aside step when the list and all its items are cached. */
  lemma FetchListHit(listKey: string, itemKey: KeyFunction, items: seq<Value>, s: State)
    requires Lookup(s.store, listKey) == List(items) && AllCached(s.store, items, itemKey)
    requires NoFaults(s, |items| + 1)
    ensures Fetch(listKey, FromItems(itemKey), s)
         == Step(Done, s.(slot := Const(List(Rebuilt(s.store, items, itemKey))),
                          trace := s.trace + [CacheGet(listKey)] + GetEvents(items, itemKey),
                          cacheCalls := s.cacheCalls + |items| + 1))
  {
    var s1 := s.(trace := s.trace + [CacheGet(listKey)], cacheCalls := s.cacheCalls + 1);
    var rebuilt := Rebuilt(s.store, items, itemKey);
    var st := s1.(trace := s1.trace + GetEvents(items, itemKey), cacheCalls := s1.cacheCalls + |items|);
    assert ShapeCached(FromItems(itemKey), List(items), s1) == Valued(Done, List(rebuilt), st) by {
      assert NoFaults(s1, |items|);
      ItemsAllCached(items, itemKey, [], s1);
      assert [] + rebuilt == rebuilt;
    }
    assert s.cacheCalls !in s.faults;
    FetchShapedHit(listKey, FromItems(itemKey), s, List(rebuilt), st);
  }

  /** The shaping hook on a cached list whose item `j` is the first one
      missing: the lookups up to that item, then null. */
  lemma ShapeStopsAtMissing(itemKey: KeyFunction, items: seq<Value>, j: nat, s: State)
    requires j < |items| && NoFaults(s, j + 1)
    requires forall i :: 0 <= i < j ==> Lookup(s.store, KeyOf(itemKey, items[i])) != Null
    requires Lookup(s.store, KeyOf(itemKey, items[j])) == Null
    ensures ShapeCached(FromItems(itemKey), List(items), s)
         == Valued(Done, Null, s.(trace := s.trace + GetEvents(items[..j + 1], itemKey), cacheCalls := s.cacheCalls + j + 1))
  {
    ItemsStopAtMissing(items, itemKey, [], j, s);
  }

  /** A cached list with a missing item is discarded after the lookups up to
      that item; what follows is the load from the source. */
  lemma FetchListDiscards(listKey: string, itemKey: KeyFunction, items: seq<Value>, j: nat, s: State)
    requires Lookup(s.store, listKey) == List(items) && j < |items|
    requires forall i :: 0 <= i < j ==> Lookup(s.store, KeyOf(itemKey, items[i])) != Null
    requires Lookup(s.store, KeyOf(itemKey, items[j])) == Null
    requires NoFaults(s, j + 2)
    ensures Fetch(listKey, FromItems(itemKey), s)
         == GetFromSource(listKey, s.(trace := s.trace + [CacheGet(listKey)] + GetEvents(items[..j + 1], itemKey),
                                      cacheCalls := s.cacheCalls + j + 2))
  {
    var s1 := s.(trace := s.trace + [CacheGet(listKey)], cacheCalls := s.cacheCalls + 1);
    assert s.cacheCalls !in s.faults;
    assert NoFaults(s1, j + 1);
    var sh := s.(trace := s.trace + [CacheGet(listKey)] + GetEvents(items[..j + 1], itemKey),
                 cacheCalls := s.cacheCalls + j + 2);
    assert s1.(trace := s1.trace + GetEvents(items[..j + 1], itemKey), cacheCalls := s1.cacheCalls + j + 1) == sh;
    ShapeStopsAtMissing(itemKey, items, j, s1);
    FetchShapedMiss(listKey, FromItems(itemKey), s, sh);
  }

  /** CacheList's cache-aside step when item `j` is the first one missing. */
  lemma FetchListPartialMiss(listKey: string, itemKey: KeyFunction, items: seq<Value>, j: nat,
                             reloaded: seq<Value>, s: State)
    requires s.slot == StoreEach(Source, itemKey)
    requires Lookup(s.store, listKey) == List(items) && j < |items|
    requires forall i :: 0 <= i < j ==> Lookup(s.store, KeyOf(itemKey, items[i])) != Null
    requires Lookup(s.store, KeyOf(itemKey, items[j])) == Null
    requires |s.work| > 0 && s.work[0] == Returns(List(reloaded))
    requires NoFaults(s, j + |reloaded| + 3)
    ensures Fetch(listKey, FromItems(itemKey), s)
         == Step(Done, s.(slot := Const(List(reloaded)), work := s.work[1..],
                          trace := s.trace + [CacheGet(listKey)] + GetEvents(items[..j + 1], itemKey)
                                   + [WorkCalled] + SetEvents(reloaded, itemKey) + [CacheAdd(listKey, List(reloaded))],
                          store := StoreAll(s.store, reloaded, itemKey)[listKey := List(reloaded)],
                          cacheCalls := s.cacheCalls + j + |reloaded| + 3))
  {
    var sh := s.(trace := s.trace + [CacheGet(listKey)] + GetEvents(items[..j + 1], itemKey),
                 cacheCalls := s.cacheCalls + j + 2);
    FetchListDiscards(listKey, itemKey, items, j, s);
    assert NoFaults(sh, |reloaded| + 1);
    ListSourceLoad(listKey, itemKey, reloaded, sh);
  }

  /** A list not in the cache is loaded from the source, every item is stored
      under its own key in list order, then the list under the list key; the
      source's list is returned. */
  lemma ListMissStoresEachItem(listKey: string, itemKey: KeyFunction, items: seq<Value>, zero: Value, s: State)
    requires Lookup(s.store, listKey) == Null && NoFaults(s, |items| + 2)
    requires |s.work| > 0 && s.work[0] == Returns(List(items))
    ensures var r := Return(CacheListOnly(listKey, itemKey), zero, s);
            && r.status == Done && r.value == List(items)
            && r.st.work == s.work[1..]
            && r.st.trace == s.trace + [CacheGet(listKey), WorkCalled] + SetEvents(items, itemKey)
                             + [CacheAdd(listKey, List(items))]
            && r.st.store == StoreAll(s.store, items, itemKey)[listKey := List(items)]
  {
    var s1 := s.(slot := StoreEach(Source, itemKey), ret := zero);
    FetchListMiss(listKey, itemKey, items, s1);
    ReturnThroughCacheList(listKey, itemKey, zero, s, Fetch(listKey, FromItems(itemKey), s1).st);
  }

  /** A cached list whose items are all cached is rebuilt from the cached
      items, looked up in list order; the source is never called and nothing
      is stored. */
  lemma ListHitRebuildsFromItems(listKey: string, itemKey: KeyFunction, items: seq<Value>, zero: Value, s: State)
    requires Lookup(s.store, listKey) == List(items) && AllCached(s.store, items, itemKey)
    requires NoFaults(s, |items| + 1)
    ensures var r := Return(CacheListOnly(listKey, itemKey), zero, s);
            && r.status == Done && r.value == List(Rebuilt(s.store, items, itemKey))
            && r.st.work == s.work
            && r.st.trace == s.trace + [CacheGet(listKey)] + GetEvents(items, itemKey)
            && r.st.store == s.store
  {
    var s1 := s.(slot := StoreEach(Source, itemKey), ret := zero);
    FetchListHit(listKey, itemKey, items, s1);
    ReturnThroughCacheList(listKey, itemKey, zero, s, Fetch(listKey, FromItems(itemKey), s1).st);
  }

  /** A cached list with a missing item is discarded after the lookups up to
      that item, and the whole list is reloaded from the source as on a miss. */
  lemma ListPartialMissReloads(listKey: string, itemKey: KeyFunction, items: seq<Value>, j: nat,
                               reloaded: seq<Value>, zero: Value, s: State)
    requires Lookup(s.store, listKey) == List(items) && j < |items|
    requires forall i :: 0 <= i < j ==> Lookup(s.store, KeyOf(itemKey, items[i])) != Null
    requires Lookup(s.store, KeyOf(itemKey, items[j])) == Null
    requires |s.work| > 0 && s.work[0] == Returns(List(reloaded))
    requires NoFaults(s, j + |reloaded| + 3)
    ensures var r := Return(CacheListOnly(listKey, itemKey), zero, s);
            && r.status == Done && r.value == List(reloaded)
            && r.st.work == s.work[1..]
            && r.st.trace == s.trace + [CacheGet(listKey)] + GetEvents(items[..j + 1], itemKey)
                             + [WorkCalled] + SetEvents(reloaded, itemKey) + [CacheAdd(listKey, List(reloaded))]
            && r.st.store == StoreAll(s.store, reloaded, itemKey)[listKey := List(reloaded)]
  {
    var s1 := s.(slot := StoreEach(Source, itemKey), ret := zero);
    FetchListPartialMiss(listKey, itemKey, items, j, reloaded, s1);
    ReturnThroughCacheList(listKey, itemKey, zero, s, Fetch(listKey, FromItems(itemKey), s1).st);
  }

  /** No two items of the list share a key. */
  ghost predicate DistinctKeys(items: seq<Value>, itemKey: KeyFunction) {
    forall i, j :: 0 <= i < j < |items| ==> KeyOf(itemKey, items[i]) != KeyOf(itemKey, items[j])
  }

  /** With distinct keys, storing the items leaves each one under its own key
      and every other key as it was. */
  lemma {:induction false} StoreAllHoldsItems(m: map<string, Value>, items: seq<Value>, itemKey: KeyFunction)
    requires DistinctKeys(items, itemKey)
    ensures forall i :: 0 <= i < |items| ==> Lookup(StoreAll(m, items, itemKey), KeyOf(itemKey, items[i])) == items[i]
    ensures forall k :: (forall i :: 0 <= i < |items| ==> KeyOf(itemKey, items[i]) != k)
                        ==> Lookup(StoreAll(m, items, itemKey), k) == Lookup(m, k)
    decreases |items|
  {
    if |items| > 0 {
      var k0 := KeyOf(itemKey, items[0]);
      var m' := m[k0 := items[0]];
      assert DistinctKeys(items[1..], itemKey) by {
        forall i, j | 0 <= i < j < |items| - 1
          ensures KeyOf(itemKey, items[1..][i]) != KeyOf(itemKey, items[1..][j])
        {
          assert items[1..][i] == items[i + 1] && items[1..][j] == items[j + 1];
        }
      }
      StoreAllHoldsItems(m', items[1..], itemKey);
      forall i | 0 <= i < |items|
        ensures Lookup(StoreAll(m, items, itemKey), KeyOf(itemKey, items[i])) == items[i]
      {
        if i == 0 {
          forall i' | 0 <= i' < |items| - 1 ensures KeyOf(itemKey, items[1..][i']) != k0 {
            assert items[1..][i'] == items[i' + 1];
          }
        } else {
          assert items[1..][i - 1] == items[i];
        }
      }
      forall k | forall i :: 0 <= i < |items| ==> KeyOf(itemKey, items[i]) != k
        ensures Lookup(StoreAll(m, items, itemKey), k) == Lookup(m, k)
      {
        assert KeyOf(itemKey, items[0]) != k;
        forall i' | 0 <= i' < |items| - 1 ensures KeyOf(itemKey, items[1..][i']) != k {
          assert items[1..][i'] == items[i' + 1];
        }
      }
    }
  }

  /** Round trip: with a healthy cache, distinct non-null items whose keys
      differ from the list key, the first `Return` through CacheList loads the
      list from the source and stores it and its items; the second rebuilds
      the same list from the cached items without calling the source and
      without storing anything. */
  lemma ListRoundTrip(listKey: string, itemKey: KeyFunction, items: seq<Value>, zero: Value, s: State)
    requires s.faults == map[] && Lookup(s.store, listKey) == Null
    requires |s.work| > 0 && s.work[0] == Returns(List(items))
    requires DistinctKeys(items, itemKey)
    requires forall i :: 0 <= i < |items| ==> items[i] != Null && KeyOf(itemKey, items[i]) != listKey
    ensures var r1 := Return(CacheListOnly(listKey, itemKey), zero, s);
            var r2 := Return(CacheListOnly(listKey, itemKey), zero, r1.st);
            && r1.status == Done && r1.value == List(items)
            && r2.status == Done && r2.value == List(items)
            && r2.st.work == s.work[1..]
            && r2.st.store == r1.st.store
  {
    ListMissStoresEachItem(listKey, itemKey, items, zero, s);
    var r1 := Return(CacheListOnly(listKey, itemKey), zero, s);
    var stored := StoreAll(s.store, items, itemKey);
    var store1 := stored[listKey := List(items)];
    assert r1.st.store == store1;
    StoreAllHoldsItems(s.store, items, itemKey);
    assert Lookup(store1, listKey) == List(items);
    assert AllCached(store1, items, itemKey) by {
      forall i | 0 <= i < |items| ensures Lookup(store1, KeyOf(itemKey, items[i])) == items[i] {
        assert Lookup(stored, KeyOf(itemKey, items[i])) == items[i];
      }
    }
    assert r1.st.faults == map[];
    ListHitRebuildsFromItems(listKey, itemKey, items, zero, r1.st);
    RebuiltLooksUpEachItem(store1, items, itemKey);
    assert Rebuilt(store1, items, itemKey) == items by {
      forall i | 0 <= i < |items| ensures Rebuilt(store1, items, itemKey)[i] == items[i] {
        assert Lookup(stored, KeyOf(itemKey, items[i])) == items[i];
      }
    }
  }

  // ---------------------------------------------------------------- CacheRetry

  /** A `Cache` layer and a `CacheRetry` layer in front of the rest of the chain. */
  lemma CacheLayers(key: string, rest: seq<Aspect>, t: Terminal, s: State)
    ensures Exec([Cache(key)] + rest, t, s) == CacheAttempt(key, AsIs, rest, t, s)
    ensures Exec([CacheRetry(key)] + rest, t, s) == CacheRetried(key, rest, t, s)
  {
    CacheLayer(key, rest, t, s);
    CacheRetryLayer(key, rest, t, s);
  }

  lemma CacheLayer(key: string, rest: seq<Aspect>, t: Terminal, s: State)
    ensures Exec([Cache(key)] + rest, t, s) == CacheAttempt(key, AsIs, rest, t, s)
  {
    var k := [Cache(key)] + rest;
    assert k[0] == Cache(key) && k[1..] == rest;
  }

  lemma CacheRetryLayer(key: string, rest: seq<Aspect>, t: Terminal, s: State)
    ensures Exec([CacheRetry(key)] + rest, t, s) == CacheRetried(key, rest, t, s)
  {
    var k := [CacheRetry(key)] + rest;
    assert k[0] == CacheRetry(key) && k[1..] == rest;
  }

  /** When a plain `Cache` attempt (continuation included) does not throw,
      `CacheRetry` behaves exactly like `Cache`: nothing is logged, nobody
      sleeps and nothing is retried. */
  lemma CacheRetryWithoutFailure(key: string, rest: seq<Aspect>, t: Terminal, s: State)
    requires !Exec([Cache(key)] + rest, t, s).status.Thrown?
    ensures Exec([CacheRetry(key)] + rest, t, s) == Exec([Cache(key)] + rest, t, s)
  {
    CacheLayers(key, rest, t, s);
  }

  /** When the first `Cache` attempt throws, the failure is logged, the thread
      sleeps 1000 ms and one more `Cache` attempt runs from there. If that one
      succeeds its outcome is the outcome; if it throws too, its exception is
      logged and rethrown; there is no third attempt. */
  lemma CacheRetryAfterFailure(key: string, rest: seq<Aspect>, t: Terminal, s: State)
    requires Exec([Cache(key)] + rest, t, s).status.Thrown?
    ensures var a1 := Exec([Cache(key)] + rest, t, s);
            var a2 := Exec([Cache(key)] + rest, t, EmitAll(a1.st, [ExceptionLogged(a1.status.e), Slept(1000)]));
            && (!a2.status.Thrown? ==> Exec([CacheRetry(key)] + rest, t, s) == a2)
            && (a2.status.Thrown? ==>
                  Exec([CacheRetry(key)] + rest, t, s) == Step(a2.status, Emit(a2.st, ExceptionLogged(a2.status.e))))
  {
    CacheLayers(key, rest, t, s);
    var a1 := Exec([Cache(key)] + rest, t, s);
    CacheLayers(key, rest, t, EmitAll(a1.st, [ExceptionLogged(a1.status.e), Slept(1000)]));
  }

  /** The chain `Let.Us.CacheRetry(key)` alone. */
  function CacheRetryOnly(key: string): (l: Let)
    ensures Layers(l) == [CacheRetry(key)]
  {
    BuildLayers([CacheRetry(key)]);
    Build([CacheRetry(key)])
  }

  /** The retried layer on its own when the first `Get` fails and the second
      finds the key: the slot reader returns the cached value. */
  lemma CacheRetryGetFailureStep(key: string, s: State)
    requires s.cacheCalls in s.faults && s.cacheCalls + 1 !in s.faults
    requires Lookup(s.store, key) != Null
    ensures var v := Lookup(s.store, key);
            Exec([CacheRetry(key)], ReadSlot, s)
            == Step(Done, s.(slot := Const(v), ret := v, cacheCalls := s.cacheCalls + 2,
                             trace := s.trace + [CacheGet(key)] + [ExceptionLogged(s.faults[s.cacheCalls]), Slept(1000)]
                                      + [CacheGet(key)]))
  {
    var e := s.faults[s.cacheCalls];
    var v := Lookup(s.store, key);
    assert [Cache(key)] + [] == [Cache(key)] && [CacheRetry(key)] + [] == [CacheRetry(key)];
    CacheLayers(key, [], ReadSlot, s);
    FetchGetFails(key, AsIs, s);
    var failed := s.(trace := s.trace + [CacheGet(key)], cacheCalls := s.cacheCalls + 1);
    assert Exec([Cache(key)], ReadSlot, s) == Step(Thrown(e), failed);
    var s2 := EmitAll(failed, [ExceptionLogged(e), Slept(1000)]);
    var hit := s2.(slot := Const(v), trace := s2.trace + [CacheGet(key)], cacheCalls := s2.cacheCalls + 1);
    CacheHitSkipsSource(key, [], ReadSlot, s2);
    assert Exec([Cache(key)], ReadSlot, s2) == Step(Done, hit.(ret := v));
    CacheRetryAfterFailure(key, [], ReadSlot, s);
  }

  /** The first `Get` fails (the cache service is unavailable): the failure is
      logged, the thread sleeps, and the second attempt finds the value in the
      cache and returns it; the source is never called. */
  lemma CacheRetryOutlastsGetFailure(key: string, zero: Value, s: State)
    requires s.cacheCalls in s.faults && s.cacheCalls + 1 !in s.faults
    requires Lookup(s.store, key) != Null
    ensures var r := Return(CacheRetryOnly(key), zero, s);
            && r.status == Done && r.value == Lookup(s.store, key)
            && r.st.work == s.work && r.st.store == s.store
            && r.st.trace == s.trace + [CacheGet(key), ExceptionLogged(s.faults[s.cacheCalls]), Slept(1000), CacheGet(key)]
  {
    var e := s.faults[s.cacheCalls];
    ReturnRunsLayers(CacheRetryOnly(key), zero, s);
    CacheRetryGetFailureStep(key, s.(slot := Source, ret := zero));
    assert s.trace + [CacheGet(key)] + [ExceptionLogged(e), Slept(1000)] + [CacheGet(key)]
        == s.trace + [CacheGet(key), ExceptionLogged(e), Slept(1000), CacheGet(key)];
  }

  // ---------------------------------------------------------------- Retry around Cache

  /** `Cache(key)` alone under `Return`, on a miss whose load fails: the
      source's exception propagates after the `Get` and the call. */
  lemma CacheLoadFails(key: string, s: State)
    requires s.cacheCalls !in s.faults && Lookup(s.store, key) == Null
    requires s.slot == Source && |s.work| > 0 && s.work[0].Throws?
    ensures Exec([Cache(key)], ReadSlot, s)
         == Step(Thrown(s.work[0].e), s.(work := s.work[1..], trace := s.trace + [CacheGet(key), WorkCalled],
                                         cacheCalls := s.cacheCalls + 1))
  {
    assert [Cache(key)] + [] == [Cache(key)];
    CacheLayers(key, [], ReadSlot, s);
    FetchMissSourceFails(key, s);
  }

  /** `Cache(key)` alone under `Return`, on a miss whose load succeeds: the
      loaded value is added and returned. */
  lemma CacheLoadSucceeds(key: string, s: State)
    requires NoFaults(s, 2) && Lookup(s.store, key) == Null
    requires s.slot == Source && |s.work| > 0 && s.work[0].Returns?
    ensures var v := s.work[0].v;
            Exec([Cache(key)], ReadSlot, s)
            == Step(Done, s.(slot := Const(v), ret := v, work := s.work[1..], store := s.store[key := v],
                             trace := s.trace + [CacheGet(key), WorkCalled, CacheAdd(key, v)],
                             cacheCalls := s.cacheCalls + 2))
  {
    assert [Cache(key)] + [] == [Cache(key)];
    CacheMissLoadsOnce(key, [], ReadSlot, s);
  }

  /** `Retry` directly around `Cache(key)` when the key is missing and the
      source fails once and then returns: the failed load adds nothing, the
      failure is logged and slept on, and the second pass through the
      cache-aside step misses again, loads and adds the value once. */
  lemma RetriedCacheLoad(key: string, s: State)
    requires NoFaults(s, 3) && Lookup(s.store, key) == Null && s.slot == Source
    requires |s.work| > 1 && s.work[0].Throws? && s.work[1].Returns?
    ensures var e := s.work[0].e;
            var v := s.work[1].v;
            Exec([Retry(1000, 1, DoNothing, DoNothing), Cache(key)], ReadSlot, s)
            == Step(Done, s.(slot := Const(v), ret := v, work := s.work[2..], store := s.store[key := v],
                             trace := s.trace + [CacheGet(key), WorkCalled] + [ExceptionLogged(e), Slept(1000)]
                                      + [CacheGet(key), WorkCalled, CacheAdd(key, v)],
                             cacheCalls := s.cacheCalls + 3))
  {
    var e := s.work[0].e;
    assert [Retry(1000, 1, DoNothing, DoNothing), Cache(key)][1..] == [Cache(key)];
    assert s.cacheCalls !in s.faults;
    CacheLoadFails(key, s);
    var failed := s.(work := s.work[1..], trace := s.trace + [CacheGet(key), WorkCalled], cacheCalls := s.cacheCalls + 1);
    var s2 := EmitAll(failed, Handled(e, 1000, DoNothing));
    RetryLoopRetries([Cache(key)], ReadSlot, 1000, DoNothing, DoNothing, 1, [], s);
    assert s2.trace == failed.trace + [ExceptionLogged(e), Slept(1000)];
    assert NoFaults(s2, 2);
    CacheLoadSucceeds(key, s2);
    RetryLoopStops([Cache(key)], ReadSlot, 1000, DoNothing, DoNothing, 0, [e], s2);
  }

  /** `Let.Us.Retry().Cache(key).Return(work)` when the work fails on its first
      call: the retried cache-aside step returns the work's second value, which
      is added to the cache exactly once. */
  lemma RetryRecoversCacheLoad(key: string, zero: Value, s: State)
    requires NoFaults(s, 3) && Lookup(s.store, key) == Null
    requires |s.work| > 1 && s.work[0].Throws? && s.work[1].Returns?
    ensures var r := Return(Combine(RetryDefault(Us()), Cache(key)), zero, s);
            && r.status == Done && r.value == s.work[1].v
            && r.st.work == s.work[2..]
            && r.st.store == s.store[key := s.work[1].v]
            && r.st.trace == s.trace + [CacheGet(key), WorkCalled, ExceptionLogged(s.work[0].e), Slept(1000),
                                        CacheGet(key), WorkCalled, CacheAdd(key, s.work[1].v)]
  {
    var l := Combine(RetryDefault(Us()), Cache(key));
    assert Layers(l) == [Retry(1000, 1, DoNothing, DoNothing), Cache(key)];
    ReturnRunsLayers(l, zero, s);
    var s1 := s.(slot := Source, ret := zero);
    assert NoFaults(s1, 3);
    RetriedCacheLoad(key, s1);
    assert s1.work[2..] == s.work[2..];
  }
}
