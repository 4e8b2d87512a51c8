/** The cache store (`ICache`) as the chain uses it: `Get`, `Add` and `Set`.
    Every call is recorded in the trace and numbered; a call whose number is
    in the fault script throws that exception and changes nothing. */
module Store {
  import opened Model

  /** What `Get(key)` answers when the call does not fail: the stored value, or
      null for a key the store does not hold. */
  function Lookup(store: map<string, Value>, key: string): Value {
    if key in store then store[key] else Null
  }

  /** Records and numbers one cache call; its status says whether it failed. */
  function Call(ev: Event, s: State): (r: Step)
    ensures Follows(s, r.st)
  {
    var s' := s.(trace := s.trace + [ev], cacheCalls := s.cacheCalls + 1);
    if s.cacheCalls in s.faults then Step(Thrown(s.faults[s.cacheCalls]), s') else Step(Done, s')
  }

  function Get(key: string, s: State): (r: Valued)
    ensures Follows(s, r.st)
    ensures r.st.trace == s.trace + [CacheGet(key)] && r.st.store == s.store
    ensures r.status.Done? <==> s.cacheCalls !in s.faults
    ensures r.value == if r.status.Done? then Lookup(s.store, key) else Null
  {
    var c := Call(CacheGet(key), s);
    Valued(c.status, if c.status.Done? then Lookup(s.store, key) else Null, c.st)
  }

  /** `Add(key, v)`: the store keeps the value under `key`. */
  function Add(key: string, v: Value, s: State): (r: Step)
    ensures Follows(s, r.st)
    ensures r.st.trace == s.trace + [CacheAdd(key, v)]
    ensures r.status.Done? <==> s.cacheCalls !in s.faults
    ensures r.status.Done? ==> Lookup(r.st.store, key) == v
    ensures !r.status.Done? ==> r.st.store == s.store
  {
    var c := Call(CacheAdd(key, v), s);
    if c.status.Done? then Step(Done, c.st.(store := s.store[key := v])) else c
  }

  /** `Set(key, v)`: the store keeps the value under `key`. */
  function Set(key: string, v: Value, s: State): (r: Step)
    ensures Follows(s, r.st)
    ensures r.st.trace == s.trace + [CacheSet(key, v)]
    ensures r.status.Done? <==> s.cacheCalls !in s.faults
    ensures r.status.Done? ==> Lookup(r.st.store, key) == v
    ensures !r.status.Done? ==> r.st.store == s.store
  {
    var c := Call(CacheSet(key, v), s);
    if c.status.Done? then Step(Done, c.st.(store := s.store[key := v])) else c
  }

  /** Round trip: a `Get` right after a successful `Add` or `Set` answers the
      value written for that key, and what was stored before for any other. */
  lemma GetAfterWrite(key: string, other: string, v: Value, add: bool, s: State)
    requires s.cacheCalls !in s.faults && s.cacheCalls + 1 !in s.faults
    ensures var w := if add then Add(key, v, s) else Set(key, v, s);
            var g := Get(other, w.st);
            && w.status.Done? && g.status.Done?
            && g.value == (if other == key then v else Lookup(s.store, other))
  {
  }
}
