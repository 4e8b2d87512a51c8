/** Shared vocabulary of the AspectF model: values, exceptions, the trace of
    observable effects, the work slot and the execution state that every
    decorator threads through. */
module Model {

  datatype Option<+T> = None | Some(value: T)

  /** A runtime value as the chain sees it (`object` in C#). `Null` is the null
      reference; the cache store also answers `Null` for a key it does not hold. */
  datatype Value =
    | Null
    | Num(n: int)
    | Text(s: string)
    | Obj(id: nat)
    | List(items: seq<Value>)

  /** An exception. `Raised` comes from the scripted work or cache store and
      carries the names of the classes it is an instance of; the others are the
      exceptions the decorators themselves raise. */
  datatype Exn =
    | Raised(classes: set<string>, tag: nat)
    | ArgumentError(index: nat)   // MustBeNonNull / MustBeNonDefault: "Parameter at index {i} is null"
    | NullReference               // CacheList enumerating a null list
    | InvalidCast                 // a cached value that is not the list type CacheList expects

  const ExceptionClass := "System.Exception"

  /** Every class an exception is an instance of; every exception is a System.Exception. */
  function Classes(e: Exn): (cs: set<string>)
    ensures ExceptionClass in cs
  {
    match e
    case Raised(cs, _) => cs + {ExceptionClass}
    case ArgumentError(_) => {"System.ArgumentException", "System.SystemException", ExceptionClass}
    case NullReference => {"System.NullReferenceException", "System.SystemException", ExceptionClass}
    case InvalidCast => {"System.InvalidCastException", "System.SystemException", ExceptionClass}
  }

  /** `catch (C x)` catches `e`. */
  predicate IsA(e: Exn, cls: string) {
    cls in Classes(e)
  }

  /** What one call of the caller's work does. */
  datatype Outcome = Returns(v: Value) | Throws(e: Exn)

  /** Observable effects, in the order they happen: calls of the work, predicate
      evaluations, logger calls, the caller's retry handlers, sleeps, cache calls. */
  datatype Event =
    | WorkCalled
    | Evaluated(answer: bool)
    | Message(msg: string)
    | CategorizedMessage(categories: seq<string>, msg: string)
    | ExceptionLogged(e: Exn)
    | ErrorHandled(e: Exn)
    | AllFailed(errors: seq<Exn>)
    | Slept(ms: int)
    | TransactionCompleted
    | CacheGet(key: string)
    | CacheAdd(key: string, v: Value)
    | CacheSet(key: string, v: Value)

  /** The logger call that `Log(categories, message)` or `Log(message)` makes. */
  function LogEvent(categories: Option<seq<string>>, msg: string): Event {
    match categories
    case Some(cs) => CategorizedMessage(cs, msg)
    case None => Message(msg)
  }

  /** The caller's `getItemKey`. One run applies it to finitely many items, so
      any such function is, for that run, a finite table of keys together with
      the key of every other item. */
  datatype KeyFunction = KeyTable(keys: map<Value, string>, otherwise: string)

  function KeyOf(f: KeyFunction, v: Value): string {
    if v in f.keys then f.keys[v] else f.otherwise
  }

  /** The content of the work slot (`WorkDelegate`): no delegate, the caller's
      work, a constant-returning delegate left by a cache decorator, or the
      delegate CacheList installs that stores each item of the inner list. */
  datatype Thunk =
    | NoWork
    | Source
    | Const(v: Value)
    | StoreEach(inner: Thunk, itemKey: KeyFunction)

  /** Everything one execution reads and changes. `work` and `tests` are the
      scripted answers of the caller's work and predicates, consumed from the
      front; `faults` says which cache call (numbered from 0) throws what. */
  datatype State = State(
    slot: Thunk,
    ret: Value,
    store: map<string, Value>,
    trace: seq<Event>,
    work: seq<Outcome>,
    tests: seq<bool>,
    faults: map<nat, Exn>,
    cacheCalls: nat)

  /** How a piece of the chain ended. `Stuck` means the script ran out: the
      program would block or loop beyond what the script determines. */
  datatype Status = Done | Thrown(e: Exn) | Stuck

  datatype Step = Step(status: Status, st: State)
  datatype Valued = Valued(status: Status, value: Value, st: State)

  /** `s'` is reachable from `s`: scripts only shrink, the trace only grows,
      the fault script is fixed and cache calls are only counted up. */
  ghost predicate Follows(s: State, s': State) {
    && |s'.work| <= |s.work|
    && |s'.tests| <= |s.tests|
    && s.trace <= s'.trace
    && s'.faults == s.faults
    && s.cacheCalls <= s'.cacheCalls
  }

  lemma FollowsTrans(a: State, b: State, c: State)
    requires Follows(a, b) && Follows(b, c)
    ensures Follows(a, c)
  {
    assert a.trace <= c.trace by {
      assert c.trace[..|a.trace|] == c.trace[..|b.trace|][..|a.trace|];
    }
  }

  /** Concatenation regroups freely; stated once over plain sequences so that
      proofs about traces need not redo it. */
  lemma AppendAssoc<T>(a: seq<T>, b: seq<T>, c: seq<T>)
    ensures a + b + c == a + (b + c)
  {
  }

  /** Two events appended one at a time, or together. */
  lemma AppendTwo(t: seq<Event>, a: Event, b: Event)
    ensures t + [a] + [b] == t + [a, b]
  {
  }

  function Emit(s: State, e: Event): (s': State)
    ensures Follows(s, s') && s'.trace == s.trace + [e]
  {
    s.(trace := s.trace + [e])
  }

  function EmitAll(s: State, es: seq<Event>): (s': State)
    ensures Follows(s, s') && s'.trace == s.trace + es
  {
    s.(trace := s.trace + es)
  }
}
