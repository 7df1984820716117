/** The three routing tables of the bus as a value, and the pure
    specification of every operation on them. The class Minibus.Bus is
    proved against these functions. */
module Registry {
  import opened Values
  import opened Resolve

  /** handlers: one callable per key; listeners: an ordered list per key;
      wildcards: one ordered list for every event. */
  datatype Tables = Tables(
    handlers: map<string, Callable>,
    listeners: map<string, seq<Callable>>,
    wildcards: seq<Callable>)

  /** The tables of a freshly constructed bus. */
  const Empty: Tables := Tables(map[], map[], [])

  /** A key is only ever created in `listeners` together with its first
      listener, so no present key holds an empty list. */
  predicate WellFormed(t: Tables)
  {
    forall k | k in t.listeners :: t.listeners[k] != []
  }

  /** The listeners registered for key k, in registration order. */
  function ListenersOf(t: Tables, k: string): seq<Callable>
  {
    if k in t.listeners then t.listeners[k] else []
  }

  /** The handler registered for key k, if any. */
  function HandlerOf(t: Tables, k: string): Option<Callable>
  {
    if k in t.handlers then Some(t.handlers[k]) else None
  }

  /** addHandler: resolve the key, refuse a key that already has a handler,
      otherwise bind the key to the handler. */
  function AddHandler(t: Tables, h: Callable, hint: Hint): (r: Result<Tables>)
    ensures r.Ok? <==> HandlerType(h, hint).Ok? && HandlerType(h, hint).value !in t.handlers
    ensures HandlerType(h, hint).Err? ==>
              r == Err(if h.sig.Unreflectable? then ReflectionFailed else AmbiguousHandlerType)
    ensures HandlerType(h, hint).Ok? && HandlerType(h, hint).value in t.handlers ==>
              r == Err(DuplicateHandler(HandlerType(h, hint).value))
    ensures r.Ok? ==>
              && HandlerOf(r.value, HandlerType(h, hint).value) == Some(h)
              && (forall other | other != HandlerType(h, hint).value :: HandlerOf(r.value, other) == HandlerOf(t, other))
              && r.value.listeners == t.listeners
              && r.value.wildcards == t.wildcards
  {
    match HandlerType(h, hint)
    case Err(e) => Err(e)
    case Ok(k) =>
      if k in t.handlers then Err(DuplicateHandler(k))
      else Ok(t.(handlers := t.handlers[k := h]))
  }

  /** addListener: resolve the key and append the listener to that key's
      list, creating the list when the key is new. */
  function AddListener(t: Tables, l: Callable, hint: Hint): (r: Result<Tables>)
    ensures r.Ok? <==> HandlerType(l, hint).Ok?
    ensures r.Err? ==> r.error == (if l.sig.Unreflectable? then ReflectionFailed else AmbiguousHandlerType)
    ensures r.Ok? ==>
              && ListenersOf(r.value, HandlerType(l, hint).value)
                   == ListenersOf(t, HandlerType(l, hint).value) + [l]
              && (forall other | other != HandlerType(l, hint).value :: ListenersOf(r.value, other) == ListenersOf(t, other))
              && r.value.handlers == t.handlers
              && r.value.wildcards == t.wildcards
    ensures r.Ok? && WellFormed(t) ==> WellFormed(r.value)
  {
    match HandlerType(l, hint)
    case Err(e) => Err(e)
    case Ok(k) => Ok(t.(listeners := t.listeners[k := ListenersOf(t, k) + [l]]))
  }

  /** addWildcard: append to the wildcard list; no key is resolved. */
  function AddWildcard(t: Tables, w: Callable): (r: Tables)
    ensures r.wildcards == t.wildcards + [w]
    ensures r.handlers == t.handlers && r.listeners == t.listeners
    ensures WellFormed(t) ==> WellFormed(r)
  {
    t.(wildcards := t.wildcards + [w])
  }

  /** What a registration does to the bus's state: on success the new
      tables are committed, on failure the error is raised and the tables
      are left exactly as they were. */
  predicate Committed(before: Tables, step: Result<Tables>, status: Result<()>, after: Tables)
  {
    match step
    case Ok(t) => status == Ok(()) && after == t
    case Err(e) => status == Err(e) && after == before
  }

  /** The handler dispatch invokes for a message: the one bound to the
      message's key, or the error dispatch raises before invoking anything. */
  function Route(t: Tables, m: Value, hint: Hint): (r: Result<Callable>)
    ensures r.Ok? <==> CommandType(m, hint).Ok? && CommandType(m, hint).value in t.handlers
    ensures r.Ok? ==> r.value == t.handlers[CommandType(m, hint).value]
    ensures CommandType(m, hint).Err? ==> r == Err(AmbiguousMessageType)
    ensures CommandType(m, hint).Ok? && CommandType(m, hint).value !in t.handlers ==>
              r == Err(NoHandler(CommandType(m, hint).value))
  {
    match CommandType(m, hint)
    case Err(e) => Err(e)
    case Ok(k) => if k in t.handlers then Ok(t.handlers[k]) else Err(NoHandler(k))
  }

  /** A user call seen from the caller of dispatch: its return value is
      passed through, and so is anything it throws. */
  function PassThrough(o: Outcome): (r: Result<Value>)
    ensures o.Returned? <==> r.Ok?
    ensures r.Ok? ==> r.value == o.value
    ensures r.Err? ==> r.error == Uncaught(o.exception)
  {
    match o
    case Returned(v) => Ok(v)
    case Threw(x) => Err(Uncaught(x))
  }

  /** Everything publish invokes for key k: that key's listeners, then
      every wildcard, each list in its own order. */
  function Targets(t: Tables, k: string): seq<Callable>
  {
    ListenersOf(t, k) + t.wildcards
  }

  /** Under well-formedness, publish's `array_key_exists` test on the
      listeners table is exactly "the key has listeners". */
  lemma ListenerKeyPresent(t: Tables, k: string)
    requires WellFormed(t)
    ensures k in t.listeners <==> ListenersOf(t, k) != []
  {
  }

  /** `invoked` is what a loop that calls `targets` in order and lets the
      first exception escape actually calls, and `status` is how it ends:
      either every target returned, or the last one invoked threw and
      nothing after it ran. The loop's calls are the calls numbered `from`,
      `from + 1`, ... of the whole publish. */
  ghost predicate FailFast(targets: seq<Callable>, from: nat, event: Value, call: UserCode,
                           invoked: seq<Callable>, status: Result<()>)
  {
    && invoked <= targets
    && (forall i | 0 <= i < |invoked| - 1 :: call(from + i, invoked[i], event).Returned?)
    && match status
       case Ok(_) =>
         invoked == targets
         && (invoked == [] || call(from + |invoked| - 1, invoked[|invoked| - 1], event).Returned?)
       case Err(e) =>
         invoked != [] && call(from + |invoked| - 1, invoked[|invoked| - 1], event).Threw?
         && e == Uncaught(call(from + |invoked| - 1, invoked[|invoked| - 1], event).exception)
  }

  /** A loop that has seen `targets[..n]` return and `targets[n]` throw
      ends there, with that exception. */
  lemma FailFastStop(targets: seq<Callable>, from: nat, event: Value, call: UserCode, n: nat)
    requires n < |targets|
    requires forall j | 0 <= j < n :: call(from + j, targets[j], event).Returned?
    requires call(from + n, targets[n], event).Threw?
    ensures FailFast(targets, from, event, call, targets[..n + 1],
                     Err(Uncaught(call(from + n, targets[n], event).exception)))
  {
  }

  /** A loop that has seen every target return ends normally. */
  lemma FailFastAll(targets: seq<Callable>, from: nat, event: Value, call: UserCode)
    requires forall j | 0 <= j < |targets| :: call(from + j, targets[j], event).Returned?
    ensures FailFast(targets, from, event, call, targets, Ok(()))
  {
  }

  /** A loop over `a` that aborted is also the whole of a loop over
      `a + b`: nothing of `b` runs. */
  lemma FailFastAbortedPrefix(a: seq<Callable>, b: seq<Callable>, from: nat, event: Value, call: UserCode,
                              invoked: seq<Callable>, status: Result<()>)
    requires FailFast(a, from, event, call, invoked, status) && status.Err?
    ensures FailFast(a + b, from, event, call, invoked, status)
  {
  }

  /** A loop over `a` that completed, followed by a loop over `b` that
      numbers its calls on from there, behaves as one loop over `a + b`. */
  lemma FailFastThen(a: seq<Callable>, b: seq<Callable>, from: nat, event: Value, call: UserCode,
                     first: seq<Callable>, rest: seq<Callable>, status: Result<()>)
    requires FailFast(a, from, event, call, first, Ok(()))
    requires FailFast(b, from + |a|, event, call, rest, status)
    ensures FailFast(a + b, from, event, call, first + rest, status)
  {
  }

  /** The reference definition of the same loop, one call at a time: the
      first target runs, and the rest run only if it returned. */
  function Deliver(targets: seq<Callable>, from: nat, event: Value, call: UserCode)
    : (seq<Callable>, Result<()>)
  {
    if targets == [] then ([], Ok(()))
    else match call(from, targets[0], event)
      case Threw(x) => ([targets[0]], Err(Uncaught(x)))
      case Returned(_) =>
        var later := Deliver(targets[1..], from + 1, event, call);
        ([targets[0]] + later.0, later.1)
  }

  /** A first call that returned, followed by a fail-fast loop over the
      rest numbered on from the next position, is a fail-fast loop. */
  lemma FailFastCons(targets: seq<Callable>, from: nat, event: Value, call: UserCode,
                     rest: seq<Callable>, status: Result<()>)
    requires targets != [] && call(from, targets[0], event).Returned?
    requires FailFast(targets[1..], from + 1, event, call, rest, status)
    ensures FailFast(targets, from, event, call, [targets[0]] + rest, status)
  {
    var invoked := [targets[0]] + rest;
    assert targets == [targets[0]] + targets[1..];
    forall i | 0 <= i < |invoked| - 1
      ensures call(from + i, invoked[i], event).Returned?
    {
      if i > 0 {
        assert invoked[i] == rest[i - 1];
      }
    }
    if rest != [] {
      assert invoked[|invoked| - 1] == rest[|rest| - 1];
    }
  }

  /** A fail-fast loop that made more than one call began with a call that
      returned, and its later calls are a fail-fast loop over the rest. */
  lemma FailFastTail(targets: seq<Callable>, from: nat, event: Value, call: UserCode,
                     invoked: seq<Callable>, status: Result<()>)
    requires FailFast(targets, from, event, call, invoked, status) && |invoked| > 1
    ensures targets != [] && invoked[0] == targets[0] && call(from, targets[0], event).Returned?
    ensures invoked == [targets[0]] + invoked[1..]
    ensures FailFast(targets[1..], from + 1, event, call, invoked[1..], status)
  {
    var tail := invoked[1..];
    assert call(from + 0, invoked[0], event).Returned?;
    forall i | 0 <= i < |tail| - 1
      ensures call(from + 1 + i, tail[i], event).Returned?
    {
      assert tail[i] == invoked[i + 1];
      assert call(from + (i + 1), invoked[i + 1], event).Returned?;
    }
    assert tail[|tail| - 1] == invoked[|invoked| - 1];
  }

  /** The reference trace is a fail-fast trace. */
  lemma {:induction false} DeliverIsFailFast(targets: seq<Callable>, from: nat, event: Value, call: UserCode)
    ensures FailFast(targets, from, event, call, Deliver(targets, from, event, call).0,
                     Deliver(targets, from, event, call).1)
  {
    if targets != [] && call(from, targets[0], event).Returned? {
      DeliverIsFailFast(targets[1..], from + 1, event, call);
      var later := Deliver(targets[1..], from + 1, event, call);
      FailFastCons(targets, from, event, call, later.0, later.1);
    }
  }

  /** A fail-fast trace is the reference trace: FailFast admits exactly one
      trace and one ending, so it specifies publish's loops completely. */
  lemma {:induction false} FailFastIsDeliver(targets: seq<Callable>, from: nat, event: Value, call: UserCode,
                                             invoked: seq<Callable>, status: Result<()>)
    requires FailFast(targets, from, event, call, invoked, status)
    ensures (invoked, status) == Deliver(targets, from, event, call)
  {
    if targets == [] {
      assert invoked == [];
      UnitResult(status);
    } else if |invoked| > 1 {
      FailFastTail(targets, from, event, call, invoked, status);
      FailFastIsDeliver(targets[1..], from + 1, event, call, invoked[1..], status);
    } else {
      assert invoked == [targets[0]];
      if status.Ok? {
        assert targets == [targets[0]];
        assert call(from, targets[0], event).Returned?;
        assert targets[1..] == [];
        assert [targets[0]] + [] == [targets[0]];
        UnitResult(status);
      } else {
        assert call(from, targets[0], event).Threw?;
      }
    }
  }
}
