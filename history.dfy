/** What the tables hold after any sequence of registrations, stated in
    terms of the registrations alone: the ordering and uniqueness promises
    of the bus. A registration that raises leaves the tables unchanged, as
    for a caller that catches the exception and carries on. */
module History {
  import opened Values
  import opened Resolve
  import opened Registry

  /** One call to addHandler, addListener or addWildcard. */
  datatype Registration =
    | HandlerReg(handler: Callable, hint: Hint)
    | ListenerReg(listener: Callable, hint: Hint)
    | WildcardReg(wildcard: Callable)

  /** The tables after one registration. */
  function Apply(t: Tables, op: Registration): Tables
  {
    match op
    case HandlerReg(h, hh) =>
      var step := AddHandler(t, h, hh);
      if step.Ok? then step.value else t
    case ListenerReg(l, lh) =>
      var next := AddListener(t, l, lh);
      if next.Ok? then next.value else t
    case WildcardReg(w) => AddWildcard(t, w)
  }

  /** The tables after the registrations `ops`, in order. */
  function Replay(t: Tables, ops: seq<Registration>): Tables
    decreases |ops|
  {
    if ops == [] then t else Replay(Apply(t, ops[0]), ops[1..])
  }

  /** The listeners among `ops` that resolve to key k, in order. */
  function ListenersFor(ops: seq<Registration>, k: string): seq<Callable>
    decreases |ops|
  {
    if ops == [] then []
    else
      var here := if ops[0].ListenerReg? && HandlerType(ops[0].listener, ops[0].hint) == Ok(k)
                  then [ops[0].listener] else [];
      here + ListenersFor(ops[1..], k)
  }

  /** The wildcards among `ops`, in order. */
  function WildcardsOf(ops: seq<Registration>): seq<Callable>
    decreases |ops|
  {
    if ops == [] then []
    else (if ops[0].WildcardReg? then [ops[0].wildcard] else []) + WildcardsOf(ops[1..])
  }

  /** The first handler among `ops` that resolves to key k. */
  function FirstHandlerFor(ops: seq<Registration>, k: string): Option<Callable>
    decreases |ops|
  {
    if ops == [] then None
    else if ops[0].HandlerReg? && HandlerType(ops[0].handler, ops[0].hint) == Ok(k) then Some(ops[0].handler)
    else FirstHandlerFor(ops[1..], k)
  }

  /** Concatenation is associative. */
  lemma AppendAssoc(a: seq<Callable>, b: seq<Callable>, c: seq<Callable>)
    ensures (a + b) + c == a + (b + c)
  {
  }

  /** One registration adds to k's list exactly the listener it contributes
      to ListenersFor, if any. */
  lemma ApplyListeners(t: Tables, op: Registration, k: string)
    ensures ListenersOf(Apply(t, op), k) == ListenersOf(t, k) + ListenersFor([op], k)
  {
    assert [op][1..] == [];
  }

  /** ListenersFor of a non-empty sequence: the first registration's
      contribution, then the rest's. */
  lemma ListenersForSplit(ops: seq<Registration>, k: string)
    requires ops != []
    ensures ListenersFor(ops, k) == ListenersFor([ops[0]], k) + ListenersFor(ops[1..], k)
  {
    assert [ops[0]][1..] == [];
  }

  /** Listeners of a key are kept in registration order: the list for k is
      the old list followed by every later listener that resolved to k. */
  lemma {:induction false} ReplayListeners(t: Tables, ops: seq<Registration>, k: string)
    ensures ListenersOf(Replay(t, ops), k) == ListenersOf(t, k) + ListenersFor(ops, k)
    decreases |ops|
  {
    if ops != [] {
      var t1 := Apply(t, ops[0]);
      ReplayListeners(t1, ops[1..], k);
      ApplyListeners(t, ops[0], k);
      var here, later := ListenersFor([ops[0]], k), ListenersFor(ops[1..], k);
      ListenersForSplit(ops, k);
      assert Replay(t, ops) == Replay(t1, ops[1..]);
      AppendAssoc(ListenersOf(t, k), here, later);
    }
  }

  /** One registration adds to the wildcards exactly the wildcard it
      contributes to WildcardsOf, if any. */
  lemma ApplyWildcards(t: Tables, op: Registration)
    ensures Apply(t, op).wildcards == t.wildcards + WildcardsOf([op])
  {
    assert [op][1..] == [];
    match op
    case HandlerReg(h, hh) =>
      assert AddHandler(t, h, hh).Ok? ==> AddHandler(t, h, hh).value.wildcards == t.wildcards;
    case ListenerReg(l, lh) =>
      assert AddListener(t, l, lh).Ok? ==> AddListener(t, l, lh).value.wildcards == t.wildcards;
    case WildcardReg(w) =>
  }

  /** Wildcards are kept in registration order. */
  lemma {:induction false} ReplayWildcards(t: Tables, ops: seq<Registration>)
    ensures Replay(t, ops).wildcards == t.wildcards + WildcardsOf(ops)
    decreases |ops|
  {
    if ops != [] {
      var t1 := Apply(t, ops[0]);
      ReplayWildcards(t1, ops[1..]);
      ApplyWildcards(t, ops[0]);
      var here, later := WildcardsOf([ops[0]]), WildcardsOf(ops[1..]);
      assert WildcardsOf(ops) == here + later;
      assert Replay(t, ops) == Replay(t1, ops[1..]);
      AppendAssoc(t.wildcards, here, later);
    }
  }

  /** What publish invokes on a fresh bus after `ops`: the listeners that
      resolved to the event's key, in registration order, and then every
      wildcard, in registration order, however the two kinds of
      registration were interleaved. */
  lemma PublishOrder(ops: seq<Registration>, event: Value, hint: Hint)
    requires CommandType(event, hint).Ok?
    ensures Targets(Replay(Empty, ops), CommandType(event, hint).value)
            == ListenersFor(ops, CommandType(event, hint).value) + WildcardsOf(ops)
  {
    ReplayListeners(Empty, ops, CommandType(event, hint).value);
    ReplayWildcards(Empty, ops);
  }

  /** Handlers are unique per key and never replaced: the handler for k is
      the one already there, else the first later registration that
      resolved to k; every later one for k was refused. */
  lemma {:induction false} ReplayHandlers(t: Tables, ops: seq<Registration>, k: string)
    ensures HandlerOf(Replay(t, ops), k)
            == if k in t.handlers then Some(t.handlers[k]) else FirstHandlerFor(ops, k)
    decreases |ops|
  {
    if ops != [] {
      ReplayHandlers(Apply(t, ops[0]), ops[1..], k);
    }
  }

  /** On a fresh bus, dispatch after `ops` invokes the first handler that
      was registered for the command's key, even if others were offered
      for it later, and fails with NoHandler when none ever was. */
  lemma FirstHandlerAnswers(ops: seq<Registration>, command: Value, hint: Hint)
    ensures CommandType(command, hint).Err? ==>
              Route(Replay(Empty, ops), command, hint) == Err(AmbiguousMessageType)
    ensures CommandType(command, hint).Ok? ==>
              var key := CommandType(command, hint).value;
              Route(Replay(Empty, ops), command, hint)
                == if FirstHandlerFor(ops, key).Some? then Ok(FirstHandlerFor(ops, key).value)
                   else Err(NoHandler(key))
  {
    if CommandType(command, hint).Ok? {
      ReplayHandlers(Empty, ops, CommandType(command, hint).value);
    }
  }

  /** Every reachable state is well formed. */
  lemma {:induction false} ReplayWellFormed(t: Tables, ops: seq<Registration>)
    requires WellFormed(t)
    ensures WellFormed(Replay(t, ops))
    decreases |ops|
  {
    if ops != [] {
      ReplayWellFormed(Apply(t, ops[0]), ops[1..]);
    }
  }
}
