/** The bus object itself: three tables updated in place by the
    registration methods and read by dispatch and publish. Each method is
    proved against the pure specification in Registry. */
module Minibus {
  import opened Values
  import opened Resolve
  import Registry

  class Bus {
    var handlers: map<string, Callable>
    var listeners: map<string, seq<Callable>>
    var wildcards: seq<Callable>

    /** The bus's state as a value. */
    function Tables(): Registry.Tables
      reads this
    {
      Registry.Tables(handlers, listeners, wildcards)
    }

    /** The documented invariant of the tables: a key is only ever created
        in `listeners` together with its first listener. Every mutator keeps
        it; Registry.ListenerKeyPresent says what it buys. */
    ghost predicate Valid()
      reads this
    {
      Registry.WellFormed(Tables())
    }

    constructor ()
      ensures Valid() && Tables() == Registry.Empty
    {
      handlers, listeners, wildcards := map[], map[], [];
    }

    /** addHandler: registers `handler` under its resolved key; raises
        AmbiguousHandlerType, ReflectionFailed or DuplicateHandler and
        changes nothing when it cannot. */
    method AddHandler(handler: Callable, hint: Hint) returns (status: Result<()>)
      requires Valid()
      modifies this
      ensures Valid()
      ensures Registry.Committed(old(Tables()), Registry.AddHandler(old(Tables()), handler, hint), status, Tables())
    {
      var key := HandlerType(handler, hint);
      if key.Err? {
        return Err(key.error);
      }
      if key.value in handlers {
        return Err(DuplicateHandler(key.value));
      }
      handlers := handlers[key.value := handler];
      status := Ok(());
    }

    /** addListener: appends `listener` to its resolved key's list, creating
        the list for a new key; raises AmbiguousHandlerType or
        ReflectionFailed and changes nothing when the key cannot be resolved. */
    method AddListener(listener: Callable, hint: Hint) returns (status: Result<()>)
      requires Valid()
      modifies this
      ensures Valid()
      ensures Registry.Committed(old(Tables()), Registry.AddListener(old(Tables()), listener, hint), status, Tables())
    {
      var key := HandlerType(listener, hint);
      if key.Err? {
        return Err(key.error);
      }
      if key.value in listeners {
        listeners := listeners[key.value := listeners[key.value] + [listener]];
      } else {
        assert [] + [listener] == [listener];
        listeners := listeners[key.value := [listener]];
      }
      status := Ok(());
    }

    /** addWildcard: appends `listener` to the wildcard list; never fails. */
    method AddWildcard(listener: Callable)
      requires Valid()
      modifies this
      ensures Valid()
      ensures Tables() == Registry.AddWildcard(old(Tables()), listener)
    {
      wildcards := wildcards + [listener];
    }

    /** dispatch: invokes the one handler registered for the command's key,
        once, and passes its result (or its exception) back; raises
        AmbiguousMessageType or NoHandler, invoking nothing, when there is
        no such handler. `call` stands for what user code does, call by
        call; `invoked` lists the callables called, in order. */
    method Dispatch(command: Value, hint: Hint, call: UserCode)
      returns (invoked: seq<Callable>, result: Result<Value>)
      ensures CommandType(command, hint).Err? ==> invoked == [] && result == Err(AmbiguousMessageType)
      ensures CommandType(command, hint).Ok? && CommandType(command, hint).value !in handlers ==>
                invoked == [] && result == Err(NoHandler(CommandType(command, hint).value))
      ensures Registry.Route(Tables(), command, hint).Ok? ==>
                var h := Registry.Route(Tables(), command, hint).value;
                h == handlers[CommandType(command, hint).value]
                && invoked == [h] && result == Registry.PassThrough(call(0, h, command))
    {
      var key := CommandType(command, hint);
      if key.Err? {
        return [], Err(key.error);
      }
      if key.value !in handlers {
        return [], Err(NoHandler(key.value));
      }
      var handler := handlers[key.value];
      invoked := [handler];
      result := Registry.PassThrough(call(0, handler, command));
    }

    /** publish: calls the event key's listeners in registration order, then
        every wildcard in registration order, discarding their returns; the
        first exception stops the rest and is passed back. Raises
        AmbiguousMessageType, invoking nothing, when the key cannot be
        resolved. No table changes. The calls are numbered from 0 across
        both loops. */
    method Publish(event: Value, hint: Hint, call: UserCode)
      returns (invoked: seq<Callable>, status: Result<()>)
      ensures CommandType(event, hint).Err? ==> invoked == [] && status == Err(AmbiguousMessageType)
      ensures CommandType(event, hint).Ok? ==>
                Registry.FailFast(Registry.Targets(Tables(), CommandType(event, hint).value),
                                  0, event, call, invoked, status)
    {
      var key := CommandType(event, hint);
      if key.Err? {
        return [], Err(key.error);
      }
      var own := if key.value in listeners then listeners[key.value] else [];
      var first, firstStatus := CallInOrder(own, 0, event, call);
      if firstStatus.Err? {
        Registry.FailFastAbortedPrefix(own, wildcards, 0, event, call, first, firstStatus);
        return first, firstStatus;
      }
      var rest;
      rest, status := CallInOrder(wildcards, |own|, event, call);
      Registry.FailFastThen(own, wildcards, 0, event, call, first, rest, status);
      invoked := first + rest;
    }
  }

  /** One `foreach ... call_user_func` loop of publish: calls each of
      `callables` with the event, in order, until one throws. Its calls are
      the calls numbered `from`, `from + 1`, ... of the publish. */
  method CallInOrder(callables: seq<Callable>, from: nat, event: Value, call: UserCode)
    returns (invoked: seq<Callable>, status: Result<()>)
    ensures Registry.FailFast(callables, from, event, call, invoked, status)
  {
    invoked := [];
    for i := 0 to |callables|
      invariant invoked == callables[..i]
      invariant forall j | 0 <= j < i :: call(from + j, callables[j], event).Returned?
    {
      var outcome := call(from + i, callables[i], event);
      invoked := invoked + [callables[i]];
      if outcome.Threw? {
        Registry.FailFastStop(callables, from, event, call, i);
        return invoked, Err(Uncaught(outcome.exception));
      }
    }
    Registry.FailFastAll(callables, from, event, call);
    status := Ok(());
  }
}
