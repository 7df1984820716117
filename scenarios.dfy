/** Clients of the bus that replay the scenarios of tests/BusTest.php and
    check, from the method contracts alone, what those tests assert. */
module Scenarios {
  import opened Values
  import Registry
  import opened Minibus

  /** Every call returns its argument, like the handlers the tests build. */
  function Echo(n: nat, c: Callable, v: Value): Outcome
  {
    Returned(v)
  }

  /** A second handler for the same class is refused, and the first one
      still answers (testAddHandlerThrowsForDuplicateType). */
  method DuplicateHandlerRefused()
  {
    var bus := new Bus();
    var h1 := Callable(1, Typed("TestCmd"));
    var h2 := Callable(2, Typed("TestCmd"));
    var s1 := bus.AddHandler(h1, NoHint);
    assert s1 == Ok(());
    var s2 := bus.AddHandler(h2, NoHint);
    assert s2 == Err(DuplicateHandler("TestCmd"));
    var cmd := Obj("TestCmd", 7);
    var invoked, result := bus.Dispatch(cmd, NoHint, Echo);
    assert invoked == [h1] && result == Ok(cmd);
  }

  /** Commands of two classes reach their own handlers
      (testDispatchMultipleTypes), and a string hint routes a non-object
      (testDispatchWithTypeHint). */
  method DispatchRoutesByKey()
  {
    var bus := new Bus();
    var h1 := Callable(1, Typed("TestCmd"));
    var h2 := Callable(2, Typed("TestCmd2"));
    var hx := Callable(3, Untyped);
    var _ := bus.AddHandler(h1, NoHint);
    var _ := bus.AddHandler(h2, NoHint);
    var s := bus.AddHandler(hx, StringHint("x"));
    assert s == Ok(());
    var invoked, result := bus.Dispatch(Obj("TestCmd2", 1), NoHint, Echo);
    assert invoked == [h2];
    invoked, result := bus.Dispatch(Prim(5), StringHint("x"), Echo);
    assert invoked == [hx] && result == Ok(Prim(5));
    invoked, result := bus.Dispatch(Prim(5), NoHint, Echo);
    assert invoked == [] && result == Err(AmbiguousMessageType);
  }

  /** A wildcard registered between two listeners still runs after both
      (testPublishWildcardsCalledAfterListeners). */
  method WildcardsAfterListeners()
  {
    var bus := new Bus();
    var l1 := Callable(1, Typed("TestCmd"));
    var w := Callable(2, Untyped);
    var l2 := Callable(3, Typed("TestCmd"));
    var _ := bus.AddListener(l1, NoHint);
    bus.AddWildcard(w);
    var _ := bus.AddListener(l2, NoHint);
    assert Registry.Targets(bus.Tables(), "TestCmd") == [l1, l2, w];
    var invoked, status := bus.Publish(Obj("TestCmd", 0), NoHint, Echo);
    UnitResult(status);
    assert invoked == [l1, l2, w] && status == Ok(());
  }

  /** The same closure registered as a listener and as a wildcard runs
      twice in one publish; when its first call returns and its second
      throws, both calls happen and the second one's exception escapes. */
  method SameCallableTwice()
  {
    var bus := new Bus();
    var f := Callable(1, Typed("TestCmd"));
    var _ := bus.AddListener(f, NoHint);
    bus.AddWildcard(f);
    var event := Obj("TestCmd", 0);
    var secondThrows := (n: nat, c: Callable, v: Value) => if n == 0 then Returned(v) else Threw(Prim(9));
    var invoked, status := bus.Publish(event, NoHint, secondThrows);
    Registry.FailFastIsDeliver([f, f], 0, event, secondThrows, invoked, status);
    assert invoked == [f, f] && status == Err(Uncaught(Prim(9)));
  }

  /** A callable whose reflection throws cannot be registered without a
      string hint, and is registered like any other with one. */
  method UnreflectableNeedsHint()
  {
    var bus := new Bus();
    var h := Callable(1, Unreflectable);
    var s1 := bus.AddHandler(h, NoHint);
    assert s1 == Err(ReflectionFailed) && bus.Tables() == Registry.Empty;
    var s2 := bus.AddHandler(h, StringHint("x"));
    assert s2 == Ok(());
    var invoked, result := bus.Dispatch(Prim(3), StringHint("x"), Echo);
    assert invoked == [h] && result == Ok(Prim(3));
  }
}
