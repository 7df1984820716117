/** The two private type resolvers of the bus: the routing key of a callable
    being registered and the routing key of a message being sent. */
module Resolve {
  import opened Values

  /** The key a handler or listener is registered under (getHandlerType).
      A string hint wins outright; otherwise the class of the first
      parameter is used, a callable without one is ambiguous, and a
      callable whose reflection throws lets that exception escape. */
  function HandlerType(c: Callable, hint: Hint): (r: Result<string>)
    ensures hint.StringHint? ==> r == Ok(hint.key)
    ensures !hint.StringHint? ==> (r.Ok? <==> c.sig.Typed?)
    ensures !hint.StringHint? && c.sig.Typed? ==> r == Ok(c.sig.cls)
    ensures r.Err? ==> r.error == (if c.sig.Unreflectable? then ReflectionFailed else AmbiguousHandlerType)
  {
    if hint.StringHint? then Ok(hint.key)
    else match c.sig
      case Typed(cls) => Ok(cls)
      case Unreflectable => Err(ReflectionFailed)
      case _ => Err(AmbiguousHandlerType)
  }

  /** The key a command or event is routed by (getCommandType). A string
      hint wins outright; otherwise the message's class is used, and a
      non-object is ambiguous. */
  function CommandType(m: Value, hint: Hint): (r: Result<string>)
    ensures hint.StringHint? ==> r == Ok(hint.key)
    ensures !hint.StringHint? ==> (r.Ok? <==> m.Obj?)
    ensures !hint.StringHint? && m.Obj? ==> r == Ok(m.cls)
    ensures r.Err? ==> r.error == AmbiguousMessageType
  {
    if hint.StringHint? then Ok(hint.key)
    else if !m.Obj? then Err(AmbiguousMessageType)
    else Ok(m.cls)
  }

  /** Any hint that is not a string (null, an int, an object) resolves
      exactly as if no hint had been given. */
  lemma NonStringHintIgnored(c: Callable, m: Value, hint: Hint)
    requires !hint.StringHint?
    ensures HandlerType(c, hint) == HandlerType(c, NoHint)
    ensures CommandType(m, hint) == CommandType(m, NoHint)
  {
  }

  /** With no string hint on either side, a callable and a message meet on
      the same key exactly when the callable's first parameter is declared
      with the message's class. */
  lemma InferredKeysMeet(c: Callable, m: Value)
    ensures (HandlerType(c, NoHint).Ok? && HandlerType(c, NoHint) == CommandType(m, NoHint))
            <==> (c.sig.Typed? && m.Obj? && c.sig.cls == m.cls)
  {
  }
}
