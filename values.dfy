/** The values the bus routes, the callables it stores and the errors it raises.
    PHP reflection and user code are not modelled: a callable is an opaque id
    carrying what reflection finds on its first parameter, and what a call does
    is an Outcome supplied from outside. */
module Values {

  /** A PHP value as the bus sees it: an object has a class name (and an
      identity, so that "the same instance" can be said); any other value
      (string, int, array, ...) has no class. */
  datatype Value = Obj(cls: string, handle: nat) | Prim(token: nat)

  /** What reflection finds on a callable's first parameter: there is none,
      it has no class type (no hint, or a scalar/array hint), or it is
      declared with a class. `Unreflectable` is a callable whose reflection
      throws instead: a first parameter declared with a class that does not
      exist, a callable `ReflectionFunction` refuses (a 'Class::method'
      string, an invokable object that is not a Closure), or an
      [object, 'method'] pair, whose `ReflectionMethod` is not imported into
      the namespace of the bus. */
  datatype Sig = NoParams | Untyped | Typed(cls: string) | Unreflectable

  /** An opaque callable: a closure, function name or [object, method] pair. */
  datatype Callable = Callable(id: nat, sig: Sig)

  /** The optional `$typeHint` argument. Only a PHP string overrides type
      inference; null and every other non-string value are ignored. */
  datatype Hint = NoHint | StringHint(key: string) | OtherHint

  /** What one `call_user_func` does: returns a value or throws. */
  datatype Outcome = Returned(value: Value) | Threw(exception: Value)

  /** What user code does, call by call: `call(n, c, v)` is the outcome of
      the n-th call (counting from 0) that one dispatch or publish makes,
      calling `c` with `v`. Indexing by position lets a callable invoked
      twice in one publish behave differently the second time. */
  type UserCode = (nat, Callable, Value) -> Outcome

  datatype Error =
    | AmbiguousHandlerType       // InvalidArgumentException: handler has no explicit type hint
    | ReflectionFailed           // reflecting on the handler threw (ReflectionException or Error)
    | AmbiguousMessageType       // InvalidArgumentException: command was not an object
    | DuplicateHandler(key: string)  // InvalidArgumentException: handler already registered
    | NoHandler(key: string)         // LogicException: no handler registered for type
    | Uncaught(exception: Value)     // thrown by a handler or listener, passed through unchanged

  datatype Result<T> = Ok(value: T) | Err(error: Error)

  /** The unit type has one value, so a successful `Result<()>` is `Ok(())`. */
  lemma UnitResult(status: Result<()>)
    ensures status.Ok? ==> status == Ok(())
  {
    match status
    case Ok(u) => match u { case () => }
    case Err(_) =>
  }

  datatype Option<T> = None | Some(value: T)
}
