# Minibus command/event bus, modelled in Dafny

Minibus is a small in-process dispatcher written in PHP. One object, `Bus`,
holds three routing tables:

- `handlers`: a type key mapped to exactly one callable. `dispatch` sends a
  command to it and returns its result.
- `listeners`: a type key mapped to an ordered list of callables. `publish`
  sends an event to every one of them.
- `wildcards`: one ordered list of callables that `publish` sends every
  event to, after the key's own listeners.

The type key is resolved by two private helpers. A PHP *string* `$typeHint`
always wins. Otherwise a callable is keyed by the class of its first
parameter, and a message by its own class. Four errors of the bus can be
raised: an ambiguous handler type, an ambiguous message type, a duplicate
handler, and no handler for a key. Reflecting on a callable can also throw,
and that exception escapes the registration.

The project is laid out as follows.

- `values.dfy` (module `Values`): the data model. `Value` is a PHP value, an
  object with a class and an identity or a non-object. `Callable` is an
  opaque callable carrying what reflection finds on its first parameter
  (`Sig`), including the case where reflection throws.
  `Hint` is the hint argument: absent, a string, or any other non-string
  value. `Outcome` is what one user call does, and `UserCode` gives the
  outcome of every call by its position. `Error` lists the four exceptions
  of the bus, a reflection failure, and exceptions thrown by user code.
- `resolve.dfy` (module `Resolve`): `getHandlerType` and `getCommandType` as
  pure functions.
- `registry.dfy` (module `Registry`): the tables as a value. It holds the
  pure specification of every operation, the handler `dispatch` selects
  (`Route`), and the fail-fast trace of a `publish` loop. The trace is given
  both as a predicate (`FailFast`) and as a reference function (`Deliver`),
  and the two are proved equivalent.
- `history.dfy` (module `History`): the tables after any sequence of
  registrations, stated in terms of the registrations alone. These are the
  ordering and handler-uniqueness guarantees, proved by induction.
- `bus.dfy` (module `Minibus`): the class `Bus`. Its three fields are updated
  in place by `AddHandler`, `AddListener` and `AddWildcard`. `Dispatch` and
  `Publish` only read them. Each method is proved against the `Registry`
  specification.
- `scenarios.dfy` (module `Scenarios`): clients that replay the repository's
  tests and derive, from the method contracts alone, what those tests assert.

How the model follows the code:

- The override test is `is_string($typeHint)`, not "non-null". A hint that
  is neither null nor a string (`OtherHint`) is ignored, and inference runs
  as if no hint had been given. The docblocks only say the derived type "is
  overridden by the $typeHint argument" and declare `@param string $typeHint
  Optional.` (src/Bus.php:16-21); the model follows the `is_string` test.
- A user callable is not run. Its behaviour is the parameter
  `call: UserCode`, which says whether each call returns a value or throws.
  The n-th call of one dispatch or publish (counting from 0) has outcome
  `call(n, c, v)`, so a callable registered twice may return the first time
  and throw the second.
- `Dispatch` and `Publish` return the list of callables they invoked, in
  order, so that "exactly this handler, once" and "listeners, then
  wildcards, stopping at the first exception" are stated about that list.
- `Publish` and `Dispatch` have no `modifies` clause, so the verifier checks
  that they leave every table unchanged.
- A registration that raises leaves the tables exactly as they were
  (`Registry.Committed`). `History.Replay` models a caller that catches such
  an exception and carries on.

## Model

| member | source | states |
|---|---|---|
| Resolve.HandlerType | src/Bus.php:115-132 | A string hint is returned verbatim whatever the callable's signature; reflection is not attempted. Otherwise the key is the class of the first parameter, and it exists exactly when that parameter is declared with a class. A callable whose reflection throws fails with ReflectionFailed; one with no parameter, or whose first parameter has no class type, fails with AmbiguousHandlerType. |
| Resolve.CommandType | src/Bus.php:135-143 | A string hint is returned verbatim whatever the message is. Otherwise the key is the message's class. A non-object is rejected with AmbiguousMessageType, and only in that case. |
| Resolve.NonStringHintIgnored | src/Bus.php:116-117 | A hint that is not a string (null, an int, an object) gives both resolvers exactly the result they give with no hint. |
| Resolve.InferredKeysMeet | src/Bus.php:139-142 | With no string hint on either side, a callable and a message resolve to the same key if and only if the callable's first parameter is declared with the message's class. |
| Registry.AddHandler | src/Bus.php:23-32 | Succeeds if and only if the key resolves and has no handler yet. The errors are ReflectionFailed or AmbiguousHandlerType from the resolver, and DuplicateHandler(key). On success the key's handler is the new one, every other key's handler is unchanged, and the listeners and wildcards are untouched. |
| Registry.AddListener | src/Bus.php:45-55 | Succeeds if and only if the key resolves; otherwise it fails with ReflectionFailed or AmbiguousHandlerType, as the resolver does. On success the key's list is the old list (empty for a new key) with the listener appended. Every other key's list, the handlers and the wildcards are unchanged. If no key held an empty list before, none does after. |
| Registry.ListenerKeyPresent | src/Bus.php:103 | When no key holds an empty list, publish's `array_key_exists` test on the listeners table holds exactly when the key has listeners. |
| Registry.AddWildcard | src/Bus.php:65-68 | Never fails and resolves no key. The wildcard list gains the listener at its end, and the handlers and listeners are unchanged. |
| Registry.Route | src/Bus.php:81-86 | The handler dispatch invokes is the one bound to the resolved key, and it exists if and only if the key resolves and is bound. Otherwise the error is AmbiguousMessageType or NoHandler(key). |
| Registry.PassThrough | src/Bus.php:87 | The handler's return value becomes dispatch's result unchanged, and anything it throws reaches dispatch's caller unchanged. |
| Registry.DeliverIsFailFast | src/Bus.php:104-111 | The reference one-call-at-a-time trace is a fail-fast trace, with calls numbered in order. It is a prefix of the targets, and every call but the last returned. Either all targets ran and returned, or the last call threw, its exception is the result, and nothing after it ran. |
| Registry.FailFastIsDeliver | src/Bus.php:104-111 | Any trace and ending meeting the fail-fast description equal the reference trace. The description therefore fixes exactly which callables publish invokes. |
| History.ReplayListeners | src/Bus.php:45-52 | After any sequence of registrations, a key's listener list is its old list followed by every later listener that resolved to that key, in registration order. |
| History.ReplayWildcards | src/Bus.php:65-67 | After any sequence of registrations, the wildcard list is the old list followed by every later wildcard, in registration order. |
| History.PublishOrder | src/Bus.php:102-111 | On a fresh bus, publish targets the listeners that resolved to the event's key, in registration order, followed by every wildcard in registration order. Every wildcard follows every listener, however the registrations were interleaved. |
| History.ReplayHandlers | src/Bus.php:24-30 | After any sequence of registrations, a key's handler is the one it already had, or else the first later handler that resolved to the key. A bound handler is never replaced, because every later handler for the key is refused. |
| History.FirstHandlerAnswers | src/Bus.php:81-87 | On a fresh bus, dispatch invokes the first handler ever registered for the command's key, even after duplicates were offered. It fails with NoHandler(key) when none was registered, and with AmbiguousMessageType when the key does not resolve. |
| History.ReplayWellFormed | src/Bus.php:48-52 | No sequence of registrations leaves a key in the listeners table with an empty list. |
| Minibus.Bus.constructor | src/Bus.php:9-11 | A new bus has all three tables empty. |
| Minibus.Bus.AddHandler | src/Bus.php:23-32 | The new state is Registry.AddHandler of the old one. On any error the status is that error and all three tables are exactly as before. |
| Minibus.Bus.AddListener | src/Bus.php:45-55 | The two branches (append to an existing list, create a one-element list) together give the new state Registry.AddListener of the old one. On error the status is that error and all three tables are exactly as before. |
| Minibus.Bus.AddWildcard | src/Bus.php:65-68 | The new state is the old one with the listener appended to the wildcards. |
| Minibus.Bus.Dispatch | src/Bus.php:81-88 | If the key does not resolve or has no handler, nothing is invoked and the error is AmbiguousMessageType or NoHandler(key). Otherwise exactly one callable is invoked, once (call 0): the handler bound to the key. Its return value or exception is the result. No table changes. |
| Minibus.Bus.Publish | src/Bus.php:102-112 | If the key does not resolve, nothing is invoked and the error is AmbiguousMessageType. Otherwise the invoked callables are the fail-fast trace over the key's listeners followed by the wildcards, the calls numbered from 0 across both loops. No table changes. |
| Minibus.CallInOrder | src/Bus.php:105-107 | One foreach loop calls the given callables in order with the event, numbering its calls on from a given position, stopping at the first exception, and produces exactly the fail-fast trace over them. |

## Left out

- Reflection (`ReflectionFunction`, `ReflectionMethod`, `getParameters`, `getClass`) is not modelled. Each callable carries what reflection would find (`Sig`). A callable whose reflection throws is `Unreflectable`, and resolving it without a string hint fails with one `ReflectionFailed` error; the particular exception class is not modelled. These callables are a first parameter declared with an undefined class (`getClass()`, src/Bus.php:126-127), a callable `ReflectionFunction` refuses (src/Bus.php:123), and an `[object, 'method']` pair, because the `is_array($handler)` branch (src/Bus.php:120-121) builds `ReflectionMethod` without importing it into namespace `Minibus`.
- What user callables do through `call_user_func` is a parameter (`call`), not code. A callable that calls back into the same bus (registering or publishing during a publish) is not modelled.
- PHP's `callable` parameter declaration raises a TypeError for a non-callable argument before the body runs. In the model every `Callable` is callable.
- Exception classes and message texts are modelled as the kinds in `Error`, not as strings.
- PHP converts numeric-string array keys to integers. Storage and lookup convert in the same way, so routing is unaffected, and keys are modelled as strings.
- The fluent `return $this` of the three registration methods carries no behaviour and is not modelled.
- `src/CommandBusInterface.php` declares two method signatures and has no logic. It is not part of this model.
- Concurrency is not modelled. The class has no synchronisation and assumes one thread.
