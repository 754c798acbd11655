/**
 * The error classes of MongoRPC (src/MongoRPC/Exceptions.ts), the built-in classes
 * the dispatcher also throws (JavaScript's Error and TypeError, and the AssertionError
 * of Node's strict assert), and the values a handler can throw.
 *
 * A class hierarchy becomes a datatype of class tags with a parent function; an
 * error object is its class tag together with its `name` and `message` fields.
 */
module Exceptions {
  import opened Wrappers

  datatype ErrorClass =
    | BaseError           // JavaScript's built-in Error
    | AssertionError      // thrown by Node's strict `assert`
    | TypeError           // JavaScript's built-in TypeError (calling a non-function)
    | MongoRPCError
    | SystemError
    | RemoteFunctionError
    | TimeoutError
    | ConnectionError

  /** The class each class `extends`; only the root has none, and a parent is one step closer to it. */
  function Parent(c: ErrorClass): (p: Option<ErrorClass>)
    ensures p.None? <==> Depth(c) == 0
    ensures p.Some? ==> Depth(c) == Depth(p.value) + 1
  {
    match c
    case BaseError => None
    case AssertionError => Some(BaseError)
    case TypeError => Some(BaseError)
    case MongoRPCError => Some(BaseError)
    case SystemError => Some(MongoRPCError)
    case RemoteFunctionError => Some(MongoRPCError)
    case TimeoutError => Some(SystemError)
    case ConnectionError => Some(SystemError)
  }

  /** Distance from the root class; it decreases along `Parent`. */
  function Depth(c: ErrorClass): nat {
    match c
    case BaseError => 0
    case AssertionError => 1
    case TypeError => 1
    case MongoRPCError => 1
    case SystemError => 2
    case RemoteFunctionError => 2
    case TimeoutError => 3
    case ConnectionError => 3
  }

  /** The value each constructor assigns to `name`. */
  function ClassName(c: ErrorClass): string {
    match c
    case BaseError => "Error"
    case AssertionError => "AssertionError"
    case TypeError => "TypeError"
    case MongoRPCError => "MongoRPCError"
    case SystemError => "SystemError"
    case RemoteFunctionError => "RemoteFunctionError"
    case TimeoutError => "TimeoutError"
    case ConnectionError => "ConnectionError"
  }

  /** `c` is `d` or a subclass of it (what `instanceof d` tests). */
  predicate IsA(c: ErrorClass, d: ErrorClass)
    decreases Depth(c)
  {
    c == d || (Parent(c).Some? && IsA(Parent(c).value, d))
  }

  /** An error object: the class it was constructed as, its `name` and its `message`. */
  datatype Error = Error(cls: ErrorClass, name: string, message: string)

  predicate InstanceOf(e: Error, d: ErrorClass) {
    IsA(e.cls, d)
  }

  /**
   * `new C(message)`. Every constructor first runs its parent's (`super(message)`) and
   * then overwrites `name`, so the message is kept verbatim through the whole chain
   * and the name ends up as the class's own.
   */
  function Construct(c: ErrorClass, message: string): (e: Error)
    decreases Depth(c)
    ensures e.cls == c && e.name == ClassName(c)
    ensures e.message == message
  {
    match Parent(c)
    case None => Error(c, ClassName(c), message)
    case Some(p) => Construct(p, message).(cls := c, name := ClassName(c))
  }

  /** What a JavaScript `throw` can throw: an Error object, or any other (serializable) value. */
  datatype Thrown = Raised(error: Error) | ThrownValue(payload: string)

  lemma {:induction false} IsATransitive(a: ErrorClass, b: ErrorClass, c: ErrorClass)
    requires IsA(a, b) && IsA(b, c)
    ensures IsA(a, c)
    decreases Depth(a)
  {
    if a != b {
      IsATransitive(Parent(a).value, b, c);
    }
  }

  /** A proper superclass sits strictly closer to the root. */
  lemma {:induction false} IsADepth(a: ErrorClass, b: ErrorClass)
    requires IsA(a, b)
    ensures Depth(b) <= Depth(a)
    ensures Depth(b) == Depth(a) ==> a == b
    decreases Depth(a)
  {
    if a != b {
      IsADepth(Parent(a).value, b);
    }
  }

  /** The subclass relation is a partial order: no class is its own proper ancestor. */
  lemma IsAAntisymmetric(a: ErrorClass, b: ErrorClass)
    requires IsA(a, b) && IsA(b, a)
    ensures a == b
  {
    IsADepth(a, b);
    IsADepth(b, a);
  }

  /** Every class of the model is an Error, so `err instanceof Error` holds of every error object. */
  lemma {:induction false} EveryClassIsError(c: ErrorClass)
    ensures IsA(c, BaseError)
    decreases Depth(c)
  {
    if c != BaseError {
      EveryClassIsError(Parent(c).value);
    }
  }

  /** The hierarchy as Exceptions.ts declares it. */
  lemma SourceHierarchy()
    ensures IsA(SystemError, MongoRPCError)
    ensures IsA(RemoteFunctionError, MongoRPCError) && !IsA(RemoteFunctionError, SystemError)
    ensures IsA(TimeoutError, SystemError) && IsA(ConnectionError, SystemError)
    ensures IsA(TimeoutError, MongoRPCError) && IsA(ConnectionError, MongoRPCError)
    ensures !IsA(TimeoutError, ConnectionError) && !IsA(ConnectionError, TimeoutError)
    ensures !IsA(AssertionError, MongoRPCError) && !IsA(TypeError, MongoRPCError)
  {
    IsATransitive(TimeoutError, SystemError, MongoRPCError);
    IsATransitive(ConnectionError, SystemError, MongoRPCError);
  }

  /** Distinct classes carry distinct names, so `name` identifies the class. */
  lemma ClassNameInjective(c: ErrorClass, d: ErrorClass)
    requires ClassName(c) == ClassName(d)
    ensures c == d
  {
  }
}
