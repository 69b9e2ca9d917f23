/** The public vocabulary of the library: pin numbering modes, directions,
    edges, the HIGH/LOW levels, the default-argument sentinels and the
    `Callback` wrapper with its equality. */
module GpioTypes {

  /** `NumberingModes`; `None` is "no mode set yet". */
  datatype NumberingMode = BOARD | BCM | SOC | None

  /** `Directions`: `UNKNOWN` for a channel not set up, `HARD_PWM` for a
      channel driven by a hardware PWM controller. */
  datatype Direction = UNKNOWN | OUT | IN | HARD_PWM

  /** `Edge` of an edge event; `NONE` is the library's `NO_EDGE`. */
  datatype Edge = UNKNOWN | NONE | RISING | FALLING | BOTH

  const HIGH: int := 1
  const LOW: int := 0

  /** `setup(..., initial = -1)`: no initial value is written. */
  const NO_INITIAL: int := -1

  /** `cleanup(channel = "None")`: clean every channel. */
  const ALL_CHANNELS: string := "None"

  /** Default bounce time of `add_event_detect` and `wait_for_edge`, and
      their default timeout. */
  const DEFAULT_BOUNCE_TIME: nat := 0
  const DEFAULT_TIMEOUT: nat := 0

  /** The edges an edge event can be requested for. */
  predicate IsEventEdge(e: Edge)
  {
    e == Edge.RISING || e == Edge.FALLING || e == Edge.BOTH
  }

  // ------------------------------------------------------------------ Callback

  /** The dynamic type of a callable, by name (a lambda's closure type, a
      function-pointer type, a functor class). */
  type TypeName = string

  /** A `std::function<void(int)>`: empty, or holding a target of some type
      whose value is abstracted as an integer compared with that type's `==`. */
  datatype Function = Empty | Holds(targetType: TypeName, target: int)

  /** A call of a target with its argument. */
  datatype Call = Call(targetType: TypeName, target: int, input: int)

  /** A `Callback`: the wrapped function and the type `T` its comparer was
      instantiated for when it was built. */
  datatype Callback = Callback(fn: Function, comparerType: TypeName)

  /** `Callback(f)` for a callable `f` of type `t`: the function holds `f` and
      the comparer is `comparer_impl<t>`. */
  function MakeCallback(t: TypeName, f: int): (c: Callback)
    ensures c.fn == Holds(t, f) && c.comparerType == t
  {
    Callback(Holds(t, f), t)
  }

  /** `Callback(nullptr)`: an empty function. */
  function NullCallback(): (c: Callback)
    ensures c.fn == Empty
  {
    Callback(Empty, "std::nullptr_t")
  }

  /** Every callback the constructor can build: a held target has the type the
      comparer was built for. */
  predicate WellFormed(c: Callback)
  {
    c.fn.Holds? ==> c.fn.targetType == c.comparerType
  }

  /** `f.target<T>() != nullptr`. */
  predicate HasTarget(f: Function, t: TypeName)
  {
    f.Holds? && f.targetType == t
  }

  /** `A == B`: `A.comparer(A.function, B.function)`, that is true when both
      functions are empty, and otherwise true exactly when both hold a target
      of `A`'s comparer type and the targets compare equal. */
  predicate Equal(a: Callback, b: Callback)
  {
    (a.fn.Empty? && b.fn.Empty?) ||
    (HasTarget(a.fn, a.comparerType) && HasTarget(b.fn, a.comparerType) &&
     a.fn.target == b.fn.target)
  }

  /** `A != B` is the negation of `A == B`. */
  predicate NotEqual(a: Callback, b: Callback)
  {
    !Equal(a, b)
  }

  /** `callback(input)`: the target's call, or nothing when the function is
      empty. */
  function Invoke(c: Callback, input: int): (calls: seq<Call>)
    ensures c.fn.Empty? <==> calls == []
    ensures c.fn.Holds? ==> calls == [Call(c.fn.targetType, c.fn.target, input)]
  {
    match c.fn
    case Empty => []
    case Holds(t, f) => [Call(t, f, input)]
  }

  /** Two empty callbacks are equal; an empty and a non-empty one are not. */
  lemma EqualEmpty(a: Callback, b: Callback)
    ensures a.fn.Empty? && b.fn.Empty? ==> Equal(a, b)
    ensures a.fn.Empty? != b.fn.Empty? ==> !Equal(a, b) && !Equal(b, a)
  {
  }

  /** Callbacks built from callables of different types are never equal, and
      callbacks built independently from equal values of the same type are. */
  lemma EqualMadeCallbacks(t: TypeName, f: int, u: TypeName, g: int)
    ensures Equal(MakeCallback(t, f), MakeCallback(u, g)) <==> t == u && f == g
  {
  }

  /** On the callbacks the constructor builds, `==` is an equivalence. */
  lemma EqualIsEquivalence(a: Callback, b: Callback, c: Callback)
    requires WellFormed(a) && WellFormed(b) && WellFormed(c)
    ensures Equal(a, a)
    ensures Equal(a, b) ==> Equal(b, a)
    ensures Equal(a, b) && Equal(b, c) ==> Equal(a, c)
  {
  }

  /** Comparison with `nullptr` (`callback == nullptr`, the check in front of
      `add_event_callback`) holds exactly for an empty callback. */
  lemma EqualNull(c: Callback)
    ensures Equal(c, NullCallback()) <==> c.fn.Empty?
  {
  }

  /** `!=` on well-formed callbacks: never between a callback and itself,
      symmetric, and against `nullptr` true exactly for a callback that
      holds a function. */
  lemma NotEqualProperties(a: Callback, b: Callback)
    requires WellFormed(a) && WellFormed(b)
    ensures !NotEqual(a, a)
    ensures NotEqual(a, b) ==> NotEqual(b, a)
    ensures NotEqual(a, NullCallback()) <==> a.fn.Holds?
  {
    EqualIsEquivalence(a, b, b);
    EqualIsEquivalence(b, a, a);
    EqualNull(a);
  }
}
