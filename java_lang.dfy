/**
 * The small part of Java's runtime semantics the listener library relies on:
 * null as an absent value, the exceptions its code throws or propagates, and
 * 32-bit `int` arithmetic (AtomicInteger counters and pool sizes wrap around).
 */
module JavaLang {

  /** A Java reference that may be null. */
  datatype Option<+T> = None | Some(value: T) {
    predicate IsFailure() { None? }

    function PropagateFailure<U>(): Option<U>
      requires None?
    {
      None
    }

    function Extract(): T
      requires Some?
    {
      value
    }

    function GetOr(default: T): T {
      match this
      case Some(v) => v
      case None => default
    }
  }

  /** The exceptions that the modelled code throws, or lets escape from a collaborator. */
  datatype JavaException =
    | NullPointer
    | IllegalArgument(message: string)
    | IllegalState(message: string)
    | ClassCast
    | NumberFormat(input: Option<string>)   // the string that failed to parse; None for a null string
    | RejectedExecution
    | SdkFailure          // an SdkClientException or AwsServiceException escaping a call
    | UnexpectedFailure   // any other RuntimeException escaping a collaborator
    | ExpressionFailure   // a BeansException raised while evaluating an expression

  /** The outcome of a Java call that returns a value or throws. */
  datatype Result<+T> = Success(value: T) | Failure(error: JavaException) {
    predicate IsFailure() { Failure? }

    function PropagateFailure<U>(): Result<U>
      requires Failure?
    {
      Failure(error)
    }

    function Extract(): T
      requires Success?
    {
      value
    }
  }

  /** The outcome of a Java call on a `void` method. */
  datatype Outcome = Done | Threw(error: JavaException) {
    predicate IsFailure() { Threw? }

    function PropagateFailure(): Outcome
      requires Threw?
    {
      this
    }
  }

  const TWO_32: int := 0x1_0000_0000
  const MIN_INT: int := -0x8000_0000
  const MAX_INT: int := 0x7FFF_FFFF

  predicate InInt32(x: int) { MIN_INT <= x <= MAX_INT }

  /** The values of a Java `int` (and of a non-null `Integer`). */
  type int32 = x: int | MIN_INT <= x <= MAX_INT

  /** Java's `int` arithmetic: the result of an operation reduced to 32 bits, two's complement. */
  function Int32(x: int): (r: int)
    ensures InInt32(r)
    ensures (r - x) % TWO_32 == 0
    ensures InInt32(x) ==> r == x
  {
    (x - MIN_INT) % TWO_32 + MIN_INT
  }

  /** Values congruent modulo 2^32 wrap to the same `int`. */
  lemma {:induction false} Int32Congruent(a: int, b: int)
    requires (a - b) % TWO_32 == 0
    ensures Int32(a) == Int32(b)
  {
    var k := (a - b) / TWO_32;
    assert a - b == TWO_32 * k;
    var q, r := (b - MIN_INT) / TWO_32, (b - MIN_INT) % TWO_32;
    assert a - MIN_INT == TWO_32 * (q + k) + r;
  }

  /** Incrementing a wrapped value is wrapping the increment: an `AtomicInteger` stepped n times. */
  lemma {:induction false} Int32Succ(x: int)
    ensures Int32(Int32(x) + 1) == Int32(x + 1)
  {
    Int32Congruent(Int32(x) + 1, x + 1);
  }

  /** Two values less than 2^32 apart that wrap to the same `int` are equal. */
  lemma {:induction false} Int32InjectiveOnWindow(x: int, y: int)
    requires x <= y < x + TWO_32
    requires Int32(x) == Int32(y)
    ensures x == y
  {
    var qx := (x - MIN_INT) / TWO_32;
    var qy := (y - MIN_INT) / TWO_32;
    assert x - MIN_INT == TWO_32 * qx + (Int32(x) - MIN_INT);
    assert y - MIN_INT == TWO_32 * qy + (Int32(y) - MIN_INT);
    assert y - x == TWO_32 * (qy - qx);
  }

  /** The value an `AtomicInteger` created with 1 returns from its (k+1)-th `getAndIncrement`. */
  function CounterValue(k: nat): (n: int32)
    ensures k < MAX_INT ==> n == k + 1
  {
    Int32(1 + k)
  }

  /** `getAndIncrement` stores the successor of the value it returns, wrapped: the next value returned. */
  lemma {:induction false} CounterStep(k: nat)
    ensures Int32(CounterValue(k) + 1) == CounterValue(k + 1)
  {
    Int32Succ(1 + k);
  }

  /** The counter takes 2^32 distinct values before it comes back to one it has returned. */
  lemma {:induction false} CounterValueInjective(j: nat, k: nat)
    requires j < k < j + TWO_32
    ensures CounterValue(j) != CounterValue(k)
  {
    if CounterValue(j) == CounterValue(k) {
      Int32InjectiveOnWindow(1 + j, 1 + k);
    }
  }
}
