/**
 * `SqsQueue`: the immutable description of one queue. Every field is a boxed
 * Java value or a reference and may be null; equality and the hash code
 * depend on the url only.
 */
module Queue {
  import opened JavaLang
  import opened JavaText
  import opened SqsTypes
  import Routing

  /** The `MessageHandler` a queue carries: a user object or one of the library's adapters. */
  datatype MessageHandler =
    | UserHandler(ref: HandlerRef)
    | AttributeMappingHandler(target: ObjectRef, mapping: Routing.MethodMapping)
    | MethodHandler(handlerMethod: MethodRef, target: ObjectRef)
    | ReflectiveHandler(handlerMethod: MethodRef, target: ObjectRef)

  datatype SqsQueue = SqsQueue(
    url: Option<string>,
    maxBatchSize: Option<int32>,
    visibilityTimeoutSeconds: Option<int32>,
    handler: Option<MessageHandler>,
    errorHandler: Option<ErrorHandlerRef>,
    longPolling: Option<bool>,
    autoAcknowledge: Option<bool>,
    concurrency: Option<int32>,
    interceptors: Option<seq<InterceptorRef>>)

  /** The argument of `equals(Object)`: null, an `SqsQueue` instance, or an object of another class. */
  datatype JavaObject = Null | QueueObject(ref: ObjectRef, queue: SqsQueue) | OtherObject(ref: ObjectRef)

  /** A reference denotes one object: the same reference cannot carry two different queues. */
  predicate Coherent(self: ObjectRef, queue: SqsQueue, o: JavaObject) {
    o.QueueObject? && o.ref == self ==> o.queue == queue
  }

  /**
   * `equals`: identity first, then class, then `url.equals(other.url)`, which
   * throws NullPointerException when this queue's url is null.
   */
  function Equals(self: ObjectRef, queue: SqsQueue, o: JavaObject): (r: Result<bool>)
    requires Coherent(self, queue, o)
    ensures r == Success(true) ==> o.QueueObject? && o.queue.url == queue.url
    ensures r.Failure? ==> r.error == NullPointer && queue.url == None
  {
    if o.QueueObject? && o.ref == self then Success(true)
    else if !o.QueueObject? then Success(false)
    else if queue.url == None then Failure(NullPointer)
    else Success(o.queue.url == queue.url)
  }

  /** `hashCode`: `Objects.hash(url)`, i.e. 31 * 1 + (url == null ? 0 : url.hashCode()). */
  function HashCode(queue: SqsQueue): (h: int)
    ensures InInt32(h)
  {
    Int32(31 + if queue.url == None then 0 else StringHashCode(queue.url.value))
  }

  /** Every queue equals itself, even one whose url is null. */
  lemma EqualsReflexive(self: ObjectRef, queue: SqsQueue)
    ensures Equals(self, queue, QueueObject(self, queue)) == Success(true)
  {
  }

  /** Against null or an instance of another class, `equals` is false. */
  lemma EqualsNullOrOtherClassIsFalse(self: ObjectRef, queue: SqsQueue, other: ObjectRef)
    ensures Equals(self, queue, Null) == Success(false)
    ensures Equals(self, queue, OtherObject(other)) == Success(false)
  {
  }

  /** Two distinct queue instances are equal exactly when their urls are, whatever their other fields. */
  lemma {:induction false} EqualsIffSameUrl(a: ObjectRef, qa: SqsQueue, b: ObjectRef, qb: SqsQueue)
    requires a != b && qa.url.Some?
    ensures Equals(a, qa, QueueObject(b, qb)) == Success(qa.url == qb.url)
  {
  }

  /** Between queues with urls, `equals` is symmetric. */
  lemma {:induction false} EqualsSymmetric(a: ObjectRef, qa: SqsQueue, b: ObjectRef, qb: SqsQueue)
    requires qa.url.Some? && qb.url.Some?
    requires Coherent(a, qa, QueueObject(b, qb)) && Coherent(b, qb, QueueObject(a, qa))
    ensures Equals(a, qa, QueueObject(b, qb)) == Equals(b, qb, QueueObject(a, qa))
  {
  }

  /** Equal queues have equal hash codes. */
  lemma {:induction false} EqualQueuesHashEqually(self: ObjectRef, queue: SqsQueue, o: JavaObject)
    requires Coherent(self, queue, o)
    requires Equals(self, queue, o) == Success(true)
    ensures o.QueueObject? && HashCode(queue) == HashCode(o.queue)
  {
  }
}
