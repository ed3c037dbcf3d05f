/**
 * The annotations that declare listeners, as the values the post-processors
 * read from them: `@SqsListener` (class or method level, with `@SqsHandler` on
 * the handler methods of a class-level listener) and `@SqsMessageHandler`.
 */
module Annotations {
  import opened JavaLang

  datatype PollMode = Long | Short

  datatype AckMode = Auto | Manual

  /** `@SqsListener`: every attribute but the two modes is an expression, resolved when the listener is created. */
  datatype SqsListenerAnnotation = SqsListenerAnnotation(
    url: string,
    maxBatchSize: string,
    visibilityTimeout: string,
    concurrency: string,
    exceptionHandler: string,
    pollMode: PollMode,
    ackMode: AckMode)

  /** `@SqsListener` with every attribute left at its default. */
  const DEFAULT_SQS_LISTENER := SqsListenerAnnotation("", "10", "60", "1", "", Long, Auto)

  /** `@SqsHandler` on a handler method of a class-level listener. */
  datatype SqsHandlerAnnotation = SqsHandlerAnnotation(messageType: string, isDefault: bool)

  /**
   * `@SqsMessageHandler`. The `queue` attribute (an expression naming an
   * `SqsQueue` bean) is read by the post-processor although the annotation
   * file of this revision does not declare it; it is given the empty default
   * of the other expression attributes.
   */
  datatype SqsMessageHandlerAnnotation = SqsMessageHandlerAnnotation(
    queueName: string,
    queue: string,
    config: string,
    maxBatchSize: int32,
    visibilityTimeout: int32,
    concurrency: int32,
    pollMode: PollMode,
    ackMode: AckMode,
    executor: string,
    exceptionHandler: string)

  /** `@SqsMessageHandler` with every attribute left at its default. */
  const DEFAULT_SQS_MESSAGE_HANDLER := SqsMessageHandlerAnnotation("", "", "", 10, 60, 1, Long, Auto, "", "")
}
