/**
 * One turn of a consumer's polling loop (`QueueConsumer.run`), run sequentially:
 * build the receive request, receive a batch, hand every message to the
 * message handler (`MessageProcessor.run`), wait until all of them have
 * completed, and acknowledge the ones handled successfully with one batch delete
 * (`deleteBatch`). What the SDK calls and the handlers do is given as input.
 */
module Batch {
  import opened JavaLang
  import opened SqsTypes
  import opened Queue
  import Routing

  const LONG_POLLING_WAIT_SECONDS: int := 20
  const SHORT_POLLING_WAIT_SECONDS: int := 1
  /** How long a consumer sleeps after the SDK failed to receive. */
  const RECEIVE_ERROR_PAUSE_SECONDS: int := 2

  datatype ReceiveRequest = ReceiveRequest(
    queueUrl: Option<string>,
    waitTimeSeconds: int,
    maxNumberOfMessages: Option<int32>,
    visibilityTimeout: Option<int32>)

  /**
   * The request `receive` sends: the queue's url, batch size and visibility
   * timeout, and a wait time of 20 seconds with long polling, 1 second without.
   * Unboxing a null `longPolling` throws NullPointerException.
   */
  function ReceiveRequestFor(queue: SqsQueue): (r: Result<ReceiveRequest>)
    ensures r.Failure? <==> queue.longPolling == None
    ensures r.Failure? ==> r.error == NullPointer
    ensures r.Success? ==>
              && r.value.queueUrl == queue.url
              && r.value.maxNumberOfMessages == queue.maxBatchSize
              && r.value.visibilityTimeout == queue.visibilityTimeoutSeconds
    ensures r.Success? ==>
              && (queue.longPolling == Some(true) ==> r.value.waitTimeSeconds == 20)
              && (queue.longPolling == Some(false) ==> r.value.waitTimeSeconds == 1)
  {
    match queue.longPolling
    case None => Failure(NullPointer)
    case Some(long) =>
      Success(ReceiveRequest(
        queue.url,
        if long then LONG_POLLING_WAIT_SECONDS else SHORT_POLLING_WAIT_SECONDS,
        queue.maxBatchSize,
        queue.visibilityTimeoutSeconds))
  }

  /** What `sqsClient.receiveMessage` does. */
  datatype ReceiveOutcome = Delivered(messages: seq<Message>) | ReceiveSdkException | ReceiveOtherException

  /** What the user code invoked for one message does. */
  datatype HandlerOutcome = Returns | ThrowsException(exception: ExceptionRef) | ThrowsError(error: ErrorRef)

  /** An exception that reaches the `catch (Exception e)` of `MessageProcessor.run`. */
  datatype Thrown = UserException(ref: ExceptionRef) | LibraryException(exception: JavaException)

  /** What `queue.getMessageHandler().handle(message)` does. */
  datatype HandlingEffect = HandledNormally | ThrewException(thrown: Thrown) | ThrewError(error: ErrorRef)

  function EffectOf(outcome: HandlerOutcome): HandlingEffect {
    match outcome
    case Returns => HandledNormally
    case ThrowsException(e) => ThrewException(UserException(e))
    case ThrowsError(e) => ThrewError(e)
  }

  /**
   * A null handler throws NullPointerException; the message-type router throws
   * its IllegalStateException before any user method runs; otherwise the user
   * code's outcome is the handler's.
   */
  function HandlingEffectOf(queue: SqsQueue, message: Message, outcome: HandlerOutcome): (r: HandlingEffect)
    ensures queue.handler == None ==> r == ThrewException(LibraryException(NullPointer))
    ensures r.HandledNormally? <==>
              && queue.handler.Some? && outcome.Returns?
              && (queue.handler.value.AttributeMappingHandler? ==>
                    Routing.Handle(queue.handler.value.mapping, message).Success?)
  {
    match queue.handler
    case None => ThrewException(LibraryException(NullPointer))
    case Some(h) =>
      if h.AttributeMappingHandler? then
        match Routing.Handle(h.mapping, message)
        case Failure(e) => ThrewException(LibraryException(e))
        case Success(_) => EffectOf(outcome)
      else EffectOf(outcome)
  }

  /** How a failed message is reported. */
  datatype Report =
    | ErrorHandlerCalled(handler: ErrorHandlerRef, message: Message, thrown: Thrown)
    | ErrorLogged(queueUrl: Option<string>, messageId: string)

  /**
   * `MessageProcessor.run` for one message: whether it joins the success list,
   * how its failure is reported, and the `Error` that escapes the processor.
   */
  datatype ProcessResult = ProcessResult(succeeded: bool, report: Option<Report>, escaped: Option<ErrorRef>)

  /**
   * `MessageProcessor.run`: a message whose handler returns is a success; a
   * message whose handler throws an exception goes to the error handler when
   * the queue has one and is logged with the queue url and message id
   * otherwise, never both; an `Error` is not caught and escapes unreported.
   */
  function ProcessMessage(queue: SqsQueue, message: Message, outcome: HandlerOutcome): (r: ProcessResult)
    ensures var effect := HandlingEffectOf(queue, message, outcome);
      && (r.succeeded <==> effect.HandledNormally?)
      && (r.report.Some? <==> effect.ThrewException?)
      && (r.escaped.Some? <==> effect.ThrewError?)
      && (effect.ThrewException? && queue.errorHandler.Some? ==>
            r.report == Some(ErrorHandlerCalled(queue.errorHandler.value, message, effect.thrown)))
      && (effect.ThrewException? && queue.errorHandler.None? ==>
            r.report == Some(ErrorLogged(queue.url, message.messageId)))
      && (effect.ThrewError? ==> r.escaped == Some(effect.error))
  {
    match HandlingEffectOf(queue, message, outcome)
    case HandledNormally => ProcessResult(true, None, None)
    case ThrewException(thrown) =>
      var report :=
        match queue.errorHandler
        case Some(h) => ErrorHandlerCalled(h, message, thrown)
        case None => ErrorLogged(queue.url, message.messageId);
      ProcessResult(false, Some(report), None)
    case ThrewError(e) => ProcessResult(false, None, Some(e))
  }

  /** The results of processing every message of a batch, in receive order. */
  function ProcessAll(queue: SqsQueue, messages: seq<Message>, outcomes: seq<HandlerOutcome>): (r: seq<ProcessResult>)
    requires |outcomes| == |messages|
    ensures |r| == |messages|
    ensures forall i :: 0 <= i < |messages| ==> r[i] == ProcessMessage(queue, messages[i], outcomes[i])
  {
    if |messages| == 0 then []
    else
      var n := |messages| - 1;
      ProcessAll(queue, messages[..n], outcomes[..n]) + [ProcessMessage(queue, messages[n], outcomes[n])]
  }

  /** The success list: the messages whose processing succeeded, in processing order. */
  function Successful(messages: seq<Message>, results: seq<ProcessResult>): (r: seq<Message>)
    requires |results| == |messages|
    ensures |r| <= |messages|
    ensures forall m :: m in r ==> m in messages
    ensures (forall i :: 0 <= i < |results| ==> results[i].succeeded) ==> r == messages
    ensures (forall i :: 0 <= i < |results| ==> !results[i].succeeded) ==> r == []
  {
    if |messages| == 0 then []
    else
      var n := |messages| - 1;
      var rest := Successful(messages[..n], results[..n]);
      assert forall m :: m in messages[..n] ==> m in messages;
      assert forall i :: 0 <= i < n ==> results[..n][i] == results[i];
      assert messages == messages[..n] + [messages[n]];
      rest + (if results[n].succeeded then [messages[n]] else [])
  }

  /** The positions of the successful results, in increasing order. */
  function SuccessIndices(results: seq<ProcessResult>): (indices: seq<nat>)
    ensures forall k :: 0 <= k < |indices| ==> indices[k] < |results|
    ensures forall k, l :: 0 <= k < l < |indices| ==> indices[k] < indices[l]
    ensures forall i :: 0 <= i < |results| ==> (results[i].succeeded <==> i in indices)
  {
    if |results| == 0 then []
    else
      var n := |results| - 1;
      SuccessIndices(results[..n]) + (if results[n].succeeded then [n] else [])
  }

  /**
   * The success list holds exactly the messages at the successful positions,
   * each once and in order; a failed message is never in it.
   */
  lemma {:induction false} SuccessfulAtSuccessIndices(messages: seq<Message>, results: seq<ProcessResult>)
    requires |results| == |messages|
    ensures var s, indices := Successful(messages, results), SuccessIndices(results);
      |s| == |indices| && forall k :: 0 <= k < |s| ==> s[k] == messages[indices[k]]
  {
    if |messages| > 0 {
      var n := |messages| - 1;
      SuccessfulAtSuccessIndices(messages[..n], results[..n]);
      var s0, i0 := Successful(messages[..n], results[..n]), SuccessIndices(results[..n]);
      assert Successful(messages, results) == s0 + (if results[n].succeeded then [messages[n]] else []);
      assert SuccessIndices(results) == i0 + (if results[n].succeeded then [n] else []);
      forall k | 0 <= k < |s0|
        ensures s0[k] == messages[i0[k]]
      {
        assert messages[..n][i0[k]] == messages[i0[k]];
      }
    }
  }

  /**
   * The dispatch loop of one turn: every message is processed once and counts
   * the completion latch down once, whatever its handler does, so the latch
   * reaches zero; successes are collected in the success list. `latch` stands
   * for the batch's `CountDownLatch`, whose count the handlers decrement and
   * whose `await` ends the dispatch once it reaches zero.
   */
  method DispatchBatch(queue: SqsQueue, messages: seq<Message>, outcomes: seq<HandlerOutcome>)
    returns (results: seq<ProcessResult>, successful: seq<Message>, latch: int)
    requires |outcomes| == |messages|
    ensures results == ProcessAll(queue, messages, outcomes)
    ensures successful == Successful(messages, results)
    ensures latch == 0
  {
    latch := |messages|;
    results, successful := [], [];
    var i := 0;
    while i < |messages|
      invariant 0 <= i <= |messages|
      invariant latch == |messages| - i
      invariant results == ProcessAll(queue, messages[..i], outcomes[..i])
      invariant successful == Successful(messages[..i], results)
    {
      var r := ProcessMessage(queue, messages[i], outcomes[i]);
      if r.succeeded {
        successful := successful + [messages[i]];
      }
      assert messages[..i + 1][..i] == messages[..i];
      assert outcomes[..i + 1][..i] == outcomes[..i];
      results := results + [r];
      assert results[..i] == results[..|results| - 1];
      latch := latch - 1;
      i := i + 1;
    }
    assert messages[..i] == messages;
    assert outcomes[..i] == outcomes;
  }

  datatype DeleteEntry = DeleteEntry(id: string, receiptHandle: string)

  datatype DeleteBatchRequest = DeleteBatchRequest(queueUrl: Option<string>, entries: seq<DeleteEntry>)

  /** The delete entries of `deleteBatch`: each message's id and receipt handle, in list order. */
  function DeleteEntries(messages: seq<Message>): (entries: seq<DeleteEntry>)
    ensures |entries| == |messages|
    ensures forall i :: 0 <= i < |messages| ==>
              entries[i] == DeleteEntry(messages[i].messageId, messages[i].receiptHandle)
  {
    seq(|messages|, i requires 0 <= i < |messages| => DeleteEntry(messages[i].messageId, messages[i].receiptHandle))
  }

  /** `deleteBatch`: no request at all for an empty list, otherwise one request with all the entries. */
  function DeleteRequestFor(queue: SqsQueue, messages: seq<Message>): (r: Option<DeleteBatchRequest>)
    ensures r.None? <==> |messages| == 0
    ensures r.Some? ==> r.value.queueUrl == queue.url && r.value.entries == DeleteEntries(messages)
  {
    var entries := DeleteEntries(messages);
    if |entries| == 0 then None else Some(DeleteBatchRequest(queue.url, entries))
  }

  /** Errors a consumer logs and swallows. */
  datatype LogEntry = ReceiveErrorLogged | DeleteErrorLogged

  /** What one turn of the loop did. */
  datatype Iteration = Iteration(
    request: Option<ReceiveRequest>,
    pauseSeconds: int,
    results: seq<ProcessResult>,
    successful: seq<Message>,
    delete: Option<DeleteBatchRequest>,
    logged: seq<LogEntry>)

  const NothingDone := Iteration(None, 0, [], [], None, [])

  /** The outcomes consistent with a receive outcome: one handler outcome per delivered message. */
  predicate OutcomesFit(receive: ReceiveOutcome, outcomes: seq<HandlerOutcome>) {
    receive.Delivered? ==> |outcomes| == |receive.messages|
  }

  /**
   * The acknowledgement step: with `autoAcknowledge` the successful messages are
   * deleted in one call whose SDK errors are logged; a null flag throws.
   */
  function Acknowledge(queue: SqsQueue, it: Iteration, deleteOutcome: CallOutcome): (r: (Iteration, Outcome))
    requires it.delete == None
    ensures r.0.request == it.request && r.0.results == it.results && r.0.successful == it.successful
    ensures r.0.pauseSeconds == it.pauseSeconds
    ensures r.0.delete == (if queue.autoAcknowledge == Some(true) then DeleteRequestFor(queue, it.successful) else None)
    ensures r.1.Threw? <==> queue.autoAcknowledge == None || (r.0.delete.Some? && deleteOutcome.OtherException?)
  {
    match queue.autoAcknowledge
    case None => (it, Threw(NullPointer))
    case Some(auto) =>
      if !auto then (it, Done)
      else
        match DeleteRequestFor(queue, it.successful)
        case None => (it, Done)
        case Some(request) =>
          var sent := it.(delete := Some(request));
          match deleteOutcome
          case Returned => (sent, Done)
          case SdkException => (sent.(logged := sent.logged + [DeleteErrorLogged]), Done)
          case OtherException => (sent, Threw(UnexpectedFailure))
  }

  /**
   * One turn of `QueueConsumer.run` with the listener's client and task executor:
   * the turn's effects, and whether an exception escaped it (which ends the
   * consumer). An SDK receive error is logged, pauses the consumer and yields an
   * empty batch; any other receive error escapes.
   */
  function Iterate(client: Option<ClientRef>, taskExecutor: Option<Executor>, queue: SqsQueue,
                   receive: ReceiveOutcome, outcomes: seq<HandlerOutcome>, deleteOutcome: CallOutcome)
    : (r: (Iteration, Outcome))
    requires OutcomesFit(receive, outcomes)
    ensures r.0.results != [] ==> receive.Delivered? && |r.0.results| == |receive.messages|
    ensures r.0.pauseSeconds != 0 ==> receive.ReceiveSdkException? && r.0.results == []
    ensures r.0.delete.Some? ==> r.0.request.Some? && r.0.delete.value.queueUrl == queue.url
    ensures r.1.Threw? && r.0.request.None? ==> ReceiveRequestFor(queue).Failure?
  {
    match ReceiveRequestFor(queue)
    case Failure(e) => (NothingDone, Threw(e))
    case Success(request) =>
      var sent := NothingDone.(request := Some(request));
      if client.None? then (sent, Threw(NullPointer))
      else
        match receive
        case ReceiveOtherException => (sent, Threw(UnexpectedFailure))
        case ReceiveSdkException =>
          Acknowledge(queue, sent.(pauseSeconds := RECEIVE_ERROR_PAUSE_SECONDS, logged := [ReceiveErrorLogged]), deleteOutcome)
        case Delivered(messages) =>
          if |messages| > 0 && SubmitCheck(taskExecutor).Threw? then (sent, SubmitCheck(taskExecutor))
          else
            var results := ProcessAll(queue, messages, outcomes);
            Acknowledge(queue, sent.(results := results, successful := Successful(messages, results)), deleteOutcome)
  }

  /** One turn of `QueueConsumer.run`, running the dispatch loop. */
  method RunIteration(client: Option<ClientRef>, taskExecutor: Option<Executor>, queue: SqsQueue,
                      receive: ReceiveOutcome, outcomes: seq<HandlerOutcome>, deleteOutcome: CallOutcome)
    returns (it: Iteration, outcome: Outcome)
    requires OutcomesFit(receive, outcomes)
    ensures (it, outcome) == Iterate(client, taskExecutor, queue, receive, outcomes, deleteOutcome)
  {
    var requestResult := ReceiveRequestFor(queue);
    if requestResult.Failure? {
      return NothingDone, Threw(requestResult.error);
    }
    var sent := NothingDone.(request := Some(requestResult.value));
    if client.None? {
      return sent, Threw(NullPointer);
    }
    match receive {
      case ReceiveOtherException =>
        it, outcome := sent, Threw(UnexpectedFailure);
      case ReceiveSdkException =>
        var paused := sent.(pauseSeconds := RECEIVE_ERROR_PAUSE_SECONDS, logged := [ReceiveErrorLogged]);
        it, outcome := Acknowledge(queue, paused, deleteOutcome).0, Acknowledge(queue, paused, deleteOutcome).1;
      case Delivered(messages) =>
        if |messages| > 0 && SubmitCheck(taskExecutor).Threw? {
          return sent, SubmitCheck(taskExecutor);
        }
        var results, successful, latch := DispatchBatch(queue, messages, outcomes);
        var dispatched := sent.(results := results, successful := successful);
        it, outcome := Acknowledge(queue, dispatched, deleteOutcome).0, Acknowledge(queue, dispatched, deleteOutcome).1;
    }
  }

  /** The receive request of a turn is the queue's, whatever happens after it. */
  lemma IterateSendsQueueRequest(client: Option<ClientRef>, taskExecutor: Option<Executor>, queue: SqsQueue,
                                 receive: ReceiveOutcome, outcomes: seq<HandlerOutcome>, deleteOutcome: CallOutcome)
    requires OutcomesFit(receive, outcomes) && queue.longPolling.Some?
    ensures Iterate(client, taskExecutor, queue, receive, outcomes, deleteOutcome).0.request
         == Some(ReceiveRequestFor(queue).value)
  {
  }

  /**
   * After an SDK receive error the consumer pauses for 2 seconds, no handler runs
   * and nothing is deleted; the turn ends normally unless `autoAcknowledge` is null.
   */
  lemma SdkReceiveErrorSkipsTheBatch(client: Option<ClientRef>, taskExecutor: Option<Executor>, queue: SqsQueue,
                                     outcomes: seq<HandlerOutcome>, deleteOutcome: CallOutcome)
    requires client.Some? && queue.longPolling.Some?
    ensures var (it, outcome) := Iterate(client, taskExecutor, queue, ReceiveSdkException, outcomes, deleteOutcome);
      && it.pauseSeconds == 2 && it.results == [] && it.delete == None
      && it.logged == [ReceiveErrorLogged]
      && (outcome == Done <==> queue.autoAcknowledge.Some?)
  {
  }

  /** Without `autoAcknowledge` a turn never deletes anything. */
  lemma NoDeleteWithoutAutoAcknowledge(client: Option<ClientRef>, taskExecutor: Option<Executor>, queue: SqsQueue,
                                       receive: ReceiveOutcome, outcomes: seq<HandlerOutcome>, deleteOutcome: CallOutcome)
    requires OutcomesFit(receive, outcomes) && queue.autoAcknowledge != Some(true)
    ensures Iterate(client, taskExecutor, queue, receive, outcomes, deleteOutcome).0.delete == None
  {
  }

  /**
   * A delivered batch whose messages can be submitted is processed message by
   * message, and with `autoAcknowledge` the delete request carries exactly the
   * (id, receipt handle) pairs of the successful messages in success-list order;
   * there is no delete request when nothing succeeded.
   */
  lemma {:induction false} DeliveredBatchIsProcessedAndAcknowledged(
      client: Option<ClientRef>, taskExecutor: Option<Executor>, queue: SqsQueue,
      messages: seq<Message>, outcomes: seq<HandlerOutcome>, deleteOutcome: CallOutcome)
    requires |outcomes| == |messages|
    requires client.Some? && queue.longPolling.Some? && queue.autoAcknowledge == Some(true)
    requires |messages| > 0 ==> SubmitCheck(taskExecutor) == Done
    ensures var it := Iterate(client, taskExecutor, queue, Delivered(messages), outcomes, deleteOutcome).0;
      && |it.results| == |messages|
      && (forall i :: 0 <= i < |messages| ==> it.results[i] == ProcessMessage(queue, messages[i], outcomes[i]))
      && (forall i :: 0 <= i < |messages| && it.results[i].succeeded ==> messages[i] in it.successful)
      && (it.delete.None? <==> it.successful == [])
      && (it.delete.Some? ==>
            && it.delete.value.queueUrl == queue.url
            && |it.delete.value.entries| == |it.successful|
            && forall k :: 0 <= k < |it.successful| ==>
                 it.delete.value.entries[k] == DeleteEntry(it.successful[k].messageId, it.successful[k].receiptHandle))
  {
    var results := ProcessAll(queue, messages, outcomes);
    SuccessfulAtSuccessIndices(messages, results);
    var indices := SuccessIndices(results);
    forall i | 0 <= i < |messages| && results[i].succeeded
      ensures messages[i] in Successful(messages, results)
    {
      var k :| 0 <= k < |indices| && indices[k] == i;
      assert Successful(messages, results)[k] == messages[i];
    }
  }
}
