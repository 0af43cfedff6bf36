/**
 * Publishing one report: a single send keyed by the detecting device, a wait
 * of at most five seconds on the returned future, and the translation of the
 * wait's outcome into a return value or an exception.
 */
module Kafka {
  import opened Wrappers
  import opened Exceptions
  import opened DroneData

  const Accepted := "Данные о БПЛА приняты в обработку"
  const InterruptedText := "Прервана отправка в Kafka"
  const TimeoutText := "Таймаут отправки в Kafka"
  const ExecutionText := "Ошибка отправки в Kafka"

  /** The bound of future.get(5, TimeUnit.SECONDS), in milliseconds. */
  const SendTimeoutMillis: nat := 5 * 1000

  /** What is handed to the broker client: topic, partition key and value. */
  datatype ProducerRecord = ProducerRecord(topic: string, key: Option<string>, value: Report)

  /** How the future eventually settles: acknowledged, failed with a cause, or cancelled. */
  datatype Completion = Acknowledged | Failed(cause: string) | Cancelled

  /**
   * The CancellationException that get throws for a cancelled future: unchecked,
   * caught by none of the clauses, and carrying no message.
   */
  const Cancellation: RuntimeFault := Other("")

  /**
   * The future that send returns: how many milliseconds after the wait begins
   * it settles (None: never), and how.
   */
  datatype SendHandle = SendHandle(settlesAfter: Option<nat>, completion: Completion)

  /** What kafkaTemplate.send does when called: return a future, or throw. */
  datatype SendCall = Returned(handle: SendHandle) | Threw(exception: RuntimeFault)

  /** How one publish attempt ends. */
  datatype PublishOutcome =
    | Ack
    | Timeout
    | Interrupted
    | ExecutionFailed(cause: string)
    | Thrown(exception: RuntimeFault)

  /** The outcome of the bounded wait and how long the caller was blocked. */
  datatype Wait = Wait(outcome: PublishOutcome, waitedMillis: nat)

  /** A call of the producer: the records it handed to the broker and how it finished. */
  datatype Invocation<T> = Invocation(sent: seq<ProducerRecord>, result: Result<T>)

  predicate SettlesInTime(handle: SendHandle)
  {
    handle.settlesAfter.Some? && handle.settlesAfter.value <= SendTimeoutMillis
  }

  /** The thread is interrupted while still waiting: before the bound and before the future settles. */
  predicate InterruptedWhileWaiting(handle: SendHandle, interruptAfter: Option<nat>)
  {
    && interruptAfter.Some?
    && interruptAfter.value < SendTimeoutMillis
    && (handle.settlesAfter.None? || interruptAfter.value < handle.settlesAfter.value)
  }

  /**
   * future.get(5, SECONDS): the caller is never blocked beyond the bound; a
   * future settled in time yields its own result (a cancelled one throws)
   * unless an interrupt came first; otherwise the wait times out at the bound.
   */
  function Get(handle: SendHandle, interruptAfter: Option<nat>): (w: Wait)
    ensures w.waitedMillis <= SendTimeoutMillis
    ensures w.outcome.Thrown? <==> SettlesInTime(handle) && handle.completion.Cancelled? && !InterruptedWhileWaiting(handle, interruptAfter)
    ensures w.outcome.Thrown? ==> w.outcome.exception == Cancellation
    ensures w.outcome.Timeout? <==> !SettlesInTime(handle) && !InterruptedWhileWaiting(handle, interruptAfter)
    ensures w.outcome.Timeout? ==> w.waitedMillis == SendTimeoutMillis
    ensures w.outcome.Interrupted? <==> InterruptedWhileWaiting(handle, interruptAfter)
    ensures w.outcome.Ack? <==> SettlesInTime(handle) && handle.completion.Acknowledged? && !InterruptedWhileWaiting(handle, interruptAfter)
    ensures w.outcome.ExecutionFailed? <==> SettlesInTime(handle) && handle.completion.Failed? && !InterruptedWhileWaiting(handle, interruptAfter)
    ensures w.outcome.ExecutionFailed? ==> w.outcome.cause == handle.completion.cause
  {
    if InterruptedWhileWaiting(handle, interruptAfter) then
      Wait(Interrupted, interruptAfter.value)
    else if SettlesInTime(handle) then
      var outcome := match handle.completion
        case Acknowledged => Ack
        case Failed(cause) => ExecutionFailed(cause)
        case Cancelled => Thrown(Cancellation);
      Wait(outcome, handle.settlesAfter.value)
    else
      Wait(Timeout, SendTimeoutMillis)
  }

  /**
   * The outcome of the send followed by the bounded wait: what send threw
   * escapes as it is, and only a future that send returned can be acknowledged.
   */
  function Publish(send: SendCall, interruptAfter: Option<nat>): (outcome: PublishOutcome)
    ensures send.Threw? ==> outcome == Thrown(send.exception)
    ensures send.Returned? ==> outcome == Get(send.handle, interruptAfter).outcome
    ensures outcome.Ack? ==> send.Returned? && SettlesInTime(send.handle) && send.handle.completion.Acknowledged?
    ensures outcome.Thrown? && send.Returned? ==> outcome.exception == Cancellation && send.handle.completion.Cancelled?
  {
    match send
    case Returned(handle) => Get(handle, interruptAfter).outcome
    case Threw(e) => Thrown(e)
  }

  /**
   * The catch clauses: an acknowledgment returns the acceptance text, each
   * failed wait becomes a KafkaException carrying the wait's exception as its
   * cause, and anything send threw is not caught.
   */
  function Translate(outcome: PublishOutcome): (r: Result<string>)
    ensures r.Returns? <==> outcome.Ack?
    ensures r.Returns? ==> r.value == Accepted
    ensures outcome.Thrown? ==> r == Throws(outcome.exception)
    ensures !outcome.Ack? && !outcome.Thrown? ==> r.Throws? && r.exception.Kafka? && r.exception.cause.Some?
  {
    match outcome
    case Ack => Returns(Accepted)
    case Interrupted => Throws(Kafka(InterruptedText, Some(InterruptedException)))
    case Timeout => Throws(Kafka(TimeoutText, Some(TimeoutException)))
    case ExecutionFailed(cause) => Throws(Kafka(ExecutionText, Some(ExecutionException(cause))))
    case Thrown(e) => Throws(e)
  }

  /** The producer bean; its topic comes from configuration and is only read. */
  datatype KafkaProducer = KafkaProducer(topic: string) {

    /** sendDroneData: one send of (topic, detectedBy, the report), then the bounded wait. */
    function SendDroneData(droneDto: Report, send: SendCall, interruptAfter: Option<nat>): (inv: Invocation<string>)
      ensures inv.sent == [ProducerRecord(topic, droneDto.detectedBy, droneDto)]
      ensures inv.result.Returns? ==> inv.result.value == Accepted
      ensures inv.result.Throws? && !inv.result.exception.Kafka? ==>
        || (send.Threw? && send.exception == inv.result.exception)
        || (send.Returned? && send.handle.completion.Cancelled? && inv.result.exception == Cancellation)
    {
      var record := ProducerRecord(topic, droneDto.detectedBy, droneDto);
      Invocation([record], Translate(Publish(send, interruptAfter)))
    }
  }

  /** The result never depends on the report's contents: no field value is echoed back. */
  lemma ResultIgnoresContents(producer: KafkaProducer, d1: Report, d2: Report, send: SendCall, interruptAfter: Option<nat>)
    ensures producer.SendDroneData(d1, send, interruptAfter).result == producer.SendDroneData(d2, send, interruptAfter).result
  {
  }

  /** A future acknowledged within the bound, with no interrupt before it, makes the producer accept the report. */
  lemma AcknowledgedInTime(producer: KafkaProducer, droneDto: Report, handle: SendHandle, interruptAfter: Option<nat>)
    requires SettlesInTime(handle) && handle.completion.Acknowledged?
    requires !InterruptedWhileWaiting(handle, interruptAfter)
    ensures Publish(Returned(handle), interruptAfter) == Ack
    ensures producer.SendDroneData(droneDto, Returned(handle), interruptAfter).result == Returns(Accepted)
  {
  }

  /** Every failed wait is a KafkaException with its own text and the wait's exception as cause. */
  lemma WaitFailuresBecomeKafkaExceptions(handle: SendHandle, interruptAfter: Option<nat>)
    ensures var outcome := Publish(Returned(handle), interruptAfter);
      && (outcome == Timeout ==> Translate(outcome) == Throws(Kafka(TimeoutText, Some(TimeoutException))))
      && (outcome == Interrupted ==> Translate(outcome) == Throws(Kafka(InterruptedText, Some(InterruptedException))))
      && (outcome.ExecutionFailed? ==>
            && handle.completion == Failed(outcome.cause)
            && Translate(outcome) == Throws(Kafka(ExecutionText, Some(ExecutionException(outcome.cause)))))
  {
  }

  /**
   * A future cancelled in time, with no interrupt before, makes get throw a
   * CancellationException that no clause catches: it leaves the producer unchanged.
   */
  lemma CancelledFutureEscapes(producer: KafkaProducer, droneDto: Report, handle: SendHandle, interruptAfter: Option<nat>)
    requires SettlesInTime(handle) && handle.completion.Cancelled?
    requires !InterruptedWhileWaiting(handle, interruptAfter)
    ensures producer.SendDroneData(droneDto, Returned(handle), interruptAfter).result == Throws(Cancellation)
  {
  }

  /** A future that never settles (or settles late) and is not interrupted times out after exactly the bound. */
  lemma PendingPastBoundTimesOut(handle: SendHandle, interruptAfter: Option<nat>)
    requires !SettlesInTime(handle)
    requires interruptAfter.None? || interruptAfter.value >= SendTimeoutMillis
    ensures Get(handle, interruptAfter) == Wait(Timeout, SendTimeoutMillis)
  {
  }
}
