/**
 * The exceptions that can reach the request boundary, as one closed datatype,
 * and a Java call's two ways of finishing.
 */
module Exceptions {
  import opened Wrappers
  import opened BeanValidation

  /** The checked exceptions that a bounded future.get can raise. */
  datatype WaitFailure =
    | InterruptedException
    | TimeoutException
    | ExecutionException(cause: string)

  datatype Exception =
    /** Raised by the framework when the @Valid argument has field errors. */
    | MethodArgumentNotValid(fieldErrors: seq<Violation>)
    /** org.apache.kafka.common.errors.SerializationException. */
    | Serialization(message: string)
    /** org.springframework.kafka.KafkaException, with its cause when it wraps a failed wait. */
    | Kafka(message: string, cause: Option<WaitFailure>)
    /** Raised by the framework when the body cannot be read as a report. */
    | HttpMessageNotReadable(message: string)
    /** Any other exception. */
    | Other(message: string)

  /** MethodArgumentNotValid is a checked exception; every other one may escape any call. */
  type RuntimeFault = e: Exception | !e.MethodArgumentNotValid? witness Other("")

  /** A Java call either returns a value or throws. */
  datatype Result<T> = Returns(value: T) | Throws(exception: Exception)
}
