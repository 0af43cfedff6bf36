# data-collector: the drone report pipeline in Dafny

The data-collector service takes drone detection reports at `POST /api/drones`.
It validates each report against the Jakarta Bean Validation constraints
declared on `DroneDto`, and publishes a valid report to a Kafka topic keyed by
the detecting device. It then waits at most five seconds for the broker's
acknowledgment and answers `200 {"message": "Данные о БПЛА приняты в обработку"}`.
Every failure goes through `GlobalExceptionHandler`, which answers with a fresh
`ErrorResponse`:

| failure | status |
|---|---|
| unreadable body | 400 |
| field error | 400 |
| `SerializationException` | 400 |
| `KafkaException` | 503 |
| anything else | 500 |

The model has one module per concern:

- `BeanValidation`: the built-in constraints in use (`@NotNull`, `@NotBlank`, `@Positive`, `@Max`, `@DecimalMin`, `@DecimalMax`).
  - Null passes everything except `@NotNull` and `@NotBlank`.
  - Bounds are inclusive and `@Positive` is strict.
  - "Blank" means every character is at most U+0020, as `String.trim` sees it.
  - The engine turns a property's annotations into its violation messages.
- `DroneData`: the report value, the constraint table of `DroneDto` with its exact Russian messages, and validation. Also the `DroneDto` class with its six setters and getters, and `Bind`, which fills a fresh bean the way JSON binding does.
- `ErrorResponses`: the `ErrorResponse` class. `uuid` and `time` are fixed in the constructor; `error` and `message` are set by setters.
- `Exceptions`: the exceptions that reach the request boundary, as a closed datatype, and `Result`, a Java call's two ways of finishing.
- `ExceptionHandler`: which handler each exception reaches and the status, label and message it answers with (`Mapping`). Also the five handler methods, each building an `ErrorResponse` through its setters.
- `Kafka`: `KafkaProducer.sendDroneData`. It makes one send, waits under the five-second bound (`Get`) and translates the outcome (`Translate`).
- `DroneService`: `DroneServiceImpl.sendToKafka`, the one-entry `{"message": …}` map.
- `DroneApi`: `DroneController.receiveDroneData`, plus the request as the framework runs it:
  - `Serve` is the Malformed / Invalid / Valid state machine;
  - `ProcessRequest` runs the same request through the beans, building each object step by step.

The broker, the JSON reader, the random UUID and the clock are parameters:

- `SendCall` is what `kafkaTemplate.send` does. It either throws, or returns a handle that settles after some number of milliseconds (or never): acknowledged, failed, or cancelled.
- `interruptAfter` is when, if ever, the waiting thread is interrupted.
- `RequestBody` is what JSON reading produced.
- `uuid` and `time` are given to the `ErrorResponse` constructor.

## Model

| member | source | states |
|---|---|---|
| BeanValidation.Violated | src/main/java/com/example/data_collector/dto/DroneDto.java:11-35 | a property reports at most one message per declared annotation |
| BeanValidation.IsValid | src/main/java/com/example/data_collector/dto/DroneDto.java:11-31 | the built-in validators: null passes every constraint except @NotNull and @NotBlank; @Max, @DecimalMin and @DecimalMax accept their bound; @Positive rejects 0 |
| BeanValidation.Check | src/main/java/com/example/data_collector/dto/DroneDto.java:11-35 | one annotation reports nothing iff the value satisfies its constraint, and otherwise its message |
| BeanValidation.ViolatedExactly | src/main/java/com/example/data_collector/dto/DroneDto.java:11-35 | a message is reported iff some annotation carrying it is violated by the value (nothing missed, nothing spurious) |
| BeanValidation.ValidIffNoneViolated | src/main/java/com/example/data_collector/dto/DroneDto.java:11-35 | a property reports nothing iff every annotation on it is satisfied |
| DroneData.Annotations | src/main/java/com/example/data_collector/dto/DroneDto.java:11-35 | the declared annotation table with its exact messages and bounds: one or three annotations per property, the first always the presence check (@NotNull or @NotBlank) |
| DroneData.FieldMessages | src/main/java/com/example/data_collector/dto/DroneDto.java:11-35 | the validator's messages for one property, at most one per declared annotation; equal to ExpectedMessages (FieldRule), so at most one in all (AtMostOnePerField) |
| DroneData.AnnotationsSupported | src/main/java/com/example/data_collector/dto/DroneDto.java:11-35 | every declared constraint fits its property's type (text constraints on String, number constraints on Double) |
| DroneData.FieldRule | src/main/java/com/example/data_collector/dto/DroneDto.java:11-35 | each property's messages equal the case-by-case reference, for example: <br>• null speed gives only "Скорость БПЛА обязательна" <br>• speed ≤ 0 gives only the positive message <br>• speed > 600 gives only the "меньше 600 км/ч" message <br>• latitude and longitude below or above their bounds give the lower or upper message <br>• a null or blank model or detectedBy gives its not-blank message |
| DroneData.NotBlankRule | src/main/java/com/example/data_collector/dto/DroneDto.java:11-12 | a lone `@NotBlank` reports its message exactly for null or blank text |
| DroneData.PositiveAtMostRule | src/main/java/com/example/data_collector/dto/DroneDto.java:14-17 | `@NotNull`, `@Positive` and `@Max(max)` with max ≥ 0: <br>• null reports only "required" <br>• x ≤ 0 reports only "not positive" <br>• x > max reports only "too high" <br>• otherwise nothing |
| DroneData.BetweenRule | src/main/java/com/example/data_collector/dto/DroneDto.java:19-27 | `@NotNull`, `@DecimalMin(lo)` and `@DecimalMax(hi)` with lo ≤ hi: <br>• null reports only "required" <br>• below lo reports only "too low" <br>• above hi reports only "too high" <br>• bounds inclusive |
| DroneData.AtMostOnePerField | src/main/java/com/example/data_collector/dto/DroneDto.java:11-35 | each property contributes at most one violation |
| DroneData.MissingValueReportsOnlyFirst | src/main/java/com/example/data_collector/dto/DroneDto.java:14-29 | a null number (or a null or blank text) reports exactly its first annotation's message, never a range message |
| DroneData.NoExpectedIffWithinRanges | src/main/java/com/example/data_collector/dto/DroneDto.java:11-35 | the per-property reference outcomes are all empty iff both texts are non-blank and every number is present and within (0,600], [-90,90], [-180,180], (0,10000] |
| DroneData.ValidIffWithinRanges | src/main/java/com/example/data_collector/dto/DroneDto.java:11-35 | the validator accepts a report iff it lies within the declared ranges, boundary values included |
| DroneData.ErrorsOf | src/main/java/com/example/data_collector/dto/DroneDto.java:11-35 | the field errors of a list of properties, in list order, at most one per property |
| DroneData.Validate | src/main/java/com/example/data_collector/dto/DroneDto.java:11-35 | validating the report: the field errors of all six properties in declaration order, at most six |
| DroneData.ErrorsIffMessages | src/main/java/com/example/data_collector/dto/DroneDto.java:11-35 | a property has field errors iff it has violation messages |
| DroneData.NoErrorsAmong | src/main/java/com/example/data_collector/dto/DroneDto.java:11-35 | the field errors of a list of properties are empty iff none of them violates a constraint |
| DroneData.NoErrorsIffNoMessages | src/main/java/com/example/data_collector/dto/DroneDto.java:11-35 | a report is valid iff no property violates any of its constraints |
| DroneData.ErrorsOfUnion | src/main/java/com/example/data_collector/dto/DroneDto.java:11-35 | an error is among those of a list of properties iff it is an error of one of them |
| DroneData.ValidateIsUnion | src/main/java/com/example/data_collector/dto/DroneDto.java:11-35 | the report's errors are the union of the per-property errors, whatever the number of faulty properties |
| DroneData.OnlyFaultyAmong | src/main/java/com/example/data_collector/dto/DroneDto.java:11-35 | among distinct properties where only f has violations, the errors are exactly f's |
| DroneData.OnlyFaultyFieldReported | src/main/java/com/example/data_collector/dto/DroneDto.java:11-35 | when every other property is fine, the report's errors are exactly those of f |
| DroneData.DroneDto.constructor | src/main/java/com/example/data_collector/dto/DroneDto.java:9-35 | a new bean holds null in every property |
| DroneData.DroneDto.SetLatitude | src/main/java/com/example/data_collector/dto/DroneDto.java:37-39 | getLatitude returns the value set, and no other property changes |
| DroneData.DroneDto.SetFlightAltitude | src/main/java/com/example/data_collector/dto/DroneDto.java:41-43 | getFlightAltitude returns the value set, and no other property changes |
| DroneData.DroneDto.SetLongitude | src/main/java/com/example/data_collector/dto/DroneDto.java:45-47 | getLongitude returns the value set, and no other property changes |
| DroneData.DroneDto.SetDetectedBy | src/main/java/com/example/data_collector/dto/DroneDto.java:49-51 | getDetectedBy returns the value set, and no other property changes |
| DroneData.DroneDto.SetModel | src/main/java/com/example/data_collector/dto/DroneDto.java:53-55 | getModel returns the value set, and no other property changes |
| DroneData.DroneDto.SetSpeed | src/main/java/com/example/data_collector/dto/DroneDto.java:57-59 | getSpeed returns the value set, and no other property changes |
| DroneData.Bind | src/main/java/com/example/data_collector/dto/DroneDto.java:37-83 | a fresh bean filled through the six setters holds exactly the parsed report |
| ErrorResponses.ErrorResponse.constructor | src/main/java/com/example/data_collector/dto/ErrorResponse.java:12-23 | uuid and time are those chosen at construction (final from then on); error and message start out null |
| ErrorResponses.ErrorResponse.SetError | src/main/java/com/example/data_collector/dto/ErrorResponse.java:25-27 | getError returns the value set; message is unchanged; uuid and time are final |
| ErrorResponses.ErrorResponse.SetMessage | src/main/java/com/example/data_collector/dto/ErrorResponse.java:29-31 | getMessage returns the value set; error is unchanged; uuid and time are final |
| ExceptionHandler.DefaultMessages | src/main/java/com/example/data_collector/exception/GlobalExceptionHandler.java:29-33 | one message per field error, in the binding result's order, each its default message |
| ExceptionHandler.Join | src/main/java/com/example/data_collector/exception/GlobalExceptionHandler.java:37 | String.join: joining nothing gives ""; the joined string starts with the first element (delimiter placement and order: JoinAppend) |
| ExceptionHandler.JoinContainsEach | src/main/java/com/example/data_collector/exception/GlobalExceptionHandler.java:37 | every joined element occurs in the joined string |
| ExceptionHandler.JoinSingle | src/main/java/com/example/data_collector/exception/GlobalExceptionHandler.java:37 | a single element is joined to itself, with no delimiter |
| ExceptionHandler.JoinAppend | src/main/java/com/example/data_collector/exception/GlobalExceptionHandler.java:37 | joining two non-empty lists one after the other equals the two joins with one delimiter between them, so elements keep their order and neighbours are separated by exactly one delimiter |
| ExceptionHandler.HandlerFor | src/main/java/com/example/data_collector/exception/GlobalExceptionHandler.java:27-82 | the handler chosen by exception class: the validation handler iff MethodArgumentNotValidException, the Kafka handler iff KafkaException, the catch-all iff no other handler's class matches |
| ExceptionHandler.ValidationMessage | src/main/java/com/example/data_collector/exception/GlobalExceptionHandler.java:37-38 | the validation message starts with "Проверьте корректность передаваемых параметров: "; with no field error it is the prefix alone, with one it is exactly prefix + that message |
| ExceptionHandler.ValidationMessageAppend | src/main/java/com/example/data_collector/exception/GlobalExceptionHandler.java:29-38 | one more field error appends "; " and its message to the validation message: the messages follow the list order, separated by the delimiter |
| ExceptionHandler.Mapping | src/main/java/com/example/data_collector/exception/GlobalExceptionHandler.java:27-82 | the map is total: <br>• status is always one of 400, 503, 500 <br>• 503 iff KafkaException, 500 iff an unanticipated exception <br>• the validation message starts with the fixed prefix <br>• every other message is one of the four fixed texts |
| ExceptionHandler.LabelIdentifiesHandler | src/main/java/com/example/data_collector/exception/GlobalExceptionHandler.java:27-82 | two exceptions get the same error label iff they reach the same handler |
| ExceptionHandler.NoExceptionTextLeaks | src/main/java/com/example/data_collector/exception/GlobalExceptionHandler.java:44-82 | outside validation the answer depends on the handler only, never on the exception's own text |
| ExceptionHandler.ValidationMessageEchoes | src/main/java/com/example/data_collector/exception/GlobalExceptionHandler.java:29-38 | the validation message contains every field message; with one field error it is exactly prefix + that message |
| ExceptionHandler.HandleValidationErrors | src/main/java/com/example/data_collector/exception/GlobalExceptionHandler.java:27-42 | a fresh ErrorResponse stamped with the given uuid and time, rendering 400, "Ошибка валидации входных данных" and prefix + joined messages |
| ExceptionHandler.HandleSerializationException | src/main/java/com/example/data_collector/exception/GlobalExceptionHandler.java:44-52 | a fresh stamped ErrorResponse rendering 400, "Ошибка преобразования данных" and its fixed message |
| ExceptionHandler.HandleKafkaErrors | src/main/java/com/example/data_collector/exception/GlobalExceptionHandler.java:54-62 | a fresh stamped ErrorResponse rendering 503, "Ошибка обработки сообщения" and the retry-later message |
| ExceptionHandler.HandleInvalidRequestBody | src/main/java/com/example/data_collector/exception/GlobalExceptionHandler.java:64-72 | a fresh stamped ErrorResponse rendering 400, "Некорректный формат запроса" and its fixed message |
| ExceptionHandler.HandleAll | src/main/java/com/example/data_collector/exception/GlobalExceptionHandler.java:74-82 | a fresh stamped ErrorResponse rendering 500, "Внутренняя ошибка на сервере" and "Произошла непредвиденная ошибка", whatever the exception |
| ExceptionHandler.Handle | src/main/java/com/example/data_collector/exception/GlobalExceptionHandler.java:22-82 | every exception reaches exactly one handler, whose fresh stamped response renders Mapping |
| Kafka.Get | src/main/java/com/example/data_collector/kafka/KafkaProducer.java:37 | future.get(5, SECONDS): <br>• never blocks beyond 5000 ms <br>• Interrupted iff the thread is interrupted while still waiting <br>• Ack iff the future is acknowledged within the bound with no interrupt first <br>• ExecutionFailed iff it fails within the bound with no interrupt first, keeping the failure's cause <br>• throws (an unchecked CancellationException) iff it is cancelled within the bound with no interrupt first <br>• otherwise times out, after exactly the bound |
| Kafka.Publish | src/main/java/com/example/data_collector/kafka/KafkaProducer.java:34-37 | the send then the bounded wait: what send threw escapes as it is; for a returned future the outcome is that of Get on it |
| Kafka.Translate | src/main/java/com/example/data_collector/kafka/KafkaProducer.java:37-47 | returns (the acceptance text) iff acknowledged; an uncaught exception (from send, or a cancellation) propagates unchanged; every timeout, interrupt and execution failure becomes a KafkaException with a cause |
| Kafka.KafkaProducer.SendDroneData | src/main/java/com/example/data_collector/kafka/KafkaProducer.java:32-48 | exactly one record (configured topic, key detectedBy, the report itself); a return is the acceptance text; a non-Kafka exception is exactly what send threw, or the CancellationException of a cancelled future |
| Kafka.CancelledFutureEscapes | src/main/java/com/example/data_collector/kafka/KafkaProducer.java:37-47 | a future cancelled in time with no interrupt first makes the producer throw the CancellationException, which none of the catch clauses at 41-46 handles |
| Kafka.ResultIgnoresContents | src/main/java/com/example/data_collector/kafka/KafkaProducer.java:37-39 | the outcome does not depend on the report's contents |
| Kafka.AcknowledgedInTime | src/main/java/com/example/data_collector/kafka/KafkaProducer.java:37-39 | an acknowledgment within the bound, not preceded by an interrupt, returns the acceptance text |
| Kafka.WaitFailuresBecomeKafkaExceptions | src/main/java/com/example/data_collector/kafka/KafkaProducer.java:41-46 | timeout, interrupt and execution failure each raise a KafkaException with their own text, and the execution failure keeps the original cause |
| Kafka.PendingPastBoundTimesOut | src/main/java/com/example/data_collector/kafka/KafkaProducer.java:37 | a future still pending at 5000 ms with no earlier interrupt times out after exactly the bound (no retry) |
| DroneService.DroneServiceImpl.SendToKafka | src/main/java/com/example/data_collector/service/impl/DroneServiceImpl.java:19-24 | the producer is called once with the same report; the map has the single key "message" holding the producer's text; the producer's exception passes through unchanged |
| DroneApi.DroneController.ReceiveDroneData | src/main/java/com/example/data_collector/controller/DroneController.java:27-31 | entered only with a valid report; one record sent; returns iff the publish is acknowledged, with status 200 and the service's map; otherwise the producer's exception |
| DroneApi.Classify | src/main/java/com/example/data_collector/controller/DroneController.java:27-28 | unreadable iff the body is malformed; valid iff parsed and accepted by the validator; invalid carries the non-empty field errors |
| DroneApi.Serve | src/main/java/com/example/data_collector/controller/DroneController.java:27-31 | at most one record is sent, and only for a parsed valid report; success is the 200 acceptance map; failure has status 400, 503 or 500 |
| DroneApi.MalformedBodyNeverPublishes | src/test/java/com/example/data_collector/DroneControllerTest.java:196-206 | an unreadable body is answered 400 "Некорректный формат запроса" and nothing is sent |
| DroneApi.InvalidReportRejected | src/main/java/com/example/data_collector/controller/DroneController.java:28 | an invalid report sends nothing and is answered 400 with the validation label and a message naming every violation |
| DroneApi.SuccessIffValidAndAcknowledged | src/main/java/com/example/data_collector/controller/DroneController.java:27-31 | the request succeeds iff the body is readable, the report valid and the send acknowledged in time |
| DroneApi.ValidReportPublished | src/main/java/com/example/data_collector/controller/DroneController.java:28-31 | a valid report is sent exactly once keyed by detectedBy; a timeout, interrupt or execution failure is answered 503; whatever escapes uncaught (thrown by send, or a cancellation) goes to the handler for its class |
| DroneApi.CancelledFutureRejected | src/main/java/com/example/data_collector/exception/GlobalExceptionHandler.java:74-82 | a valid report whose future is cancelled in time is answered 500 with the generic text, not 503 |
| DroneApi.SingleViolationMessage | src/main/java/com/example/data_collector/exception/GlobalExceptionHandler.java:29-38 | with a single violation, the reply is 400 whose message is exactly prefix + that violation's message |
| DroneApi.SampleReportValid | src/test/java/com/example/data_collector/DroneControllerTest.java:53-62 | the test's sample report passes validation |
| DroneApi.AcceptedScenario | src/test/java/com/example/data_collector/DroneControllerTest.java:64-78 | any report within the declared ranges, acknowledged at once, is answered 200 with the acceptance text |
| DroneApi.SampleAndBoundaryReportsAccepted | src/test/java/com/example/data_collector/DroneControllerTest.java:208-227 | the sample report, the report with every upper bound, and the report with the latitude and longitude lower bounds are accepted |
| DroneApi.RejectedScenario | src/test/java/com/example/data_collector/DroneControllerTest.java:80-176 | a report whose only fault is one message m is answered 400 with exactly prefix + m |
| DroneApi.EmptyModelScenario | src/test/java/com/example/data_collector/DroneControllerTest.java:80-92 | model "" is answered 400 with the model not-blank message |
| DroneApi.NegativeSpeedScenario | src/test/java/com/example/data_collector/DroneControllerTest.java:94-106 | speed -10 is answered 400 with the positive-speed message |
| DroneApi.SpeedOverLimitScenario | src/test/java/com/example/data_collector/DroneControllerTest.java:108-120 | speed 700 is answered 400 with the "меньше 600 км/ч" message |
| DroneApi.LatitudeTooLowScenario | src/test/java/com/example/data_collector/DroneControllerTest.java:122-134 | latitude -100 is answered 400 with the latitude lower-bound message |
| DroneApi.LongitudeTooHighScenario | src/test/java/com/example/data_collector/DroneControllerTest.java:136-148 | longitude 200 is answered 400 with the longitude upper-bound message |
| DroneApi.AltitudeOverLimitScenario | src/test/java/com/example/data_collector/DroneControllerTest.java:150-162 | altitude 15000 is answered 400 with the altitude upper-bound message |
| DroneApi.EmptyDetectedByScenario | src/test/java/com/example/data_collector/DroneControllerTest.java:164-176 | detectedBy "" is answered 400 with the detectedBy not-blank message |
| DroneApi.KafkaTimeoutScenario | src/test/java/com/example/data_collector/DroneControllerTest.java:178-194 | a future that never completes is answered 503 with the retry-later message |
| DroneApi.UnexpectedErrorRejected | src/main/java/com/example/data_collector/exception/GlobalExceptionHandler.java:74-82 | whatever unanticipated exception send throws, the client gets 500 with the generic text and never the exception's own text |
| DroneApi.UnexpectedErrorScenario | src/test/java/com/example/data_collector/DroneControllerTest.java:229-242 | send throwing RuntimeException("Error") is answered 500 with the generic text |
| DroneApi.ProcessRequest | src/main/java/com/example/data_collector/controller/DroneController.java:27-31 | the request run through the beans agrees with Serve on what is sent and what is answered; every error answer is a fresh ErrorResponse stamped with the given uuid and time |

## Left out

- `LoggingAspect` and every log call in the handlers are left out, because they only log and do not affect any response.
- The `DroneService` interface is not modelled separately: `DroneServiceImpl` is its only implementation, and the controller holds that bean directly.
- Kafka broker and client:
  - `KafkaTemplate` internals, batching, partitioning and serialization are left out.
  - `send` becomes the `SendCall` parameter, and the future's settling time is an abstract count of milliseconds.
  - Real time and concurrency between the waiting thread and the future are not modelled.
- Jackson JSON reading and writing are left out. A body is given as `Malformed` or `Parsed(report)`, and responses are values, not JSON text.
- Random UUIDs and the clock are left out: `UUID.randomUUID()` and `LocalDateTime.now()` are constructor parameters, so the uniqueness of a uuid is not stated.
- IEEE `Double` semantics are left out: NaN, infinities, rounding and the parsing of `"-90.0"` are not modelled. Numbers are `real`.
- Validate: lists field errors in declaration order (model, speed, latitude, longitude, flightAltitude, detectedBy), because Bean Validation does not fix an order. The handler lemmas (`ValidationMessageEchoes`, `InvalidReportRejected`) hold for any order.
- Spring's exception-handler dispatch by most specific class becomes a closed `Exception` datatype with `HandlerFor`. Subclasses, and an exception that is both a `KafkaException` and something else, are not modelled.
- `SerializationException` keeps the 400 handler the code gives it (GlobalExceptionHandler.java:44-52). A serialization failure reported through the send's future still arrives as an `ExecutionException` and becomes a 503 `KafkaException`.
- Kafka.Get: a cancellation is modelled as a settling of the future (within the bound it throws the CancellationException, whose message is taken as empty). An interrupt is modelled only while the thread is waiting, strictly before the future settles and before the bound. A thread already interrupted when `get` starts is the case `interruptAfter == Some(0)` with a future not settled at 0.
- Kafka.SendDroneData: the cause of a KafkaException is kept as the wait's exception kind (with the execution failure's cause text), not as a Java object chain.
- Getters of `DroneDto` and `ErrorResponse` are functions, so "leaves the state unchanged" holds by construction and has no row of its own.
