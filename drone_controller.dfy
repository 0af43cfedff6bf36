/**
 * The POST /api/drones endpoint: the controller method, and the request as the
 * framework runs it around that method (read the body, validate, call the
 * controller, hand any exception to the advice).
 */
module DroneApi {
  import opened Wrappers
  import opened BeanValidation
  import opened Exceptions
  import opened ErrorResponses
  import opened DroneData
  import opened ExceptionHandler
  import opened Kafka
  import opened DroneService

  const Ok := 200

  /** ResponseEntity.ok(map): status and JSON object. */
  datatype ResponseEntity = ResponseEntity(status: int, body: map<string, string>)

  /** The controller bean, holding its service. */
  datatype DroneController = DroneController(droneService: DroneServiceImpl) {

    /** The configured topic the producer sends to. */
    function Topic(): (topic: string)
    {
      droneService.kafkaProducer.topic
    }

    /**
     * receiveDroneData: entered only with a report that passed validation; the
     * service's map is answered with 200 as it is, its exception is not caught.
     */
    function ReceiveDroneData(droneDto: Report, send: SendCall, interruptAfter: Option<nat>): (inv: Invocation<ResponseEntity>)
      requires IsValidReport(droneDto)
      ensures inv.sent == [ProducerRecord(Topic(), droneDto.detectedBy, droneDto)]
      ensures inv.result.Returns? <==> Publish(send, interruptAfter) == Ack
      ensures inv.result.Returns? ==> inv.result.value == ResponseEntity(Ok, map[MessageKey := Accepted])
      ensures inv.result.Throws? ==> inv.result.exception == Translate(Publish(send, interruptAfter)).exception
    {
      var response := droneService.SendToKafka(droneDto, send, interruptAfter);
      match response.result
      case Returns(m) => Invocation(response.sent, Returns(ResponseEntity(Ok, m)))
      case Throws(e) => Invocation(response.sent, Throws(e))
    }
  }

  /** What JSON reading made of the body: nothing usable, or a report. */
  datatype RequestBody = Malformed(reason: string) | Parsed(report: Report)

  /** Where a request stands once its body has been read and validated. */
  datatype RequestState = Unreadable(reason: string) | Invalid(errors: seq<Violation>) | Valid(report: Report)

  function Classify(body: RequestBody): (state: RequestState)
    ensures state.Unreadable? <==> body.Malformed?
    ensures state.Valid? <==> body.Parsed? && IsValidReport(body.report)
    ensures state.Valid? ==> state.report == body.report
    ensures state.Invalid? ==> state.errors != [] && state.errors == Validate(body.report)
  {
    match body
    case Malformed(reason) => Unreadable(reason)
    case Parsed(report) =>
      var errors := Validate(report);
      if errors == [] then Valid(report) else Invalid(errors)
  }

  /** What the client receives: the success map, or an error view. */
  datatype Reply = Success(entity: ResponseEntity) | Failure(view: ErrorView)

  /** A request's reply together with the records handed to the broker while serving it. */
  datatype Exchange = Exchange(reply: Reply, sent: seq<ProducerRecord>)

  /** Serving one request. */
  function Serve(controller: DroneController, body: RequestBody, send: SendCall, interruptAfter: Option<nat>): (x: Exchange)
    ensures |x.sent| <= 1
    ensures x.sent != [] ==> body.Parsed? && IsValidReport(body.report)
    ensures x.reply.Success? ==> x.reply.entity == ResponseEntity(Ok, map[MessageKey := Accepted])
    ensures x.reply.Failure? ==> x.reply.view.status in {BadRequest, ServiceUnavailable, InternalServerError}
  {
    match Classify(body)
    case Unreadable(reason) => Exchange(Failure(Mapping(HttpMessageNotReadable(reason))), [])
    case Invalid(errors) => Exchange(Failure(Mapping(MethodArgumentNotValid(errors))), [])
    case Valid(report) =>
      var inv := controller.ReceiveDroneData(report, send, interruptAfter);
      match inv.result
      case Returns(entity) => Exchange(Success(entity), inv.sent)
      case Throws(e) => Exchange(Failure(Mapping(e)), inv.sent)
  }

  /** An unreadable body is answered 400 "invalid format" and nothing is published. */
  lemma MalformedBodyNeverPublishes(controller: DroneController, reason: string, send: SendCall, interruptAfter: Option<nat>)
    ensures Serve(controller, Malformed(reason), send, interruptAfter)
         == Exchange(Failure(ErrorView(BadRequest, FormatError, FormatMessage)), [])
  {
  }

  /**
   * A report that fails validation is answered 400 with the validation label,
   * nothing is published, and the message names every violation.
   */
  lemma InvalidReportRejected(controller: DroneController, report: Report, send: SendCall, interruptAfter: Option<nat>)
    requires !IsValidReport(report)
    ensures var x := Serve(controller, Parsed(report), send, interruptAfter);
      && x.sent == []
      && x.reply == Failure(ErrorView(BadRequest, ValidationError, ValidationMessage(Validate(report))))
      && forall e <- Validate(report) :: Contains(x.reply.view.message, e.message)
  {
    var errors := Validate(report);
    forall e <- errors ensures Contains(ValidationMessage(errors), e.message) {
      var i :| 0 <= i < |errors| && errors[i] == e;
      ValidationMessageEchoes(errors, i);
    }
  }

  /** The request succeeds exactly when the report is readable, valid and acknowledged in time. */
  lemma SuccessIffValidAndAcknowledged(controller: DroneController, body: RequestBody, send: SendCall, interruptAfter: Option<nat>)
    ensures Serve(controller, body, send, interruptAfter).reply.Success?
        <==> body.Parsed? && IsValidReport(body.report) && Publish(send, interruptAfter) == Ack
  {
  }

  /**
   * A valid report is sent exactly once, keyed by its detecting device; a
   * timeout, an interrupt or a failed send is answered 503; whatever escapes
   * uncaught (thrown by send itself, or the cancellation of the future) goes to
   * the handler for its class.
   */
  lemma ValidReportPublished(controller: DroneController, report: Report, send: SendCall, interruptAfter: Option<nat>)
    requires IsValidReport(report)
    ensures var x := Serve(controller, Parsed(report), send, interruptAfter);
      var outcome := Publish(send, interruptAfter);
      && x.sent == [ProducerRecord(controller.Topic(), report.detectedBy, report)]
      && (outcome.Timeout? || outcome.Interrupted? || outcome.ExecutionFailed? ==>
            x.reply == Failure(ErrorView(ServiceUnavailable, KafkaError, KafkaMessage)))
      && (outcome.Thrown? ==> x.reply == Failure(Mapping(outcome.exception)))
      && (send.Threw? ==> x.reply == Failure(Mapping(send.exception)))
  {
  }

  /** A future cancelled before the bound is answered 500 with the generic text, not 503. */
  lemma CancelledFutureRejected(controller: DroneController, report: Report, handle: SendHandle, interruptAfter: Option<nat>)
    requires IsValidReport(report)
    requires SettlesInTime(handle) && handle.completion.Cancelled?
    requires !InterruptedWhileWaiting(handle, interruptAfter)
    ensures Serve(controller, Parsed(report), Returned(handle), interruptAfter).reply
         == Failure(ErrorView(InternalServerError, InternalError, InternalMessage))
  {
    ValidReportPublished(controller, report, Returned(handle), interruptAfter);
    assert Mapping(Cancellation) == ErrorView(InternalServerError, InternalError, InternalMessage);
  }

  /**
   * When every property but f is fine and f has one violation, the reply is 400
   * and its message is exactly the prefix and that violation's message.
   */
  lemma SingleViolationMessage(controller: DroneController, report: Report, f: Field, send: SendCall, interruptAfter: Option<nat>)
    requires forall g: Field :: g != f ==> FieldMessages(report, g) == []
    requires |FieldMessages(report, f)| == 1
    ensures Serve(controller, Parsed(report), send, interruptAfter)
         == Exchange(Failure(ErrorView(BadRequest, ValidationError, ValidationPrefix + FieldMessages(report, f)[0])), [])
  {
    OnlyFaultyFieldReported(report, f);
    var errors := Validate(report);
    assert errors == [Violation(PropertyName(f), FieldMessages(report, f)[0])];
    ValidationMessageEchoes(errors, 0);
  }

  /** The bodies exercised by the endpoint's tests. */
  const SampleReport := Report(Some("Model"), Some(50.0), Some(70.0), Some(90.0), Some(120.0), Some("DetectedBy"))
  const BoundaryReport := SampleReport.(speed := Some(600.0), latitude := Some(90.0), longitude := Some(180.0), flightAltitude := Some(10_000.0))
  const LowerBoundaryReport := SampleReport.(latitude := Some(-90.0), longitude := Some(-180.0))
  const AckedAtOnce := Returned(SendHandle(Some(0), Acknowledged))
  const NeverSettles := Returned(SendHandle(None, Acknowledged))
  const AcceptedReply := Success(ResponseEntity(Ok, map[MessageKey := Accepted]))

  lemma SampleTextsNotBlank()
    ensures !IsBlank("Model") && !IsBlank("DetectedBy")
  {
    assert !IsWhitespace("Model"[0]);
    assert !IsWhitespace("DetectedBy"[0]);
  }

  lemma SampleReportValid()
    ensures IsValidReport(SampleReport)
  {
    SampleTextsNotBlank();
    ValidIffWithinRanges(SampleReport);
  }

  /** A valid report acknowledged at once gets 200 and the acceptance text. */
  lemma AcceptedScenario(controller: DroneController, r: Report)
    requires WithinDeclaredRanges(r)
    ensures Serve(controller, Parsed(r), AckedAtOnce, None).reply == AcceptedReply
  {
    ValidIffWithinRanges(r);
    SuccessIffValidAndAcknowledged(controller, Parsed(r), AckedAtOnce, None);
  }

  /** The sample report and the ones with every bound at its limit are all accepted. */
  lemma SampleAndBoundaryReportsAccepted(controller: DroneController)
    ensures Serve(controller, Parsed(SampleReport), AckedAtOnce, None).reply == AcceptedReply
    ensures Serve(controller, Parsed(BoundaryReport), AckedAtOnce, None).reply == AcceptedReply
    ensures Serve(controller, Parsed(LowerBoundaryReport), AckedAtOnce, None).reply == AcceptedReply
  {
    SampleTextsNotBlank();
    AcceptedScenario(controller, SampleReport);
    AcceptedScenario(controller, BoundaryReport);
    AcceptedScenario(controller, LowerBoundaryReport);
  }

  /** A report whose only fault is one violation m of property f gets 400 with exactly m. */
  lemma RejectedScenario(controller: DroneController, r: Report, f: Field, m: string)
    requires forall g: Field :: g != f ==> ExpectedMessages(r, g) == []
    requires ExpectedMessages(r, f) == [m]
    ensures Serve(controller, Parsed(r), AckedAtOnce, None).reply
         == Failure(ErrorView(BadRequest, ValidationError, ValidationPrefix + m))
  {
    forall g: Field ensures FieldMessages(r, g) == ExpectedMessages(r, g) {
      FieldRule(r, g);
    }
    SingleViolationMessage(controller, r, f, AckedAtOnce, None);
  }

  lemma EmptyModelScenario(controller: DroneController)
    ensures Serve(controller, Parsed(SampleReport.(model := Some(""))), AckedAtOnce, None).reply
         == Failure(ErrorView(BadRequest, ValidationError, ValidationPrefix + ModelBlank))
  {
    SampleTextsNotBlank();
    RejectedScenario(controller, SampleReport.(model := Some("")), Model, ModelBlank);
  }

  lemma NegativeSpeedScenario(controller: DroneController)
    ensures Serve(controller, Parsed(SampleReport.(speed := Some(-10.0))), AckedAtOnce, None).reply
         == Failure(ErrorView(BadRequest, ValidationError, ValidationPrefix + SpeedNotPositive))
  {
    SampleTextsNotBlank();
    RejectedScenario(controller, SampleReport.(speed := Some(-10.0)), Speed, SpeedNotPositive);
  }

  lemma SpeedOverLimitScenario(controller: DroneController)
    ensures Serve(controller, Parsed(SampleReport.(speed := Some(700.0))), AckedAtOnce, None).reply
         == Failure(ErrorView(BadRequest, ValidationError, ValidationPrefix + SpeedTooHigh))
  {
    SampleTextsNotBlank();
    RejectedScenario(controller, SampleReport.(speed := Some(700.0)), Speed, SpeedTooHigh);
  }

  lemma LatitudeTooLowScenario(controller: DroneController)
    ensures Serve(controller, Parsed(SampleReport.(latitude := Some(-100.0))), AckedAtOnce, None).reply
         == Failure(ErrorView(BadRequest, ValidationError, ValidationPrefix + LatitudeTooLow))
  {
    SampleTextsNotBlank();
    RejectedScenario(controller, SampleReport.(latitude := Some(-100.0)), Latitude, LatitudeTooLow);
  }

  lemma LongitudeTooHighScenario(controller: DroneController)
    ensures Serve(controller, Parsed(SampleReport.(longitude := Some(200.0))), AckedAtOnce, None).reply
         == Failure(ErrorView(BadRequest, ValidationError, ValidationPrefix + LongitudeTooHigh))
  {
    SampleTextsNotBlank();
    RejectedScenario(controller, SampleReport.(longitude := Some(200.0)), Longitude, LongitudeTooHigh);
  }

  lemma AltitudeOverLimitScenario(controller: DroneController)
    ensures Serve(controller, Parsed(SampleReport.(flightAltitude := Some(15_000.0))), AckedAtOnce, None).reply
         == Failure(ErrorView(BadRequest, ValidationError, ValidationPrefix + AltitudeTooHigh))
  {
    SampleTextsNotBlank();
    RejectedScenario(controller, SampleReport.(flightAltitude := Some(15_000.0)), FlightAltitude, AltitudeTooHigh);
  }

  lemma EmptyDetectedByScenario(controller: DroneController)
    ensures Serve(controller, Parsed(SampleReport.(detectedBy := Some(""))), AckedAtOnce, None).reply
         == Failure(ErrorView(BadRequest, ValidationError, ValidationPrefix + DetectedByBlank))
  {
    SampleTextsNotBlank();
    RejectedScenario(controller, SampleReport.(detectedBy := Some("")), DetectedBy, DetectedByBlank);
  }

  /** A future that never settles gets 503 with the retry-later text. */
  lemma KafkaTimeoutScenario(controller: DroneController)
    ensures Serve(controller, Parsed(SampleReport), NeverSettles, None).reply
         == Failure(ErrorView(ServiceUnavailable, KafkaError, KafkaMessage))
  {
    SampleReportValid();
    ValidReportPublished(controller, SampleReport, NeverSettles, None);
  }

  /** Whatever unexpected exception send throws, the client gets 500 with the generic text. */
  lemma UnexpectedErrorRejected(controller: DroneController, report: Report, text: string, interruptAfter: Option<nat>)
    requires IsValidReport(report)
    ensures Serve(controller, Parsed(report), Threw(Other(text)), interruptAfter).reply
         == Failure(ErrorView(InternalServerError, InternalError, InternalMessage))
  {
    var e: RuntimeFault := Other(text);
    ValidReportPublished(controller, report, Threw(e), interruptAfter);
    assert Serve(controller, Parsed(report), Threw(e), interruptAfter).reply == Failure(Mapping(e));
    assert Mapping(e) == ErrorView(InternalServerError, InternalError, InternalMessage);
  }

  lemma UnexpectedErrorScenario(controller: DroneController)
    ensures Serve(controller, Parsed(SampleReport), Threw(Other("Error")), None).reply
         == Failure(ErrorView(InternalServerError, InternalError, InternalMessage))
  {
    SampleReportValid();
    UnexpectedErrorRejected(controller, SampleReport, "Error", None);
  }

  /** The HTTP response: the controller's entity, or the advice's. */
  datatype HttpResponse = Answered(ok: ResponseEntity) | Rejected(error: ErrorEntity)

  /**
   * One request end to end: the body is bound into a fresh bean through its
   * setters, validated, passed to the controller, and any exception on the way
   * handed to the advice, which stamps a fresh ErrorResponse.
   */
  method ProcessRequest(controller: DroneController, body: RequestBody, send: SendCall, interruptAfter: Option<nat>,
                        uuid: Uuid, time: LocalDateTime)
    returns (response: HttpResponse, sent: seq<ProducerRecord>)
    ensures sent == Serve(controller, body, send, interruptAfter).sent
    ensures response.Answered? <==> Serve(controller, body, send, interruptAfter).reply.Success?
    ensures response.Answered? ==> response.ok == Serve(controller, body, send, interruptAfter).reply.entity
    ensures response.Rejected? ==>
      && fresh(response.error.body) && Stamped(response.error, uuid, time)
      && Renders(response.error, Serve(controller, body, send, interruptAfter).reply.view)
  {
    match body
    case Malformed(reason) =>
      var entity := Handle(HttpMessageNotReadable(reason), uuid, time);
      response, sent := Rejected(entity), [];
    case Parsed(report) =>
      var droneDto := Bind(report);
      var errors := Validate(droneDto.Value());
      if errors != [] {
        var entity := Handle(MethodArgumentNotValid(errors), uuid, time);
        response, sent := Rejected(entity), [];
      } else {
        var inv := controller.ReceiveDroneData(droneDto.Value(), send, interruptAfter);
        sent := inv.sent;
        match inv.result
        case Returns(entity) =>
          response := Answered(entity);
        case Throws(e) =>
          var entity := Handle(e, uuid, time);
          response := Rejected(entity);
      }
  }
}
