/**
 * The global exception handler: which handler an exception reaches, the status,
 * label and message that handler answers with, and the handlers themselves,
 * each building a fresh ErrorResponse through its setters.
 */
module ExceptionHandler {
  import opened Wrappers
  import opened BeanValidation
  import opened Exceptions
  import opened ErrorResponses

  const BadRequest := 400
  const InternalServerError := 500
  const ServiceUnavailable := 503

  const ValidationError := "Ошибка валидации входных данных"
  const ValidationPrefix := "Проверьте корректность передаваемых параметров: "
  const Delimiter := "; "
  const SerializationError := "Ошибка преобразования данных"
  const SerializationMessage := "Не удалось обработать передаваемые данные. Проверьте формат и повторите попытку"
  const KafkaError := "Ошибка обработки сообщения"
  const KafkaMessage := "Временные проблемы с обработкой данных. Пожалуйста, повторите запрос позже"
  const FormatError := "Некорректный формат запроса"
  const FormatMessage := "Запрос содержит синтаксические ошибки или не соответствует ожидаемому формату"
  const InternalError := "Внутренняя ошибка на сервере"
  const InternalMessage := "Произошла непредвиденная ошибка"

  /** The texts that do not depend on the exception. */
  const FixedMessages: set<string> := {SerializationMessage, KafkaMessage, FormatMessage, InternalMessage}

  /** What a client sees of a failed request, apart from uuid and time. */
  datatype ErrorView = ErrorView(status: int, error: string, message: string)

  /** The five handler methods of the advice. */
  datatype Handler = ValidationErrors | SerializationFailure | KafkaErrors | InvalidRequestBody | All

  /** Which handler the framework picks: the one declared for the exception's class, else the catch-all. */
  function HandlerFor(e: Exception): (h: Handler)
    ensures h == ValidationErrors <==> e.MethodArgumentNotValid?
    ensures h == KafkaErrors <==> e.Kafka?
    ensures h == All <==> e.Other?
  {
    match e
    case MethodArgumentNotValid(_) => ValidationErrors
    case Serialization(_) => SerializationFailure
    case Kafka(_, _) => KafkaErrors
    case HttpMessageNotReadable(_) => InvalidRequestBody
    case Other(_) => All
  }

  /** The default message of every field error, in the order the binding result lists them. */
  function DefaultMessages(fieldErrors: seq<Violation>): (messages: seq<string>)
    ensures |messages| == |fieldErrors|
    ensures forall i :: 0 <= i < |messages| ==> messages[i] == fieldErrors[i].message
  {
    if fieldErrors == [] then [] else [fieldErrors[0].message] + DefaultMessages(fieldErrors[1..])
  }

  /** String.join: the elements with the delimiter between each neighbouring pair. */
  function Join(delimiter: string, elements: seq<string>): (joined: string)
    ensures elements == [] ==> joined == ""
    ensures elements != [] ==> elements[0] <= joined
  {
    if elements == [] then ""
    else if |elements| == 1 then elements[0]
    else elements[0] + delimiter + Join(delimiter, elements[1..])
  }

  /** `part` occurs somewhere in `text`. */
  predicate Contains(text: string, part: string)
  {
    exists k :: 0 <= k <= |text| && part <= text[k..]
  }

  /** Every joined element occurs in the joined string. */
  lemma {:induction false} JoinContainsEach(delimiter: string, elements: seq<string>, i: nat)
    requires i < |elements|
    ensures Contains(Join(delimiter, elements), elements[i])
  {
    var joined := Join(delimiter, elements);
    if i == 0 {
      assert elements[0] <= joined[0..];
    } else {
      var rest := elements[1..];
      JoinContainsEach(delimiter, rest, i - 1);
      var k :| 0 <= k <= |Join(delimiter, rest)| && rest[i - 1] <= Join(delimiter, rest)[k..];
      var head := elements[0] + delimiter;
      assert joined == head + Join(delimiter, rest);
      assert joined[|head| + k..] == Join(delimiter, rest)[k..];
    }
  }

  /** Joining two non-empty lists one after the other puts one delimiter between the two joins. */
  lemma {:induction false} JoinAppend(delimiter: string, xs: seq<string>, ys: seq<string>)
    requires xs != [] && ys != []
    ensures Join(delimiter, xs + ys) == Join(delimiter, xs) + delimiter + Join(delimiter, ys)
  {
    var zs := xs + ys;
    assert |zs| >= 2 && zs[0] == xs[0];
    assert Join(delimiter, zs) == xs[0] + delimiter + Join(delimiter, zs[1..]);
    if |xs| == 1 {
      assert zs[1..] == ys;
    } else {
      assert zs[1..] == xs[1..] + ys;
      JoinAppend(delimiter, xs[1..], ys);
      var rest := Join(delimiter, xs[1..]);
      assert Join(delimiter, xs) == xs[0] + delimiter + rest;
      assert (xs[0] + delimiter) + (rest + delimiter + Join(delimiter, ys))
          == (xs[0] + delimiter + rest) + delimiter + Join(delimiter, ys);
    }
  }

  /** A single element is joined to itself, with no delimiter. */
  lemma JoinSingle(delimiter: string, element: string)
    ensures Join(delimiter, [element]) == element
  {
  }

  /**
   * The message of the validation handler: the fixed prefix, then the field
   * messages; with no field error the prefix alone, with one exactly prefix and message.
   */
  function ValidationMessage(fieldErrors: seq<Violation>): (message: string)
    ensures ValidationPrefix <= message
    ensures fieldErrors == [] ==> message == ValidationPrefix
    ensures |fieldErrors| == 1 ==> message == ValidationPrefix + fieldErrors[0].message
  {
    ValidationPrefix + Join(Delimiter, DefaultMessages(fieldErrors))
  }

  /**
   * One more field error appends "; " and its message: the field messages
   * appear in list order, separated by the delimiter.
   */
  lemma ValidationMessageAppend(fieldErrors: seq<Violation>, e: Violation)
    requires fieldErrors != []
    ensures ValidationMessage(fieldErrors + [e]) == ValidationMessage(fieldErrors) + Delimiter + e.message
  {
    assert DefaultMessages(fieldErrors + [e]) == DefaultMessages(fieldErrors) + [e.message];
    JoinAppend(Delimiter, DefaultMessages(fieldErrors), [e.message]);
  }

  /** The response each handler produces. */
  function Mapping(e: Exception): (v: ErrorView)
    ensures v.status in {BadRequest, ServiceUnavailable, InternalServerError}
    ensures v.status == ServiceUnavailable <==> e.Kafka?
    ensures v.status == InternalServerError <==> e.Other?
    ensures e.MethodArgumentNotValid? ==> ValidationPrefix <= v.message
    ensures !e.MethodArgumentNotValid? ==> v.message in FixedMessages
  {
    match HandlerFor(e)
    case ValidationErrors => ErrorView(BadRequest, ValidationError, ValidationMessage(e.fieldErrors))
    case SerializationFailure => ErrorView(BadRequest, SerializationError, SerializationMessage)
    case KafkaErrors => ErrorView(ServiceUnavailable, KafkaError, KafkaMessage)
    case InvalidRequestBody => ErrorView(BadRequest, FormatError, FormatMessage)
    case All => ErrorView(InternalServerError, InternalError, InternalMessage)
  }

  /** The label names the handler: two exceptions get the same label exactly when they reach the same handler. */
  lemma LabelIdentifiesHandler(e1: Exception, e2: Exception)
    ensures Mapping(e1).error == Mapping(e2).error <==> HandlerFor(e1) == HandlerFor(e2)
  {
  }

  /** Apart from validation, the answer depends on the handler alone, never on the exception's own text. */
  lemma NoExceptionTextLeaks(e1: Exception, e2: Exception)
    requires HandlerFor(e1) == HandlerFor(e2) != ValidationErrors
    ensures Mapping(e1) == Mapping(e2)
  {
  }

  /**
   * The validation message is the fixed prefix followed by every field message;
   * with a single field error it is exactly prefix and message.
   */
  lemma ValidationMessageEchoes(fieldErrors: seq<Violation>, i: nat)
    requires i < |fieldErrors|
    ensures Contains(Mapping(MethodArgumentNotValid(fieldErrors)).message, fieldErrors[i].message)
    ensures |fieldErrors| == 1 ==> Mapping(MethodArgumentNotValid(fieldErrors)).message == ValidationPrefix + fieldErrors[0].message
  {
    var messages := DefaultMessages(fieldErrors);
    var joined := Join(Delimiter, messages);
    JoinContainsEach(Delimiter, messages, i);
    var k :| 0 <= k <= |joined| && messages[i] <= joined[k..];
    var full := ValidationPrefix + joined;
    assert full[|ValidationPrefix| + k..] == joined[k..];
    if |fieldErrors| == 1 {
      assert messages == [fieldErrors[0].message];
    }
  }

  /** A response entity carrying an ErrorResponse body. */
  datatype ErrorEntity = ErrorEntity(status: int, body: ErrorResponse)

  /** The entity shows the client this view. */
  predicate Renders(entity: ErrorEntity, view: ErrorView)
    reads entity.body
  {
    && entity.status == view.status
    && entity.body.GetError() == Some(view.error)
    && entity.body.GetMessage() == Some(view.message)
  }

  /** A fresh body stamped with the given identifier and time. */
  predicate Stamped(entity: ErrorEntity, uuid: Uuid, time: LocalDateTime)
  {
    entity.body.GetUuid() == uuid && entity.body.GetTime() == time
  }

  method HandleValidationErrors(ex: Exception, uuid: Uuid, time: LocalDateTime) returns (entity: ErrorEntity)
    requires ex.MethodArgumentNotValid?
    ensures fresh(entity.body) && Stamped(entity, uuid, time)
    ensures Renders(entity, Mapping(ex))
  {
    var errors := DefaultMessages(ex.fieldErrors);
    var errorResponse := new ErrorResponse(uuid, time);
    errorResponse.SetError(Some(ValidationError));
    var errorString := Join(Delimiter, errors);
    errorResponse.SetMessage(Some(ValidationPrefix + errorString));
    entity := ErrorEntity(BadRequest, errorResponse);
  }

  method HandleSerializationException(ex: Exception, uuid: Uuid, time: LocalDateTime) returns (entity: ErrorEntity)
    requires ex.Serialization?
    ensures fresh(entity.body) && Stamped(entity, uuid, time)
    ensures Renders(entity, Mapping(ex))
  {
    var errorResponse := new ErrorResponse(uuid, time);
    errorResponse.SetError(Some(SerializationError));
    errorResponse.SetMessage(Some(SerializationMessage));
    entity := ErrorEntity(BadRequest, errorResponse);
  }

  method HandleKafkaErrors(ex: Exception, uuid: Uuid, time: LocalDateTime) returns (entity: ErrorEntity)
    requires ex.Kafka?
    ensures fresh(entity.body) && Stamped(entity, uuid, time)
    ensures Renders(entity, Mapping(ex))
  {
    var errorResponse := new ErrorResponse(uuid, time);
    errorResponse.SetError(Some(KafkaError));
    errorResponse.SetMessage(Some(KafkaMessage));
    entity := ErrorEntity(ServiceUnavailable, errorResponse);
  }

  method HandleInvalidRequestBody(ex: Exception, uuid: Uuid, time: LocalDateTime) returns (entity: ErrorEntity)
    requires ex.HttpMessageNotReadable?
    ensures fresh(entity.body) && Stamped(entity, uuid, time)
    ensures Renders(entity, Mapping(ex))
  {
    var errorResponse := new ErrorResponse(uuid, time);
    errorResponse.SetError(Some(FormatError));
    errorResponse.SetMessage(Some(FormatMessage));
    entity := ErrorEntity(BadRequest, errorResponse);
  }

  /** The catch-all answers the same for whatever exception it is given. */
  method HandleAll(ex: Exception, uuid: Uuid, time: LocalDateTime) returns (entity: ErrorEntity)
    ensures fresh(entity.body) && Stamped(entity, uuid, time)
    ensures Renders(entity, Mapping(Other("")))
  {
    var errorResponse := new ErrorResponse(uuid, time);
    errorResponse.SetError(Some(InternalError));
    errorResponse.SetMessage(Some(InternalMessage));
    entity := ErrorEntity(InternalServerError, errorResponse);
  }

  /** The framework's dispatch: every exception reaches exactly one handler, which renders Mapping. */
  method Handle(ex: Exception, uuid: Uuid, time: LocalDateTime) returns (entity: ErrorEntity)
    ensures fresh(entity.body) && Stamped(entity, uuid, time)
    ensures Renders(entity, Mapping(ex))
  {
    match HandlerFor(ex)
    case ValidationErrors => entity := HandleValidationErrors(ex, uuid, time);
    case SerializationFailure => entity := HandleSerializationException(ex, uuid, time);
    case KafkaErrors => entity := HandleKafkaErrors(ex, uuid, time);
    case InvalidRequestBody => entity := HandleInvalidRequestBody(ex, uuid, time);
    case All => entity := HandleAll(ex, uuid, time);
  }
}
