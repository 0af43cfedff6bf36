/**
 * The drone report: its six properties, the constraints declared on them, what
 * validating a report yields, and the mutable bean that JSON binding fills in
 * through its setters.
 */
module DroneData {
  import opened Wrappers
  import opened BeanValidation

  /** The value of a report: every property may be null. */
  datatype Report = Report(
    model: Option<string>,
    speed: Option<real>,
    latitude: Option<real>,
    longitude: Option<real>,
    flightAltitude: Option<real>,
    detectedBy: Option<string>)

  /** The constrained properties, in declaration order. */
  datatype Field = Model | Speed | Latitude | Longitude | FlightAltitude | DetectedBy

  // The message attributes of the annotations.
  const ModelBlank := "Модель БПЛА не может быть пустой"
  const SpeedRequired := "Скорость БПЛА обязательна"
  const SpeedNotPositive := "Скорость должна быть положительной"
  const SpeedTooHigh := "Скорость должна быть меньше 600 км/ч"
  const LatitudeRequired := "Широта обязательна"
  const LatitudeTooLow := "Широта не может быть меньше -90"
  const LatitudeTooHigh := "Широта не может быть больше 90"
  const LongitudeRequired := "Долгота обязательна"
  const LongitudeTooLow := "Долгота не может быть меньше -180"
  const LongitudeTooHigh := "Долгота не может быть больше 180"
  const AltitudeRequired := "Высота полёта обязательна"
  const AltitudeNotPositive := "Высота полёта должна быть положительной"
  const AltitudeTooHigh := "Высота полёта не может быть больше 10 000 метров"
  const DetectedByBlank := "Устройство обнаружения не может быть пустым"

  /** The property name a field error carries. */
  function PropertyName(f: Field): (name: string)
  {
    match f
    case Model => "model"
    case Speed => "speed"
    case Latitude => "latitude"
    case Longitude => "longitude"
    case FlightAltitude => "flightAltitude"
    case DetectedBy => "detectedBy"
  }

  /**
   * The annotations declared on each property, in declaration order. Each
   * property has one or three, and the first is its presence check.
   */
  function Annotations(f: Field): (table: seq<Annotation>)
    ensures |table| == 1 || |table| == 3
    ensures table[0].constraint == NotNull || table[0].constraint == NotBlank
  {
    match f
    case Model => [Annotation(NotBlank, ModelBlank)]
    case Speed =>
      [Annotation(NotNull, SpeedRequired), Annotation(Positive, SpeedNotPositive), Annotation(Max(600), SpeedTooHigh)]
    case Latitude =>
      [Annotation(NotNull, LatitudeRequired), Annotation(DecimalMin(-90.0), LatitudeTooLow), Annotation(DecimalMax(90.0), LatitudeTooHigh)]
    case Longitude =>
      [Annotation(NotNull, LongitudeRequired), Annotation(DecimalMin(-180.0), LongitudeTooLow), Annotation(DecimalMax(180.0), LongitudeTooHigh)]
    case FlightAltitude =>
      [Annotation(NotNull, AltitudeRequired), Annotation(Positive, AltitudeNotPositive), Annotation(Max(10_000), AltitudeTooHigh)]
    case DetectedBy => [Annotation(NotBlank, DetectedByBlank)]
  }

  /** The value the validator reads from a property. */
  function ValueOf(r: Report, f: Field): (v: Value)
  {
    match f
    case Model => Text(r.model)
    case Speed => Number(r.speed)
    case Latitude => Number(r.latitude)
    case Longitude => Number(r.longitude)
    case FlightAltitude => Number(r.flightAltitude)
    case DetectedBy => Text(r.detectedBy)
  }

  /** Every declared constraint has a validator for the type of its property. */
  lemma AnnotationsSupported(r: Report, f: Field)
    ensures forall a <- Annotations(f) :: Supports(a.constraint, ValueOf(r, f))
  {
  }

  /** The messages of the constraints that property f of r violates. */
  function FieldMessages(r: Report, f: Field): (messages: seq<string>)
    ensures |messages| <= |Annotations(f)|
  {
    AnnotationsSupported(r, f);
    Violated(Annotations(f), ValueOf(r, f))
  }

  /** The field errors of property f. */
  function FieldErrors(r: Report, f: Field): (errors: seq<Violation>)
  {
    AtField(PropertyName(f), FieldMessages(r, f))
  }

  /** The properties in declaration order, the order the binding result lists their errors in. */
  const DeclaredOrder: seq<Field> := [Model, Speed, Latitude, Longitude, FlightAltitude, DetectedBy]

  /**
   * The field errors of the given properties, one property after the other;
   * each property contributes at most one.
   */
  function ErrorsOf(r: Report, fields: seq<Field>): (errors: seq<Violation>)
    ensures |errors| <= |fields|
  {
    if fields == [] then []
    else
      AtMostOnePerField(r, fields[0]);
      FieldErrors(r, fields[0]) + ErrorsOf(r, fields[1..])
  }

  /** All field errors of a report: at most one per declared property. */
  function Validate(r: Report): (errors: seq<Violation>)
    ensures |errors| <= |DeclaredOrder|
  {
    ErrorsOf(r, DeclaredOrder)
  }

  /** A report the validator accepts. */
  predicate IsValidReport(r: Report)
  {
    Validate(r) == []
  }

  /**
   * The accepted shape stated directly: both texts present and not blank, every
   * number present, speed in (0, 600], latitude in [-90, 90], longitude in
   * [-180, 180], altitude in (0, 10000].
   */
  predicate WithinDeclaredRanges(r: Report)
  {
    && r.model.Some? && !IsBlank(r.model.value)
    && r.speed.Some? && 0.0 < r.speed.value <= 600.0
    && r.latitude.Some? && -90.0 <= r.latitude.value <= 90.0
    && r.longitude.Some? && -180.0 <= r.longitude.value <= 180.0
    && r.flightAltitude.Some? && 0.0 < r.flightAltitude.value <= 10_000.0
    && r.detectedBy.Some? && !IsBlank(r.detectedBy.value)
  }

  /** What a required number with a positive, at-most-`max` rule reports. */
  function PositiveAtMost(x: Option<real>, max: real, required: string, notPositive: string, tooHigh: string): (messages: seq<string>)
  {
    if x.None? then [required]
    else if x.value <= 0.0 then [notPositive]
    else if x.value > max then [tooHigh]
    else []
  }

  /** What a required number with an inclusive [lo, hi] rule reports. */
  function Between(x: Option<real>, lo: real, hi: real, required: string, tooLow: string, tooHigh: string): (messages: seq<string>)
  {
    if x.None? then [required]
    else if x.value < lo then [tooLow]
    else if x.value > hi then [tooHigh]
    else []
  }

  /** What a not-blank text rule reports. */
  function NonBlank(s: Option<string>, blank: string): (messages: seq<string>)
  {
    if s.None? || IsBlank(s.value) then [blank] else []
  }

  /** The expected outcome per property, written out case by case. */
  function ExpectedMessages(r: Report, f: Field): (messages: seq<string>)
  {
    match f
    case Model => NonBlank(r.model, ModelBlank)
    case Speed => PositiveAtMost(r.speed, 600.0, SpeedRequired, SpeedNotPositive, SpeedTooHigh)
    case Latitude => Between(r.latitude, -90.0, 90.0, LatitudeRequired, LatitudeTooLow, LatitudeTooHigh)
    case Longitude => Between(r.longitude, -180.0, 180.0, LongitudeRequired, LongitudeTooLow, LongitudeTooHigh)
    case FlightAltitude => PositiveAtMost(r.flightAltitude, 10_000.0, AltitudeRequired, AltitudeNotPositive, AltitudeTooHigh)
    case DetectedBy => NonBlank(r.detectedBy, DetectedByBlank)
  }

  /**
   * The declared annotations report exactly the expected message: a null number
   * only its "required" message, never a range message, and each out-of-range
   * side its own bound message.
   */
  lemma FieldRule(r: Report, f: Field)
    ensures FieldMessages(r, f) == ExpectedMessages(r, f)
  {
    match f
    case Model => NotBlankRule(r.model, ModelBlank);
    case Speed => PositiveAtMostRule(r.speed, 600, SpeedRequired, SpeedNotPositive, SpeedTooHigh);
    case Latitude => BetweenRule(r.latitude, -90.0, 90.0, LatitudeRequired, LatitudeTooLow, LatitudeTooHigh);
    case Longitude => BetweenRule(r.longitude, -180.0, 180.0, LongitudeRequired, LongitudeTooLow, LongitudeTooHigh);
    case FlightAltitude => PositiveAtMostRule(r.flightAltitude, 10_000, AltitudeRequired, AltitudeNotPositive, AltitudeTooHigh);
    case DetectedBy => NotBlankRule(r.detectedBy, DetectedByBlank);
  }

  /** A lone @NotBlank reports its message for null and for blank text, and nothing otherwise. */
  lemma NotBlankRule(s: Option<string>, blank: string)
    ensures Violated([Annotation(NotBlank, blank)], Text(s)) == NonBlank(s, blank)
  {
    ViolatedOne(Annotation(NotBlank, blank), Text(s));
  }

  /**
   * @NotNull, @Positive and @Max(max) together, with max not negative: a null
   * number reports only the "required" message, and at most one bound fails.
   */
  lemma PositiveAtMostRule(x: Option<real>, max: int, required: string, notPositive: string, tooHigh: string)
    requires 0 <= max
    ensures Violated([Annotation(NotNull, required), Annotation(Positive, notPositive), Annotation(Max(max), tooHigh)], Number(x))
         == PositiveAtMost(x, max as real, required, notPositive, tooHigh)
  {
    ViolatedThree(Annotation(NotNull, required), Annotation(Positive, notPositive), Annotation(Max(max), tooHigh), Number(x));
  }

  /**
   * @NotNull, @DecimalMin(lo) and @DecimalMax(hi) together, with lo <= hi: a
   * null number reports only the "required" message, and at most one bound fails.
   */
  lemma BetweenRule(x: Option<real>, lo: real, hi: real, required: string, tooLow: string, tooHigh: string)
    requires lo <= hi
    ensures Violated([Annotation(NotNull, required), Annotation(DecimalMin(lo), tooLow), Annotation(DecimalMax(hi), tooHigh)], Number(x))
         == Between(x, lo, hi, required, tooLow, tooHigh)
  {
    ViolatedThree(Annotation(NotNull, required), Annotation(DecimalMin(lo), tooLow), Annotation(DecimalMax(hi), tooHigh), Number(x));
  }

  lemma ViolatedOne(a: Annotation, v: Value)
    requires Supports(a.constraint, v)
    ensures Violated([a], v) == Check(a, v)
  {
    assert [a][1..] == [];
  }

  lemma ViolatedThree(a: Annotation, b: Annotation, c: Annotation, v: Value)
    requires Supports(a.constraint, v) && Supports(b.constraint, v) && Supports(c.constraint, v)
    ensures Violated([a, b, c], v) == Check(a, v) + Check(b, v) + Check(c, v)
  {
    assert [a, b, c][1..] == [b, c];
    assert [b, c][1..] == [c];
    ViolatedOne(c, v);
  }

  /** Each property contributes at most one violation. */
  lemma AtMostOnePerField(r: Report, f: Field)
    ensures |FieldMessages(r, f)| <= 1
  {
    FieldRule(r, f);
  }

  /**
   * A null property, or a blank text, reports exactly the message of its first
   * annotation (@NotNull or @NotBlank): the range constraints accept null.
   */
  lemma MissingValueReportsOnlyFirst(r: Report, f: Field)
    requires IsNull(ValueOf(r, f)) || (ValueOf(r, f).Text? && IsBlank(ValueOf(r, f).text.value))
    ensures FieldMessages(r, f) == [Annotations(f)[0].message]
  {
    FieldRule(r, f);
  }

  /** The expected outcomes are all empty exactly when the report lies within the declared ranges. */
  lemma NoExpectedIffWithinRanges(r: Report)
    ensures (forall f: Field :: ExpectedMessages(r, f) == []) <==> WithinDeclaredRanges(r)
  {
    assert ExpectedMessages(r, Model) == [] <==> r.model.Some? && !IsBlank(r.model.value);
    assert ExpectedMessages(r, Speed) == [] <==> r.speed.Some? && 0.0 < r.speed.value <= 600.0;
    assert ExpectedMessages(r, Latitude) == [] <==> r.latitude.Some? && -90.0 <= r.latitude.value <= 90.0;
    assert ExpectedMessages(r, Longitude) == [] <==> r.longitude.Some? && -180.0 <= r.longitude.value <= 180.0;
    assert ExpectedMessages(r, FlightAltitude) == [] <==> r.flightAltitude.Some? && 0.0 < r.flightAltitude.value <= 10_000.0;
    assert ExpectedMessages(r, DetectedBy) == [] <==> r.detectedBy.Some? && !IsBlank(r.detectedBy.value);
  }

  /** The validator accepts a report exactly when it lies within the declared ranges. */
  lemma ValidIffWithinRanges(r: Report)
    ensures IsValidReport(r) <==> WithinDeclaredRanges(r)
  {
    NoErrorsIffNoMessages(r);
    forall f: Field ensures FieldMessages(r, f) == ExpectedMessages(r, f) {
      FieldRule(r, f);
    }
    NoExpectedIffWithinRanges(r);
  }

  /** A property has field errors exactly when it has violated messages. */
  lemma ErrorsIffMessages(r: Report, f: Field)
    ensures FieldErrors(r, f) == [] <==> FieldMessages(r, f) == []
  {
    assert |FieldErrors(r, f)| == |FieldMessages(r, f)|;
  }

  /** The properties listed yield no field error exactly when none of them violates a constraint. */
  lemma {:induction false} NoErrorsAmong(r: Report, fields: seq<Field>)
    ensures ErrorsOf(r, fields) == [] <==> forall f <- fields :: FieldMessages(r, f) == []
  {
    if fields != [] {
      NoErrorsAmong(r, fields[1..]);
      ErrorsIffMessages(r, fields[0]);
      assert forall f <- fields :: f == fields[0] || f in fields[1..];
    }
  }

  /** An error is among those of a list of properties exactly when it is an error of one of them. */
  lemma {:induction false} ErrorsOfUnion(r: Report, fields: seq<Field>, e: Violation)
    ensures e in ErrorsOf(r, fields) <==> exists f <- fields :: e in FieldErrors(r, f)
  {
    if fields != [] {
      ErrorsOfUnion(r, fields[1..], e);
      assert forall f <- fields :: f == fields[0] || f in fields[1..];
    }
  }

  /** The report's errors are the union of the per-property errors. */
  lemma ValidateIsUnion(r: Report, e: Violation)
    ensures e in Validate(r) <==> exists f: Field :: e in FieldErrors(r, f)
  {
    ErrorsOfUnion(r, DeclaredOrder, e);
    EveryFieldDeclared();
  }

  /** Every property appears in the declaration order. */
  lemma EveryFieldDeclared()
    ensures forall f: Field :: f in DeclaredOrder
  {
    forall f: Field ensures f in DeclaredOrder {
      var i := match f
        case Model => 0 case Speed => 1 case Latitude => 2
        case Longitude => 3 case FlightAltitude => 4 case DetectedBy => 5;
      assert DeclaredOrder[i] == f;
    }
  }

  /** A report is valid exactly when no property violates a constraint. */
  lemma NoErrorsIffNoMessages(r: Report)
    ensures IsValidReport(r) <==> forall f: Field :: FieldMessages(r, f) == []
  {
    NoErrorsAmong(r, DeclaredOrder);
    EveryFieldDeclared();
  }

  /** Listed once among properties that are otherwise fine, f alone contributes errors. */
  lemma {:induction false} OnlyFaultyAmong(r: Report, fields: seq<Field>, f: Field)
    requires f in fields
    requires forall i, j :: 0 <= i < j < |fields| ==> fields[i] != fields[j]
    requires forall g <- fields :: g != f ==> FieldMessages(r, g) == []
    ensures ErrorsOf(r, fields) == FieldErrors(r, f)
  {
    var rest := fields[1..];
    if fields[0] == f {
      assert f !in rest by {
        forall j | 0 <= j < |rest| ensures rest[j] != f {
          assert rest[j] == fields[j + 1];
        }
      }
      NoErrorsAmong(r, rest);
    } else {
      ErrorsIffMessages(r, fields[0]);
      OnlyFaultyAmong(r, rest, f);
    }
  }

  /** When every other property is fine, the errors are exactly those of f. */
  lemma OnlyFaultyFieldReported(r: Report, f: Field)
    requires forall g: Field :: g != f ==> FieldMessages(r, g) == []
    ensures Validate(r) == FieldErrors(r, f)
  {
    OnlyFaultyAmong(r, DeclaredOrder, f);
  }

  /** The bean that JSON binding instantiates and fills in; every property starts as null. */
  class DroneDto {
    var model: Option<string>
    var speed: Option<real>
    var latitude: Option<real>
    var longitude: Option<real>
    var flightAltitude: Option<real>
    var detectedBy: Option<string>

    /** The report the bean currently holds. */
    function Value(): Report
      reads this
    {
      Report(model, speed, latitude, longitude, flightAltitude, detectedBy)
    }

    constructor ()
      ensures Value() == Report(None, None, None, None, None, None)
    {
      model, speed, latitude, longitude, flightAltitude, detectedBy := None, None, None, None, None, None;
    }

    method SetLatitude(latitude: Option<real>)
      modifies this
      ensures GetLatitude() == latitude
      ensures Value() == old(Value()).(latitude := latitude)
    {
      this.latitude := latitude;
    }

    method SetFlightAltitude(flightAltitude: Option<real>)
      modifies this
      ensures GetFlightAltitude() == flightAltitude
      ensures Value() == old(Value()).(flightAltitude := flightAltitude)
    {
      this.flightAltitude := flightAltitude;
    }

    method SetLongitude(longitude: Option<real>)
      modifies this
      ensures GetLongitude() == longitude
      ensures Value() == old(Value()).(longitude := longitude)
    {
      this.longitude := longitude;
    }

    method SetDetectedBy(detectedBy: Option<string>)
      modifies this
      ensures GetDetectedBy() == detectedBy
      ensures Value() == old(Value()).(detectedBy := detectedBy)
    {
      this.detectedBy := detectedBy;
    }

    method SetModel(model: Option<string>)
      modifies this
      ensures GetModel() == model
      ensures Value() == old(Value()).(model := model)
    {
      this.model := model;
    }

    method SetSpeed(speed: Option<real>)
      modifies this
      ensures GetSpeed() == speed
      ensures Value() == old(Value()).(speed := speed)
    {
      this.speed := speed;
    }

    function GetModel(): Option<string> reads this { model }

    function GetSpeed(): Option<real> reads this { speed }

    function GetFlightAltitude(): Option<real> reads this { flightAltitude }

    function GetDetectedBy(): Option<string> reads this { detectedBy }

    function GetLatitude(): Option<real> reads this { latitude }

    function GetLongitude(): Option<real> reads this { longitude }
  }

  /**
   * Binding a parsed body: a fresh bean, then one setter call per property.
   * The bean then holds exactly the parsed report.
   */
  method Bind(r: Report) returns (dto: DroneDto)
    ensures fresh(dto)
    ensures dto.Value() == r
  {
    dto := new DroneDto();
    dto.SetModel(r.model);
    dto.SetSpeed(r.speed);
    dto.SetLatitude(r.latitude);
    dto.SetLongitude(r.longitude);
    dto.SetFlightAltitude(r.flightAltitude);
    dto.SetDetectedBy(r.detectedBy);
  }
}
