/**
 * The built-in constraints of Jakarta Bean Validation 3.0 that the report class
 * declares, with the meaning the reference implementation (Hibernate Validator)
 * gives them, and the engine that turns a property's annotations into the list
 * of violation messages for that property.
 */
module BeanValidation {
  import opened Wrappers

  /** A property value as a validator sees it: a character sequence or a boxed number (None is null). */
  datatype Value = Text(text: Option<string>) | Number(number: Option<real>)

  /** The six built-in constraints in use; DecimalMin/DecimalMax keep their default inclusive = true. */
  datatype Constraint =
    | NotNull
    | NotBlank
    | Positive
    | Max(max: int)
    | DecimalMin(lower: real)
    | DecimalMax(upper: real)

  /** One annotation on a property: the constraint and its `message` attribute. */
  datatype Annotation = Annotation(constraint: Constraint, message: string)

  /** A field error as the binding result reports it: the property name and the default message. */
  datatype Violation = Violation(field: string, message: string)

  predicate IsNull(v: Value)
  {
    match v
    case Text(t) => t.None?
    case Number(n) => n.None?
  }

  /** Whitespace in the sense of String.trim: every code point up to U+0020. */
  predicate IsWhitespace(c: char)
  {
    c <= ' '
  }

  /** A string is blank when trimming it leaves nothing. */
  predicate IsBlank(s: string)
  {
    forall i :: 0 <= i < |s| ==> IsWhitespace(s[i])
  }

  /** The validator has an implementation for this constraint on this kind of value. */
  predicate Supports(c: Constraint, v: Value)
  {
    match c
    case NotNull => true
    case NotBlank => v.Text?
    case _ => v.Number?
  }

  /**
   * The isValid of the built-in validator. Null passes every constraint except
   * NotNull and NotBlank; every bound is inclusive; Positive is strict.
   */
  function IsValid(c: Constraint, v: Value): (valid: bool)
    requires Supports(c, v)
    ensures IsNull(v) ==> (valid <==> !c.NotNull? && !c.NotBlank?)
    ensures c.Max? && v.number == Some(c.max as real) ==> valid
    ensures c.DecimalMin? && v.number == Some(c.lower) ==> valid
    ensures c.DecimalMax? && v.number == Some(c.upper) ==> valid
    ensures c.Positive? && v.number == Some(0.0) ==> !valid
  {
    match c
    case NotNull => !IsNull(v)
    case NotBlank => v.text.Some? && !IsBlank(v.text.value)
    case Positive => v.number.None? || v.number.value > 0.0
    case Max(m) => v.number.None? || v.number.value <= m as real
    case DecimalMin(lo) => v.number.None? || v.number.value >= lo
    case DecimalMax(hi) => v.number.None? || hi >= v.number.value
  }

  /** The message of one annotation when the value violates it, nothing otherwise. */
  function Check(a: Annotation, v: Value): (messages: seq<string>)
    requires Supports(a.constraint, v)
    ensures messages == [] <==> IsValid(a.constraint, v)
  {
    if IsValid(a.constraint, v) then [] else [a.message]
  }

  /**
   * The messages of the annotations whose constraint the value violates,
   * one per violated annotation, in annotation order.
   */
  function Violated(annotations: seq<Annotation>, v: Value): (messages: seq<string>)
    requires forall a <- annotations :: Supports(a.constraint, v)
    ensures |messages| <= |annotations|
  {
    if annotations == [] then [] else Check(annotations[0], v) + Violated(annotations[1..], v)
  }

  /**
   * A message is reported exactly when some annotation carrying it is violated:
   * nothing violated is missed and nothing satisfied is reported.
   */
  lemma {:induction false} ViolatedExactly(annotations: seq<Annotation>, v: Value, m: string)
    requires forall a <- annotations :: Supports(a.constraint, v)
    ensures m in Violated(annotations, v) <==> exists a <- annotations :: a.message == m && !IsValid(a.constraint, v)
  {
    if annotations != [] {
      var rest := annotations[1..];
      ViolatedExactly(rest, v, m);
      assert forall a <- annotations :: a == annotations[0] || a in rest;
    }
  }

  /** With every annotation satisfied, nothing is reported; with one violated, something is. */
  lemma ValidIffNoneViolated(annotations: seq<Annotation>, v: Value)
    requires forall a <- annotations :: Supports(a.constraint, v)
    ensures Violated(annotations, v) == [] <==> forall a <- annotations :: IsValid(a.constraint, v)
  {
    if Violated(annotations, v) != [] {
      var m := Violated(annotations, v)[0];
      ViolatedExactly(annotations, v, m);
    } else {
      forall a <- annotations ensures IsValid(a.constraint, v) {
        ViolatedExactly(annotations, v, a.message);
      }
    }
  }

  /** Bean Validation attaches the property path to every message of that property. */
  function AtField(field: string, messages: seq<string>): (errors: seq<Violation>)
  {
    seq(|messages|, i requires 0 <= i < |messages| => Violation(field, messages[i]))
  }
}
