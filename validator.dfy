/** `validateItemInput`: the middleware that checks the three fields of a
    POST /add-item body, in a fixed order, before the request reaches
    `addItem`. It has no state and touches nothing. */
module Validator {
  import opened JsonValue
  import opened ItemSchema

  /** `next()` was called, or the request was answered 400 because of `field`. */
  datatype Verdict = Pass | Reject(field: Field)

  /** The order in which the middleware checks the fields. */
  function Rank(f: Field): nat
  {
    match f
    case Altitude => 0
    case HIS => 1
    case ADI => 2
  }

  /** The lower bound in the middleware's `v < lo` comparison. */
  function LowerBound(f: Field): real
  {
    match f
    case Altitude => 0.0
    case HIS => 0.0
    case ADI => -100.0
  }

  /** The upper bound in the middleware's `v > hi` comparison. */
  function UpperBound(f: Field): real
  {
    match f
    case Altitude => 3000.0
    case HIS => 360.0
    case ADI => 100.0
  }

  /** The negation of `typeof v !== 'number' || v < lo || v > hi`. */
  predicate Acceptable(f: Field, v: Value)
  {
    v.Num? && !(v.r < LowerBound(f)) && !(v.r > UpperBound(f))
  }

  /** The field of `body` that path `f` reads passes its check. */
  predicate FieldOk(body: Body, f: Field)
  {
    Acceptable(f, Get(body, Key(f)))
  }

  /** The decision the middleware takes: the first field, in check order,
      that fails its check is the one reported; with none failing the
      request goes on. */
  function Validate(body: Body): (r: Verdict)
    ensures r == Pass <==> forall f: Field :: FieldOk(body, f)
    ensures r.Reject? ==> !FieldOk(body, r.field)
    ensures r.Reject? ==> forall g: Field :: Rank(g) < Rank(r.field) ==> FieldOk(body, g)
  {
    if !FieldOk(body, Altitude) then Reject(Altitude)
    else if !FieldOk(body, HIS) then Reject(HIS)
    else if !FieldOk(body, ADI) then Reject(ADI)
    else Pass
  }

  /** The `message` of the 400 answer for a rejected field. */
  function Message(f: Field): (m: string)
    ensures m == "Invalid " + Key(f) + " value"
  {
    match f
    case Altitude => "Invalid altitude value"
    case HIS => "Invalid HIS value"
    case ADI => "Invalid ADI value"
  }

  /** Different fields give different messages, so the answer names exactly
      the field that failed. */
  lemma MessageNamesField(f: Field, g: Field)
    ensures Message(f) == Message(g) <==> f == g
  {
  }

  /** Every body whose three fields are numbers within the bounds passes. */
  lemma InBoundsPasses(body: Body)
    requires forall f: Field :: Get(body, Key(f)).Num?
    requires forall f: Field :: LowerBound(f) <= Get(body, Key(f)).r <= UpperBound(f)
    ensures Validate(body) == Pass
  {
  }

  /** Both ends of every range are accepted: the comparisons are strict. */
  lemma BoundsInclusive(f: Field)
    ensures Acceptable(f, Num(LowerBound(f)))
    ensures Acceptable(f, Num(UpperBound(f)))
    ensures forall x: real :: Acceptable(f, Num(x)) <==> LowerBound(f) <= x <= UpperBound(f)
  {
  }

  /** The smallest and largest admissible readings together pass. */
  lemma ExtremesPass()
    ensures Validate(map["altitude" := Num(0.0), "HIS" := Num(0.0), "ADI" := Num(-100.0)]) == Pass
    ensures Validate(map["altitude" := Num(3000.0), "HIS" := Num(360.0), "ADI" := Num(100.0)]) == Pass
  {
  }

  /** A value that is not a number is rejected, whatever it holds: no
      string, boolean, null or absent field is coerced to a number. */
  lemma NonNumberRejected(body: Body, f: Field)
    requires !Get(body, Key(f)).Num?
    ensures Validate(body).Reject?
    ensures Rank(Validate(body).field) <= Rank(f)
  {
  }

  /** A missing altitude is reported as the altitude, whatever else the body
      holds; so is an altitude given as a numeric string. */
  lemma NonNumberAltitudeReported(body: Body)
    requires Get(body, "altitude") == Missing || Get(body, "altitude") == Null
          || Get(body, "altitude").Str?
    ensures Validate(body) == Reject(Altitude)
  {
  }

  /** The verdict is fixed by the set of failing fields: the failing field
      with the smallest rank is reported. */
  lemma VerdictIsEarliestFailure(body: Body, f: Field)
    requires !FieldOk(body, f)
    requires forall g: Field :: Rank(g) < Rank(f) ==> FieldOk(body, g)
    ensures Validate(body) == Reject(f)
  {
  }

  /** The middleware's bounds are the schema's `min` and `max`. */
  lemma BoundsMatchSchema(f: Field)
    ensures LowerBound(f) == Min(f) && UpperBound(f) == Max(f)
  {
  }

  /** The middleware accepts exactly the bodies the schema accepts, and the
      field it reports is the first path the schema would report. So every
      document that reaches `save()` through the route conforms. */
  lemma ValidatorAgreesWithSchema(body: Body)
    ensures Validate(body) == Pass <==> Violations(body) == []
    ensures Validate(body).Reject? ==> Violations(body) != [] && Violations(body)[0] == Validate(body).field
  {
  }
}
