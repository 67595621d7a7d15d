/**
 * Decoding of an experiment variant from its remote-config representation:
 * the `variantType` tag selects the case, and an unrecognised tag falls back
 * to a holdout.
 */
module Variants {
  import opened Wrappers

  /** A decoded JSON value, as far as the tag dispatch looks at it. */
  datatype Json = JString(s: string) | JNull | JOther

  /** A keyed decoding container: the object's keys and their values. */
  type Container = map<string, Json>

  datatype DecodingError =
    | KeyNotFound(key: string)
    | ValueNotFound(key: string)
    | TypeMismatch(key: string)
    | PayloadError(reason: string)

  /** The payload of a holdout arm. */
  datatype VariantHoldout = VariantHoldout(variantId: string)

  /** The payload of a treatment arm: the arm and the paywall it shows. */
  datatype VariantTreatment = VariantTreatment(variantId: string, paywallIdentifier: string)

  datatype Variant = Treatment(treatment: VariantTreatment) | Holdout(holdout: VariantHoldout)

  const VariantTypeKey := "variantType"
  const HoldoutTag := "HOLDOUT"
  const TreatmentTag := "TREATMENT"

  /**
   * `Variant.init(from:)`. Decoding the payload of either arm is done by
   * `VariantHoldout(from:)` / `VariantTreatment(from:)`, which read the same
   * decoder; their outcomes are given as `asHoldout` and `asTreatment`.
   */
  function Decode(
    c: Container,
    asHoldout: Result<VariantHoldout, DecodingError>,
    asTreatment: Result<VariantTreatment, DecodingError>
  ): (r: Result<Variant, DecodingError>)
    // a missing, null or non-string tag is a decoding error, whatever the payload
    ensures VariantTypeKey !in c ==> r == Failure(KeyNotFound(VariantTypeKey))
    ensures VariantTypeKey in c && c[VariantTypeKey].JNull? ==> r == Failure(ValueNotFound(VariantTypeKey))
    ensures VariantTypeKey in c && c[VariantTypeKey].JOther? ==> r == Failure(TypeMismatch(VariantTypeKey))
    // a string tag is never rejected: "TREATMENT" takes the treatment payload, any other the holdout payload
    ensures VariantTypeKey in c && c[VariantTypeKey].JString? ==>
              if c[VariantTypeKey].s == TreatmentTag
              then (r.Success? <==> asTreatment.Success?) && (r.Success? ==> r.value == Treatment(asTreatment.value))
                   && (r.Failure? ==> r.error == asTreatment.error)
              else (r.Success? <==> asHoldout.Success?) && (r.Success? ==> r.value == Holdout(asHoldout.value))
                   && (r.Failure? ==> r.error == asHoldout.error)
    // only the exact tag "TREATMENT" produces a treatment
    ensures r.Success? && r.value.Treatment? ==> c[VariantTypeKey] == JString(TreatmentTag)
  {
    if VariantTypeKey !in c then Failure(KeyNotFound(VariantTypeKey))
    else match c[VariantTypeKey]
      case JNull => Failure(ValueNotFound(VariantTypeKey))
      case JOther => Failure(TypeMismatch(VariantTypeKey))
      case JString(tag) =>
        if tag == HoldoutTag then
          (match asHoldout
           case Success(h) => Success(Holdout(h))
           case Failure(e) => Failure(e))
        else if tag == TreatmentTag then
          (match asTreatment
           case Success(t) => Success(Treatment(t))
           case Failure(e) => Failure(e))
        else
          // unknown tags are not rejected: they decode as a holdout
          (match asHoldout
           case Success(h) => Success(Holdout(h))
           case Failure(e) => Failure(e))
  }

  /** The tag a variant is written with on the wire. */
  function Tag(v: Variant): string {
    match v
    case Treatment(_) => TreatmentTag
    case Holdout(_) => HoldoutTag
  }

  /**
   * Round trip: a container tagged with a variant's own tag, whose payload
   * decodes to that variant's payload, decodes back to the variant.
   */
  lemma DecodeTagged(v: Variant, c: Container, asHoldout: Result<VariantHoldout, DecodingError>,
                     asTreatment: Result<VariantTreatment, DecodingError>)
    requires VariantTypeKey in c && c[VariantTypeKey] == JString(Tag(v))
    requires v.Holdout? ==> asHoldout == Success(v.holdout)
    requires v.Treatment? ==> asTreatment == Success(v.treatment)
    ensures Decode(c, asHoldout, asTreatment) == Success(v)
  {
  }

  /** Every tag other than "TREATMENT" (including "HOLDOUT") yields a holdout. */
  lemma UnknownTagIsHoldout(c: Container, h: VariantHoldout, asTreatment: Result<VariantTreatment, DecodingError>)
    requires VariantTypeKey in c && c[VariantTypeKey].JString? && c[VariantTypeKey].s != TreatmentTag
    ensures Decode(c, Success(h), asTreatment) == Success(Holdout(h))
  {
  }

  /** `Variant.stub()`: the fixture variant used by the SDK's tests. */
  function Stub(): (v: Variant)
    ensures v.Holdout? && v.holdout.variantId == "7"
    ensures Tag(v) == HoldoutTag
  {
    Holdout(VariantHoldout("7"))
  }
}
