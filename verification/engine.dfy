/** The dose <-> rate conversion engine: from a drug, a dilution, a weight
    text, a direction and an input text to a reading (value, unit, caption)
    or to nothing at all. */
module Engine {
  import opened Wrappers
  import opened Strings
  import opened Types
  import opened Drugs

  /** `dose_to_rate`: a prescribed dose becomes a pump rate or a volume to
      draw; `rate_to_dose`: an observed rate or volume becomes a dose. */
  datatype Mode = DoseToRate | RateToDose
  {
    function Opposite(): Mode
    {
      match this
      case DoseToRate => RateToDose
      case RateToDose => DoseToRate
    }
  }

  /** A JavaScript number as the engine can produce one: a real, or one of
      the non-finite values (NaN, +/-Infinity, not told apart here) that a
      missing weight or a division by zero yields. */
  datatype Num = Finite(x: real) | NonFinite

  function Mul(a: Num, b: Num): Num
  {
    if a.Finite? && b.Finite? then Finite(a.x * b.x) else NonFinite
  }

  function Div(a: Num, b: Num): Num
  {
    if a.Finite? && b.Finite? && b.x != 0.0 then Finite(a.x / b.x) else NonFinite
  }

  /** What `parseFloat` gives: NaN for text that is not a number. */
  function FromParsed(p: Option<real>): Num
  {
    if p.Some? then Finite(p.value) else NonFinite
  }

  datatype Reading = Reading(value: Num, unit: string, caption: string)

  const RATE_UNIT := "mL/h"
  const VOLUME_UNIT := "mL"
  const RATE_LABEL := "Vazão da Bomba"
  const VOLUME_LABEL := "Volume a Aspirar"
  const DOSE_LABEL := "Dose Administrada"

  /** The dose is per minute; the pump runs per hour. */
  predicate PerMinute(u: DoseUnit)
  {
    Includes(u.Tag(), "/min")
  }

  /** The concentration rescaled into the dose's mass unit: a milligram
      dilution read in micrograms is worth 1000 times its figure, a microgram
      dilution read in milligrams a thousandth; every other pairing, and the
      per-kg volume unit, keeps the figure as written. */
  function NormalizedConcentration(u: DoseUnit, dil: Dilution): (c: real)
    ensures c > 0.0 <==> dil.concentration > 0.0
    ensures c == 0.0 <==> dil.concentration == 0.0
  {
    if u == MlKg then dil.concentration
    else
      var doseMass := FirstSegment(u.Tag());
      var concMass := FirstSegment(dil.concentrationUnit);
      if doseMass == "mcg" && concMass == "mg" then dil.concentration * 1000.0
      else if doseMass == "mg" && concMass == "mcg" then dil.concentration / 1000.0
      else dil.concentration
  }

  /** Forward, continuous infusion: the pump rate for a dose, given the
      normalised concentration `conc`. */
  function PumpRate(drug: Drug, perMinute: bool, conc: real, weight: Num, val: real): Num
  {
    var v := Finite(val);
    var dosePerHour := if perMinute then Mul(v, Finite(60.0)) else v;
    var totalPerHour := if drug.isWeightBased then Mul(dosePerHour, weight) else dosePerHour;
    Div(totalPerHour, Finite(conc))
  }

  /** Forward, bolus: the volume to draw for a dose. A per-kg volume dose is
      scaled by the weight alone and never looks at the dilution. */
  function BolusVolume(drug: Drug, conc: real, weight: Num, val: real): Num
  {
    var v := Finite(val);
    if drug.defaultDoseUnit == MlKg then Mul(v, weight)
    else
      var totalMass := if drug.isWeightBased then Mul(v, weight) else v;
      Div(totalMass, Finite(conc))
  }

  /** Reverse: the dose delivered by a rate or a volume. */
  function DeliveredDose(drug: Drug, perMinute: bool, conc: real, weight: Num, val: real): Num
  {
    var v := Finite(val);
    if drug.defaultDoseUnit == MlKg then Div(v, weight)
    else
      var totalMass := Mul(v, Finite(conc));
      var perPatient := if drug.isWeightBased then Div(totalMass, weight) else totalMass;
      if !IsBolus(drug) && perMinute then Div(perPatient, Finite(60.0)) else perPatient
  }

  /** The conversion proper, once both numbers have been read. `weight` is
      the parsed weight, `NonFinite` when it did not parse. */
  function Convert(drug: Drug, dil: Dilution, weight: Num, mode: Mode, val: real): Reading
  {
    var conc := NormalizedConcentration(drug.defaultDoseUnit, dil);
    var perMinute := PerMinute(drug.defaultDoseUnit);
    match mode
    case DoseToRate =>
      if IsBolus(drug) then Reading(BolusVolume(drug, conc, weight, val), VOLUME_UNIT, VOLUME_LABEL)
      else Reading(PumpRate(drug, perMinute, conc, weight, val), RATE_UNIT, RATE_LABEL)
    case RateToDose =>
      Reading(DeliveredDose(drug, perMinute, conc, weight, val), drug.defaultDoseUnit.Tag(), DOSE_LABEL)
  }

  /** The number a text field holds: the first comma becomes a point, then
      `parseFloat`. */
  function ReadNumber(text: string): Option<real>
  {
    ParseFloat(ReplaceFirst(text, ',', '.'))
  }

  /** The calculator's result for its current selection and texts. */
  function Calculate(drug: Option<Drug>, dil: Option<Dilution>, weightText: string, mode: Mode, inputText: string): Option<Reading>
  {
    if drug.None? || dil.None? || inputText == "" then None
    else
      var val := ReadNumber(inputText);
      var ptWeight := ReadNumber(weightText);
      if val.None? then None
      else if drug.value.isWeightBased && (ptWeight.None? || ptWeight.value <= 0.0) then None
      else Some(Convert(drug.value, dil.value, FromParsed(ptWeight), mode, val.value))
  }

  /** The unit shown beside the input field: the dose unit when a dose is
      typed in, otherwise the volume or rate unit. */
  function InputUnitLabel(mode: Mode, drug: Option<Drug>): Option<string>
  {
    match mode
    case DoseToRate => if drug.Some? then Some(drug.value.defaultDoseUnit.Tag()) else None
    case RateToDose => Some(if drug.Some? && IsBolus(drug.value) then VOLUME_UNIT else RATE_UNIT)
  }

  // ---------------------------------------------------------------------
  // Reference quantities

  /** Minutes per hour for a per-minute dose, 1 otherwise. */
  function TimeFactor(perMinute: bool): real
  {
    if perMinute then 60.0 else 1.0
  }

  /** The patient's weight for a weight-based drug, 1 otherwise. */
  function WeightFactor(drug: Drug, w: real): real
  {
    if drug.isWeightBased then w else 1.0
  }

  /** Micrograms in one unit of a mass token (0 for tokens that are not masses). */
  function Micrograms(token: string): real
  {
    if token == "mcg" then 1.0 else if token == "mg" then 1000.0 else 0.0
  }

  // ---------------------------------------------------------------------
  // Normalisation

  /** Between mass units, normalisation is a true unit conversion: the
      normalised figure is the concentration expressed in the dose's unit. */
  lemma NormalizationConvertsMass(u: DoseUnit, dil: Dilution)
    requires u != MlKg
    requires u.Numerator() == "mcg" || u.Numerator() == "mg"
    requires ConcentrationToken(dil) == "mcg" || ConcentrationToken(dil) == "mg"
    ensures NormalizedConcentration(u, dil)
            == dil.concentration * Micrograms(ConcentrationToken(dil)) / Micrograms(u.Numerator())
  {
    LeadingTokenIsNumerator(u);
  }

  /** Every pairing other than micrograms against milligrams (either way),
      and the per-kg volume unit, leaves the concentration as written. */
  lemma NormalizationKeepsOtherPairings(u: DoseUnit, dil: Dilution)
    requires u == MlKg || !(
      (u.Numerator() == "mcg" && ConcentrationToken(dil) == "mg") ||
      (u.Numerator() == "mg" && ConcentrationToken(dil) == "mcg"))
    ensures NormalizedConcentration(u, dil) == dil.concentration
  {
    LeadingTokenIsNumerator(u);
  }

  // ---------------------------------------------------------------------
  // Early exits

  /** Nothing is computed exactly when a selection is missing, the input is
      empty or not a number, or a weight-based drug lacks a positive weight.
      A zero or negative input is NOT rejected. */
  lemma CalculateDefinedIff(drug: Option<Drug>, dil: Option<Dilution>, weightText: string, mode: Mode, inputText: string)
    ensures Calculate(drug, dil, weightText, mode, inputText).Some? <==>
      && drug.Some? && dil.Some?
      && inputText != ""
      && ReadNumber(inputText).Some?
      && (drug.value.isWeightBased ==> ReadNumber(weightText).Some? && ReadNumber(weightText).value > 0.0)
  {
  }

  /** Once both fields have been read, with a positive weight, the result
      is the conversion of the two numbers. */
  lemma CalculateParsed(drug: Drug, dil: Dilution, weightText: string, mode: Mode, inputText: string, w: real, v: real)
    requires inputText != ""
    requires ReadNumber(inputText) == Some(v)
    requires ReadNumber(weightText) == Some(w) && w > 0.0
    ensures Calculate(Some(drug), Some(dil), weightText, mode, inputText) == Some(Convert(drug, dil, Finite(w), mode, v))
  {
  }

  /** An empty input, or one that does not read as a number, gives no
      result; "" and "abc" are two such inputs. */
  lemma EmptyOrTextInputRejected(drug: Option<Drug>, dil: Option<Dilution>, weightText: string, mode: Mode, inputText: string)
    ensures inputText == "" || ReadNumber(inputText).None? ==> Calculate(drug, dil, weightText, mode, inputText) == None
    ensures Calculate(drug, dil, weightText, mode, "") == None
    ensures Calculate(drug, dil, weightText, mode, "abc") == None
  {
    LettersAreNoNumber();
  }

  /** Text that starts with a letter is not a number. */
  lemma LettersAreNoNumber()
    ensures ReadNumber("abc").None?
  {
    assert ReplaceFirst("abc", ',', '.') == "abc";
    assert TrimStart("abc") == "abc";
  }

  /** Text without a comma is read by `parseFloat` as typed. */
  lemma ReadsAsTyped(text: string)
    requires ',' !in text
    ensures ReadNumber(text) == ParseFloat(text)
  {
  }

  /** A run of digits reads as its positional value. */
  lemma ReadsDigits(s: string)
    requires s != [] && AllDigits(s)
    ensures ReadNumber(s) == Some(DigitsValue(s) as real)
  {
    DigitsHaveNoComma(s);
    ParseFloatOfDigits(s);
  }

  /** Digits, a decimal point and digits read as the decimal they spell. */
  lemma ReadsDecimal(a: string, b: string)
    requires a != [] && AllDigits(a) && AllDigits(b)
    ensures ReadNumber(a + ['.'] + b) == Some(Fraction(DigitsValue(a), DigitsValue(b), Pow10(|b|)))
  {
    DigitsHaveNoComma(a);
    DigitsHaveNoComma(b);
    assert ',' !in a + ['.'] + b;
    ParseFloatOfDecimal(a, b);
  }

  /** A decimal comma reads exactly like a decimal point. */
  lemma ReadsDecimalComma(a: string, b: string)
    requires AllDigits(a) && AllDigits(b)
    ensures ReadNumber(a + [','] + b) == ReadNumber(a + ['.'] + b)
  {
    var s, t := a + [','] + b, a + ['.'] + b;
    DigitsHaveNoComma(a);
    DigitsHaveNoComma(b);
    assert s[..|a|] == a;
    ReplaceFirstAt(s, ',', '.', |a|);
    assert s[..|a|] + ['.'] + s[|a| + 1..] == t;
    assert ',' !in t;
  }

  /** Digit strings hold no comma, so the comma replacement leaves them alone. */
  lemma DigitsHaveNoComma(s: string)
    requires AllDigits(s)
    ensures ',' !in s
  {
    forall i | 0 <= i < |s| ensures s[i] != ',' { assert IsDigit(s[i]); }
  }

  lemma ReadsZero()
    ensures ReadNumber("0") == Some(0.0)
  {
    ReadsDigits("0");
  }

  /** A minus sign before a comma-free numeral negates its reading: a
      negative number is read, not rejected. */
  lemma ReadsNegative(s: string)
    requires ',' !in s
    ensures ReadNumber(['-'] + s) == (if ParseDecimal(s).Some? then Some(-ParseDecimal(s).value) else None)
  {
    assert ',' !in ['-'] + s;
    ReadsAsTyped(['-'] + s);
    ParseFloatNegative(s);
  }

  lemma ReadsMinusFive()
    ensures ReadNumber("-5") == Some(-5.0)
  {
    assert ['-'] + "5" == "-5";
    ReadsNegative("5");
    ParseFloatOfUnsigned("5");
    ParseFloatOfDigits("5");
    assert DigitsValue("5") == 5;
  }

  /** A weight that does not read as a number, or reads as zero or less,
      is no weight at all for a weight-based drug; "0" and "-5" are two such
      weights. */
  lemma NonPositiveWeightRejected(drug: Drug, dil: Dilution, weightText: string, mode: Mode, inputText: string)
    requires drug.isWeightBased
    ensures ReadNumber(weightText).None? || ReadNumber(weightText).value <= 0.0 ==>
              Calculate(Some(drug), Some(dil), weightText, mode, inputText) == None
    ensures Calculate(Some(drug), Some(dil), "0", mode, inputText) == None
    ensures Calculate(Some(drug), Some(dil), "-5", mode, inputText) == None
  {
    CalculateDefinedIff(Some(drug), Some(dil), weightText, mode, inputText);
    ReadsZero();
    ReadsMinusFive();
  }

  /** For a drug that is neither weight-based nor dosed per kg of volume,
      the weight field has no influence on the result. */
  lemma WeightIgnoredWhenNotWeightBased(drug: Drug, dil: Dilution, w1: string, w2: string, mode: Mode, inputText: string)
    requires !drug.isWeightBased && drug.defaultDoseUnit != MlKg
    ensures Calculate(Some(drug), Some(dil), w1, mode, inputText) == Calculate(Some(drug), Some(dil), w2, mode, inputText)
  {
  }

  /** A per-kg volume dose never looks at the dilution: not in the reverse
      direction, and not in the forward direction of a bolus. */
  lemma VolumeDoseIgnoresConcentration(drug: Drug, dil1: Dilution, dil2: Dilution, weightText: string, mode: Mode, inputText: string)
    requires drug.defaultDoseUnit == MlKg
    requires mode == DoseToRate ==> IsBolus(drug)
    ensures Calculate(Some(drug), Some(dil1), weightText, mode, inputText)
         == Calculate(Some(drug), Some(dil2), weightText, mode, inputText)
  {
  }

  // ---------------------------------------------------------------------
  // The formulas, branch by branch

  /** Which branch `Convert` takes, and that every branch sees the same
      normalised concentration. */
  lemma ConvertBranches(drug: Drug, dil: Dilution, weight: Num, val: real)
    ensures var c := NormalizedConcentration(drug.defaultDoseUnit, dil);
      var pm := PerMinute(drug.defaultDoseUnit);
      && Convert(drug, dil, weight, DoseToRate, val) ==
         (if IsBolus(drug) then Reading(BolusVolume(drug, c, weight, val), VOLUME_UNIT, VOLUME_LABEL)
          else Reading(PumpRate(drug, pm, c, weight, val), RATE_UNIT, RATE_LABEL))
      && Convert(drug, dil, weight, RateToDose, val) ==
         Reading(DeliveredDose(drug, pm, c, weight, val), drug.defaultDoseUnit.Tag(), DOSE_LABEL)
  {
  }

  /** Continuous infusion: rate (mL/h) = dose x 60 (per-minute doses) x
      weight (weight-based drugs) / normalised concentration. */
  lemma ForwardContinuousRate(drug: Drug, pm: bool, c: real, w: real, val: real)
    requires c != 0.0
    ensures PumpRate(drug, pm, c, Finite(w), val)
         == Finite(val * TimeFactor(pm) * WeightFactor(drug, w) / c)
  {
  }

  /** Bolus: volume (mL) = dose x weight for a per-kg volume dose, whatever
      the concentration; otherwise dose x weight (weight-based drugs) /
      normalised concentration. */
  lemma ForwardBolusVolume(drug: Drug, c: real, w: real, val: real)
    requires drug.defaultDoseUnit != MlKg ==> c != 0.0
    ensures BolusVolume(drug, c, Finite(w), val)
         == Finite(if drug.defaultDoseUnit == MlKg then val * w else val * WeightFactor(drug, w) / c)
  {
  }

  /** Reverse: dose = volume / weight for a per-kg volume dose; otherwise
      volume x normalised concentration / weight (weight-based drugs),
      and / 60 for a continuous per-minute dose. */
  lemma ReverseDose(drug: Drug, pm: bool, c: real, w: real, val: real)
    requires w != 0.0
    ensures DeliveredDose(drug, pm, c, Finite(w), val) ==
      Finite(if drug.defaultDoseUnit == MlKg then val / w
             else val * c / WeightFactor(drug, w) / (if IsBolus(drug) then 1.0 else TimeFactor(pm)))
  {
    if drug.defaultDoseUnit != MlKg {
      var perPatient := val * c / WeightFactor(drug, w);
      assert (if drug.isWeightBased then Div(Mul(Finite(val), Finite(c)), Finite(w)) else Mul(Finite(val), Finite(c)))
          == Finite(perPatient);
      if !IsBolus(drug) && pm {
        assert TimeFactor(pm) == 60.0;
      } else {
        assert perPatient / 1.0 == perPatient;
        assert !IsBolus(drug) ==> TimeFactor(pm) == 1.0;
      }
    }
  }

  // ---------------------------------------------------------------------
  // Round trip

  /** Multiplying by two non-zero factors and dividing by a third is undone
      by the inverse steps ... */
  lemma {:induction false} ScaleBack(x: real, a: real, b: real, c: real)
    requires a != 0.0 && b != 0.0 && c != 0.0
    ensures x * a * b / c * c / b / a == x
  {
    assert x * a * b / c * c == x * a * b;
    assert x * a * b / b == x * a;
  }

  /** ... and the inverse steps are undone by the forward ones. */
  lemma {:induction false} ScaleForth(x: real, a: real, b: real, c: real)
    requires a != 0.0 && b != 0.0 && c != 0.0
    ensures x * c / b / a * a * b / c == x
  {
    assert x * c / b / a * a == x * c / b;
    assert x * c / b * b == x * c;
  }

  /** Per-kg volume bolus: dose x weight, then / weight, in both orders. */
  lemma VolumeDoseRoundTrip(drug: Drug, pm: bool, c: real, w: real, x: real)
    requires w > 0.0 && drug.defaultDoseUnit == MlKg
    ensures BolusVolume(drug, c, Finite(w), x) == Finite(x * w)
    ensures DeliveredDose(drug, pm, c, Finite(w), x * w) == Finite(x)
    ensures DeliveredDose(drug, pm, c, Finite(w), x) == Finite(x / w)
    ensures BolusVolume(drug, c, Finite(w), x / w) == Finite(x)
  {
    assert x * w / w == x;
    assert x / w * w == x;
  }

  /** Mass bolus: dose x weight / concentration, then x concentration /
      weight, gives the dose back ... */
  lemma MassBolusRoundTrip(drug: Drug, pm: bool, c: real, w: real, x: real)
    requires w > 0.0 && c != 0.0 && drug.defaultDoseUnit != MlKg && IsBolus(drug)
    ensures var f := BolusVolume(drug, c, Finite(w), x);
      f.Finite? && DeliveredDose(drug, pm, c, Finite(w), f.x) == Finite(x)
  {
    var wf := WeightFactor(drug, w);
    ForwardBolusVolume(drug, c, w, x);
    ReverseDose(drug, pm, c, w, x * wf / c);
    ScaleBack(x, 1.0, wf, c);
  }

  /** ... and the reverse formula followed by the forward one gives the
      volume back. */
  lemma MassBolusRoundTripReverse(drug: Drug, pm: bool, c: real, w: real, x: real)
    requires w > 0.0 && c != 0.0 && drug.defaultDoseUnit != MlKg && IsBolus(drug)
    ensures var r := DeliveredDose(drug, pm, c, Finite(w), x);
      r.Finite? && BolusVolume(drug, c, Finite(w), r.x) == Finite(x)
  {
    var wf := WeightFactor(drug, w);
    ReverseDose(drug, pm, c, w, x);
    ForwardBolusVolume(drug, c, w, x * c / wf / 1.0);
    ScaleForth(x, 1.0, wf, c);
  }

  /** Continuous infusion: the pump rate is the dose times one factor
      (60 per minute x weight / concentration), and the delivered dose is the
      rate divided by that same factor. */
  function RateFactor(drug: Drug, pm: bool, c: real, w: real): real
    requires c != 0.0
  {
    TimeFactor(pm) * WeightFactor(drug, w) / c
  }

  lemma ContinuousScales(drug: Drug, pm: bool, c: real, w: real, val: real)
    requires w > 0.0 && c != 0.0 && !IsBolus(drug) && drug.defaultDoseUnit != MlKg
    ensures RateFactor(drug, pm, c, w) != 0.0
    ensures PumpRate(drug, pm, c, Finite(w), val) == Finite(val * RateFactor(drug, pm, c, w))
    ensures DeliveredDose(drug, pm, c, Finite(w), val) == Finite(val / RateFactor(drug, pm, c, w))
  {
    var tf, wf := TimeFactor(pm), WeightFactor(drug, w);
    ForwardContinuousRate(drug, pm, c, w, val);
    ReverseDose(drug, pm, c, w, val);
    Regroup(val, tf, wf, c);
  }

  lemma Regroup(v: real, a: real, b: real, c: real)
    requires a != 0.0 && b != 0.0 && c != 0.0
    ensures a * b / c != 0.0
    ensures v * a * b / c == v * (a * b / c)
    ensures v * c / b / a == v / (a * b / c)
  {
    assert a * b != 0.0;
    assert v * c / b / a == v * c / (a * b);
    assert v / (a * b / c) == v * c / (a * b);
  }

  /** Dividing by a non-zero factor undoes multiplying by it ... */
  lemma CancelTimes(x: real, k: real)
    requires k != 0.0
    ensures x * k / k == x
  {
  }

  /** ... and multiplying undoes dividing. */
  lemma CancelOver(x: real, k: real)
    requires k != 0.0
    ensures x / k * k == x
  {
  }


  /** Continuous infusion: dose -> rate -> dose gives the dose back ... */
  lemma ContinuousRoundTrip(drug: Drug, pm: bool, c: real, w: real, x: real)
    requires w > 0.0 && c != 0.0 && !IsBolus(drug) && drug.defaultDoseUnit != MlKg
    ensures var f := PumpRate(drug, pm, c, Finite(w), x);
      f.Finite? && DeliveredDose(drug, pm, c, Finite(w), f.x) == Finite(x)
  {
    var k := RateFactor(drug, pm, c, w);
    ContinuousScales(drug, pm, c, w, x);
    assert PumpRate(drug, pm, c, Finite(w), x) == Finite(x * k);
    ContinuousScales(drug, pm, c, w, x * k);
    CancelTimes(x, k);
    assert DeliveredDose(drug, pm, c, Finite(w), x * k) == Finite(x);
  }

  /** ... and rate -> dose -> rate gives the rate back. */
  lemma ContinuousRoundTripReverse(drug: Drug, pm: bool, c: real, w: real, x: real)
    requires w > 0.0 && c != 0.0 && !IsBolus(drug) && drug.defaultDoseUnit != MlKg
    ensures var r := DeliveredDose(drug, pm, c, Finite(w), x);
      r.Finite? && PumpRate(drug, pm, c, Finite(w), r.x) == Finite(x)
  {
    var k := RateFactor(drug, pm, c, w);
    ContinuousScales(drug, pm, c, w, x);
    ContinuousScales(drug, pm, c, w, x / k);
    CancelOver(x, k);
  }



  /** Feeding the forward result back into the reverse direction returns
      the dose, and feeding the reverse result forward returns the rate,
      whenever the weight is positive, the normalised concentration is not
      zero, and a per-kg volume dose is a bolus. */
  lemma RoundTrip(drug: Drug, dil: Dilution, w: real, x: real)
    requires w > 0.0
    requires NormalizedConcentration(drug.defaultDoseUnit, dil) != 0.0
    requires drug.defaultDoseUnit == MlKg ==> IsBolus(drug)
    ensures var f := Convert(drug, dil, Finite(w), DoseToRate, x).value;
      f.Finite? && Convert(drug, dil, Finite(w), RateToDose, f.x).value == Finite(x)
    ensures var r := Convert(drug, dil, Finite(w), RateToDose, x).value;
      r.Finite? && Convert(drug, dil, Finite(w), DoseToRate, r.x).value == Finite(x)
  {
    var c := NormalizedConcentration(drug.defaultDoseUnit, dil);
    var pm := PerMinute(drug.defaultDoseUnit);
    if drug.defaultDoseUnit == MlKg {
      VolumeDoseRoundTrip(drug, pm, c, w, x);
    } else if IsBolus(drug) {
      MassBolusRoundTrip(drug, pm, c, w, x);
      MassBolusRoundTripReverse(drug, pm, c, w, x);
    } else {
      ContinuousRoundTrip(drug, pm, c, w, x);
      ContinuousRoundTripReverse(drug, pm, c, w, x);
    }
    ConvertBranches(drug, dil, Finite(w), x);
    var f := Convert(drug, dil, Finite(w), DoseToRate, x).value;
    ConvertBranches(drug, dil, Finite(w), f.x);
    var r := Convert(drug, dil, Finite(w), RateToDose, x).value;
    ConvertBranches(drug, dil, Finite(w), r.x);
  }

  /** The precondition on per-kg volume doses cannot be dropped: were such a
      drug continuous, the forward direction would divide by the dilution
      and the reverse would not multiply it back. */
  lemma RoundTripNeedsVolumeDoseBolus()
    ensures var drug := Drug("x", "x", ContinuousSedation, [Dilution("x", 2.0, "ml/ml")], MlKg, true, None);
      var dil := drug.dilutions[0];
      var f := Convert(drug, dil, Finite(1.0), DoseToRate, 1.0).value;
      f == Finite(0.5) && Convert(drug, dil, Finite(1.0), RateToDose, f.x).value == Finite(0.5)
  {
    var drug := Drug("x", "x", ContinuousSedation, [Dilution("x", 2.0, "ml/ml")], MlKg, true, None);
    var dil := drug.dilutions[0];
    VolumeDoseContinuousBranches(drug, dil, Finite(1.0), 1.0);
    VolumeDoseContinuousBranches(drug, dil, Finite(1.0), 0.5);
    assert PumpRate(drug, false, 2.0, Finite(1.0), 1.0) == Finite(0.5);
    assert DeliveredDose(drug, false, 2.0, Finite(1.0), 0.5) == Finite(0.5);
  }

  /** A continuous per-kg volume drug takes the pump-rate formula forward
      and the per-kg volume formula back, both with the concentration as
      written. */
  lemma VolumeDoseContinuousBranches(drug: Drug, dil: Dilution, weight: Num, val: real)
    requires drug.defaultDoseUnit == MlKg && !IsBolus(drug)
    ensures Convert(drug, dil, weight, DoseToRate, val).value == PumpRate(drug, false, dil.concentration, weight, val)
    ensures Convert(drug, dil, weight, RateToDose, val).value == DeliveredDose(drug, false, dil.concentration, weight, val)
  {
    NormalizationKeepsOtherPairings(MlKg, dil);
    PerMinuteTags(MlKg);
  }

  // ---------------------------------------------------------------------
  // The engine on the formulary

  lemma SignOfScaling(v: real, k: real)
    requires k > 0.0
    ensures (v * k > 0.0 <==> v > 0.0) && (v * k == 0.0 <==> v == 0.0)
    ensures (v / k > 0.0 <==> v > 0.0) && (v / k == 0.0 <==> v == 0.0)
  {
  }

  /** `n` is a finite number with the sign of `v`. */
  predicate SameSign(n: Num, v: real)
  {
    n.Finite? && (n.x > 0.0 <==> v > 0.0) && (n.x == 0.0 <==> v == 0.0)
  }

  lemma PumpRateKeepsSign(drug: Drug, pm: bool, c: real, w: real, v: real)
    requires c > 0.0 && w > 0.0
    ensures SameSign(PumpRate(drug, pm, c, Finite(w), v), v)
  {
    var tf := TimeFactor(pm);
    var wf := WeightFactor(drug, w);
    ForwardContinuousRate(drug, pm, c, w, v);
    SignOfScaling(v, tf);
    SignOfScaling(v * tf, wf);
    SignOfScaling(v * tf * wf, c);
  }

  lemma BolusVolumeKeepsSign(drug: Drug, c: real, w: real, v: real)
    requires c > 0.0 && w > 0.0
    ensures SameSign(BolusVolume(drug, c, Finite(w), v), v)
  {
    var wf := WeightFactor(drug, w);
    ForwardBolusVolume(drug, c, w, v);
    SignOfScaling(v, w);
    SignOfScaling(v, wf);
    SignOfScaling(v * wf, c);
  }

  lemma DeliveredDoseKeepsSign(drug: Drug, pm: bool, c: real, w: real, v: real)
    requires c > 0.0 && w > 0.0
    ensures SameSign(DeliveredDose(drug, pm, c, Finite(w), v), v)
  {
    var wf := WeightFactor(drug, w);
    var tf := if IsBolus(drug) then 1.0 else TimeFactor(pm);
    ReverseDose(drug, pm, c, w, v);
    SignOfScaling(v, w);
    SignOfScaling(v, c);
    SignOfScaling(v * c, wf);
    SignOfScaling(v * c / wf, tf);
  }

  /** A drug that is neither weight-based nor dosed in mL/kg never reads the
      weight, so even a weight that did not parse cannot reach its result. */
  lemma WeightUnused(drug: Drug, pm: bool, c: real, weight: Num, v: real)
    requires !drug.isWeightBased && drug.defaultDoseUnit != MlKg
    ensures PumpRate(drug, pm, c, weight, v) == PumpRate(drug, pm, c, Finite(1.0), v)
    ensures BolusVolume(drug, c, weight, v) == BolusVolume(drug, c, Finite(1.0), v)
    ensures DeliveredDose(drug, pm, c, weight, v) == DeliveredDose(drug, pm, c, Finite(1.0), v)
  {
  }

  /** With a positive concentration, and a positive weight wherever the
      weight is used, every formula yields a finite number with the sign of
      its input. */
  lemma FormulasKeepSign(drug: Drug, pm: bool, c: real, weight: Num, v: real)
    requires c > 0.0
    requires drug.isWeightBased ==> weight.Finite? && weight.x > 0.0
    requires drug.defaultDoseUnit == MlKg ==> drug.isWeightBased
    ensures SameSign(PumpRate(drug, pm, c, weight, v), v)
    ensures SameSign(BolusVolume(drug, c, weight, v), v)
    ensures SameSign(DeliveredDose(drug, pm, c, weight, v), v)
  {
    if drug.isWeightBased {
      var w := weight.x;
      assert weight == Finite(w);
      PumpRateKeepsSign(drug, pm, c, w, v);
      BolusVolumeKeepsSign(drug, c, w, v);
      DeliveredDoseKeepsSign(drug, pm, c, w, v);
    } else {
      WeightUnused(drug, pm, c, weight, v);
      PumpRateKeepsSign(drug, pm, c, 1.0, v);
      BolusVolumeKeepsSign(drug, c, 1.0, v);
      DeliveredDoseKeepsSign(drug, pm, c, 1.0, v);
    }
  }

  /** For every drug and dilution of the table, a result, when there is one,
      is a finite number with the sign of the input: no division by zero or
      by a missing weight can happen, and zero or negative inputs pass
      through unchanged in sign, since the calculator does no clinical
      range checking. */
  lemma FormularyReadingsFiniteAndSigned(drug: Drug, dil: Dilution, weightText: string, mode: Mode, inputText: string)
    requires drug in DRUGS && dil in drug.dilutions
    ensures var r := Calculate(Some(drug), Some(dil), weightText, mode, inputText);
      r.Some? ==> SameSign(r.value.value, ReadNumber(inputText).value)
  {
    var r := Calculate(Some(drug), Some(dil), weightText, mode, inputText);
    if r.Some? {
      AllDrugsSound();
      assert Sound(drug);
      var v := ReadNumber(inputText).value;
      var weight := FromParsed(ReadNumber(weightText));
      assert r.value == Convert(drug, dil, weight, mode, v);
      var c := NormalizedConcentration(drug.defaultDoseUnit, dil);
      assert c > 0.0;
      ConvertBranches(drug, dil, weight, v);
      FormulasKeepSign(drug, PerMinute(drug.defaultDoseUnit), c, weight, v);
    }
  }

  /** The round trip holds for every drug and dilution of the table and
      every positive weight. */
  lemma FormularyRoundTrip(drug: Drug, dil: Dilution, w: real, x: real)
    requires drug in DRUGS && dil in drug.dilutions && w > 0.0
    ensures var f := Convert(drug, dil, Finite(w), DoseToRate, x).value;
      f.Finite? && Convert(drug, dil, Finite(w), RateToDose, f.x).value == Finite(x)
    ensures var r := Convert(drug, dil, Finite(w), RateToDose, x).value;
      r.Finite? && Convert(drug, dil, Finite(w), DoseToRate, r.x).value == Finite(x)
  {
    AllDrugsSound();
    assert Sound(drug);
    RoundTrip(drug, dil, w, x);
  }

  /** The unit beside the input field is the unit the opposite direction
      reports, so what one direction produces the other accepts. */
  lemma InputUnitIsOppositeReadingUnit(drug: Drug, dil: Dilution, weight: Num, mode: Mode, val: real)
    ensures InputUnitLabel(mode, Some(drug)) == Some(Convert(drug, dil, weight, mode.Opposite(), val).unit)
  {
  }
}
