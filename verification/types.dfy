/** The tag sets and record shapes of the calculator: drug categories, dose
    units, dilutions and drugs. */
module Types {
  import opened Wrappers
  import opened Strings

  /** The seven formulary categories; `Label` is the text the interface shows
      and filters on. */
  datatype Category =
    | Vasopressors
    | Inotropes
    | Vasodilators
    | ContinuousSedation
    | NeuromuscularBlockers
    | ProceduralSedation
    | IntubationDrugs
  {
    function Label(): string
    {
      match this
      case Vasopressors => "Vasopressores"
      case Inotropes => "Inotrópicos"
      case Vasodilators => "Vasodilatadores"
      case ContinuousSedation => "Sedação/Analgesia Contínua"
      case NeuromuscularBlockers => "Bloqueadores Neuromusculares"
      case ProceduralSedation => "Sedação Procedimento"
      case IntubationDrugs => "Drogas IOT (Intubação)"
    }
  }

  /** The nine dose units. The engine never looks at the constructor: it
      works on `Tag()`, splitting it on '/' and searching it for "/min". */
  datatype DoseUnit =
    | McgKgMin
    | McgMin
    | MgKgH
    | McgKgH
    | UMin
    | UKgH
    | MgKg   // bolus mass per kg
    | McgKg  // bolus mass per kg
    | MlKg   // bolus volume per kg
  {
    function Tag(): string
    {
      match this
      case McgKgMin => "mcg/kg/min"
      case McgMin => "mcg/min"
      case MgKgH => "mg/kg/h"
      case McgKgH => "mcg/kg/h"
      case UMin => "U/min"
      case UKgH => "U/kg/h"
      case MgKg => "mg/kg"
      case McgKg => "mcg/kg"
      case MlKg => "ml/kg"
    }

    /** What the unit measures out: micrograms, milligrams, units or millilitres. */
    function Numerator(): string
    {
      match this
      case McgKgMin | McgMin | McgKgH | McgKg => "mcg"
      case MgKgH | MgKg => "mg"
      case UMin | UKgH => "U"
      case MlKg => "ml"
    }

    /** The three tags that describe a single dose per kilogram. */
    predicate IsBolusUnit()
    {
      this == MgKg || this == McgKg || this == MlKg
    }
  }

  datatype Dilution = Dilution(id: string, concentration: real, concentrationUnit: string)

  /** `isBolus` is optional in the record, exactly as in the source. */
  datatype Drug = Drug(
    id: string,
    name: string,
    category: Category,
    dilutions: seq<Dilution>,
    defaultDoseUnit: DoseUnit,
    isWeightBased: bool,
    isBolus: Option<bool>)

  /** `drug.isBolus || false`: an absent flag reads as a continuous infusion. */
  predicate IsBolus(drug: Drug)
    ensures drug.isBolus.None? ==> !IsBolus(drug)
  {
    drug.isBolus == Some(true)
  }

  lemma CategoryLabelsDistinct(a: Category, b: Category)
    ensures a.Label() == b.Label() ==> a == b
  {
    if a != b {
      match a
      case Vasopressors => assert a.Label()[0] == 'V' && a.Label()[3] == 'o';
      case Inotropes => assert a.Label()[0] == 'I';
      case Vasodilators => assert a.Label()[0] == 'V' && a.Label()[3] == 'o';
      case ContinuousSedation => assert a.Label()[7] == '/';
      case NeuromuscularBlockers => assert a.Label()[0] == 'B';
      case ProceduralSedation => assert a.Label()[7] == ' ';
      case IntubationDrugs => assert a.Label()[0] == 'D';
    }
  }

  lemma DoseUnitTagsDistinct(a: DoseUnit, b: DoseUnit)
    ensures a.Tag() == b.Tag() ==> a == b
  {
    if a != b {
      match a
      case McgKgMin => assert |a.Tag()| == 10;
      case McgMin => assert a.Tag()[4] == 'm';
      case MgKgH => assert a.Tag()[1] == 'g' && a.Tag()[6] == 'h';
      case McgKgH => assert a.Tag()[2] == 'g' && a.Tag()[7] == 'h';
      case UMin => assert a.Tag()[0] == 'U' && a.Tag()[2] == 'm';
      case UKgH => assert a.Tag()[0] == 'U' && a.Tag()[2] == 'k';
      case MgKg => assert a.Tag()[1] == 'g' && |a.Tag()| == 5;
      case McgKg => assert a.Tag()[2] == 'g' && |a.Tag()| == 6;
      case MlKg => assert a.Tag()[1] == 'l';
    }
  }

  lemma MinuteTagsIncludeMinute()
    ensures Includes("mcg/kg/min", "/min") && Includes("mcg/min", "/min") && Includes("U/min", "/min")
  {
    IncludesAt("mcg/kg/min", "/min", 6);
    IncludesAt("mcg/min", "/min", 3);
    IncludesAt("U/min", "/min", 1);
  }

  lemma HourTagsLackMinute()
    ensures !Includes("mg/kg/h", "/min") && !Includes("mcg/kg/h", "/min") && !Includes("U/kg/h", "/min")
  {
    SlashNotFollowedBy("mg/kg/h", "/min");
    SlashNotFollowedBy("mcg/kg/h", "/min");
    SlashNotFollowedBy("U/kg/h", "/min");
  }

  lemma BolusTagsLackMinute()
    ensures !Includes("mg/kg", "/min") && !Includes("mcg/kg", "/min") && !Includes("ml/kg", "/min")
  {
    SlashNotFollowedBy("mg/kg", "/min");
    SlashNotFollowedBy("mcg/kg", "/min");
    SlashNotFollowedBy("ml/kg", "/min");
  }

  /** Exactly three tags carry the "/min" time base that makes the engine
      convert between per-minute doses and per-hour pump rates. */
  lemma PerMinuteTags(u: DoseUnit)
    ensures Includes(u.Tag(), "/min") <==> (u == McgKgMin || u == McgMin || u == UMin)
  {
    MinuteTagsIncludeMinute();
    HourTagsLackMinute();
    BolusTagsLackMinute();
  }

  /** The text before the first slash of every tag is the unit's numerator
      token, one of "mcg", "mg", "U" and "ml". */
  lemma LeadingTokenIsNumerator(u: DoseUnit)
    ensures FirstSegment(u.Tag()) == u.Numerator()
    ensures u.Numerator() in {"mcg", "mg", "U", "ml"}
  {
    var t, n := u.Tag(), u.Numerator();
    assert n <= t && |n| < |t| && t[|n|] == '/' && '/' !in n by {
      match u
      case McgKgMin =>
      case McgMin =>
      case MgKgH =>
      case McgKgH =>
      case UMin =>
      case UKgH =>
      case MgKg =>
      case McgKg =>
      case MlKg =>
    }
    FirstSegmentIs(t, n);
  }

  lemma HourTagsIncludeHour()
    ensures Includes("mg/kg/h", "/h") && Includes("mcg/kg/h", "/h") && Includes("U/kg/h", "/h")
  {
    IncludesAt("mg/kg/h", "/h", 5);
    IncludesAt("mcg/kg/h", "/h", 6);
    IncludesAt("U/kg/h", "/h", 4);
  }

  lemma BolusTagsLackHour()
    ensures !Includes("mg/kg", "/h") && !Includes("mcg/kg", "/h") && !Includes("ml/kg", "/h")
  {
    SlashNotFollowedBy("mg/kg", "/h");
    SlashNotFollowedBy("mcg/kg", "/h");
    SlashNotFollowedBy("ml/kg", "/h");
  }

  /** Bolus tags have no time denominator; every other tag has one. */
  lemma BolusUnitsHaveNoTimeBase(u: DoseUnit)
    ensures u.IsBolusUnit() <==> !(Includes(u.Tag(), "/min") || Includes(u.Tag(), "/h"))
  {
    PerMinuteTags(u);
    HourTagsIncludeHour();
    BolusTagsLackHour();
  }
}
