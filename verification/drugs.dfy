/** The formulary: a fixed, ordered table of drugs with their dilutions,
    dose units and the weight-based and bolus flags the engine reads. */
module Drugs {
  import opened Wrappers
  import opened Strings
  import opened Types

  // data/drugs.ts:6-27
  const Noradrenalina: Drug :=
    Drug("noradrenalina", "Noradrenalina", Vasopressors,
      [
        Dilution("nora_std", 64.0, "mcg/mL"),
        Dilution("nora_conc", 128.0, "mcg/mL")
      ],
      McgKgMin, true, None)

  // data/drugs.ts:28-43
  const Dopamina: Drug :=
    Drug("dopamina", "Dopamina", Vasopressors,
      [
        Dilution("dopa_std", 1000.0, "mcg/mL")
      ],
      McgKgMin, true, None)

  // data/drugs.ts:44-59
  const Adrenalina: Drug :=
    Drug("adrenalina", "Adrenalina", Vasopressors,
      [
        Dilution("adren_std", 60.0, "mcg/mL")
      ],
      McgKgMin, true, None)

  // data/drugs.ts:60-81
  const Vasopressina: Drug :=
    Drug("vasopressina", "Vasopressina", Vasopressors,
      [
        Dilution("vaso_std", 0.2, "U/mL"),
        Dilution("vaso_conc", 0.4, "U/mL")
      ],
      UMin, false, None)

  // data/drugs.ts:84-105
  const Dobutamina: Drug :=
    Drug("dobutamina", "Dobutamina", Inotropes,
      [
        Dilution("dobu_std", 2000.0, "mcg/mL"),
        Dilution("dobu_conc", 4000.0, "mcg/mL")
      ],
      McgKgMin, true, None)

  // data/drugs.ts:106-121
  const Milrinone: Drug :=
    Drug("milrinone", "Milrinone", Inotropes,
      [
        Dilution("mil_std", 200.0, "mcg/mL")
      ],
      McgKgMin, true, None)

  // data/drugs.ts:122-137
  const Levosimendana: Drug :=
    Drug("levosimendana", "Levosimendana", Inotropes,
      [
        Dilution("levo_std", 50.0, "mcg/mL")
      ],
      McgKgMin, true, None)

  // data/drugs.ts:140-155
  const Nitroglicerina: Drug :=
    Drug("nitroglicerina", "Nitroglicerina", Vasodilators,
      [
        Dilution("tridil_std", 200.0, "mcg/mL")
      ],
      McgMin, false, None)

  // data/drugs.ts:156-171
  const Nitroprussiato: Drug :=
    Drug("nitroprussiato", "Nitroprussiato (Nipride)", Vasodilators,
      [
        Dilution("nipride_std", 200.0, "mcg/mL")
      ],
      McgMin, false, None)

  // data/drugs.ts:174-195
  const Midazolam: Drug :=
    Drug("midazolam", "Midazolam (Contínuo)", ContinuousSedation,
      [
        Dilution("mida_std", 1.0, "mg/mL"),
        Dilution("mida_conc", 0.8, "mg/mL")
      ],
      MgKgH, true, None)

  // data/drugs.ts:196-218
  const Propofol: Drug :=
    Drug("propofol", "Propofol (Contínuo)", ContinuousSedation,
      [
        Dilution("propofol_puro", 20.0, "mg/mL"),
        Dilution("propofol_1percent", 10.0, "mg/mL")
      ],
      McgKgMin, true, None)

  // data/drugs.ts:219-240
  const Quetamina: Drug :=
    Drug("quetamina", "Quetamina (Contínua)", ContinuousSedation,
      [
        Dilution("keta_std", 1.0, "mg/mL"),
        Dilution("keta_conc", 2.0, "mg/mL")
      ],
      MgKgH, true, None)

  // data/drugs.ts:241-256
  const Dexmedetomidina: Drug :=
    Drug("dexmedetomidina", "Dexmedetomidina (Precedex)", ContinuousSedation,
      [
        Dilution("precedex_std", 4.0, "mcg/mL")
      ],
      McgKgH, true, None)

  // data/drugs.ts:257-272
  const Fentanil: Drug :=
    Drug("fentanil", "Fentanil (Contínuo)", ContinuousSedation,
      [
        Dilution("fenta_puro", 50.0, "mcg/mL")
      ],
      McgKgH, true, None)

  // data/drugs.ts:275-290
  const Rocuronio: Drug :=
    Drug("rocuronio", "Rocurônio (Contínuo)", NeuromuscularBlockers,
      [
        Dilution("rocu_std", 1000.0, "mcg/mL")
      ],
      McgKgMin, true, None)

  // data/drugs.ts:293-309
  const PropofolProc: Drug :=
    Drug("propofol_proc", "Propofol (Procedimento)", ProceduralSedation,
      [
        Dilution("prop_proc_puro", 10.0, "mg/mL")
      ],
      MgKg, true, Some(true))

  // data/drugs.ts:310-326
  const CetaminaProc: Drug :=
    Drug("cetamina_proc", "Cetamina (Procedimento)", ProceduralSedation,
      [
        Dilution("ceta_proc_puro", 50.0, "mg/mL")
      ],
      MgKg, true, Some(true))

  // data/drugs.ts:327-344
  const Ketofol: Drug :=
    Drug("ketofol", "Ketofol (Ketamina + Propofol)", ProceduralSedation,
      [
        Dilution("ketofol_mix", 10.0, "mg/mL")
      ],
      MlKg, true, Some(true))

  // data/drugs.ts:345-362
  const Ketodex: Drug :=
    Drug("ketodex", "Ketodex (Ketamina + Precedex)", ProceduralSedation,
      [
        Dilution("ketodex_mix", 1.0, "ml/ml")
      ],
      MlKg, true, Some(true))

  // data/drugs.ts:365-381
  const FentanilIot: Drug :=
    Drug("fentanil_iot", "Fentanil (IOT)", IntubationDrugs,
      [
        Dilution("fenta_iot_puro", 50.0, "mcg/mL")
      ],
      McgKg, true, Some(true))

  // data/drugs.ts:382-398
  const LidocainaIot: Drug :=
    Drug("lidocaina_iot", "Lidocaína 2%", IntubationDrugs,
      [
        Dilution("lido_puro", 20.0, "mg/mL")
      ],
      MgKg, true, Some(true))

  // data/drugs.ts:399-415
  const MidazolamIot: Drug :=
    Drug("midazolam_iot", "Midazolam (IOT)", IntubationDrugs,
      [
        Dilution("mida_iot_puro", 5.0, "mg/mL")
      ],
      MgKg, true, Some(true))

  // data/drugs.ts:416-432
  const Etomidato: Drug :=
    Drug("etomidato", "Etomidato", IntubationDrugs,
      [
        Dilution("etom_puro", 2.0, "mg/mL")
      ],
      MgKg, true, Some(true))

  // data/drugs.ts:433-449
  const CetaminaIot: Drug :=
    Drug("cetamina_iot", "Cetamina (IOT)", IntubationDrugs,
      [
        Dilution("ceta_iot_puro", 50.0, "mg/mL")
      ],
      MgKg, true, Some(true))

  // data/drugs.ts:450-466
  const PropofolIot: Drug :=
    Drug("propofol_iot", "Propofol (IOT)", IntubationDrugs,
      [
        Dilution("prop_iot_puro", 10.0, "mg/mL")
      ],
      MgKg, true, Some(true))

  // data/drugs.ts:467-483
  const Succinilcolina: Drug :=
    Drug("succinilcolina", "Succinilcolina", IntubationDrugs,
      [
        Dilution("suc_std", 10.0, "mg/mL")
      ],
      MgKg, true, Some(true))

  // data/drugs.ts:484-500
  const RocuronioIot: Drug :=
    Drug("rocuronio_iot", "Rocurônio (IOT)", IntubationDrugs,
      [
        Dilution("roc_iot_puro", 10.0, "mg/mL")
      ],
      MgKg, true, Some(true))

  // The table in its source order, one section per category.
  const VASOPRESSORS: seq<Drug> := [Noradrenalina, Dopamina, Adrenalina, Vasopressina]
  const INOTROPES: seq<Drug> := [Dobutamina, Milrinone, Levosimendana]
  const VASODILATORS: seq<Drug> := [Nitroglicerina, Nitroprussiato]
  const CONTINUOUS_SEDATION: seq<Drug> := [Midazolam, Propofol, Quetamina, Dexmedetomidina, Fentanil]
  const NEUROMUSCULAR_BLOCKERS: seq<Drug> := [Rocuronio]
  const PROCEDURAL_SEDATION: seq<Drug> := [PropofolProc, CetaminaProc, Ketofol, Ketodex]
  const INTUBATION_DRUGS: seq<Drug> := [FentanilIot, LidocainaIot, MidazolamIot, Etomidato, CetaminaIot, PropofolIot, Succinilcolina, RocuronioIot]

  const DRUGS: seq<Drug> :=
    VASOPRESSORS + INOTROPES + VASODILATORS + CONTINUOUS_SEDATION
    + NEUROMUSCULAR_BLOCKERS + PROCEDURAL_SEDATION + INTUBATION_DRUGS

  /** The leading token of a concentration unit such as "mcg/mL". */
  function ConcentrationToken(x: Dilution): string
  {
    FirstSegment(x.concentrationUnit)
  }

  /** The dose is measured in the same mass unit as the dilution, or in
      micrograms against a dilution in milligrams: the two pairings the
      engine's normalisation handles without leaving a unit mismatch. */
  predicate MassTokensCompatible(u: DoseUnit, x: Dilution)
  {
    u.Numerator() == ConcentrationToken(x) || (u.Numerator() == "mcg" && ConcentrationToken(x) == "mg")
  }

  /** The four concentration-unit strings that occur in the formulary. */
  predicate ListedUnit(x: Dilution)
  {
    x.concentrationUnit == "mcg/mL" || x.concentrationUnit == "mg/mL"
    || x.concentrationUnit == "U/mL" || x.concentrationUnit == "ml/ml"
  }

  /** At least one dilution, every concentration positive, no dilution id twice. */
  predicate DilutionsWellFormed(d: Drug)
  {
    && |d.dilutions| >= 1
    && (forall x :: x in d.dilutions ==> x.concentration > 0.0)
    && (forall i, j :: 0 <= i < j < |d.dilutions| ==> d.dilutions[i].id != d.dilutions[j].id)
  }

  /** The bolus flag is either absent or `true`, marks exactly the per-kg
      bolus units and exactly the two bolus categories, and a per-kg volume
      dose is always weight-based. */
  predicate BolusFlagsConsistent(d: Drug)
  {
    && (d.isBolus == None || d.isBolus == Some(true))
    && (IsBolus(d) <==> d.defaultDoseUnit.IsBolusUnit())
    && (IsBolus(d) <==> (d.category == ProceduralSedation || d.category == IntubationDrugs))
    && (d.defaultDoseUnit == MlKg ==> d.isWeightBased)
  }

  /** Outside the volume unit, dose and dilution use compatible mass tokens,
      and only continuous propofol pairs two different ones. */
  predicate MassTokensConsistent(d: Drug)
  {
    d.defaultDoseUnit != MlKg ==>
      forall x :: x in d.dilutions ==>
        && MassTokensCompatible(d.defaultDoseUnit, x)
        && (d.id != "propofol" ==> d.defaultDoseUnit.Numerator() == ConcentrationToken(x))
  }

  /** The leading token of each concentration-unit string the formulary uses. */
  lemma ConcentrationUnitTokens()
    ensures FirstSegment("mcg/mL") == "mcg"
    ensures FirstSegment("mg/mL") == "mg"
    ensures FirstSegment("U/mL") == "U"
    ensures FirstSegment("ml/ml") == "ml"
  {
    FirstSegmentIs("mcg/mL", "mcg");
    FirstSegmentIs("mg/mL", "mg");
    FirstSegmentIs("U/mL", "U");
    FirstSegmentIs("ml/ml", "ml");
  }

  /** A drug whose dilutions all share one unit, led by the dose's own mass
      token (or dosed in ml/kg), has consistent mass tokens. */
  lemma SharedMassToken(d: Drug, unit: string)
    requires forall x :: x in d.dilutions ==> x.concentrationUnit == unit
    requires d.defaultDoseUnit == MlKg || d.defaultDoseUnit.Numerator() == FirstSegment(unit)
    ensures MassTokensConsistent(d)
  {
  }

  /** Everything the engine relies on about one formulary entry. */
  predicate Sound(d: Drug)
  {
    DilutionsWellFormed(d) && BolusFlagsConsistent(d) && MassTokensConsistent(d)
  }

  lemma NoradrenalinaSound() ensures Sound(Noradrenalina) {
    FirstSegmentIs("mcg/mL", "mcg");
    SharedMassToken(Noradrenalina, "mcg/mL");
  }
  lemma DopaminaSound() ensures Sound(Dopamina) {
    FirstSegmentIs("mcg/mL", "mcg");
    SharedMassToken(Dopamina, "mcg/mL");
  }
  lemma AdrenalinaSound() ensures Sound(Adrenalina) {
    FirstSegmentIs("mcg/mL", "mcg");
    SharedMassToken(Adrenalina, "mcg/mL");
  }
  lemma VasopressinaSound() ensures Sound(Vasopressina) {
    FirstSegmentIs("U/mL", "U");
    SharedMassToken(Vasopressina, "U/mL");
  }
  lemma DobutaminaSound() ensures Sound(Dobutamina) {
    FirstSegmentIs("mcg/mL", "mcg");
    SharedMassToken(Dobutamina, "mcg/mL");
  }
  lemma MilrinoneSound() ensures Sound(Milrinone) {
    FirstSegmentIs("mcg/mL", "mcg");
    SharedMassToken(Milrinone, "mcg/mL");
  }
  lemma LevosimendanaSound() ensures Sound(Levosimendana) {
    FirstSegmentIs("mcg/mL", "mcg");
    SharedMassToken(Levosimendana, "mcg/mL");
  }
  lemma NitroglicerinaSound() ensures Sound(Nitroglicerina) {
    FirstSegmentIs("mcg/mL", "mcg");
    SharedMassToken(Nitroglicerina, "mcg/mL");
  }
  lemma NitroprussiatoSound() ensures Sound(Nitroprussiato) {
    FirstSegmentIs("mcg/mL", "mcg");
    SharedMassToken(Nitroprussiato, "mcg/mL");
  }
  lemma MidazolamSound() ensures Sound(Midazolam) {
    FirstSegmentIs("mg/mL", "mg");
    SharedMassToken(Midazolam, "mg/mL");
  }
  lemma PropofolMassTokens() ensures MassTokensConsistent(Propofol) { }
  lemma PropofolSound() ensures Sound(Propofol) {
    PropofolMassTokens();
  }
  lemma QuetaminaSound() ensures Sound(Quetamina) {
    FirstSegmentIs("mg/mL", "mg");
    SharedMassToken(Quetamina, "mg/mL");
  }
  lemma DexmedetomidinaSound() ensures Sound(Dexmedetomidina) {
    FirstSegmentIs("mcg/mL", "mcg");
    SharedMassToken(Dexmedetomidina, "mcg/mL");
  }
  lemma FentanilSound() ensures Sound(Fentanil) {
    FirstSegmentIs("mcg/mL", "mcg");
    SharedMassToken(Fentanil, "mcg/mL");
  }
  lemma RocuronioSound() ensures Sound(Rocuronio) {
    FirstSegmentIs("mcg/mL", "mcg");
    SharedMassToken(Rocuronio, "mcg/mL");
  }
  lemma PropofolProcSound() ensures Sound(PropofolProc) {
    FirstSegmentIs("mg/mL", "mg");
    SharedMassToken(PropofolProc, "mg/mL");
  }
  lemma CetaminaProcSound() ensures Sound(CetaminaProc) {
    FirstSegmentIs("mg/mL", "mg");
    SharedMassToken(CetaminaProc, "mg/mL");
  }
  lemma KetofolSound() ensures Sound(Ketofol) {
    SharedMassToken(Ketofol, "mg/mL");
  }
  lemma KetodexSound() ensures Sound(Ketodex) {
    SharedMassToken(Ketodex, "ml/ml");
  }
  lemma FentanilIotSound() ensures Sound(FentanilIot) {
    FirstSegmentIs("mcg/mL", "mcg");
    SharedMassToken(FentanilIot, "mcg/mL");
  }
  lemma LidocainaIotSound() ensures Sound(LidocainaIot) {
    FirstSegmentIs("mg/mL", "mg");
    SharedMassToken(LidocainaIot, "mg/mL");
  }
  lemma MidazolamIotSound() ensures Sound(MidazolamIot) {
    FirstSegmentIs("mg/mL", "mg");
    SharedMassToken(MidazolamIot, "mg/mL");
  }
  lemma EtomidatoSound() ensures Sound(Etomidato) {
    FirstSegmentIs("mg/mL", "mg");
    SharedMassToken(Etomidato, "mg/mL");
  }
  lemma CetaminaIotSound() ensures Sound(CetaminaIot) {
    FirstSegmentIs("mg/mL", "mg");
    SharedMassToken(CetaminaIot, "mg/mL");
  }
  lemma PropofolIotSound() ensures Sound(PropofolIot) {
    FirstSegmentIs("mg/mL", "mg");
    SharedMassToken(PropofolIot, "mg/mL");
  }
  lemma SuccinilcolinaSound() ensures Sound(Succinilcolina) {
    FirstSegmentIs("mg/mL", "mg");
    SharedMassToken(Succinilcolina, "mg/mL");
  }
  lemma RocuronioIotSound() ensures Sound(RocuronioIot) {
    FirstSegmentIs("mg/mL", "mg");
    SharedMassToken(RocuronioIot, "mg/mL");
  }

  lemma VasopressorsSound()
    ensures forall d :: d in VASOPRESSORS ==> Sound(d)
  {
    NoradrenalinaSound();
    DopaminaSound();
    AdrenalinaSound();
    VasopressinaSound();
  }

  lemma InotropesSound()
    ensures forall d :: d in INOTROPES ==> Sound(d)
  {
    DobutaminaSound();
    MilrinoneSound();
    LevosimendanaSound();
  }

  lemma VasodilatorsSound()
    ensures forall d :: d in VASODILATORS ==> Sound(d)
  {
    NitroglicerinaSound();
    NitroprussiatoSound();
  }

  lemma ContinuousSedationSound()
    ensures forall d :: d in CONTINUOUS_SEDATION ==> Sound(d)
  {
    MidazolamSound();
    PropofolSound();
    QuetaminaSound();
    DexmedetomidinaSound();
    FentanilSound();
  }

  lemma NeuromuscularBlockersSound()
    ensures forall d :: d in NEUROMUSCULAR_BLOCKERS ==> Sound(d)
  {
    RocuronioSound();
  }

  lemma ProceduralSedationSound()
    ensures forall d :: d in PROCEDURAL_SEDATION ==> Sound(d)
  {
    PropofolProcSound();
    CetaminaProcSound();
    KetofolSound();
    KetodexSound();
  }

  lemma IntubationDrugsSound()
    ensures forall d :: d in INTUBATION_DRUGS ==> Sound(d)
  {
    FentanilIotSound();
    LidocainaIotSound();
    MidazolamIotSound();
    EtomidatoSound();
    CetaminaIotSound();
    PropofolIotSound();
    SuccinilcolinaSound();
    RocuronioIotSound();
  }

  lemma AllDrugsSound()
    ensures forall d :: d in DRUGS ==> Sound(d)
  {
    VasopressorsSound();
    InotropesSound();
    VasodilatorsSound();
    ContinuousSedationSound();
    NeuromuscularBlockersSound();
    ProceduralSedationSound();
    IntubationDrugsSound();
  }

  lemma VasopressorUnitsListed()
    ensures forall d, x :: d in VASOPRESSORS && x in d.dilutions ==> ListedUnit(x)
  {
  }

  lemma InotropeUnitsListed()
    ensures forall d, x :: d in INOTROPES && x in d.dilutions ==> ListedUnit(x)
  {
  }

  lemma VasodilatorUnitsListed()
    ensures forall d, x :: d in VASODILATORS && x in d.dilutions ==> ListedUnit(x)
  {
  }

  lemma ContinuousSedationUnitsListed()
    ensures forall d, x :: d in CONTINUOUS_SEDATION && x in d.dilutions ==> ListedUnit(x)
  {
  }

  lemma NeuromuscularBlockerUnitsListed()
    ensures forall d, x :: d in NEUROMUSCULAR_BLOCKERS && x in d.dilutions ==> ListedUnit(x)
  {
  }

  lemma ProceduralSedationUnitsListed()
    ensures forall d, x :: d in PROCEDURAL_SEDATION && x in d.dilutions ==> ListedUnit(x)
  {
  }

  lemma IntubationDrugUnitsListed()
    ensures forall d, x :: d in INTUBATION_DRUGS && x in d.dilutions ==> ListedUnit(x)
  {
  }

  /** Every dilution of the formulary is in one of the four listed units. */
  lemma FormularyUnitsListed()
    ensures forall d, x :: d in DRUGS && x in d.dilutions ==> ListedUnit(x)
  {
    VasopressorUnitsListed();
    InotropeUnitsListed();
    VasodilatorUnitsListed();
    ContinuousSedationUnitsListed();
    NeuromuscularBlockerUnitsListed();
    ProceduralSedationUnitsListed();
    IntubationDrugUnitsListed();
  }

  /** A listed unit leads with one of the four tokens mcg, mg, U and ml. */
  lemma ListedUnitToken(x: Dilution)
    requires ListedUnit(x)
    ensures ConcentrationToken(x) in {"mcg", "mg", "U", "ml"}
  {
    ConcentrationUnitTokens();
  }

  /** Every dilution of the formulary leads its concentration unit with one
      of the four tokens mcg, mg, U and ml. */
  lemma FormularyConcentrationTokens()
    ensures forall d, x :: d in DRUGS && x in d.dilutions ==> ConcentrationToken(x) in {"mcg", "mg", "U", "ml"}
  {
    FormularyUnitsListed();
    forall d, x | d in DRUGS && x in d.dilutions
      ensures ConcentrationToken(x) in {"mcg", "mg", "U", "ml"}
    {
      ListedUnitToken(x);
    }
  }

  /** No two drugs of the table share an id. */
  lemma DrugIdsUnique()
    ensures forall i, j :: 0 <= i < j < |DRUGS| ==> DRUGS[i].id != DRUGS[j].id
  {
    IdsApart0();
    IdsApart1();
    IdsApart2();
    IdsApart3();
  }

  lemma IdsApart0()
    ensures forall i, j :: 0 <= i < 4 && i < j < |DRUGS| ==> DRUGS[i].id != DRUGS[j].id
  {
  }

  lemma IdsApart1()
    ensures forall i, j :: 4 <= i < 9 && i < j < |DRUGS| ==> DRUGS[i].id != DRUGS[j].id
  {
  }

  lemma IdsApart2()
    ensures forall i, j :: 9 <= i < 15 && i < j < |DRUGS| ==> DRUGS[i].id != DRUGS[j].id
  {
  }

  lemma IdsApart3()
    ensures forall i, j :: 15 <= i < 27 && i < j < |DRUGS| ==> DRUGS[i].id != DRUGS[j].id
  {
  }

  /** Continuous propofol is the one entry whose dose (micrograms) and
      dilution (milligrams) are measured in different mass units. */
  lemma PropofolCrossesMassUnits()
    ensures Propofol in DRUGS && Propofol.defaultDoseUnit.Numerator() == "mcg"
    ensures forall x :: x in Propofol.dilutions ==> ConcentrationToken(x) == "mg"
  {
    ConcentrationUnitTokens();
    assert Propofol in CONTINUOUS_SEDATION;
    assert ConcentrationToken(Propofol.dilutions[0]) == "mg";
    assert ConcentrationToken(Propofol.dilutions[1]) == "mg";
  }

  /** Every category lists at least one drug, so a category switch always
      has a first drug to fall back to. */
  lemma EveryCategoryStocked(c: Category)
    ensures exists d :: d in DRUGS && d.category == c
  {
    match c
    case Vasopressors => assert Noradrenalina in DRUGS;
    case Inotropes => assert Dobutamina in DRUGS;
    case Vasodilators => assert Nitroglicerina in DRUGS;
    case ContinuousSedation => assert Midazolam in DRUGS;
    case NeuromuscularBlockers => assert Rocuronio in DRUGS;
    case ProceduralSedation => assert PropofolProc in DRUGS;
    case IntubationDrugs => assert FentanilIot in DRUGS;
  }
}
