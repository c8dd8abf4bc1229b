# Infusion calculator — a verified model

This project models the core of the medcalc infusion calculator. Given a drug from the built-in formulary, one of its dilutions, the patient's weight and a typed number, the calculator converts:

- a prescribed dose into a pump rate (mL/h), or into the volume to draw up (mL) for a bolus drug;
- a pump rate or volume back into the delivered dose.

The model covers:

- the dose units and drug records (`types.ts`);
- the 27-drug formulary (`data/drugs.ts`);
- the calculation and the selection state of the calculator component (`components/Calculator.tsx`).

Modules:

- `Wrappers`: `Option`.
- `Strings`: the parts of JavaScript string handling the component relies on:
  - `split('/')[0]`;
  - `includes`;
  - `replace(',', '.')`;
  - `parseFloat`, as a parser for a leading decimal numeral.
- `Lists`: `Array.find` and `Array.filter`.
- `Types`: the categories and the dose units with their display strings.
- `Drugs`: every formulary entry as a value, and the facts the calculator relies on:
  - each drug has a dilution;
  - concentrations are positive;
  - ids are unique;
  - ml/kg doses are given as a bolus;
  - every category holds a drug.
- `Engine`: the pure calculation.
  - JavaScript numbers are `Num = Finite(real) | NonFinite`, so a division by zero or an unreadable weight yields `NonFinite`, as `NaN`/`Infinity` do in the component.
  - Mass normalisation, the three formulas and the rejection rules come straight from the component.
  - The proved properties:
    - dose → rate → dose and rate → dose → rate are exact round trips;
    - every formulary reading keeps the sign of the input;
    - the unit shown beside the input field is the unit of the opposite conversion.
- `Scenarios`: worked examples computed end to end from the typed text (noradrenaline, propofol for intubation, ketofol).
- `Selection`: the component's state (category, drug id, dilution id, weight text, mode, input text) and its two synchronising effects.
  - `Effects` runs both effects against one rendered snapshot; `Settle` is two rounds of them.
  - Proved: settling always reaches a consistent state, is idempotent, and lands on a drug of the chosen category and one of that drug's dilutions.
  - Editing the weight, the mode or the input never disturbs a consistent selection.
  - The `Calculator` class holds the state in fields. Its event handlers are methods that assign a field and then run the effects to their fixed point.

Details of the component's code that the model follows:

- `replace(',', '.')` changes only the first comma.
- `parseFloat` reads the longest leading numeral and ignores what follows.
- The selected drug is looked up in the whole formulary, not only in the current category. The drug-sync effect then moves the id back into the category.
- Both effects read the same render, so a category change needs a second round before the dilution matches the new drug.

## Model

| member | source | states |
|---|---|---|
| Strings.FirstSegment | components/Calculator.tsx:93-94 | the leading token is a prefix free of '/' and ends at the first '/' (or the end) |
| Strings.FirstSegmentIs | components/Calculator.tsx:93-94 | a slash-free prefix followed by '/' is exactly the leading token |
| Strings.IncludesIff | components/Calculator.tsx:113 | `includes` holds exactly when the fragment occurs at some position |
| Strings.StartsWithIsPrefix | components/Calculator.tsx:113 | `startsWith` holds exactly when the fragment is a prefix |
| Strings.IncludesAt | components/Calculator.tsx:113 | a fragment found at some position makes `includes` true |
| Strings.Includes | components/Calculator.tsx:113 | `String.prototype.includes`; its meaning is stated by Strings.IncludesIff and Strings.IncludesAt |
| Strings.SlashNotFollowedBy | components/Calculator.tsx:113 | a fragment "/x…" is absent when no slash of the text is followed by x |
| Strings.ReplaceFirst | components/Calculator.tsx:78-79 | the length is unchanged, and text with no comma is unchanged |
| Strings.ReplaceFirstAt | components/Calculator.tsx:78-79 | only the first occurrence is replaced; everything before and after it is kept |
| Strings.TrimStart | components/Calculator.tsx:78 | leading whitespace is skipped: the result is a suffix, only spaces were dropped, and it does not start with a space |
| Strings.WholePart | components/Calculator.tsx:78 | reading more digits never lowers the value read so far |
| Strings.FractionPart | components/Calculator.tsx:78 | fraction digits never lower the whole part |
| Strings.ParseDecimal | components/Calculator.tsx:78 | an unsigned numeral reads as a non-negative number |
| Strings.WholePartDefined | components/Calculator.tsx:81 | the integer part yields a number iff a digit was seen or a numeral starts here |
| Strings.FractionPartDefined | components/Calculator.tsx:81 | the fraction yields a number iff a digit was already seen or one follows the point |
| Strings.ParseFloatDefined | components/Calculator.tsx:78-81 | `parseFloat` is not NaN iff, after whitespace and an optional sign, a numeral starts |
| Strings.ParseFloatNegative | components/Calculator.tsx:78 | a leading '-' negates the unsigned reading and is NaN exactly when that is |
| Strings.WholePartThroughDigits | components/Calculator.tsx:78 | reading a run of digits shifts the accumulator one place per digit and adds the run's positional value |
| Strings.Fraction | components/Calculator.tsx:78 | a whole part plus a fraction of non-negative digits is at least the whole part |
| Strings.FractionPartOfDigits | components/Calculator.tsx:78 | fraction digits extend the numerator and the denominator by one decimal place each |
| Strings.WholePartReachesPoint | components/Calculator.tsx:78 | digits followed by a point hand their value to the fraction reader |
| Strings.ParseFloatOfUnsigned | components/Calculator.tsx:78 | text starting with a digit is read by the unsigned numeral reader alone |
| Strings.ParseFloatOfDigits | components/Calculator.tsx:78 | a plain digit string reads as its positional (base-ten) value |
| Strings.ParseFloatOfDecimal | components/Calculator.tsx:78 | "a.b" reads as a + b / 10^len(b), the decimal it spells |
| Strings.ParseFloat | components/Calculator.tsx:78 | `parseFloat`; its meaning is stated by Strings.ParseFloatDefined, Strings.ParseFloatNegative, Strings.ParseFloatOfDigits and Strings.ParseFloatOfDecimal |
| Lists.Find | components/Calculator.tsx:42 | `find` is undefined iff no element passes; otherwise it is the first element that passes |
| Lists.Filter | components/Calculator.tsx:38 | `filter` keeps exactly the passing elements and never grows the list |
| Lists.FilterHeadIsFind | components/Calculator.tsx:51-54 | the first element of `filter` is what `find` returns, and the filter is empty iff `find` finds nothing |
| Lists.FilterHeadIsFirst | components/Calculator.tsx:44-45 | the head of a filtered list is the earliest element of the list that passes |
| Types.IsBolus | types.ts:42 | a drug with no bolus flag is not a bolus drug |
| Types.CategoryLabelsDistinct | types.ts:2-10 | the seven category names are pairwise distinct |
| Types.DoseUnitTagsDistinct | types.ts:14-24 | the nine dose-unit strings are pairwise distinct |
| Types.PerMinuteTags | types.ts:15-20 | exactly mcg/kg/min, mcg/min and U/min contain "/min" |
| Types.LeadingTokenIsNumerator | types.ts:15-23 | each unit's text before the first '/' is its dosing quantity (mcg, mg, U or ml) |
| Types.BolusUnitsHaveNoTimeBase | types.ts:21-23 | the bolus units are exactly those with neither "/min" nor "/h" |
| Types.MinuteTagsIncludeMinute | types.ts:15-20 | the three per-minute unit strings contain "/min" |
| Types.HourTagsLackMinute | types.ts:15-20 | the three per-hour unit strings do not contain "/min" |
| Types.BolusTagsLackMinute | types.ts:21-23 | the three bolus unit strings do not contain "/min" |
| Types.HourTagsIncludeHour | types.ts:15-20 | the three per-hour unit strings contain "/h" |
| Types.BolusTagsLackHour | types.ts:21-23 | the three bolus unit strings do not contain "/h" |
| Drugs.AllDrugsSound | data/drugs.ts:3-501 | every entry has a dilution, positive concentrations, distinct dilution ids, bolus units only on bolus drugs, and compatible mass units |
| Drugs.VasopressorsSound | data/drugs.ts:6-81 | every vasopressor entry satisfies the formulary invariant |
| Drugs.InotropesSound | data/drugs.ts:84-137 | every inotrope entry satisfies the formulary invariant |
| Drugs.VasodilatorsSound | data/drugs.ts:140-171 | every vasodilator entry satisfies the formulary invariant |
| Drugs.ContinuousSedationSound | data/drugs.ts:174-272 | every continuous-sedation entry satisfies the formulary invariant |
| Drugs.NeuromuscularBlockersSound | data/drugs.ts:275-290 | the neuromuscular-blocker entry satisfies the formulary invariant |
| Drugs.ProceduralSedationSound | data/drugs.ts:293-362 | every procedural-sedation entry satisfies the formulary invariant |
| Drugs.IntubationDrugsSound | data/drugs.ts:365-500 | every intubation entry satisfies the formulary invariant |
| Drugs.ConcentrationUnitTokens | data/drugs.ts:3-501 | the four unit strings "mcg/mL", "mg/mL", "U/mL" and "ml/ml" lead with mcg, mg, U and ml |
| Drugs.ListedUnitToken | components/Calculator.tsx:94 | a dilution in one of the four unit strings has a leading token among mcg, mg, U and ml |
| Drugs.FormularyUnitsListed | data/drugs.ts:3-501 | every dilution in the formulary uses one of the four unit strings |
| Drugs.FormularyConcentrationTokens | data/drugs.ts:3-501 | every dilution in the formulary has a concentration unit led by mcg, mg, U or ml |
| Drugs.DrugIdsUnique | data/drugs.ts:3-501 | no two formulary entries share an id |
| Drugs.PropofolCrossesMassUnits | data/drugs.ts:196-218 | continuous propofol is dosed in micrograms while its dilutions are in milligrams |
| Drugs.EveryCategoryStocked | data/drugs.ts:3-501 | every category holds at least one drug |
| Drugs.DRUGS | data/drugs.ts:3-501 | the formulary; its properties are stated by Drugs.AllDrugsSound, Drugs.DrugIdsUnique, Drugs.EveryCategoryStocked and Drugs.FormularyConcentrationTokens |
| Engine.NormalizedConcentration | components/Calculator.tsx:88-97 | normalising keeps the concentration's sign: positive iff positive, zero iff zero |
| Engine.NormalizationConvertsMass | components/Calculator.tsx:92-96 | between mcg and mg, the concentration is re-expressed in the dose's mass unit (×1000 or ÷1000) |
| Engine.NormalizationKeepsOtherPairings | components/Calculator.tsx:88-97 | ml/kg doses and every other unit pairing use the concentration as given |
| Engine.PerMinute | components/Calculator.tsx:113 | the unit test `includes('/min')`; Types.PerMinuteTags states which units pass |
| Engine.ReadNumber | components/Calculator.tsx:78-79 | a field's number; stated by Engine.ReadsAsTyped, Engine.ReadsDigits, Engine.ReadsDecimal and Engine.ReadsDecimalComma |
| Engine.Calculate | components/Calculator.tsx:75-132 | the calculator's result; stated by Engine.CalculateDefinedIff, Engine.CalculateParsed and Engine.FormularyReadingsFiniteAndSigned |
| Engine.Convert | components/Calculator.tsx:98-131 | the conversion proper; stated by Engine.ConvertBranches, Engine.RoundTrip and Engine.FormularyRoundTrip |
| Engine.PumpRate | components/Calculator.tsx:111-117 | the pump rate; stated by Engine.ForwardContinuousRate and Engine.PumpRateKeepsSign |
| Engine.BolusVolume | components/Calculator.tsx:100-109 | the bolus volume; stated by Engine.ForwardBolusVolume and Engine.BolusVolumeKeepsSign |
| Engine.DeliveredDose | components/Calculator.tsx:120-131 | the delivered dose; stated by Engine.ReverseDose and Engine.DeliveredDoseKeepsSign |
| Engine.InputUnitLabel | components/Calculator.tsx:137-140 | the unit beside the input; Engine.InputUnitIsOppositeReadingUnit states it is the opposite mode's reading unit |
| Engine.CalculateDefinedIff | components/Calculator.tsx:76-82 | a reading exists iff: a drug and a dilution are selected; the input is non-empty and parses; and, for weight-based drugs, the weight parses and is positive |
| Engine.CalculateParsed | components/Calculator.tsx:76-84 | with readable input and a positive weight, the reading is the conversion of the parsed numbers |
| Engine.EmptyOrTextInputRejected | components/Calculator.tsx:76-81 | any empty input, or any input that does not read as a number, yields no reading; "" and "abc" are two such |
| Engine.LettersAreNoNumber | components/Calculator.tsx:78-81 | "abc" does not read as a number |
| Engine.ReadsAsTyped | components/Calculator.tsx:78 | text without a comma is read by `parseFloat` unchanged |
| Engine.DigitsHaveNoComma | components/Calculator.tsx:78 | digit strings hold no comma, so the replacement leaves them alone |
| Engine.ReadsDigits | components/Calculator.tsx:78-79 | a digit string in a field reads as its base-ten value |
| Engine.ReadsDecimal | components/Calculator.tsx:78-79 | "a.b" in a field reads as the decimal it spells |
| Engine.ReadsDecimalComma | components/Calculator.tsx:78-79 | "a,b" in a field reads exactly like "a.b" |
| Engine.ReadsZero | components/Calculator.tsx:76-78 | "0" is accepted as input (only the empty string is rejected) |
| Engine.ReadsNegative | components/Calculator.tsx:78-81 | a minus sign before any comma-free numeral negates its reading, so negative numbers are read, not rejected |
| Engine.ReadsMinusFive | components/Calculator.tsx:78-81 | "-5" reads as -5 |
| Engine.NonPositiveWeightRejected | components/Calculator.tsx:82 | for a weight-based drug, any weight that does not read as a number or reads as zero or less yields no reading; "0" and "-5" are two such |
| Engine.WeightIgnoredWhenNotWeightBased | components/Calculator.tsx:105-128 | for a drug that is not weight-based (and not ml/kg), the weight text does not affect the reading |
| Engine.VolumeDoseIgnoresConcentration | components/Calculator.tsx:99-125 | for bolus drugs, or in rate-to-dose mode, ml/kg readings do not depend on the dilution's concentration |
| Engine.ForwardContinuousRate | components/Calculator.tsx:111-117 | rate = dose × (60 if per-minute) × (weight if weight-based) ÷ concentration |
| Engine.ForwardBolusVolume | components/Calculator.tsx:100-109 | volume = dose × weight for ml/kg; otherwise dose × (weight if weight-based) ÷ concentration |
| Engine.ReverseDose | components/Calculator.tsx:120-131 | dose = volume ÷ weight for ml/kg; otherwise volume × concentration ÷ (weight) ÷ (60 for continuous per-minute) |
| Engine.ConvertBranches | components/Calculator.tsx:98-131 | dose-to-rate gives a bolus volume for bolus drugs and a pump rate otherwise; rate-to-dose gives the delivered dose in the drug's unit |
| Engine.VolumeDoseRoundTrip | components/Calculator.tsx:99-125 | ml/kg: volume → dose and dose → volume invert each other |
| Engine.MassBolusRoundTrip | components/Calculator.tsx:99-131 | mass boluses: dose → volume → dose gives the dose back |
| Engine.MassBolusRoundTripReverse | components/Calculator.tsx:99-131 | mass boluses: volume → dose → volume gives the volume back |
| Engine.ContinuousRoundTrip | components/Calculator.tsx:111-131 | continuous infusions: dose → rate → dose is exact |
| Engine.ContinuousRoundTripReverse | components/Calculator.tsx:111-131 | continuous infusions: rate → dose → rate is exact |
| Engine.ContinuousScales | components/Calculator.tsx:111-131 | a continuous drug's rate is the dose times one non-zero factor, and the dose is the rate divided by the same factor |
| Engine.RoundTrip | components/Calculator.tsx:99-131 | with a positive weight, a non-zero concentration, and ml/kg only on bolus drugs, both conversions invert each other |
| Engine.RoundTripNeedsVolumeDoseBolus | components/Calculator.tsx:99-125 | a continuous ml/kg drug would break the round trip: 1 ml/kg → 0.5 mL/h reads back as 0.5 |
| Engine.VolumeDoseContinuousBranches | components/Calculator.tsx:98-131 | a continuous ml/kg drug would take the pump-rate formula forward and the volume ÷ weight formula back, both with the concentration as written |
| Engine.PumpRateKeepsSign | components/Calculator.tsx:111-117 | the pump rate has the dose's sign and is finite |
| Engine.BolusVolumeKeepsSign | components/Calculator.tsx:100-109 | the bolus volume has the dose's sign and is finite |
| Engine.DeliveredDoseKeepsSign | components/Calculator.tsx:120-131 | the delivered dose has the rate's sign and is finite |
| Engine.WeightUnused | components/Calculator.tsx:105-128 | the formulas ignore the weight for drugs that are neither weight-based nor ml/kg |
| Engine.FormulasKeepSign | components/Calculator.tsx:99-131 | with a positive concentration and a usable weight where needed, all three formulas are finite and keep the input's sign |
| Engine.FormularyReadingsFiniteAndSigned | components/Calculator.tsx:75-132 | for every formulary drug and dilution, any reading is finite and has the input's sign |
| Engine.FormularyRoundTrip | components/Calculator.tsx:99-131 | for every formulary drug and dilution and any positive weight, the two modes invert each other exactly |
| Engine.InputUnitIsOppositeReadingUnit | components/Calculator.tsx:137-140 | the unit beside the input field is the unit the opposite mode reports |
| Scenarios.Reads70 | components/Calculator.tsx:79 | the default weight "70" reads as 70 |
| Scenarios.ReadsPointOne | components/Calculator.tsx:78 | "0.1" reads as 0.1 |
| Scenarios.ReadsCommaOne | components/Calculator.tsx:78 | "0,1" reads as 0.1 through the comma replacement |
| Scenarios.ReadsRate | components/Calculator.tsx:78 | "6.5625" reads as 6.5625 |
| Scenarios.Reads80 | components/Calculator.tsx:79 | "80" reads as 80 |
| Scenarios.Reads2 | components/Calculator.tsx:78 | "2" reads as 2 |
| Scenarios.Reads60 | components/Calculator.tsx:79 | "60" reads as 60 |
| Scenarios.ReadsPointZeroEight | components/Calculator.tsx:78 | "0.08" reads as 0.08 |
| Scenarios.NoradrenalinaConcentration | data/drugs.ts:6-27 | the standard noradrenaline dilution is 64 mcg/mL after normalisation |
| Scenarios.PropofolIntubationConcentration | data/drugs.ts:450-466 | intubation propofol stays 10 mg/mL (same mass unit) |
| Scenarios.NoradrenalinaRateFormula | components/Calculator.tsx:111-117 | the rate formula gives 6.5625 mL/h for 0.1 mcg/kg/min, 70 kg, 64 mcg/mL |
| Scenarios.NoradrenalinaDoseFormula | components/Calculator.tsx:120-131 | the dose formula gives 0.1 mcg/kg/min for 6.5625 mL/h, 70 kg, 64 mcg/mL |
| Scenarios.NoradrenalinaRate | components/Calculator.tsx:111-117 | 0.1 mcg/kg/min for 70 kg at 64 mcg/mL is 6.5625 mL/h |
| Scenarios.NoradrenalinaDose | components/Calculator.tsx:120-131 | 6.5625 mL/h reads back as 0.1 mcg/kg/min |
| Scenarios.DecimalCommaAccepted | components/Calculator.tsx:78 | typing "0,1" gives the same rate as "0.1" |
| Scenarios.PropofolIntubationVolume | components/Calculator.tsx:104-108 | 2 mg/kg for 80 kg at 10 mg/mL is 16 mL to draw up |
| Scenarios.KetofolVolume | components/Calculator.tsx:102-103 | 0.08 ml/kg for 60 kg is 4.8 mL, whatever the concentration |
| Selection.AvailableDrugs | components/Calculator.tsx:38 | the category's list holds exactly the formulary drugs of that category |
| Selection.FindDrug | components/Calculator.tsx:42 | the lookup returns a formulary drug with that id, and nothing iff no drug has it |
| Selection.FindDilution | components/Calculator.tsx:61 | the lookup returns one of the drug's dilutions with that id, and nothing iff none has it |
| Selection.DilutionSync | components/Calculator.tsx:59-67 | the dilution id is replaced exactly when the drug exists, the id names none of its dilutions and it has one; then it becomes the first dilution and the input is cleared, otherwise both are kept |
| Selection.SelectedDrug | components/Calculator.tsx:51-54 | the drug on screen; Selection.SelectionFromFormulary and Selection.SettledSelectionIsNamed state what it is |
| Selection.SelectedDilution | components/Calculator.tsx:69-72 | the dilution on screen; Selection.SelectionFromFormulary and Selection.SettledSelectionIsNamed state what it is |
| Selection.SyncedDrugId | components/Calculator.tsx:41-48 | the drug-sync effect; stated by Selection.SyncedDrugInCategory, Selection.SyncedDrugIdStableIff and Selection.SyncedDrugIsFirstOfCategory |
| Selection.FindDrugOfListed | components/Calculator.tsx:42 | looking up a listed drug's id finds that very drug |
| Selection.AvailableDrugsNonEmpty | components/Calculator.tsx:44-45 | every category's list is non-empty and its head belongs to the category |
| Selection.SyncedDrugInCategory | components/Calculator.tsx:41-48 | after the drug-sync effect the drug id names a drug of the current category |
| Selection.SyncedDrugIdStableIff | components/Calculator.tsx:41-48 | the drug-sync effect leaves the id alone iff it already names a drug of the category |
| Selection.AvailableHeadIsFirst | components/Calculator.tsx:44-45 | the head of a category's list is the first formulary drug filed under that category |
| Selection.SyncedDrugIsHead | components/Calculator.tsx:41-48 | a drug id outside the category becomes the id at the head of the category's list |
| Selection.SyncedDrugIsFirstOfCategory | components/Calculator.tsx:41-48 | a drug id outside the category becomes the id of the first formulary drug of the category |
| Selection.DilutionSyncSelects | components/Calculator.tsx:59-67 | after the dilution-sync effect the dilution id names one of the drug's dilutions |
| Selection.ListedDrugHasDilutions | data/drugs.ts:3-501 | every formulary drug offers at least one dilution |
| Selection.ConsistentIffFixedPoint | components/Calculator.tsx:41-67 | the effects change nothing iff the drug is in the category and the dilution belongs to it |
| Selection.Effects | components/Calculator.tsx:41-67 | one round of both effects; stated by Selection.ConsistentIffFixedPoint and Selection.EditingKeepsSelection |
| Selection.Settle | components/Calculator.tsx:41-67 | the effects' fixed point; stated by Selection.SettleConsistent and Selection.SettleIdempotent |
| Selection.SettleConsistent | components/Calculator.tsx:41-67 | two rounds of effects always reach a consistent state |
| Selection.SelectionFromFormulary | components/Calculator.tsx:51-72 | the selected drug always exists in the formulary and the selected dilution is one of its dilutions |
| Selection.SettleIdempotent | components/Calculator.tsx:41-67 | settling a settled state changes nothing |
| Selection.SettledSelectionIsNamed | components/Calculator.tsx:51-72 | in a consistent state the fallbacks are unused: the ids name the selected drug and dilution |
| Selection.EditingKeepsSelection | components/Calculator.tsx:41-67 | changing weight, mode or input leaves a consistent selection untouched |
| Selection.ChoosingDrugOfCategory | components/Calculator.tsx:180 | choosing a drug of the category keeps it; a shared dilution and the input are kept, otherwise the first dilution is chosen and the input cleared |
| Selection.SettleAfterChoosing | components/Calculator.tsx:41-67 | after picking a drug of the category, settling only re-syncs the dilution |
| Selection.InitialSettles | components/Calculator.tsx:30-35 | the first render settles on noradrenaline, its standard dilution, 70 kg, dose-to-rate, empty input |
| Selection.Calculator.Result | components/Calculator.tsx:75-132 | a displayed result requires a readable input and has the input's sign |
| Selection.Calculator.TargetUnitLabel | components/Calculator.tsx:137-140 | the unit beside the input for the selected drug; Engine.InputUnitIsOppositeReadingUnit states its meaning |
| Selection.Calculator.constructor | components/Calculator.tsx:30-35 | the initial state, settled and consistent |
| Selection.Calculator.SyncDrug | components/Calculator.tsx:41-48 | only the drug id changes, and it ends in the category |
| Selection.Calculator.SyncDilution | components/Calculator.tsx:59-67 | only dilution and input change, and the dilution ends among the drug's |
| Selection.Calculator.RunEffects | components/Calculator.tsx:41-67 | one render's effects, both computed from the state before them |
| Selection.Calculator.Reconcile | components/Calculator.tsx:41-67 | the effects run to their fixed point, leaving a consistent state |
| Selection.Calculator.ChooseCategory | components/Calculator.tsx:135 | the category is set and the selection is re-settled consistently |
| Selection.Calculator.ChooseDrug | components/Calculator.tsx:180 | the drug id is set and the selection is re-settled consistently |
| Selection.Calculator.ChooseDilution | components/Calculator.tsx:196 | the dilution id is set and the selection is re-settled consistently |
| Selection.Calculator.ChooseMode | components/Calculator.tsx:231 | the mode is set; a consistent selection is otherwise unchanged |
| Selection.Calculator.EditWeight | components/Calculator.tsx:263 | the weight text is set; a consistent selection is otherwise unchanged |
| Selection.Calculator.EditInput | components/Calculator.tsx:282 | the input text is set; a consistent selection is otherwise unchanged |

## Left out

- Floating point: the model computes over exact reals.
  - IEEE-754 rounding is not modelled, so the round trips are exact here, where in the browser they hold only up to rounding.
  - `NaN` and `Infinity` are one value, `NonFinite`.
- Strings.ParseFloat accepts the numerals the calculator's fields produce: leading ASCII whitespace (space, tab, LF, VT, FF and CR), an optional sign, digits with at most one point. Exponents, "Infinity" and the non-ASCII whitespace `parseFloat` also skips (no-break space, the byte-order mark, the Unicode space separators, and the line and paragraph separators) are not modelled.
- Display formatting of the result (`toLocaleString('pt-BR')` with two fraction digits, components/Calculator.tsx:304) is left out. It changes only how the number is shown.
- The JSX markup, the icons and the category short names (components/Calculator.tsx:6-26 and 142-318) are presentation only. The "loading" placeholder at line 142 cannot appear, because every category holds a drug (Drugs.EveryCategoryStocked).
- The dilution field `description` and the drug fields `doseRangeDisplay` and `notes` are display text and are not modelled.
- App.tsx and components/Header.tsx are not part of this model.
- React's scheduling is left out. Effects are modelled as rounds that each read one rendered state, run to the fixed point that React would reach by re-rendering. Memoisation is not modelled: it does not change any value.
- Selection.Calculator.SyncDrug assigns the effect's decision (`SyncedDrugId`) in one step, instead of spelling out the lookup and the conditional. The new state is the same.
- Selection.Calculator.Result states only that a reading needs a readable input and keeps its sign. Its value is `Engine.Calculate` of the selection, and the formulas are proved in Engine.
- Engine.RoundTrip requires ml/kg doses to be boluses. A continuous ml/kg drug's forward rate divides by the dilution's concentration, which the ml/kg reverse branch (dose = volume ÷ weight) never multiplies back (Engine.RoundTripNeedsVolumeDoseBolus). The formulary has no such drug (Drugs.AllDrugsSound).
