/** Worked cases of the calculator on the formulary, each carried from the
    text fields through parsing, the guards and the formula to the reading
    the screen shows. */
module Scenarios {
  import opened Wrappers
  import opened Strings
  import opened Types
  import opened Drugs
  import opened Engine

  lemma Reads70()
    ensures ReadNumber("70") == Some(70.0)
  {
    assert "70"[1..] == "0";
    assert DigitsValue("70") == 70 by {
      assert DigitsValue("0") == 0;
    }
    ReadsDigits("70");
  }

  lemma ReadsPointOne()
    ensures ReadNumber("0.1") == Some(0.1)
  {
    assert "0.1" == "0" + ['.'] + "1";
    assert DigitsValue("0") == 0 && DigitsValue("1") == 1;
    assert Pow10(1) == 10;
    ReadsDecimal("0", "1");
    assert Fraction(0, 1, 10) == 0.1;
  }

  lemma ReadsCommaOne()
    ensures ReadNumber("0,1") == Some(0.1)
  {
    assert "0,1" == "0" + [','] + "1";
    ReadsDecimalComma("0", "1");
    ReadsPointOne();
  }

  lemma ReadsRate()
    ensures ReadNumber("6.5625") == Some(6.5625)
  {
    assert "6.5625" == "6" + ['.'] + "5625";
    assert DigitsValue("5625") == 5625 by {
      assert "5625"[1..] == "625" && "625"[1..] == "25" && "25"[1..] == "5";
      assert DigitsValue("5") == 5;
      assert DigitsValue("25") == 25;
      assert DigitsValue("625") == 625;
    }
    assert Pow10(4) == 10000 by {
      assert Pow10(2) == 100;
    }
    assert DigitsValue("6") == 6;
    ReadsDecimal("6", "5625");
    assert Fraction(6, 5625, 10000) == 6.5625;
  }

  lemma Reads80()
    ensures ReadNumber("80") == Some(80.0)
  {
    assert "80"[1..] == "0";
    assert DigitsValue("80") == 80 by {
      assert DigitsValue("0") == 0;
    }
    ReadsDigits("80");
  }

  lemma Reads2()
    ensures ReadNumber("2") == Some(2.0)
  {
    ReadsDigits("2");
  }

  lemma Reads60()
    ensures ReadNumber("60") == Some(60.0)
  {
    assert "60"[1..] == "0";
    assert DigitsValue("60") == 60 by {
      assert DigitsValue("0") == 0;
    }
    ReadsDigits("60");
  }

  lemma ReadsPointZeroEight()
    ensures ReadNumber("0.08") == Some(0.08)
  {
    assert "0.08" == "0" + ['.'] + "08";
    assert DigitsValue("08") == 8 by {
      assert "08"[1..] == "8";
      assert DigitsValue("8") == 8;
    }
    assert DigitsValue("0") == 0;
    assert Pow10(2) == 100;
    ReadsDecimal("0", "08");
    assert Fraction(0, 8, 100) == 0.08;
  }

  lemma NoradrenalinaConcentration()
    ensures NormalizedConcentration(McgKgMin, Noradrenalina.dilutions[0]) == 64.0
  {
    assert FirstSegment("mcg/mL") == "mcg";
    NormalizationKeepsOtherPairings(McgKgMin, Noradrenalina.dilutions[0]);
  }

  lemma PropofolIntubationConcentration()
    ensures NormalizedConcentration(MgKg, PropofolIot.dilutions[0]) == 10.0
  {
    assert FirstSegment("mg/mL") == "mg";
    NormalizationKeepsOtherPairings(MgKg, PropofolIot.dilutions[0]);
  }

  /** Noradrenalina, 64 mcg/mL, 70 kg, 0.1 mcg/kg/min: 0.1 x 60 x 70 = 420
      mcg/h, and 420 / 64 = 6.5625 mL/h. */
  lemma NoradrenalinaRateFormula()
    ensures Convert(Noradrenalina, Noradrenalina.dilutions[0], Finite(70.0), DoseToRate, 0.1)
         == Reading(Finite(6.5625), "mL/h", "Vazão da Bomba")
  {
    var dil := Noradrenalina.dilutions[0];
    PerMinuteTags(McgKgMin);
    NoradrenalinaConcentration();
    assert !IsBolus(Noradrenalina);
    ForwardContinuousRate(Noradrenalina, true, 64.0, 70.0, 0.1);
    assert 0.1 * 60.0 * 70.0 / 64.0 == 6.5625;
    assert PumpRate(Noradrenalina, true, 64.0, Finite(70.0), 0.1) == Finite(6.5625);
  }

  /** The whole calculation, from the two text fields to the reading. */
  lemma NoradrenalinaRate()
    ensures Calculate(Some(Noradrenalina), Some(Noradrenalina.dilutions[0]), "70", DoseToRate, "0.1")
         == Some(Reading(Finite(6.5625), "mL/h", "Vazão da Bomba"))
  {
    Reads70();
    ReadsPointOne();
    CalculateParsed(Noradrenalina, Noradrenalina.dilutions[0], "70", DoseToRate, "0.1", 70.0, 0.1);
    NoradrenalinaRateFormula();
  }

  /** The same setup read backwards: 6.5625 mL/h is 0.1 mcg/kg/min. */
  lemma NoradrenalinaDoseFormula()
    ensures Convert(Noradrenalina, Noradrenalina.dilutions[0], Finite(70.0), RateToDose, 6.5625)
         == Reading(Finite(0.1), "mcg/kg/min", "Dose Administrada")
  {
    var dil := Noradrenalina.dilutions[0];
    PerMinuteTags(McgKgMin);
    NoradrenalinaConcentration();
    ConvertBranches(Noradrenalina, dil, Finite(70.0), 6.5625);
    ReverseDose(Noradrenalina, true, 64.0, 70.0, 6.5625);
    assert 6.5625 * 64.0 / 70.0 / 60.0 == 0.1;
  }

  lemma NoradrenalinaDose()
    ensures Calculate(Some(Noradrenalina), Some(Noradrenalina.dilutions[0]), "70", RateToDose, "6.5625")
         == Some(Reading(Finite(0.1), "mcg/kg/min", "Dose Administrada"))
  {
    Reads70();
    ReadsRate();
    CalculateParsed(Noradrenalina, Noradrenalina.dilutions[0], "70", RateToDose, "6.5625", 70.0, 6.5625);
    NoradrenalinaDoseFormula();
  }

  /** A decimal comma is read as a point: "0,1" gives the same rate as "0.1". */
  lemma DecimalCommaAccepted()
    ensures Calculate(Some(Noradrenalina), Some(Noradrenalina.dilutions[0]), "70", DoseToRate, "0,1")
         == Some(Reading(Finite(6.5625), "mL/h", "Vazão da Bomba"))
  {
    ReadsCommaOne();
    ReadsPointOne();
    NoradrenalinaRate();
  }

  /** Propofol for intubation, 10 mg/mL, 80 kg, 2 mg/kg: 160 mg, so 16 mL. */
  lemma PropofolIntubationVolume()
    ensures Calculate(Some(PropofolIot), Some(PropofolIot.dilutions[0]), "80", DoseToRate, "2")
         == Some(Reading(Finite(16.0), "mL", "Volume a Aspirar"))
  {
    var dil := PropofolIot.dilutions[0];
    Reads80();
    Reads2();
    PropofolIntubationConcentration();
    CalculateParsed(PropofolIot, dil, "80", DoseToRate, "2", 80.0, 2.0);
    ConvertBranches(PropofolIot, dil, Finite(80.0), 2.0);
    ForwardBolusVolume(PropofolIot, 10.0, 80.0, 2.0);
  }

  /** Ketofol, dosed in mL/kg, 60 kg, 0.08 mL/kg: 4.8 mL, whatever the
      listed concentration. */
  lemma KetofolVolume()
    ensures Calculate(Some(Ketofol), Some(Ketofol.dilutions[0]), "60", DoseToRate, "0.08")
         == Some(Reading(Finite(4.8), "mL", "Volume a Aspirar"))
  {
    var dil := Ketofol.dilutions[0];
    Reads60();
    ReadsPointZeroEight();
    ConvertBranches(Ketofol, dil, Finite(60.0), 0.08);
    ForwardBolusVolume(Ketofol, NormalizedConcentration(MlKg, dil), 60.0, 0.08);
  }
}
