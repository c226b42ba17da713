/**
  Inputs worked through the calculation: the children and alimony lists of the sample
  record in `proba.py` ("2,3" and "25,50"), a rate the validator accepts but the alimony
  table does not know (70), and a list of repeated rates whose shares add up to more than
  the whole net pay.
 */
module Scenario {
  import opened Wrappers
  import opened Text
  import opened Sorting
  import opened Rounding
  import opened Constants
  import opened Validators
  import opened ValidatorExamples
  import opened Models
  import opened Calculation

  /** The children "2,3" are read as the numbers 2 and 3. */
  lemma ChildNumbersTwoThree()
    ensures ChildNumbers(Split("2,3", ',')) == [2, 3]
  {
    SplitPair("2", "3");
    assert "2" + "," + "3" == "2,3";
    OneDigit('2'); OneDigit('3');
    assert ["2", "3"][1..] == ["3"] && ["3"][1..] == [];
  }

  /**
    The sample record's children "2,3": 2800 + 6000 roubles, of which the 13% income tax
    rate gives a deduction of 1144.00.
   */
  lemma SampleChildDeduction(d: SalaryData, t: Tables)
    requires d.children == "2,3" && t.factors.incomeTaxPercent == 13.0
    ensures DeductionBase(ChildNumbers(Split(d.children, ','))) == 8800
    ensures ChildDeduction(d, t) == 114400
  {
    ChildNumbersTwoThree();
    assert CountFromFourth([2, 3]) == 0 by {
      assert [2, 3][..1] == [2] && [2][..0] == [];
    }
    assert Amount(100 * 8800) * 13.0 / 100.0 == Amount(114400);
    RoundWholeCents(114400);
  }

  /** "25,50" splits into two parts. */
  lemma SplitTwentyFiveFifty()
    ensures Split("25,50", ',') == ["25", "50"]
  {
    SplitPair("25", "50");
    assert "25" + "," + "50" == "25,50";
  }

  /** The sample record's alimony "25,50": a quarter and a half, three quarters of the net pay. */
  lemma SampleAlimonyShare()
    ensures AlimonyShare(Split("25,50", ',')) == 0.75
  {
    SplitTwentyFiveFifty();
    TwoDigits('2', '5'); TwoDigits('5', '0');
    assert ["25", "50"][..1] == ["25"] && ["25"][..0] == [];
  }

  /** 70% passes the alimony check. */
  lemma SeventyAccepted()
    ensures AlimonyOutcome("70") == Ok("70")
  {
    TwoDigits('7', '0');
    SplitNoSep("70", ',');
    assert ["70"][1..] == [] && [] + [70] == [70];
    SortSorted([70]);
    assert NatToString(70) == NatToString(7) + [DigitChar(0)] == "70";
    assert NatStrings([70]) == ["70"];
  }

  /** 70% is not in the rate table, so it takes no share. */
  lemma SeventyShare()
    ensures AlimonyShare(Split("70", ',')) == 0.0
  {
    TwoDigits('7', '0');
    SplitNoSep("70", ',');
    assert ["70"][..0] == [];
  }

  /** 70% passes the alimony check but is not in the rate table, so it takes nothing. */
  lemma AcceptedRateWithoutShare()
    ensures AlimonyOutcome("70") == Ok("70")
    ensures AlimonyShare(Split("70", ',')) == 0.0
  {
    SeventyAccepted();
    SeventyShare();
  }

  /** "50,50,50" splits into three equal parts. */
  lemma SplitThreeFifties()
    ensures Split("50,50,50", ',') == ["50", "50", "50"]
  {
    SplitTriple("50", "50", "50");
    assert "50" + "," + ("50" + "," + "50") == "50,50,50";
  }

  /** The alimony check allows a rate more than once. */
  lemma ThreeFiftiesAccepted()
    ensures ScanAlimony(["50", "50", "50"], []) == Ok([50, 50, 50])
  {
    TwoDigits('5', '0');
    assert ScanAlimony(["50"], [50, 50]) == Ok([50, 50, 50]) by {
      assert ["50"][1..] == [] && [50, 50] + [50] == [50, 50, 50];
    }
    assert ScanAlimony(["50", "50"], [50]) == Ok([50, 50, 50]) by {
      assert ["50", "50"][1..] == ["50"] && [50] + [50] == [50, 50];
    }
    assert ["50", "50", "50"][1..] == ["50", "50"] && [] + [50] == [50];
  }

  lemma ThreeFiftiesShare()
    ensures AlimonyShare(["50", "50", "50"]) == 1.5
  {
    TwoDigits('5', '0');
    assert PartShare("50") == 0.5;
    assert AlimonyShare(["50"]) == 0.5 by {
      assert ["50"][..0] == [];
    }
    assert AlimonyShare(["50", "50"]) == 1.0 by {
      assert ["50", "50"][..1] == ["50"];
    }
    assert ["50", "50", "50"][..2] == ["50", "50"];
  }

  /**
    The shares are added without a cap: "50,50,50" passes the first loop of the check and
    asks for one and a half times what is left after tax.
   */
  lemma SharesAboveWhole()
    ensures ScanAlimony(Split("50,50,50", ','), []).Ok?
    ensures AlimonyShare(Split("50,50,50", ',')) == 1.5
  {
    SplitThreeFifties();
    ThreeFiftiesAccepted();
    ThreeFiftiesShare();
  }
}
