/**
  Concrete inputs of `validate_children` and `validate_alimony`, worked through to the
  error they raise or the canonical text they pass on. Each example is assembled from
  small steps (the split, the loop over the parts, the sort, the join) proved one by one.
 */
module ValidatorExamples {
  import opened Wrappers
  import opened Text
  import opened Sorting
  import opened Validators
  import opened ValidatorProperties

  /** A one-digit part is its own strip and reads as its digit. */
  lemma OneDigit(c: char)
    requires IsDigit(c)
    ensures Strip([c]) == [c] && IsDigits([c]) && DigitsValue([c]) == DigitValue(c)
  {
    StripDigits([c]);
    assert [c][..0] == [];
  }

  /** A two-digit part is its own strip and reads as its two digits. */
  lemma TwoDigits(c: char, d: char)
    requires IsDigit(c) && IsDigit(d)
    ensures Strip([c, d]) == [c, d] && IsDigits([c, d]) && DigitsValue([c, d]) == 10 * DigitValue(c) + DigitValue(d)
  {
    StripDigits([c, d]);
    assert [c, d][..1] == [c];
    OneDigit(c);
  }

  /** Splitting `a,b` and `a,b,c` on commas, for parts without commas. */
  lemma SplitPair(a: string, b: string)
    requires ',' !in a && ',' !in b
    ensures Split(a + "," + b, ',') == [a, b]
  {
    assert Join([a, b], ',') == a + "," + b;
    SplitJoin([a, b], ',');
  }

  lemma SplitTriple(a: string, b: string, c: string)
    requires ',' !in a && ',' !in b && ',' !in c
    ensures Split(a + "," + (b + "," + c), ',') == [a, b, c]
  {
    assert [a, b, c][1..] == [b, c];
    assert Join([b, c], ',') == b + "," + c;
    assert Join([a, b, c], ',') == a + "," + (b + "," + c);
    SplitJoin([a, b, c], ',');
  }

  // ---------------------------------------------------------------------------
  // "3,2,1" and "1,2,3"

  lemma ScanThreeTwoOne()
    ensures ScanChildren(["3", "2", "1"], []) == Ok([3, 2, 1])
  {
    OneDigit('3'); OneDigit('2'); OneDigit('1');
    assert ScanChildren(["1"], [3, 2]) == Ok([3, 2, 1]) by {
      assert ["1"][1..] == [] && [3, 2] + [1] == [3, 2, 1];
    }
    assert ScanChildren(["2", "1"], [3]) == Ok([3, 2, 1]) by {
      assert ["2", "1"][1..] == ["1"] && [3] + [2] == [3, 2];
    }
    assert ["3", "2", "1"][1..] == ["2", "1"] && [] + [3] == [3];
  }

  lemma SortTwoOne()
    ensures Sort([2, 1]) == [1, 2]
  {
    assert [2, 1][1..] == [1] && [1][1..] == [];
    assert Insert(2, [1]) == [1] + Insert(2, []);
  }

  lemma InsertThree()
    ensures Insert(3, [1, 2]) == [1, 2, 3]
  {
    assert [1, 2][1..] == [2] && [2][1..] == [];
    assert Insert(3, [2]) == [2] + Insert(3, []);
  }

  lemma SortThreeTwoOne()
    ensures Sort([3, 2, 1]) == [1, 2, 3]
  {
    SortTwoOne();
    InsertThree();
    assert [3, 2, 1][1..] == [2, 1];
  }

  lemma RenderOneTwoThree()
    ensures JoinNats([1, 2, 3]) == "1,2,3"
  {
    assert NatStrings([1, 2, 3]) == ["1", "2", "3"];
  }

  /** "3,2,1" is accepted and passed on as "1,2,3". */
  lemma ChildrenDescending()
    ensures ChildrenOutcome("3,2,1") == Ok("1,2,3")
  {
    SplitTriple("3", "2", "1");
    assert "3" + "," + ("2" + "," + "1") == "3,2,1";
    StripNoEdgeSpace("3,2,1");
    ScanThreeTwoOne();
    SortThreeTwoOne();
    RenderOneTwoThree();
    assert FirstGap([1, 2, 3], 1) == None;
    ChildrenOutcomeSteps("3,2,1");
  }

  /** "1,2,3" is already canonical. */
  lemma ChildrenAscending()
    ensures ChildrenOutcome("1,2,3") == Ok("1,2,3")
  {
    ChildrenDescending();
    ChildrenFixpoint("3,2,1");
  }

  // ---------------------------------------------------------------------------
  // "1,3"

  lemma ScanOneThree()
    ensures ScanChildren(["1", "3"], []) == Ok([1, 3])
  {
    OneDigit('1'); OneDigit('3');
    assert ScanChildren(["3"], [1]) == Ok([1, 3]) by {
      assert ["3"][1..] == [] && [1] + [3] == [1, 3];
    }
    assert ["1", "3"][1..] == ["3"] && [] + [1] == [1];
  }

  lemma GapOneThree()
    ensures Sort([1, 3]) == [1, 3] && FirstGap([1, 3], 1) == Some((1, 3))
  {
    SortSorted([1, 3]);
  }

  /** "1,3" leaves out child 2 and is rejected with the gap between 1 and 3. */
  lemma ChildrenWithGap()
    ensures ChildrenOutcome("1,3") == Err(ChildrenGap(1, 3))
  {
    SplitPair("1", "3");
    assert "1" + "," + "3" == "1,3";
    StripNoEdgeSpace("1,3");
    ScanOneThree();
    GapOneThree();
  }

  // ---------------------------------------------------------------------------
  // "2,2"

  lemma ScanTwoTwo()
    ensures ScanChildren(["2", "2"], []) == Err(ChildRepeated(2))
  {
    OneDigit('2');
    assert ScanChildren(["2"], [2]) == Err(ChildRepeated(2));
    assert ["2", "2"][1..] == ["2"] && [] + [2] == [2];
  }

  /** "2,2" names child 2 twice and is rejected. */
  lemma ChildrenRepeated()
    ensures ChildrenOutcome("2,2") == Err(ChildRepeated(2))
  {
    SplitPair("2", "2");
    assert "2" + "," + "2" == "2,2";
    StripNoEdgeSpace("2,2");
    ScanTwoTwo();
  }

  // ---------------------------------------------------------------------------
  // "0" and "2,3"

  lemma ScanZero()
    ensures Split("0", ',') == ["0"]
    ensures ScanChildren(["0"], []) == Ok([0])
    ensures Sort([0]) == [0] && JoinNats([0]) == "0"
  {
    OneDigit('0');
    SplitNoSep("0", ',');
    assert ["0"][1..] == [] && [] + [0] == [0];
  }

  lemma ScanTwoThree()
    ensures ScanChildren(["2", "3"], []) == Ok([2, 3])
  {
    OneDigit('2'); OneDigit('3');
    assert ScanChildren(["3"], [2]) == Ok([2, 3]) by {
      assert ["3"][1..] == [] && [2] + [3] == [2, 3];
    }
    assert ["2", "3"][1..] == ["3"] && [] + [2] == [2];
  }

  lemma RenderTwoThree()
    ensures Sort([2, 3]) == [2, 3] && FirstGap([2, 3], 1) == None && JoinNats([2, 3]) == "2,3"
  {
    SortSorted([2, 3]);
    assert NatStrings([2, 3]) == ["2", "3"];
  }

  /** "0" (no children) and "2,3" (a run that does not start at 1) are both accepted. */
  lemma ChildrenAcceptedAsWritten()
    ensures ChildrenOutcome("0") == Ok("0")
    ensures ChildrenOutcome("2,3") == Ok("2,3")
  {
    ScanZero();
    StripDigits("0");
    SplitPair("2", "3");
    assert "2" + "," + "3" == "2,3";
    StripNoEdgeSpace("2,3");
    ScanTwoThree();
    RenderTwoThree();
  }

  // ---------------------------------------------------------------------------
  // validate_alimony

  /** "0" and "80" lie outside 16..70 and are rejected. */
  lemma AlimonyOutOfRange()
    ensures AlimonyOutcome("0") == Err(PercentTooSmall(0))
    ensures AlimonyOutcome("80") == Err(PercentTooLarge(80))
  {
    OneDigit('0');
    TwoDigits('8', '0');
    SplitNoSep("0", ',');
    SplitNoSep("80", ',');
  }

  lemma ScanFiftyTwentyFive()
    ensures ScanAlimony(["50", "25"], []) == Ok([50, 25])
  {
    TwoDigits('5', '0'); TwoDigits('2', '5');
    assert ScanAlimony(["25"], [50]) == Ok([50, 25]) by {
      assert ["25"][1..] == [] && [50] + [25] == [50, 25];
    }
    assert ["50", "25"][1..] == ["25"] && [] + [50] == [50];
  }

  lemma SortFiftyTwentyFive()
    ensures Sort([50, 25]) == [25, 50]
  {
  }

  lemma RenderTwentyFiveFifty()
    ensures JoinNats([25, 50]) == "25,50"
  {
    assert NatToString(25) == NatToString(2) + [DigitChar(5)] == "25";
    assert NatToString(50) == NatToString(5) + [DigitChar(0)] == "50";
    assert NatStrings([25, 50]) == ["25", "50"];
  }

  /** "50,25" is accepted and passed on as "25,50". */
  lemma AlimonySorted()
    ensures AlimonyOutcome("50,25") == Ok("25,50")
  {
    SplitPair("50", "25");
    assert "50" + "," + "25" == "50,25";
    StripNoEdgeSpace("50,25");
    ScanFiftyTwentyFive();
    SortFiftyTwentyFive();
    RenderTwentyFiveFifty();
  }
}
