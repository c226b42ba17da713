/**
  What the children and alimony checks accept, stated without their loops, and the
  canonical form they pass on: validating that form again gives it back unchanged.
 */
module ValidatorProperties {
  import opened Wrappers
  import opened Text
  import opened Sorting
  import opened Validators

  // ---------------------------------------------------------------------------
  // Runs of child numbers

  /** Every number between two members is a member: the numbers form one run without holes. */
  ghost predicate IsInterval(s: seq<int>) {
    forall a, b, m :: a in s && b in s && a <= m <= b ==> m in s
  }

  /** Each element is one more than the one before it. */
  predicate Consecutive(s: seq<int>) {
    forall k :: 1 <= k < |s| ==> s[k] == s[k - 1] + 1
  }

  /** The gap loop finds nothing from `from` on exactly when the list steps by one from there. */
  lemma {:induction false} FirstGapNone(s: seq<nat>, from: nat)
    requires from >= 1
    ensures FirstGap(s, from).None? <==> forall k :: from <= k < |s| ==> s[k] == s[k - 1] + 1
    decreases |s| - from
  {
    if from < |s| {
      FirstGapNone(s, from + 1);
    }
  }

  lemma {:induction false} ConsecutiveOffset(s: seq<int>, k: nat)
    requires Consecutive(s) && k < |s|
    ensures s[k] == s[0] + k
  {
    if k > 0 {
      ConsecutiveOffset(s, k - 1);
    }
  }

  /** A strictly ascending list steps by one exactly when its members form a run without holes. */
  lemma IncreasingConsecutiveInterval(s: seq<int>)
    requires Increasing(s)
    ensures Consecutive(s) <==> IsInterval(s)
  {
    if Consecutive(s) {
      forall a, b, m | a in s && b in s && a <= m <= b ensures m in s {
        var i :| 0 <= i < |s| && s[i] == a;
        var j :| 0 <= j < |s| && s[j] == b;
        ConsecutiveOffset(s, i);
        ConsecutiveOffset(s, j);
        var idx := m - s[0];
        ConsecutiveOffset(s, idx);
      }
    } else {
      var k :| 1 <= k < |s| && s[k] != s[k - 1] + 1;
      var m := s[k - 1] + 1;
      forall p | 0 <= p < |s| ensures s[p] != m {
        if p < k - 1 {
          assert s[p] < s[k - 1];
        } else if p >= k {
          assert s[p] >= s[k];
        }
      }
      assert s[k - 1] in s && s[k] in s && m !in s;
    }
  }

  /** Having a run of members depends only on which numbers are present. */
  lemma SameElementsInterval(a: seq<int>, b: seq<int>)
    requires multiset(a) == multiset(b)
    ensures IsInterval(a) == IsInterval(b)
  {
    forall x ensures x in a <==> x in b {
      assert x in a <==> x in multiset(a);
      assert x in b <==> x in multiset(b);
    }
  }

  /** Every element of `sorted(s)` is an element of `s`. */
  lemma SortMembers(s: seq<nat>, i: nat)
    requires i < |Sort(s)|
    ensures Sort(s)[i] in s
  {
    assert Sort(s)[i] in multiset(Sort(s));
  }

  // ---------------------------------------------------------------------------
  // validate_children

  /** All parts pass a check exactly when the first does and all the others do. */
  lemma AllChildPartsOk(parts: seq<string>)
    requires parts != []
    ensures (forall i :: 0 <= i < |parts| ==> ChildPartOk(parts[i])) <==>
            ChildPartOk(parts[0]) && forall i :: 0 <= i < |parts[1..]| ==> ChildPartOk(parts[1..][i])
  {
    if ChildPartOk(parts[0]) && forall i :: 0 <= i < |parts[1..]| ==> ChildPartOk(parts[1..][i]) {
      forall i | 0 <= i < |parts| ensures ChildPartOk(parts[i]) {
        if i > 0 {
          assert parts[i] == parts[1..][i - 1];
        }
      }
    }
  }

  /** A part that does not name a child stops the first loop with an error. */
  lemma ScanChildrenBadPart(parts: seq<string>, children: seq<nat>)
    requires parts != [] && !ChildPartOk(parts[0])
    ensures ScanChildren(parts, children).Err?
  {
  }

  /** A number already collected stops the first loop, and the whole list has a repeat. */
  lemma ScanChildrenRepeat(parts: seq<string>, children: seq<nat>)
    requires parts != [] && ChildPartOk(parts[0]) && PartValue(parts[0]) in children
    ensures ScanChildren(parts, children).Err?
    ensures !Distinct(children + PartValues(parts))
  {
    var n := PartValue(parts[0]);
    var all := children + PartValues(parts);
    var j :| 0 <= j < |children| && children[j] == n;
    assert all[j] == all[|children|];
  }

  /** A new child number is appended and the loop goes on with the next part. */
  lemma ScanChildrenNext(parts: seq<string>, children: seq<nat>)
    requires parts != [] && ChildPartOk(parts[0]) && PartValue(parts[0]) !in children
    ensures ScanChildren(parts, children) == ScanChildren(parts[1..], children + [PartValue(parts[0])])
  {
  }

  /** The values collected so far followed by those of the parts, with the first part moved over. */
  lemma PartValuesShift(parts: seq<string>, children: seq<nat>)
    requires parts != []
    ensures children + PartValues(parts) == (children + [PartValue(parts[0])]) + PartValues(parts[1..])
  {
    assert PartValues(parts) == [PartValue(parts[0])] + PartValues(parts[1..]);
  }

  /** A new number keeps a list without repeats free of them. */
  lemma DistinctAppend(s: seq<nat>, n: nat)
    requires Distinct(s) && n !in s
    ensures Distinct(s + [n])
  {
    var t := s + [n];
    forall i, j | 0 <= i < j < |t| ensures t[i] != t[j] {
      assert t[i] == s[i];
      if j < |s| {
        assert t[j] == s[j];
      }
    }
  }

  /** The first loop succeeds exactly when every part names a child and no number repeats. */
  lemma {:induction false} ScanChildrenMeaning(parts: seq<string>, children: seq<nat>)
    requires Distinct(children)
    ensures ScanChildren(parts, children).Ok? <==>
      (forall i :: 0 <= i < |parts| ==> ChildPartOk(parts[i])) && Distinct(children + PartValues(parts))
    ensures ScanChildren(parts, children).Ok? ==>
      ScanChildren(parts, children).value == children + PartValues(parts)
    decreases |parts|
  {
    if parts == [] {
      assert children + PartValues(parts) == children;
    } else {
      AllChildPartsOk(parts);
      if !ChildPartOk(parts[0]) {
        ScanChildrenBadPart(parts, children);
      } else if PartValue(parts[0]) in children {
        ScanChildrenRepeat(parts, children);
      } else {
        ScanChildrenNext(parts, children);
        PartValuesShift(parts, children);
        DistinctAppend(children, PartValue(parts[0]));
        ScanChildrenMeaning(parts[1..], children + [PartValue(parts[0])]);
      }
    }
  }

  /** An accepted list of parts: the first loop collects the parts' values, each a child number, none twice. */
  lemma ScanChildrenOk(parts: seq<string>)
    requires ScanChildren(parts, []).Ok?
    ensures ScanChildren(parts, []).value == PartValues(parts)
    ensures Distinct(PartValues(parts)) && forall i :: 0 <= i < |parts| ==> ChildPartOk(parts[i])
  {
    ScanChildrenMeaning(parts, []);
    assert [] + PartValues(parts) == PartValues(parts);
  }

  /** Sorting distinct numbers gives a strictly ascending list of the same length. */
  lemma SortDistinct(kids: seq<nat>)
    requires Distinct(kids)
    ensures Increasing(Sort(kids)) && |Sort(kids)| == |kids|
  {
    var ks := Sort(kids);
    assert |ks| == |multiset(ks)| == |multiset(kids)| == |kids|;
    SortedDistinctIncreasing(ks);
  }

  /** Sorted, the values of parts that each name a child are still at most 10. */
  lemma SortedChildNumbers(parts: seq<string>)
    requires forall i :: 0 <= i < |parts| ==> ChildPartOk(parts[i])
    ensures var ks := Sort(PartValues(parts)); forall i :: 0 <= i < |ks| ==> ks[i] <= 10
  {
    var kids := PartValues(parts);
    var ks := Sort(kids);
    forall i | 0 <= i < |ks| ensures ks[i] <= 10 {
      SortMembers(kids, i);
      var j :| 0 <= j < |kids| && kids[j] == ks[i];
      assert ChildPartOk(parts[j]);
    }
  }

  /**
    The inputs `validate_children` accepts: not blank, every comma-separated part a number
    from 0 to 10, no number twice, and the numbers forming one run without holes.
   */
  ghost predicate ChildrenAcceptable(value: string) {
    var parts := Split(value, ',');
    Strip(value) != "" &&
    (forall i :: 0 <= i < |parts| ==> ChildPartOk(parts[i])) &&
    Distinct(PartValues(parts)) && IsInterval(PartValues(parts))
  }

  /** Distinct numbers sort into a list without gaps exactly when they form one run. */
  lemma GapFreeInterval(kids: seq<nat>)
    requires Distinct(kids)
    ensures FirstGap(Sort(kids), 1).None? <==> IsInterval(kids)
  {
    var ks := Sort(kids);
    SortDistinct(kids);
    IncreasingConsecutiveInterval(ks);
    SameElementsInterval(kids, ks);
    FirstGapNone(ks, 1);
  }

  /** `validate_children` step by step: the three ways it can end. */
  lemma ChildrenOutcomeSteps(value: string)
    ensures var scan := ScanChildren(Split(value, ','), []);
      (ChildrenOutcome(value).Ok? <==>
        Strip(value) != "" && scan.Ok? && (|scan.value| > 1 ==> FirstGap(Sort(scan.value), 1).None?)) &&
      (ChildrenOutcome(value).Ok? ==> ChildrenOutcome(value).value == JoinNats(Sort(scan.value)))
  {
  }

  /** `validate_children` accepts exactly the acceptable inputs. */
  lemma ChildrenOutcomeMeaning(value: string)
    ensures ChildrenOutcome(value).Ok? <==> ChildrenAcceptable(value)
  {
    var parts := Split(value, ',');
    ScanChildrenMeaning(parts, []);
    assert [] + PartValues(parts) == PartValues(parts);
    ChildrenOutcomeSteps(value);
    var kids := PartValues(parts);
    if Distinct(kids) {
      GapFreeInterval(kids);
      if |kids| <= 1 {
        SortDistinct(kids);
        assert FirstGap(Sort(kids), 1) == None;
      }
    }
  }

  /**
    What `validate_children` passes on: the child numbers in ascending order, each one more
    than the one before, every one at most 10, joined by commas.
   */
  lemma ChildrenOutcomeValue(value: string)
    requires ChildrenOutcome(value).Ok?
    ensures var ks := Sort(PartValues(Split(value, ',')));
      ChildrenOutcome(value).value == JoinNats(ks) && |ks| >= 1 &&
      Increasing(ks) && Consecutive(ks) && forall i :: 0 <= i < |ks| ==> ks[i] <= 10
  {
    var parts := Split(value, ',');
    ScanChildrenOk(parts);
    ChildrenOutcomeSteps(value);
    var kids := PartValues(parts);
    var ks := Sort(kids);
    SortDistinct(kids);
    FirstGapNone(ks, 1);
    SortedChildNumbers(parts);
  }

  /** Reading back a rendered ascending list of child numbers gives that list. */
  lemma {:induction false} ScanRenderedChildren(ks: seq<nat>, i: nat)
    requires Increasing(ks) && i <= |ks|
    requires forall k :: 0 <= k < |ks| ==> ks[k] <= 10
    ensures ScanChildren(NatStrings(ks)[i..], ks[..i]) == Ok(ks)
    decreases |ks| - i
  {
    var strs := NatStrings(ks);
    if i == |ks| {
      assert strs[i..] == [];
      assert ks[..i] == ks;
    } else {
      PartValueOfRendering(ks[i]);
      assert strs[i..][1..] == strs[i + 1..];
      assert ks[..i] + [ks[i]] == ks[..i + 1];
      ScanRenderedChildren(ks, i + 1);
    }
  }

  /** The rendering of an ascending run of child numbers is accepted and passed on unchanged. */
  lemma RenderedChildrenAccepted(ks: seq<nat>)
    requires |ks| >= 1 && Increasing(ks) && Consecutive(ks)
    requires forall i :: 0 <= i < |ks| ==> ks[i] <= 10
    ensures ChildrenOutcome(JoinNats(ks)) == Ok(JoinNats(ks))
  {
    var v := JoinNats(ks);
    StripJoinNats(ks);
    SplitJoinNats(ks);
    ScanRenderedChildren(ks, 0);
    assert NatStrings(ks)[0..] == NatStrings(ks);
    assert ks[..0] == [];
    IncreasingDistinct(ks);
    SortSorted(ks);
    FirstGapNone(ks, 1);
    ChildrenOutcomeSteps(v);
  }

  /** The text `validate_children` passes on is canonical: validating it again gives it back. */
  lemma ChildrenFixpoint(value: string)
    requires ChildrenOutcome(value).Ok?
    ensures ChildrenOutcome(ChildrenOutcome(value).value) == ChildrenOutcome(value)
  {
    ChildrenOutcomeValue(value);
    RenderedChildrenAccepted(Sort(PartValues(Split(value, ','))));
  }

  /** The text passed on is stripped already, so the setter's `strip()` stores it as it is. */
  lemma ChildrenCanonical(value: string)
    requires ChildrenOutcome(value).Ok?
    ensures var v := ChildrenOutcome(value).value; Strip(v) == v && ChildrenOutcome(v) == Ok(v)
  {
    ChildrenOutcomeValue(value);
    StripJoinNats(Sort(PartValues(Split(value, ','))));
    ChildrenFixpoint(value);
  }

  // ---------------------------------------------------------------------------
  // validate_alimony

  /** The alimony loop succeeds exactly when every part is a percentage within 16..70. */
  lemma {:induction false} ScanAlimonyMeaning(parts: seq<string>, alimonyList: seq<nat>)
    ensures ScanAlimony(parts, alimonyList).Ok? <==> forall i :: 0 <= i < |parts| ==> AlimonyPartOk(parts[i])
    ensures ScanAlimony(parts, alimonyList).Ok? ==>
      ScanAlimony(parts, alimonyList).value == alimonyList + PartValues(parts)
    decreases |parts|
  {
    if parts == [] {
      assert alimonyList + PartValues(parts) == alimonyList;
    } else {
      var n := PartValue(parts[0]);
      assert PartValues(parts) == [n] + PartValues(parts[1..]);
      assert alimonyList + PartValues(parts) == (alimonyList + [n]) + PartValues(parts[1..]);
      if AlimonyPartOk(parts[0]) {
        ScanAlimonyMeaning(parts[1..], alimonyList + [n]);
        assert (forall i :: 0 <= i < |parts| ==> AlimonyPartOk(parts[i])) <==>
               (forall i :: 0 <= i < |parts[1..]| ==> AlimonyPartOk(parts[1..][i]));
      }
    }
  }

  /** The inputs `validate_alimony` accepts: not blank, and every part a percentage within 16..70. */
  ghost predicate AlimonyAcceptable(value: string) {
    var parts := Split(value, ',');
    Strip(value) != "" && forall i :: 0 <= i < |parts| ==> AlimonyPartOk(parts[i])
  }

  /**
    `validate_alimony` accepts exactly the non-blank inputs whose every part is a percentage
    within 16..70; repeats are allowed.
   */
  lemma AlimonyOutcomeMeaning(value: string)
    ensures AlimonyOutcome(value).Ok? <==> AlimonyAcceptable(value)
  {
    var parts := Split(value, ',');
    ScanAlimonyMeaning(parts, []);
    assert AlimonyOutcome(value).Ok? <==> Strip(value) != "" && ScanAlimony(parts, []).Ok?;
  }

  /** Every percentage `validate_alimony` passes on lies within 16..70. */
  lemma AlimonyRatesInRange(value: string)
    requires AlimonyOutcome(value).Ok?
    ensures var ks := Sort(PartValues(Split(value, ',')));
      forall i :: 0 <= i < |ks| ==> 16 <= ks[i] <= 70
  {
    var parts := Split(value, ',');
    ScanAlimonyMeaning(parts, []);
    var rates := PartValues(parts);
    var ks := Sort(rates);
    forall i | 0 <= i < |ks| ensures 16 <= ks[i] <= 70 {
      SortMembers(rates, i);
      var j :| 0 <= j < |rates| && rates[j] == ks[i];
      assert AlimonyPartOk(parts[j]);
    }
  }

  /** What `validate_alimony` passes on: the percentages in ascending order, joined by commas. */
  lemma AlimonyOutcomeValue(value: string)
    requires AlimonyOutcome(value).Ok?
    ensures var ks := Sort(PartValues(Split(value, ',')));
      AlimonyOutcome(value).value == JoinNats(ks) && |ks| >= 1 &&
      forall i :: 0 <= i < |ks| ==> 16 <= ks[i] <= 70
  {
    var parts := Split(value, ',');
    ScanAlimonyMeaning(parts, []);
    assert [] + PartValues(parts) == PartValues(parts);
    AlimonyRatesInRange(value);
  }

  /** Reading back a rendered ascending list of percentages gives that list. */
  lemma {:induction false} ScanRenderedAlimony(ks: seq<nat>, i: nat)
    requires i <= |ks|
    requires forall k :: 0 <= k < |ks| ==> 16 <= ks[k] <= 70
    ensures ScanAlimony(NatStrings(ks)[i..], ks[..i]) == Ok(ks)
    decreases |ks| - i
  {
    var strs := NatStrings(ks);
    if i == |ks| {
      assert strs[i..] == [];
      assert ks[..i] == ks;
    } else {
      PartValueOfRendering(ks[i]);
      assert strs[i..][1..] == strs[i + 1..];
      assert ks[..i] + [ks[i]] == ks[..i + 1];
      ScanRenderedAlimony(ks, i + 1);
    }
  }

  /** The text `validate_alimony` passes on is canonical: validating it again gives it back. */
  lemma AlimonyFixpoint(value: string)
    requires AlimonyOutcome(value).Ok?
    ensures AlimonyOutcome(AlimonyOutcome(value).value) == AlimonyOutcome(value)
  {
    AlimonyOutcomeValue(value);
    var ks := Sort(PartValues(Split(value, ',')));
    StripJoinNats(ks);
    SplitJoinNats(ks);
    ScanRenderedAlimony(ks, 0);
    assert NatStrings(ks)[0..] == NatStrings(ks);
    assert ks[..0] == [];
    SortSorted(ks);
  }

  /** The text passed on is stripped already, so the setter's `strip()` stores it as it is. */
  lemma AlimonyCanonical(value: string)
    requires AlimonyOutcome(value).Ok?
    ensures var v := AlimonyOutcome(value).value; Strip(v) == v && AlimonyOutcome(v) == Ok(v)
  {
    AlimonyOutcomeValue(value);
    StripJoinNats(Sort(PartValues(Split(value, ','))));
    AlimonyFixpoint(value);
  }
}
