/** The handler as its test suite describes it, beside the handler as
    written (ObjectPropertyNewline.Reports). Two branches differ:

    - "never" with unlessCommaBefore tests the opposite of the condition the
      tests describe and stops at the first property it accepts. The
      tests expect a report exactly for each property that starts on a line
      after the line its comma ends on.
    - "always" with allowAllPropertiesOnSameLine never runs the pair loop.
      The tests expect it to be skipped only when all the properties lie on
      one line.

    The intended handler also treats a literal without properties as valid
    under plain "never", where the code as written reads properties[0]. */
module Corrections {
  import opened Edits
  import opened Layout
  import opened RuleOptions
  import opened ObjectPropertyNewline
  import opened HandlerProperties

  /** The reports the tests expect for one literal. */
  function IntendedReports(policy: Policy, lit: ObjectLiteral): seq<Violation>
    requires Wf(lit)
  {
    var msg := Message(policy);
    var n := |lit.properties|;
    match policy
    case Never(allowCommaBefore) =>
      if allowCommaBefore then PairReports(lit, CommaBeforeRule, msg, n)
      else if n == 0 then []
      else NeverReports(lit, msg)
    case Always(allowSameLine, allowOpenBracket, denyCommaFirst) =>
      if allowSameLine && n > 1 && AllOnOneLine(lit) then []
      else PairReports(lit, AlwaysRule(allowOpenBracket, denyCommaFirst), msg, n)
  }

  // ---------------------------------------------------------------------
  // "never" with unlessCommaBefore (lines 120-146)

  /** As written, the branch reports only properties that the tests accept:
      each starts on the line its comma ends on. So no report it makes is
      one the tests expect. */
  lemma CommaBeforeAsWrittenReportsOnlyAccepted(lit: ObjectLiteral, v: Violation)
    requires Wf(lit) && v in Reports(Never(true), lit)
    ensures v !in IntendedReports(Never(true), lit)
  {
    var r := Reports(Never(true), lit);
    var j :| 0 <= j < |r| && r[j] == v;
    CommaBeforeReportAt(lit, NeverCommaBeforeMessage, 1, j);
    FollowsCommaMeansCommaOnEarlierLine(lit, 1 + j);
    PairReportsExact(lit, CommaBeforeRule, NeverCommaBeforeMessage, |lit.properties|, 1 + j);
  }

  /** As written, a literal whose second property starts on a line after its
      comma draws no report at all: the loop returns at once. The tests
      expect that property to be reported. */
  lemma CommaBeforeAsWrittenStopsAtFirstBreak(lit: ObjectLiteral)
    requires Wf(lit) && |lit.properties| > 1
    requires CommaBefore(lit, 1).endLine < FirstTokenOf(lit, 1).startLine
    ensures Reports(Never(true), lit) == []
    ensures PairViolation(lit, CommaBeforeRule, NeverCommaBeforeMessage, 1) in IntendedReports(Never(true), lit)
  {
    FollowsCommaMeansCommaOnEarlierLine(lit, 1);
    PairReportsExact(lit, CommaBeforeRule, NeverCommaBeforeMessage, |lit.properties|, 1);
  }

  /** In a literal on one line every comma ends on the line the next
      property starts on. */
  lemma OneLineCommaOnPropertyLine(lit: ObjectLiteral, i: nat)
    requires Wf(lit) && 1 <= i < |lit.properties| && AllOnOneLine(lit)
    ensures CommaBefore(lit, i).endLine == FirstTokenOf(lit, i).startLine
  {
    var ts, ps := lit.tokens, lit.properties;
    var f0, c, f, e := ps[0].first, ps[i].first - 1, ps[i].first, ps[|ps| - 1].last;
    assert PropertyPrecedes(ps, 0, i);
    PropertyStartInsideSpan(lit, i);
    assert TokenPrecedes(ts, f0, c);
    assert TokenPrecedes(ts, c, f);
    if f < e {
      assert TokenPrecedes(ts, f, e);
    }
  }

  lemma {:induction false} CommaBeforeFromOnOneLine(lit: ObjectLiteral, msg: string, i: nat)
    requires Wf(lit) && 1 <= i <= |lit.properties| && AllOnOneLine(lit)
    ensures |CommaBeforeFrom(lit, msg, i)| == |lit.properties| - i
    decreases |lit.properties| - i
  {
    if i < |lit.properties| {
      OneLineCommaOnPropertyLine(lit, i);
      FollowsCommaMeansCommaOnEarlierLine(lit, i);
      CommaBeforeFromOnOneLine(lit, msg, i + 1);
    }
  }

  lemma {:induction false} CommaBeforeRuleOnOneLine(lit: ObjectLiteral, msg: string, m: nat)
    requires Wf(lit) && 1 <= m <= |lit.properties| && AllOnOneLine(lit)
    ensures PairReports(lit, CommaBeforeRule, msg, m) == []
  {
    if m > 1 {
      OneLineCommaOnPropertyLine(lit, m - 1);
      FollowsCommaMeansCommaOnEarlierLine(lit, m - 1);
      CommaBeforeRuleOnOneLine(lit, msg, m - 1);
    }
  }

  /** A literal with n >= 2 properties all on one line is reported n - 1
      times as written, and not at all as the tests intend. */
  lemma CommaBeforeOneLineLiteral(lit: ObjectLiteral)
    requires Wf(lit) && |lit.properties| >= 2 && AllOnOneLine(lit)
    ensures |Reports(Never(true), lit)| == |lit.properties| - 1
    ensures IntendedReports(Never(true), lit) == []
  {
    CommaBeforeFromOnOneLine(lit, NeverCommaBeforeMessage, 1);
    CommaBeforeRuleOnOneLine(lit, NeverCommaBeforeMessage, |lit.properties|);
  }

  /** As intended, property i is reported if and only if it starts on a line
      after the line its comma ends on, whatever the other properties do. */
  lemma IntendedCommaBeforeExact(lit: ObjectLiteral, i: nat)
    requires Wf(lit) && 1 <= i < |lit.properties|
    ensures PairViolation(lit, CommaBeforeRule, NeverCommaBeforeMessage, i) in IntendedReports(Never(true), lit) <==>
            CommaBefore(lit, i).endLine < FirstTokenOf(lit, i).startLine
  {
    FollowsCommaMeansCommaOnEarlierLine(lit, i);
    PairReportsExact(lit, CommaBeforeRule, NeverCommaBeforeMessage, |lit.properties|, i);
  }

  // ---------------------------------------------------------------------
  // "always" with allowAllPropertiesOnSameLine (lines 184-195)

  /** As written, the branch never reports. */
  lemma SameLineAsWrittenNeverReports(lit: ObjectLiteral, allowOpenBracket: bool, denyCommaFirst: bool)
    requires Wf(lit)
    ensures Reports(Always(true, allowOpenBracket, denyCommaFirst), lit) == []
  {
  }

  /** As intended, property i is reported if and only if the properties do
      not all lie on one line and property i is not valid under the other
      two flags, exactly as without allowAllPropertiesOnSameLine. */
  lemma IntendedSameLineExact(lit: ObjectLiteral, allowOpenBracket: bool, denyCommaFirst: bool, i: nat)
    requires Wf(lit) && 1 <= i < |lit.properties|
    ensures var p := Always(true, allowOpenBracket, denyCommaFirst);
            var rule := AlwaysRule(allowOpenBracket, denyCommaFirst);
            PairViolation(lit, rule, Message(p), i) in IntendedReports(p, lit) <==>
              !AllOnOneLine(lit) && !PropertyIsValid(lit, rule, i)
  {
    var p := Always(true, allowOpenBracket, denyCommaFirst);
    PairReportsExact(lit, AlwaysRule(allowOpenBracket, denyCommaFirst), Message(p), |lit.properties|, i);
  }

  /** The literal of the test at line 502 of the rule's tests, after
      "var obj = ": k1 on line 2, k2 and k3 sharing line 3. */
  const SameLineTestText := "{\nk1: 'val1',\nk2: 'val2', k3: 'val3'\n}"

  const SameLineTestLiteral := ObjectLiteral(
    [Token(Punctuator, "{", 1, 1, 0, 1),
     Token(Identifier, "k1", 2, 2, 2, 4), Token(Punctuator, ":", 2, 2, 4, 5),
     Token(Literal, "'val1'", 2, 2, 6, 12), Token(Punctuator, ",", 2, 2, 12, 13),
     Token(Identifier, "k2", 3, 3, 14, 16), Token(Punctuator, ":", 3, 3, 16, 17),
     Token(Literal, "'val2'", 3, 3, 18, 24), Token(Punctuator, ",", 3, 3, 24, 25),
     Token(Identifier, "k3", 3, 3, 26, 28), Token(Punctuator, ":", 3, 3, 28, 29),
     Token(Literal, "'val3'", 3, 3, 30, 36),
     Token(Punctuator, "}", 4, 4, 37, 38)],
    [Property(1, 3), Property(5, 7), Property(9, 11)],
    SameLineTestText)

  lemma SameLineTestLiteralIsWellFormed()
    ensures Wf(SameLineTestLiteral)
  {
    var lit := SameLineTestLiteral;
    var ts, ps := lit.tokens, lit.properties;
    assert |lit.text| == 38;
    forall k | 0 <= k < |ts| - 1
      ensures NextTokenFollows(ts, k)
    {
      assert k in {0, 1, 2, 3, 4, 5, 6, 7, 8, 9, 10, 11};
    }
    NeighbourOrderSuffices(ts, lit.text);
    forall i, j | 0 <= i < j < |ps|
      ensures PropertyPrecedes(ps, i, j)
    {
      assert (i, j) in {(0, 1), (0, 2), (1, 2)};
    }
  }

  /** The test's literal: as written no report; as intended exactly the
      report on k3 (token 9), whose fix breaks the line after k2's comma
      (the blank at offset 25). */
  lemma SameLineTestScenario()
    ensures Wf(SameLineTestLiteral)
    ensures Reports(Always(true, false, false), SameLineTestLiteral) == []
    ensures IntendedReports(Always(true, false, false), SameLineTestLiteral) ==
            [Violation(9, SameLineMessage, Some(Edit(25, 26, "\n")))]
  {
    SameLineTestLiteralIsWellFormed();
    var lit := SameLineTestLiteral;
    var p := Always(true, false, false);
    assert Message(p) == SameLineMessage;
    assert !AllOnOneLine(lit);
    assert PropertyIsValid(lit, AlwaysRule(false, false), 1);
    assert !PropertyIsValid(lit, AlwaysRule(false, false), 2);
    assert lit.text[25..26] == " ";
    assert FixBefore(lit, 9, "\n") == Some(Edit(25, 26, "\n"));
  }

  // ---------------------------------------------------------------------
  // Where nothing was corrected

  /** Outside the two branches above, and for literals with properties, the
      intended handler is the handler as written. */
  lemma IntendedAgreesElsewhere(policy: Policy, lit: ObjectLiteral)
    requires Wf(lit)
    requires (policy == Never(false) && |lit.properties| > 0) ||
             (policy.Always? && !policy.allowSameLine)
    ensures IntendedReports(policy, lit) == Reports(policy, lit)
  {
  }

  /** As intended, a literal with at most one property is never reported,
      except for line breaks inside a single property under plain "never". */
  lemma IntendedFewPropertiesNoReports(policy: Policy, lit: ObjectLiteral)
    requires Wf(lit)
    requires |lit.properties| == 0 || (|lit.properties| == 1 && policy != Never(false))
    ensures IntendedReports(policy, lit) == []
  {
  }
}
