/** What the handler's reports mean, whatever the policy: which properties
    or line breaks draw a report, where a report points, which message and
    which fix it carries, and what the fix can change. */
module HandlerProperties {
  import opened Edits
  import opened Layout
  import opened RuleOptions
  import opened ObjectPropertyNewline

  /** Distinct properties start at distinct tokens. */
  lemma PropertyStartsDistinct(lit: ObjectLiteral, i: nat, i': nat)
    requires Wf(lit) && i < |lit.properties| && i' < |lit.properties|
    ensures i != i' ==> lit.properties[i].first != lit.properties[i'].first
  {
    if i < i' {
      assert PropertyPrecedes(lit.properties, i, i');
    } else if i' < i {
      assert PropertyPrecedes(lit.properties, i', i);
    }
  }

  /** Every property after the first starts strictly after the first
      property starts, and no later than the last property ends. */
  lemma PropertyStartInsideSpan(lit: ObjectLiteral, i: nat)
    requires Wf(lit) && 1 <= i < |lit.properties|
    ensures lit.properties[0].first < lit.properties[i].first <= lit.properties[|lit.properties| - 1].last
  {
    var ps := lit.properties;
    assert PropertyPrecedes(ps, 0, i);
    if i < |ps| - 1 {
      assert PropertyPrecedes(ps, i, |ps| - 1);
    }
  }

  /** The pair loop reports property i if and only if it is not valid. */
  lemma PairReportsExact(lit: ObjectLiteral, rule: PairRule, msg: string, n: nat, i: nat)
    requires Wf(lit) && 1 <= i < n <= |lit.properties|
    ensures PairViolation(lit, rule, msg, i) in PairReports(lit, rule, msg, n) <==>
            !PropertyIsValid(lit, rule, i)
  {
    PairReportsComplete(lit, rule, msg, n);
    var r := PairReports(lit, rule, msg, n);
    if PairViolation(lit, rule, msg, i) in r {
      var j :| 0 <= j < |r| && r[j] == PairViolation(lit, rule, msg, i);
      PairReportIsInvalidProperty(lit, rule, msg, n, j);
      var i' :| 1 <= i' < n && !PropertyIsValid(lit, rule, i') && r[j] == PairViolation(lit, rule, msg, i');
      PropertyStartsDistinct(lit, i, i');
    }
  }

  /** The scan reports the line break before token k if and only if there is one. */
  lemma BreakReportsExact(lit: ObjectLiteral, msg: string, lo: nat, hi: nat, k: nat)
    requires Wf(lit) && lo < k < hi <= |lit.tokens|
    ensures BreakViolation(lit, msg, k) in BreakReports(lit, msg, lo, hi) <==> LineBreakBefore(lit.tokens, k)
  {
    BreakReportsComplete(lit, msg, lo, hi);
    var r := BreakReports(lit, msg, lo, hi);
    if BreakViolation(lit, msg, k) in r {
      var j :| 0 <= j < |r| && r[j] == BreakViolation(lit, msg, k);
      BreakReportIsLineBreak(lit, msg, lo, hi, j);
    }
  }

  /** Plain "never": between the first property's first token and the last
      property's last token, the line break before token k draws a report if
      and only if there is one; the early return for a literal on one line
      loses nothing. */
  lemma NeverReportsExactlyLineBreaks(lit: ObjectLiteral, k: nat)
    requires Wf(lit) && |lit.properties| > 0
    requires lit.properties[0].first < k <= lit.properties[|lit.properties| - 1].last
    ensures BreakViolation(lit, NeverMessage, k) in Reports(Never(false), lit) <==>
            LineBreakBefore(lit.tokens, k)
  {
    var lo, hi := lit.properties[0].first, lit.properties[|lit.properties| - 1].last;
    BreakReportsExact(lit, NeverMessage, lo, hi + 1, k);
    if AllOnOneLine(lit) {
      OneLineSpanHasNoBreaks(lit, NeverMessage, lo, hi + 1);
    }
  }

  /** Plain "always": property i draws a report if and only if it is not
      valid under the two flags. */
  lemma AlwaysReportsExactlyInvalidProperties(lit: ObjectLiteral, allowOpenBracket: bool,
                                              denyCommaFirst: bool, i: nat)
    requires Wf(lit) && 1 <= i < |lit.properties|
    ensures var p := Always(false, allowOpenBracket, denyCommaFirst);
            var rule := AlwaysRule(allowOpenBracket, denyCommaFirst);
            PairViolation(lit, rule, Message(p), i) in Reports(p, lit) <==> !PropertyIsValid(lit, rule, i)
  {
    var p := Always(false, allowOpenBracket, denyCommaFirst);
    PairReportsExact(lit, AlwaysRule(allowOpenBracket, denyCommaFirst), Message(p), |lit.properties|, i);
  }

  /** Every report points at a token strictly after the first property's
      first token and no later than the last property's last token, carries
      the policy's message, and offers the fix that rewrites the gap just
      before the token it points at with the policy's text (which, by
      FixBeforeOnlyMovesWhitespace, declines at a comment and otherwise
      changes only whitespace). */
  lemma ReportAt(policy: Policy, lit: ObjectLiteral, j: nat)
    requires Wf(lit) && (policy == Never(false) ==> |lit.properties| > 0)
    requires j < |Reports(policy, lit)|
    ensures |lit.properties| > 0
    ensures var v := Reports(policy, lit)[j];
            lit.properties[0].first < v.anchor <= lit.properties[|lit.properties| - 1].last &&
            v.message == Message(policy) &&
            v.fix == FixBefore(lit, v.anchor, FixText(policy))
  {
    var msg := Message(policy);
    match policy
    case Never(allowCommaBefore) =>
      if allowCommaBefore {
        CommaBeforeReportAt(lit, msg, 1, j);
        PropertyStartInsideSpan(lit, 1 + j);
      } else {
        var lo, hi := lit.properties[0].first, lit.properties[|lit.properties| - 1].last;
        BreakReportIsLineBreak(lit, msg, lo, hi + 1, j);
      }
    case Always(allowSameLine, allowOpenBracket, denyCommaFirst) =>
      var rule := AlwaysRule(allowOpenBracket, denyCommaFirst);
      PairReportIsInvalidProperty(lit, rule, msg, |lit.properties|, j);
      var i :| 1 <= i < |lit.properties| && !PropertyIsValid(lit, rule, i) &&
               Reports(policy, lit)[j] == PairViolation(lit, rule, msg, i);
      PropertyStartInsideSpan(lit, i);
  }

  /** The fix offered for token k declines exactly when a comment lies in
      the gap before it; otherwise it rewrites exactly that gap, and with
      blank text in its place changes only whitespace. */
  lemma FixBeforeOnlyMovesWhitespace(lit: ObjectLiteral, k: nat, replacement: string)
    requires Wf(lit) && 0 < k < |lit.tokens| && Blank(replacement)
    ensures var f := FixBefore(lit, k, replacement);
            var start, end := lit.tokens[k - 1].rangeEnd, lit.tokens[k].rangeStart;
            (f.None? <==> exists c :: start <= c < end && !IsWhitespace(lit.text[c])) &&
            (f.Some? ==>
               f.value == Edit(start, end, replacement) &&
               ValidFor(f.value, lit.text) &&
               Visible(ApplyEdit(lit.text, f.value)) == Visible(lit.text))
  {
    assert TokenPrecedes(lit.tokens, k - 1, k);
    var start, end := lit.tokens[k - 1].rangeEnd, lit.tokens[k].rangeStart;
    GapFixDeclinesOnComment(lit.text, start, end, replacement);
    GapFixKeepsVisible(lit.text, start, end, replacement);
  }

  /** Reports come in source order, at most one per token. */
  lemma ReportsInSourceOrder(policy: Policy, lit: ObjectLiteral, j: nat, k: nat)
    requires Wf(lit) && (policy == Never(false) ==> |lit.properties| > 0)
    requires j < k < |Reports(policy, lit)|
    ensures Reports(policy, lit)[j].anchor < Reports(policy, lit)[k].anchor
  {
    var msg := Message(policy);
    match policy
    case Never(allowCommaBefore) =>
      if allowCommaBefore {
        CommaBeforeReportAt(lit, msg, 1, j);
        CommaBeforeReportAt(lit, msg, 1, k);
        assert PropertyPrecedes(lit.properties, 1 + j, 1 + k);
      } else {
        var lo, hi := lit.properties[0].first, lit.properties[|lit.properties| - 1].last;
        BreakReportsOrdered(lit, msg, lo, hi + 1, j, k);
      }
    case Always(allowSameLine, allowOpenBracket, denyCommaFirst) =>
      PairReportsOrdered(lit, AlwaysRule(allowOpenBracket, denyCommaFirst), msg, |lit.properties|, j, k);
  }

  /** A literal with at most one property draws no report, except under plain
      "never", whose scan also looks inside a single property. */
  lemma FewPropertiesNoReports(policy: Policy, lit: ObjectLiteral)
    requires Wf(lit) && |lit.properties| <= 1 && policy != Never(false)
    ensures Reports(policy, lit) == []
  {
  }

  /** treatComputedPropertiesLikeJSCS only excuses: every report made with it
      is also made without it. */
  lemma OpenBracketOnlyExcuses(lit: ObjectLiteral, msg: string, denyCommaFirst: bool, n: nat, v: Violation)
    requires Wf(lit) && n <= |lit.properties|
    requires v in PairReports(lit, AlwaysRule(true, denyCommaFirst), msg, n)
    ensures v in PairReports(lit, AlwaysRule(false, denyCommaFirst), msg, n)
  {
    var r := PairReports(lit, AlwaysRule(true, denyCommaFirst), msg, n);
    var j :| 0 <= j < |r| && r[j] == v;
    PairReportIsInvalidProperty(lit, AlwaysRule(true, denyCommaFirst), msg, n, j);
    var i :| 1 <= i < n && !PropertyIsValid(lit, AlwaysRule(true, denyCommaFirst), i) &&
             r[j] == PairViolation(lit, AlwaysRule(true, denyCommaFirst), msg, i);
    PairReportsComplete(lit, AlwaysRule(false, denyCommaFirst), msg, n);
    assert PairViolation(lit, AlwaysRule(false, denyCommaFirst), msg, i) == v;
  }

  /** noCommaFirst only adds: every report made without it is also made
      with it. */
  lemma CommaFirstOnlyAdds(lit: ObjectLiteral, msg: string, allowOpenBracket: bool, n: nat, v: Violation)
    requires Wf(lit) && n <= |lit.properties|
    requires v in PairReports(lit, AlwaysRule(allowOpenBracket, false), msg, n)
    ensures v in PairReports(lit, AlwaysRule(allowOpenBracket, true), msg, n)
  {
    var r := PairReports(lit, AlwaysRule(allowOpenBracket, false), msg, n);
    var j :| 0 <= j < |r| && r[j] == v;
    PairReportIsInvalidProperty(lit, AlwaysRule(allowOpenBracket, false), msg, n, j);
    var i :| 1 <= i < n && !PropertyIsValid(lit, AlwaysRule(allowOpenBracket, false), i) &&
             r[j] == PairViolation(lit, AlwaysRule(allowOpenBracket, false), msg, i);
    PairReportsComplete(lit, AlwaysRule(allowOpenBracket, true), msg, n);
    assert PairViolation(lit, AlwaysRule(allowOpenBracket, true), msg, i) == v;
  }
}
