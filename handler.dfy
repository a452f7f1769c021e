/** The ObjectExpression handler of the rule (lines 119-247): for one object
    literal, the reports it makes under a resolved policy, each with the fix
    it would offer. Each branch is a method whose loop builds the list of
    reports, proved equal to a specification function; lemmas then say what
    those lists contain. */
module ObjectPropertyNewline {
  import opened Edits
  import opened Layout
  import opened RuleOptions

  /** One context.report call: the index of the token the report points at,
      the message, and the edit its fix closure returns (None: no fix). */
  datatype Violation = Violation(anchor: nat, message: string, fix: Option<Edit>)

  /** The two rules that judge property i against property i - 1: the four
      flag combinations of "always", and "never" with unlessCommaBefore as
      its tests intend it (used by the corrected model only). */
  datatype PairRule =
    | AlwaysRule(allowOpenBracket: bool, denyCommaFirst: bool)
    | CommaBeforeRule

  /** Whether property i is laid out acceptably. For "always" this is one
      formula covering the four flag combinations of lines 205-224: an open
      bracket ending the line is accepted when allowOpenBracket is set, and
      otherwise the property must start on a new line and, under
      denyCommaFirst, must not start on the line of its comma. */
  predicate PropertyIsValid(lit: ObjectLiteral, rule: PairRule, i: nat)
    requires Wf(lit) && 1 <= i < |lit.properties|
  {
    match rule
    case AlwaysRule(allowOpenBracket, denyCommaFirst) =>
      (allowOpenBracket && TrailingBracket(lit, i)) ||
      (OnNewLine(lit, i) && (!denyCommaFirst || FollowsComma(lit, i)))
    case CommaBeforeRule =>
      !FollowsComma(lit, i)
  }

  /** What a fix puts in place of the gap: "always" breaks the line,
      "never" joins the lines with a space. */
  function FixText(policy: Policy): string {
    if policy.Always? then "\n" else " "
  }

  function RuleFixText(rule: PairRule): string {
    if rule.AlwaysRule? then "\n" else " "
  }

  /** The body of every fix closure of the handler (lines 134-143, 168-177
      and 232-242): rewrite the gap between token k - 1 and token k, unless a
      comment is there. For a property, token k - 1 is its comma. */
  function FixBefore(lit: ObjectLiteral, k: nat, replacement: string): Option<Edit>
    requires Wf(lit) && 0 < k < |lit.tokens|
  {
    assert TokenPrecedes(lit.tokens, k - 1, k);
    GapFix(lit.text, lit.tokens[k - 1].rangeEnd, lit.tokens[k].rangeStart, replacement)
  }

  /** The report for property i, anchored at its first token. */
  function PairViolation(lit: ObjectLiteral, rule: PairRule, msg: string, i: nat): Violation
    requires Wf(lit) && 1 <= i < |lit.properties|
  {
    Violation(lit.properties[i].first, msg, FixBefore(lit, lit.properties[i].first, RuleFixText(rule)))
  }

  /** The reports of the pair loop over properties 1 .. n - 1, in order. */
  function PairReports(lit: ObjectLiteral, rule: PairRule, msg: string, n: nat): seq<Violation>
    requires Wf(lit) && (n <= |lit.properties| || n == 1)
    decreases n
  {
    if n <= 1 then []
    else PairReports(lit, rule, msg, n - 1) +
         (if PropertyIsValid(lit, rule, n - 1) then [] else [PairViolation(lit, rule, msg, n - 1)])
  }

  /** A token starts on a line after the one the previous token ends on. */
  predicate LineBreakBefore(ts: seq<Token>, k: nat)
    requires 0 < k < |ts|
  {
    ts[k].startLine > ts[k - 1].endLine
  }

  /** The report for the line break before token k, with the fix that
      replaces the gap between token k - 1 and token k by a space. */
  function BreakViolation(lit: ObjectLiteral, msg: string, k: nat): Violation
    requires Wf(lit) && 0 < k < |lit.tokens|
  {
    Violation(k, msg, FixBefore(lit, k, " "))
  }

  /** The reports of the scan over tokens[lo..hi]: one per line break between
      adjacent tokens of the span, in order. */
  function BreakReports(lit: ObjectLiteral, msg: string, lo: nat, hi: nat): seq<Violation>
    requires Wf(lit) && lo < hi <= |lit.tokens|
    decreases hi
  {
    if hi <= lo + 1 then []
    else BreakReports(lit, msg, lo, hi - 1) +
         (if LineBreakBefore(lit.tokens, hi - 1) then [BreakViolation(lit, msg, hi - 1)] else [])
  }

  /** Plain "never": nothing when the properties share one line, else every
      line break from the first property's first token to the last
      property's last token. */
  function NeverReports(lit: ObjectLiteral, msg: string): seq<Violation>
    requires Wf(lit) && |lit.properties| > 0
  {
    var lo, hi := lit.properties[0].first, lit.properties[|lit.properties| - 1].last;
    PropertiesSpan(lit);
    if AllOnOneLine(lit) then [] else BreakReports(lit, msg, lo, hi + 1)
  }

  /** "never" with unlessCommaBefore, as written: from property i on, report
      each property until the first for which followsSameLineComma holds,
      where the handler returns. */
  function CommaBeforeFrom(lit: ObjectLiteral, msg: string, i: nat): seq<Violation>
    requires Wf(lit) && 1 <= i
    decreases |lit.properties| - i
  {
    if i >= |lit.properties| then []
    else if FollowsComma(lit, i) then []
    else [PairViolation(lit, CommaBeforeRule, msg, i)] + CommaBeforeFrom(lit, msg, i + 1)
  }

  /** What the handler reports for one literal, branch by branch as written.
      Plain "never" reads properties[0] unguarded, so it needs a property. */
  function Reports(policy: Policy, lit: ObjectLiteral): seq<Violation>
    requires Wf(lit) && (policy == Never(false) ==> |lit.properties| > 0)
  {
    var msg := Message(policy);
    match policy
    case Never(allowCommaBefore) =>
      if allowCommaBefore then CommaBeforeFrom(lit, msg, 1) else NeverReports(lit, msg)
    case Always(allowSameLine, allowOpenBracket, denyCommaFirst) =>
      if allowSameLine then []
      else PairReports(lit, AlwaysRule(allowOpenBracket, denyCommaFirst), msg, |lit.properties|)
  }

  // ---------------------------------------------------------------------
  // The branches of the handler

  /** "never" with unlessCommaBefore (lines 120-146). */
  method CheckNeverCommaBefore(lit: ObjectLiteral, msg: string) returns (vs: seq<Violation>)
    requires Wf(lit)
    ensures vs == CommaBeforeFrom(lit, msg, 1)
  {
    var ts, ps := lit.tokens, lit.properties;
    vs := [];
    var i := 1;
    while i < |ps|
      invariant 1 <= i
      invariant vs + CommaBeforeFrom(lit, msg, i) == CommaBeforeFrom(lit, msg, 1)
      decreases |ps| - i
    {
      var first := ps[i].first;
      if FollowsSameLineComma(ts, first, ts[first].startLine) {
        return;
      }
      var comma := ts[first - 1];
      assert TokenPrecedes(ts, first - 1, first);
      var v := Violation(first, msg, GapFix(lit.text, comma.rangeEnd, ts[first].rangeStart, " "));
      assert CommaBeforeFrom(lit, msg, i) == [v] + CommaBeforeFrom(lit, msg, i + 1);
      vs := vs + [v];
      i := i + 1;
    }
  }

  /** The scan loop of plain "never" (lines 162-180) over the token sequence
      tokens[lo..hi]; a report names its token by its index in lit.tokens. */
  method ScanLineBreaks(lit: ObjectLiteral, msg: string, lo: nat, hi: nat) returns (vs: seq<Violation>)
    requires Wf(lit) && lo < hi <= |lit.tokens|
    ensures vs == BreakReports(lit, msg, lo, hi)
  {
    var tokens := lit.tokens[lo..hi];
    vs := [];
    var i := 1;
    while i < |tokens|
      invariant 1 <= i <= |tokens|
      invariant vs == BreakReports(lit, msg, lo, lo + i)
    {
      if tokens[i].startLine > tokens[i - 1].endLine {
        assert TokenPrecedes(lit.tokens, lo + i - 1, lo + i);
        var gap := GapFix(lit.text, tokens[i - 1].rangeEnd, tokens[i].rangeStart, " ");
        vs := vs + [Violation(lo + i, msg, gap)];
      }
      i := i + 1;
    }
  }

  /** Plain "never" (lines 147-183). */
  method CheckNever(lit: ObjectLiteral, msg: string) returns (vs: seq<Violation>)
    requires Wf(lit) && |lit.properties| > 0
    ensures vs == NeverReports(lit, msg)
  {
    var ts, ps := lit.tokens, lit.properties;
    var firstPropertyToken := ts[ps[0].first];
    var lastPropertyToken := ts[ps[|ps| - 1].last];
    if lastPropertyToken.endLine == firstPropertyToken.startLine {
      return [];
    }
    PropertiesSpan(lit);
    vs := ScanLineBreaks(lit, msg, ps[0].first, ps[|ps| - 1].last + 1);
  }

  /** One pass of the pair loop of plain "always" (lines 198-244): decide
      currentPropertyIsValid for property i under the four flag
      combinations, each written as the handler writes it, and report the
      property, with the fix that breaks the line after its comma, when it
      is not valid. */
  method CheckAlwaysProperty(lit: ObjectLiteral, allowOpenBracket: bool, denyCommaFirst: bool, msg: string, i: nat)
    returns (reported: seq<Violation>)
    requires Wf(lit) && 1 <= i < |lit.properties|
    ensures var rule := AlwaysRule(allowOpenBracket, denyCommaFirst);
            reported == if PropertyIsValid(lit, rule, i) then [] else [PairViolation(lit, rule, msg, i)]
  {
    var ts, ps := lit.tokens, lit.properties;
    var first := ps[i].first;
    var currentLine := ts[first].startLine;
    var onNewLine := ts[ps[i - 1].last].endLine < currentLine;
    var valid: bool;
    if !allowOpenBracket && !denyCommaFirst {
      valid := onNewLine;
    } else if allowOpenBracket && !denyCommaFirst {
      valid := onNewLine || IsTrailingOpenBracket(ts, first, currentLine);
    } else if !allowOpenBracket && denyCommaFirst {
      valid := onNewLine && FollowsSameLineComma(ts, first, currentLine);
    } else {
      valid := IsTrailingOpenBracket(ts, first, currentLine) ||
               (onNewLine && FollowsSameLineComma(ts, first, currentLine));
    }
    if valid {
      reported := [];
    } else {
      var comma := ts[first - 1];
      assert TokenPrecedes(ts, first - 1, first);
      reported := [Violation(first, msg, GapFix(lit.text, comma.rangeEnd, ts[first].rangeStart, "\n"))];
    }
  }

  /** Plain "always" (lines 196-246): the pair loop over properties 1 .. n - 1. */
  method CheckAlways(lit: ObjectLiteral, allowOpenBracket: bool, denyCommaFirst: bool, msg: string)
    returns (vs: seq<Violation>)
    requires Wf(lit)
    ensures vs == PairReports(lit, AlwaysRule(allowOpenBracket, denyCommaFirst), msg, |lit.properties|)
  {
    var ps := lit.properties;
    vs := [];
    if |ps| == 0 {
      return;
    }
    var i := 1;
    while i < |ps|
      invariant 1 <= i <= |ps|
      invariant vs == PairReports(lit, AlwaysRule(allowOpenBracket, denyCommaFirst), msg, i)
    {
      var reported := CheckAlwaysProperty(lit, allowOpenBracket, denyCommaFirst, msg, i);
      vs := vs + reported;
      i := i + 1;
    }
  }

  /** The handler as written: the four branches of lines 120-246. The
      allowSameLine branch returns early for a literal on one line and
      otherwise falls out of the if/else chain: it never reports. */
  method ObjectExpression(policy: Policy, lit: ObjectLiteral) returns (vs: seq<Violation>)
    requires Wf(lit) && (policy == Never(false) ==> |lit.properties| > 0)
    ensures vs == Reports(policy, lit)
  {
    var msg := Message(policy);
    vs := [];
    if policy.Never? && policy.allowCommaBefore {
      vs := CheckNeverCommaBefore(lit, msg);
    } else if policy.Never? {
      vs := CheckNever(lit, msg);
    } else if policy.allowSameLine {
      if |lit.properties| > 1 {
        if FirstTokenOf(lit, 0).startLine == LastTokenOf(lit, |lit.properties| - 1).endLine {
          return;
        }
      }
    } else {
      vs := CheckAlways(lit, policy.allowOpenBracket, policy.denyCommaFirst, msg);
    }
  }

  // ---------------------------------------------------------------------
  // What the report lists contain

  /** Report j of the pair loop over 1 .. n - 1 is that of an invalid property. */
  lemma {:induction false} PairReportIsInvalidProperty(lit: ObjectLiteral, rule: PairRule, msg: string, n: nat, j: nat)
    requires Wf(lit) && n <= |lit.properties| && j < |PairReports(lit, rule, msg, n)|
    ensures exists i :: 1 <= i < n && !PropertyIsValid(lit, rule, i) &&
                        PairReports(lit, rule, msg, n)[j] == PairViolation(lit, rule, msg, i)
  {
    var m := n - 1;
    if j < |PairReports(lit, rule, msg, m)| {
      PairReportIsInvalidProperty(lit, rule, msg, m, j);
      var i :| 1 <= i < m && !PropertyIsValid(lit, rule, i) &&
               PairReports(lit, rule, msg, m)[j] == PairViolation(lit, rule, msg, i);
      assert PairReports(lit, rule, msg, n)[j] == PairReports(lit, rule, msg, m)[j];
    } else {
      assert PairReports(lit, rule, msg, n)[j] == PairViolation(lit, rule, msg, m);
    }
  }

  /** The pair loop over 1 .. n - 1 reports every invalid property. */
  lemma {:induction false} PairReportsComplete(lit: ObjectLiteral, rule: PairRule, msg: string, n: nat)
    requires Wf(lit) && n <= |lit.properties|
    ensures forall i :: 1 <= i < n && !PropertyIsValid(lit, rule, i) ==>
              PairViolation(lit, rule, msg, i) in PairReports(lit, rule, msg, n)
  {
    if n > 1 {
      PairReportsComplete(lit, rule, msg, n - 1);
    }
  }

  /** The reports of the pair loop come in source order, one per property. */
  lemma {:induction false} PairReportsOrdered(lit: ObjectLiteral, rule: PairRule, msg: string, n: nat, j: nat, k: nat)
    requires Wf(lit) && n <= |lit.properties| && j < k < |PairReports(lit, rule, msg, n)|
    ensures PairReports(lit, rule, msg, n)[j].anchor < PairReports(lit, rule, msg, n)[k].anchor
  {
    var m := n - 1;
    assert PairReports(lit, rule, msg, n)[j] == PairReports(lit, rule, msg, m)[j];
    if k < |PairReports(lit, rule, msg, m)| {
      PairReportsOrdered(lit, rule, msg, m, j, k);
      assert PairReports(lit, rule, msg, n)[k] == PairReports(lit, rule, msg, m)[k];
    } else {
      PairReportIsInvalidProperty(lit, rule, msg, m, j);
      var i :| 1 <= i < m && !PropertyIsValid(lit, rule, i) &&
               PairReports(lit, rule, msg, m)[j] == PairViolation(lit, rule, msg, i);
      assert PropertyPrecedes(lit.properties, i, m);
      assert PairReports(lit, rule, msg, n)[k] == PairViolation(lit, rule, msg, m);
    }
  }

  /** Report j of the scan over tokens[lo..hi] is that of a line break. */
  lemma {:induction false} BreakReportIsLineBreak(lit: ObjectLiteral, msg: string, lo: nat, hi: nat, j: nat)
    requires Wf(lit) && lo < hi <= |lit.tokens| && j < |BreakReports(lit, msg, lo, hi)|
    ensures exists k :: lo < k < hi && LineBreakBefore(lit.tokens, k) &&
                        BreakReports(lit, msg, lo, hi)[j] == BreakViolation(lit, msg, k)
  {
    var m := hi - 1;
    if j < |BreakReports(lit, msg, lo, m)| {
      BreakReportIsLineBreak(lit, msg, lo, m, j);
      var k :| lo < k < m && LineBreakBefore(lit.tokens, k) &&
               BreakReports(lit, msg, lo, m)[j] == BreakViolation(lit, msg, k);
      assert BreakReports(lit, msg, lo, hi)[j] == BreakReports(lit, msg, lo, m)[j];
    } else {
      assert BreakReports(lit, msg, lo, hi)[j] == BreakViolation(lit, msg, m);
    }
  }

  /** The scan over tokens[lo..hi] reports every line break between them. */
  lemma {:induction false} BreakReportsComplete(lit: ObjectLiteral, msg: string, lo: nat, hi: nat)
    requires Wf(lit) && lo < hi <= |lit.tokens|
    ensures forall k :: lo < k < hi && LineBreakBefore(lit.tokens, k) ==>
              BreakViolation(lit, msg, k) in BreakReports(lit, msg, lo, hi)
  {
    if hi > lo + 1 {
      BreakReportsComplete(lit, msg, lo, hi - 1);
    }
  }

  /** The reports of the scan come in token order, one per token. */
  lemma {:induction false} BreakReportsOrdered(lit: ObjectLiteral, msg: string, lo: nat, hi: nat, j: nat, k: nat)
    requires Wf(lit) && lo < hi <= |lit.tokens| && j < k < |BreakReports(lit, msg, lo, hi)|
    ensures BreakReports(lit, msg, lo, hi)[j].anchor < BreakReports(lit, msg, lo, hi)[k].anchor
  {
    var m := hi - 1;
    assert BreakReports(lit, msg, lo, hi)[j] == BreakReports(lit, msg, lo, m)[j];
    if k < |BreakReports(lit, msg, lo, m)| {
      BreakReportsOrdered(lit, msg, lo, m, j, k);
      assert BreakReports(lit, msg, lo, hi)[k] == BreakReports(lit, msg, lo, m)[k];
    } else {
      BreakReportIsLineBreak(lit, msg, lo, m, j);
      assert BreakReports(lit, msg, lo, hi)[k] == BreakViolation(lit, msg, m);
    }
  }

  /** The early return of plain "never" changes nothing: when the first
      token of a span starts on the line its last token ends on, the scan
      would find no line break anyway. */
  lemma {:induction false} OneLineSpanHasNoBreaks(lit: ObjectLiteral, msg: string, lo: nat, hi: nat)
    requires Wf(lit) && lo < hi <= |lit.tokens|
    requires lit.tokens[lo].startLine == lit.tokens[hi - 1].endLine
    ensures BreakReports(lit, msg, lo, hi) == []
  {
    var ts := lit.tokens;
    if hi > lo + 1 {
      assert ts[lo].startLine <= ts[hi - 2].endLine by {
        if hi - 2 > lo { assert TokenPrecedes(ts, lo, hi - 2); }
      }
      assert TokenPrecedes(ts, hi - 2, hi - 1);
      OneLineSpanHasNoBreaks(lit, msg, lo, hi - 1);
    }
  }

  /** "never" with unlessCommaBefore, as written: report j from property i on
      is that of property i + j, which starts on the line its comma ends on. */
  lemma {:induction false} CommaBeforeReportAt(lit: ObjectLiteral, msg: string, i: nat, j: nat)
    requires Wf(lit) && 1 <= i && j < |CommaBeforeFrom(lit, msg, i)|
    ensures i + j < |lit.properties|
    ensures CommaBefore(lit, i + j).endLine == FirstTokenOf(lit, i + j).startLine
    ensures CommaBeforeFrom(lit, msg, i)[j] == PairViolation(lit, CommaBeforeRule, msg, i + j)
    decreases j
  {
    assert i < |lit.properties| && !FollowsComma(lit, i);
    assert CommaBeforeFrom(lit, msg, i) ==
           [PairViolation(lit, CommaBeforeRule, msg, i)] + CommaBeforeFrom(lit, msg, i + 1);
    if j == 0 {
      FollowsCommaMeansCommaOnEarlierLine(lit, i);
    } else {
      CommaBeforeReportAt(lit, msg, i + 1, j - 1);
      assert CommaBeforeFrom(lit, msg, i)[j] == CommaBeforeFrom(lit, msg, i + 1)[j - 1];
    }
  }

  /** ... and the run stops at the first property for which
      followsSameLineComma holds, or at the end of the literal. */
  lemma {:induction false} CommaBeforeRunEnd(lit: ObjectLiteral, msg: string, i: nat)
    requires Wf(lit) && 1 <= i
    ensures i + |CommaBeforeFrom(lit, msg, i)| < |lit.properties| ==>
              FollowsComma(lit, i + |CommaBeforeFrom(lit, msg, i)|)
    decreases |lit.properties| - i
  {
    if i < |lit.properties| && !FollowsComma(lit, i) {
      CommaBeforeRunEnd(lit, msg, i + 1);
    }
  }
}
