/** Text edits as data: a range of the source text and its replacement.
    The rule never writes to the text; it proposes an Edit, or declines to
    (None) when the gap it would rewrite holds something other than
    whitespace, which in a token stream without comments means a comment. */
module Edits {

  datatype Option<+T> = None | Some(value: T)

  /** Replace text[start..end] with replacement. */
  datatype Edit = Edit(start: nat, end: nat, replacement: string)

  /** The characters that String.prototype.trim removes: the ECMAScript
      WhiteSpace set (tab, VT, FF, space, NBSP, BOM and the Zs category) and
      the LineTerminator set (LF, CR, LS, PS). */
  predicate IsWhitespace(c: char) {
    c == '\t' || c == '\n' || c == '\U{000B}' || c == '\U{000C}' || c == '\r' ||
    c == ' ' || c == '\U{00A0}' || c == '\U{1680}' || ('\U{2000}' <= c <= '\U{200A}') ||
    c == '\U{2028}' || c == '\U{2029}' || c == '\U{202F}' || c == '\U{205F}' ||
    c == '\U{3000}' || c == '\U{FEFF}'
  }

  /** `s.trim()` is the empty string (falsy). */
  predicate Blank(s: string) {
    forall k :: 0 <= k < |s| ==> IsWhitespace(s[k])
  }

  /** The text with every whitespace character removed: what a whitespace-only
      edit must leave unchanged. */
  function Visible(s: string): (r: string)
    ensures |r| <= |s|
  {
    if s == [] then []
    else if IsWhitespace(s[0]) then Visible(s[1..])
    else [s[0]] + Visible(s[1..])
  }

  predicate ValidFor(e: Edit, text: string) {
    e.start <= e.end <= |text|
  }

  /** The host's replaceTextRange, applied once. */
  function ApplyEdit(text: string, e: Edit): (r: string)
    requires ValidFor(e, text)
    ensures |r| == |text| - (e.end - e.start) + |e.replacement|
    ensures r[..e.start] == text[..e.start]
    ensures r[e.start..e.start + |e.replacement|] == e.replacement
    ensures r[e.start + |e.replacement|..] == text[e.end..]
  {
    text[..e.start] + e.replacement + text[e.end..]
  }

  /** The body of every fix closure of the rule: propose replacing the gap
      text[start..end] with replacement unless the gap holds non-whitespace. */
  function GapFix(text: string, start: nat, end: nat, replacement: string): Option<Edit>
    requires start <= end <= |text|
  {
    if Blank(text[start..end]) then Some(Edit(start, end, replacement)) else None
  }

  /** A fix declines exactly when some character of the gap is not
      whitespace (a comment), and otherwise rewrites exactly the gap. */
  lemma GapFixDeclinesOnComment(text: string, start: nat, end: nat, replacement: string)
    requires start <= end <= |text|
    ensures GapFix(text, start, end, replacement).None? <==>
              exists k :: start <= k < end && !IsWhitespace(text[k])
    ensures GapFix(text, start, end, replacement).Some? ==>
              GapFix(text, start, end, replacement).value == Edit(start, end, replacement)
  {
    if exists k :: start <= k < end && !IsWhitespace(text[k]) {
      var k :| start <= k < end && !IsWhitespace(text[k]);
      assert text[start..end][k - start] == text[k];
    }
  }

  lemma {:induction false} VisibleConcat(a: string, b: string)
    ensures Visible(a + b) == Visible(a) + Visible(b)
  {
    if a == [] {
      assert a + b == b;
    } else {
      assert (a + b)[1..] == a[1..] + b;
      VisibleConcat(a[1..], b);
    }
  }

  lemma {:induction false} VisibleOfBlank(s: string)
    requires Blank(s)
    ensures Visible(s) == []
  {
    if s != [] {
      assert Blank(s[1..]) by {
        forall k | 0 <= k < |s[1..]| ensures IsWhitespace(s[1..][k]) {
          assert s[1..][k] == s[k + 1];
        }
      }
      VisibleOfBlank(s[1..]);
    }
  }

  /** A fix that replaces a blank gap by blank text changes nothing but
      whitespace: outside the range the text is untouched (ApplyEdit's
      contract), and no visible character is added, lost or reordered. */
  lemma WhitespaceEditKeepsVisible(text: string, e: Edit)
    requires ValidFor(e, text)
    requires Blank(text[e.start..e.end]) && Blank(e.replacement)
    ensures Visible(ApplyEdit(text, e)) == Visible(text)
  {
    var pre, gap, post := text[..e.start], text[e.start..e.end], text[e.end..];
    assert text == pre + gap + post;
    VisibleConcat(pre + gap, post);
    VisibleConcat(pre, gap);
    VisibleConcat(pre + e.replacement, post);
    VisibleConcat(pre, e.replacement);
    VisibleOfBlank(gap);
    VisibleOfBlank(e.replacement);
  }

  /** Every edit GapFix proposes with a blank replacement is whitespace-only. */
  lemma GapFixKeepsVisible(text: string, start: nat, end: nat, replacement: string)
    requires start <= end <= |text| && Blank(replacement)
    ensures GapFix(text, start, end, replacement).Some? ==>
              Visible(ApplyEdit(text, GapFix(text, start, end, replacement).value)) == Visible(text)
  {
    var r := GapFix(text, start, end, replacement);
    if r.Some? {
      WhitespaceEditKeepsVisible(text, r.value);
    }
  }
}
