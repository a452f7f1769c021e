/** The host's view of one object literal, as the rule sees it through the
    token accessors: the token stream (comments excluded), each property as
    the indices of its first and last token, and the source text. */
module Layout {

  datatype TokenType = Punctuator | Identifier | Keyword | Literal | Template | RegularExpression

  /** A token with its value, the lines it starts and ends on and its
      [rangeStart, rangeEnd) offsets in the source text. */
  datatype Token = Token(kind: TokenType, value: string,
                         startLine: nat, endLine: nat,
                         rangeStart: nat, rangeEnd: nat)

  /** A property of the literal: the indices of its first and last token. */
  datatype Property = Property(first: nat, last: nat)

  datatype ObjectLiteral = ObjectLiteral(tokens: seq<Token>, properties: seq<Property>, text: string)

  predicate IsComma(t: Token) {
    t.kind == Punctuator && t.value == ","
  }

  /** Token a ends, in lines and in offsets, no later than token b starts. */
  predicate TokenPrecedes(ts: seq<Token>, a: nat, b: nat)
    requires a < |ts| && b < |ts|
  {
    ts[a].endLine <= ts[b].startLine && ts[a].rangeEnd <= ts[b].rangeStart
  }

  /** Tokens lie in the text, in order: no token ends after a later one
      starts, in lines or in offsets. */
  predicate TokensOrdered(ts: seq<Token>, text: string) {
    (forall k :: 0 <= k < |ts| ==>
       ts[k].startLine <= ts[k].endLine && ts[k].rangeStart <= ts[k].rangeEnd <= |text|) &&
    (forall a, b :: 0 <= a < b < |ts| ==> TokenPrecedes(ts, a, b))
  }

  /** Property i ends, with room for a comma after it, before property j starts. */
  predicate PropertyPrecedes(ps: seq<Property>, i: nat, j: nat)
    requires i < |ps| && j < |ps|
  {
    ps[i].last + 1 < ps[j].first
  }

  /** Properties are in source order and, as the JavaScript grammar makes
      them, enclosed by the literal's braces and separated by commas: there
      is a token before the first property and after the last, and the token
      just before every property but the first is the delimiting comma. */
  predicate PropertiesPlaced(ts: seq<Token>, ps: seq<Property>) {
    (forall i :: 0 <= i < |ps| ==> 0 < ps[i].first <= ps[i].last < |ts| - 1) &&
    (forall i, j :: 0 <= i < j < |ps| ==> PropertyPrecedes(ps, i, j)) &&
    (forall i :: 1 <= i < |ps| ==> IsComma(ts[ps[i].first - 1]))
  }

  predicate Wf(lit: ObjectLiteral) {
    TokensOrdered(lit.tokens, lit.text) && PropertiesPlaced(lit.tokens, lit.properties)
  }

  /** isTrailingOpenBracket: token k is the punctuator "[" and the token after
      it starts on a line after `line`. */
  predicate IsTrailingOpenBracket(ts: seq<Token>, k: nat, line: nat)
    requires k + 1 < |ts|
  {
    ts[k].kind == Punctuator && ts[k].value == "[" && ts[k + 1].startLine > line
  }

  /** followsSameLineComma: despite its name, true when the token before
      token k is NOT a comma ending on `line`. */
  predicate FollowsSameLineComma(ts: seq<Token>, k: nat, line: nat)
    requires 0 < k < |ts|
  {
    ts[k - 1].kind != Punctuator || ts[k - 1].value != "," || ts[k - 1].endLine != line
  }

  // Views of property i of a well-formed literal.

  function FirstTokenOf(lit: ObjectLiteral, i: nat): Token
    requires Wf(lit) && i < |lit.properties|
  {
    lit.tokens[lit.properties[i].first]
  }

  function LastTokenOf(lit: ObjectLiteral, i: nat): Token
    requires Wf(lit) && i < |lit.properties|
  {
    lit.tokens[lit.properties[i].last]
  }

  /** The comma that delimits property i from property i - 1. */
  function CommaBefore(lit: ObjectLiteral, i: nat): Token
    requires Wf(lit) && 1 <= i < |lit.properties|
  {
    lit.tokens[lit.properties[i].first - 1]
  }

  /** currentPropertyIsOnNewLine: the previous property ends on a line before
      the one property i starts on. */
  predicate OnNewLine(lit: ObjectLiteral, i: nat)
    requires Wf(lit) && 1 <= i < |lit.properties|
  {
    LastTokenOf(lit, i - 1).endLine < FirstTokenOf(lit, i).startLine
  }

  predicate TrailingBracket(lit: ObjectLiteral, i: nat)
    requires Wf(lit) && i < |lit.properties|
  {
    IsTrailingOpenBracket(lit.tokens, lit.properties[i].first, FirstTokenOf(lit, i).startLine)
  }

  predicate FollowsComma(lit: ObjectLiteral, i: nat)
    requires Wf(lit) && i < |lit.properties|
  {
    FollowsSameLineComma(lit.tokens, lit.properties[i].first, FirstTokenOf(lit, i).startLine)
  }

  /** In a well-formed literal the token before property i is its comma, so
      "followsSameLineComma" reduces to: that comma ends on an earlier line
      than the property starts on. */
  lemma FollowsCommaMeansCommaOnEarlierLine(lit: ObjectLiteral, i: nat)
    requires Wf(lit) && 1 <= i < |lit.properties|
    ensures FollowsComma(lit, i) <==> CommaBefore(lit, i).endLine < FirstTokenOf(lit, i).startLine
  {
    var k := lit.properties[i].first;
    assert TokenPrecedes(lit.tokens, k - 1, k);
  }

  /** A property whose comma ends on an earlier line is on a new line:
      the previous property ends before its comma. */
  lemma FollowsCommaImpliesOnNewLine(lit: ObjectLiteral, i: nat)
    requires Wf(lit) && 1 <= i < |lit.properties|
    ensures FollowsComma(lit, i) ==> OnNewLine(lit, i)
  {
    FollowsCommaMeansCommaOnEarlierLine(lit, i);
    var ts, ps := lit.tokens, lit.properties;
    assert PropertyPrecedes(ps, i - 1, i);
    assert TokenPrecedes(ts, ps[i - 1].last, ps[i].first - 1);
  }

  /** The literal's properties all lie on one line: the first property's first
      token starts where the last property's last token ends. */
  predicate AllOnOneLine(lit: ObjectLiteral)
    requires Wf(lit) && |lit.properties| > 0
  {
    FirstTokenOf(lit, 0).startLine == LastTokenOf(lit, |lit.properties| - 1).endLine
  }

  /** The properties span from the first one's first token to the last one's
      last token. */
  lemma PropertiesSpan(lit: ObjectLiteral)
    requires Wf(lit) && |lit.properties| > 0
    ensures lit.properties[0].first <= lit.properties[|lit.properties| - 1].last
  {
    var ps := lit.properties;
    if |ps| > 1 {
      assert PropertyPrecedes(ps, 0, |ps| - 1);
    }
  }

  /** Token k ends no later than token k + 1 starts. */
  predicate NextTokenFollows(ts: seq<Token>, k: nat)
    requires k + 1 < |ts|
  {
    TokenPrecedes(ts, k, k + 1)
  }

  /** Order between neighbours extends to every pair of tokens. */
  lemma {:induction false} NeighbourOrderExtends(ts: seq<Token>, a: nat, b: nat)
    requires forall k :: 0 <= k < |ts| ==> ts[k].startLine <= ts[k].endLine && ts[k].rangeStart <= ts[k].rangeEnd
    requires forall k :: 0 <= k < |ts| - 1 ==> NextTokenFollows(ts, k)
    requires a < b < |ts|
    ensures TokenPrecedes(ts, a, b)
    decreases b - a
  {
    assert NextTokenFollows(ts, b - 1);
    if a < b - 1 {
      NeighbourOrderExtends(ts, a, b - 1);
    }
  }

  /** So a token sequence is ordered as soon as each token follows its
      predecessor. */
  lemma NeighbourOrderSuffices(ts: seq<Token>, text: string)
    requires forall k :: 0 <= k < |ts| ==>
               ts[k].startLine <= ts[k].endLine && ts[k].rangeStart <= ts[k].rangeEnd <= |text|
    requires forall k :: 0 <= k < |ts| - 1 ==> NextTokenFollows(ts, k)
    ensures TokensOrdered(ts, text)
  {
    forall a, b | 0 <= a < b < |ts|
      ensures TokenPrecedes(ts, a, b)
    {
      NeighbourOrderExtends(ts, a, b);
    }
  }
}
