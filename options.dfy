/** Option resolution and message composition, done once when the rule is
    created (create, lines 51-84 of the rule). */
module RuleOptions {

  /** The keys of the options object. A key that is absent reads as
      `undefined`, and Boolean(undefined) is false, so absence is false. */
  datatype Settings = Settings(
    allowAllPropertiesOnSameLine: bool,
    allowMultiplePropertiesPerLine: bool,   // deprecated alias
    treatComputedPropertiesLikeJSCS: bool,
    noCommaFirst: bool,
    unlessCommaBefore: bool)

  const NoSettings := Settings(false, false, false, false, false)

  /** One element of context.options: the mode string or the options object. */
  datatype OptionValue = ModeName(name: string) | SettingsObject(settings: Settings)

  /** The resolved configuration. Each mode carries only its own flags;
      the other mode's variables stay undefined in the rule, which every
      use treats as false. */
  datatype Policy =
    | Never(allowCommaBefore: bool)
    | Always(allowSameLine: bool, allowOpenBracket: bool, denyCommaFirst: bool)

  /** `options[i] && Boolean(options[i].key)` for every key at once: an
      index outside the array gives undefined (falsy), and the mode string
      has none of the keys, so both read as all-false. */
  function SettingsAt(options: seq<OptionValue>, i: int): Settings {
    if 0 <= i < |options| && options[i].SettingsObject? then options[i].settings else NoSettings
  }

  function Resolve(options: seq<OptionValue>): (p: Policy)
    ensures p.Never? <==> |options| > 0 && options[0] == ModeName("never")
    ensures p.Never? ==> p.allowCommaBefore == SettingsAt(options, 1).unlessCommaBefore
  {
    if |options| > 0 && options[0] == ModeName("never") then
      Never(SettingsAt(options, 1).unlessCommaBefore)
    else
      var s := SettingsAt(options, |options| - 1);
      Always(s.allowAllPropertiesOnSameLine || s.allowMultiplePropertiesPerLine,
             s.treatComputedPropertiesLikeJSCS,
             s.noCommaFirst)
  }

  /** Under "always" the flags come from the last element, so a lone
      options object and "always" followed by it resolve alike, and no
      "never" flag leaks in. */
  lemma AlwaysReadsLastElement(s: Settings)
    ensures Resolve([SettingsObject(s)]) == Resolve([ModeName("always"), SettingsObject(s)])
    ensures Resolve([SettingsObject(s)]) ==
              Always(s.allowAllPropertiesOnSameLine || s.allowMultiplePropertiesPerLine,
                     s.treatComputedPropertiesLikeJSCS, s.noCommaFirst)
  {
  }

  /** With no options at all, or only "always", every flag is off. */
  lemma DefaultsAreAlwaysWithoutFlags()
    ensures Resolve([]) == Always(false, false, false)
    ensures Resolve([ModeName("always")]) == Always(false, false, false)
  {
  }

  /** The deprecated allowMultiplePropertiesPerLine has exactly the effect of
      allowAllPropertiesOnSameLine. */
  lemma DeprecatedAliasIsSynonym(options: seq<OptionValue>, s: Settings)
    requires |options| > 0 && options[|options| - 1] == SettingsObject(s)
    requires !(options[0] == ModeName("never"))
    ensures Resolve(options).allowSameLine <==>
              s.allowAllPropertiesOnSameLine || s.allowMultiplePropertiesPerLine
    ensures Resolve(options[|options| - 1 := SettingsObject(s.(allowMultiplePropertiesPerLine := false,
                                                            allowAllPropertiesOnSameLine := true))]) ==
            Resolve(options[|options| - 1 := SettingsObject(s.(allowMultiplePropertiesPerLine := true,
                                                            allowAllPropertiesOnSameLine := false))])
  {
  }

  const NeverCommaBeforeMessage := "No two properties of an object may be on different lines unless the second property starts on the same line as the delimiting comma."
  const NeverMessage := "No two properties of an object may be on different lines."
  const SameLineMessage := "No two object properties may be on the same line if they aren't all on the same line."
  const AlwaysMessage := "No two object properties may be on the same line."
  const BracketSentence := " The opening bracket of a computed property name may end a line on which another property appears."
  const CommaFirstSentence := " The comma delimiting two properties may not share a line with any of the second property."

  /** errorMessage: the one message used by every report under a policy. */
  function Message(p: Policy): string {
    match p
    case Never(allowCommaBefore) =>
      if allowCommaBefore then NeverCommaBeforeMessage else NeverMessage
    case Always(allowSameLine, allowOpenBracket, denyCommaFirst) =>
      (if allowSameLine then SameLineMessage else AlwaysMessage) +
      (if allowOpenBracket then BracketSentence else "") +
      (if denyCommaFirst then CommaFirstSentence else "")
  }

  /** The message as create builds it (lines 65-84): a base sentence, then
      under "always" one sentence appended per flag. */
  method BuildErrorMessage(p: Policy) returns (errorMessage: string)
    ensures errorMessage == Message(p)
  {
    if p.Never? && p.allowCommaBefore {
      errorMessage := NeverCommaBeforeMessage;
    } else if p.Never? {
      errorMessage := NeverMessage;
    } else {
      errorMessage := if p.allowSameLine then SameLineMessage else AlwaysMessage;
      if p.allowOpenBracket {
        errorMessage := errorMessage + BracketSentence;
      }
      if p.denyCommaFirst {
        errorMessage := errorMessage + CommaFirstSentence;
      }
    }
  }

  /** Under "always" the message opens with the sentence chosen by
      allowSameLine alone, continues with the computed-bracket sentence
      exactly when allowOpenBracket is set, and ends with the comma-first
      sentence exactly when denyCommaFirst is set. */
  lemma AlwaysMessageSentences(p: Policy)
    requires p.Always?
    ensures var base := if p.allowSameLine then SameLineMessage else AlwaysMessage;
            |base| <= |Message(p)| && Message(p)[..|base|] == base
    ensures var base := if p.allowSameLine then SameLineMessage else AlwaysMessage;
            var m := Message(p);
            p.allowOpenBracket <==>
              |base| + |BracketSentence| <= |m| && m[|base|..|base| + |BracketSentence|] == BracketSentence
    ensures var m := Message(p);
            p.denyCommaFirst <==>
              |CommaFirstSentence| <= |m| && m[|m| - |CommaFirstSentence|..] == CommaFirstSentence
  {
    var m := Message(p);
    var base := if p.allowSameLine then SameLineMessage else AlwaysMessage;
    var mid := if p.allowOpenBracket then BracketSentence else "";
    assert m == base + mid + (if p.denyCommaFirst then CommaFirstSentence else "");
    assert m[..|base|] == base;
    // Without the bracket sentence, at most the comma-first sentence follows
    // the base, and it is shorter than the bracket sentence.
    if p.allowOpenBracket {
      assert m[|base|..|base| + |BracketSentence|] == BracketSentence;
    }
    if !p.denyCommaFirst && |CommaFirstSentence| <= |m| {
      // The last character of the comma-first sentence is '.', preceded by "y"
      // ("property."); none of the sentences that can end m ends that way.
      assert m[|m| - 2] != CommaFirstSentence[|CommaFirstSentence| - 2];
    }
  }

  /** Distinct policies have distinct messages: the message names the
      resolved flags completely (every combination has its own length). */
  lemma MessageIdentifiesPolicy(p: Policy, q: Policy)
    ensures Message(p) == Message(q) <==> p == q
  {
    if Message(p) == Message(q) {
      assert |Message(p)| == |Message(q)|;
    }
  }
}
