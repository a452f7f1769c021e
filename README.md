# object-property-newline, modelled in Dafny

The ESLint rule `object-property-newline` checks how the properties of an
object literal are laid out over lines. It has two modes:

- "always" (the default) wants every property on its own line. Three
  options change that:
  - `allowAllPropertiesOnSameLine` accepts a literal whose properties all
    share one line. `allowMultiplePropertiesPerLine` is its deprecated alias.
  - `treatComputedPropertiesLikeJSCS` accepts a computed key whose `[` ends a line.
  - `noCommaFirst` rejects a property that starts on the line of its comma.
- "never" wants no line breaks between properties. With `unlessCommaBefore`
  it accepts a property that starts on the line its comma ends on.

For each literal the rule reports offending places. It offers a
whitespace-only fix: a line break ("always") or a space ("never") in place
of the gap before the reported token. It declines to fix a gap that holds a
comment.

The model has six modules:

- `Edits` (`edits.dfy`): text edits as data. It holds the comment guard of
  every fix closure and the host's `replaceTextRange`.
- `Layout` (`layout.dfy`): the host's view of one literal. This is the token
  stream without comments, each property as the indices of its first and last
  token, and the text. It also holds the two helper predicates
  `isTrailingOpenBracket` and `followsSameLineComma`.
- `RuleOptions` (`options.dfy`): option resolution and the error message, as
  `create` computes them.
- `ObjectPropertyNewline` (`handler.dfy`): the `ObjectExpression` handler as
  written. Each branch is a method whose loop appends reports to a sequence.
  It is proved equal to a specification function, and lemmas say what those
  lists contain.
- `HandlerProperties` (`properties.dfy`): what the reports mean for every
  policy. This covers exact characterisations, where a report points, its
  message and fix, and ordering.
- `Corrections` (`corrections.dfy`): the handler as its test suite describes
  it, beside the handler as written (see "Findings").

## Model

| member | source | states |
|---|---|---|
| RuleOptions.Resolve | lib/rules/object-property-newline.js:51-64 | The mode is "never" exactly when the first option is the string "never"; then `unlessCommaBefore` is read from the second option. |
| RuleOptions.AlwaysReadsLastElement | lib/rules/object-property-newline.js:57-63 | Under "always" the flags come from the last option, so `[obj]` and `["always", obj]` resolve alike, each flag read as `Boolean(...)`. |
| RuleOptions.DefaultsAreAlwaysWithoutFlags | lib/rules/object-property-newline.js:51-63 | No options, or only "always", give "always" with every flag off. |
| RuleOptions.DeprecatedAliasIsSynonym | lib/rules/object-property-newline.js:58-61 | `allowMultiplePropertiesPerLine` has exactly the effect of `allowAllPropertiesOnSameLine`: swapping one for the other changes nothing. |
| RuleOptions.BuildErrorMessage | lib/rules/object-property-newline.js:65-84 | The step-by-step message construction (base sentence, then `+=` per flag) yields the policy's message. |
| RuleOptions.AlwaysMessageSentences | lib/rules/object-property-newline.js:72-84 | Under "always" the message opens with the sentence chosen by `allowSameLine`. The bracket sentence follows it iff `allowOpenBracket`. The message ends with the comma-first sentence iff `denyCommaFirst`. |
| RuleOptions.MessageIdentifiesPolicy | lib/rules/object-property-newline.js:65-84 | Two policies have the same message iff they are equal: the message names every resolved flag. |
| Edits.ApplyEdit | lib/rules/object-property-newline.js:142 | `replaceTextRange` leaves the text before and after the range untouched and puts the replacement in between. |
| Edits.GapFixDeclinesOnComment | lib/rules/object-property-newline.js:136-142 | A fix returns null iff the gap holds a character that `trim` keeps; otherwise it replaces exactly the gap. |
| Edits.WhitespaceEditKeepsVisible | lib/rules/object-property-newline.js:138-142 | Replacing a blank range by blank text keeps every non-whitespace character, in order. |
| Edits.GapFixKeepsVisible | lib/rules/object-property-newline.js:134-143 | Every fix that does not decline changes only whitespace (the rule is `fixable: "whitespace"`). |
| Layout.FollowsCommaMeansCommaOnEarlierLine | lib/rules/object-property-newline.js:110-116 | In a literal, `followsSameLineComma` for a property holds iff its delimiting comma ends on an earlier line than the property starts on. |
| Layout.FollowsCommaImpliesOnNewLine | lib/rules/object-property-newline.js:198-202 | A property whose comma ends on an earlier line is on a new line after the previous property. |
| Layout.PropertiesSpan | lib/rules/object-property-newline.js:150-151 | The first property's first token does not come after the last property's last token. |
| ObjectPropertyNewline.CheckNeverCommaBefore | lib/rules/object-property-newline.js:120-146 | The "never" + `unlessCommaBefore` loop, including its early return, produces the report list `CommaBeforeFrom(1)`. |
| ObjectPropertyNewline.ScanLineBreaks | lib/rules/object-property-newline.js:162-180 | The scan over adjacent tokens produces the list of line-break reports `BreakReports`. |
| ObjectPropertyNewline.CheckNever | lib/rules/object-property-newline.js:147-183 | Plain "never", with its early return for a literal on one line, produces `NeverReports`. |
| ObjectPropertyNewline.CheckAlwaysProperty | lib/rules/object-property-newline.js:198-244 | The four-way flag test of `currentPropertyIsValid` agrees with `PropertyIsValid`; an invalid property gets exactly one report with the line-break fix. |
| ObjectPropertyNewline.CheckAlways | lib/rules/object-property-newline.js:196-246 | The pair loop over properties 1..n-1 produces `PairReports`. |
| ObjectPropertyNewline.ObjectExpression | lib/rules/object-property-newline.js:119-247 | The handler, branch by branch, produces `Reports(policy, lit)`. |
| ObjectPropertyNewline.PairReportIsInvalidProperty | lib/rules/object-property-newline.js:227-243 | Every report of the pair loop is that of a property that is not valid. |
| ObjectPropertyNewline.PairReportsComplete | lib/rules/object-property-newline.js:197-245 | Every property that is not valid is reported. |
| ObjectPropertyNewline.PairReportsOrdered | lib/rules/object-property-newline.js:197 | Pair-loop reports point at strictly increasing tokens. |
| ObjectPropertyNewline.BreakReportIsLineBreak | lib/rules/object-property-newline.js:163-178 | Every scan report is that of a token starting on a later line than its predecessor ends on. |
| ObjectPropertyNewline.BreakReportsComplete | lib/rules/object-property-newline.js:162-180 | Every such line break in the span is reported. |
| ObjectPropertyNewline.BreakReportsOrdered | lib/rules/object-property-newline.js:162 | Scan reports point at strictly increasing tokens. |
| ObjectPropertyNewline.OneLineSpanHasNoBreaks | lib/rules/object-property-newline.js:155-157 | The early return for a span on one line loses nothing: the scan would report nothing there. |
| ObjectPropertyNewline.CommaBeforeReportAt | lib/rules/object-property-newline.js:121-144 | As written, report j of the `unlessCommaBefore` loop is that of property 1+j, whose comma ends on the line the property starts on. |
| ObjectPropertyNewline.CommaBeforeRunEnd | lib/rules/object-property-newline.js:126-128 | As written, the loop stops at the first property whose comma ends on an earlier line, or at the end. |
| HandlerProperties.PairReportsExact | lib/rules/object-property-newline.js:205-227 | The pair loop reports property i iff it is not valid (both directions). |
| HandlerProperties.BreakReportsExact | lib/rules/object-property-newline.js:162-180 | The scan reports the break before token k iff there is one (both directions). |
| HandlerProperties.NeverReportsExactlyLineBreaks | lib/rules/object-property-newline.js:147-183 | Plain "never" reports a token of the property span iff it starts on a later line than the previous token ends on. |
| HandlerProperties.AlwaysReportsExactlyInvalidProperties | lib/rules/object-property-newline.js:196-246 | Plain "always" reports property i iff it is not valid under the two flags. |
| HandlerProperties.ReportAt | lib/rules/object-property-newline.js:130-143 | Every report points at a token strictly after the first property's first token and no later than the last property's last token. It carries the policy's message and the fix for the gap before that token, with the policy's text. |
| HandlerProperties.FixBeforeOnlyMovesWhitespace | lib/rules/object-property-newline.js:232-242 | The fix for a token declines iff a comment lies in the gap before it; otherwise it rewrites exactly that gap and changes only whitespace. |
| HandlerProperties.ReportsInSourceOrder | lib/rules/object-property-newline.js:119-247 | Under every policy, reports come in source order, at most one per token. |
| HandlerProperties.FewPropertiesNoReports | lib/rules/object-property-newline.js:121 | A literal with at most one property gets no report, except under plain "never". |
| HandlerProperties.OpenBracketOnlyExcuses | lib/rules/object-property-newline.js:209-212 | `treatComputedPropertiesLikeJSCS` only excuses: every report made with it is also made without it. |
| HandlerProperties.CommaFirstOnlyAdds | lib/rules/object-property-newline.js:213-223 | `noCommaFirst` only adds: every report made without it is also made with it. |
| Corrections.CommaBeforeAsWrittenReportsOnlyAccepted | lib/rules/object-property-newline.js:126-128 | As written, no report of the `unlessCommaBefore` branch is one the tests expect: as-written and intended reports are disjoint. |
| Corrections.CommaBeforeAsWrittenStopsAtFirstBreak | lib/rules/object-property-newline.js:126-128 | As written, a literal whose second property starts on a line after its comma gets no report; as intended, that property is reported. |
| Corrections.CommaBeforeOneLineLiteral | lib/rules/object-property-newline.js:120-146 | A literal with n >= 2 properties all on one line gets n-1 reports as written, none as intended. |
| Corrections.IntendedCommaBeforeExact | lib/rules/object-property-newline.js:120-146 | As intended, property i is reported iff it starts on a line after the line its comma ends on. |
| Corrections.SameLineAsWrittenNeverReports | lib/rules/object-property-newline.js:184-195 | As written, the `allowAllPropertiesOnSameLine` branch never reports. |
| Corrections.IntendedSameLineExact | lib/rules/object-property-newline.js:184-195 | As intended, property i is reported iff the properties are not all on one line and i is not valid under the other two flags. |
| Corrections.SameLineTestScenario | lib/rules/object-property-newline.js:184-195 | For the literal `{\nk1: 'val1',\nk2: 'val2', k3: 'val3'\n}`, the code as written reports nothing. The intended handler reports only k3, with the fix that breaks the line after k2's comma. |
| Corrections.IntendedAgreesElsewhere | lib/rules/object-property-newline.js:119-247 | Outside those two branches, and for literals with properties, the intended handler is the handler as written. |
| Corrections.IntendedFewPropertiesNoReports | lib/rules/object-property-newline.js:148-150 | As intended, a literal without properties is never reported, and one with a single property only under plain "never". |

## Left out

- `meta` (lines 13-48): documentation and the JSON schema, which the host
  enforces. Only the resolved option values are modelled. An unset flag reads
  as `undefined` in the rule, and every use treats it as false, so it is
  modelled as false.
- Line 54 lacks the closing parenthesis of `Boolean(`. The model takes the
  evident reading, `Boolean(context.options[1].unlessCommaBefore)`.
- The host collaborators are not part of this model and become data:
  - `context.report` and `fixer.replaceTextRange` become a `Violation` value
    and an `Edit`.
  - The `sourceCode` token accessors become the token sequence and property
    indices of `ObjectLiteral`.
  - AST traversal, JavaScript parsing and the multi-pass fix-application
    pipeline are left out. Nested literals are separate visits.
- Reports and ObjectExpression require at least one property under plain
  "never". Line 150 reads `properties[0]` without a guard, so the code as
  written throws on `{}`. The intended handler (`Corrections.IntendedReports`)
  treats `{}` as valid.
- CheckNever and ScanLineBreaks scan the contiguous token span in source
  order, from the first property's first token to the last property's last
  token. Lines 159-161 build the list with `push` of whole arrays: the first
  property's tokens, then one element holding the array of the last
  property's tokens, then one holding the tokens in between. The loop at
  line 163 would read `.loc` of an array and throw once past the first
  property's tokens. That list assembly is not modelled.
- NeverReports: plain "never" reports line breaks inside a single property
  too, because the scan covers every token of the span. The test at line 119
  of the tests expects a one-property literal spread over lines to be valid.
  The model keeps the scan as written and does not correct this.
- Column numbers of report locations and the node-level location are left
  out. Decisions use lines only, and a report points at its token by index.
- Idempotence (applying the fixes and linting again reports nothing) is not
  modelled, because it needs re-tokenising the fixed text. The model proves
  only that each fix changes whitespace alone and rewrites exactly the gap
  before the reported token.
- Dead code is not modelled: `propertiesText` (lines 152-153) and
  `currentPropertyIsValid` at line 124.

## Findings

| source | as written | input that shows it | evidently intended | confidence | as-written member | corrected member |
|---|---|---|---|---|---|---|
| lib/rules/object-property-newline.js:126-128 | The loop returns at the first property that starts on a line after its comma. It reports every property before that one, each of which starts on its comma's line. | `{k1: 'val1', k2: 'val2', k3: 'val3'}` with `["never", { unlessCommaBefore: true }]` (tests line 123, expected valid) gets two reports. | Report exactly the properties that start on a line after the line their comma ends on, with no early return. | not executed | Corrections.CommaBeforeOneLineLiteral | Corrections.IntendedCommaBeforeExact |
| lib/rules/object-property-newline.js:184-195 | When the properties do not all share one line, the branch falls out of the if/else chain without running the pair loop, so it never reports. | `{\nk1: 'val1',\nk2: 'val2', k3: 'val3'\n}` with `[{ allowAllPropertiesOnSameLine: true }]` (tests line 502, one error expected) gets no report. | Skip the literal only when all its properties lie on one line; otherwise run the "always" pair loop. | not executed | Corrections.SameLineTestScenario | Corrections.IntendedSameLineExact |
