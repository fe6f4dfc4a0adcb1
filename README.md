# Data-loss risk questionnaire: scoring and synthesis

This is a Dafny model of the scoring core of the `RiskAssessment` component of
the data-guard-gauge questionnaire. It has six parts:

* **The question bank.** Six questions on where data lives, backups, the
  recovery plan (PRA), supplier dependence, key management and regulation.
  Each question has three options of severity 1, 2 and 3.
* **The form state.** This is the answer map from question id to chosen
  severity, plus the `showResults` flag. Three handlers change it: answer,
  submit and reset.
* **The score.** It is the sum of every recorded severity.
* **The tier.** Faible, Modéré or Élevé, with fixed cut points at 7 and 12.
* **The vulnerability tags.** One push per question rule, in question order.
* **The synthesis text.** Three sentences: an intro giving the lowercased tier
  and `score/18`, a sentence naming at most two tags (or a fallback sentence),
  and an action sentence chosen by score band.

Modules, one per file:

| file | module | contents |
|---|---|---|
| `bank.dfy` | `QuestionBank` | the question table, answer sets, completeness, and the submit guard's meaning |
| `scoring.dfy` | `Scoring` | `Score` (the sum of the map's values), `RiskLevel`, `GetRiskLevel`, monotonicity |
| `text.dfy` | `Text` | decimal rendering of an integer, lowercasing, `join`, and substring occurrence |
| `synthesis.dfy` | `Synthesis` | the per-question tag rules, the tag list, and the three sentences |
| `assessment.dfy` | `Assessment` | the `RiskAssessment` class with its fields and handlers, and the push-by-push tag collection |

The form state is a class whose methods update `answers` and `showResults` in
place. Its invariant `Valid()` says results are shown only when there are at
least as many entries as questions. The score, the tier and the sentence
templates are functions. Lemmas state their properties.

The tag list has two definitions, and a lemma proves they agree:

* `VulnerabilityTags` is one contribution per named rule, in question order.
  `CollectVulnerabilities` meets this definition with six guarded pushes.
* `Tags` filters the rule table `RULES` by whether each rule fires.
  `VulnerabilityTagsFilter` proves that `Tags` over `RULES` equals
  `VulnerabilityTags`.

Question 1 uses a strict equality test (`=== 3`). The other five questions
test `>= 2`. A question without an answer is never flagged: in the source,
both comparisons are false for `undefined`.

## Model

| member | source | states |
|---|---|---|
| QuestionBank.BankShape | src/components/RiskAssessment.tsx:15-70 | The bank holds six questions with ids 1..6, in order. Each has exactly three options, with severities 1, 2, 3 in that order. |
| QuestionBank.QuestionIdsAreOneToSix | src/components/RiskAssessment.tsx:15-70 | The set of question ids is exactly {1, ..., 6}. |
| QuestionBank.AnswerScores | src/components/RiskAssessment.tsx:15-70 | A severity can be chosen for question `id` if and only if `id` is 1..6 and the severity is 1..3. |
| QuestionBank.CompleteMeansAllIds | src/components/RiskAssessment.tsx:15-70 | An answer set is complete (every bank question answered) if and only if ids 1..6 all have entries. |
| QuestionBank.FromBankRange | src/components/RiskAssessment.tsx:15-70 | An answer set drawn from the bank has entries only for ids 1..6, each with a severity in 1..3. |
| QuestionBank.CompleteFromBank | src/components/RiskAssessment.tsx:15-70 | A complete answer set drawn from the bank has exactly the keys 1..6, each with a value in 1..3. |
| QuestionBank.GuardMeansComplete | src/components/RiskAssessment.tsx:116 | For an answer set drawn from the bank, the guard "at least as many entries as questions" holds exactly when the set is complete, in both directions. |
| Scoring.Score | src/components/RiskAssessment.tsx:80-82 | `calculateScore`: the sum of every value in the answer map, including entries for ids outside the bank. Its properties are stated by the lemmas below. |
| Scoring.ScoreRemove | src/components/RiskAssessment.tsx:81 | The sum does not depend on order: the score equals any one entry plus the score of the remaining entries. |
| Scoring.ScoreBounds | src/components/RiskAssessment.tsx:80-82 | With n entries, each a severity 1..3, the score lies between n and 3n. |
| Scoring.ScoreUpdate | src/components/RiskAssessment.tsx:76-82 | After one answer is set, the score changes by exactly the new value minus the old one (or plus the new value if the question was unanswered). |
| Scoring.ScoreOfSix | src/components/RiskAssessment.tsx:80-82 | On an answer set keyed 1..6, the score is the sum of the six entries. |
| Scoring.ScoreOfComplete | src/components/RiskAssessment.tsx:15-82 | For a complete answer set drawn from the bank, the score is the sum of the six chosen severities and lies in [6, 18]. |
| Scoring.GetRiskLevel | src/components/RiskAssessment.tsx:84-88 | `getRiskLevel`: Faible below 7, Modéré up to 12, Élevé above, with their labels and colour tags. `TierBoundaries` and `TierMonotone` state its bands. |
| Scoring.TierBoundaries | src/components/RiskAssessment.tsx:84-88 | Each tier holds exactly its band, in both directions: Faible is ≤ 6, Modéré is 7..12, Élevé is ≥ 13. The points 6, 7, 12 and 13 fall on the stated sides. |
| Scoring.TierMonotone | src/components/RiskAssessment.tsx:84-88 | A higher score never gives a less risky tier. |
| Scoring.LabelsDistinct | src/components/RiskAssessment.tsx:85-87 | Tier labels and colour tags each identify the tier: equal labels, or equal colours, mean the same tier. |
| Scoring.RaiseNeverLowers | src/components/RiskAssessment.tsx:80-88 | Raising one answered question's severity, with the others fixed, raises the score by exactly the difference and never moves the tier toward Faible. |
| Scoring.UniformSize | src/components/RiskAssessment.tsx:116 | The all-same-severity answer set has six entries, so it passes the submit guard. |
| Scoring.UniformScore | src/components/RiskAssessment.tsx:80-82 | Answering every question with severity s (1 ≤ s ≤ 3) scores 6·s. |
| Scoring.UniformExamples | src/components/RiskAssessment.tsx:80-88 | All-1 gives 6 (Faible), all-2 gives 12 (Modéré), all-3 gives 18 (Élevé). |
| Synthesis.Flagged | src/components/RiskAssessment.tsx:93-98 | Whether one push fires: the question is answered, and its answer is exactly the level (question 1) or at least the floor (the others). A missing answer never fires. `FlaggedRule` states it per question. |
| Synthesis.VulnerabilityTags | src/components/RiskAssessment.tsx:93-98 | The `vulnerabilities` array after the six pushes: each rule's tag, in question order, for the rules that fire. `VulnerabilityTagsSpec` states its contents and order. |
| Synthesis.RulesShape | src/components/RiskAssessment.tsx:93-98 | The rule table reads questions 1..6 in order: question 1 at exactly 3, the others from 2 upward. |
| Synthesis.FlaggedRule | src/components/RiskAssessment.tsx:93-98 | Rule 0 fires if and only if question 1 is answered 3. Rule k (k in 1..5) fires if and only if question k+1 is answered at least 2. |
| Synthesis.TagsOfSix | src/components/RiskAssessment.tsx:93-98 | Filtering a six-rule table gives the six contributions concatenated in table order. |
| Synthesis.VulnerabilityTagsFilter | src/components/RiskAssessment.tsx:93-98 | The pushed-in-order tag list equals the rule table filtered by which rules fire. |
| Synthesis.TagsInRuleOrder | src/components/RiskAssessment.tsx:93-98 | The tag list is a subsequence of the table's tags: order is kept and only rules that do not fire are dropped. |
| Synthesis.TagPresentIffFlagged | src/components/RiskAssessment.tsx:93-98 | With pairwise-distinct tags, a rule's tag is in the list if and only if the rule fires. |
| Synthesis.TagsAtMostRules | src/components/RiskAssessment.tsx:93-98 | A table yields no more tags than it has rules. |
| Synthesis.RulesDistinct | src/components/RiskAssessment.tsx:93-98 | The six tags are pairwise different. |
| Synthesis.RuleTagsSpec | src/components/RiskAssessment.tsx:93-98 | The filtered table tags question 1 if and only if its answer is 3, and questions 2..6 if and only if their answer is ≥ 2. It keeps question order and has at most six tags. |
| Synthesis.VulnerabilityTagsSpec | src/components/RiskAssessment.tsx:93-98 | The synthesis's tag list satisfies the same iff conditions per question. It is in question order and has at most six entries. |
| Synthesis.Intro | src/components/RiskAssessment.tsx:100 | The opening sentence: the fixed opening words, the lowercased tier label, the score and "/18.". `SynthesisMentions` states what it contributes to the synthesis. |
| Synthesis.VulnerabilityText | src/components/RiskAssessment.tsx:102-104 | The middle sentence: the first two tags joined by " et " after a fixed opening, or the resilience sentence when there are none. `FallbackIffNoTags` and `NamesFirstTwoTags` state both cases. |
| Synthesis.Action | src/components/RiskAssessment.tsx:106-110 | The closing sentence, one of three, chosen by the bands `>= 13` and `>= 7`. `ActionAgreesWithTier` ties it to the tier. |
| Synthesis.SynthesisText | src/components/RiskAssessment.tsx:90-113 | `generateSynthesis`: the three sentences separated by single spaces. `SynthesisMentions` and `SynthesisForScore` state what it contains and how it ends. |
| Synthesis.ActionAgreesWithTier | src/components/RiskAssessment.tsx:106-110 | The action sentence chosen by the bands `>= 13` and `>= 7` is the one for the tier `getRiskLevel` gives. |
| Synthesis.FallbackIffNoTags | src/components/RiskAssessment.tsx:102-104 | The fallback sentence is used if and only if the tag list is empty. |
| Synthesis.NamesFirstTwoTags | src/components/RiskAssessment.tsx:102-104 | With one tag, the sentence names only that tag. With two or more, it names exactly the first two, joined by " et ". |
| Synthesis.SynthesisMentions | src/components/RiskAssessment.tsx:100-112 | The synthesis contains the lowercased label, right after the opening words, and it contains `score/18`. |
| Synthesis.LowercaseLabels | src/components/RiskAssessment.tsx:100 | The labels lowercase to "faible", "modéré" and "élevé". |
| Synthesis.SynthesisForScore | src/components/RiskAssessment.tsx:100-112 | For the tier the score falls in, the synthesis mentions the lowercased label and `score/18`, and ends with that tier's action sentence. |
| Text.Digits | src/components/RiskAssessment.tsx:100 | The decimal rendering of a natural number is a nonempty run of digits with no leading zero. |
| Text.IntToString | src/components/RiskAssessment.tsx:100 | `${score}` for an integer: a minus sign for negative values, then the digits. The result is nonempty, and `IntToStringRoundTrip` reads it back. |
| Text.Lower | src/components/RiskAssessment.tsx:100 | `toLowerCase`: the result has the same length, and each character is the lowercase of the one at the same position (ASCII and Latin-1 letters). |
| Text.IntToStringRoundTrip | src/components/RiskAssessment.tsx:100 | Reading back the decimal rendering of any integer gives that integer, so the rendering loses nothing. |
| Text.Join | src/components/RiskAssessment.tsx:103 | `parts.join(sep)`: the parts in order with `sep` between neighbours; `JoinSmall` states the one- and two-part cases the synthesis uses. |
| Text.JoinSmall | src/components/RiskAssessment.tsx:103 | `join` of one part is that part. `join` of two parts is first, separator, second. |
| Assessment.RiskAssessment.constructor | src/components/RiskAssessment.tsx:73-74 | The form starts with no answers and results hidden. |
| Assessment.RiskAssessment.HandleAnswerChange | src/components/RiskAssessment.tsx:76-78 | Only entry `questionId` changes, and it becomes `score`; nothing else changes. Repeating an answer is a no-op. Answers drawn from the bank stay drawn from the bank. |
| Assessment.RiskAssessment.HandleSubmit | src/components/RiskAssessment.tsx:115-121 | A submit is accepted if and only if there are at least as many entries as questions. When refused, the results stay hidden and the answers are unchanged. When accepted, the results are shown. |
| Assessment.RiskAssessment.HandleReset | src/components/RiskAssessment.tsx:123-126 | After reset the answer map is empty and the results are hidden. |
| Assessment.RiskAssessment.GenerateSynthesis | src/components/RiskAssessment.tsx:90-113 | The string the handler builds, from its collected tags and three ternaries, is the specified synthesis text of the current answers. |
| Assessment.RiskAssessment.Evaluate | src/components/RiskAssessment.tsx:128-131 | The score is the sum of the answers, the tier is `GetRiskLevel` of it, and the synthesis uses that tier's label. Once results are shown for answers drawn from the bank, the set is complete and the score is in [6, 18]. |
| Assessment.CollectVulnerabilities | src/components/RiskAssessment.tsx:91-98 | The six guarded pushes build exactly the specified tag list. |

## Left out

- Rendering (JSX, the radio groups and their `parseInt`): each chosen severity is taken as an integer that is already given. The answer handler therefore accepts any id and severity, as the source does.
- Toasts: the error toast of a refused submit is the `accepted = false` result of `HandleSubmit`. The success toast is not modelled.
- The clipboard copy, the `Blob` and anchor-click export, the HTML report template and `new Date()` formatting. These are browser I/O and nondeterministic output. `Evaluate` models only the score, tier and synthesis these handlers compute first.
- The progress bar width `(score / 18) * 100`: it is floating-point display only.
- Icons. Colour class names appear only as the tier's `Color()` tag.
- React state updates are asynchronous and batched. In the model, each handler updates the state immediately.
- JavaScript numbers are IEEE doubles. The model uses unbounded integers, which agree with the doubles for every score the form can produce.
- Lower: lowercases only the letters of ASCII and Latin-1 and keeps every other character, which is enough for the three tier labels. Full Unicode `toLowerCase` is not modelled.
- Weighted, maturity-percentage scoring and recommendation ranking do not exist in this component, so they are not modelled.
