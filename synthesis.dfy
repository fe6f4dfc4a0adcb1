/** The narrative synthesis: the vulnerability tags flagged by the answers,
    and the three sentences of the report. */
module Synthesis {
  import opened QuestionBank
  import opened Scoring
  import opened Text

  /** When an answer raises a concern: at exactly one severity, or at any
      severity from a floor upward. */
  datatype Concern = Exactly(level: int) | AtLeast(level: int)

  /** A per-question rule: the question it reads, when it fires, and the tag
      it contributes. */
  datatype Rule = Rule(questionId: int, concern: Concern, tag: string)

  /** The rules in the order the tags are pushed: only the worst answer
      flags storage; any answer from severity 2 flags the other five. */
  const STORAGE := Rule(1, Exactly(3), "stockage sans redondance")
  const BACKUPS := Rule(2, AtLeast(2), "sauvegardes insuffisantes")
  const RECOVERY_PLAN := Rule(3, AtLeast(2), "absence de PRA testé")
  const SINGLE_PROVIDER := Rule(4, AtLeast(2), "dépendance à un fournisseur unique")
  const KEY_MANAGEMENT := Rule(5, AtLeast(2), "gestion des clés de chiffrement")
  const COMPLIANCE := Rule(6, AtLeast(2), "conformité réglementaire")

  const RULES: seq<Rule> := [STORAGE, BACKUPS, RECOVERY_PLAN, SINGLE_PROVIDER, KEY_MANAGEMENT, COMPLIANCE]

  /** A rule fires only on an answered question: a missing entry compares
      false both with `===` and with `>=`. */
  predicate Flagged(answers: AnswerSet, rule: Rule) {
    rule.questionId in answers &&
    match rule.concern
    case Exactly(level) => answers[rule.questionId] == level
    case AtLeast(level) => answers[rule.questionId] >= level
  }

  /** The rules are those of questions 1..6 in order; question 1 fires on
      exactly 3, the others from 2 upward. */
  lemma RulesShape()
    ensures |RULES| == 6
    ensures RULES[0].questionId == 1 && RULES[0].concern == Exactly(3)
    ensures forall k :: 1 <= k < 6 ==> RULES[k].questionId == k + 1 && RULES[k].concern == AtLeast(2)
  {
  }

  /** What each rule tests, in the terms of the answer set. */
  lemma FlaggedRule(answers: AnswerSet, k: int)
    requires 0 <= k < |RULES|
    ensures k == 0 ==> (Flagged(answers, RULES[k]) <==> 1 in answers && answers[1] == 3)
    ensures k > 0 ==> (Flagged(answers, RULES[k]) <==> k + 1 in answers && answers[k + 1] >= 2)
  {
    RulesShape();
  }

  /** What one rule adds to the list: its tag when it fires, nothing otherwise. */
  function Contribution(answers: AnswerSet, rule: Rule): seq<string> {
    if Flagged(answers, rule) then [rule.tag] else []
  }

  /** The tags of the rules that fire, in rule order: the tags of all rules
      but the last, then what the last one pushes. */
  function Tags(answers: AnswerSet, rules: seq<Rule>): seq<string> {
    if rules == [] then []
    else Tags(answers, rules[..|rules| - 1]) + Contribution(answers, rules[|rules| - 1])
  }

  /** A table of six rules contributes rule by rule, in order. */
  lemma TagsOfSix(answers: AnswerSet, rules: seq<Rule>)
    requires |rules| == 6
    ensures Tags(answers, rules) == Contribution(answers, rules[0]) + Contribution(answers, rules[1])
      + Contribution(answers, rules[2]) + Contribution(answers, rules[3])
      + Contribution(answers, rules[4]) + Contribution(answers, rules[5])
  {
    assert rules[..1][..0] == [];
    assert rules[..2][..1] == rules[..1];
    assert rules[..3][..2] == rules[..2];
    assert rules[..4][..3] == rules[..3];
    assert rules[..5][..4] == rules[..4];
    assert rules[..6] == rules;
    assert Tags(answers, rules[..1]) == Contribution(answers, rules[0]);
    assert Tags(answers, rules[..2]) == Contribution(answers, rules[0]) + Contribution(answers, rules[1]);
    assert Tags(answers, rules[..3]) == Contribution(answers, rules[0]) + Contribution(answers, rules[1])
      + Contribution(answers, rules[2]);
    assert Tags(answers, rules[..4]) == Contribution(answers, rules[0]) + Contribution(answers, rules[1])
      + Contribution(answers, rules[2]) + Contribution(answers, rules[3]);
    assert Tags(answers, rules[..5]) == Contribution(answers, rules[0]) + Contribution(answers, rules[1])
      + Contribution(answers, rules[2]) + Contribution(answers, rules[3]) + Contribution(answers, rules[4]);
  }

  function AllTags(rules: seq<Rule>): (tags: seq<string>)
    ensures |tags| == |rules|
    ensures forall i :: 0 <= i < |rules| ==> tags[i] == rules[i].tag
  {
    if rules == [] then [] else AllTags(rules[..|rules| - 1]) + [rules[|rules| - 1].tag]
  }

  /** The full, untruncated list of vulnerability tags of an answer set:
      what each rule pushes, in question order. */
  function VulnerabilityTags(answers: AnswerSet): seq<string> {
    Contribution(answers, STORAGE) + Contribution(answers, BACKUPS) + Contribution(answers, RECOVERY_PLAN)
      + Contribution(answers, SINGLE_PROVIDER) + Contribution(answers, KEY_MANAGEMENT)
      + Contribution(answers, COMPLIANCE)
  }

  /** The list is the table's rules filtered by whether they fire. */
  lemma VulnerabilityTagsFilter(answers: AnswerSet)
    ensures VulnerabilityTags(answers) == Tags(answers, RULES)
  {
    TagsOfSix(answers, RULES);
  }

  /** `xs` is obtained from `ys` by dropping elements, keeping the order. */
  predicate IsSubsequence<T(==)>(xs: seq<T>, ys: seq<T>)
    decreases |ys|
  {
    if xs == [] then true
    else if ys == [] then false
    else if xs[|xs| - 1] == ys[|ys| - 1] then IsSubsequence(xs[..|xs| - 1], ys[..|ys| - 1])
    else IsSubsequence(xs, ys[..|ys| - 1])
  }

  predicate DistinctTags(rules: seq<Rule>) {
    forall i, j :: 0 <= i < j < |rules| ==> rules[i].tag != rules[j].tag
  }

  lemma {:induction false} SubsequenceMembers<T>(xs: seq<T>, ys: seq<T>, x: T)
    requires IsSubsequence(xs, ys) && x in xs
    ensures x in ys
    decreases |ys|
  {
    var ys' := ys[..|ys| - 1];
    assert ys == ys' + [ys[|ys| - 1]];
    if xs[|xs| - 1] == ys[|ys| - 1] {
      var xs' := xs[..|xs| - 1];
      assert xs == xs' + [xs[|xs| - 1]];
      if x != xs[|xs| - 1] {
        SubsequenceMembers(xs', ys', x);
      }
    } else {
      SubsequenceMembers(xs, ys', x);
    }
  }

  /** A subsequence stays one when an element is appended to the longer sequence. */
  lemma {:induction false} SubsequenceOfLonger<T>(xs: seq<T>, ys: seq<T>, y: T)
    requires IsSubsequence(xs, ys)
    ensures IsSubsequence(xs, ys + [y])
    decreases |ys|, 1
  {
    var zs := ys + [y];
    assert zs[..|zs| - 1] == ys;
    if xs != [] && xs[|xs| - 1] == y {
      SubsequenceDropLast(xs, ys);
    }
  }

  /** Dropping the last element of a subsequence keeps it a subsequence. */
  lemma {:induction false} SubsequenceDropLast<T>(xs: seq<T>, ys: seq<T>)
    requires xs != [] && IsSubsequence(xs, ys)
    ensures IsSubsequence(xs[..|xs| - 1], ys)
    decreases |ys|, 0
  {
    var ys' := ys[..|ys| - 1];
    assert ys' + [ys[|ys| - 1]] == ys;
    if xs[|xs| - 1] != ys[|ys| - 1] {
      SubsequenceDropLast(xs, ys');
    }
    SubsequenceOfLonger(xs[..|xs| - 1], ys', ys[|ys| - 1]);
  }

  /** Tags come out in rule order: the list is the table's tags with the
      rules that do not fire left out. */
  lemma {:induction false} TagsInRuleOrder(answers: AnswerSet, rules: seq<Rule>)
    ensures IsSubsequence(Tags(answers, rules), AllTags(rules))
  {
    if rules != [] {
      var init, last := rules[..|rules| - 1], rules[|rules| - 1];
      TagsInRuleOrder(answers, init);
      var before := Tags(answers, init);
      var all := AllTags(rules);
      assert all[..|all| - 1] == AllTags(init);
      var tags := Tags(answers, rules);
      if Flagged(answers, last) {
        assert tags == before + [last.tag];
        assert tags != [] && tags[|tags| - 1] == all[|all| - 1] && tags[..|tags| - 1] == before;
      } else {
        assert tags == before;
        SubsequenceOfLonger(before, AllTags(init), last.tag);
        assert AllTags(init) + [last.tag] == all;
      }
    }
  }

  /** With distinct tags, a rule's tag is in the list exactly when the rule fires. */
  lemma {:induction false} TagPresentIffFlagged(answers: AnswerSet, rules: seq<Rule>, k: int)
    requires DistinctTags(rules) && 0 <= k < |rules|
    ensures rules[k].tag in Tags(answers, rules) <==> Flagged(answers, rules[k])
  {
    var n := |rules| - 1;
    var init := rules[..n];
    var before := Tags(answers, init);
    assert Tags(answers, rules) == before + Contribution(answers, rules[n]);
    if k == n {
      TagsInRuleOrder(answers, init);
      assert forall j :: 0 <= j < |init| ==> AllTags(init)[j] == rules[j].tag != rules[n].tag;
      if rules[n].tag in before {
        SubsequenceMembers(before, AllTags(init), rules[n].tag);
        assert false;
      }
    } else {
      TagPresentIffFlagged(answers, init, k);
      assert rules[k].tag != rules[n].tag;
    }
  }

  /** The six tags are pairwise different. */
  lemma RulesDistinct()
    ensures DistinctTags(RULES)
  {
    forall i, j | 0 <= i < j < |RULES| ensures RULES[i].tag != RULES[j].tag {
      assert RULES[i].tag[0] != RULES[j].tag[0] || RULES[i].tag[1] != RULES[j].tag[1];
    }
  }

  /** Filtering the table by the answers: question 1 is tagged exactly when
      its answer is 3, questions 2 to 6 exactly when their answer is at least
      2; tags keep the table's order and there are at most six. */
  lemma RuleTagsSpec(answers: AnswerSet)
    ensures RULES[0].tag in Tags(answers, RULES) <==> 1 in answers && answers[1] == 3
    ensures forall k :: 1 <= k < 6 ==>
      (RULES[k].tag in Tags(answers, RULES) <==> k + 1 in answers && answers[k + 1] >= 2)
    ensures IsSubsequence(Tags(answers, RULES), AllTags(RULES))
    ensures |Tags(answers, RULES)| <= 6
  {
    RulesDistinct();
    TagPresentIffFlagged(answers, RULES, 0);
    forall k | 1 <= k < 6
      ensures RULES[k].tag in Tags(answers, RULES) <==> k + 1 in answers && answers[k + 1] >= 2
    {
      TagPresentIffFlagged(answers, RULES, k);
    }
    TagsInRuleOrder(answers, RULES);
    TagsAtMostRules(answers, RULES);
  }

  /** The list the synthesis draws on reads the answers as the questionnaire
      does: storage is tagged exactly when question 1 is answered 3, each of
      the other five concerns exactly when its question is answered 2 or
      more; tags come in question order and there are at most six. */
  lemma VulnerabilityTagsSpec(answers: AnswerSet)
    ensures STORAGE.tag in VulnerabilityTags(answers) <==> 1 in answers && answers[1] == 3
    ensures forall k :: 1 <= k < 6 ==>
      (RULES[k].tag in VulnerabilityTags(answers) <==> k + 1 in answers && answers[k + 1] >= 2)
    ensures IsSubsequence(VulnerabilityTags(answers), AllTags(RULES))
    ensures |VulnerabilityTags(answers)| <= 6
  {
    VulnerabilityTagsFilter(answers);
    RuleTagsSpec(answers);
  }

  lemma {:induction false} TagsAtMostRules(answers: AnswerSet, rules: seq<Rule>)
    ensures |Tags(answers, rules)| <= |rules|
  {
    if rules != [] {
      TagsAtMostRules(answers, rules[..|rules| - 1]);
    }
  }

  const INTRO_START := "Votre niveau de risque est "
  const INTRO_SCORE := " avec un score de "
  const SCORE_SCALE := "/18"

  /** The opening sentence: the tier label lowercased, then `score/18`. */
  function Intro(score: int, riskLevel: string): string {
    INTRO_START + Lower(riskLevel) + INTRO_SCORE + IntToString(score) + SCORE_SCALE + "."
  }

  /** The two openings of the middle sentence. Each is written as two literals
      so that the verifier can read their first characters, which tell them
      apart (a single literal this long is not unfolded character by character). */
  const VULNERABILITIES_START := "Les principales vulnérabilités " + "identifiées concernent : "
  const RESILIENT := "Votre infrastructure présente " + "une bonne résilience globale."

  /** Names the first two tags, or falls back to a positive sentence. */
  function VulnerabilityText(tags: seq<string>): string {
    if |tags| > 0 then
      VULNERABILITIES_START + Join(tags[..if |tags| < 2 then |tags| else 2], " et ") + "."
    else RESILIENT
  }

  const ACTION_HIGH := "Nous recommandons un audit approfondi et la mise en place d'une solution de sauvegarde souveraine comme DATIS."
  const ACTION_MODERATE := "Un audit ciblé permettrait d'identifier les axes d'amélioration prioritaires."
  const ACTION_LOW := "Votre organisation dispose d'une bonne base. Un suivi régulier est recommandé pour maintenir ce niveau."

  /** The closing sentence, chosen by score band. */
  function Action(score: int): string {
    if score >= 13 then ACTION_HIGH
    else if score >= 7 then ACTION_MODERATE
    else ACTION_LOW
  }

  /** The closing sentence each tier calls for. */
  function TierAction(level: RiskLevel): string {
    match level
    case High => ACTION_HIGH
    case Moderate => ACTION_MODERATE
    case Low => ACTION_LOW
  }

  /** The whole synthesis: intro, vulnerability sentence and action sentence,
      separated by single spaces. */
  function SynthesisText(answers: AnswerSet, score: int, riskLevel: string): string {
    Intro(score, riskLevel) + " " + VulnerabilityText(VulnerabilityTags(answers)) + " " + Action(score)
  }

  /** The score bands of the action sentence coincide with the tiers. */
  lemma ActionAgreesWithTier(score: int)
    ensures Action(score) == TierAction(GetRiskLevel(score))
  {
  }

  /** The fallback sentence is used exactly when nothing was flagged. */
  lemma FallbackIffNoTags(tags: seq<string>)
    ensures VulnerabilityText(tags) == RESILIENT <==> tags == []
  {
    if tags != [] {
      var text := VulnerabilityText(tags);
      var named := Join(tags[..if |tags| < 2 then |tags| else 2], " et ");
      assert text == VULNERABILITIES_START + named + ".";
      assert text[0] == VULNERABILITIES_START[0];
      assert VULNERABILITIES_START[0] == 'L' && RESILIENT[0] == 'V';
    }
  }

  /** Only the first two tags are named. */
  lemma NamesFirstTwoTags(tags: seq<string>)
    ensures |tags| == 1 ==> VulnerabilityText(tags) == VULNERABILITIES_START + tags[0] + "."
    ensures |tags| >= 2 ==> VulnerabilityText(tags) == VULNERABILITIES_START + tags[0] + " et " + tags[1] + "."
  {
    if |tags| >= 2 {
      JoinSmall(tags[..2], " et ");
    }
  }

  /** The synthesis contains the lowercased tier label, right after the
      opening words, and the score out of 18. */
  lemma SynthesisMentions(answers: AnswerSet, score: int, riskLevel: string)
    ensures OccursAt(Lower(riskLevel), SynthesisText(answers, score, riskLevel), |INTRO_START|)
    ensures Contains(SynthesisText(answers, score, riskLevel), Lower(riskLevel))
    ensures Contains(SynthesisText(answers, score, riskLevel), IntToString(score) + SCORE_SCALE)
  {
    var lower, number := Lower(riskLevel), IntToString(score);
    var vulnerability, action := VulnerabilityText(VulnerabilityTags(answers)), Action(score);
    var p1 := INTRO_START + lower;
    var p2 := p1 + INTRO_SCORE;
    var p4 := p2 + number + SCORE_SCALE;
    var intro := p4 + ".";
    var s1 := intro + " ";
    var s2 := s1 + vulnerability;
    var s3 := s2 + " ";
    var text := s3 + action;
    assert text == SynthesisText(answers, score, riskLevel);
    OccursAtEnd(INTRO_START, lower);
    OccursExtend(lower, p1, INTRO_SCORE, |INTRO_START|);
    OccursExtend(lower, p2, number, |INTRO_START|);
    OccursExtend(lower, p2 + number, SCORE_SCALE, |INTRO_START|);
    OccursPairAtEnd(p2, number, SCORE_SCALE);
    ExtendToSynthesis(lower, p4, vulnerability, action, |INTRO_START|);
    ExtendToSynthesis(number + SCORE_SCALE, p4, vulnerability, action, |p2|);
  }

  lemma ExtendToSynthesis(sub: string, p4: string, vulnerability: string, action: string, i: int)
    requires OccursAt(sub, p4, i)
    ensures OccursAt(sub, p4 + "." + " " + vulnerability + " " + action, i)
    ensures Contains(p4 + "." + " " + vulnerability + " " + action, sub)
  {
    OccursExtend(sub, p4, ".", i);
    OccursExtend(sub, p4 + ".", " ", i);
    OccursExtend(sub, p4 + "." + " ", vulnerability, i);
    OccursExtend(sub, p4 + "." + " " + vulnerability, " ", i);
    OccursExtend(sub, p4 + "." + " " + vulnerability + " ", action, i);
    OccursContains(sub, p4 + "." + " " + vulnerability + " " + action, i);
  }

  /** The labels lowercase to "faible", "modéré" and "élevé". */
  lemma LowercaseLabels()
    ensures Lower(Low.Label()) == "faible"
    ensures Lower(Moderate.Label()) == "modéré"
    ensures Lower(High.Label()) == "élevé"
  {
    assert Lower("Faible") == "faible";
    assert Lower("Modéré") == "modéré";
    assert Lower("Élevé") == "élevé";
  }

  /** When the tier passed in is the one the score falls in, the synthesis
      names it in lower case, shows `score/18`, and ends with that tier's
      action sentence. */
  lemma SynthesisForScore(answers: AnswerSet, score: int)
    ensures var level := GetRiskLevel(score);
      var text := SynthesisText(answers, score, level.Label());
      && Contains(text, Lower(level.Label()))
      && Contains(text, IntToString(score) + "/18")
      && |TierAction(level)| <= |text|
      && text[|text| - |TierAction(level)|..] == TierAction(level)
  {
    var level := GetRiskLevel(score);
    SynthesisMentions(answers, score, level.Label());
    ActionAgreesWithTier(score);
    var text := SynthesisText(answers, score, level.Label());
    var before := Intro(score, level.Label()) + " " + VulnerabilityText(VulnerabilityTags(answers)) + " ";
    assert text == before + TierAction(level);
    SuffixOfConcat(before, TierAction(level));
  }
}
