/** The questionnaire's state: the answers recorded so far and whether the
    results are shown, with the handlers that update them. */
module Assessment {
  import opened QuestionBank
  import opened Scoring
  import opened Text
  import opened Synthesis

  class RiskAssessment {
    var answers: AnswerSet
    var showResults: bool

    /** Results are only ever shown for an answer set with an entry per question. */
    ghost predicate Valid()
      reads this
    {
      showResults ==> |answers| >= |QUESTIONS|
    }

    constructor ()
      ensures Valid()
      ensures answers == map[] && !showResults
    {
      answers := map[];
      showResults := false;
    }

    /** Records `score` for `questionId`, overwriting an earlier answer and
        leaving every other entry as it was; answering again with the same
        severity changes nothing. */
    method HandleAnswerChange(questionId: int, score: int)
      requires Valid()
      modifies this
      ensures Valid()
      ensures answers == old(answers)[questionId := score]
      ensures forall id :: id != questionId ==> (id in answers <==> id in old(answers))
      ensures forall id :: id != questionId && id in old(answers) ==> answers[id] == old(answers)[id]
      ensures questionId in old(answers) && old(answers)[questionId] == score ==> answers == old(answers)
      ensures showResults == old(showResults)
      ensures old(FromBank(answers)) && IsAnswerScore(questionId, score) ==> FromBank(answers)
    {
      SubsetCardinality(answers.Keys, answers.Keys + {questionId});
      answers := answers[questionId := score];
    }

    /** Shows the results when there are as many entries as questions;
        otherwise signals the error (`accepted` is false), changes nothing,
        and the results stay hidden. */
    method HandleSubmit() returns (accepted: bool)
      requires Valid()
      modifies this
      ensures Valid()
      ensures accepted <==> |old(answers)| >= |QUESTIONS|
      ensures !accepted ==> !showResults
      ensures answers == old(answers)
      ensures showResults == (old(showResults) || accepted)
    {
      if |answers| < |QUESTIONS| {
        accepted := false;
        return;
      }
      accepted := true;
      showResults := true;
    }

    /** Starts a new assessment. */
    method HandleReset()
      requires Valid()
      modifies this
      ensures Valid()
      ensures answers == map[] && !showResults
    {
      answers := map[];
      showResults := false;
    }

    /** Builds the synthesis: collects the vulnerability tags, then joins
        intro, vulnerability and action sentences. */
    method GenerateSynthesis(score: int, riskLevel: string) returns (synthesis: string)
      ensures synthesis == SynthesisText(answers, score, riskLevel)
    {
      var vulnerabilities := CollectVulnerabilities(answers);
      var intro := INTRO_START + Lower(riskLevel) + INTRO_SCORE + IntToString(score) + SCORE_SCALE + ".";
      var vulnText;
      if |vulnerabilities| > 0 {
        var named := vulnerabilities[..if |vulnerabilities| < 2 then |vulnerabilities| else 2];
        vulnText := VULNERABILITIES_START + Join(named, " et ") + ".";
      } else {
        vulnText := RESILIENT;
      }
      var action;
      if score >= 13 {
        action := ACTION_HIGH;
      } else if score >= 7 {
        action := ACTION_MODERATE;
      } else {
        action := ACTION_LOW;
      }
      synthesis := intro + " " + vulnText + " " + action;
    }

    /** What the results view and the report compute from the current
        answers: the score, its tier and the synthesis. Once results are
        shown for answers taken from the bank, the score lies in 6..18. */
    method Evaluate() returns (score: int, risk: RiskLevel, synthesis: string)
      requires Valid()
      ensures score == Score(answers) && risk == GetRiskLevel(score)
      ensures synthesis == SynthesisText(answers, score, risk.Label())
      ensures showResults && FromBank(answers) ==> Complete(answers) && 6 <= score <= 18
    {
      score := Score(answers);
      risk := GetRiskLevel(score);
      synthesis := GenerateSynthesis(score, risk.Label());
      if showResults && FromBank(answers) {
        GuardMeansComplete(answers);
        ScoreOfComplete(answers);
      }
    }
  }

  /** The vulnerability list of the synthesis, built by one push per rule
      in question order. */
  method CollectVulnerabilities(answers: AnswerSet) returns (vulnerabilities: seq<string>)
    ensures vulnerabilities == VulnerabilityTags(answers)
  {
    vulnerabilities := [];
    if 1 in answers && answers[1] == 3 {
      vulnerabilities := vulnerabilities + [STORAGE.tag];
    }
    assert vulnerabilities == Contribution(answers, STORAGE);
    if 2 in answers && answers[2] >= 2 {
      vulnerabilities := vulnerabilities + [BACKUPS.tag];
    }
    assert vulnerabilities == Contribution(answers, STORAGE) + Contribution(answers, BACKUPS);
    if 3 in answers && answers[3] >= 2 {
      vulnerabilities := vulnerabilities + [RECOVERY_PLAN.tag];
    }
    assert vulnerabilities == Contribution(answers, STORAGE) + Contribution(answers, BACKUPS) + Contribution(answers, RECOVERY_PLAN);
    if 4 in answers && answers[4] >= 2 {
      vulnerabilities := vulnerabilities + [SINGLE_PROVIDER.tag];
    }
    assert vulnerabilities == Contribution(answers, STORAGE) + Contribution(answers, BACKUPS) + Contribution(answers, RECOVERY_PLAN) + Contribution(answers, SINGLE_PROVIDER);
    if 5 in answers && answers[5] >= 2 {
      vulnerabilities := vulnerabilities + [KEY_MANAGEMENT.tag];
    }
    assert vulnerabilities == Contribution(answers, STORAGE) + Contribution(answers, BACKUPS) + Contribution(answers, RECOVERY_PLAN) + Contribution(answers, SINGLE_PROVIDER) + Contribution(answers, KEY_MANAGEMENT);
    if 6 in answers && answers[6] >= 2 {
      vulnerabilities := vulnerabilities + [COMPLIANCE.tag];
    }
  }

  /** Answering overwrites earlier answers, repeating an answer changes
      nothing, a submit with questions still unanswered is refused, and a
      reset empties the form. */
  method SessionIncomplete() {
    var assessment := new RiskAssessment();
    assessment.HandleAnswerChange(1, 3);
    assessment.HandleAnswerChange(1, 2);
    assessment.HandleAnswerChange(1, 2);
    assert assessment.answers == map[1 := 2];
    var accepted := assessment.HandleSubmit();
    assert !accepted && !assessment.showResults;
    assessment.HandleReset();
    assert assessment.answers == map[];
  }

  /** Six answers of severity 2 are accepted, score 12 and fall in the
      moderate tier. */
  method SessionComplete() {
    var assessment := new RiskAssessment();
    assessment.HandleAnswerChange(1, 2);
    assessment.HandleAnswerChange(2, 2);
    assessment.HandleAnswerChange(3, 2);
    assessment.HandleAnswerChange(4, 2);
    assessment.HandleAnswerChange(5, 2);
    assessment.HandleAnswerChange(6, 2);
    assert assessment.answers == Uniform(2);
    UniformSize(2);
    var accepted := assessment.HandleSubmit();
    assert accepted && assessment.showResults;
    var score, risk, synthesis := assessment.Evaluate();
    UniformExamples();
    assert score == 12 && risk == Moderate;
  }
}
