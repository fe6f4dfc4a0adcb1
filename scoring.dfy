/** The score of an answer set and the risk tier it falls in. */
module Scoring {
  import opened QuestionBank

  /** A nonempty finite set of integers has a least element. */
  lemma MinimumExists(s: set<int>)
    requires s != {}
    ensures exists k :: k in s && forall j :: j in s ==> k <= j
  {
    if forall y :: y !in s {
      assert false;
    }
    var x :| x in s;
    if s != {x} {
      MinimumExists(s - {x});
      var k :| k in s - {x} && forall j :: j in s - {x} ==> k <= j;
      var least := if x < k then x else k;
      forall j | j in s ensures least <= j {
        if j != x {
          assert j in s - {x};
        }
      }
    }
  }

  function MinKey(s: set<int>): (k: int)
    requires s != {}
    ensures k in s && forall j :: j in s ==> k <= j
  {
    MinimumExists(s);
    var k :| k in s && forall j :: j in s ==> k <= j;
    k
  }

  /** The sum of every severity recorded in `answers`, taken in increasing key
      order, which is how the values of a record keyed by non-negative
      integers are enumerated; `ScoreRemove` shows the order does not matter. */
  function Score(answers: AnswerSet): int
    decreases answers.Keys
  {
    if answers.Keys == {} then 0
    else
      var k := MinKey(answers.Keys);
      answers[k] + Score(answers - {k})
  }

  /** With `n` answers, each of severity 1 to 3, the score lies between `n`
      and `3n`. */
  lemma {:induction false} ScoreBounds(answers: AnswerSet)
    requires forall k :: k in answers ==> 1 <= answers[k] <= 3
    ensures |answers| <= Score(answers) <= 3 * |answers|
    decreases answers.Keys
  {
    if answers.Keys != {} {
      var k := MinKey(answers.Keys);
      var rest := answers - {k};
      assert rest.Keys == answers.Keys - {k};
      assert |rest| == |answers| - 1;
      ScoreBounds(rest);
    }
  }

  /** The sum does not depend on the order of the entries: any single entry
      can be taken out first. */
  lemma {:induction false} ScoreRemove(answers: AnswerSet, q: int)
    requires q in answers
    ensures Score(answers) == answers[q] + Score(answers - {q})
    decreases answers.Keys
  {
    var k := MinKey(answers.Keys);
    if k != q {
      var rest := answers - {k};
      ScoreRemove(rest, q);
      var rest' := answers - {q};
      assert k in rest'.Keys && forall j :: j in rest'.Keys ==> k <= j;
      assert MinKey(rest'.Keys) == k;
      assert rest' - {k} == rest - {q};
    }
  }

  /** Setting one answer changes the score by exactly the change of that answer. */
  lemma ScoreUpdate(answers: AnswerSet, q: int, v: int)
    ensures q in answers ==> Score(answers[q := v]) == Score(answers) - answers[q] + v
    ensures q !in answers ==> Score(answers[q := v]) == Score(answers) + v
  {
    var updated := answers[q := v];
    ScoreRemove(updated, q);
    assert updated - {q} == answers - {q};
    if q in answers {
      ScoreRemove(answers, q);
    } else {
      assert answers - {q} == answers;
    }
  }

  /** On an answer set keyed by exactly the six bank identifiers the score is
      the sum of the six entries. */
  lemma ScoreOfSix(answers: AnswerSet)
    requires answers.Keys == {1, 2, 3, 4, 5, 6}
    ensures Score(answers) == answers[1] + answers[2] + answers[3] + answers[4] + answers[5] + answers[6]
  {
    var m1 := answers - {1};
    var m2 := m1 - {2};
    var m3 := m2 - {3};
    var m4 := m3 - {4};
    var m5 := m4 - {5};
    assert m5.Keys == {6} && m5[6] == answers[6];
    assert Score(m5) == answers[6] by {
      ScoreRemove(m5, 6);
      assert m5 - {6} == map[];
    }
    assert Score(m4) == answers[5] + answers[6] by {
      ScoreRemove(m4, 5);
    }
    assert Score(m3) == answers[4] + answers[5] + answers[6] by {
      ScoreRemove(m3, 4);
    }
    assert Score(m2) == answers[3] + answers[4] + answers[5] + answers[6] by {
      ScoreRemove(m2, 3);
    }
    assert Score(m1) == answers[2] + answers[3] + answers[4] + answers[5] + answers[6] by {
      ScoreRemove(m1, 2);
    }
    ScoreRemove(answers, 1);
  }

  /** On a complete answer set drawn from the bank the score is the sum of the
      six chosen severities and lies between 6 and 18. */
  lemma ScoreOfComplete(answers: AnswerSet)
    requires FromBank(answers) && Complete(answers)
    ensures answers.Keys == {1, 2, 3, 4, 5, 6}
    ensures Score(answers) == answers[1] + answers[2] + answers[3] + answers[4] + answers[5] + answers[6]
    ensures 6 <= Score(answers) <= 18
  {
    CompleteFromBank(answers);
    ScoreOfSix(answers);
  }

  /** The three tiers, with the label and colour tag the interface shows. */
  datatype RiskLevel = Low | Moderate | High {
    function Label(): string {
      match this
      case Low => "Faible"
      case Moderate => "Modéré"
      case High => "Élevé"
    }

    function Color(): string {
      match this
      case Low => "low"
      case Moderate => "moderate"
      case High => "high"
    }

    /** Position from least to most risky. */
    function Rank(): nat {
      match this
      case Low => 0
      case Moderate => 1
      case High => 2
    }
  }

  const LOW_BELOW := 7
  const MODERATE_UP_TO := 12

  function GetRiskLevel(score: int): RiskLevel {
    if score < LOW_BELOW then Low
    else if score <= MODERATE_UP_TO then Moderate
    else High
  }

  /** The cut points are exact: below 7 is Faible, 7 to 12 inclusive is
      Modéré, 13 and above is Élevé. */
  lemma TierBoundaries(score: int)
    ensures GetRiskLevel(score) == Low <==> score <= 6
    ensures GetRiskLevel(score) == Moderate <==> 7 <= score <= 12
    ensures GetRiskLevel(score) == High <==> score >= 13
    ensures GetRiskLevel(6) == Low && GetRiskLevel(7) == Moderate
    ensures GetRiskLevel(12) == Moderate && GetRiskLevel(13) == High
  {
  }

  /** A higher score never gives a less risky tier. */
  lemma TierMonotone(a: int, b: int)
    requires a <= b
    ensures GetRiskLevel(a).Rank() <= GetRiskLevel(b).Rank()
  {
  }

  /** Labels and colour tags tell the tiers apart. */
  lemma LabelsDistinct(r: RiskLevel, s: RiskLevel)
    ensures r.Label() == s.Label() <==> r == s
    ensures r.Color() == s.Color() <==> r == s
  {
  }

  /** Raising one already-answered question while the others stay fixed never
      lowers the score and never moves the tier toward Faible. */
  lemma RaiseNeverLowers(answers: AnswerSet, q: int, v: int)
    requires q in answers && answers[q] <= v
    ensures Score(answers[q := v]) == Score(answers) + (v - answers[q])
    ensures Score(answers) <= Score(answers[q := v])
    ensures GetRiskLevel(Score(answers)).Rank() <= GetRiskLevel(Score(answers[q := v])).Rank()
  {
    ScoreUpdate(answers, q, v);
    TierMonotone(Score(answers), Score(answers[q := v]));
  }

  /** The answer set with the same severity on every question of the bank. */
  function Uniform(severity: int): AnswerSet {
    map[1 := severity, 2 := severity, 3 := severity, 4 := severity, 5 := severity, 6 := severity]
  }

  lemma UniformSize(severity: int)
    ensures |Uniform(severity)| == 6
  {
    var answers := Uniform(severity);
    assert answers.Keys == {1, 2, 3, 4, 5, 6};
    assert |answers| == |answers.Keys|;
    assert |{1, 2, 3, 4, 5, 6}| == 6;
  }

  lemma UniformScore(severity: int)
    requires 1 <= severity <= 3
    ensures Score(Uniform(severity)) == 6 * severity
  {
    var answers := Uniform(severity);
    assert answers.Keys == {1, 2, 3, 4, 5, 6};
    forall id | id in answers ensures IsAnswerScore(id, answers[id]) {
      AnswerScores(id, severity);
    }
    CompleteMeansAllIds(answers);
    ScoreOfComplete(answers);
  }

  /** All answers 1 give 6 (Faible), all 2 give 12 (Modéré), all 3 give 18 (Élevé). */
  lemma UniformExamples()
    ensures Score(Uniform(1)) == 6 && GetRiskLevel(Score(Uniform(1))) == Low
    ensures Score(Uniform(2)) == 12 && GetRiskLevel(Score(Uniform(2))) == Moderate
    ensures Score(Uniform(3)) == 18 && GetRiskLevel(Score(Uniform(3))) == High
  {
    UniformScore(1);
    UniformScore(2);
    UniformScore(3);
  }
}
