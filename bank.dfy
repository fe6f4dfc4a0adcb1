/** The fixed questionnaire: six questions about data-loss risk, each offering
    three answers whose severities are 1, 2 and 3 in the order presented. */
module QuestionBank {

  datatype AnswerOption = AnswerOption(text: string, score: int)

  datatype Question = Question(id: int, question: string, answers: seq<AnswerOption>)

  const QUESTIONS: seq<Question> := [
    Question(1, "Où sont stockées vos données critiques ?", [
      AnswerOption("Dans plusieurs sites ou datacenters redondés", 1),
      AnswerOption("Sur un cloud unique (AWS, OVH, etc.)", 2),
      AnswerOption("Sur un serveur local sans redondance externe", 3)]),
    Question(2, "Quelle est la fréquence de vos sauvegardes ?", [
      AnswerOption("Quotidienne ou en continu", 1),
      AnswerOption("Hebdomadaire ou irrégulière", 2),
      AnswerOption("Moins d'une fois par semaine", 3)]),
    Question(3, "Disposez-vous d'un PRA testé récemment ?", [
      AnswerOption("Oui, testé dans les 12 derniers mois", 1),
      AnswerOption("Oui, mais jamais testé ou partiellement", 2),
      AnswerOption("Non, aucun PRA formel", 3)]),
    Question(4, "Êtes-vous dépendant d'un seul site ou fournisseur ?", [
      AnswerOption("Non, plusieurs sites ou fournisseurs", 1),
      AnswerOption("Oui, un seul fournisseur (cloud ou local)", 2),
      AnswerOption("Oui, un seul site physique", 3)]),
    Question(5, "Vos sauvegardes sont-elles chiffrées avec maîtrise locale des clés ?", [
      AnswerOption("Oui, clés locales ou HSM", 1),
      AnswerOption("Oui, mais clés chez un prestataire externe", 2),
      AnswerOption("Non, pas de chiffrement ou clés exposées", 3)]),
    Question(6, "Êtes-vous soumis à des obligations réglementaires ou souveraines spécifiques ?", [
      AnswerOption("Oui, pleinement prises en compte", 1),
      AnswerOption("Oui, partiellement traitées", 2),
      AnswerOption("Oui, mais ignorées ou méconnues", 3)])
  ]

  /** The identifiers of the bank's questions. */
  function QuestionIds(): set<int> {
    set i | 0 <= i < |QUESTIONS| :: QUESTIONS[i].id
  }

  /** `score` is the severity of one of the options of question `id`. */
  predicate IsAnswerScore(id: int, score: int) {
    exists i, j :: 0 <= i < |QUESTIONS| && 0 <= j < |QUESTIONS[i].answers|
      && QUESTIONS[i].id == id && QUESTIONS[i].answers[j].score == score
  }

  /** An answer set: question identifier to the chosen severity. */
  type AnswerSet = map<int, int>

  /** Every entry of `answers` is a bank question answered with one of its options. */
  predicate FromBank(answers: AnswerSet) {
    forall id :: id in answers ==> IsAnswerScore(id, answers[id])
  }

  /** Every question of the bank has an entry in `answers`. */
  predicate Complete(answers: AnswerSet) {
    forall i :: 0 <= i < |QUESTIONS| ==> QUESTIONS[i].id in answers
  }

  /** The bank is an ordered table of six questions with ids 1..6, each with
      three options of severity 1, 2 and 3 in that order. */
  lemma BankShape()
    ensures |QUESTIONS| == 6
    ensures forall i :: 0 <= i < 6 ==> QUESTIONS[i].id == i + 1
    ensures forall i :: 0 <= i < 6 ==> |QUESTIONS[i].answers| == 3
    ensures forall i, j :: 0 <= i < 6 && 0 <= j < 3 ==> QUESTIONS[i].answers[j].score == j + 1
  {
  }

  lemma QuestionIdsAreOneToSix()
    ensures QuestionIds() == {1, 2, 3, 4, 5, 6}
  {
    BankShape();
    forall id | id in {1, 2, 3, 4, 5, 6} ensures id in QuestionIds() {
      assert QUESTIONS[id - 1].id == id;
    }
  }

  /** The severities a user can pick are exactly 1..3 on questions 1..6. */
  lemma AnswerScores(id: int, score: int)
    ensures IsAnswerScore(id, score) <==> 1 <= id <= 6 && 1 <= score <= 3
  {
    BankShape();
    if 1 <= id <= 6 && 1 <= score <= 3 {
      assert QUESTIONS[id - 1].id == id && QUESTIONS[id - 1].answers[score - 1].score == score;
    }
  }

  /** Cardinality of a set that sits inside a larger one. */
  lemma SubsetCardinality(a: set<int>, b: set<int>)
    requires a <= b
    ensures |a| <= |b|
    ensures |a| == |b| ==> a == b
  {
    if a != b {
      if forall y :: y in b ==> y in a {
        assert false;
      }
      var x :| x in b && x !in a;
      SubsetCardinality(a, b - {x});
    }
  }

  /** Completeness is "every identifier 1..6 has an entry". */
  lemma CompleteMeansAllIds(answers: AnswerSet)
    ensures Complete(answers) <==> {1, 2, 3, 4, 5, 6} <= answers.Keys
  {
    BankShape();
    if Complete(answers) {
      forall id | id in {1, 2, 3, 4, 5, 6} ensures id in answers {
        assert QUESTIONS[id - 1].id == id;
      }
    }
  }

  /** An answer set drawn from the bank only has entries for questions 1..6,
      each a severity between 1 and 3. */
  lemma FromBankRange(answers: AnswerSet)
    requires FromBank(answers)
    ensures forall id :: id in answers ==> 1 <= id <= 6 && 1 <= answers[id] <= 3
  {
    forall id | id in answers ensures 1 <= id <= 6 && 1 <= answers[id] <= 3 {
      AnswerScores(id, answers[id]);
    }
  }

  /** A complete answer set drawn from the bank holds exactly the six
      identifiers, each with a severity between 1 and 3. */
  lemma CompleteFromBank(answers: AnswerSet)
    requires FromBank(answers) && Complete(answers)
    ensures answers.Keys == {1, 2, 3, 4, 5, 6}
    ensures forall id :: id in answers ==> 1 <= answers[id] <= 3
  {
    CompleteMeansAllIds(answers);
    FromBankRange(answers);
    OneToSix(answers.Keys);
  }

  /** A set of identifiers between 1 and 6 lies inside {1, ..., 6}. */
  lemma WithinOneToSix(ids: set<int>)
    requires forall id :: id in ids ==> 1 <= id <= 6
    ensures ids <= {1, 2, 3, 4, 5, 6}
  {
    forall id | id in ids ensures id in {1, 2, 3, 4, 5, 6} {
      assert 1 <= id <= 6;
    }
  }

  lemma OneToSix(ids: set<int>)
    requires {1, 2, 3, 4, 5, 6} <= ids
    requires forall id :: id in ids ==> 1 <= id <= 6
    ensures ids == {1, 2, 3, 4, 5, 6}
  {
    WithinOneToSix(ids);
  }

  /** For an answer set drawn from the bank, the submit guard of the form
      (at least as many entries as questions) holds exactly when the set is complete. */
  lemma GuardMeansComplete(answers: AnswerSet)
    requires FromBank(answers)
    ensures |answers| >= |QUESTIONS| <==> Complete(answers)
  {
    var ids: set<int> := {1, 2, 3, 4, 5, 6};
    assert |ids| == 6;
    FromBankRange(answers);
    WithinOneToSix(answers.Keys);
    SubsetCardinality(answers.Keys, ids);
    assert |answers.Keys| == |answers|;
    assert |QUESTIONS| == 6 by {
      BankShape();
    }
    CompleteMeansAllIds(answers);
    if ids <= answers.Keys {
      SubsetCardinality(ids, answers.Keys);
    }
  }
}
