/**
 * The submit handler's validation and scoring (frontend/script.js, the
 * click handler of the submit button): every question must have a selection,
 * the score counts answers equal to the correct one after HTML decoding, and
 * the badge is chosen by an ordered threshold rule.
 */
module Scoring {
  import opened Wrappers
  import opened AnswerKey

  /** Question `i` has a checked radio button; indexes past the end of `selections` have none. */
  predicate Answered(selections: seq<Option<string>>, i: nat) {
    i < |selections| && selections[i].Some?
  }

  /** Every question index in `[0, n)` has a selection. */
  predicate Complete(n: nat, selections: seq<Option<string>>) {
    n <= |selections| && forall i :: 0 <= i < n ==> selections[i].Some?
  }

  /** The first loop of the handler: returns early on the first question without a selection. */
  method AllAnswered(quizData: seq<Question>, selections: seq<Option<string>>) returns (ok: bool)
    ensures ok <==> Complete(|quizData|, selections)
    ensures !ok ==> exists i :: 0 <= i < |quizData| && !Answered(selections, i)
  {
    var i := 0;
    while i < |quizData|
      invariant 0 <= i <= |quizData|
      invariant i <= |selections| && forall k :: 0 <= k < i ==> selections[k].Some?
    {
      if !Answered(selections, i) {
        return false;
      }
      i := i + 1;
    }
    return true;
  }

  /** The selected values, once every question has one. */
  function Answers(n: nat, selections: seq<Option<string>>): (answers: seq<string>)
    requires Complete(n, selections)
    ensures |answers| == n
    ensures forall i :: 0 <= i < n ==> selections[i] == Some(answers[i])
  {
    seq(n, i requires 0 <= i < n => selections[i].value)
  }

  /** `decodeHTML(selected.value) === decodeHTML(q.correct_answer)`. */
  predicate IsCorrect(q: Question, answer: string, decode: string -> string) {
    decode(answer) == decode(q.correctAnswer)
  }

  /** The number of questions answered correctly. */
  function CountCorrect(qs: seq<Question>, answers: seq<string>, decode: string -> string): nat
    requires |answers| == |qs|
  {
    if |qs| == 0 then 0
    else
      var n := |qs| - 1;
      CountCorrect(qs[..n], answers[..n], decode) + (if IsCorrect(qs[n], answers[n], decode) then 1 else 0)
  }

  /** One line of the result page: the decoded question, the decoded answers and whether they agree. */
  datatype Detail = Detail(question: string, userAnswer: string, correctAnswer: string, isCorrect: bool)

  function DetailOf(q: Question, answer: string, decode: string -> string): Detail {
    Detail(decode(q.question), decode(answer), decode(q.correctAnswer), IsCorrect(q, answer, decode))
  }

  /** The result page's entries for a whole quiz, in question order. */
  function DetailsOf(qs: seq<Question>, answers: seq<string>, decode: string -> string): seq<Detail>
    requires |answers| == |qs|
  {
    seq(|qs|, i requires 0 <= i < |qs| => DetailOf(qs[i], answers[i], decode))
  }

  /** The score never exceeds the number of questions. */
  lemma {:induction false} CountCorrectBounded(qs: seq<Question>, answers: seq<string>, decode: string -> string)
    requires |answers| == |qs|
    ensures 0 <= CountCorrect(qs, answers, decode) <= |qs|
  {
    if |qs| > 0 {
      CountCorrectBounded(qs[..|qs| - 1], answers[..|qs| - 1], decode);
    }
  }

  /** The score equals the number of questions exactly when every answer is correct. */
  lemma {:induction false} CountCorrectFull(qs: seq<Question>, answers: seq<string>, decode: string -> string)
    requires |answers| == |qs|
    ensures CountCorrect(qs, answers, decode) == |qs|
      <==> forall i :: 0 <= i < |qs| ==> IsCorrect(qs[i], answers[i], decode)
  {
    if |qs| > 0 {
      var n := |qs| - 1;
      CountCorrectFull(qs[..n], answers[..n], decode);
      CountCorrectBounded(qs[..n], answers[..n], decode);
      assert forall i :: 0 <= i < n ==> qs[..n][i] == qs[i] && answers[..n][i] == answers[i];
    }
  }

  /** The score is zero exactly when no answer is correct. */
  lemma {:induction false} CountCorrectZero(qs: seq<Question>, answers: seq<string>, decode: string -> string)
    requires |answers| == |qs|
    ensures CountCorrect(qs, answers, decode) == 0
      <==> forall i :: 0 <= i < |qs| ==> !IsCorrect(qs[i], answers[i], decode)
  {
    if |qs| > 0 {
      var n := |qs| - 1;
      CountCorrectZero(qs[..n], answers[..n], decode);
      assert forall i :: 0 <= i < n ==> qs[..n][i] == qs[i] && answers[..n][i] == answers[i];
    }
  }

  /**
   * The second loop of the handler: `score++` for each correct answer and one
   * `resultDetails` entry per question, in question order.
   */
  method Grade(quizData: seq<Question>, answers: seq<string>, decode: string -> string)
    returns (score: nat, details: seq<Detail>)
    requires |answers| == |quizData|
    ensures score == CountCorrect(quizData, answers, decode) && score <= |quizData|
    ensures |details| == |quizData|
    ensures forall i :: 0 <= i < |quizData| ==> details[i] == DetailOf(quizData[i], answers[i], decode)
    ensures details == DetailsOf(quizData, answers, decode)
  {
    score := 0;
    details := [];
    var index := 0;
    while index < |quizData|
      invariant 0 <= index <= |quizData|
      invariant score == CountCorrect(quizData[..index], answers[..index], decode)
      invariant |details| == index
      invariant forall i :: 0 <= i < index ==> details[i] == DetailOf(quizData[i], answers[i], decode)
    {
      var q := quizData[index];
      var userAnswer := decode(answers[index]);
      var correctAnswer := decode(q.correctAnswer);
      var isCorrect := userAnswer == correctAnswer;
      if isCorrect {
        score := score + 1;
      }
      details := details + [Detail(decode(q.question), userAnswer, correctAnswer, isCorrect)];
      assert quizData[..index + 1][..index] == quizData[..index];
      assert answers[..index + 1][..index] == answers[..index];
      index := index + 1;
    }
    assert quizData[..index] == quizData && answers[..index] == answers;
    CountCorrectBounded(quizData, answers, decode);
  }

  /** The achievement tiers, lowest first. */
  datatype Badge = Beginner | Bronze | Silver | Gold {
    function Rank(): nat {
      match this
      case Beginner => 0
      case Bronze => 1
      case Silver => 2
      case Gold => 3
    }
  }

  /**
   * The badge chain: Gold for a perfect score, else Silver from 70%, else
   * Bronze from 40%, else Beginner; `score >= total * 0.7` and
   * `score >= total * 0.4` are compared exactly, in integers.
   */
  function BadgeFor(score: nat, total: nat): Badge {
    if score == total then Gold
    else if 10 * score >= 7 * total then Silver
    else if 5 * score >= 2 * total then Bronze
    else Beginner
  }

  /** Gold is given exactly for a perfect score. */
  lemma GoldIffPerfect(score: nat, total: nat)
    ensures BadgeFor(score, total) == Gold <==> score == total
  {
  }

  /** No correct answer out of at least one question is Beginner. */
  lemma NothingRightIsBeginner(total: nat)
    requires total > 0
    ensures BadgeFor(0, total) == Beginner
  {
  }

  /** Within one quiz, a higher score never earns a lower badge. */
  lemma BadgeMonotone(s1: nat, s2: nat, total: nat)
    requires s1 <= s2 <= total
    ensures BadgeFor(s1, total).Rank() <= BadgeFor(s2, total).Rank()
  {
  }

  /** The thresholds at ten questions: 7 is Silver, 6 and 4 are Bronze, 3 is Beginner. */
  lemma BadgeBoundariesAtTen()
    ensures BadgeFor(7, 10) == Silver && BadgeFor(6, 10) == Bronze
    ensures BadgeFor(4, 10) == Bronze && BadgeFor(3, 10) == Beginner
  {
  }

  /** The badges of the five-question quiz the provider is asked for. */
  lemma BadgesAtFive(score: nat)
    requires score <= 5
    ensures BadgeFor(score, 5) == (if score == 5 then Gold else if score == 4 then Silver
                                   else if score >= 2 then Bronze else Beginner)
  {
  }

  /** What the result page shows: score, total, badge and one entry per question. */
  datatype Report = Report(score: nat, total: nat, badge: Badge, details: seq<Detail>)

  /** The report for a complete set of answers. */
  function ReportFor(qs: seq<Question>, answers: seq<string>, decode: string -> string): Report
    requires |answers| == |qs|
  {
    var score := CountCorrect(qs, answers, decode);
    Report(score, |qs|, BadgeFor(score, |qs|), DetailsOf(qs, answers, decode))
  }

  /**
   * The handler's validation and scoring: no report when a question has no
   * selection, otherwise the report of the selected answers, whose score is
   * at most the number of questions.
   */
  method Evaluate(quizData: seq<Question>, selections: seq<Option<string>>, decode: string -> string)
    returns (result: Option<Report>)
    ensures result.None? <==> !Complete(|quizData|, selections)
    ensures result.Some? ==> result.value == ReportFor(quizData, Answers(|quizData|, selections), decode)
    ensures result.Some? ==> result.value.score <= result.value.total == |quizData|
  {
    var complete := AllAnswered(quizData, selections);
    if !complete {
      return None;
    }
    var answers := Answers(|quizData|, selections);
    var score, details := Grade(quizData, answers, decode);
    var total := |quizData|;
    var badge := BadgeFor(score, total);
    return Some(Report(score, total, badge, details));
  }

  /** Answering every question correctly scores the total and earns Gold. */
  lemma AllCorrectIsGold(qs: seq<Question>, answers: seq<string>, decode: string -> string)
    requires |answers| == |qs|
    requires forall i :: 0 <= i < |qs| ==> IsCorrect(qs[i], answers[i], decode)
    ensures ReportFor(qs, answers, decode).score == |qs|
    ensures ReportFor(qs, answers, decode).badge == Gold
  {
    CountCorrectFull(qs, answers, decode);
  }

  /** Answering every question of a non-empty quiz wrongly scores zero and earns Beginner. */
  lemma NoneCorrectIsBeginner(qs: seq<Question>, answers: seq<string>, decode: string -> string)
    requires |answers| == |qs| && |qs| > 0
    requires forall i :: 0 <= i < |qs| ==> !IsCorrect(qs[i], answers[i], decode)
    ensures ReportFor(qs, answers, decode).score == 0
    ensures ReportFor(qs, answers, decode).badge == Beginner
  {
    CountCorrectZero(qs, answers, decode);
  }

  /** With no questions at all, the empty answer set is complete and the chain gives Gold for 0 out of 0. */
  lemma EmptyQuizIsGold(decode: string -> string)
    ensures Complete(0, [])
    ensures ReportFor([], [], decode) == Report(0, 0, Gold, [])
  {
  }
}
