/**
 * The quiz page's module-level state (`quizData`, `userName`, `quizMeta`,
 * `lastRequestTime`) and the handlers that change it, as one object: start a
 * quiz, receive the question batch, submit the answers, retake, and clear the
 * leaderboard (frontend/script.js).
 */
module QuizSession {
  import opened Wrappers
  import opened Labels
  import opened AnswerKey
  import opened Scoring
  import opened Leaderboard

  /** The minimum time, in milliseconds, between two accepted starts. */
  const ThrottleWindow: int := 5000

  /** `quizMeta`: the display labels fixed when a quiz starts. */
  datatype Meta = Meta(categoryName: string, difficultyName: string)

  /**
   * Which part of the page is shown: the welcome form, the quiz section while
   * the questions load, the quiz section with its questions, or the result.
   */
  datatype Screen = Welcome | Loading | Answering | Result

  /**
   * How the question request ended: a response whose `results` field may be
   * missing (`Received(None)`), or a rejected fetch (network error, the
   * ten-second abort, or a body that is not JSON).
   */
  datatype FetchOutcome = Received(results: Option<seq<Question>>) | Failed {
    /** `data.results && data.results.length > 0`. */
    predicate Loads() {
      Received? && results.Some? && |results.value| > 0
    }
  }

  datatype StartOutcome = Throttled | NameMissing | Requested

  datatype SubmitOutcome = Incomplete | Scored(report: Report, top: seq<Record>)

  /** One list of `Math.random()` draws per question, as many as its shuffle uses. */
  predicate DrawsFor(qs: seq<Question>, draws: seq<seq<real>>) {
    |draws| == |qs|
    && forall i :: 0 <= i < |qs| ==>
         |draws[i]| == DrawCount(|qs[i].incorrectAnswers| + 1) && UnitInterval(draws[i])
  }

  /** The options `loadQuiz` renders: each question's options shuffled with its own draws. */
  function Presentation(qs: seq<Question>, draws: seq<seq<real>>): seq<seq<string>>
    requires DrawsFor(qs, draws)
  {
    seq(|qs|, i requires 0 <= i < |qs| => Shuffled(OptionList(qs[i]), draws[i]))
  }

  /** One radio group per question, each a permutation of that question's options. */
  ghost predicate Presents(options: seq<seq<string>>, qs: seq<Question>) {
    |options| == |qs|
    && forall i :: 0 <= i < |qs| ==> multiset(options[i]) == multiset(OptionList(qs[i]))
  }

  /** The record a completed submit appends: `{ name, score, total, category, difficulty }`. */
  function RecordOf(name: string, meta: Meta, score: nat, total: nat): Record {
    Record(name, score, total, meta.categoryName, meta.difficultyName)
  }

  /** Every stored record scores at most its total. */
  predicate ScoresWithinTotals(stored: Option<seq<Record>>) {
    forall r :: r in ReadLog(stored) ==> r.score <= r.total
  }

  /** Appending a record that scores at most its total keeps every stored record within its total. */
  lemma AppendWithinTotals(stored: Option<seq<Record>>, record: Record)
    requires ScoresWithinTotals(stored) && record.score <= record.total
    ensures ScoresWithinTotals(Some(ReadLog(stored) + [record]))
  {
  }

  /** A ranking on show is the top 3 of the stored log. */
  predicate ShowsTopThree(ranking: Option<seq<Record>>, stored: Option<seq<Record>>) {
    ranking.Some? ==> ranking.value == TopThree(ReadLog(stored))
  }

  class QuizApp {
    var quizData: seq<Question>
    var userName: string
    var quizMeta: Meta
    var lastRequestTime: int
    /** The visible section of the page. */
    var screen: Screen
    /** The radio groups in the quiz container; empty when the container is cleared. */
    var options: seq<seq<string>>
    /** The result box. */
    var report: Option<Report>
    /** The top-3 list in the leaderboard box, if one is shown. */
    var ranking: Option<seq<Record>>
    /** The `quiz_leaderboard` storage key; `None` when it is absent. */
    var stored: Option<seq<Record>>

    /**
     * The rendered radio groups belong to the current questions, a quiz being
     * answered has questions and all of their groups, and a shown ranking is
     * the top 3 of the stored log. The stored log itself may hold anything a
     * readable `quiz_leaderboard` holds.
     */
    ghost predicate Valid()
      reads this
    {
      && (options == [] || Presents(options, quizData))
      && (screen == Answering ==> quizData != [] && Presents(options, quizData))
      && ShowsTopThree(ranking, stored)
    }

    /** The page as it is loaded, with whatever log earlier visits left in storage. */
    constructor (saved: Option<seq<Record>>)
      ensures Valid()
      ensures quizData == [] && userName == "" && quizMeta == Meta("", "") && lastRequestTime == 0
      ensures screen == Welcome && options == [] && report == None && ranking == None
      ensures stored == saved
    {
      quizData := [];
      userName := "";
      quizMeta := Meta("", "");
      lastRequestTime := 0;
      screen := Welcome;
      options := [];
      report := None;
      ranking := None;
      stored := saved;
    }

    /**
     * `startQuiz` up to the request: the throttle, the name check, the labels
     * and the loading screen. `now` is `Date.now()`.
     */
    method StartQuiz(now: int, name: string, category: string, difficulty: string) returns (outcome: StartOutcome)
      requires Valid()
      modifies this
      ensures Valid()
      ensures stored == old(stored)
      ensures outcome == Throttled <==> now - old(lastRequestTime) < ThrottleWindow
      ensures outcome == NameMissing <==> now - old(lastRequestTime) >= ThrottleWindow && Trim(name) == []
      ensures outcome == Throttled ==> lastRequestTime == old(lastRequestTime)
      ensures outcome != Throttled ==> lastRequestTime == now
      ensures outcome != Requested ==>
        && quizData == old(quizData) && userName == old(userName) && quizMeta == old(quizMeta)
        && screen == old(screen) && options == old(options) && report == old(report)
        && ranking == old(ranking)
      ensures outcome == Requested ==>
        && userName == Trim(name) && userName != []
        && quizMeta == Meta(CategoryLabel(category), DifficultyLabel(difficulty))
        && screen == Loading && options == [] && report == None && ranking == None
        && quizData == old(quizData)
    {
      if now - lastRequestTime < ThrottleWindow {
        return Throttled;
      }
      lastRequestTime := now;
      var nameInput := Trim(name);
      if nameInput == [] {
        return NameMissing;
      }
      var meta := Meta(CategoryLabel(category), DifficultyLabel(difficulty));
      userName := nameInput;
      quizMeta := meta;
      screen := Loading;
      options := [];
      report := None;
      ranking := None;
      return Requested;
    }

    /** `loadQuiz`: renders every question's options in shuffled order. */
    method LoadQuiz(draws: seq<seq<real>>)
      requires DrawsFor(quizData, draws)
      modifies this`options
      ensures options == Presentation(quizData, draws)
      ensures Presents(options, quizData)
    {
      var rendered: seq<seq<string>> := [];
      var index := 0;
      while index < |quizData|
        invariant 0 <= index <= |quizData|
        invariant |rendered| == index
        invariant forall k :: 0 <= k < index ==>
          rendered[k] == Shuffled(OptionList(quizData[k]), draws[k])
          && multiset(rendered[k]) == multiset(OptionList(quizData[k]))
      {
        var opts := PresentOptions(quizData[index], draws[index]);
        rendered := rendered + [opts];
        index := index + 1;
      }
      ghost var shown := Presentation(quizData, draws);
      assert |rendered| == |shown| && forall k :: 0 <= k < |shown| ==> rendered[k] == shown[k];
      options := rendered;
    }

    /**
     * The rest of `startQuiz`, once the request has settled: a non-empty
     * `results` list becomes the quiz and is rendered, and the loader gives way
     * to the questions; which section is visible is otherwise left as it is.
     * Anything else returns to the welcome screen and keeps the previous `quizData`.
     */
    method OnFetch(outcome: FetchOutcome, draws: seq<seq<real>>)
      requires Valid()
      requires outcome.Loads() ==> DrawsFor(outcome.results.value, draws)
      modifies this
      ensures Valid()
      ensures outcome.Loads() ==>
        && quizData == outcome.results.value
        && options == Presentation(quizData, draws)
        && screen == (if old(screen) == Loading then Answering else old(screen))
      ensures !outcome.Loads() ==>
        quizData == old(quizData) && options == [] && screen == Welcome
      ensures userName == old(userName) && quizMeta == old(quizMeta)
      ensures lastRequestTime == old(lastRequestTime) && report == old(report)
      ensures ranking == old(ranking) && stored == old(stored)
    {
      if outcome.Loads() {
        quizData := outcome.results.value;
        LoadQuiz(draws);
        if screen == Loading {
          screen := Answering;
        }
      } else {
        screen := Welcome;
        options := [];
      }
    }

    /**
     * The submit handler. `selections[i]` is the value of the checked radio
     * button of question `i`, if any; `decode` is `decodeHTML`. An incomplete
     * answer set changes nothing. Otherwise the score, badge and details are
     * computed, one record is appended to the stored log and the top 3 of the
     * new log is shown.
     */
    method Submit(selections: seq<Option<string>>, decode: string -> string) returns (outcome: SubmitOutcome)
      requires Valid()
      modifies this
      ensures Valid()
      ensures !Complete(|quizData|, selections) ==>
        && outcome == Incomplete
        && screen == old(screen) && options == old(options) && report == old(report)
        && ranking == old(ranking) && stored == old(stored)
      ensures Complete(|quizData|, selections) ==>
        var shown := ReportFor(quizData, Answers(|quizData|, selections), decode);
        var log := ReadLog(old(stored)) + [RecordOf(userName, quizMeta, shown.score, shown.total)];
        && outcome == Scored(shown, TopThree(log))
        && stored == Some(log)
        && screen == Result && options == [] && report == Some(shown)
        && ranking == Some(TopThree(log))
      ensures ScoresWithinTotals(old(stored)) ==> ScoresWithinTotals(stored)
      ensures quizData == old(quizData) && userName == old(userName)
      ensures quizMeta == old(quizMeta) && lastRequestTime == old(lastRequestTime)
    {
      var result := Evaluate(quizData, selections, decode);
      if result.None? {
        return Incomplete;
      }
      var shown := result.value;
      var record := RecordOf(userName, quizMeta, shown.score, shown.total);
      if ScoresWithinTotals(stored) {
        AppendWithinTotals(stored, record);
      }
      var allScores := Append(ReadLog(stored), record);
      stored := Some(allScores);
      options := [];
      screen := Result;
      report := Some(shown);
      var topScores := TopThree(allScores);
      ranking := Some(topScores);
      outcome := Scored(shown, topScores);
    }

    /** The retake button of the result box: back to the welcome screen; the stored log is kept. */
    method Retake()
      requires Valid() && report.Some?
      modifies this
      ensures Valid()
      ensures screen == Welcome && options == [] && report == None && ranking == None
      ensures quizData == old(quizData) && userName == old(userName) && quizMeta == old(quizMeta)
      ensures lastRequestTime == old(lastRequestTime) && stored == old(stored)
    {
      screen := Welcome;
      options := [];
      report := None;
      ranking := None;
    }

    /** `resetLeaderboard`: once confirmed, the storage key is removed and the ranking is replaced by a notice. */
    method ResetLeaderboard(confirmed: bool)
      requires Valid()
      modifies this
      ensures Valid()
      ensures confirmed ==> stored == None && ReadLog(stored) == [] && ranking == None
      ensures !confirmed ==> stored == old(stored) && ranking == old(ranking)
      ensures quizData == old(quizData) && userName == old(userName) && quizMeta == old(quizMeta)
      ensures lastRequestTime == old(lastRequestTime) && screen == old(screen)
      ensures options == old(options) && report == old(report)
    {
      if confirmed {
        stored := None;
        ranking := None;
      }
    }
  }

  /**
   * Two starts inside the throttle window: the second is refused and leaves
   * the clock where it was; an empty batch returns to the welcome screen; a
   * start after the window goes through.
   */
  method ThrottleScenario() {
    var app := new QuizApp(None);
    var first := app.StartQuiz(10000, "Ann", "9", "easy");
    assert first == Requested && app.screen == Loading;
    var second := app.StartQuiz(12000, "Ann", "9", "easy");
    assert second == Throttled && app.lastRequestTime == 10000;
    app.OnFetch(Received(Some([])), []);
    assert app.screen == Welcome;
    var third := app.StartQuiz(15000, "Ann", "18", "hard");
    assert third == Requested && app.lastRequestTime == 15000;
  }

  /** A loaded quiz submitted with its only question unanswered stores nothing. */
  method IncompleteSubmitScenario(q: Question, draws: seq<real>)
    requires |draws| == DrawCount(|q.incorrectAnswers| + 1) && UnitInterval(draws)
  {
    var app := new QuizApp(None);
    var start := app.StartQuiz(10000, "Ann", "9", "easy");
    assert start == Requested && app.screen == Loading;
    app.OnFetch(Received(Some([q])), [draws]);
    assert app.screen == Answering && |app.options| == 1;
    var incomplete := app.Submit([None], s => s);
    assert incomplete == Incomplete && app.stored == None;
  }

  /** A page load over a stored log whose record scores above its total is accepted, and the log is kept. */
  method OverTotalLogScenario() {
    var bob := Record("Bob", 6, 5, "History", "Easy");
    var app := new QuizApp(Some([bob]));
    assert app.stored == Some([bob]) && app.screen == Welcome;
    app.ResetLeaderboard(false);
    assert app.stored == Some([bob]);
  }
}
