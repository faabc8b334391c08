/**
 * Questions as received from the trivia provider and the order in which
 * their options are presented (frontend/script.js, loadQuiz and shuffle).
 */
module AnswerKey {

  /** One entry of the provider's `results`: the question text, its correct answer and its distractors. */
  datatype Question = Question(question: string, correctAnswer: string, incorrectAnswers: seq<string>)

  /** `[...q.incorrect_answers, q.correct_answer]`: the options before shuffling. */
  function OptionList(q: Question): (opts: seq<string>)
    ensures |opts| == |q.incorrectAnswers| + 1
    ensures opts[|opts| - 1] == q.correctAnswer
  {
    q.incorrectAnswers + [q.correctAnswer]
  }

  /** Every draw is a value `Math.random()` can return. */
  predicate UnitInterval(rs: seq<real>) {
    forall k :: 0 <= k < |rs| ==> 0.0 <= rs[k] < 1.0
  }

  /** The number of draws the shuffle loop makes on a list of length `n`: one per `i` from `n - 1` down to 1. */
  function DrawCount(n: nat): nat {
    if n > 1 then n - 1 else 0
  }

  /** `Math.floor(r * (i + 1))`. */
  function Pick(r: real, i: nat): int {
    (r * (i + 1) as real).Floor
  }

  /** A draw from the unit interval picks a position in `[0, i]`. */
  lemma PickInRange(r: real, i: nat)
    requires 0.0 <= r < 1.0
    ensures 0 <= Pick(r, i) <= i
  {
    var n := (i + 1) as real;
    MulNonNegative(r, n);
    MulPositive(1.0 - r, n);
    assert n - r * n == (1.0 - r) * n;
  }

  lemma MulNonNegative(a: real, b: real)
    requires a >= 0.0 && b >= 0.0
    ensures a * b >= 0.0
  {
  }

  lemma MulPositive(a: real, b: real)
    requires a > 0.0 && b > 0.0
    ensures a * b > 0.0
  {
  }

  /** The list with the elements at `i` and `j` exchanged. */
  function Swap<T>(s: seq<T>, i: nat, j: nat): (t: seq<T>)
    requires i < |s| && j < |s|
    ensures |t| == |s| && t[i] == s[j] && t[j] == s[i]
    ensures forall k :: 0 <= k < |s| && k != i && k != j ==> t[k] == s[k]
  {
    s[i := s[j]][j := s[i]]
  }

  /**
   * What the shuffle loop still does from loop index `i` on, taking the
   * remaining draws `rs` in order: swap position `i` with the drawn position, then go on with `i - 1`.
   */
  function ShuffleFrom<T>(s: seq<T>, i: int, rs: seq<real>): seq<T>
    requires i < |s| && |rs| == (if i > 0 then i else 0) && UnitInterval(rs)
    decreases if i > 0 then i else 0
  {
    if i <= 0 then s
    else
      PickInRange(rs[0], i);
      ShuffleFrom(Swap(s, i, Pick(rs[0], i)), i - 1, rs[1..])
  }

  /** The whole Fisher–Yates shuffle of `s` under the draws `rs`. */
  function Shuffled<T>(s: seq<T>, rs: seq<real>): seq<T>
    requires |rs| == DrawCount(|s|) && UnitInterval(rs)
  {
    ShuffleFrom(s, |s| - 1, rs)
  }

  /** Swapping two positions keeps the elements. */
  lemma SwapPermutes<T>(s: seq<T>, i: nat, j: nat)
    requires i < |s| && j < |s|
    ensures multiset(Swap(s, i, j)) == multiset(s)
  {
  }

  /** The shuffle loop only exchanges elements: its result is a permutation of its input. */
  lemma {:induction false} ShuffleFromPermutes<T>(s: seq<T>, i: int, rs: seq<real>)
    requires i < |s| && |rs| == (if i > 0 then i else 0) && UnitInterval(rs)
    ensures |ShuffleFrom(s, i, rs)| == |s|
    ensures multiset(ShuffleFrom(s, i, rs)) == multiset(s)
    decreases if i > 0 then i else 0
  {
    if i > 0 {
      PickInRange(rs[0], i);
      var j := Pick(rs[0], i);
      SwapPermutes(s, i, j);
      ShuffleFromPermutes(Swap(s, i, j), i - 1, rs[1..]);
    }
  }

  /** The presented options are exactly the question's options, each as often as before, for every sequence of draws. */
  lemma ShuffledPermutes<T>(s: seq<T>, rs: seq<real>)
    requires |rs| == DrawCount(|s|) && UnitInterval(rs)
    ensures |Shuffled(s, rs)| == |s|
    ensures multiset(Shuffled(s, rs)) == multiset(s)
  {
    ShuffleFromPermutes(s, |s| - 1, rs);
  }

  /** `shuffle(array)`: the in-place Fisher–Yates loop, `i` from the last index down to 1. */
  method Shuffle<T>(a: array<T>, rs: seq<real>)
    requires |rs| == DrawCount(a.Length) && UnitInterval(rs)
    modifies a
    ensures a[..] == Shuffled(old(a[..]), rs)
    ensures multiset(a[..]) == multiset(old(a[..]))
  {
    var i := a.Length - 1;
    var k := 0;
    while i > 0
      invariant -1 <= i < a.Length
      invariant k == (if a.Length > 1 then a.Length - 1 - i else 0) && k <= |rs|
      invariant |rs[k..]| == (if i > 0 then i else 0)
      invariant ShuffleFrom(a[..], i, rs[k..]) == Shuffled(old(a[..]), rs)
    {
      PickInRange(rs[k], i);
      var j := Pick(rs[k], i);
      assert rs[k..][1..] == rs[k + 1..];
      a[i], a[j] := a[j], a[i];
      i := i - 1;
      k := k + 1;
    }
    ShuffledPermutes(old(a[..]), rs);
  }

  /** `shuffle([...q.incorrect_answers, q.correct_answer])`: the options of one question in presentation order. */
  method PresentOptions(q: Question, rs: seq<real>) returns (options: seq<string>)
    requires |rs| == DrawCount(|q.incorrectAnswers| + 1) && UnitInterval(rs)
    ensures options == Shuffled(OptionList(q), rs)
    ensures |options| == |q.incorrectAnswers| + 1
    ensures multiset(options) == multiset(q.incorrectAnswers) + multiset{q.correctAnswer}
    ensures q.correctAnswer in options
  {
    var opts := OptionList(q);
    var a := new string[|opts|](k requires 0 <= k < |opts| => opts[k]);
    assert a[..] == opts;
    Shuffle(a, rs);
    options := a[..];
    assert q.correctAnswer in multiset(opts);
  }
}
