/** What the results page (src/app/components/flashcard/ResultsPage.tsx)
    derives from the ratings and the score it is handed: the label of each
    rating, the congratulations banner and the confetti, the fill of the
    score gauge and the per-question rows. */
module ResultsPage {
  import opened Wrappers
  import opened QuizEngine

  /** getConfidenceText. */
  function ConfidenceText(level: int): (text: string)
    ensures IsRating(level) <==> text != ""
  {
    match level
    case 0 => "Didn't know it"
    case 1 => "Maybe saw this question"
    case 2 => "Knew the question"
    case 3 => "Got it correct"
    case _ => ""
  }

  /** The four ratings carry four different labels, so a label tells the
      rating back. */
  lemma ConfidenceTextDistinct(a: int, b: int)
    requires IsRating(a) && IsRating(b) && ConfidenceText(a) == ConfidenceText(b)
    ensures a == b
  {
    assert ConfidenceText(0)[0] == 'D' && ConfidenceText(1)[0] == 'M';
    assert ConfidenceText(2)[0] == 'K' && ConfidenceText(3)[0] == 'G';
  }

  /** `userAnswers[index]`: undefined past the recorded ratings. */
  function RatingAt(answers: seq<int>, i: nat): (r: Option<int>)
    ensures r.Some? <==> i < |answers|
  {
    if i < |answers| then Some(answers[i]) else None
  }

  /** The label shown for a question; undefined matches no case and falls
      to the default "". */
  function LabelAt(answers: seq<int>, i: nat): (text: string)
    ensures text != "" <==> i < |answers| && IsRating(answers[i])
  {
    match RatingAt(answers, i)
    case Some(level) => ConfidenceText(level)
    case None => ""
  }

  /** The congratulations banner: shown once the gauge is at least half
      full. */
  function ShowsBanner(score: real): (shown: bool)
    ensures shown <==> GaugeFraction(score) >= 0.5
  {
    score >= 50.0
  }

  /** The effect that switches the confetti on (for five seconds): it
      fires exactly when the banner is shown. */
  function StartsConfetti(score: real): (starts: bool)
    ensures starts <==> ShowsBanner(score)
  {
    score >= 50.0
  }

  /** The `pathLength` the gauge animates to. */
  function GaugeFraction(score: real): (f: real)
    ensures 0.0 <= score <= 100.0 ==> 0.0 <= f <= 1.0
    ensures f * 100.0 == score
  {
    score / 100.0
  }

  /** For the score the quiz page computes, the banner shows exactly when
      the ratings reach two thirds of the maximum. */
  lemma BannerIffTwoThirds(answers: seq<int>, n: nat)
    requires n > 0
    ensures ShowsBanner(Score(answers, n)) <==> 2 * Sum(answers) >= 3 * n
  {
    HalfIffTwoThirds(Score(answers, n), Sum(answers) as real, n as real);
  }

  /** The threshold in real arithmetic: with score * 3n = 100 * s, the
      score reaches 50 exactly when 2s reaches 3n. */
  lemma HalfIffTwoThirds(score: real, s: real, n: real)
    requires n > 0.0 && score * (3.0 * n) == 100.0 * s
    ensures score >= 50.0 <==> 2.0 * s >= 3.0 * n
  {
    var d := 3.0 * n;
    if score >= 50.0 {
      ScaleByPositive(50.0, score, d);
    } else {
      ScaleByPositive(score, 50.0, d);
    }
  }

  /** One block of the results list. */
  datatype Row = Row(number: nat, question: string, confidence: string, correctAnswer: string)

  /** `quizData.map((question, index) => …)`. */
  function Rows(cards: seq<Flashcard>, answers: seq<int>): (rows: seq<Row>)
    ensures |rows| == |cards|
  {
    seq(|cards|, i requires 0 <= i < |cards| =>
      Row(i + 1, cards[i].question, LabelAt(answers, i), cards[i].answer))
  }

  /** Row i is question i + 1 with its card and the label of rating i; a
      question with no recorded rating shows an empty label. */
  lemma RowsFollowQuiz(cards: seq<Flashcard>, answers: seq<int>, i: nat)
    requires i < |cards|
    ensures var row := Rows(cards, answers)[i];
      && row.number == i + 1
      && row.question == cards[i].question && row.correctAnswer == cards[i].answer
      && (i < |answers| ==> row.confidence == ConfidenceText(answers[i]))
      && (i >= |answers| ==> row.confidence == "")
  {
  }

  /** On the results page of any reachable state every row carries a
      non-empty label, the one of its own rating. */
  lemma FinishedRowsAllLabelled(cards: seq<Flashcard>, p: Progress, i: nat)
    requires Inv(p, |cards|) && p.finished && i < |cards|
    ensures Rows(cards, p.answers)[i].confidence == ConfidenceText(p.answers[i]) != ""
  {
    assert IsRating(p.answers[i]);
  }
}
