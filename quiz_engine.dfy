/** The quiz progression engine of the flashcard page (src/app/page.tsx):
    the question index, the animation direction, the confidence ratings
    given so far and the results flag, the transitions the page's buttons
    fire, the localStorage mirror and the score shown on the results page.

    The transitions are stated once, as functions on a `Progress` value;
    the class `QuizSession` updates its fields in place the way the
    component's state setters do, and each of its methods is proved to
    move its state exactly as the matching function says. */
module QuizEngine {
  import opened Wrappers

  /** One entry of the quiz content: the prompt and the answer shown on
      the back of the card. The content itself is not part of this model;
      the engine only needs its length. */
  datatype Flashcard = Flashcard(question: string, answer: string)

  /** The page's state: `current` and `direction` are the pair held by
      one state hook, `answers` is userAnswers, `finished` is showResults. */
  datatype Progress = Progress(current: int, direction: int, answers: seq<int>, finished: bool)

  /** The value the save effect writes under the "quizState" key. Neither
      showResults nor direction is part of it. */
  datatype Snapshot = Snapshot(currentQuestion: int, userAnswers: seq<int>)

  /** The highest confidence rating a card offers; ratings run 0..3. */
  const MaxRating := 3

  predicate IsRating(level: int) {
    0 <= level <= MaxRating
  }

  predicate AllRatings(s: seq<int>) {
    forall i :: 0 <= i < |s| ==> IsRating(s[i])
  }

  /** The state the page starts in, and the one "Take Quiz Again" returns to. */
  const Initial := Progress(0, 0, [], false)

  /** The payload of the save effect, `{ currentQuestion, userAnswers }`;
      restoring it as written gives back the index and the ratings. */
  function Saved(p: Progress): (s: Snapshot)
    ensures RestoreAsWritten(Some(s)).current == p.current
    ensures RestoreAsWritten(Some(s)).answers == p.answers
  {
    Snapshot(p.current, p.answers)
  }

  /** The invariant of every state the page can reach over a quiz of `n`
      questions: while in progress one rating per question already passed;
      once finished one rating per question, with the index left on the
      last question. */
  predicate Inv(p: Progress, n: nat) {
    && n > 0
    && 0 <= p.current < n
    && -1 <= p.direction <= 1
    && AllRatings(p.answers)
    && if p.finished then p.current == n - 1 && |p.answers| == n
       else |p.answers| == p.current
  }

  // ---------------------------------------------------------------------
  // Transitions
  // ---------------------------------------------------------------------

  /** handleNextQuestion(level): record the rating, then move to the next
      question, or, on the last one, show the results without moving. */
  function Advance(p: Progress, n: nat, level: int): (r: Progress)
    ensures |r.answers| == |p.answers| + 1 && r.answers[|p.answers|] == level
    ensures forall i :: 0 <= i < |p.answers| ==> r.answers[i] == p.answers[i]
    ensures p.current < n - 1 ==> r.current == p.current + 1 && r.direction == 1 && r.finished == p.finished
    ensures p.current >= n - 1 ==> r.finished && r.current == p.current && r.direction == p.direction
  {
    var answers := p.answers + [level];
    if p.current < n - 1 then
      p.(current := p.current + 1, direction := 1, answers := answers)
    else
      p.(answers := answers, finished := true)
  }

  /** `slice(0, -1)`: everything but the last element; empty stays empty. */
  function DropLast(s: seq<int>): (r: seq<int>)
    ensures s != [] ==> r + [s[|s| - 1]] == s
    ensures s == [] ==> r == []
  {
    if s == [] then [] else s[..|s| - 1]
  }

  /** handlePrevQuestion: step back and forget the last rating; at index 0
      nothing happens. */
  function Retreat(p: Progress): (r: Progress)
    ensures p.current <= 0 ==> r == p
    ensures p.current > 0 ==> r.current == p.current - 1 && r.direction == -1 && r.finished == p.finished
    ensures p.current > 0 && p.answers != [] ==> r.answers + [p.answers[|p.answers| - 1]] == p.answers
  {
    if p.current > 0 then
      p.(current := p.current - 1, direction := -1, answers := DropLast(p.answers))
    else
      p
  }

  /** A snapshot the restore effect can take over without breaking `Inv`. */
  predicate Acceptable(s: Snapshot, n: nat) {
    0 <= s.currentQuestion < n && |s.userAnswers| == s.currentQuestion && AllRatings(s.userAnswers)
  }

  /** The restore-on-mount effect as the page has it: whatever was saved is
      copied into the state verbatim, direction reset to 0, no check. */
  function RestoreAsWritten(slot: Option<Snapshot>): (r: Progress)
    ensures slot.Some? ==> r.current == slot.value.currentQuestion && r.answers == slot.value.userAnswers
    ensures slot.Some? ==> r.direction == 0 && !r.finished
    ensures slot.None? ==> r == Initial
  {
    match slot
    case None => Initial
    case Some(s) => Progress(s.currentQuestion, 0, s.userAnswers, false)
  }

  /** The restore effect with the check it needs: a snapshot that does not
      describe an in-progress state is ignored and the quiz starts fresh. */
  function Restore(slot: Option<Snapshot>, n: nat): (r: Progress)
    requires n > 0
    ensures Inv(r, n)
    ensures slot.Some? && Acceptable(slot.value, n) ==> Saved(r) == slot.value
  {
    if slot.Some? && Acceptable(slot.value, n) then RestoreAsWritten(slot) else Initial
  }

  /** What the user can do: rate the card (QuizCard offers 0..3), Skip,
      Previous, or "Take Quiz Again" on the results page. */
  datatype Event = Rate(level: int) | Skip | Previous | Restart

  /** An event can only come from a control that is on screen: the card and
      its buttons while in progress, the restart button on the results page. */
  predicate Enabled(p: Progress, e: Event) {
    match e
    case Rate(level) => !p.finished && IsRating(level)
    case Skip => !p.finished
    case Previous => !p.finished
    case Restart => p.finished
  }

  /** What each control calls: the card's rating and Skip call
      handleNextQuestion, Previous calls handlePrevQuestion, "Take Quiz
      Again" calls resetQuiz. Each event adds at most one rating. */
  function Step(p: Progress, n: nat, e: Event): (r: Progress)
    ensures e.Skip? ==> r.answers == p.answers + [0]
    ensures e.Rate? ==> r.answers == p.answers + [e.level]
    ensures e.Previous? ==> |r.answers| <= |p.answers| && r.answers == p.answers[..|r.answers|]
    ensures e.Restart? ==> r == Initial
  {
    match e
    case Rate(level) => Advance(p, n, level)
    case Skip => Advance(p, n, 0)
    case Previous => Retreat(p)
    case Restart => Initial
  }

  /** The state after a sequence of events, or None if one of them was not
      on screen when it came. */
  function Run(p: Progress, n: nat, events: seq<Event>): (r: Option<Progress>)
    ensures events == [] ==> r == Some(p)
    ensures r.Some? ==> |r.value.answers| <= |p.answers| + |events|
    decreases |events|
  {
    if events == [] then Some(p)
    else if Enabled(p, events[0]) then Run(Step(p, n, events[0]), n, events[1..])
    else None
  }

  // ---------------------------------------------------------------------
  // Properties of the transitions
  // ---------------------------------------------------------------------

  /** Skip is a rating of 0. */
  lemma SkipRatesZero(p: Progress, n: nat)
    ensures Step(p, n, Skip) == Step(p, n, Rate(0))
    ensures Step(p, n, Skip).answers == p.answers + [0]
  {
  }

  lemma AdvancePreservesInv(p: Progress, n: nat, level: int)
    requires Inv(p, n) && !p.finished && IsRating(level)
    ensures Inv(Advance(p, n, level), n)
    ensures Advance(p, n, level).finished <==> p.current == n - 1
  {
  }

  lemma RetreatPreservesInv(p: Progress, n: nat)
    requires Inv(p, n) && !p.finished
    ensures Inv(Retreat(p), n)
  {
  }

  /** Every event that is on screen keeps the invariant. */
  lemma StepPreservesInv(p: Progress, n: nat, e: Event)
    requires Inv(p, n) && Enabled(p, e)
    ensures Inv(Step(p, n, e), n)
  {
    match e
    case Rate(level) => AdvancePreservesInv(p, n, level);
    case Skip => AdvancePreservesInv(p, n, 0);
    case Previous => RetreatPreservesInv(p, n);
    case Restart =>
  }

  lemma {:induction false} RunPreservesInv(p: Progress, n: nat, events: seq<Event>)
    requires Inv(p, n)
    ensures Run(p, n, events).Some? ==> Inv(Run(p, n, events).value, n)
    decreases |events|
  {
    if events != [] && Enabled(p, events[0]) {
      StepPreservesInv(p, n, events[0]);
      RunPreservesInv(Step(p, n, events[0]), n, events[1..]);
    }
  }

  /** Starting from [0, 0] and [], every state the page reaches has one
      rating per question passed while in progress, an index within
      0..n-1, and exactly n ratings once the results are shown. */
  lemma ReachableStatesKeepInv(n: nat, events: seq<Event>)
    requires n > 0 && Run(Initial, n, events).Some?
    ensures var p := Run(Initial, n, events).value;
      && 0 <= p.current <= n - 1
      && (!p.finished ==> |p.answers| == p.current)
      && (p.finished ==> |p.answers| == n)
  {
    RunPreservesInv(Initial, n, events);
  }

  /** Rating the last question shows the results but leaves the index on
      n - 1; it never reaches n. */
  lemma LastAdvanceStaysOnLastQuestion(p: Progress, n: nat, level: int)
    requires Inv(p, n) && !p.finished && p.current == n - 1
    ensures Advance(p, n, level).finished
    ensures Advance(p, n, level).current == n - 1
    ensures |Advance(p, n, level).answers| == n
  {
  }

  /** A step forward (not from the last question) followed by a step back
      gives back the index and the ratings; only direction differs. */
  lemma AdvanceThenRetreat(p: Progress, n: nat, level: int)
    requires 0 <= p.current < n - 1
    ensures Retreat(Advance(p, n, level)) == p.(direction := -1)
  {
    var a := Advance(p, n, level);
    assert DropLast(a.answers) == p.answers by {
      assert a.answers[..|a.answers| - 1] == p.answers;
    }
  }

  // ---------------------------------------------------------------------
  // Persistence
  // ---------------------------------------------------------------------

  /** Saving an in-progress state and restoring it gives the state back,
      with direction 0. */
  lemma RestoreSavedRoundTrip(p: Progress, n: nat)
    requires Inv(p, n) && !p.finished
    ensures Restore(Some(Saved(p)), n) == p.(direction := 0)
  {
  }

  /** What the page as written restores from a snapshot saved after the
      last rating: not the results page but the last question with all n
      ratings already recorded, a state outside the invariant. */
  lemma RestoreAsWrittenLosesResults(p: Progress, n: nat)
    requires Inv(p, n) && p.finished
    ensures var r := RestoreAsWritten(Some(Saved(p)));
      !r.finished && r.current == n - 1 && |r.answers| == n && !Inv(r, n)
  {
  }

  /** With the check in place, a snapshot saved after the last rating is
      ignored and the quiz starts over. */
  lemma RestoreAfterFinishStartsOver(p: Progress, n: nat)
    requires Inv(p, n) && p.finished
    ensures Restore(Some(Saved(p)), n) == Initial
  {
  }

  /** The snapshot left behind by "Take Quiz Again" restores the fresh
      state, the same as no snapshot at all. */
  lemma RestoreAfterReset(n: nat)
    requires n > 0
    ensures Restore(Some(Saved(Initial)), n) == Restore(None, n) == Initial
    ensures RestoreAsWritten(Some(Saved(Initial))) == RestoreAsWritten(None) == Initial
  {
  }

  // ---------------------------------------------------------------------
  // Score
  // ---------------------------------------------------------------------

  /** `userAnswers.reduce((sum, answer) => sum + answer, 0)`: a fold from
      the left, which equals the fold from the right. */
  function Sum(s: seq<int>): (total: int)
    ensures AllRatings(s) ==> 0 <= total <= MaxRating * |s|
  {
    if s == [] then 0 else Sum(s[..|s| - 1]) + s[|s| - 1]
  }

  /** calculateScore: the rating total as a percentage of n * 3. The
      division by zero of an empty quiz is excluded by the requires. */
  function Score(answers: seq<int>, n: nat): (score: real)
    requires n > 0
    ensures score * (n * MaxRating) as real == 100.0 * Sum(answers) as real
  {
    (Sum(answers) as real / (n * MaxRating) as real) * 100.0
  }

  lemma SumAppend(s: seq<int>, x: int)
    ensures Sum(s + [x]) == Sum(s) + x
  {
    assert (s + [x])[..|s|] == s;
  }

  /** Given valid ratings, the total is the maximum exactly when every
      rating is the maximum. */
  lemma {:induction false} SumIsMaxIff(s: seq<int>)
    requires AllRatings(s)
    ensures Sum(s) == MaxRating * |s| <==> forall i :: 0 <= i < |s| ==> s[i] == MaxRating
  {
    if s != [] {
      var init := s[..|s| - 1];
      SumIsMaxIff(init);
      assert forall i :: 0 <= i < |init| ==> init[i] == s[i];
      if Sum(s) == MaxRating * |s| {
        assert Sum(init) == MaxRating * |init| && s[|s| - 1] == MaxRating;
        forall i | 0 <= i < |s|
          ensures s[i] == MaxRating
        {
          if i < |init| {
            assert init[i] == s[i];
          }
        }
      }
    }
  }

  /** Changing one rating changes the total by the difference. */
  lemma {:induction false} SumUpdate(s: seq<int>, i: nat, v: int)
    requires i < |s|
    ensures Sum(s[i := v]) == Sum(s) - s[i] + v
  {
    var t := s[i := v];
    if i == |s| - 1 {
      assert t[..|t| - 1] == s[..|s| - 1];
    } else {
      SumUpdate(s[..|s| - 1], i, v);
      assert t[..|t| - 1] == s[..|s| - 1][i := v];
    }
  }

  /** Multiplying both sides by a positive number keeps the order, and
      dividing it out gives the order back. */
  lemma ScaleByPositive(x: real, y: real, d: real)
    requires d > 0.0
    ensures x <= y <==> x * d <= y * d
    ensures x < y <==> x * d < y * d
  {
    assert y * d - x * d == (y - x) * d;
  }

  /** With at most n ratings, each in 0..3, the score lies in [0, 100]. */
  lemma ScoreInRange(answers: seq<int>, n: nat)
    requires n > 0 && |answers| <= n && AllRatings(answers)
    ensures 0.0 <= Score(answers, n) <= 100.0
  {
    var d := (n * MaxRating) as real;
    var s := Sum(answers) as real;
    assert 0.0 <= s <= d;
    var score := Score(answers, n);
    assert 0.0 * d <= score * d;
    assert score * d <= 100.0 * d;
    ScaleByPositive(0.0, score, d);
    ScaleByPositive(score, 100.0, d);
  }

  /** With one rating per question, the score is 100 exactly when every
      rating is 3. */
  lemma ScoreFullMarksIff(answers: seq<int>, n: nat)
    requires n > 0 && |answers| == n && AllRatings(answers)
    ensures Score(answers, n) == 100.0 <==> forall i :: 0 <= i < n ==> answers[i] == MaxRating
  {
    var d := (n * MaxRating) as real;
    SumIsMaxIff(answers);
    if Score(answers, n) == 100.0 {
      assert 100.0 * d == 100.0 * Sum(answers) as real;
      assert Sum(answers) == n * MaxRating;
    }
  }

  /** Raising one rating never lowers the score. */
  lemma ScoreMonotone(answers: seq<int>, n: nat, i: nat, v: int)
    requires n > 0 && i < |answers| && answers[i] <= v
    ensures Score(answers, n) <= Score(answers[i := v], n)
  {
    var d := (n * MaxRating) as real;
    SumUpdate(answers, i, v);
    ScaleByPositive(Score(answers, n), Score(answers[i := v], n), d);
  }

  /** Five questions: all 3s give 100, all 0s give 0, 3,0,3,0,3 gives 60. */
  lemma ScoreExamples()
    ensures Score([3, 3, 3, 3, 3], 5) == 100.0
    ensures Score([0, 0, 0, 0, 0], 5) == 0.0
    ensures Score([3, 0, 3, 0, 3], 5) == 60.0
  {
    assert Sum([3, 3, 3, 3, 3]) == 15 by {
      assert [3, 3, 3, 3, 3][..4] == [3, 3, 3, 3];
      assert [3, 3, 3, 3][..3] == [3, 3, 3];
      assert [3, 3, 3][..2] == [3, 3];
      assert [3, 3][..1] == [3];
      assert [3][..0] == [];
    }
    assert Sum([0, 0, 0, 0, 0]) == 0 by {
      assert [0, 0, 0, 0, 0][..4] == [0, 0, 0, 0];
      assert [0, 0, 0, 0][..3] == [0, 0, 0];
      assert [0, 0, 0][..2] == [0, 0];
      assert [0, 0][..1] == [0];
      assert [0][..0] == [];
    }
    assert Sum([3, 0, 3, 0, 3]) == 9 by {
      assert [3, 0, 3, 0, 3][..4] == [3, 0, 3, 0];
      assert [3, 0, 3, 0][..3] == [3, 0, 3];
      assert [3, 0, 3][..2] == [3, 0];
      assert [3, 0][..1] == [3];
      assert [3][..0] == [];
    }
  }

  /** On the results page of any reachable state the score is a valid
      percentage. */
  lemma FinishedScoreInRange(p: Progress, n: nat)
    requires Inv(p, n) && p.finished
    ensures 0.0 <= Score(p.answers, n) <= 100.0
  {
    ScoreInRange(p.answers, n);
  }

  /** The page as written: one question, rated 3, reloaded after the
      results appear, rated 3 again; the results page then shows 200. */
  lemma ReloadAfterFinishOverflowsScore()
    ensures var finished := Advance(Initial, 1, 3);
      var reloaded := RestoreAsWritten(Some(Saved(finished)));
      var again := Advance(reloaded, 1, 3);
      && finished.finished && Score(finished.answers, 1) == 100.0
      && !reloaded.finished && reloaded.answers == [3]
      && again.finished && again.answers == [3, 3] && Score(again.answers, 1) == 200.0
  {
    var finished := Advance(Initial, 1, 3);
    assert finished == Progress(0, 0, [3], true);
    var reloaded := RestoreAsWritten(Some(Saved(finished)));
    assert reloaded == Progress(0, 0, [3], false);
    assert Advance(reloaded, 1, 3) == Progress(0, 0, [3, 3], true);
    assert Sum([3]) == 3 by {
      assert [3][..0] == [];
    }
    assert Sum([3, 3]) == 6 by {
      assert [3, 3][..1] == [3];
    }
    assert Score([3], 1) == 100.0;
    assert Score([3, 3], 1) == 200.0;
  }

  /** With the checked restore, a reload anywhere in the quiz, including
      after the results, keeps every later results page within [0, 100]. */
  lemma ReloadKeepsScoreInRange(p: Progress, n: nat, events: seq<Event>)
    requires Inv(p, n)
    requires Run(Restore(Some(Saved(p)), n), n, events).Some?
    requires Run(Restore(Some(Saved(p)), n), n, events).value.finished
    ensures 0.0 <= Score(Run(Restore(Some(Saved(p)), n), n, events).value.answers, n) <= 100.0
  {
    var start := Restore(Some(Saved(p)), n);
    RunPreservesInv(start, n, events);
    FinishedScoreInRange(Run(start, n, events).value, n);
  }

  // ---------------------------------------------------------------------
  // The page component
  // ---------------------------------------------------------------------

  /** The Home component's state. Each handler method models the handler
      followed by the save effect, which the resulting render fires
      whenever userAnswers (always a fresh array) or the index changed;
      `stored` is the "quizState" entry of localStorage. */
  class QuizSession {
    const cards: seq<Flashcard>
    var currentQuestion: int
    var direction: int
    var userAnswers: seq<int>
    var showResults: bool
    ghost var stored: Option<Snapshot>

    function State(): Progress
      reads this
    {
      Progress(currentQuestion, direction, userAnswers, showResults)
    }

    /** The invariant, and the snapshot mirroring the index and ratings. */
    ghost predicate Valid()
      reads this
    {
      Inv(State(), |cards|) && stored == Some(Saved(State()))
    }

    /** Mounting the page: the initial state [0, 0], [], false, then the
      restore effect reading `slot`, then the save effect. */
    constructor Mount(quizData: seq<Flashcard>, slot: Option<Snapshot>)
      requires |quizData| > 0
      ensures Valid()
      ensures cards == quizData
      ensures State() == Restore(slot, |quizData|)
    {
      var index, answers := 0, [];
      if slot.Some? && Acceptable(slot.value, |quizData|) {
        index, answers := slot.value.currentQuestion, slot.value.userAnswers;
      }
      cards := quizData;
      currentQuestion, direction := index, 0;
      userAnswers := answers;
      showResults := false;
      stored := Some(Snapshot(index, answers));
    }

    /** handleNextQuestion(level), fired by a rating on the card. */
    method HandleNextQuestion(level: int)
      requires Valid() && !showResults && IsRating(level)
      modifies this
      ensures Valid()
      ensures State() == Advance(old(State()), |cards|, level)
    {
      AdvancePreservesInv(State(), |cards|, level);
      userAnswers := userAnswers + [level];
      if currentQuestion < |cards| - 1 {
        currentQuestion, direction := currentQuestion + 1, 1;
      } else {
        showResults := true;
      }
      stored := Some(Snapshot(currentQuestion, userAnswers));
    }

    /** The Skip button: handleNextQuestion(0). */
    method Skip()
      requires Valid() && !showResults
      modifies this
      ensures Valid()
      ensures State() == Advance(old(State()), |cards|, 0)
      ensures userAnswers == old(userAnswers) + [0]
    {
      HandleNextQuestion(0);
    }

    /** handlePrevQuestion, fired by the Previous button. */
    method HandlePrevQuestion()
      requires Valid() && !showResults
      modifies this
      ensures Valid()
      ensures State() == Retreat(old(State()))
    {
      RetreatPreservesInv(State(), |cards|);
      if currentQuestion > 0 {
        currentQuestion, direction := currentQuestion - 1, -1;
        userAnswers := DropLast(userAnswers);
        stored := Some(Snapshot(currentQuestion, userAnswers));
      }
    }

    /** resetQuiz, fired by "Take Quiz Again". The entry is removed, and the
      save effect of the next render writes the fresh state back. */
    method ResetQuiz()
      requires Valid()
      modifies this
      ensures Valid()
      ensures State() == Initial
      ensures stored == Some(Snapshot(0, []))
    {
      currentQuestion, direction := 0, 0;
      userAnswers := [];
      showResults := false;
      stored := None;
      // userAnswers is a new array, so the save effect runs after the render
      stored := Some(Snapshot(currentQuestion, userAnswers));
    }

    /** calculateScore, read by the results page. */
    function CalculateScore(): (score: real)
      reads this
      requires Valid() && showResults
      ensures 0.0 <= score <= 100.0
      ensures score * (|cards| * MaxRating) as real == 100.0 * Sum(userAnswers) as real
    {
      FinishedScoreInRange(State(), |cards|);
      Score(userAnswers, |cards|)
    }
  }
}
