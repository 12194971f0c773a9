/** The in-memory mock data layer of the quiz authoring surface
    (src/api/api.ts): a module-level table of questions that updates and
    additions change in place, and one quiz record that nothing changes.
    The record shapes follow src/types/types.ts; the simulated network
    delay is dropped and every call is synchronous. */
module QuestionStore {
  import opened Wrappers

  datatype QuizType = Mcq | Mmcq | OpenEnded | ShortAnswer | TrueFalse
  datatype Difficulty = Easy | Medium | Hard

  datatype Answer = Answer(
    id: string, questionId: string, answer: string, isCorrect: bool,
    createdAt: string, updatedAt: string)

  /** `timeLimit` is `number | null`; None stands for null. Timestamps are
      opaque strings. */
  datatype Question = Question(
    id: string, quizId: string, question: string, explanation: string,
    difficulty: Difficulty, qtype: QuizType, timeLimit: Option<int>, points: int,
    createdAt: string, updatedAt: string, answers: seq<Answer>)

  /** Partial<Question>: a field is present (Some) or left out (None). */
  datatype QuestionPatch = QuestionPatch(
    id: Option<string>, quizId: Option<string>, question: Option<string>,
    explanation: Option<string>, difficulty: Option<Difficulty>, qtype: Option<QuizType>,
    timeLimit: Option<Option<int>>, points: Option<int>,
    createdAt: Option<string>, updatedAt: Option<string>, answers: Option<seq<Answer>>)

  /** Omit<Question, "id" | "created_at" | "updated_at">: what a caller
      of addQuestion supplies. */
  datatype QuestionDraft = QuestionDraft(
    quizId: string, question: string, explanation: string,
    difficulty: Difficulty, qtype: QuizType, timeLimit: Option<int>, points: int,
    answers: seq<Answer>)

  datatype Quiz = Quiz(
    id: string, title: string, description: string, language: string,
    qtype: QuizType, difficulty: Difficulty, topic: string, subtopics: seq<string>,
    hideCorrectAnswers: bool, hasFlashCards: bool, hasPreview: bool,
    hasMultipleAttempts: bool, hideDescription: bool, hideFinalReport: bool,
    quizTimeLimit: Option<int>, questionTimeLimit: Option<int>, createdBy: int,
    createdAt: string, updatedAt: string, isPublic: bool)

  /** Partial<Quiz>. */
  datatype QuizPatch = QuizPatch(
    id: Option<string>, title: Option<string>, description: Option<string>,
    language: Option<string>, qtype: Option<QuizType>, difficulty: Option<Difficulty>,
    topic: Option<string>, subtopics: Option<seq<string>>,
    hideCorrectAnswers: Option<bool>, hasFlashCards: Option<bool>, hasPreview: Option<bool>,
    hasMultipleAttempts: Option<bool>, hideDescription: Option<bool>,
    hideFinalReport: Option<bool>, quizTimeLimit: Option<Option<int>>,
    questionTimeLimit: Option<Option<int>>, createdBy: Option<int>,
    createdAt: Option<string>, updatedAt: Option<string>, isPublic: Option<bool>)

  const NoQuestionChange := QuestionPatch(None, None, None, None, None, None, None, None, None, None, None)

  const NotFound := "Question not found"

  // ---------------------------------------------------------------------
  // Object spread
  // ---------------------------------------------------------------------

  /** `{ ...q, ...patch }`: every field the patch carries wins. */
  function Merge(q: Question, patch: QuestionPatch): (r: Question)
    ensures patch.id.None? ==> r.id == q.id
    ensures patch.id.Some? ==> r.id == patch.id.value
  {
    Question(
      patch.id.GetOr(q.id), patch.quizId.GetOr(q.quizId),
      patch.question.GetOr(q.question), patch.explanation.GetOr(q.explanation),
      patch.difficulty.GetOr(q.difficulty), patch.qtype.GetOr(q.qtype),
      patch.timeLimit.GetOr(q.timeLimit), patch.points.GetOr(q.points),
      patch.createdAt.GetOr(q.createdAt), patch.updatedAt.GetOr(q.updatedAt),
      patch.answers.GetOr(q.answers))
  }

  /** `{ ...p1, ...p2 }` on two partial records. */
  function Combine(p1: QuestionPatch, p2: QuestionPatch): QuestionPatch {
    QuestionPatch(
      if p2.id.Some? then p2.id else p1.id,
      if p2.quizId.Some? then p2.quizId else p1.quizId,
      if p2.question.Some? then p2.question else p1.question,
      if p2.explanation.Some? then p2.explanation else p1.explanation,
      if p2.difficulty.Some? then p2.difficulty else p1.difficulty,
      if p2.qtype.Some? then p2.qtype else p1.qtype,
      if p2.timeLimit.Some? then p2.timeLimit else p1.timeLimit,
      if p2.points.Some? then p2.points else p1.points,
      if p2.createdAt.Some? then p2.createdAt else p1.createdAt,
      if p2.updatedAt.Some? then p2.updatedAt else p1.updatedAt,
      if p2.answers.Some? then p2.answers else p1.answers)
  }

  /** The patch that carries every field of `q`. */
  function FullPatch(q: Question): QuestionPatch {
    QuestionPatch(
      Some(q.id), Some(q.quizId), Some(q.question), Some(q.explanation),
      Some(q.difficulty), Some(q.qtype), Some(q.timeLimit), Some(q.points),
      Some(q.createdAt), Some(q.updatedAt), Some(q.answers))
  }

  /** An empty patch changes nothing. */
  lemma MergeNothing(q: Question)
    ensures Merge(q, NoQuestionChange) == q
  {
  }

  /** Two updates in a row are one update with the patches spread together;
      in particular applying the same patch twice is applying it once. */
  lemma MergeTwice(q: Question, p1: QuestionPatch, p2: QuestionPatch)
    ensures Merge(Merge(q, p1), p2) == Merge(q, Combine(p1, p2))
    ensures Merge(Merge(q, p1), p1) == Merge(q, p1)
  {
  }

  /** A patch carrying every field replaces the record outright. */
  lemma MergeFullPatch(q: Question, q': Question)
    ensures Merge(q, FullPatch(q')) == q'
  {
  }

  /** `{ ...mockQuiz, ...updatedSettings }`. */
  function MergeQuiz(z: Quiz, patch: QuizPatch): (r: Quiz)
    ensures patch.id.None? ==> r.id == z.id
    ensures patch.title.Some? ==> r.title == patch.title.value
  {
    Quiz(
      patch.id.GetOr(z.id), patch.title.GetOr(z.title),
      patch.description.GetOr(z.description), patch.language.GetOr(z.language),
      patch.qtype.GetOr(z.qtype), patch.difficulty.GetOr(z.difficulty),
      patch.topic.GetOr(z.topic), patch.subtopics.GetOr(z.subtopics),
      patch.hideCorrectAnswers.GetOr(z.hideCorrectAnswers),
      patch.hasFlashCards.GetOr(z.hasFlashCards), patch.hasPreview.GetOr(z.hasPreview),
      patch.hasMultipleAttempts.GetOr(z.hasMultipleAttempts),
      patch.hideDescription.GetOr(z.hideDescription),
      patch.hideFinalReport.GetOr(z.hideFinalReport),
      patch.quizTimeLimit.GetOr(z.quizTimeLimit),
      patch.questionTimeLimit.GetOr(z.questionTimeLimit),
      patch.createdBy.GetOr(z.createdBy), patch.createdAt.GetOr(z.createdAt),
      patch.updatedAt.GetOr(z.updatedAt), patch.isPublic.GetOr(z.isPublic))
  }

  // ---------------------------------------------------------------------
  // Identifiers
  // ---------------------------------------------------------------------

  function DigitChar(d: nat): (c: char)
    requires d < 10
    ensures '0' <= c <= '9'
  {
    (48 + d) as char
  }

  predicate IsDigits(s: string) {
    forall i :: 0 <= i < |s| ==> '0' <= s[i] <= '9'
  }

  /** `String(n)` for a natural number: its decimal digits, no leading zero. */
  function DecimalText(n: nat): (s: string)
    ensures |s| > 0 && IsDigits(s)
    ensures |s| > 1 ==> s[0] != '0'
  {
    if n < 10 then [DigitChar(n)] else DecimalText(n / 10) + [DigitChar(n % 10)]
  }

  /** Reads decimal digits back as a number; the inverse of DecimalText. */
  function DecimalValue(s: string): nat
    requires IsDigits(s)
  {
    if s == [] then 0 else DecimalValue(s[..|s| - 1]) * 10 + (s[|s| - 1] as int - 48)
  }

  lemma {:induction false} DecimalRoundTrip(n: nat)
    ensures DecimalValue(DecimalText(n)) == n
  {
    if n >= 10 {
      var prefix := DecimalText(n / 10);
      var s := prefix + [DigitChar(n % 10)];
      assert s[..|s| - 1] == prefix;
      DecimalRoundTrip(n / 10);
    }
  }

  /** Distinct numbers get distinct ids. */
  lemma DecimalTextInjective(a: nat, b: nat)
    requires DecimalText(a) == DecimalText(b)
    ensures a == b
  {
    DecimalRoundTrip(a);
    DecimalRoundTrip(b);
  }

  /** The position-order id scheme: the question at position i has id
      String(i + 1). */
  predicate SequentialIds(qs: seq<Question>) {
    forall i :: 0 <= i < |qs| ==> qs[i].id == DecimalText(i + 1)
  }

  // ---------------------------------------------------------------------
  // Lookup
  // ---------------------------------------------------------------------

  /** `findIndex((q) => q.id === id)`: the first position holding `id`. */
  function FindIndex(qs: seq<Question>, id: string): (r: Option<nat>)
    ensures r.Some? ==> r.value < |qs| && qs[r.value].id == id
    ensures r.Some? ==> forall j :: 0 <= j < r.value ==> qs[j].id != id
    ensures r.None? ==> forall j :: 0 <= j < |qs| ==> qs[j].id != id
  {
    if qs == [] then None
    else if qs[0].id == id then Some(0)
    else match FindIndex(qs[1..], id)
      case None => None
      case Some(k) => Some(k + 1)
  }

  /** Under the id scheme, id String(k) is found at position k - 1. */
  lemma FindSequentialId(qs: seq<Question>, k: nat)
    requires SequentialIds(qs) && 1 <= k <= |qs|
    ensures FindIndex(qs, DecimalText(k)) == Some(k - 1)
  {
    var r := FindIndex(qs, DecimalText(k));
    assert qs[k - 1].id == DecimalText(k);
    if r.Some? && r.value != k - 1 {
      DecimalTextInjective(r.value + 1, k);
    }
  }

  /** Under the id scheme, String(|qs| + 1), the id addQuestion hands out,
      is not in use yet. */
  lemma NextIdIsFresh(qs: seq<Question>)
    requires SequentialIds(qs)
    ensures FindIndex(qs, DecimalText(|qs| + 1)).None?
  {
    var r := FindIndex(qs, DecimalText(|qs| + 1));
    if r.Some? {
      DecimalTextInjective(r.value + 1, |qs| + 1);
    }
  }

  /** The record addQuestion builds: the draft's fields, the new id and
      the two timestamps, one per `new Date()` call. */
  function Stamp(draft: QuestionDraft, id: string, createdAt: string, updatedAt: string): (q: Question)
    ensures Content(q) == draft
    ensures q.id == id && q.createdAt == createdAt && q.updatedAt == updatedAt
  {
    Question(id, draft.quizId, draft.question, draft.explanation, draft.difficulty,
             draft.qtype, draft.timeLimit, draft.points, createdAt, updatedAt, draft.answers)
  }

  /** The fields a caller of addQuestion supplies. */
  function Content(q: Question): QuestionDraft {
    QuestionDraft(q.quizId, q.question, q.explanation, q.difficulty, q.qtype,
                  q.timeLimit, q.points, q.answers)
  }

  /** Appending the next id keeps the id scheme. */
  lemma AppendKeepsSequentialIds(qs: seq<Question>, draft: QuestionDraft, createdAt: string, updatedAt: string)
    requires SequentialIds(qs)
    ensures SequentialIds(qs + [Stamp(draft, DecimalText(|qs| + 1), createdAt, updatedAt)])
  {
    var q := Stamp(draft, DecimalText(|qs| + 1), createdAt, updatedAt);
    var r := qs + [q];
    assert r[|qs|] == q && q.id == DecimalText(|qs| + 1);
    forall i | 0 <= i < |r|
      ensures r[i].id == DecimalText(i + 1)
    {
      if i < |qs| {
        assert r[i] == qs[i];
      } else {
        assert r[i] == q;
      }
    }
  }

  /** Replacing a record by a patch without an id keeps the id scheme. */
  lemma UpdateKeepsSequentialIds(qs: seq<Question>, k: nat, patch: QuestionPatch)
    requires SequentialIds(qs) && k < |qs| && patch.id.None?
    ensures SequentialIds(qs[k := Merge(qs[k], patch)])
  {
  }

  // ---------------------------------------------------------------------
  // Seed data
  // ---------------------------------------------------------------------

  /** The seed prompts and explanations, named so that proofs about the
      table do not unfold their text. */
  const CapitalPrompt: string := "What is the capital of France?"
  const CapitalExplanation: string := "Paris is the capital and most populous city of France."
  const ColorsPrompt: string := "Which of the following are primary colors?"
  const ColorsExplanation: string := "Red, blue, and yellow are considered primary colors in art."
  const EarthPrompt: string := "Is the Earth flat?"
  const EarthExplanation: string := "The Earth is approximately spherical, not flat."
  const PhotosynthesisPrompt: string := "Explain the concept of photosynthesis in your own words."
  const PhotosynthesisExplanation: string := "Photosynthesis is the process by which plants use sunlight, water, and carbon dioxide to produce oxygen and energy in the form of sugar."
  const GoldPrompt: string := "What is the chemical symbol for gold?"
  const GoldExplanation: string := "Au is the chemical symbol for gold, derived from its Latin name \"aurum\"."

  /** Every answer of the question points back at it by `questionId`. */
  predicate AnswersPointBack(q: Question) {
    forall j :: 0 <= j < |q.answers| ==> q.answers[j].questionId == q.id
  }

  /** The five questions the table starts with; every timestamp is `now`.
      They follow the id scheme, all belong to quiz "1", and every answer
      points back at the question that holds it. */
  function SeedQuestions(now: string): (qs: seq<Question>)
    ensures |qs| == 5 && SequentialIds(qs)
    ensures forall q :: q in qs ==> q.quizId == "1" && AnswersPointBack(q)
  {
    var q1 := Question("1", "1", CapitalPrompt, CapitalExplanation,
        Easy, Mcq, Some(30), 10, now, now,
        [ Answer("1", "1", "London", false, now, now),
          Answer("2", "1", "Paris", true, now, now),
          Answer("3", "1", "Berlin", false, now, now),
          Answer("4", "1", "Madrid", false, now, now) ]);
    var q2 := Question("2", "1", ColorsPrompt, ColorsExplanation,
        Medium, Mmcq, Some(45), 15, now, now,
        [ Answer("5", "2", "Red", true, now, now),
          Answer("6", "2", "Green", false, now, now),
          Answer("7", "2", "Blue", true, now, now),
          Answer("8", "2", "Yellow", true, now, now) ]);
    var q3 := Question("3", "1", EarthPrompt, EarthExplanation,
        Easy, TrueFalse, Some(15), 5, now, now,
        [ Answer("9", "3", "True", false, now, now),
          Answer("10", "3", "False", true, now, now) ]);
    var q4 := Question("4", "1", PhotosynthesisPrompt, PhotosynthesisExplanation,
        Medium, OpenEnded, Some(300), 20, now, now,
        [ Answer("12", "4", "answers test", true, now, now) ]);
    var q5 := Question("5", "1", GoldPrompt, GoldExplanation,
        Easy, ShortAnswer, Some(30), 5, now, now,
        [ Answer("11", "5", "Au", true, now, now) ]);
    assert AnswersPointBack(q1) && AnswersPointBack(q2) && AnswersPointBack(q3);
    assert AnswersPointBack(q4) && AnswersPointBack(q5);
    [q1, q2, q3, q4, q5]
  }

  /** The one quiz record; every timestamp is `now`. Every seed question
      belongs to it. */
  function SeedQuiz(now: string): (quiz: Quiz)
    ensures forall q :: q in SeedQuestions(now) ==> q.quizId == quiz.id
  {
    Quiz("1", "General Knowledge Quiz", "Test your knowledge on various topics!", "en",
         Mcq, Medium, "General Knowledge", ["Geography", "Science", "Art"],
         false, true, true, false, false, false, Some(600), Some(30), 1, now, now, true)
  }

  // ---------------------------------------------------------------------
  // The module's state and its exported calls
  // ---------------------------------------------------------------------

  /** The module-level `mockQuestions` array and the `mockQuiz` constant. */
  class MockBackend {
    var questions: seq<Question>
    const quiz: Quiz

    constructor (now: string)
      ensures questions == SeedQuestions(now) && quiz == SeedQuiz(now)
      ensures SequentialIds(questions)
    {
      questions := SeedQuestions(now);
      quiz := SeedQuiz(now);
    }

    /** fetchQuestions: the table as it now stands. */
    method FetchQuestions() returns (qs: seq<Question>)
      ensures qs == questions
    {
      qs := questions;
    }

    /** fetchQuiz: the seed quiz, whatever id is asked for. */
    method FetchQuiz(quizId: string) returns (z: Quiz)
      ensures z == quiz
    {
      z := quiz;
    }

    /** updateQuizSettings: the settings spread over the quiz, returned
      without being stored. */
    method UpdateQuizSettings(quizId: string, settings: QuizPatch) returns (z: Quiz)
      ensures z == MergeQuiz(quiz, settings)
    {
      z := MergeQuiz(quiz, settings);
    }

    /** deleteQuestion: only logs; the table is left as it is. */
    method DeleteQuestion(questionId: string)
      ensures questions == old(questions)
    {
    }

    /** updateQuestion: merge the patch into the first record with the id
      and write it back in place; with no such record, fail. */
    method UpdateQuestion(questionId: string, patch: QuestionPatch) returns (r: Result<Question, string>)
      modifies this
      ensures r.Failure? <==> FindIndex(old(questions), questionId).None?
      ensures r.Failure? ==> r.error == NotFound && questions == old(questions)
      ensures r.Success? ==>
        var k := FindIndex(old(questions), questionId).value;
        && |questions| == |old(questions)|
        && questions[k] == Merge(old(questions)[k], patch) == r.value
        && forall j :: 0 <= j < |questions| && j != k ==> questions[j] == old(questions)[j]
    {
      var index := FindIndex(questions, questionId);
      if index.None? {
        return Failure(NotFound);
      }
      var updated := Merge(questions[index.value], patch);
      questions := questions[index.value := updated];
      r := Success(updated);
    }

    /** addQuestion: stamp the draft with id String(length + 1) and the
      times of its two clock reads, and push it. */
    method AddQuestion(draft: QuestionDraft, createdAt: string, updatedAt: string) returns (q: Question)
      modifies this
      ensures q == Stamp(draft, DecimalText(|old(questions)| + 1), createdAt, updatedAt)
      ensures questions == old(questions) + [q]
    {
      q := Stamp(draft, DecimalText(|questions| + 1), createdAt, updatedAt);
      questions := questions + [q];
    }
  }
}
