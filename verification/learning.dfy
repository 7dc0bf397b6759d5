/** The Learning mode session (LearningModeScreen.tsx): multiple-choice
    exercises, a streak bonus, and a summary built from the recorded results.
    Each handler is a function from the screen state (plus the event's
    input) to the next state. */
module Learning {
  import opened Base
  import opened Types
  import opened Generator
  import opened Outcomes

  datatype Phase = Loading | Intro | Exercising | Feedback | Summary

  /** What `saveProgress` is handed when the session ends. */
  datatype Report = Report(correct: nat, total: nat, score: nat)

  datatype Session = Session(
    phase: Phase,
    words: seq<Word>,
    exercises: seq<Exercise>,
    index: nat,
    selected: Option<string>,
    isCorrect: Option<bool>,
    streak: nat,
    score: nat,
    outcomes: seq<Option<Outcome>>,
    results: Option<Results>,
    error: Option<string>)

  /** A handler's new state and the progress report it emits, if any. */
  datatype Step = Step(session: Session, report: Option<Report>)

  /** Initial state. The results array is created empty, because the exercises are still empty on the first render. */
  const Initial := Session(Loading, [], [], 0, None, None, 0, 0, [], None, None)

  const LoadError := "Veri yüklenirken bir hata oluştu."

  /** The outcome of fetching the list and its words. */
  datatype Fetch = Fetched(words: seq<Word>) | FetchFailed

  /** `fetchListData`: exercises are generated only for a non-empty word list, yet the screen moves to the intro either way. */
  function Load(s: Session, f: Fetch, d: Draws): (r: Session)
    ensures f.FetchFailed? ==> r == s.(error := Some(LoadError))
    ensures f.Fetched? ==> r.phase == Intro && r.words == f.words
    ensures f.Fetched? && |f.words| == 0 ==> r.exercises == s.exercises
    ensures f.Fetched? && |f.words| > 0 ==> |r.exercises| == Min(|Pad(f.words)|, LearningMax)
    ensures f.Fetched? && |f.words| > 0 ==> r.exercises == GenerateLearning(f.words, d)
  {
    match f
    case FetchFailed => s.(error := Some(LoadError))
    case Fetched(ws) =>
      s.(words := ws,
         exercises := if |ws| > 0 then GenerateLearning(ws, d) else s.exercises,
         phase := Intro)
  }

  /** Points for a correct answer given the streak before it: `10 * (1 + min(streak, 5) * 0.1)`. */
  function Points(streak: nat): nat {
    10 + Min(streak, 5)
  }

  /** `startSession`: the results array is left as it is. */
  function Start(s: Session): (r: Session)
    ensures r.phase == Exercising && r.index == 0 && r.score == 0 && r.streak == 0
    ensures r.outcomes == s.outcomes && r.exercises == s.exercises
    ensures r.selected == s.selected && r.isCorrect == s.isCorrect
  {
    s.(phase := Exercising, index := 0, score := 0, streak := 0)
  }

  /** The effect that runs once feedback is shown: it writes the answer at the current index only. */
  function Record(s: Session): (r: Session)
    ensures s.phase == Feedback && s.selected.Some? && s.isCorrect.Some? ==>
      && r == s.(outcomes := r.outcomes)
      && |r.outcomes| == (if s.index < |s.outcomes| then |s.outcomes| else s.index + 1)
      && CorrectAt(r.outcomes, s.index) == s.isCorrect.value
      && r.outcomes[s.index] == Some(Outcome(s.selected.value, s.isCorrect.value))
      && forall j :: 0 <= j < |s.outcomes| && j != s.index ==> r.outcomes[j] == s.outcomes[j]
    ensures !(s.phase == Feedback && s.selected.Some? && s.isCorrect.Some?) ==> r == s
  {
    if s.phase == Feedback && s.selected.Some? && s.isCorrect.Some? then
      s.(outcomes := SetAt(s.outcomes, s.index, Outcome(s.selected.value, s.isCorrect.value)))
    else s
  }

  /** `handleSelectAnswer` followed by the recording effect. A tap while an
      answer is selected is ignored; otherwise the current exercise must exist. */
  function Select(s: Session, answer: string): (r: Session)
    requires s.selected.Some? || s.index < |s.exercises|
    ensures s.selected.Some? ==> r == s
    ensures s.selected.None? ==>
      var correct := answer == s.exercises[s.index].correctAnswer;
      && r.phase == Feedback
      && r.selected == Some(answer)
      && r.isCorrect == Some(correct)
      && (correct ==> r.score == s.score + 10 + Min(s.streak, 5) && r.streak == s.streak + 1)
      && (!correct ==> r.score == s.score && r.streak == 0)
      && r.index == s.index && r.exercises == s.exercises
      && |r.outcomes| == (if s.index < |s.outcomes| then |s.outcomes| else s.index + 1)
      && r.outcomes[s.index] == Some(Outcome(answer, correct))
      && (forall j :: 0 <= j < |s.outcomes| && j != s.index ==> r.outcomes[j] == s.outcomes[j])
  {
    if s.selected.Some? then s
    else
      var correct := answer == s.exercises[s.index].correctAnswer;
      Record(s.(selected := Some(answer), isCorrect := Some(correct),
                streak := if correct then s.streak + 1 else 0,
                score := if correct then s.score + Points(s.streak) else s.score,
                phase := Feedback))
  }

  /** `handleNextExercise`: the next exercise, or the summary after the last one. */
  function Next(s: Session): (r: Step)
    ensures s.index < |s.exercises| - 1 ==>
      && r.report == None
      && r.session == s.(index := s.index + 1, selected := None, isCorrect := None, phase := Exercising)
    ensures s.index >= |s.exercises| - 1 ==>
      var correct := CountCorrect(s.outcomes, |s.exercises|);
      && r.session == s.(results := Some(Results(correct, |s.exercises|)), phase := Summary)
      && r.report == Some(Report(correct, |s.exercises|, s.score))
  {
    if s.index < |s.exercises| - 1 then
      Step(s.(index := s.index + 1, selected := None, isCorrect := None, phase := Exercising), None)
    else
      var correct := CountCorrect(s.outcomes, |s.exercises|);
      Step(s.(results := Some(Results(correct, |s.exercises|)), phase := Summary),
           Some(Report(correct, |s.exercises|, s.score)))
  }

  /** `restartSession`: fresh exercises from the fetched words (the generator
      needs them non-empty) and a fully reset session back at the intro. */
  function Restart(s: Session, d: Draws): (r: Session)
    requires |s.words| > 0
    ensures r.phase == Intro && r.index == 0 && r.score == 0 && r.streak == 0
    ensures r.selected == None && r.isCorrect == None
    ensures |r.exercises| == Min(|Pad(s.words)|, LearningMax)
    ensures r.exercises == GenerateLearning(s.words, d)
    ensures |r.outcomes| == |r.exercises| && forall j :: 0 <= j < |r.outcomes| ==> r.outcomes[j] == None
  {
    var ex := GenerateLearning(s.words, d);
    s.(exercises := ex, outcomes := Repeat(None, |ex|), index := 0, selected := None,
       isCorrect := None, score := 0, streak := 0, phase := Intro)
  }

  // ---------------------------------------------------------------------------
  // Properties across several events

  /** The index always points at an exercise when there is one. */
  predicate Inv(s: Session) {
    |s.exercises| > 0 ==> s.index < |s.exercises|
  }

  lemma InvPreserved(s: Session, answer: string, f: Fetch, d: Draws)
    requires Inv(s)
    ensures Inv(Load(s, f, d)) || (f.Fetched? && |f.words| > 0 && s.index > 0)
    ensures Inv(Start(s))
    ensures s.selected.Some? || s.index < |s.exercises| ==> Inv(Select(s, answer))
    ensures Inv(Next(s).session)
    ensures |s.words| > 0 ==> Inv(Restart(s, d))
  {
  }

  /** Total awarded for `k` consecutive correct answers from a streak of 0: 10, 11, 12, 13, 14, 15, 15, ... */
  function StreakTotal(k: nat): nat {
    if k == 0 then 0 else StreakTotal(k - 1) + 10 + Min(k - 1, 5)
  }

  /** Answer the current exercise, then move on. */
  function AnswerAndAdvance(s: Session, answer: string): Session
    requires s.selected.Some? || s.index < |s.exercises|
  {
    Next(Select(s, answer)).session
  }

  /** Answer exercises from the current one on with `answers`, advancing after each. */
  function Play(s: Session, answers: seq<string>): Session
    decreases |answers|
  {
    if |answers| == 0 || !(s.selected.None? && s.index < |s.exercises|) then s
    else Play(AnswerAndAdvance(s, answers[0]), answers[1..])
  }

  /** Answering `k` exercises in a row correctly from a fresh streak adds the
      streak totals: 10 + 11 + ... with the bonus capped at 5. */
  lemma {:induction false} ConsecutiveCorrect(s: Session, answers: seq<string>)
    requires s.selected.None? && s.phase == Exercising
    requires s.index + |answers| < |s.exercises|
    requires forall k :: 0 <= k < |answers| ==> answers[k] == s.exercises[s.index + k].correctAnswer
    ensures Play(s, answers).score == s.score + StreakTotal(s.streak + |answers|) - StreakTotal(s.streak)
    ensures Play(s, answers).streak == s.streak + |answers|
    ensures Play(s, answers).index == s.index + |answers|
    decreases |answers|
  {
    if |answers| > 0 {
      var t := AnswerAndAdvance(s, answers[0]);
      assert t.score == s.score + Points(s.streak);
      assert t.index == s.index + 1 && t.selected.None? && t.exercises == s.exercises;
      forall k | 0 <= k < |answers[1..]|
        ensures answers[1..][k] == t.exercises[t.index + k].correctAnswer
      {
        assert answers[1..][k] == answers[k + 1];
      }
      ConsecutiveCorrect(t, answers[1..]);
    }
  }

  /** From a fresh session, consecutive correct answers earn 10, 11, 12, 13, 14, 15 and then 15 each. */
  lemma StreakAwards()
    ensures StreakTotal(1) == 10 && StreakTotal(2) == 21 && StreakTotal(6) == 75 && StreakTotal(7) == 90
  {
  }

  /** Finishing the last exercise reports exactly the recorded correct answers. */
  lemma SummaryCountsRecordedCorrect(s: Session)
    requires |s.exercises| > 0 && s.index == |s.exercises| - 1
    ensures Next(s).session.phase == Summary
    ensures Next(s).session.results == Some(Results(|set i | 0 <= i < |s.exercises| && CorrectAt(s.outcomes, i)|, |s.exercises|))
  {
    CountCorrectIsCardinality(s.outcomes, |s.exercises|);
  }

  /** Answering the last exercise correctly (nothing recorded there yet) adds one to the summary's correct count. */
  lemma LastAnswerCounts(s: Session, answer: string)
    requires s.selected.None? && |s.exercises| > 0 && s.index == |s.exercises| - 1
    requires s.index >= |s.outcomes| || s.outcomes[s.index].None?
    requires answer == s.exercises[s.index].correctAnswer
    ensures Next(Select(s, answer)).session.results ==
      Some(Results(CountCorrect(s.outcomes, |s.exercises|) + 1, |s.exercises|))
  {
    assert Select(s, answer).outcomes == SetAt(s.outcomes, s.index, Outcome(answer, true));
    RecordingMovesCount(s.outcomes, s.index, Outcome(answer, true), |s.exercises|);
  }
}
