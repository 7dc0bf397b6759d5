/** The timed Test mode session (TestModeScreen.tsx): exercises of three
    kinds, points by kind, a typed-answer path compared without regard to
    ASCII case or surrounding white space, and a five-minute countdown that
    ends the session the same way the last exercise does. */
module TestMode {
  import opened Base
  import opened Types
  import opened Generator
  import opened Outcomes

  /** The test lasts five minutes, counted in seconds. */
  const TestDuration: nat := 300

  const LoadError := "Veri yüklenirken bir hata oluştu."

  datatype Phase = Loading | Intro | Exercising | Feedback | Summary

  /** What `saveTestResult` is handed when the test ends. */
  datatype Report = Report(correct: nat, total: nat, score: nat, timeSpent: int)

  datatype Session = Session(
    phase: Phase,
    words: seq<Word>,
    exercises: seq<Exercise>,
    index: nat,
    selected: Option<string>,
    written: string,
    isCorrect: Option<bool>,
    timeLeft: nat,
    timerActive: bool,
    score: nat,
    outcomes: seq<Option<Outcome>>,
    results: Option<Results>,
    error: Option<string>)

  datatype Step = Step(session: Session, report: Option<Report>)

  const Initial := Session(Loading, [], [], 0, None, "", None, 0, false, 0, [], None, None)

  datatype Fetch = Fetched(words: seq<Word>) | FetchFailed

  /** `fetchListData`: exercises are generated only for a non-empty word list. */
  function Load(s: Session, f: Fetch, d: Draws): (r: Session)
    ensures f.FetchFailed? ==> r == s.(error := Some(LoadError))
    ensures f.Fetched? ==> r.phase == Intro && r.words == f.words
    ensures f.Fetched? && |f.words| == 0 ==> r.exercises == s.exercises
    ensures f.Fetched? && |f.words| > 0 ==> |r.exercises| == Min(|Pad(f.words)|, TestMax)
    ensures f.Fetched? && |f.words| > 0 ==> r.exercises == GenerateTest(f.words, d)
  {
    match f
    case FetchFailed => s.(error := Some(LoadError))
    case Fetched(ws) =>
      s.(words := ws,
         exercises := if |ws| > 0 then GenerateTest(ws, d) else s.exercises,
         phase := Intro)
  }

  /** `startSession`: the clock is wound to the full duration and started, and
      one empty result slot is made per exercise. The selection and the typed
      answer are left as they are. */
  function Start(s: Session): (r: Session)
    ensures r.phase == Exercising && r.index == 0 && r.score == 0
    ensures r.timeLeft == TestDuration && r.timerActive
    ensures |r.outcomes| == |s.exercises| && forall j :: 0 <= j < |r.outcomes| ==> r.outcomes[j] == None
    ensures r.exercises == s.exercises && r.selected == s.selected && r.written == s.written
  {
    s.(phase := Exercising, index := 0, score := 0, timeLeft := TestDuration, timerActive := true,
       outcomes := Repeat(None, |s.exercises|))
  }

  /** The effect that records the answer once feedback is shown. */
  function Record(s: Session): (r: Session)
    ensures s.phase == Feedback && s.selected.Some? && s.isCorrect.Some? ==>
      && r == s.(outcomes := r.outcomes)
      && |r.outcomes| == (if s.index < |s.outcomes| then |s.outcomes| else s.index + 1)
      && r.outcomes[s.index] == Some(Outcome(s.selected.value, s.isCorrect.value))
      && forall j :: 0 <= j < |s.outcomes| && j != s.index ==> r.outcomes[j] == s.outcomes[j]
    ensures !(s.phase == Feedback && s.selected.Some? && s.isCorrect.Some?) ==> r == s
  {
    if s.phase == Feedback && s.selected.Some? && s.isCorrect.Some? then
      s.(outcomes := SetAt(s.outcomes, s.index, Outcome(s.selected.value, s.isCorrect.value)))
    else s
  }

  /** Both answer paths: the answer becomes the selection, its verdict is
      shown, the points are added when it is correct, and the effect records
      it at the current index. */
  function Judge(s: Session, answer: string, correct: bool, points: nat): (r: Session)
    ensures r.phase == Feedback && r.selected == Some(answer) && r.isCorrect == Some(correct)
    ensures r.score == s.score + (if correct then points else 0)
    ensures r.index == s.index && r.timeLeft == s.timeLeft && r.timerActive == s.timerActive
    ensures r.exercises == s.exercises && r.written == s.written
    ensures |r.outcomes| == (if s.index < |s.outcomes| then |s.outcomes| else s.index + 1)
    ensures r.outcomes[s.index] == Some(Outcome(answer, correct))
    ensures forall j :: 0 <= j < |s.outcomes| && j != s.index ==> r.outcomes[j] == s.outcomes[j]
  {
    var judged := s.(selected := Some(answer), isCorrect := Some(correct),
                     score := if correct then s.score + points else s.score,
                     phase := Feedback);
    var r := Record(judged);
    assert r == judged.(outcomes := r.outcomes);
    r
  }

  /** Points a correct tapped answer earns, by exercise kind. */
  function SelectPoints(k: ExerciseType): (r: nat)
    ensures 10 <= r <= 15
    ensures r == 15 <==> k == Write
    ensures r == 12 <==> k == FillBlank
  {
    match k
    case Write => 15
    case FillBlank => 12
    case _ => 10
  }

  /** A correct typed answer always earns 15, whatever the kind. */
  const WrittenPoints: nat := 15

  /** `handleSelectAnswer`: the tapped option must equal the answer exactly. */
  function Select(s: Session, answer: string): (r: Session)
    requires s.selected.Some? || s.index < |s.exercises|
    ensures s.selected.Some? ==> r == s
    ensures s.selected.None? ==>
      var ex := s.exercises[s.index];
      && r.phase == Feedback
      && r.selected == Some(answer)
      && r.isCorrect == Some(answer == ex.correctAnswer)
      && r.score == s.score + (if answer == ex.correctAnswer then SelectPoints(ex.kind) else 0)
      && r.index == s.index && r.timeLeft == s.timeLeft && r.timerActive == s.timerActive
      && r.exercises == s.exercises && r.written == s.written
      && |r.outcomes| == (if s.index < |s.outcomes| then |s.outcomes| else s.index + 1)
      && r.outcomes[s.index] == Some(Outcome(answer, answer == ex.correctAnswer))
      && (forall j :: 0 <= j < |s.outcomes| && j != s.index ==> r.outcomes[j] == s.outcomes[j])
  {
    if s.selected.Some? then s
    else
      var ex := s.exercises[s.index];
      Judge(s, answer, answer == ex.correctAnswer, SelectPoints(ex.kind))
  }

  /** The comparison the typed path makes. */
  predicate WrittenMatches(written: string, correct: string) {
    Lower(Trim(written)) == Lower(correct)
  }

  /** `handleSubmitWrittenAnswer`: a blank entry is ignored; otherwise the
      untrimmed entry becomes the selection and is judged by `WrittenMatches`.
      Unlike the tap path, an earlier selection does not block it. */
  function SubmitWritten(s: Session): (r: Session)
    requires Blank(s.written) || s.index < |s.exercises|
    ensures Blank(s.written) ==> r == s
    ensures !Blank(s.written) ==>
      var correct := WrittenMatches(s.written, s.exercises[s.index].correctAnswer);
      && r.phase == Feedback
      && r.selected == Some(s.written)
      && r.isCorrect == Some(correct)
      && r.score == s.score + (if correct then WrittenPoints else 0)
      && r.index == s.index && r.timeLeft == s.timeLeft && r.timerActive == s.timerActive
      && r.exercises == s.exercises && r.written == s.written
      && |r.outcomes| == (if s.index < |s.outcomes| then |s.outcomes| else s.index + 1)
      && r.outcomes[s.index] == Some(Outcome(s.written, correct))
      && (forall j :: 0 <= j < |s.outcomes| && j != s.index ==> r.outcomes[j] == s.outcomes[j])
  {
    if Blank(s.written) then s
    else
      Judge(s, s.written, WrittenMatches(s.written, s.exercises[s.index].correctAnswer), WrittenPoints)
  }

  /** Ends the test (`handleTimeUp`, and the last `handleNextExercise`):
      stops the clock, counts the recorded correct answers, shows the summary
      and reports the time spent as the duration minus the time left. */
  function Finish(s: Session): (r: Step)
    ensures r.session.phase == Summary && !r.session.timerActive
    ensures r.session.results == Some(Results(|set i | 0 <= i < |s.exercises| && CorrectAt(s.outcomes, i)|, |s.exercises|))
    ensures r.report.Some? && r.report.value.timeSpent == TestDuration - s.timeLeft
    ensures r.report.value.score == s.score && r.report.value.total == |s.exercises|
    ensures Some(Results(r.report.value.correct, r.report.value.total)) == r.session.results
    ensures r.session == s.(timerActive := false, phase := Summary, results := r.session.results)
  {
    var correct := CountCorrect(s.outcomes, |s.exercises|);
    CountCorrectIsCardinality(s.outcomes, |s.exercises|);
    Step(s.(timerActive := false, results := Some(Results(correct, |s.exercises|)), phase := Summary),
         Some(Report(correct, |s.exercises|, s.score, TestDuration - s.timeLeft)))
  }

  /** `handleNextExercise`. */
  function Next(s: Session): (r: Step)
    ensures s.index < |s.exercises| - 1 ==>
      && r.report == None
      && r.session == s.(index := s.index + 1, selected := None, written := "", isCorrect := None, phase := Exercising)
    ensures s.index >= |s.exercises| - 1 ==> r == Finish(s)
  {
    if s.index < |s.exercises| - 1 then
      Step(s.(index := s.index + 1, selected := None, written := "", isCorrect := None, phase := Exercising), None)
    else Finish(s)
  }

  /** One second of the timer effect. While running with time left it counts
      down; the tick that would reach zero ends the test with the report taken
      from the state that tick saw, and then shows 0. A running clock already
      at zero ends the test at once. A stopped clock does nothing. */
  function Tick(s: Session): (r: Step)
    ensures !s.timerActive ==> r == Step(s, None)
    ensures s.timerActive && s.timeLeft > 1 ==> r == Step(s.(timeLeft := s.timeLeft - 1), None)
    ensures s.timerActive && s.timeLeft <= 1 ==>
      && r.session == Finish(s).session.(timeLeft := 0)
      && r.report == Finish(s).report
  {
    if s.timerActive && s.timeLeft > 0 then
      if s.timeLeft <= 1 then
        var f := Finish(s);
        Step(f.session.(timeLeft := 0), f.report)
      else Step(s.(timeLeft := s.timeLeft - 1), None)
    else if s.timeLeft == 0 && s.timerActive then Finish(s)
    else Step(s, None)
  }

  /** `confirmQuit`: the clock stops and nothing is reported. */
  function Quit(s: Session): (r: Step)
    ensures r.report == None && !r.session.timerActive
    ensures r.session == s.(timerActive := false)
  {
    Step(s.(timerActive := false), None)
  }

  /** `restartSession`: new exercises, empty results and a reset session at
      the intro. The clock keeps its value until the next start. */
  function Restart(s: Session, d: Draws): (r: Session)
    requires |s.words| > 0
    ensures r.phase == Intro && r.index == 0 && r.score == 0
    ensures r.selected == None && r.isCorrect == None && r.written == ""
    ensures |r.exercises| == Min(|Pad(s.words)|, TestMax)
    ensures r.exercises == GenerateTest(s.words, d)
    ensures |r.outcomes| == |r.exercises| && forall j :: 0 <= j < |r.outcomes| ==> r.outcomes[j] == None
    ensures r.timeLeft == s.timeLeft && r.timerActive == s.timerActive
  {
    var ex := GenerateTest(s.words, d);
    s.(exercises := ex, outcomes := Repeat(None, |ex|), index := 0, selected := None,
       written := "", isCorrect := None, score := 0, phase := Intro)
  }

  // ---------------------------------------------------------------------------
  // The clock

  function Ticks(s: Session, k: nat): Session
    decreases k
  {
    if k == 0 then s else Ticks(Tick(s).session, k - 1)
  }

  /** With the clock running, `k` seconds short of zero only count it down. */
  lemma {:induction false} Countdown(s: Session, k: nat)
    requires s.timerActive && k < s.timeLeft
    ensures Ticks(s, k) == s.(timeLeft := s.timeLeft - k)
    decreases k
  {
    if k > 0 {
      var t := Tick(s).session;
      assert t == s.(timeLeft := s.timeLeft - 1);
      Countdown(t, k - 1);
      assert t.(timeLeft := t.timeLeft - (k - 1)) == s.(timeLeft := s.timeLeft - k);
    }
  }

  /** Left alone after the start, the test reaches the summary with the clock
      stopped at zero after exactly the full duration. */
  lemma TimeRunsOut(s: Session)
    ensures Ticks(Start(s), TestDuration).phase == Summary
    ensures !Ticks(Start(s), TestDuration).timerActive
    ensures Ticks(Start(s), TestDuration).timeLeft == 0
    ensures Ticks(Start(s), TestDuration - 1).phase == Exercising
  {
    var s0 := Start(s);
    Countdown(s0, TestDuration - 1);
    var s1 := Ticks(s0, TestDuration - 1);
    assert s1.timeLeft == 1 && s1.timerActive;
    TicksSplit(s0, TestDuration - 1, 1);
  }

  lemma {:induction false} TicksSplit(s: Session, a: nat, b: nat)
    ensures Ticks(s, a + b) == Ticks(Ticks(s, a), b)
    decreases a
  {
    if a > 0 {
      TicksSplit(Tick(s).session, a - 1, b);
    }
  }

  /** When the clock runs out, the report gives one second less than the full
      duration: the last tick reads the time left before it is zeroed. */
  lemma TimeUpReport(s: Session)
    requires s.timerActive && s.timeLeft == 1
    ensures Tick(s).report.Some? && Tick(s).report.value.timeSpent == TestDuration - 1
    ensures Tick(s).session.timeLeft == 0 && Tick(s).session.phase == Summary
  {
  }

  /** Time running out on the last exercise and moving past it give the same summary and report. */
  lemma FinishPathsAgree(s: Session)
    requires |s.exercises| > 0 && s.index == |s.exercises| - 1
    requires s.timerActive && s.timeLeft == 0
    ensures Tick(s) == Next(s)
  {
  }

  /** The typed path forgives ASCII case and surrounding white space. */
  lemma WrittenForgivesCaseAndSpace(p: string, typed: string, q: string, correct: string)
    requires AllSpace(p) && AllSpace(q)
    requires |typed| > 0 && !IsSpace(typed[0]) && !IsSpace(typed[|typed| - 1])
    requires Lower(typed) == Lower(correct)
    ensures WrittenMatches(p + typed + q, correct)
  {
    TrimPadded(p, typed, q);
  }

  /** A typed answer matches exactly when its trimmed form equals the correct answer up to ASCII case. */
  lemma WrittenMatchesIff(written: string, correct: string)
    ensures WrittenMatches(written, correct) <==>
      (|Trim(written)| == |correct| && forall i :: 0 <= i < |correct| ==> LowerChar(Trim(written)[i]) == LowerChar(correct[i]))
  {
    var t := Trim(written);
    if |t| == |correct| && forall i :: 0 <= i < |correct| ==> LowerChar(t[i]) == LowerChar(correct[i]) {
      assert Lower(t) == Lower(correct);
    }
  }

  /** A fill-in-the-blank exercise shown with a text field earns 15 on the
      typed path, not the 12 the tap path would give it. */
  lemma FillBlankTypedEarnsFifteen(s: Session)
    requires !Blank(s.written) && s.index < |s.exercises|
    requires s.exercises[s.index].kind == FillBlank
    requires WrittenMatches(s.written, s.exercises[s.index].correctAnswer)
    ensures SubmitWritten(s).score == s.score + 15
    ensures SelectPoints(FillBlank) == 12
  {
  }

  // ---------------------------------------------------------------------------
  // The clock display

  /** `formatTime`: minutes, a colon, and the seconds always in two digits. */
  function FormatTime(seconds: nat): (r: string)
    ensures |r| >= 4 && r[|r| - 3] == ':'
    ensures forall i :: 0 <= i < |r| && i != |r| - 3 ==> IsDigit(r[i])
  {
    var mins := seconds / 60;
    var secs := seconds % 60;
    SecondsText(secs);
    NatToString(mins) + ":" + (if secs < 10 then "0" else "") + NatToString(secs)
  }

  predicate Digits(s: string) {
    forall i :: 0 <= i < |s| ==> IsDigit(s[i])
  }

  /** Reads `m:ss` back as seconds. */
  function ParseTime(s: string): (r: Option<nat>)
  {
    var i := IndexOfChar(s, ':');
    if i < 0 || !Digits(s[..i]) || !Digits(s[i + 1..]) then None
    else Some(ParseNat(s[..i]) * 60 + ParseNat(s[i + 1..]))
  }

  lemma SecondsText(secs: nat)
    requires secs < 60
    ensures var t := (if secs < 10 then "0" else "") + NatToString(secs);
      |t| == 2 && Digits(t) && ParseNat(t) == secs
  {
    var t := (if secs < 10 then "0" else "") + NatToString(secs);
    if secs < 10 {
      assert t == ['0', DigitChar(secs)];
    } else {
      assert NatToString(secs) == NatToString(secs / 10) + [DigitChar(secs % 10)];
      assert t == [DigitChar(secs / 10), DigitChar(secs % 10)];
    }
    assert t[..1][..0] == [];
    assert ParseNat(t[..1]) == DigitValue(t[0]);
    assert ParseNat(t) == DigitValue(t[0]) * 10 + DigitValue(t[1]);
  }

  /** The display is exact: reading it back gives the number of seconds. */
  lemma FormatTimeRoundTrip(seconds: nat)
    ensures ParseTime(FormatTime(seconds)) == Some(seconds)
  {
    var mins, secs := seconds / 60, seconds % 60;
    var m := NatToString(mins);
    var t := (if secs < 10 then "0" else "") + NatToString(secs);
    var r := FormatTime(seconds);
    FormatShape(seconds);
    SecondsText(secs);
    ParseNatToString(mins);
    assert r[..|m|] == m && r[|m| + 1..] == t;
    ParseAt(r, |m|);
    assert ParseNat(r[..|m|]) == mins && ParseNat(r[|m| + 1..]) == secs;
    assert seconds == mins * 60 + secs;
  }

  /** The display is the minutes, a colon, and the two-digit seconds. */
  lemma FormatShape(seconds: nat)
    ensures var m := NatToString(seconds / 60);
      var secs := seconds % 60;
      var r := FormatTime(seconds);
      && |m| < |r| && r[|m|] == ':' && r[..|m|] == m
      && r[|m| + 1..] == (if secs < 10 then "0" else "") + NatToString(secs)
  {
    var m := NatToString(seconds / 60);
    var secs := seconds % 60;
    var t := (if secs < 10 then "0" else "") + NatToString(secs);
    assert FormatTime(seconds) == m + ":" + t;
  }

  /** Digits, a colon at position `i` and digits read back as minutes and seconds. */
  lemma ParseAt(r: string, i: nat)
    requires i < |r| && r[i] == ':' && Digits(r[..i]) && Digits(r[i + 1..])
    ensures ParseTime(r) == Some(ParseNat(r[..i]) * 60 + ParseNat(r[i + 1..]))
  {
    assert forall k :: 0 <= k < i ==> IsDigit(r[..i][k]);
    IndexOfCharAt(r, ':', i);
  }

  lemma FormatTimeExamples()
    ensures FormatTime(300) == "5:00" && FormatTime(65) == "1:05" && FormatTime(0) == "0:00"
  {
  }
}
