/** The voice command system and the pronunciation evaluator
    (src/utils/speechService.ts). Command callbacks are named by numbers, the
    microphone and recorder outcomes and the random draws are inputs, and the
    spoken feedback is returned instead of spoken. */
module Speech {
  import opened Base

  /** A registered command: its lower-cased text and the callback it runs. */
  datatype Command = Command(text: string, action: nat)

  datatype VoiceSystem = VoiceSystem(commands: seq<Command>, listening: bool, recording: bool)

  const Fresh := VoiceSystem([], false, false)

  /** `registerCommand`: appended last, lower-cased. */
  function Register(v: VoiceSystem, command: string, action: nat): (r: VoiceSystem)
    ensures r.commands == v.commands + [Command(Lower(command), action)]
    ensures r.listening == v.listening && r.recording == v.recording
  {
    v.(commands := v.commands + [Command(Lower(command), action)])
  }

  /** Registering keeps the order of registration. */
  lemma RegisterKeepsOrder(v: VoiceSystem, a: string, x: nat, b: string, y: nat)
    ensures Register(Register(v, a, x), b, y).commands == v.commands + [Command(Lower(a), x), Command(Lower(b), y)]
  {
  }

  // ---------------------------------------------------------------------------
  // Dispatch

  const NotUnderstood := "Komut anlaşılamadı"

  /** What processing a recognised text does: run one callback, or speak that it was not understood. */
  datatype Dispatch = Ran(action: nat, feedback: string) | Unknown(feedback: string)

  /** Position of the first command whose text occurs in `heard`, or -1. */
  function FirstCommand(commands: seq<Command>, heard: string): (k: int)
    ensures -1 <= k < |commands|
    ensures k >= 0 ==> Contains(heard, commands[k].text)
    ensures forall j :: 0 <= j < |commands| && (k == -1 || j < k) ==> !Contains(heard, commands[j].text)
  {
    if |commands| == 0 then -1
    else if Contains(heard, commands[0].text) then 0
    else
      var k := FirstCommand(commands[1..], heard);
      if k == -1 then -1 else k + 1
  }

  /** `processCommand`: exactly the first registered command contained in the lower-cased text runs. */
  function Process(commands: seq<Command>, text: string): (r: Dispatch)
    ensures r.Unknown? <==> forall j :: 0 <= j < |commands| ==> !Contains(Lower(text), commands[j].text)
    ensures r.Unknown? ==> r.feedback == NotUnderstood
    ensures r.Ran? ==> exists k :: (0 <= k < |commands| && commands[k].action == r.action
      && Contains(Lower(text), commands[k].text)
      && r.feedback == "\"" + commands[k].text + "\" komutu çalıştırılıyor"
      && forall j :: 0 <= j < k ==> !Contains(Lower(text), commands[j].text))
  {
    var k := FirstCommand(commands, Lower(text));
    if k == -1 then Unknown(NotUnderstood)
    else Ran(commands[k].action, "\"" + commands[k].text + "\" komutu çalıştırılıyor")
  }

  /** A command that is registered first wins over every later one. */
  lemma FirstRegisteredWins(v: VoiceSystem, a: string, x: nat, b: string, y: nat, text: string)
    requires v.commands == []
    requires Contains(Lower(text), Lower(a))
    ensures Process(Register(Register(v, a, x), b, y).commands, text).Ran?
    ensures Process(Register(Register(v, a, x), b, y).commands, text).action == x
  {
    var cs := Register(Register(v, a, x), b, y).commands;
    assert cs[0] == Command(Lower(a), x);
  }

  // ---------------------------------------------------------------------------
  // Listening

  /** How far starting got: it either recorded, or failed before or after the recorder was created. */
  datatype StartOutcome = Started | FailedBeforeRecorder | FailedWithRecorder

  /** `startListening`: a no-op while listening; a failure clears the flag and is rethrown (`threw`). */
  datatype StartResult = StartResult(sys: VoiceSystem, threw: bool)

  function StartListening(v: VoiceSystem, outcome: StartOutcome): (r: StartResult)
    ensures v.listening ==> r == StartResult(v, false)
    ensures !v.listening ==> (r.threw <==> outcome != Started)
    ensures !v.listening ==> (r.sys.listening <==> outcome == Started)
    ensures r.sys.commands == v.commands
  {
    if v.listening then StartResult(v, false)
    else
      match outcome
      case Started => StartResult(v.(listening := true, recording := true), false)
      case FailedBeforeRecorder => StartResult(v.(listening := false), true)
      case FailedWithRecorder => StartResult(v.(listening := false, recording := true), true)
  }

  /** The recorder's answer when stopping: it failed, or gave a file (maybe none) and the recognised text. */
  datatype StopOutcome = StopFailed | Stopped(uri: Option<string>, heard: string)

  datatype StopResult = StopResult(sys: VoiceSystem, text: Option<string>, dispatch: Option<Dispatch>)

  /** `stopListening`: nothing without listening and a recorder; otherwise the
      flag goes down and, with a file and a non-empty text, the text is dispatched. */
  function StopListening(v: VoiceSystem, outcome: StopOutcome): (r: StopResult)
    ensures !v.listening || !v.recording ==> r == StopResult(v, None, None)
    ensures v.listening && v.recording ==> !r.sys.listening
    ensures r.text.None? ==> r.dispatch.None?
    ensures r.dispatch.Some? ==> r.text.Some? && r.dispatch.value == Process(v.commands, r.text.value)
    ensures r.sys.commands == v.commands
  {
    if !v.listening || !v.recording then StopResult(v, None, None)
    else
      match outcome
      case StopFailed => StopResult(v.(listening := false), None, None)
      case Stopped(uri, heard) =>
        var done := v.(listening := false, recording := false);
        if !Truthy(uri) then StopResult(done, None, None)
        else StopResult(done, Some(heard), if heard != "" then Some(Process(v.commands, heard)) else None)
  }

  /** Listening always comes with a recorder. */
  predicate Ready(v: VoiceSystem) {
    v.listening ==> v.recording
  }

  /** Starting and stopping keep that, so a stop always leaves the flag down. */
  lemma ListeningFlag(v: VoiceSystem, start: StartOutcome, stop: StopOutcome)
    requires Ready(v)
    ensures Ready(StartListening(v, start).sys) && Ready(StopListening(v, stop).sys)
    ensures !StopListening(v, stop).sys.listening
  {
  }

  // ---------------------------------------------------------------------------
  // Pronunciation feedback

  const Excellent := "Mükemmel telaffuz!"
  const VeryGood := "Çok iyi telaffuz."
  const Good := "İyi telaffuz, biraz daha pratik yapabilirsiniz."
  const PractiseMore := "Telaffuzunuzu geliştirmek için daha fazla pratik yapın."

  function Feedback(score: int): (r: string)
    ensures r == Excellent <==> score >= 90
    ensures r == VeryGood <==> 80 <= score < 90
    ensures r == Good <==> 70 <= score < 80
    ensures r == PractiseMore <==> score < 70
  {
    if score >= 90 then Excellent
    else if score >= 80 then VeryGood
    else if score >= 70 then Good
    else PractiseMore
  }

  datatype PronunciationResult = PronunciationResult(score: int, feedback: string)

  /** `simulateEvaluation` with `Math.floor(Math.random() * 41)` as `draw`, which is below 41. */
  function Evaluate(draw: nat): (r: PronunciationResult)
    requires draw < 41
    ensures 60 <= r.score <= 100
    ensures r.score == draw + 60
    ensures r.feedback == Feedback(r.score)
  {
    var score := draw + 60;
    PronunciationResult(score, Feedback(score))
  }

  /** Every message is reachable from some draw. */
  lemma EveryMessageReachable()
    ensures Evaluate(30).feedback == Excellent && Evaluate(20).feedback == VeryGood
    ensures Evaluate(10).feedback == Good && Evaluate(0).feedback == PractiseMore
  {
  }
}
