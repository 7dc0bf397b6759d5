/** Pronunciation practice on the voice commands screen
    (src/screens/voice/VoiceCommandsScreen.tsx): loading a list's words and
    moving cyclically through them. API answers are inputs. */
module Voice {
  import opened Base
  import opened Types

  /** JavaScript's `%`, which truncates toward zero (so `-1 % 1` is `-0`, an index of 0). */
  function JsRem(a: int, n: int): (r: int)
    requires n > 0
    ensures a >= 0 ==> r == a % n
    ensures -n < r < n
  {
    if a >= 0 then a % n else -((-a) % n)
  }

  /** `words.findIndex(w => w.id === current.id)`. */
  function FindIndex(words: seq<Word>, id: string): (k: int)
    ensures -1 <= k < |words|
    ensures k >= 0 ==> words[k].id == id
    ensures forall j :: 0 <= j < |words| && (k == -1 || j < k) ==> words[j].id != id
  {
    if |words| == 0 then -1
    else if words[0].id == id then 0
    else
      var k := FindIndex(words[1..], id);
      if k == -1 then -1 else k + 1
  }

  datatype Screen = Screen(
    words: seq<Word>,
    current: Option<Word>,
    score: Option<int>,
    feedback: Option<string>,
    showListDialog: bool,
    alert: Option<string>)

  const LoadFailed := "Kelimeler yüklenirken bir hata oluştu."

  /** One position on, wrapping to the front. */
  function NextPos(i: nat, n: nat): (j: nat)
    requires i < n
    ensures j < n
  {
    if i + 1 < n then i + 1 else 0
  }

  /** One position back, wrapping to the end. */
  function PrevPos(i: nat, n: nat): (j: nat)
    requires i < n
    ensures j < n
  {
    if i > 0 then i - 1 else n - 1
  }

  /** The wrapped positions are the source's `(i + 1) % n` and `(i - 1 + n) % n`. */
  lemma NextPosIsRem(i: nat, n: nat)
    requires i < n
    ensures NextPos(i, n) == JsRem(i + 1, n)
  {
    if i + 1 == n {
      assert (i + 1) % n == 0;
    }
  }

  lemma PrevPosIsRem(i: nat, n: nat)
    requires i < n
    ensures PrevPos(i, n) == JsRem(i - 1 + n, n)
  {
    if i > 0 {
      assert (i - 1 + n) % n == i - 1;
    } else {
      assert (n - 1) % n == n - 1;
    }
  }

  lemma RemPositions(i: int, n: nat)
    requires -1 <= i < n
    ensures i >= 0 ==> NextPos(i, n) == JsRem(i + 1, n) && PrevPos(i, n) == JsRem(i - 1 + n, n)
    ensures i == -1 && n > 0 ==> JsRem(i + 1, n) == 0 && JsRem(i - 1 + n, n) == (if n >= 2 then n - 2 else 0)
  {
    if i >= 0 {
      NextPosIsRem(i, n);
      PrevPosIsRem(i, n);
    } else if n >= 2 {
      assert (n - 2) % n == n - 2;
    } else if n == 1 {
      assert JsRem(-1, 1) == 0;
    }
  }

  /** The position a move goes to: one on for next, one back for previous, wrapping
      round; a current word that is not found counts as position -1. */
  function Target(s: Screen, forward: bool): (k: int)
    requires |s.words| > 0 && s.current.Some?
    ensures 0 <= k < |s.words|
    ensures var i := FindIndex(s.words, s.current.value.id);
      i >= 0 ==> k == (if forward then NextPos(i, |s.words|) else PrevPos(i, |s.words|))
    ensures FindIndex(s.words, s.current.value.id) == -1 && forward ==> k == 0
    ensures FindIndex(s.words, s.current.value.id) == -1 && !forward ==>
      k == (if |s.words| >= 2 then |s.words| - 2 else 0)
  {
    var n := |s.words|;
    var i := FindIndex(s.words, s.current.value.id);
    RemPositions(i, n);
    var k := if forward then JsRem(i + 1, n) else JsRem(i - 1 + n, n);
    if k < 0 then 0 else k
  }

  /** `goToNextWord` (forward) and `goToPreviousWord`: no-ops without a current
      word or words; otherwise the neighbouring word becomes current and the
      score and feedback are cleared. */
  function Move(s: Screen, forward: bool): (r: Screen)
    ensures s.current.None? || |s.words| == 0 ==> r == s
    ensures s.current.Some? && |s.words| > 0 ==>
      && r.current == Some(s.words[Target(s, forward)])
      && r.score.None? && r.feedback.None?
      && r.words == s.words
  {
    if s.current.None? || |s.words| == 0 then s
    else s.(current := Some(s.words[Target(s, forward)]), score := None, feedback := None)
  }

  function Next(s: Screen): (r: Screen)
    ensures r.words == s.words
    ensures s.current.Some? && |s.words| > 0 ==> r.current.Some? && r.current.value in s.words
  {
    Move(s, true)
  }

  function Prev(s: Screen): (r: Screen)
    ensures r.words == s.words
    ensures s.current.Some? && |s.words| > 0 ==> r.current.Some? && r.current.value in s.words
  {
    Move(s, false)
  }

  predicate UniqueIds(words: seq<Word>) {
    forall i, j :: 0 <= i < j < |words| ==> words[i].id != words[j].id
  }

  /** The current word is the word at position `i`. */
  predicate At(s: Screen, i: nat) {
    i < |s.words| && s.current == Some(s.words[i])
  }

  lemma FindAt(words: seq<Word>, i: nat)
    requires UniqueIds(words) && i < |words|
    ensures FindIndex(words, words[i].id) == i
  {
  }

  /** With distinct ids, next moves from position i one on and previous one back, wrapping round. */
  lemma NextPrevPositions(s: Screen, i: nat)
    requires UniqueIds(s.words) && At(s, i)
    ensures At(Next(s), NextPos(i, |s.words|))
    ensures At(Prev(s), PrevPos(i, |s.words|))
  {
    FindAt(s.words, i);
  }

  lemma PositionsUndo(i: nat, n: nat)
    requires i < n
    ensures PrevPos(NextPos(i, n), n) == i && NextPos(PrevPos(i, n), n) == i
  {
  }

  /** Previous undoes next, and next undoes previous. */
  lemma NextThenPrev(s: Screen, i: nat)
    requires UniqueIds(s.words) && At(s, i)
    ensures Prev(Next(s)).current == s.current
    ensures Next(Prev(s)).current == s.current
  {
    var n := |s.words|;
    NextPrevPositions(s, i);
    NextPrevPositions(Next(s), NextPos(i, n));
    NextPrevPositions(Prev(s), PrevPos(i, n));
    PositionsUndo(i, n);
  }

  function Nexts(s: Screen, k: nat): (r: Screen)
    ensures r.words == s.words
    decreases k
  {
    if k == 0 then s else Nexts(Next(s), k - 1)
  }

  /** A position at most one round past the end, brought back into range. */
  function Wrap(j: nat, n: nat): nat {
    if j < n then j else j - n
  }

  /** After k <= n moves forward from position i the current word is at j = i + k, wrapped once. */
  lemma NextsPosition(s: Screen, i: nat, k: nat, j: nat)
    requires UniqueIds(s.words) && At(s, i) && k <= |s.words|
    requires j == Wrap(i + k, |s.words|)
    ensures At(Nexts(s, k), j)
    decreases k, 1
  {
    if k == 0 {
      NextsZero(s, i, j);
    } else {
      NextsStep(s, i, k, j);
    }
  }

  /** One move, then the remaining k - 1 from the next word. */
  lemma NextsStep(s: Screen, i: nat, k: nat, j: nat)
    requires UniqueIds(s.words) && At(s, i) && 0 < k <= |s.words|
    requires j == Wrap(i + k, |s.words|)
    ensures At(Nexts(s, k), j)
    decreases k, 0
  {
    var p := NextPos(i, |s.words|);
    AfterOneMove(s, i, k, j);
    NextsPosition(Next(s), p, k - 1, j);
    FromNext(s, k, j);
  }

  /** The next screen meets the conditions for the remaining k - 1 moves. */
  lemma AfterOneMove(s: Screen, i: nat, k: nat, j: nat)
    requires UniqueIds(s.words) && At(s, i) && 0 < k <= |s.words|
    requires j == Wrap(i + k, |s.words|)
    ensures var t := Next(s); var p := NextPos(i, |s.words|);
      UniqueIds(t.words) && At(t, p) && k - 1 <= |t.words| && j == Wrap(p + (k - 1), |t.words|)
  {
    NextPrevPositions(s, i);
    WrapShift(i, k, |s.words|);
  }

  lemma FromNext(s: Screen, k: nat, j: nat)
    requires k > 0 && At(Nexts(Next(s), k - 1), j)
    ensures At(Nexts(s, k), j)
  {
    assert Nexts(s, k) == Nexts(Next(s), k - 1);
  }

  lemma NextsZero(s: Screen, i: nat, j: nat)
    requires At(s, i) && j == Wrap(i, |s.words|)
    ensures At(Nexts(s, 0), j)
  {
  }

  lemma WrapShift(i: nat, k: nat, n: nat)
    requires i < n && 0 < k <= n
    ensures Wrap(NextPos(i, n) + (k - 1), n) == Wrap(i + k, n)
  {
  }

  /** n moves forward come back to the starting word. */
  lemma FullCircle(s: Screen, i: nat)
    requires UniqueIds(s.words) && At(s, i)
    ensures Nexts(s, |s.words|).current == s.current
  {
    NextsPosition(s, i, |s.words|, i);
  }

  /** A current word that is not in the list: next goes to the first word. */
  lemma LostWordGoesToFirst(s: Screen)
    requires |s.words| > 0 && s.current.Some?
    requires forall j :: 0 <= j < |s.words| ==> s.words[j].id != s.current.value.id
    ensures Next(s).current == Some(s.words[0])
  {
  }

  /** `loadWordsForPronunciation`: without a list id the list dialog opens;
      loaded words replace the list and the first becomes current (an empty
      answer keeps the current word); a failure raises an alert. */
  function Load(s: Screen, listId: Option<string>, answer: Result<seq<Word>>): (r: Screen)
    ensures !Truthy(listId) ==> r == s.(showListDialog := true)
    ensures Truthy(listId) && answer.Ok? ==>
      r.words == answer.value && r.current == (if |answer.value| > 0 then Some(answer.value[0]) else s.current)
    ensures Truthy(listId) && answer.Err? ==> r == s.(alert := Some(LoadFailed))
  {
    if !Truthy(listId) then s.(showListDialog := true)
    else
      match answer
      case Ok(ws) => s.(words := ws, current := if |ws| > 0 then Some(ws[0]) else s.current)
      case Err(_) => s.(alert := Some(LoadFailed))
  }

  /** After a load of a non-empty list, the first word is current. */
  lemma LoadStartsAtFirst(s: Screen, id: string, ws: seq<Word>)
    requires id != "" && |ws| > 0
    ensures At(Load(s, Some(id), Ok(ws)), 0)
  {
  }
}
