/** The flashcards screen (src/screens/flashcards/FlashcardsScreen.tsx): a
    bounded walk through a list's words with a card that flips. The flip
    animation is taken as done at once, and API answers are inputs. */
module Flashcards {
  import opened Base
  import opened Types

  datatype Deck = Deck(words: seq<Word>, index: nat, flipped: bool, completed: bool, progress: real, loading: bool)

  const Initial := Deck([], 0, false, false, 0.0, true)

  /** The share of the deck behind a position, in percent. */
  function Percent(k: nat, n: nat): (r: real)
    ensures n > 0 && k <= n ==> 0.0 <= r <= 100.0
  {
    if n == 0 then 0.0 else (k as real / n as real) * 100.0
  }

  /** `flipCard`: the card turns over. */
  function Flip(d: Deck): (r: Deck)
    ensures r.flipped != d.flipped
    ensures r.(flipped := d.flipped) == d
  {
    d.(flipped := !d.flipped)
  }

  /** `nextCard`: before the last card one on, face up; on the last card the
      deck is completed at 100 percent and the position stays. */
  function Next(d: Deck): (r: Deck)
    ensures d.index + 1 < |d.words| ==>
      r.index == d.index + 1 && !r.flipped && r.completed == d.completed && r.words == d.words
    ensures d.index + 1 >= |d.words| ==> r == d.(completed := true, progress := 100.0)
  {
    if d.index + 1 < |d.words| then d.(index := d.index + 1, flipped := false, progress := Percent(d.index + 1, |d.words|))
    else d.(completed := true, progress := 100.0)
  }

  /** `prevCard`: one back, face up, only when not at the first card. */
  function Prev(d: Deck): (r: Deck)
    ensures d.index > 0 ==> r.index == d.index - 1 && !r.flipped && r.words == d.words && r.completed == d.completed
    ensures d.index == 0 ==> r == d
  {
    if d.index > 0 then d.(index := d.index - 1, flipped := false, progress := Percent(d.index, |d.words|)) else d
  }

  /** `restart`: back to the first card, face up, not completed. */
  function Restart(d: Deck): (r: Deck)
    ensures r.index == 0 && !r.flipped && !r.completed && r.progress == 0.0
    ensures r.words == d.words
  {
    d.(index := 0, flipped := false, completed := false, progress := 0.0)
  }

  /** `loadWords` with the API's answer: the same reset, then the new words (kept on failure). */
  function LoadWords(d: Deck, answer: Result<seq<Word>>): (r: Deck)
    ensures r.index == 0 && !r.flipped && !r.completed && r.progress == 0.0 && !r.loading
    ensures answer.Ok? ==> r.words == answer.value
    ensures answer.Err? ==> r.words == d.words
  {
    var reset := Restart(d).(loading := true);
    match answer
    case Ok(ws) => reset.(words := ws, loading := false)
    case Err(_) => reset.(loading := false)
  }

  /** The position is on a card whenever there are cards. */
  predicate InRange(d: Deck) {
    d.index == 0 || d.index < |d.words|
  }

  lemma InRangeAlways(d: Deck, answer: Result<seq<Word>>)
    requires InRange(d)
    ensures InRange(Initial)
    ensures InRange(Next(d)) && InRange(Prev(d)) && InRange(Flip(d))
    ensures InRange(Restart(d)) && InRange(LoadWords(d, answer))
  {
  }

  /** Moves from any reachable deck; `Some(b)` flips if `b`, otherwise moves forward, `None` moves back. */
  function Walk(d: Deck, moves: seq<Option<bool>>): (r: Deck)
    ensures r.words == d.words
    decreases |moves|
  {
    if |moves| == 0 then d
    else
      var step := match moves[0]
        case None => Prev(d)
        case Some(b) => if b then Flip(d) else Next(d);
      Walk(step, moves[1..])
  }

  /** For a non-empty deck every sequence of moves keeps the position on a card. */
  lemma {:induction false} WalkStaysOnCards(d: Deck, moves: seq<Option<bool>>)
    requires |d.words| > 0 && InRange(d)
    ensures Walk(d, moves).index < |d.words|
    decreases |moves|
  {
    if |moves| > 0 {
      var step := match moves[0]
        case None => Prev(d)
        case Some(b) => if b then Flip(d) else Next(d);
      InRangeAlways(d, Err(""));
      WalkStaysOnCards(step, moves[1..]);
    }
  }

  /** Back undoes forward before the last card. */
  lemma NextThenPrev(d: Deck)
    requires d.index + 1 < |d.words|
    ensures Prev(Next(d)).index == d.index && !Prev(Next(d)).flipped
  {
  }

  /** Forward on the last card completes the deck at 100 percent, and a restart opens it again. */
  lemma LastCardCompletes(d: Deck)
    requires |d.words| > 0 && d.index == |d.words| - 1
    ensures Next(d).completed && Next(d).progress == 100.0 && Next(d).index == d.index
    ensures !Restart(Next(d)).completed && Restart(Next(d)).index == 0
  {
  }
}
