/** Exercise generation shared by Learning mode and Test mode
    (`generateExercises` in LearningModeScreen.tsx and TestModeScreen.tsx).

    Every `sort(() => Math.random() - 0.5)` of the screens is a `Shuffle`
    whose draws come from a `Draws` value: one draw sequence for the word
    order and, per exercise position, one for the distractor pool and one for
    the option order. */
module Generator {
  import opened Base
  import opened Types
  import opened Sorting

  /** Exercises in a Learning session at most. */
  const LearningMax: nat := 10
  /** Exercises in a Test session at most. */
  const TestMax: nat := 15
  /** What a fill-in-the-blank question shows in place of the headword. */
  const BlankMark: string := "_____"

  datatype Draws = Draws(order: seq<nat>, pools: seq<seq<nat>>, options: seq<seq<nat>>)
  {
    function Pool(i: nat): seq<nat> {
      if i < |pools| then pools[i] else []
    }
    function Option(i: nat): seq<nat> {
      if i < |options| then options[i] else []
    }
  }

  // ---------------------------------------------------------------------------
  // Padding

  /** `while (words.length < 4) words = [...words, ...words]`. The loop never
      ends on an empty list, so callers only generate for fetched, non-empty lists. */
  function Pad(words: seq<Word>): (r: seq<Word>)
    requires |words| > 0
    ensures |r| >= 4
    ensures |words| >= 4 ==> r == words
    decreases 4 - |words|
  {
    if |words| >= 4 then words else Pad(words + words)
  }

  /** Independent statement of the padded length: 1 -> 4, 2 -> 4, 3 -> 6, n >= 4 -> n. */
  function PaddedLength(n: nat): nat {
    if n >= 4 then n else if n == 1 then 4 else 2 * n
  }

  lemma PadLength(words: seq<Word>)
    requires |words| > 0
    ensures |Pad(words)| == PaddedLength(|words|)
  {
    if |words| < 4 {
      var w2 := words + words;
      if |w2| < 4 {
        assert Pad(words) == Pad(w2 + w2);
      }
    }
  }

  lemma ModBelow(i: nat, n: nat)
    requires i < n
    ensures i % n == i
  {
  }

  lemma ModSecondRound(i: nat, n: nat)
    requires n <= i < 2 * n
    ensures i % n == i - n
  {
  }

  /** The padded list is the original list repeated: entry `i` is entry `i mod n` of the original. */
  lemma PadCycles(words: seq<Word>)
    requires |words| > 0
    ensures forall i :: 0 <= i < |Pad(words)| ==> Pad(words)[i] == words[i % |words|]
  {
    var n := |words|;
    var r := Pad(words);
    if n >= 4 {
      forall i | 0 <= i < n ensures r[i] == words[i % n] {
        ModBelow(i, n);
      }
    } else if n == 1 {
      var w := words[0];
      assert words == [w];
      assert words + words == [w, w];
      assert r == Pad([w, w]);
      assert Pad([w, w]) == Pad([w, w] + [w, w]);
      assert [w, w] + [w, w] == [w, w, w, w];
      assert r == [w, w, w, w];
      forall i | 0 <= i < 4 ensures r[i] == words[i % 1] {
        assert i % 1 == 0;
      }
    } else {
      assert r == words + words;
      forall i | 0 <= i < 2 * n ensures r[i] == words[i % n] {
        if i >= n {
          ModSecondRound(i, n);
        } else {
          ModBelow(i, n);
        }
      }
    }
  }

  // ---------------------------------------------------------------------------
  // Multiple-choice options

  /** `words.filter(w => w.id !== word.id)` */
  function OthersThan(padded: seq<Word>, id: string): (r: seq<Word>)
    ensures |r| <= |padded|
    ensures forall w :: w in r <==> w in padded && w.id != id
  {
    if |padded| == 0 then []
    else (if padded[0].id != id then [padded[0]] else []) + OthersThan(padded[1..], id)
  }

  function Meanings(ws: seq<Word>): (r: seq<string>)
    ensures |r| == |ws|
    ensures forall i :: 0 <= i < |ws| ==> r[i] == ws[i].meaning
  {
    if |ws| == 0 then [] else [ws[0].meaning] + Meanings(ws[1..])
  }

  /** The distractors: the meanings of at most three entries of the shuffled pool. */
  function Distractors(word: Word, padded: seq<Word>, poolDraws: seq<nat>): (r: seq<string>)
    ensures |r| == Min(3, |OthersThan(padded, word.id)|)
    ensures forall o :: o in r ==> exists w :: w in padded && w.id != word.id && w.meaning == o
  {
    var pool := Shuffle(OthersThan(padded, word.id), poolDraws);
    var picked := Take(pool, 3);
    DistractorsFromPool(word, padded, pool, picked);
    Meanings(picked)
  }

  lemma DistractorsFromPool(word: Word, padded: seq<Word>, pool: seq<Word>, picked: seq<Word>)
    requires multiset(pool) == multiset(OthersThan(padded, word.id))
    requires |picked| <= |pool| && picked == pool[..|picked|]
    ensures forall o :: o in Meanings(picked) ==> exists w :: w in padded && w.id != word.id && w.meaning == o
  {
    forall o | o in Meanings(picked)
      ensures exists w :: w in padded && w.id != word.id && w.meaning == o
    {
      var k :| 0 <= k < |picked| && Meanings(picked)[k] == o;
      assert picked[k] == pool[k];
      assert pool[k] in multiset(pool);
      assert picked[k] in OthersThan(padded, word.id);
    }
  }

  lemma ShuffleKeepsMembers<T>(s: seq<T>, draws: seq<nat>)
    ensures forall x :: x in Shuffle(s, draws) <==> x in s
  {
    var r := Shuffle(s, draws);
    forall x ensures x in r <==> x in s {
      assert x in r <==> x in multiset(r);
      assert x in s <==> x in multiset(s);
    }
  }

  /** `[...wrongOptions, word.meaning]`, shuffled. */
  function ChoiceOptions(word: Word, padded: seq<Word>, poolDraws: seq<nat>, optionDraws: seq<nat>): (r: seq<string>)
    ensures word.meaning in r
    ensures |r| == 1 + Min(3, |OthersThan(padded, word.id)|)
    ensures forall o :: o in r ==> o == word.meaning || exists w :: w in padded && w.id != word.id && w.meaning == o
  {
    var wrong := Distractors(word, padded, poolDraws);
    var all := wrong + [word.meaning];
    var r := Shuffle(all, optionDraws);
    ShuffleKeepsMembers(all, optionDraws);
    assert word.meaning in all;
    forall o | o in r
      ensures o == word.meaning || exists w :: w in padded && w.id != word.id && w.meaning == o
    {
      assert o in all;
      if o != word.meaning {
        assert o in wrong;
      }
    }
    r
  }

  // ---------------------------------------------------------------------------
  // Word selection

  /** `exercise-${index}` */
  function ExerciseId(i: nat): string {
    "exercise-" + NatToString(i)
  }

  lemma ExerciseIdsDistinct(i: nat, j: nat)
    requires i != j
    ensures ExerciseId(i) != ExerciseId(j)
  {
    if ExerciseId(i) == ExerciseId(j) {
      assert NatToString(i) == ExerciseId(i)[9..];
      assert NatToString(j) == ExerciseId(j)[9..];
      NatToStringInjective(i, j);
    }
  }

  /** The first `max` words of the shuffled, padded list. */
  function Chosen(words: seq<Word>, d: Draws, max: nat): (r: seq<Word>)
    requires |words| > 0
    ensures |r| == Min(|Pad(words)|, max)
  {
    Take(Shuffle(Pad(words), d.order), max)
  }

  /** The chosen words are a prefix of a permutation of the padded list. */
  lemma ChosenIsPrefixOfPermutation(words: seq<Word>, d: Draws, max: nat)
    requires |words| > 0
    ensures exists perm: seq<Word> ::
      multiset(perm) == multiset(Pad(words)) && Chosen(words, d, max) == perm[..|Chosen(words, d, max)|]
  {
    var perm := Shuffle(Pad(words), d.order);
    assert multiset(perm) == multiset(Pad(words));
    assert Chosen(words, d, max) == perm[..|Chosen(words, d, max)|];
  }

  // ---------------------------------------------------------------------------
  // Learning mode

  function LearningExercise(word: Word, i: nat, padded: seq<Word>, d: Draws): Exercise {
    Exercise(ExerciseId(i), MultipleChoice, word.value,
             Some(ChoiceOptions(word, padded, d.Pool(i), d.Option(i))), word.meaning)
  }

  function GenerateLearning(words: seq<Word>, d: Draws): (r: seq<Exercise>)
    requires |words| > 0
    ensures |r| == Min(|Pad(words)|, LearningMax)
    ensures forall i :: 0 <= i < |r| ==>
      && r[i].kind == MultipleChoice
      && r[i].id == ExerciseId(i)
      && r[i].question == Chosen(words, d, LearningMax)[i].value
      && r[i].correctAnswer == Chosen(words, d, LearningMax)[i].meaning
      && r[i].options.Some?
      && r[i].correctAnswer in r[i].options.value
      && |r[i].options.value| == 1 + Min(3, |OthersThan(Pad(words), Chosen(words, d, LearningMax)[i].id)|)
  {
    var padded := Pad(words);
    var chosen := Chosen(words, d, LearningMax);
    seq(|chosen|, i requires 0 <= i < |chosen| => LearningExercise(chosen[i], i, padded, d))
  }

  lemma {:induction false} OthersThanSameId(padded: seq<Word>, id: string)
    requires forall x :: x in padded ==> x.id == id
    ensures OthersThan(padded, id) == []
  {
    if |padded| > 0 {
      assert padded[0] in padded;
      OthersThanSameId(padded[1..], id);
    }
  }

  /** With no entry of another id, the only option is the correct meaning. */
  lemma NoOtherIdsOneOption(word: Word, padded: seq<Word>, poolDraws: seq<nat>, optionDraws: seq<nat>)
    requires forall x :: x in padded ==> x.id == word.id
    ensures ChoiceOptions(word, padded, poolDraws, optionDraws) == [word.meaning]
  {
    OthersThanSameId(padded, word.id);
    var o := ChoiceOptions(word, padded, poolDraws, optionDraws);
    assert |OthersThan(padded, word.id)| == 0;
    OnlyElement(o, word.meaning);
  }

  lemma OnlyElement<T>(s: seq<T>, x: T)
    requires |s| == 1 && x in s
    ensures s == [x]
  {
  }

  /** A one-word list is padded to four copies of that word, so each of its exercises has a single option. */
  lemma SingleWordHasOneOption(w: Word, d: Draws, i: nat)
    requires i < |GenerateLearning([w], d)|
    ensures GenerateLearning([w], d)[i].options == Some([w.meaning])
  {
    var padded := Pad([w]);
    PadCycles([w]);
    assert forall x :: x in padded ==> x == w;
    var perm := Shuffle(padded, d.order);
    var chosen := Chosen([w], d, LearningMax);
    assert chosen[i] == perm[i];
    assert perm[i] in multiset(padded);
    assert chosen[i] == w;
    NoOtherIdsOneOption(w, padded, d.Pool(i), d.Option(i));
  }

  // ---------------------------------------------------------------------------
  // Test mode

  /** Position `i` gets multiple choice, write, fill-in-the-blank in turn. */
  function TypeAt(i: nat): ExerciseType {
    if i % 3 == 0 then MultipleChoice else if i % 3 == 1 then Write else FillBlank
  }

  /** `\w` of a JavaScript regular expression. */
  predicate IsWordChar(c: char) {
    ('a' <= c <= 'z') || ('A' <= c <= 'Z') || ('0' <= c <= '9') || c == '_'
  }

  predicate WordCharAt(s: string, i: int) {
    0 <= i < |s| && IsWordChar(s[i])
  }

  /** `\b` holds between positions `i - 1` and `i`. */
  predicate BoundaryAt(s: string, i: int) {
    WordCharAt(s, i - 1) != WordCharAt(s, i)
  }

  /** `new RegExp(`\\b${w}\\b`, 'i')` matches at position `p` (headword read literally). */
  predicate MatchAt(s: string, w: string, p: int) {
    0 <= p && p + |w| <= |s|
    && BoundaryAt(s, p)
    && Lower(s[p..p + |w|]) == Lower(w)
    && BoundaryAt(s, p + |w|)
  }

  function FirstMatch(s: string, w: string, from: nat): (r: int)
    ensures r == -1 || (from <= r && MatchAt(s, w, r))
    ensures forall p :: from <= p && (r == -1 || p < r) ==> !MatchAt(s, w, p)
    decreases |s| + 1 - from
  {
    if from > |s| then -1
    else if MatchAt(s, w, from) then from
    else FirstMatch(s, w, from + 1)
  }

  /** `p` is a match and no earlier position is one. */
  predicate FirstMatchAt(s: string, w: string, p: int) {
    MatchAt(s, w, p) && forall q :: 0 <= q < p ==> !MatchAt(s, w, q)
  }

  lemma FirstMatchIsFirst(s: string, w: string)
    ensures forall p :: FirstMatchAt(s, w, p) ==> FirstMatch(s, w, 0) == p
  {
    var r := FirstMatch(s, w, 0);
    forall p | FirstMatchAt(s, w, p)
      ensures r == p
    {
      assert r == -1 || r > p ==> !MatchAt(s, w, p);
      assert 0 <= r < p ==> !MatchAt(s, w, r);
    }
  }

  /** `context.replace(regex, '_____')`: the first match is blanked out; without a match the context is returned as it is. */
  function BlankOut(context: string, w: string): (r: string)
    ensures (forall p :: !MatchAt(context, w, p)) ==> r == context
    ensures forall p :: FirstMatchAt(context, w, p) ==> r == context[..p] + BlankMark + context[p + |w|..]
  {
    var p := FirstMatch(context, w, 0);
    FirstMatchIsFirst(context, w);
    if p == -1 then context else context[..p] + BlankMark + context[p + |w|..]
  }

  function TestQuestion(word: Word, t: ExerciseType): string {
    if t == FillBlank && Truthy(word.context) then BlankOut(word.context.value, word.value)
    else if t == Write then word.meaning
    else word.value
  }

  function TestExercise(word: Word, i: nat, padded: seq<Word>, d: Draws): Exercise {
    var t := TypeAt(i);
    Exercise(
      ExerciseId(i), t, TestQuestion(word, t),
      if t == MultipleChoice then Some(ChoiceOptions(word, padded, d.Pool(i), d.Option(i))) else None,
      if t == Write then word.value else word.meaning)
  }

  function GenerateTest(words: seq<Word>, d: Draws): (r: seq<Exercise>)
    requires |words| > 0
    ensures |r| == Min(|Pad(words)|, TestMax)
    ensures forall i :: 0 <= i < |r| ==>
      && r[i].id == ExerciseId(i)
      && r[i].kind == TypeAt(i)
      && (r[i].options.Some? <==> r[i].kind == MultipleChoice)
      && (r[i].options.Some? ==> r[i].correctAnswer in r[i].options.value)
      && r[i].correctAnswer == (if r[i].kind == Write then Chosen(words, d, TestMax)[i].value
                                else Chosen(words, d, TestMax)[i].meaning)
  {
    var padded := Pad(words);
    var chosen := Chosen(words, d, TestMax);
    seq(|chosen|, i requires 0 <= i < |chosen| => TestExercise(chosen[i], i, padded, d))
  }

  /** What each kind of Test question shows. */
  lemma TestQuestions(words: seq<Word>, d: Draws, i: nat)
    requires |words| > 0
    requires i < |GenerateTest(words, d)|
    ensures var e := GenerateTest(words, d)[i];
            var w := Chosen(words, d, TestMax)[i];
            && (e.kind == Write ==> e.question == w.meaning)
            && (e.kind == MultipleChoice ==> e.question == w.value)
            && (e.kind == FillBlank && !Truthy(w.context) ==> e.question == w.value)
            && (e.kind == FillBlank && Truthy(w.context) ==> e.question == BlankOut(w.context.value, w.value))
  {
    var chosen := Chosen(words, d, TestMax);
    assert GenerateTest(words, d)[i] == TestExercise(chosen[i], i, Pad(words), d);
  }

  /** A fill-in-the-blank whose context does not mention the headword shows the context sentence unchanged. */
  lemma FillBlankWithoutMatch(w: Word)
    requires Truthy(w.context)
    requires forall p :: !MatchAt(w.context.value, w.value, p)
    ensures TestQuestion(w, FillBlank) == w.context.value
  {
  }
}
