/** The word pipeline around text recognition (src/utils/ocrService.ts): the
    recognised text is cut into tokens, cleaned to lower-case ASCII words
    without repeats, translated through the fixed dictionary, and turned into
    selectable detected words. The recogniser itself is not modelled; its text
    is the input. */
module Ocr {
  import opened Base
  import Dictionary

  datatype DetectedWord = DetectedWord(id: string, value: string, meaning: string, selected: bool)

  // ---------------------------------------------------------------------------
  // Tokens

  /** Number of leading characters that are not white space. */
  function RunLength(s: string): (n: nat)
    ensures n <= |s|
    ensures forall i :: 0 <= i < n ==> !IsSpace(s[i])
    ensures n < |s| ==> IsSpace(s[n])
  {
    if |s| == 0 || IsSpace(s[0]) then 0 else 1 + RunLength(s[1..])
  }

  /** The non-empty pieces of `text.split(/\s+/)`: maximal runs of non-space characters, in order. */
  function Tokens(s: string): (r: seq<string>)
    ensures forall i :: 0 <= i < |r| ==> |r[i]| > 0 && forall j :: 0 <= j < |r[i]| ==> !IsSpace(r[i][j])
    decreases |s|
  {
    if |s| == 0 then []
    else if IsSpace(s[0]) then Tokens(s[1..])
    else
      var n := RunLength(s);
      [s[..n]] + Tokens(s[n..])
  }

  predicate IsLetter(c: char) {
    'a' <= c <= 'z' || 'A' <= c <= 'Z'
  }

  predicate IsLowerLetter(c: char) {
    'a' <= c <= 'z'
  }

  /** `word.replace(/[^a-zA-Z]/g, '')`. */
  function Strip(w: string): (r: string)
    ensures |r| <= |w|
    ensures forall i :: 0 <= i < |r| ==> IsLetter(r[i])
  {
    Filter(w, IsLetter)
  }

  function MapStrip(ws: seq<string>): (r: seq<string>)
    ensures |r| == |ws| && forall i :: 0 <= i < |ws| ==> r[i] == Strip(ws[i])
  {
    if |ws| == 0 then [] else [Strip(ws[0])] + MapStrip(ws[1..])
  }

  function MapLower(ws: seq<string>): (r: seq<string>)
    ensures |r| == |ws| && forall i :: 0 <= i < |ws| ==> r[i] == Lower(ws[i])
  {
    if |ws| == 0 then [] else [Lower(ws[0])] + MapLower(ws[1..])
  }

  /** Position of the first occurrence of `x`, or -1 (`indexOf`). */
  function IndexOf(s: seq<string>, x: string): (r: int)
    ensures -1 <= r < |s|
    ensures r >= 0 ==> s[r] == x && x !in s[..r]
    ensures r == -1 ==> x !in s
  {
    if |s| == 0 then -1
    else if s[0] == x then 0
    else
      var k := IndexOf(s[1..], x);
      if k == -1 then -1 else k + 1
  }

  /** `filter((w, i, self) => self.indexOf(w) === i)`: the first occurrence of each word. */
  function Dedupe(s: seq<string>): (r: seq<string>)
    ensures NoDup(r)
    ensures forall x :: x in r <==> x in s
    ensures forall i, j :: 0 <= i < j < |r| ==> IndexOf(s, r[i]) < IndexOf(s, r[j])
    decreases |s|
  {
    if |s| == 0 then []
    else
      var init := s[..|s| - 1];
      var last := s[|s| - 1];
      var d := Dedupe(init);
      assert s == init + [last];
      FirstIndexInPrefix(init, last);
      if last in init then d else d + [last]
  }

  /** Appending to a sequence does not move the first occurrence of anything already in it. */
  lemma {:induction false} IndexOfAppend(s: seq<string>, t: seq<string>, x: string)
    requires x in s
    ensures IndexOf(s + t, x) == IndexOf(s, x)
  {
    if s[0] != x {
      assert (s + t)[1..] == s[1..] + t;
      IndexOfAppend(s[1..], t, x);
    }
  }

  /** A new last element is first found at the end. */
  lemma IndexOfNewLast(init: seq<string>, last: string)
    requires last !in init
    ensures IndexOf(init + [last], last) == |init|
  {
    var m := IndexOf(init + [last], last);
    assert (init + [last])[|init|] == last;
  }

  lemma FirstIndexInPrefix(init: seq<string>, last: string)
    ensures forall x :: x in init ==> IndexOf(init + [last], x) == IndexOf(init, x)
    ensures last !in init ==> IndexOf(init + [last], last) == |init|
  {
    forall x | x in init ensures IndexOf(init + [last], x) == IndexOf(init, x) {
      IndexOfAppend(init, [last], x);
    }
    if last !in init {
      IndexOfNewLast(init, last);
    }
  }

  predicate LongerThanTwo(t: string) { |t| > 2 }
  predicate NonEmpty(t: string) { |t| > 0 }

  /** A non-empty word of ASCII letters. */
  predicate LetterWord(w: string) {
    |w| > 0 && forall j :: 0 <= j < |w| ==> IsLetter(w[j])
  }

  /** A non-empty word of lower-case ASCII letters. */
  predicate LowerWord(w: string) {
    |w| > 0 && forall j :: 0 <= j < |w| ==> IsLowerLetter(w[j])
  }

  /** The tokens longer than two characters, stripped to their letters, empty results dropped.
      The length test comes before stripping. */
  function Cleaned(text: string): (r: seq<string>)
    ensures forall i :: 0 <= i < |r| ==> LetterWord(r[i])
  {
    var long := Filter(Tokens(text), LongerThanTwo);
    var stripped := MapStrip(long);
    var r := Filter(stripped, NonEmpty);
    forall i | 0 <= i < |r| ensures LetterWord(r[i]) {
      assert NonEmpty(r[i]) && r[i] in stripped;
      var k :| 0 <= k < |stripped| && stripped[k] == r[i];
      assert r[i] == Strip(long[k]);
    }
    r
  }

  /** The cleaned words, case folded. */
  function Lowered(text: string): (r: seq<string>)
    ensures forall i :: 0 <= i < |r| ==> LowerWord(r[i])
  {
    var c := Cleaned(text);
    var r := MapLower(c);
    forall i | 0 <= i < |r| ensures LowerWord(r[i]) {
      LowerOfLetterWord(c[i]);
    }
    r
  }

  lemma LowerOfLetterWord(w: string)
    requires LetterWord(w)
    ensures LowerWord(Lower(w))
  {
    var l := Lower(w);
    forall j | 0 <= j < |l| ensures IsLowerLetter(l[j]) {
      assert l[j] == LowerChar(w[j]) && IsLetter(w[j]);
    }
  }

  /** The words `recognizeText` extracts from the recognised text: no repeats, each a
      non-empty word of lower-case ASCII letters, in the order of first occurrence. */
  function ExtractWords(text: string): (r: seq<string>)
    ensures NoDup(r)
    ensures forall i :: 0 <= i < |r| ==> LowerWord(r[i])
    ensures forall x :: x in r <==> x in Lowered(text)
    ensures forall i, j :: 0 <= i < j < |r| ==> IndexOf(Lowered(text), r[i]) < IndexOf(Lowered(text), r[j])
  {
    var l := Lowered(text);
    var r := Dedupe(l);
    forall i | 0 <= i < |r| ensures LowerWord(r[i]) {
      assert r[i] in l;
      var k :| 0 <= k < |l| && l[k] == r[i];
    }
    r
  }

  /** A token of three characters passes the length test before stripping. */
  lemma TokensOfShortWord()
    ensures Filter(Tokens("a1!"), LongerThanTwo) == ["a1!"]
  {
    assert RunLength("a1!") == 3 by {
      assert "a1!"[1..] == "1!";
      assert "1!"[1..] == "!";
      assert "!"[1..] == "";
    }
    assert "a1!"[..3] == "a1!";
    assert "a1!"[3..] == [];
    assert Tokens("a1!") == ["a1!"];
    assert LongerThanTwo("a1!");
    assert Filter(["a1!"], LongerThanTwo) == [ "a1!" ] + Filter([], LongerThanTwo) by {
      assert ["a1!"][1..] == [];
    }
  }

  lemma StripOfShortWord()
    ensures Strip("a1!") == "a"
  {
    assert "a1!"[1..] == "1!";
    assert "1!"[1..] == "!";
    assert "!"[1..] == "";
    assert !IsLetter('1') && !IsLetter('!') && IsLetter('a');
    assert Filter("!", IsLetter) == "";
    assert Filter("1!", IsLetter) == "";
  }

  lemma CleanedOfShortWord()
    ensures Cleaned("a1!") == ["a"]
  {
    TokensOfShortWord();
    StripOfShortWord();
    assert MapStrip(["a1!"]) == ["a"];
    assert NonEmpty("a");
    assert Filter(["a"], NonEmpty) == ["a"] + Filter([], NonEmpty) by {
      assert ["a"][1..] == [];
    }
  }

  lemma LoweredOfShortWord()
    ensures Lowered("a1!") == ["a"]
  {
    CleanedOfShortWord();
    LowerOfA();
  }

  lemma LowerOfA()
    ensures MapLower(["a"]) == ["a"]
  {
    var r := MapLower(["a"]);
    var l := Lower("a");
    assert |l| == 1 && l[0] == LowerChar('a') == 'a';
    assert l == "a";
    assert |r| == 1 && r[0] == l;
    assert r == [l];
  }

  /** So "a1!" gives the one-letter word "a". */
  lemma ShortWordThroughLengthTest()
    ensures ExtractWords("a1!") == ["a"]
  {
    LoweredOfShortWord();
    assert Dedupe(["a"]) == ["a"] by {
      assert ["a"][..0] == [];
    }
  }

  // ---------------------------------------------------------------------------
  // Translation

  const Untranslated := " (çeviri yok)"

  /** `dict[word] || `${word} (çeviri yok)``: a missing or empty entry falls back to the marked word. */
  function Translate(dict: map<string, string>, word: string): (r: string)
    ensures word in dict && dict[word] != "" ==> r == dict[word]
    ensures !(word in dict && dict[word] != "") ==> r == word + Untranslated && |r| > |word|
  {
    if word in dict && dict[word] != "" then dict[word] else word + Untranslated
  }

  /** `translateWords`: an entry for every word. */
  function TranslateWords(dict: map<string, string>, words: seq<string>): (r: map<string, string>)
    ensures forall w :: w in r <==> w in words
    ensures forall w :: w in r ==> r[w] == Translate(dict, w)
  {
    map w | w in words :: Translate(dict, w)
  }

  /** The mapping in `processImageWithOCR`. */
  function Detect(dict: map<string, string>, words: seq<string>): (r: seq<DetectedWord>)
    ensures |r| == |words|
    ensures forall i :: 0 <= i < |words| ==>
      r[i] == DetectedWord(NatToString(i + 1), words[i], Translate(dict, words[i]), true)
  {
    var translations := TranslateWords(dict, words);
    var r := seq(|words|, i requires 0 <= i < |words| =>
      var m := translations[words[i]];
      DetectedWord(NatToString(i + 1), words[i], if m != "" then m else words[i] + Untranslated, true));
    forall i | 0 <= i < |words|
      ensures r[i] == DetectedWord(NatToString(i + 1), words[i], Translate(dict, words[i]), true)
    {
      var m := translations[words[i]];
      assert m == Translate(dict, words[i]) && m != "";
    }
    r
  }

  /** Distinct words get distinct ids (their positions) and stay distinct. */
  lemma DetectDistinct(dict: map<string, string>, words: seq<string>)
    requires NoDup(words)
    ensures var r := Detect(dict, words);
      forall i, j :: 0 <= i < j < |r| ==> r[i].id != r[j].id && r[i].value != r[j].value
  {
    var r := Detect(dict, words);
    forall i, j | 0 <= i < j < |r| ensures r[i].id != r[j].id {
      if r[i].id == r[j].id {
        NatToStringInjective(i + 1, j + 1);
      }
    }
  }

  /** `processImageWithOCR` on the recognised text, where `dict` is the built-in
      dictionary `Dictionary.Table`: one selected entry per extracted word, with distinct ids. */
  function ProcessText(dict: map<string, string>, text: string): (r: seq<DetectedWord>)
    ensures |r| == |ExtractWords(text)|
    ensures forall i :: 0 <= i < |r| ==> r[i].value == ExtractWords(text)[i] && r[i].selected
    ensures forall i, j :: 0 <= i < j < |r| ==> r[i].id != r[j].id && r[i].value != r[j].value
  {
    DetectDistinct(dict, ExtractWords(text));
    Detect(dict, ExtractWords(text))
  }
}
