/** The add-word screen (src/screens/words/AddWordScreen.tsx): the field
    validators, bulk "word: meaning" input, suggestions, the mock translation,
    and the list of words added so far. API answers are inputs; the bulk add takes the
    `addWord` call itself as a function from request to answer. */
module AddWord {
  import opened Base
  import opened Types
  import ListDetails

  const WordRequired := "Kelime gereklidir"
  const MeaningRequired := "Anlam gereklidir"
  const BulkRequired := "Kelimeler gereklidir"
  const BulkNoLines := "En az bir kelime eklemelisiniz"
  const BulkBadLine := "Her satır \"kelime: anlam\" formatında olmalıdır"
  const TranslateNeedsWord := "Çeviri için kelime giriniz"
  const AddFailed := "Kelime eklenirken bir hata oluştu."
  const BulkAddFailed := "Kelimeler eklenirken bir hata oluştu."

  /** `validateWord`: only the empty string is refused; white space passes. */
  function ValidateWord(word: string): (r: Option<string>)
    ensures r.None? <==> word != ""
    ensures r.Some? ==> r.value == WordRequired
  {
    if word == "" then Some(WordRequired) else None
  }

  /** `validateMeaning`, the same test. */
  function ValidateMeaning(meaning: string): (r: Option<string>)
    ensures r.None? <==> meaning != ""
    ensures r.Some? ==> r.value == MeaningRequired
  {
    if meaning == "" then Some(MeaningRequired) else None
  }

  /** White space alone is a valid word and meaning. */
  lemma SpacesPassValidation()
    ensures ValidateWord(" ").None? && ValidateMeaning(" ").None? && Blank(" ")
  {
    BlankIff(" ");
  }

  // ---------------------------------------------------------------------------
  // Bulk input

  predicate NotBlank(line: string) { !Blank(line) }

  /** `text.split('\n').filter(line => line.trim())`. */
  function BulkLines(text: string): (r: seq<string>)
    ensures forall i :: 0 <= i < |r| ==> !Blank(r[i]) && '\n' !in r[i]
  {
    var lines := Split(text, '\n');
    var r := Filter(lines, NotBlank);
    forall i | 0 <= i < |r| ensures !Blank(r[i]) && '\n' !in r[i] {
      assert NotBlank(r[i]) && r[i] in lines;
    }
    r
  }

  /** Every line has a colon (`line.includes(':')` for a one-character needle). */
  predicate AllHaveColon(lines: seq<string>) {
    forall i :: 0 <= i < |lines| ==> ':' in lines[i]
  }

  /** `validateBulkText`: the first failing test gives the message. */
  function ValidateBulk(text: string): (r: Option<string>)
    ensures r.None? <==> text != "" && |BulkLines(text)| > 0 && AllHaveColon(BulkLines(text))
    ensures text == "" ==> r == Some(BulkRequired)
    ensures text != "" && |BulkLines(text)| == 0 ==> r == Some(BulkNoLines)
    ensures text != "" && |BulkLines(text)| > 0 && !AllHaveColon(BulkLines(text)) ==> r == Some(BulkBadLine)
  {
    if text == "" then Some(BulkRequired)
    else if |BulkLines(text)| == 0 then Some(BulkNoLines)
    else if !AllHaveColon(BulkLines(text)) then Some(BulkBadLine)
    else None
  }

  /** A parsed line; `meaning` is absent when the line has no colon (`undefined`). */
  datatype Entry = Entry(value: string, meaning: Option<string>)

  /** `const [value, meaning] = line.split(':').map(part => part.trim())`. */
  function ParseLine(line: string): (r: Entry)
    ensures (':' in line) <==> r.meaning.Some?
  {
    var parts := Split(line, ':');
    SplitHasTwoParts(line);
    Entry(Trim(parts[0]), if |parts| >= 2 then Some(Trim(parts[1])) else None)
  }

  lemma SplitHasTwoParts(line: string)
    ensures (':' in line) <==> |Split(line, ':')| >= 2
  {
    if ':' in line {
      SplitCons(line, ':');
    }
  }

  /** A text with the separator splits into the part before its first
      occurrence followed by the parts of what comes after. */
  lemma SplitCons(s: string, c: char)
    requires c in s
    ensures 0 <= IndexOfChar(s, c) < |s|
    ensures Split(s, c) == [s[..IndexOfChar(s, c)]] + Split(s[IndexOfChar(s, c) + 1..], c)
  {
  }

  /** The first part runs up to the first separator, or is the whole text. */
  lemma SplitHead(s: string, c: char)
    ensures Split(s, c)[0] == if c in s then s[..IndexOfChar(s, c)] else s
  {
  }

  /** The first two parts of a line with a colon. */
  lemma FirstTwoParts(line: string)
    requires ':' in line
    ensures var i := IndexOfChar(line, ':');
      var rest := line[i + 1..];
      && |Split(line, ':')| >= 2
      && Split(line, ':')[0] == line[..i]
      && Split(line, ':')[1] == if ':' in rest then rest[..IndexOfChar(rest, ':')] else rest
  {
    var i := IndexOfChar(line, ':');
    SplitCons(line, ':');
    SplitHead(line[i + 1..], ':');
  }

  /** The value is the trimmed text before the first colon and the meaning the
      trimmed text between the first and the second colon; the rest is dropped. */
  lemma ParseLineMeaning(line: string)
    requires ':' in line
    ensures var i := IndexOfChar(line, ':');
      var rest := line[i + 1..];
      && ParseLine(line).value == Trim(line[..i])
      && ParseLine(line).meaning == Some(Trim(if ':' in rest then rest[..IndexOfChar(rest, ':')] else rest))
  {
    FirstTwoParts(line);
  }

  lemma AppleLines()
    ensures BulkLines("apple:") == ["apple:"]
  {
    var t := "apple:";
    assert '\n' !in t;
    SplitWithoutSeparator(t, '\n');
    assert !IsSpace(t[0]);
    BlankIff(t);
    FilterKeepsAll([t], NotBlank);
  }

  lemma SplitWithoutSeparator(s: string, c: char)
    requires c !in s
    ensures Split(s, c) == [s]
  {
  }

  /** "apple:" passes validation ... */
  lemma ColonWithoutMeaningValid()
    ensures ValidateBulk("apple:").None?
  {
    AppleLines();
    assert ':' in "apple:" by {
      assert "apple:"[5] == ':';
    }
  }

  lemma AppleParts()
    ensures Split("apple:", ':') == ["apple", ""]
  {
    var t := "apple:";
    assert IndexOfChar(t, ':') == 5 by {
      assert t[0] != ':' && t[1] != ':' && t[2] != ':' && t[3] != ':' && t[4] != ':' && t[5] == ':';
      assert t[1..] == "pple:" && t[2..] == "ple:" && t[3..] == "le:" && t[4..] == "e:" && t[5..] == ":";
    }
    assert t[..5] == "apple" && t[6..] == "";
    assert Split("", ':') == [""];
  }

  /** ... and gives an empty meaning. */
  lemma ColonWithoutMeaningParsed()
    ensures ParseLine("apple:") == Entry("apple", Some(""))
  {
    AppleParts();
    AppleTrims();
  }

  lemma AppleTrims()
    ensures Trim("apple") == "apple" && Trim("") == ""
  {
    TrimPadded("", "apple", "");
    assert "" + "apple" + "" == "apple";
  }

  /** A request to `addWord`. */
  datatype WordRequest = WordRequest(listId: string, value: string, meaning: Option<string>, context: Option<string>)

  function LineRequest(listId: string, line: string): (r: WordRequest)
    ensures r.listId == listId && r.context.None?
  {
    var e := ParseLine(line);
    WordRequest(listId, e.value, e.meaning, None)
  }

  /** One request per non-blank line, in line order, none with a context. */
  function BulkRequests(listId: string, text: string): (r: seq<WordRequest>)
    ensures |r| == |BulkLines(text)|
    ensures forall i :: 0 <= i < |r| ==> r[i] == LineRequest(listId, BulkLines(text)[i]) && r[i].context.None?
  {
    LineRequests(listId, BulkLines(text))
  }

  function LineRequests(listId: string, lines: seq<string>): (r: seq<WordRequest>)
    ensures |r| == |lines|
    ensures forall i :: 0 <= i < |r| ==> r[i] == LineRequest(listId, lines[i])
  {
    seq(|lines|, i requires 0 <= i < |lines| => LineRequest(listId, lines[i]))
  }

  /** After validation every request carries a meaning. */
  lemma ValidBulkHasMeanings(listId: string, text: string)
    requires ValidateBulk(text).None?
    ensures forall i :: 0 <= i < |BulkRequests(listId, text)| ==> BulkRequests(listId, text)[i].meaning.Some?
  {
    var lines := BulkLines(text);
    forall i | 0 <= i < |lines| ensures ParseLine(lines[i]).meaning.Some? {
      assert ':' in lines[i];
    }
  }

  // ---------------------------------------------------------------------------
  // The screen

  datatype Form = Form(
    listId: string,
    word: string,
    meaning: string,
    context: string,
    wordError: string,
    meaningError: string,
    bulkMode: bool,
    bulkText: string,
    bulkError: string,
    suggestions: seq<string>,
    showSuggestions: bool,
    added: seq<Word>,
    error: Option<string>)

  function ErrorText(e: Option<string>): string {
    if e.Some? then e.value else ""
  }

  /** The five suggested endings. */
  function Suggestions(text: string): (r: seq<string>)
    ensures |r| == 5
    ensures forall i :: 0 <= i < 5 ==> StartsWith(r[i], text) && |r[i]| > |text|
    ensures r[0][|text|..] == "able" && r[1][|text|..] == "ful" && r[2][|text|..] == "ness"
    ensures r[3][|text|..] == "ing" && r[4][|text|..] == "er"
  {
    var r := [text + "able", text + "ful", text + "ness", text + "ing", text + "er"];
    assert forall i :: 0 <= i < 5 ==> r[i][..|text|] == text;
    r
  }

  /** `handleWordChange`: two characters or more show the suggestions; fewer hide them. */
  function WordChange(f: Form, text: string): (r: Form)
    ensures r.word == text
    ensures |text| >= 2 ==> r.showSuggestions && r.suggestions == Suggestions(text)
    ensures |text| < 2 ==> !r.showSuggestions && r.suggestions == f.suggestions
  {
    if |text| >= 2 then f.(word := text, suggestions := Suggestions(text), showSuggestions := true)
    else f.(word := text, showSuggestions := false)
  }

  /** `handleSelectSuggestion`. */
  function SelectSuggestion(f: Form, s: string): (r: Form)
    ensures r.word == s && !r.showSuggestions
  {
    f.(word := s, showSuggestions := false)
  }

  /** `handleAutoTranslate`: an empty word only sets the word error; otherwise the mock translation. */
  function AutoTranslate(f: Form): (r: Form)
    ensures f.word == "" ==> r == f.(wordError := TranslateNeedsWord)
    ensures f.word != "" ==> r.meaning == f.word + " anlamı" && r.word == f.word && StartsWith(r.meaning, f.word)
  {
    if f.word == "" then f.(wordError := TranslateNeedsWord)
    else
      assert (f.word + " anlamı")[..|f.word|] == f.word;
      f.(meaning := f.word + " anlamı")
  }

  /** The request `handleAddWord` sends, if both fields pass; an empty context is sent as absent. */
  function SingleRequest(f: Form): (r: Option<WordRequest>)
    ensures r.Some? <==> f.word != "" && f.meaning != ""
    ensures r.Some? ==>
      r.value.value == f.word && r.value.meaning == Some(f.meaning) && (r.value.context.None? <==> f.context == "")
  {
    if ValidateWord(f.word).None? && ValidateMeaning(f.meaning).None? then
      Some(WordRequest(f.listId, f.word, Some(f.meaning), if f.context == "" then None else Some(f.context)))
    else None
  }

  /** `handleAddWord`: both validators run; on success the new word goes first and the fields clear. */
  function AddSingle(f: Form, answer: Result<Word>): (r: Form)
    ensures r.wordError == ErrorText(ValidateWord(f.word)) && r.meaningError == ErrorText(ValidateMeaning(f.meaning))
    ensures SingleRequest(f).None? ==> r.added == f.added && r.word == f.word && r.meaning == f.meaning
    ensures SingleRequest(f).Some? && answer.Ok? ==>
      r.added == [answer.value] + f.added && r.word == "" && r.meaning == "" && r.context == "" && r.error.None?
    ensures SingleRequest(f).Some? && answer.Err? ==> r.added == f.added && r.error == Some(AddFailed)
  {
    var checked := f.(wordError := ErrorText(ValidateWord(f.word)), meaningError := ErrorText(ValidateMeaning(f.meaning)));
    if SingleRequest(f).None? then checked
    else
      match answer
      case Ok(w) => checked.(added := [w] + f.added, word := "", meaning := "", context := "", error := None)
      case Err(_) => checked.(error := Some(AddFailed))
  }

  /** `Promise.all` over one `addWord` call per request: the answers in
      request order when every call succeeds, and a failure otherwise. */
  function AddAll(reqs: seq<WordRequest>, add: WordRequest -> Result<Word>): (r: Result<seq<Word>>)
    ensures r.Ok? <==> forall i :: 0 <= i < |reqs| ==> add(reqs[i]).Ok?
    ensures r.Ok? ==> |r.value| == |reqs| && forall i :: 0 <= i < |reqs| ==> r.value[i] == add(reqs[i]).value
  {
    if |reqs| == 0 then Ok([])
    else
      match add(reqs[0])
      case Err(e) => Err(e)
      case Ok(w) =>
        match AddAll(reqs[1..], add)
        case Err(e) => Err(e)
        case Ok(ws) => Ok([w] + ws)
  }

  /** The calls of a valid bulk text: when all of them succeed the answered
      words go first, in request order, and the bulk form closes; a failed
      call keeps the words and shows a message. */
  function SendBulk(f: Form, reqs: seq<WordRequest>, add: WordRequest -> Result<Word>): (r: Form)
    ensures r.bulkError == f.bulkError
    ensures (forall i :: 0 <= i < |reqs| ==> add(reqs[i]).Ok?) ==>
      && |r.added| == |reqs| + |f.added|
      && (forall i :: 0 <= i < |reqs| ==> r.added[i] == add(reqs[i]).value)
      && r.added[|reqs|..] == f.added
      && r.bulkText == "" && !r.bulkMode && r.error.None?
    ensures (exists i :: 0 <= i < |reqs| && add(reqs[i]).Err?) ==>
      r.added == f.added && r.error == Some(BulkAddFailed)
  {
    match AddAll(reqs, add)
    case Ok(ws) =>
      assert (ws + f.added)[|ws|..] == f.added;
      f.(added := ws + f.added, bulkText := "", bulkMode := false, error := None)
    case Err(_) => f.(error := Some(BulkAddFailed))
  }

  /** `handleAddBulkWords`: one `addWord` call per non-blank line, sent only
      for valid text; invalid text only sets the bulk error. */
  function AddBulk(f: Form, add: WordRequest -> Result<Word>): (r: Form)
    ensures r.bulkError == ErrorText(ValidateBulk(f.bulkText))
    ensures ValidateBulk(f.bulkText).Some? ==> r.added == f.added && r.bulkText == f.bulkText
    ensures ValidateBulk(f.bulkText).None? ==>
      r == SendBulk(f.(bulkError := ""), BulkRequests(f.listId, f.bulkText), add)
  {
    var checked := f.(bulkError := ErrorText(ValidateBulk(f.bulkText)));
    if ValidateBulk(f.bulkText).Some? then checked
    else SendBulk(checked, BulkRequests(f.listId, f.bulkText), add)
  }

  /** A valid bulk text whose calls all succeed adds exactly one word per
      non-blank line, in line order, in front of the words added before:
      word i is the answer to the request parsed from line i. */
  lemma BulkAddsOnePerLine(f: Form, add: WordRequest -> Result<Word>)
    requires ValidateBulk(f.bulkText).None?
    requires forall i :: 0 <= i < |BulkLines(f.bulkText)| ==> add(LineRequest(f.listId, BulkLines(f.bulkText)[i])).Ok?
    ensures var r := AddBulk(f, add);
      && |BulkLines(f.bulkText)| > 0
      && |r.added| == |BulkLines(f.bulkText)| + |f.added|
      && (forall i :: 0 <= i < |BulkLines(f.bulkText)| ==>
            r.added[i] == add(LineRequest(f.listId, BulkLines(f.bulkText)[i])).value)
      && r.added[|BulkLines(f.bulkText)|..] == f.added
  {
    SendLinesAdded(f.(bulkError := ""), f.listId, BulkLines(f.bulkText), add);
  }

  /** Sending one request per line, all answered, puts the answers first. */
  lemma SendLinesAdded(f: Form, listId: string, lines: seq<string>, add: WordRequest -> Result<Word>)
    requires forall i :: 0 <= i < |lines| ==> add(LineRequest(listId, lines[i])).Ok?
    ensures var r := SendBulk(f, LineRequests(listId, lines), add);
      && |r.added| == |lines| + |f.added|
      && (forall i :: 0 <= i < |lines| ==> r.added[i] == add(LineRequest(listId, lines[i])).value)
      && r.added[|lines|..] == f.added
  {
    var reqs := LineRequests(listId, lines);
    forall i | 0 <= i < |reqs| ensures add(reqs[i]).Ok? {
      assert reqs[i] == LineRequest(listId, lines[i]);
    }
  }

  /** `handleDeleteWord`: only the entries with that id go. */
  function Delete(f: Form, id: string, succeeded: bool): (r: Form)
    ensures !succeeded ==> r == f
    ensures succeeded ==> r.added == ListDetails.RemoveById(f.added, id)
    ensures succeeded ==> forall i :: 0 <= i < |r.added| ==> r.added[i].id != id
  {
    if succeeded then f.(added := ListDetails.RemoveById(f.added, id)) else f
  }
}
