/** The list details screen (src/screens/details/ListDetailsScreen.tsx): the
    filtered and sorted view of a list's words, and the edits that change the
    list and its words. API answers are inputs. */
module ListDetails {
  import opened Base
  import opened Types
  import opened Sorting
  import Api

  datatype WordSort = ByDate | Alphabetical

  const ListNameRequired := "Liste adı gereklidir."
  const ListUpdateFailed := "Liste güncellenirken bir hata oluştu."
  const WordFieldsRequired := "Kelime ve anlam gereklidir."
  const WordUpdateFailed := "Kelime güncellenirken bir hata oluştu."
  const WordDeleteFailed := "Kelime silinirken bir hata oluştu."

  /** The search box test: the lower-cased query occurs in the value, the
      meaning, or a non-empty context, each lower-cased. */
  predicate Matches(w: Word, query: string) {
    var q := Lower(query);
    Contains(Lower(w.value), q) || Contains(Lower(w.meaning), q)
    || (Truthy(w.context) && Contains(Lower(w.context.value), q))
  }

  /** Alphabetical by value, otherwise newest first. */
  function Order(o: WordSort): (Word, Word) -> bool {
    match o
    case Alphabetical => (a: Word, b: Word) => LexLe(a.value, b.value)
    case ByDate => (a: Word, b: Word) => b.createdAt <= a.createdAt
  }

  lemma OrderLaws(o: WordSort)
    ensures Total(Order(o)) && Transitive(Order(o))
  {
    if o == Alphabetical {
      forall a: Word, b: Word ensures Order(o)(a, b) || Order(o)(b, a) {
        LexLeTotal(a.value, b.value);
      }
      forall a: Word, b: Word, c: Word | Order(o)(a, b) && Order(o)(b, c)
        ensures Order(o)(a, c)
      {
        LexLeTransitive(a.value, b.value, c.value);
      }
    }
  }

  function FilterWords(words: seq<Word>, query: string): (r: seq<Word>)
    ensures query == "" ==> r == words
    ensures query != "" ==> r == Filter(words, (w: Word) => Matches(w, query))
  {
    if query != "" then Filter(words, (w: Word) => Matches(w, query)) else words
  }

  /** `filterAndSortWords`. */
  function FilterAndSort(words: seq<Word>, query: string, sort: WordSort): (r: seq<Word>)
    ensures multiset(r) == multiset(FilterWords(words, query))
    ensures forall i, j :: 0 <= i < j < |r| ==> Order(sort)(r[i], r[j])
  {
    var filtered := FilterWords(words, query);
    var r := SortBy(filtered, Order(sort));
    OrderLaws(sort);
    SortBySorted(filtered, Order(sort));
    SortedPairwise(r, Order(sort));
    r
  }

  /** A word is shown exactly when it is in the list and passes the search box;
      by date the newest come first, alphabetically the values ascend. */
  lemma FilterAndSortMeaning(words: seq<Word>, query: string, sort: WordSort, w: Word)
    ensures w in FilterAndSort(words, query, sort) <==> w in words && (query == "" || Matches(w, query))
    ensures sort == ByDate ==> var r := FilterAndSort(words, query, sort);
      forall i, j :: 0 <= i < j < |r| ==> r[i].createdAt >= r[j].createdAt
    ensures sort == Alphabetical ==> var r := FilterAndSort(words, query, sort);
      forall i, j :: 0 <= i < j < |r| ==> LexLe(r[i].value, r[j].value)
  {
    ShownIff(words, query, sort, w);
    var r := FilterAndSort(words, query, sort);
    assert forall i, j :: 0 <= i < j < |r| ==> Order(sort)(r[i], r[j]);
  }

  lemma ShownIff(words: seq<Word>, query: string, sort: WordSort, w: Word)
    ensures w in FilterAndSort(words, query, sort) <==> w in FilterWords(words, query)
    ensures w in FilterWords(words, query) <==> w in words && (query == "" || Matches(w, query))
  {
    var r := FilterAndSort(words, query, sort);
    var f := FilterWords(words, query);
    assert w in r <==> w in multiset(r);
    assert w in f <==> w in multiset(f);
    if query != "" && w in words && Matches(w, query) {
      var i :| 0 <= i < |words| && words[i] == w;
    }
  }

  // ---------------------------------------------------------------------------
  // Word list edits

  /** `words.map(w => w.id === u.id ? u : w)`. */
  function ReplaceById(words: seq<Word>, u: Word): (r: seq<Word>)
    ensures |r| == |words|
    ensures forall i :: 0 <= i < |words| && words[i].id != u.id ==> r[i] == words[i]
    ensures forall i :: 0 <= i < |words| && words[i].id == u.id ==> r[i] == u
    ensures forall i :: 0 <= i < |words| ==> r[i].id == words[i].id
  {
    if |words| == 0 then []
    else [if words[0].id == u.id then u else words[0]] + ReplaceById(words[1..], u)
  }

  /** The test `words.filter` applies when a word is deleted. */
  function OtherId(id: string): Word -> bool {
    (w: Word) => w.id != id
  }

  /** `words.filter(w => w.id !== id)`: every copy of every other word stays,
      and no word with the id does. */
  function RemoveById(words: seq<Word>, id: string): (r: seq<Word>)
    ensures forall i :: 0 <= i < |r| ==> r[i].id != id
    ensures forall i :: 0 <= i < |words| && words[i].id != id ==> words[i] in r
    ensures forall i :: 0 <= i < |r| ==> r[i] in words
    ensures forall w: Word :: multiset(r)[w] == if w.id == id then 0 else multiset(words)[w]
  {
    FilterCountAll(words, OtherId(id));
    Filter(words, OtherId(id))
  }

  /** The kept words stay in their order: removing from a concatenation removes
      from each part in turn, and a single word is kept exactly when its id differs. */
  lemma RemoveByIdOrder(a: seq<Word>, b: seq<Word>, w: Word, id: string)
    ensures RemoveById(a + b, id) == RemoveById(a, id) + RemoveById(b, id)
    ensures RemoveById([w], id) == if w.id == id then [] else [w]
  {
    FilterAppend(a, b, OtherId(id));
    FilterOne(w, OtherId(id));
  }

  /** Replacing with the same word twice is the same as once, and removing
      after replacing is the same as removing. */
  lemma {:induction false} ReplaceRemoveLaws(words: seq<Word>, u: Word)
    ensures ReplaceById(ReplaceById(words, u), u) == ReplaceById(words, u)
    ensures RemoveById(ReplaceById(words, u), u.id) == RemoveById(words, u.id)
  {
    if |words| > 0 {
      ReplaceRemoveLaws(words[1..], u);
      var r := ReplaceById(words, u);
      assert r[1..] == ReplaceById(words[1..], u);
    }
  }

  /** Removing an id no word has changes nothing. */
  lemma {:induction false} RemoveKeepsOthers(words: seq<Word>, id: string)
    requires forall i :: 0 <= i < |words| ==> words[i].id != id
    ensures RemoveById(words, id) == words
  {
    FilterKeepsAll(words, OtherId(id));
  }

  // ---------------------------------------------------------------------------
  // The screen

  datatype Screen = Screen(
    listId: string,
    list: Option<WordList>,
    words: seq<Word>,
    shown: seq<Word>,
    query: string,
    sort: WordSort,
    alert: Option<string>)

  /** The filtering effect: it runs only while the list has words. */
  function Refresh(s: Screen): (r: Screen)
    ensures |s.words| > 0 ==> r == s.(shown := FilterAndSort(s.words, s.query, s.sort))
    ensures |s.words| == 0 ==> r == s
  {
    if |s.words| > 0 then s.(shown := FilterAndSort(s.words, s.query, s.sort)) else s
  }

  /** The query is stored and the filtering effect recomputes the view. */
  function ChangeQuery(s: Screen, q: string): (r: Screen)
    ensures r.query == q && r.words == s.words && r.sort == s.sort
    ensures |s.words| > 0 ==> r.shown == FilterAndSort(s.words, q, s.sort)
    ensures |s.words| == 0 ==> r.shown == s.shown
  {
    Refresh(s.(query := q))
  }

  /** The sort is stored and the filtering effect recomputes the view. */
  function ChangeSort(s: Screen, o: WordSort): (r: Screen)
    ensures r.sort == o && r.words == s.words && r.query == s.query
    ensures |s.words| > 0 ==> r.shown == FilterAndSort(s.words, s.query, o)
    ensures |s.words| == 0 ==> r.shown == s.shown
  {
    Refresh(s.(sort := o))
  }

  /** `handleEditList`: a blank name stops before any call; otherwise the list
      is replaced by the answer of `updateList` with all four fields. */
  function EditList(s: Screen, name: string, description: string, context: string, source: string,
                    token: Option<string>, stored: seq<WordList>): (r: Screen)
    ensures Blank(name) ==> r == s.(alert := Some(ListNameRequired))
    ensures !Blank(name) ==>
      var answer := Api.UpdateList(token, stored, s.listId, Api.ListPatch(name, Some(description), Some(context), Some(source)));
      && (answer.Ok? ==> r == s.(list := Some(answer.value)) && r.list.value.name == name && r.list.value.description == description)
      && (answer.Err? ==> r == s.(alert := Some(ListUpdateFailed)))
  {
    if Blank(name) then s.(alert := Some(ListNameRequired))
    else
      match Api.UpdateList(token, stored, s.listId, Api.ListPatch(name, Some(description), Some(context), Some(source)))
      case Ok(l) => s.(list := Some(l))
      case Err(_) => s.(alert := Some(ListUpdateFailed))
  }

  /** `handleSaveEditedWord`: nothing without a word being edited; a blank
      value or meaning is refused; otherwise the answer replaces the word
      with its id. */
  function SaveEditedWord(s: Screen, editing: Option<Word>, value: string, meaning: string, answer: Result<Word>): (r: Screen)
    ensures editing.None? ==> r == s
    ensures editing.Some? && (Blank(value) || Blank(meaning)) ==> r == s.(alert := Some(WordFieldsRequired))
    ensures editing.Some? && !Blank(value) && !Blank(meaning) && answer.Err? ==> r == s.(alert := Some(WordUpdateFailed))
    ensures editing.Some? && !Blank(value) && !Blank(meaning) && answer.Ok? ==>
      r.words == ReplaceById(s.words, answer.value)
  {
    if editing.None? then s
    else if Blank(value) || Blank(meaning) then s.(alert := Some(WordFieldsRequired))
    else
      match answer
      case Ok(u) => Refresh(s.(words := ReplaceById(s.words, u)))
      case Err(_) => s.(alert := Some(WordUpdateFailed))
  }

  /** `handleDeleteWord`: with a (non-empty) id and a successful call, every word with that id goes. */
  function DeleteWord(s: Screen, id: Option<string>, succeeded: bool): (r: Screen)
    ensures !Truthy(id) ==> r == s
    ensures Truthy(id) && !succeeded ==> r == s.(alert := Some(WordDeleteFailed))
    ensures Truthy(id) && succeeded ==> r.words == RemoveById(s.words, id.value)
  {
    if !Truthy(id) then s
    else if !succeeded then s.(alert := Some(WordDeleteFailed))
    else Refresh(s.(words := RemoveById(s.words, id.value)))
  }

  /** Deleting the only word leaves the previous view on screen: the effect
      does not run for an empty list. */
  lemma DeletingLastWordKeepsView(s: Screen, w: Word)
    requires s.words == [w] && w.id != ""
    ensures DeleteWord(s, Some(w.id), true).words == []
    ensures DeleteWord(s, Some(w.id), true).shown == s.shown
  {
    RemoveOnlyWord(w);
    var t := s.(words := RemoveById(s.words, w.id));
    assert t.words == [] && t.shown == s.shown;
    assert DeleteWord(s, Some(w.id), true) == Refresh(t);
  }

  lemma RemoveOnlyWord(w: Word)
    ensures RemoveById([w], w.id) == []
  {
  }
}
