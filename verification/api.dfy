/** The parts of the API layer (src/api/apiService.ts) whose logic the screens
    depend on. Stored data (the lists, the word catalogue, the current settings)
    and the stored token are parameters; storage and network are not modelled. */
module Api {
  import opened Base
  import opened Types

  const NotAuthenticated := "Not authenticated"
  const ListNotFound := "Liste bulunamadı"

  /** `if (!token) throw ...`: a missing or empty token is rejected. */
  predicate Authorized(token: Option<string>) {
    Truthy(token)
  }

  // ---------------------------------------------------------------------------
  // Lists

  /** Position of the first list with the given id, or -1 (`findIndex`). */
  function FindList(lists: seq<WordList>, id: string): (r: int)
    ensures -1 <= r < |lists|
    ensures r >= 0 ==> lists[r].id == id && forall j :: 0 <= j < r ==> lists[j].id != id
    ensures r == -1 ==> forall j :: 0 <= j < |lists| ==> lists[j].id != id
  {
    if |lists| == 0 then -1
    else if lists[0].id == id then 0
    else
      var k := FindList(lists[1..], id);
      if k == -1 then -1 else k + 1
  }

  /** `getListById`. */
  function GetListById(token: Option<string>, lists: seq<WordList>, id: string): (r: Result<WordList>)
    ensures !Authorized(token) ==> r == Err(NotAuthenticated)
    ensures Authorized(token) && (exists j :: 0 <= j < |lists| && lists[j].id == id) ==>
      r.Ok? && r.value in lists && r.value.id == id
    ensures Authorized(token) && FindList(lists, id) >= 0 ==> r == Ok(lists[FindList(lists, id)])
    ensures Authorized(token) && (forall j :: 0 <= j < |lists| ==> lists[j].id != id) ==>
      r == Err(ListNotFound)
  {
    if !Authorized(token) then Err(NotAuthenticated)
    else
      var k := FindList(lists, id);
      if k == -1 then Err(ListNotFound) else Ok(lists[k])
  }

  /** The fields `updateList` accepts; a missing optional field is absent from the object. */
  datatype ListPatch = ListPatch(name: string, description: Option<string>, context: Option<string>, source: Option<string>)

  /** `{ ...list, ...patch }`. */
  function MergeList(l: WordList, p: ListPatch): (r: WordList)
    ensures r.id == l.id && r.createdAt == l.createdAt && r.wordCount == l.wordCount
    ensures r.progress == l.progress && r.language == l.language
    ensures r.name == p.name
    ensures r.description == (if p.description.Some? then p.description.value else l.description)
    ensures r.context == (if p.context.Some? then p.context else l.context)
    ensures r.source == (if p.source.Some? then p.source else l.source)
  {
    l.(name := p.name,
       description := if p.description.Some? then p.description.value else l.description,
       context := if p.context.Some? then p.context else l.context,
       source := if p.source.Some? then p.source else l.source)
  }

  /** `updateList`: the stored list with the given fields laid over it. */
  function UpdateList(token: Option<string>, lists: seq<WordList>, id: string, p: ListPatch): (r: Result<WordList>)
    ensures !Authorized(token) ==> r == Err(NotAuthenticated)
    ensures Authorized(token) && (forall j :: 0 <= j < |lists| ==> lists[j].id != id) ==> r == Err(ListNotFound)
    ensures r.Ok? ==> exists j :: 0 <= j < |lists| && lists[j].id == id && r.value == MergeList(lists[j], p)
    ensures Authorized(token) && FindList(lists, id) >= 0 ==> r == Ok(MergeList(lists[FindList(lists, id)], p))
  {
    if !Authorized(token) then Err(NotAuthenticated)
    else
      var k := FindList(lists, id);
      if k == -1 then Err(ListNotFound) else Ok(MergeList(lists[k], p))
  }

  /** Laying the same fields over a list a second time changes nothing more. */
  lemma MergeListIdempotent(l: WordList, p: ListPatch)
    ensures MergeList(MergeList(l, p), p) == MergeList(l, p)
  {
  }

  // ---------------------------------------------------------------------------
  // Global search

  datatype SearchFilter = All | ListsOnly | WordsOnly
  datatype SearchSort = Relevance | ByDate
  datatype ResultKind = ListHit | WordHit

  datatype SearchResult = SearchResult(
    kind: ResultKind,
    id: string,
    title: string,
    subtitle: string,
    context: Option<string>,
    listId: Option<string>,
    listName: Option<string>)

  /** The list test of `search`: the query occurs in the name, or in a non-empty description, ignoring case. */
  predicate ListMatches(l: WordList, query: string) {
    Contains(Lower(l.name), Lower(query))
    || (l.description != "" && Contains(Lower(l.description), Lower(query)))
  }

  function ListResult(l: WordList): (r: SearchResult)
    ensures r.kind == ListHit && r.id == l.id && r.title == l.name
  {
    SearchResult(ListHit, l.id, l.name, IntToString(l.wordCount) + " kelime", Some(l.description), None, None)
  }

  /** The list test as the predicate handed to `filter`. */
  function MatchesQuery(query: string): WordList -> bool {
    l => ListMatches(l, query)
  }

  /** The lists `search` reports, in their stored order. */
  function MatchingLists(lists: seq<WordList>, query: string): (r: seq<WordList>)
    ensures |r| <= |lists|
    ensures forall l :: l in r <==> l in lists && ListMatches(l, query)
  {
    var r := Filter(lists, MatchesQuery(query));
    forall l | l in lists && ListMatches(l, query) ensures l in r {
      var k :| 0 <= k < |lists| && lists[k] == l;
    }
    r
  }

  /** The matching lists keep the stored order: the matches of a concatenation
      are the matches of each part in turn, and a single list is kept exactly
      when it matches. */
  lemma MatchingListsOrder(a: seq<WordList>, b: seq<WordList>, l: WordList, query: string)
    ensures MatchingLists(a + b, query) == MatchingLists(a, query) + MatchingLists(b, query)
    ensures MatchingLists([l], query) == if ListMatches(l, query) then [l] else []
  {
    FilterAppend(a, b, MatchesQuery(query));
    assert [l][1..] == [];
  }

  /** One list hit per matching list, in the same order. */
  function ListResults(lists: seq<WordList>, query: string): (r: seq<SearchResult>)
    ensures |r| == |MatchingLists(lists, query)| <= |lists|
    ensures forall i :: 0 <= i < |r| ==> r[i] == ListResult(MatchingLists(lists, query)[i])
  {
    var m := MatchingLists(lists, query);
    seq(|m|, i requires 0 <= i < |m| => ListResult(m[i]))
  }

  const HomeListId := "1"
  const HomeListName := "Temel İngilizce"

  /** The word hits `search` returns: three fixed entries, each triggered by
      either of two keywords occurring in the lower-cased query. */
  function WordResults(query: string): (r: seq<SearchResult>)
    ensures |r| <= 3
    ensures forall i :: 0 <= i < |r| ==> r[i].kind == WordHit && r[i].listId == Some(HomeListId)
  {
    var q := Lower(query);
    (if Contains(q, "elma") || Contains(q, "apple") then
       [SearchResult(WordHit, "word1", "apple", "elma", Some("I eat an apple every day."), Some(HomeListId), Some(HomeListName))]
     else [])
    + (if Contains(q, "kitap") || Contains(q, "book") then
       [SearchResult(WordHit, "word2", "book", "kitap", Some("I read a book before bed."), Some(HomeListId), Some(HomeListName))]
     else [])
    + (if Contains(q, "bilgisayar") || Contains(q, "computer") then
       [SearchResult(WordHit, "word3", "computer", "bilgisayar", None, Some(HomeListId), Some(HomeListName))]
     else [])
  }

  /** `search`: list hits (unless only words are wanted) followed by word hits
      (unless only lists are wanted); by date, the same results reversed. */
  function Search(token: Option<string>, lists: seq<WordList>, query: string, filter: SearchFilter, sortBy: SearchSort): (r: Result<seq<SearchResult>>)
    ensures !Authorized(token) <==> r == Err(NotAuthenticated)
    ensures r.Ok? && filter == ListsOnly ==> forall i :: 0 <= i < |r.value| ==> r.value[i].kind == ListHit
    ensures r.Ok? && filter == WordsOnly ==> forall i :: 0 <= i < |r.value| ==> r.value[i].kind == WordHit
    ensures r.Ok? && sortBy == Relevance && filter != WordsOnly ==>
      |ListResults(lists, query)| <= |r.value| && r.value[..|ListResults(lists, query)|] == ListResults(lists, query)
    ensures r.Ok? && sortBy == Relevance ==>
      r.value == (if filter != WordsOnly then ListResults(lists, query) else [])
               + (if filter != ListsOnly then WordResults(query) else [])
  {
    if !Authorized(token) then Err(NotAuthenticated)
    else
      var hits := (if filter != WordsOnly then ListResults(lists, query) else [])
                + (if filter != ListsOnly then WordResults(query) else []);
      Ok(if sortBy == ByDate then Reverse(hits) else hits)
  }

  /** Sorting by date gives exactly the relevance order reversed. */
  lemma SearchByDateReverses(token: Option<string>, lists: seq<WordList>, query: string, filter: SearchFilter)
    requires Authorized(token)
    ensures Search(token, lists, query, filter, ByDate).value == Reverse(Search(token, lists, query, filter, Relevance).value)
    ensures Reverse(Search(token, lists, query, filter, ByDate).value) == Search(token, lists, query, filter, Relevance).value
  {
    var hits := Search(token, lists, query, filter, Relevance).value;
    ReverseReverse(hits);
  }

  /** With lists wanted, a list appears among the results exactly when it matches the query. */
  lemma ListFoundIff(token: Option<string>, lists: seq<WordList>, query: string, filter: SearchFilter, sortBy: SearchSort, l: WordList)
    requires Authorized(token) && filter != WordsOnly
    requires l in lists
    ensures ListResult(l) in Search(token, lists, query, filter, sortBy).value <==> ListMatches(l, query)
  {
    ListHitsInSearch(token, lists, query, filter, sortBy, ListResult(l));
    ListHitIff(lists, query, l);
  }

  /** A list hit is in the search results exactly when it is among the list hits. */
  lemma ListHitsInSearch(token: Option<string>, lists: seq<WordList>, query: string, filter: SearchFilter, sortBy: SearchSort, x: SearchResult)
    requires Authorized(token) && filter != WordsOnly && x.kind == ListHit
    ensures x in Search(token, lists, query, filter, sortBy).value <==> x in ListResults(lists, query)
  {
    var lh := ListResults(lists, query);
    var w := if filter != ListsOnly then WordResults(query) else [];
    var hits := lh + w;
    var r := Search(token, lists, query, filter, sortBy).value;
    assert r == if sortBy == ByDate then Reverse(hits) else hits;
    assert multiset(r) == multiset(hits) by {
      if sortBy == ByDate { ReverseMultiset(hits); }
    }
    assert x in r <==> x in multiset(r);
    assert x in hits <==> x in multiset(hits);
    assert x !in w;
  }

  /** A stored list's hit is among the list hits exactly when the list matches. */
  lemma ListHitIff(lists: seq<WordList>, query: string, l: WordList)
    requires l in lists
    ensures ListResult(l) in ListResults(lists, query) <==> ListMatches(l, query)
  {
    var matching := MatchingLists(lists, query);
    var lh := ListResults(lists, query);
    if ListMatches(l, query) {
      var j :| 0 <= j < |matching| && matching[j] == l;
      assert lh[j] == ListResult(l);
    }
    if ListResult(l) in lh {
      var j :| 0 <= j < |lh| && lh[j] == ListResult(l);
      assert ListResult(matching[j]) == ListResult(l);
      ListResultDeterminesMatch(matching[j], l, query);
    }
  }

  lemma ReverseMultiset<T>(s: seq<T>)
    ensures multiset(Reverse(s)) == multiset(s)
  {
    if |s| > 0 {
      assert s == [s[0]] + s[1..];
      assert Reverse(s) == Reverse(s[1..]) + [s[0]];
      ReverseMultiset(s[1..]);
    }
  }

  /** Two lists with the same result entry agree on the fields the match reads. */
  lemma ListResultDeterminesMatch(a: WordList, b: WordList, query: string)
    requires ListResult(a) == ListResult(b)
    requires ListMatches(a, query)
    ensures ListMatches(b, query)
  {
    assert a.name == ListResult(a).title;
    assert a.description == ListResult(a).context.value;
  }

  // ---------------------------------------------------------------------------
  // Word search

  predicate WordMatches(w: Word, query: string) {
    Contains(w.value, query) || Contains(w.meaning, query)
  }

  /** `searchWords`: the catalogue entries whose value or meaning contains the query, case-sensitively. */
  function SearchWords(token: Option<string>, catalogue: seq<Word>, query: string): (r: Result<seq<Word>>)
    ensures !Authorized(token) <==> r == Err(NotAuthenticated)
    ensures r.Ok? ==> forall i :: 0 <= i < |r.value| ==>
      r.value[i] in catalogue && (Contains(r.value[i].value, query) || Contains(r.value[i].meaning, query))
    ensures r.Ok? ==> forall i :: 0 <= i < |catalogue| && (Contains(catalogue[i].value, query) || Contains(catalogue[i].meaning, query)) ==>
      catalogue[i] in r.value
  {
    if !Authorized(token) then Err(NotAuthenticated)
    else Ok(Filter(catalogue, (w: Word) => WordMatches(w, query)))
  }

  /** The empty query matches every word. */
  lemma SearchWordsEmptyQuery(token: Option<string>, catalogue: seq<Word>)
    requires Authorized(token)
    ensures SearchWords(token, catalogue, "").value == catalogue
  {
    forall i | 0 <= i < |catalogue| ensures WordMatches(catalogue[i], "") {
      ContainsEmpty(catalogue[i].value);
    }
    FilterKeepsAll(catalogue, (w: Word) => WordMatches(w, ""));
  }

  // ---------------------------------------------------------------------------
  // Settings

  /** The settings `getUserSettings` returns. */
  const StoredSettings := Settings(Dark, true, "en", 15, true)

  /** A `Partial<Settings>`: absent fields are `None`. */
  datatype SettingsPatch = SettingsPatch(
    theme: Option<ThemeType>,
    notifications: Option<bool>,
    defaultLanguage: Option<string>,
    sessionLength: Option<int>,
    autoPlayPronunciation: Option<bool>)

  const NoChange := SettingsPatch(None, None, None, None, None)

  function Over<T>(p: Option<T>, v: T): T {
    if p.Some? then p.value else v
  }

  /** `{ ...current, ...patch }`. */
  function MergeSettings(s: Settings, p: SettingsPatch): (r: Settings)
    ensures p.theme.Some? ==> r.theme == p.theme.value
    ensures p.theme.None? ==> r.theme == s.theme
    ensures p.notifications.Some? ==> r.notifications == p.notifications.value
    ensures p.notifications.None? ==> r.notifications == s.notifications
    ensures p.defaultLanguage.Some? ==> r.defaultLanguage == p.defaultLanguage.value
    ensures p.defaultLanguage.None? ==> r.defaultLanguage == s.defaultLanguage
    ensures p.sessionLength.Some? ==> r.sessionLength == p.sessionLength.value
    ensures p.sessionLength.None? ==> r.sessionLength == s.sessionLength
    ensures p.autoPlayPronunciation.Some? ==> r.autoPlayPronunciation == p.autoPlayPronunciation.value
    ensures p.autoPlayPronunciation.None? ==> r.autoPlayPronunciation == s.autoPlayPronunciation
  {
    Settings(Over(p.theme, s.theme), Over(p.notifications, s.notifications),
             Over(p.defaultLanguage, s.defaultLanguage), Over(p.sessionLength, s.sessionLength),
             Over(p.autoPlayPronunciation, s.autoPlayPronunciation))
  }

  function GetUserSettings(token: Option<string>): (r: Result<Settings>)
    ensures Authorized(token) <==> r == Ok(StoredSettings)
  {
    if !Authorized(token) then Err(NotAuthenticated) else Ok(StoredSettings)
  }

  /** `updateUserSettings`: the stored settings overridden by the partial. */
  function UpdateUserSettings(token: Option<string>, p: SettingsPatch): (r: Result<Settings>)
    ensures !Authorized(token) <==> r == Err(NotAuthenticated)
    ensures r.Ok? ==> r.value == MergeSettings(StoredSettings, p)
  {
    match GetUserSettings(token)
    case Err(e) => Err(e)
    case Ok(current) => Ok(MergeSettings(current, p))
  }

  /** An empty partial returns the stored settings; a full one replaces them. */
  lemma MergeSettingsLaws(s: Settings, t: Settings)
    ensures MergeSettings(s, NoChange) == s
    ensures MergeSettings(s, SettingsPatch(Some(t.theme), Some(t.notifications), Some(t.defaultLanguage),
                                           Some(t.sessionLength), Some(t.autoPlayPronunciation))) == t
  {
  }
}
