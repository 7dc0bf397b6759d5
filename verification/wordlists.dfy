/** The word-lists screen (src/screens/lists/WordListsScreen.tsx): the lists
    shown are the fetched lists filtered by the search box and ordered by one
    of six sort options; every change recomputes the view from both settings. */
module WordLists {
  import opened Base
  import opened Types
  import opened Sorting

  datatype SortOption = NameAsc | NameDesc | DateAsc | DateDesc | WordsAsc | WordsDesc

  /** The search box test: the lower-cased query occurs in the lower-cased name or description. */
  predicate Matches(l: WordList, query: string) {
    Contains(Lower(l.name), Lower(query)) || Contains(Lower(l.description), Lower(query))
  }

  /** The comparator of each sort option, as `cmp(a, b) <= 0`. */
  function Order(o: SortOption): (WordList, WordList) -> bool {
    match o
    case NameAsc => (a: WordList, b: WordList) => LexLe(a.name, b.name)
    case NameDesc => (a: WordList, b: WordList) => LexLe(b.name, a.name)
    case DateAsc => (a: WordList, b: WordList) => a.createdAt <= b.createdAt
    case DateDesc => (a: WordList, b: WordList) => b.createdAt <= a.createdAt
    case WordsAsc => (a: WordList, b: WordList) => a.wordCount <= b.wordCount
    case WordsDesc => (a: WordList, b: WordList) => b.wordCount <= a.wordCount
  }

  lemma OrderTotal(o: SortOption)
    ensures Total(Order(o))
  {
    match o
    case NameAsc =>
      forall a: WordList, b: WordList ensures Order(o)(a, b) || Order(o)(b, a) {
        LexLeTotal(a.name, b.name);
      }
    case NameDesc =>
      forall a: WordList, b: WordList ensures Order(o)(a, b) || Order(o)(b, a) {
        LexLeTotal(a.name, b.name);
      }
    case _ =>
  }

  lemma OrderTransitive(o: SortOption)
    ensures Transitive(Order(o))
  {
    match o
    case NameAsc =>
      forall a: WordList, b: WordList, c: WordList | Order(o)(a, b) && Order(o)(b, c)
        ensures Order(o)(a, c)
      {
        LexLeTransitive(a.name, b.name, c.name);
      }
    case NameDesc =>
      forall a: WordList, b: WordList, c: WordList | Order(o)(a, b) && Order(o)(b, c)
        ensures Order(o)(a, c)
      {
        LexLeTransitive(c.name, b.name, a.name);
      }
    case _ =>
  }

  /** The filter step: an empty query keeps everything. */
  function FilterLists(data: seq<WordList>, query: string): (r: seq<WordList>)
    ensures query == "" ==> r == data
    ensures query != "" ==> r == Filter(data, (l: WordList) => Matches(l, query))
  {
    if query != "" then Filter(data, (l: WordList) => Matches(l, query)) else data
  }

  /** `applyFilters`: the filtered lists, reordered by the chosen comparator. */
  function ApplyFilters(data: seq<WordList>, query: string, sort: SortOption): (r: seq<WordList>)
    ensures multiset(r) == multiset(FilterLists(data, query))
    ensures forall i, j :: 0 <= i < j < |r| ==> Order(sort)(r[i], r[j])
  {
    var filtered := FilterLists(data, query);
    var r := SortBy(filtered, Order(sort));
    OrderTotal(sort);
    OrderTransitive(sort);
    SortBySorted(filtered, Order(sort));
    SortedPairwise(r, Order(sort));
    r
  }

  /** A list is shown exactly when it was fetched and passes the search box. */
  lemma ShownIff(data: seq<WordList>, query: string, sort: SortOption, l: WordList)
    ensures l in ApplyFilters(data, query, sort) <==> l in data && (query == "" || Matches(l, query))
  {
    var r := ApplyFilters(data, query, sort);
    var f := FilterLists(data, query);
    assert l in r <==> l in multiset(r);
    assert l in f <==> l in multiset(f);
    if query != "" && l in data && Matches(l, query) {
      var i :| 0 <= i < |data| && data[i] == l;
    }
  }

  /** The orders the options promise, stated field by field. */
  predicate InOrder(r: seq<WordList>, o: SortOption) {
    match o
    case WordsAsc => forall i, j :: 0 <= i < j < |r| ==> r[i].wordCount <= r[j].wordCount
    case WordsDesc => forall i, j :: 0 <= i < j < |r| ==> r[i].wordCount >= r[j].wordCount
    case DateAsc => forall i, j :: 0 <= i < j < |r| ==> r[i].createdAt <= r[j].createdAt
    case DateDesc => forall i, j :: 0 <= i < j < |r| ==> r[i].createdAt >= r[j].createdAt
    case NameAsc => forall i, j :: 0 <= i < j < |r| ==> LexLe(r[i].name, r[j].name)
    case NameDesc => forall i, j :: 0 <= i < j < |r| ==> LexLe(r[j].name, r[i].name)
  }

  lemma SortOptionMeaning(data: seq<WordList>, query: string, o: SortOption)
    ensures InOrder(ApplyFilters(data, query, o), o)
  {
    var r := ApplyFilters(data, query, o);
    assert forall i, j :: 0 <= i < j < |r| ==> Order(o)(r[i], r[j]);
  }

  // ---------------------------------------------------------------------------
  // The screen

  datatype Screen = Screen(lists: seq<WordList>, shown: seq<WordList>, query: string, sort: SortOption, error: Option<string>)

  /** The sort starts at newest first. */
  const Initial := Screen([], [], "", DateDesc, None)

  const FetchError := "Listeler yüklenirken bir hata oluştu."

  /** What is shown is always the view of the fetched lists under the current settings. */
  predicate Consistent(s: Screen) {
    s.shown == ApplyFilters(s.lists, s.query, s.sort)
  }

  /** `fetchLists`. */
  function Fetched(s: Screen, data: Result<seq<WordList>>): (r: Screen)
    ensures data.Ok? ==> r.lists == data.value && r.error == None && Consistent(r)
    ensures data.Err? ==> r == s.(error := Some(FetchError))
  {
    match data
    case Ok(d) => s.(lists := d, shown := ApplyFilters(d, s.query, s.sort), error := None)
    case Err(_) => s.(error := Some(FetchError))
  }

  /** `onChangeSearch`: the new query with the current sort. */
  function ChangeSearch(s: Screen, q: string): (r: Screen)
    ensures r.query == q && r.sort == s.sort && r.lists == s.lists && Consistent(r)
  {
    s.(query := q, shown := ApplyFilters(s.lists, q, s.sort))
  }

  /** `onChangeSort`: the new sort with the current query. */
  function ChangeSort(s: Screen, o: SortOption): (r: Screen)
    ensures r.sort == o && r.query == s.query && r.lists == s.lists && Consistent(r)
  {
    s.(sort := o, shown := ApplyFilters(s.lists, s.query, o))
  }

  /** Every event keeps the view consistent, starting from the empty screen. */
  lemma ConsistentAlways(s: Screen, data: Result<seq<WordList>>, q: string, o: SortOption)
    requires Consistent(s)
    ensures Consistent(Initial)
    ensures Consistent(Fetched(s, data)) && Consistent(ChangeSearch(s, q)) && Consistent(ChangeSort(s, o))
  {
  }
}
