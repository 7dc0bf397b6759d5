/** The search screen (src/screens/search/SearchScreen.tsx): the recent-query
    history, the blank-query guards, re-running a search when the filter or
    the sort changes, and where a selected result leads. */
module Search {
  import opened Base
  import opened Types
  import opened Api

  /** At most this many recent queries are kept. */
  const HistoryMax: nat := 10

  const SearchFailed := "Arama sırasında bir hata oluştu."

  predicate Unique(h: seq<string>) {
    forall i, j :: 0 <= i < j < |h| ==> h[i] != h[j]
  }

  /** The entries to keep when `query` moves to the front. */
  function Except(query: string): string -> bool {
    (h: string) => h != query
  }

  /** `saveToHistory`: a blank query is ignored; otherwise the query moves to
      the front, every older copy of it is dropped and the rest keep their
      order, cut to ten entries. */
  function SaveToHistory(history: seq<string>, query: string): (r: seq<string>)
    ensures Blank(query) ==> r == history
    ensures !Blank(query) ==>
      && 1 <= |r| <= HistoryMax
      && r[0] == query
      && (forall i :: 1 <= i < |r| ==> r[i] != query && r[i] in history)
  {
    if Blank(query) then history
    else Take([query] + Filter(history, Except(query)), HistoryMax)
  }

  /** Entries other than the query keep their relative order: what follows the query is a prefix of the old history without it. */
  lemma SaveKeepsOrder(history: seq<string>, query: string)
    requires !Blank(query)
    ensures var r := SaveToHistory(history, query);
      |r| - 1 <= |Filter(history, Except(query))| &&
      r[1..] == Filter(history, Except(query))[..|r| - 1]
  {
    TakeConsTail(query, Filter(history, Except(query)), HistoryMax);
  }

  lemma TakeConsTail(x: string, f: seq<string>, n: nat)
    requires n >= 1
    ensures var r := Take([x] + f, n); |r| >= 1 && |r| - 1 <= |f| && r[1..] == f[..|r| - 1]
  {
    var c := [x] + f;
    var r := Take(c, n);
    assert |r| >= 1 && r == c[..|r|];
    forall i | 0 <= i < |r| - 1 ensures r[1..][i] == f[i] {
      assert r[1..][i] == c[i + 1];
    }
  }

  /** Saving keeps a duplicate-free history duplicate-free. */
  lemma SavePreservesUnique(history: seq<string>, query: string)
    requires Unique(history)
    ensures Unique(SaveToHistory(history, query))
  {
    if !Blank(query) {
      var f := Filter(history, Except(query));
      FilterUnique(history, Except(query));
      var r := SaveToHistory(history, query);
      SaveKeepsOrder(history, query);
      forall i, j | 0 <= i < j < |r| ensures r[i] != r[j] {
        if i == 0 {
          assert r[j] != query;
        } else {
          assert r[i] == f[i - 1] && r[j] == f[j - 1];
          assert f[i - 1] != f[j - 1];
        }
      }
    }
  }

  lemma {:induction false} FilterUnique(s: seq<string>, p: string -> bool)
    requires Unique(s)
    ensures Unique(Filter(s, p))
  {
    if |s| > 0 {
      FilterUnique(s[1..], p);
      var rest := Filter(s[1..], p);
      assert s[0] !in s[1..];
      assert s[0] !in rest;
    }
  }

  /** Saving the same query twice gives the same history as saving it once. */
  lemma SaveIdempotent(history: seq<string>, query: string)
    ensures SaveToHistory(SaveToHistory(history, query), query) == SaveToHistory(history, query)
  {
    if !Blank(query) {
      SavedIsFixed(SaveToHistory(history, query), query);
    }
  }

  /** A history that already starts with the query, holds no other copy of it
      and fits the bound is left as it is by saving the query. */
  lemma SavedIsFixed(r: seq<string>, query: string)
    requires !Blank(query) && 1 <= |r| <= HistoryMax && r[0] == query
    requires forall i :: 1 <= i < |r| ==> r[i] != query
    ensures SaveToHistory(r, query) == r
  {
    var p := Except(query);
    var rest := r[1..];
    assert r == [query] + rest;
    assert forall i :: 0 <= i < |rest| ==> p(rest[i]);
    FilterKeepsAll(rest, p);
    FilterSkipsHead(query, rest, p);
    assert [query] + Filter(r, p) == r;
  }

  lemma FilterSkipsHead(x: string, rest: seq<string>, p: string -> bool)
    requires !p(x)
    ensures Filter([x] + rest, p) == Filter(rest, p)
  {
    assert ([x] + rest)[0] == x && ([x] + rest)[1..] == rest;
  }

  // ---------------------------------------------------------------------------
  // The screen

  datatype Screen = Screen(
    query: string,
    history: seq<string>,
    results: seq<SearchResult>,
    filter: SearchFilter,
    sortBy: SearchSort,
    error: Option<string>)

  const Initial := Screen("", [], [], All, Relevance, None)

  /** `handleSearch` with the filter and sort it reads: a blank query does
      nothing; otherwise the query is saved to the history first and the
      results (or the error) come from the API. */
  function RunSearch(s: Screen, token: Option<string>, lists: seq<WordList>, filter: SearchFilter, sortBy: SearchSort): (r: Screen)
    ensures Blank(s.query) ==> r == s
    ensures !Blank(s.query) ==> r.history == SaveToHistory(s.history, s.query) && r.history[0] == s.query
    ensures !Blank(s.query) && Authorized(token) ==>
      r.error == None && r.results == Api.Search(token, lists, s.query, filter, sortBy).value
    ensures !Blank(s.query) && !Authorized(token) ==> r.error == Some(SearchFailed) && r.results == s.results
    ensures r.query == s.query && r.filter == s.filter && r.sortBy == s.sortBy
  {
    if Blank(s.query) then s
    else
      var saved := s.(history := SaveToHistory(s.history, s.query), error := None);
      match Api.Search(token, lists, s.query, filter, sortBy)
      case Ok(hits) => saved.(results := hits)
      case Err(_) => saved.(error := Some(SearchFailed))
  }

  /** Submitting the search box: the search runs with the current settings. */
  function Submit(s: Screen, token: Option<string>, lists: seq<WordList>): (r: Screen)
    ensures Blank(s.query) ==> r == s
    ensures !Blank(s.query) && Authorized(token) ==> r.results == Api.Search(token, lists, s.query, s.filter, s.sortBy).value
  {
    RunSearch(s, token, lists, s.filter, s.sortBy)
  }

  /** `handleFilterChange` as written: the filter is stored, but the search it
      re-runs still reads the previous filter. */
  function ChangeFilterAsWritten(s: Screen, f: SearchFilter, token: Option<string>, lists: seq<WordList>): (r: Screen)
    ensures r.filter == f
    ensures Blank(s.query) ==> r == s.(filter := f)
    ensures !Blank(s.query) && Authorized(token) ==> r.results == Api.Search(token, lists, s.query, s.filter, s.sortBy).value
  {
    RunSearch(s, token, lists, s.filter, s.sortBy).(filter := f)
  }

  /** `handleFilterChange` as intended: the re-run uses the new filter. */
  function ChangeFilter(s: Screen, f: SearchFilter, token: Option<string>, lists: seq<WordList>): (r: Screen)
    ensures r.filter == f
    ensures Blank(s.query) ==> r == s.(filter := f)
    ensures !Blank(s.query) && Authorized(token) ==> r.results == Api.Search(token, lists, s.query, f, s.sortBy).value
  {
    Submit(s.(filter := f), token, lists)
  }

  /** `handleSortChange` as written, with the same stale read of the sort. */
  function ChangeSortAsWritten(s: Screen, o: SearchSort, token: Option<string>, lists: seq<WordList>): (r: Screen)
    ensures r.sortBy == o
    ensures Blank(s.query) ==> r == s.(sortBy := o)
    ensures !Blank(s.query) && Authorized(token) ==> r.results == Api.Search(token, lists, s.query, s.filter, s.sortBy).value
  {
    RunSearch(s, token, lists, s.filter, s.sortBy).(sortBy := o)
  }

  /** Switching from relevance to date re-runs the search in relevance order:
      the results shown are the reverse of what the intended handler shows, so
      the two differ whenever the first and the last result differ. */
  lemma StaleSortKeepsRelevanceOrder(s: Screen, token: Option<string>, lists: seq<WordList>)
    requires Authorized(token) && !Blank(s.query) && s.sortBy == Relevance
    ensures var r := ChangeSortAsWritten(s, ByDate, token, lists);
      && r.sortBy == ByDate
      && r.results == Api.Search(token, lists, s.query, s.filter, Relevance).value
      && r.results == Reverse(ChangeSort(s, ByDate, token, lists).results)
    ensures var r := ChangeSortAsWritten(s, ByDate, token, lists);
      |r.results| >= 2 && r.results[0] != r.results[|r.results| - 1] ==>
        r.results != ChangeSort(s, ByDate, token, lists).results
  {
    Api.SearchByDateReverses(token, lists, s.query, s.filter);
  }

  /** `handleSortChange` as intended. */
  function ChangeSort(s: Screen, o: SearchSort, token: Option<string>, lists: seq<WordList>): (r: Screen)
    ensures r.sortBy == o
    ensures Blank(s.query) ==> r == s.(sortBy := o)
    ensures !Blank(s.query) && Authorized(token) ==> r.results == Api.Search(token, lists, s.query, s.filter, o).value
  {
    Submit(s.(sortBy := o), token, lists)
  }

  /** The query "apple" is not blank and names one of the fixed words. */
  lemma AppleQuery()
    ensures !Blank("apple")
    ensures |Api.WordResults("apple")| > 0
  {
    AppleNotBlank();
    AppleLower();
    AppleContainsApple();
    AppleWordHit("apple");
  }

  lemma AppleContainsApple()
    ensures Contains("apple", "apple")
  {
    assert StartsWith("apple", "apple");
  }

  /** A query whose lower-cased form contains "apple" gets the apple word hit. */
  lemma AppleWordHit(q: string)
    requires Contains(Lower(q), "apple")
    ensures |Api.WordResults(q)| > 0
  {
  }

  lemma AppleNotBlank()
    ensures !Blank("apple")
  {
    VisibleStartNotBlank("apple");
  }

  lemma AppleLower()
    ensures Lower("apple") == "apple"
  {
    var q := Lower("apple");
    assert q[0] == 'a' && q[1] == 'p' && q[2] == 'p' && q[3] == 'l' && q[4] == 'e';
  }

  /** Switching from all results to lists only still shows word hits when the
      query names one of the fixed words: the re-run used the old filter. */
  lemma StaleFilterShowsWords(token: Option<string>, lists: seq<WordList>)
    requires Authorized(token)
    ensures var r := ChangeFilterAsWritten(Initial.(query := "apple"), ListsOnly, token, lists);
      r.filter == ListsOnly && exists i :: 0 <= i < |r.results| && r.results[i].kind == WordHit
  {
    AppleQuery();
    StaleFilterKeepsWordHits(Initial.(query := "apple"), token, lists);
  }

  /** In general: from all results, any query with a word hit keeps one after switching to lists only. */
  lemma StaleFilterKeepsWordHits(s: Screen, token: Option<string>, lists: seq<WordList>)
    requires Authorized(token) && !Blank(s.query) && s.filter == All && s.sortBy == Relevance
    requires |WordResults(s.query)| > 0
    ensures var r := ChangeFilterAsWritten(s, ListsOnly, token, lists);
      r.filter == ListsOnly && exists i :: 0 <= i < |r.results| && r.results[i].kind == WordHit
  {
    var hits := Api.Search(token, lists, s.query, All, Relevance).value;
    var r := ChangeFilterAsWritten(s, ListsOnly, token, lists);
    assert r.results == hits;
    var lh := ListResults(lists, s.query);
    var w := WordResults(s.query);
    assert hits == lh + w;
    assert hits[|lh|] == w[0];
  }

  /** With the intended handler, lists only means list hits only. */
  lemma ChangeFilterRespectsFilter(s: Screen, token: Option<string>, lists: seq<WordList>)
    requires Authorized(token) && !Blank(s.query)
    ensures forall i :: 0 <= i < |ChangeFilter(s, ListsOnly, token, lists).results| ==>
      ChangeFilter(s, ListsOnly, token, lists).results[i].kind == ListHit
  {
  }

  /** `clearHistory`. */
  function ClearHistory(s: Screen): (r: Screen)
    ensures r.history == [] && r == s.(history := [])
  {
    s.(history := [])
  }

  /** `handleResultSelect`: the list a result opens. A list opens itself; a
      word opens its list, or the empty id when it has none. */
  function Target(r: SearchResult): (t: string)
    ensures r.kind == ListHit ==> t == r.id
    ensures r.kind == WordHit && r.listId.Some? ==> t == r.listId.value
    ensures r.kind == WordHit && r.listId.None? ==> t == ""
  {
    if r.kind == ListHit then r.id
    else if Truthy(r.listId) then r.listId.value
    else ""
  }

  /** Every word hit of a search opens the list it belongs to. */
  lemma WordHitsOpenHomeList(token: Option<string>, lists: seq<WordList>, query: string, filter: SearchFilter, sortBy: SearchSort)
    requires Authorized(token)
    ensures var hits := Api.Search(token, lists, query, filter, sortBy).value;
      forall i :: 0 <= i < |hits| && hits[i].kind == WordHit ==> Target(hits[i]) == HomeListId
  {
    var hs := (if filter != WordsOnly then ListResults(lists, query) else [])
            + (if filter != ListsOnly then WordResults(query) else []);
    assert forall i :: 0 <= i < |hs| && hs[i].kind == WordHit ==> hs[i].listId == Some(HomeListId);
  }
}
