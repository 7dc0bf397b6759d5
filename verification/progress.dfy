/** The progress screen (src/screens/progress/ProgressTrackingScreen.tsx):
    which state it shows, and how the statistics become chart data — the
    list labels shortened to ten characters and the pie slices coloured in
    turn. The API answers are inputs; the charts themselves are left out. */
module Progress {
  import opened Base
  import opened Types

  datatype ListProgress = ListProgress(id: string, name: string, progress: real)

  datatype WordStat = WordStat(status: string, count: int)

  /** The parts of the statistics the charts use. */
  datatype Stats = Stats(
    dates: seq<string>,
    learningScores: seq<real>,
    testScores: seq<real>,
    listProgress: seq<ListProgress>,
    wordStats: seq<WordStat>)

  const FetchFailed := "Veri yüklenirken bir hata oluştu."

  // ---------------------------------------------------------------------------
  // Chart labels

  /** A list's bar label: its first ten characters, with '...' when it had more. */
  function Label(name: string): (r: string)
    ensures |name| <= 10 ==> r == name
    ensures |name| > 10 ==> |r| == 13 && r[..10] == name[..10] && r[10..] == "..."
    ensures |r| <= 13
  {
    name[..Min(|name|, 10)] + (if |name| > 10 then "..." else "")
  }

  /** Shortening a label again changes nothing. */
  lemma LabelIdempotent(name: string)
    ensures Label(Label(name)) == Label(name)
  {
    if |name| > 10 {
      var l := Label(name);
      assert l[..10] == name[..10];
      assert Label(l) == l[..10] + "...";
    }
  }

  /** Two names show the same label only when their first ten characters agree
      and both or neither are longer than ten. */
  lemma LabelDistinguishes(a: string, b: string)
    requires Label(a) == Label(b)
    ensures a[..Min(|a|, 10)] == b[..Min(|b|, 10)]
    ensures |a| > 10 <==> |b| > 10
  {
    if |a| > 10 && |b| > 10 {
      assert Label(a)[..10] == a[..10] && Label(b)[..10] == b[..10];
    }
  }

  /** The bar chart: one label and one value per list, in the lists' order. */
  function Bars(ps: seq<ListProgress>): (r: (seq<string>, seq<real>))
    ensures |r.0| == |ps| && |r.1| == |ps|
    ensures forall i :: 0 <= i < |ps| ==> r.0[i] == Label(ps[i].name) && r.1[i] == ps[i].progress
  {
    (seq(|ps|, i requires 0 <= i < |ps| => Label(ps[i].name)),
     seq(|ps|, i requires 0 <= i < |ps| => ps[i].progress))
  }

  // ---------------------------------------------------------------------------
  // Pie slices

  const Colors: seq<string> := ["#4CAF50", "#2196F3", "#FFC107", "#9C27B0", "#FF5722"]

  datatype Slice = Slice(name: string, population: int, color: string)

  /** The pie: one slice per word status, coloured by position, cycling through the five colours. */
  function Pie(ws: seq<WordStat>): (r: seq<Slice>)
    ensures |r| == |ws|
    ensures forall i :: 0 <= i < |ws| ==>
      r[i].name == ws[i].status && r[i].population == ws[i].count && r[i].color == Colors[i % 5]
  {
    seq(|ws|, i requires 0 <= i < |ws| => Slice(ws[i].status, ws[i].count, Colors[i % |Colors|]))
  }

  /** Slices five apart share a colour; slices closer together never do. */
  lemma PieColoursCycle(ws: seq<WordStat>, i: nat, j: nat)
    requires i < j < |ws|
    ensures Pie(ws)[i].color == Pie(ws)[j].color <==> (j - i) % 5 == 0
  {
    var r := Pie(ws);
    assert r[i].color == Colors[i % 5] && r[j].color == Colors[j % 5];
    ColorsDistinct(i % 5, j % 5);
    SameRemainder(i, j - i);
  }

  lemma ColorsDistinct(a: nat, b: nat)
    requires a < 5 && b < 5
    ensures Colors[a] == Colors[b] <==> a == b
  {
  }

  /** Two numbers d apart leave the same remainder by five exactly when five divides d. */
  lemma SameRemainder(i: nat, d: nat)
    ensures (i + d) % 5 == i % 5 <==> d % 5 == 0
  {
    var a, r := i / 5, i % 5;
    var b, t := d / 5, d % 5;
    assert i == 5 * a + r && d == 5 * b + t;
    if r + t < 5 {
      assert i + d == 5 * (a + b) + (r + t);
      RemainderOf(a + b, r + t);
    } else {
      assert i + d == 5 * (a + b + 1) + (r + t - 5);
      RemainderOf(a + b + 1, r + t - 5);
    }
  }

  lemma RemainderOf(q: int, x: int)
    requires 0 <= x < 5
    ensures (5 * q + x) % 5 == x
  {
  }

  // ---------------------------------------------------------------------------
  // What the screen shows

  datatype Screen = Screen(loading: bool, error: Option<string>, lists: seq<WordList>, stats: Option<Stats>)

  const Initial := Screen(true, None, [], None)

  /** `fetchData`: the lists are fetched and stored first, then the statistics;
      a failure in either sets the message and keeps whatever was not yet replaced. */
  function Fetch(s: Screen, lists: Result<seq<WordList>>, stats: Result<Stats>): (r: Screen)
    ensures !r.loading
    ensures lists.Ok? && stats.Ok? ==> r == Screen(false, None, lists.value, Some(stats.value))
    ensures lists.Err? ==> r.lists == s.lists && r.stats == s.stats && r.error == Some(FetchFailed)
    ensures lists.Ok? && stats.Err? ==> r.lists == lists.value && r.stats == s.stats && r.error == Some(FetchFailed)
  {
    var started := s.(loading := true, error := None);
    match lists
    case Err(_) => started.(loading := false, error := Some(FetchFailed))
    case Ok(ls) =>
      match stats
      case Err(_) => started.(lists := ls, loading := false, error := Some(FetchFailed))
      case Ok(st) => started.(lists := ls, stats := Some(st), loading := false)
  }

  datatype View =
    | Spinner
    | ErrorView(message: string)
    | EmptyView
    | Charts(learning: (seq<string>, seq<real>), test: (seq<string>, seq<real>),
             bars: (seq<string>, seq<real>), pie: seq<Slice>)

  /** The loading, error and empty checks, in that order, then the charts. */
  function Render(s: Screen): (r: View)
    ensures s.loading <==> r == Spinner
    ensures r.EmptyView? <==> !s.loading && !Truthy(s.error) && (s.stats.None? || |s.lists| == 0)
    ensures r.Charts? ==> s.stats.Some? && |s.lists| > 0
    ensures r.Charts? ==> r.bars == Bars(s.stats.value.listProgress) && r.pie == Pie(s.stats.value.wordStats)
    ensures r.Charts? ==> r.learning == (s.stats.value.dates, s.stats.value.learningScores)
    ensures r.Charts? ==> r.test == (s.stats.value.dates, s.stats.value.testScores)
  {
    if s.loading then Spinner
    else if Truthy(s.error) then ErrorView(s.error.value)
    else if s.stats.None? || |s.lists| == 0 then EmptyView
    else
      var st := s.stats.value;
      Charts((st.dates, st.learningScores), (st.dates, st.testScores), Bars(st.listProgress), Pie(st.wordStats))
  }

  /** A fetch that fails shows the error, and one that returns no lists shows the empty state. */
  lemma FetchThenRender(s: Screen, stats: Stats, e: string)
    ensures Render(Fetch(s, Err(e), Ok(stats))) == ErrorView(FetchFailed)
    ensures Render(Fetch(s, Ok([]), Ok(stats))) == EmptyView
  {
  }
}
