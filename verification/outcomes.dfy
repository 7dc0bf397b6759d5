/** The per-exercise result records both session screens keep
    (`sessionResults`), and the count of correct answers they finalise with. */
module Outcomes {
  import opened Base

  datatype Outcome = Outcome(answer: string, isCorrect: bool)

  /** The `{ correct, total }` pair shown on the summary screen. */
  datatype Results = Results(correct: nat, total: nat)

  /** `newResults[i] = v` on a copy of the array: a write past the end grows
      the array, leaving holes (read back as missing) in between. */
  function SetAt(o: seq<Option<Outcome>>, i: nat, v: Outcome): (r: seq<Option<Outcome>>)
    ensures |r| == if i < |o| then |o| else i + 1
    ensures r[i] == Some(v)
    ensures forall j :: 0 <= j < |r| && j != i ==> r[j] == (if j < |o| then o[j] else None)
  {
    if i < |o| then o[i := Some(v)] else o + Repeat(None, i - |o|) + [Some(v)]
  }

  predicate CorrectAt(o: seq<Option<Outcome>>, i: nat) {
    i < |o| && o[i].Some? && o[i].value.isCorrect
  }

  /** `exercises.filter((_, i) => results[i] && results[i].isCorrect).length`
      for `n` exercises: unanswered or missing entries do not count. */
  function CountCorrect(o: seq<Option<Outcome>>, n: nat): (r: nat)
    ensures r <= n
  {
    if n == 0 then 0 else CountCorrect(o, n - 1) + (if CorrectAt(o, n - 1) then 1 else 0)
  }

  /** The count is the number of positions below `n` holding a correct answer. */
  lemma {:induction false} CountCorrectIsCardinality(o: seq<Option<Outcome>>, n: nat)
    ensures CountCorrect(o, n) == |set i | 0 <= i < n && CorrectAt(o, i)|
  {
    if n > 0 {
      CountCorrectIsCardinality(o, n - 1);
      CorrectSetStep(o, n);
    }
  }

  /** The positions below n holding a correct answer: those below n - 1, and n - 1 itself when it is correct. */
  lemma CorrectSetStep(o: seq<Option<Outcome>>, n: nat)
    requires n > 0
    ensures |set i | 0 <= i < n && CorrectAt(o, i)| ==
      |set i | 0 <= i < n - 1 && CorrectAt(o, i)| + (if CorrectAt(o, n - 1) then 1 else 0)
  {
    var below := set i | 0 <= i < n - 1 && CorrectAt(o, i);
    var all := set i | 0 <= i < n && CorrectAt(o, i);
    if CorrectAt(o, n - 1) {
      assert all == below + {n - 1};
    } else {
      assert all == below;
    }
  }

  /** Fresh records (all missing) count no correct answer. */
  lemma {:induction false} NothingAnsweredCountsZero(n: nat, m: nat)
    ensures CountCorrect(Repeat(None, m), n) == 0
  {
    if n > 0 {
      NothingAnsweredCountsZero(n - 1, m);
    }
  }

  lemma {:induction false} CountCorrectUnchangedOutside(o: seq<Option<Outcome>>, o2: seq<Option<Outcome>>, n: nat)
    requires forall j :: 0 <= j < n ==> CorrectAt(o, j) == CorrectAt(o2, j)
    ensures CountCorrect(o, n) == CountCorrect(o2, n)
  {
    if n > 0 {
      CountCorrectUnchangedOutside(o, o2, n - 1);
    }
  }

  lemma {:induction false} CountCorrectOneMore(o: seq<Option<Outcome>>, o2: seq<Option<Outcome>>, i: nat, n: nat)
    requires i < n
    requires forall j :: 0 <= j < n && j != i ==> CorrectAt(o, j) == CorrectAt(o2, j)
    requires !CorrectAt(o, i) && CorrectAt(o2, i)
    ensures CountCorrect(o2, n) == CountCorrect(o, n) + 1
  {
    if n - 1 == i {
      CountCorrectUnchangedOutside(o, o2, n - 1);
    } else {
      CountCorrectOneMore(o, o2, i, n - 1);
    }
  }

  /** Recording a correct answer where none was recorded raises the count by one;
      recording a wrong one leaves it unchanged. */
  lemma RecordingMovesCount(o: seq<Option<Outcome>>, i: nat, v: Outcome, n: nat)
    requires i < n
    requires i >= |o| || o[i].None?
    ensures CountCorrect(SetAt(o, i, v), n) == CountCorrect(o, n) + (if v.isCorrect then 1 else 0)
  {
    var o2 := SetAt(o, i, v);
    if v.isCorrect {
      CountCorrectOneMore(o, o2, i, n);
    } else {
      CountCorrectUnchangedOutside(o, o2, n);
    }
  }
}
