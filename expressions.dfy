/**
 Dominant-label selection (EmotionDetector.jsx, lines 131-134): the
 expression scores of the first detection, taken as the ordered list of
 `Object.entries`, are reduced with `(a, b) => a[1] > b[1] ? a : b`.
 */
module Expressions {

  type Label = string

  /** One `[label, score]` pair of `Object.entries(expressions)`. Scores are
      only compared, so a real number stands for the float. */
  datatype Entry = Entry(name: Label, score: real)

  /** `entries.reduce((a, b) => a[1] > b[1] ? a : b)`: a left fold without an
      initial value (so the list must be non-empty) that keeps the
      accumulator only when it is strictly greater than the next entry. */
  function Dominant(entries: seq<Entry>): (r: Entry)
    requires |entries| > 0
    ensures r in entries
    ensures forall i :: 0 <= i < |entries| ==> entries[i].score <= r.score
  {
    if |entries| == 1 then entries[0]
    else
      var a := Dominant(entries[..|entries| - 1]);
      var b := entries[|entries| - 1];
      if a.score > b.score then a else b
  }

  /** Reference definition of the selected entry: position `k` holds a
      maximum score and every later position scores strictly less. */
  ghost predicate IsLastMaximum(entries: seq<Entry>, k: int)
  {
    && 0 <= k < |entries|
    && (forall i :: 0 <= i < |entries| ==> entries[i].score <= entries[k].score)
    && (forall j :: k < j < |entries| ==> entries[j].score < entries[k].score)
  }

  /** The reduce returns the last entry, in entry order, that reaches the
      maximum score: a tie goes to the later entry. */
  lemma {:induction false} DominantIsLastMaximum(entries: seq<Entry>)
    requires |entries| > 0
    ensures exists k :: IsLastMaximum(entries, k) && entries[k] == Dominant(entries)
  {
    var n := |entries|;
    if n == 1 {
      assert IsLastMaximum(entries, 0);
    } else {
      var front := entries[..n - 1];
      DominantIsLastMaximum(front);
      var k :| IsLastMaximum(front, k) && front[k] == Dominant(front);
      if front[k].score > entries[n - 1].score {
        KeptMaximumStaysLast(entries, k);
        assert entries[k] == Dominant(entries);
      } else {
        NewMaximumIsLast(entries, k);
        assert entries[n - 1] == Dominant(entries);
      }
    }
  }

  /** The accumulator is kept: it is still the last maximum. */
  lemma KeptMaximumStaysLast(entries: seq<Entry>, k: int)
    requires |entries| > 1 && IsLastMaximum(entries[..|entries| - 1], k)
    requires entries[k].score > entries[|entries| - 1].score
    ensures IsLastMaximum(entries, k)
  {
    var front := entries[..|entries| - 1];
    forall i | 0 <= i < |entries| ensures entries[i].score <= entries[k].score {
      if i < |entries| - 1 {
        assert entries[i] == front[i];
      }
    }
    forall j | k < j < |entries| ensures entries[j].score < entries[k].score {
      if j < |entries| - 1 {
        assert entries[j] == front[j];
      }
    }
  }

  /** The new entry reaches the maximum of the earlier ones: it becomes the
      last maximum. */
  lemma NewMaximumIsLast(entries: seq<Entry>, k: int)
    requires |entries| > 1 && IsLastMaximum(entries[..|entries| - 1], k)
    requires entries[k].score <= entries[|entries| - 1].score
    ensures IsLastMaximum(entries, |entries| - 1)
  {
    var front := entries[..|entries| - 1];
    forall i | 0 <= i < |entries| ensures entries[i].score <= entries[|entries| - 1].score {
      if i < |entries| - 1 {
        assert entries[i] == front[i];
      }
    }
  }

  /** A strictly greatest score is always the one selected. */
  lemma UniqueMaximumIsSelected(entries: seq<Entry>, k: int)
    requires 0 <= k < |entries|
    requires forall i :: 0 <= i < |entries| && i != k ==> entries[i].score < entries[k].score
    ensures Dominant(entries) == entries[k]
  {
    DominantIsLastMaximum(entries);
  }

  /** When a later entry ties with an earlier one at the maximum score, the
      selected entry is taken from the later one onwards. */
  lemma TieGoesToLaterEntry(entries: seq<Entry>, i: int, j: int)
    requires 0 <= i < j < |entries|
    requires entries[i].score == entries[j].score
    requires forall p :: 0 <= p < |entries| ==> entries[p].score <= entries[j].score
    ensures exists k :: j <= k < |entries| && Dominant(entries) == entries[k]
  {
    DominantIsLastMaximum(entries);
    var m :| IsLastMaximum(entries, m) && entries[m] == Dominant(entries);
    assert j <= m;
  }
}
