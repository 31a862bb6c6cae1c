/**
 * The summary cards: mean progress, high-risk count, completed count and the
 * number of records, all computed from the current records.
 */
module Metrics {
  import opened Text
  import opened Normalize
  import opened Status

  /** `data.reduce((a, c) => a + c.progresso, 0)`, folded from the left. */
  function Sum(data: seq<Record>): real {
    if data == [] then 0.0 else Sum(data[..|data| - 1]) + data[|data| - 1].progresso
  }

  /** `data.length ? sum / data.length : 0`, before display rounding. */
  function Average(data: seq<Record>): (avg: real)
    ensures |data| == 0 ==> avg == 0.0
    ensures |data| > 0 ==> avg * (|data| as real) == Sum(data)
  {
    if |data| == 0 then 0.0 else Sum(data) / (|data| as real)
  }

  /** `d.status.toLowerCase().includes('alto')` */
  predicate IsHighRisk(r: Record) { Contains(Lower(r.status), "alto") }

  /** `d.progresso >= 100` */
  predicate IsCompleted(r: Record) { r.progresso >= 100.0 }

  /** `data.filter(p).length` */
  function CountWhere(data: seq<Record>, p: Record -> bool): (n: nat)
    ensures n <= |data|
    ensures n == 0 <==> forall i :: 0 <= i < |data| ==> !p(data[i])
    ensures n == |data| <==> forall i :: 0 <= i < |data| ==> p(data[i])
  {
    if data == [] then 0
    else
      var init := data[..|data| - 1];
      assert forall i :: 0 <= i < |init| ==> init[i] == data[i];
      CountWhere(init, p) + (if p(data[|data| - 1]) then 1 else 0)
  }

  function HighRiskCount(data: seq<Record>): nat { CountWhere(data, IsHighRisk) }

  function CompletedCount(data: seq<Record>): nat { CountWhere(data, IsCompleted) }

  /** The four cards. */
  datatype Summary = Summary(averageProgress: real, highRisk: nat, completed: nat, total: nat)

  function Summarize(data: seq<Record>): (m: Summary)
    ensures m.highRisk <= m.total && m.completed <= m.total && m.total == |data|
  {
    Summary(Average(data), HighRiskCount(data), CompletedCount(data), |data|)
  }

  /** Filtering one more record adds one exactly when it passes the filter. */
  lemma CountSnoc(data: seq<Record>, r: Record, p: Record -> bool)
    ensures CountWhere(data + [r], p) == CountWhere(data, p) + (if p(r) then 1 else 0)
  {
    assert (data + [r])[..|data|] == data;
  }

  /** Folding one more record adds its progress. */
  lemma SumSnoc(data: seq<Record>, r: Record)
    ensures Sum(data + [r]) == Sum(data) + r.progresso
  {
    assert (data + [r])[..|data|] == data;
  }

  /** A count is the number of positions whose record satisfies the filter. */
  lemma {:induction false} CountIsIndexCount(data: seq<Record>, p: Record -> bool)
    ensures CountWhere(data, p) == |set i | 0 <= i < |data| && p(data[i])|
  {
    if data != [] {
      var init := data[..|data| - 1];
      CountIsIndexCount(init, p);
      var before := set i | 0 <= i < |init| && p(init[i]);
      var after := set i | 0 <= i < |data| && p(data[i]);
      if p(data[|data| - 1]) {
        assert after == before + {|init|};
      } else {
        assert after == before;
      }
    }
  }

  /** Counting with two filters that agree on every record gives the same count. */
  lemma {:induction false} CountCongruent(data: seq<Record>, p: Record -> bool, q: Record -> bool)
    requires forall i :: 0 <= i < |data| ==> p(data[i]) == q(data[i])
    ensures CountWhere(data, p) == CountWhere(data, q)
  {
    if data != [] {
      CountCongruent(data[..|data| - 1], p, q);
    }
  }

  /** The table row of `r` carries the high-risk badge. */
  predicate HasHighBadge(r: Record) { StatusStyle(r.status) == HighStyle }

  /** The high-risk card counts exactly the rows drawn with the high-risk badge. */
  lemma HighRiskIsHighBadge(data: seq<Record>)
    ensures HighRiskCount(data) == CountWhere(data, HasHighBadge)
  {
    CountCongruent(data, IsHighRisk, HasHighBadge);
  }

  /** With every progress at least `lo`, the sum is at least `lo` per record. */
  lemma {:induction false} SumAtLeast(data: seq<Record>, lo: real)
    requires forall i :: 0 <= i < |data| ==> data[i].progresso >= lo
    ensures Sum(data) >= (|data| as real) * lo
  {
    if data != [] {
      SumAtLeast(data[..|data| - 1], lo);
    }
  }

  /** With every progress at most `hi`, the sum is at most `hi` per record. */
  lemma {:induction false} SumAtMost(data: seq<Record>, hi: real)
    requires forall i :: 0 <= i < |data| ==> data[i].progresso <= hi
    ensures Sum(data) <= (|data| as real) * hi
  {
    if data != [] {
      SumAtMost(data[..|data| - 1], hi);
    }
  }

  /** The mean lies between the smallest and largest bound of the progress
      values; with progress kept in 0..100 the card shows 0..100. */
  lemma AverageBetween(data: seq<Record>, lo: real, hi: real)
    requires |data| > 0
    requires forall i :: 0 <= i < |data| ==> lo <= data[i].progresso <= hi
    ensures lo <= Average(data) <= hi
  {
    SumAtLeast(data, lo);
    SumAtMost(data, hi);
    var n := |data| as real;
    assert Average(data) * n >= lo * n;
    assert Average(data) * n <= hi * n;
  }

  /** When every record is complete the mean is at least 100. */
  lemma AllCompletedAverage(data: seq<Record>)
    requires |data| > 0 && CompletedCount(data) == |data|
    ensures Average(data) >= 100.0
  {
    SumAtLeast(data, 100.0);
    var n := |data| as real;
    assert Average(data) * n >= 100.0 * n;
  }
}
