/** Min-method competition ranking, `Series.rank(method='min', ascending=…)`:
    a value's rank is one plus the number of values strictly ahead of it, so
    tied values share the smallest rank of their group ("1224" ranking).
    PF is ranked descending (more points is better), PA ascending. */
module Ranking {
  import opened Wrappers
  import opened Records

  /** `x` is strictly ahead of `y`: smaller when ascending, larger otherwise. */
  predicate Ahead(x: real, y: real, ascending: bool)
  {
    if ascending then x < y else x > y
  }

  /** How many values of `xs` are strictly ahead of `v`. */
  function CountAhead(xs: seq<real>, v: real, ascending: bool): nat
  {
    if xs == [] then 0
    else (if Ahead(xs[0], v, ascending) then 1 else 0) + CountAhead(xs[1..], v, ascending)
  }

  /** The rank column pandas computes with `method='min'`. */
  function MinRank(xs: seq<real>, ascending: bool): (r: seq<nat>)
    ensures |r| == |xs|
  {
    seq(|xs|, i requires 0 <= i < |xs| => 1 + CountAhead(xs, xs[i], ascending))
  }

  lemma {:induction false} CountAheadAtMost(xs: seq<real>, v: real, ascending: bool, j: nat)
    requires j < |xs| && !Ahead(xs[j], v, ascending)
    ensures CountAhead(xs, v, ascending) < |xs|
  {
    if j > 0 {
      CountAheadAtMost(xs[1..], v, ascending, j - 1);
    } else {
      CountAheadLength(xs[1..], v, ascending);
    }
  }

  lemma {:induction false} CountAheadLength(xs: seq<real>, v: real, ascending: bool)
    ensures CountAhead(xs, v, ascending) <= |xs|
  {
    if xs != [] {
      CountAheadLength(xs[1..], v, ascending);
    }
  }

  /** A value that is itself ahead of `w` has strictly fewer values ahead of it. */
  lemma {:induction false} CountAheadStrict(xs: seq<real>, v: real, w: real, ascending: bool)
    requires Ahead(v, w, ascending)
    ensures CountAhead(xs, v, ascending) <= CountAhead(xs, w, ascending)
    ensures v in xs ==> CountAhead(xs, v, ascending) < CountAhead(xs, w, ascending)
  {
    if xs != [] {
      CountAheadStrict(xs[1..], v, w, ascending);
      assert v in xs && xs[0] != v ==> v in xs[1..];
    }
  }

  /** Every rank lies in 1..n. */
  lemma MinRankBounds(xs: seq<real>, ascending: bool)
    ensures forall i :: 0 <= i < |xs| ==> 1 <= MinRank(xs, ascending)[i] <= |xs|
  {
    forall i | 0 <= i < |xs| ensures MinRank(xs, ascending)[i] <= |xs| {
      CountAheadAtMost(xs, xs[i], ascending, i);
    }
  }

  /** Ranks follow the values exactly: a row ranks strictly better than
      another if and only if its value is strictly ahead, and two rows share
      a rank if and only if their values are equal. */
  lemma MinRankOrder(xs: seq<real>, ascending: bool, i: nat, j: nat)
    requires i < |xs| && j < |xs|
    ensures var r := MinRank(xs, ascending);
      && (r[i] < r[j] <==> Ahead(xs[i], xs[j], ascending))
      && (r[i] == r[j] <==> xs[i] == xs[j])
  {
    if Ahead(xs[i], xs[j], ascending) {
      CountAheadStrict(xs, xs[i], xs[j], ascending);
    } else if Ahead(xs[j], xs[i], ascending) {
      CountAheadStrict(xs, xs[j], xs[i], ascending);
    }
  }

  /** The index of a value that no value is ahead of. */
  function BestIndex(xs: seq<real>, ascending: bool): (k: nat)
    requires |xs| > 0
    ensures k < |xs|
    ensures forall j :: 0 <= j < |xs| ==> !Ahead(xs[j], xs[k], ascending)
  {
    if |xs| == 1 then 0
    else
      var k := 1 + BestIndex(xs[1..], ascending);
      assert forall j :: 1 <= j < |xs| ==> xs[j] == xs[1..][j - 1];
      if Ahead(xs[0], xs[k], ascending) then 0 else k
  }

  lemma {:induction false} CountAheadNone(xs: seq<real>, v: real, ascending: bool)
    requires forall j :: 0 <= j < |xs| ==> !Ahead(xs[j], v, ascending)
    ensures CountAhead(xs, v, ascending) == 0
  {
    if xs != [] {
      CountAheadNone(xs[1..], v, ascending);
    }
  }

  /** A non-empty table always has a row ranked first. */
  lemma MinRankTop(xs: seq<real>, ascending: bool)
    requires |xs| > 0
    ensures exists i :: 0 <= i < |xs| && MinRank(xs, ascending)[i] == 1
  {
    var k := BestIndex(xs, ascending);
    CountAheadNone(xs, xs[k], ascending);
    assert MinRank(xs, ascending)[k] == 1;
  }

  /** How many ranks in `rs` are strictly smaller than `k`. */
  function CountRanksBelow(rs: seq<nat>, k: nat): nat
  {
    if rs == [] then 0 else (if rs[0] < k then 1 else 0) + CountRanksBelow(rs[1..], k)
  }

  lemma {:induction false} CountsMatch(rs: seq<nat>, k: nat, xs: seq<real>, v: real, ascending: bool)
    requires |rs| == |xs|
    requires forall j :: 0 <= j < |xs| ==> (rs[j] < k <==> Ahead(xs[j], v, ascending))
    ensures CountRanksBelow(rs, k) == CountAhead(xs, v, ascending)
  {
    if xs != [] {
      CountsMatch(rs[1..], k, xs[1..], v, ascending);
    }
  }

  /** Competition ranking: every row's rank is one more than the number of
      rows ranked strictly better than it. */
  lemma MinRankCompetition(xs: seq<real>, ascending: bool, i: nat)
    requires i < |xs|
    ensures var r := MinRank(xs, ascending); r[i] == 1 + CountRanksBelow(r, r[i])
  {
    var r := MinRank(xs, ascending);
    forall j | 0 <= j < |xs| ensures r[j] < r[i] <==> Ahead(xs[j], xs[i], ascending) {
      MinRankOrder(xs, ascending, j, i);
    }
    CountsMatch(r, r[i], xs, xs[i], ascending);
  }

  function PfColumn(rows: seq<TeamSummary>): seq<real>
  {
    seq(|rows|, i requires 0 <= i < |rows| => rows[i].pfAvg)
  }

  function PaColumn(rows: seq<TeamSummary>): seq<real>
  {
    seq(|rows|, i requires 0 <= i < |rows| => rows[i].paAvg)
  }

  /** The summary frame handed to the plotting routine, which adds the two
      rank columns to it in place before drawing. */
  class SummaryFrame {
    var rows: seq<TeamSummary>
    var pfRank: Option<seq<nat>>
    var paRank: Option<seq<nat>>

    constructor (rows: seq<TeamSummary>)
      ensures this.rows == rows && pfRank == None && paRank == None
    {
      this.rows := rows;
      pfRank, paRank := None, None;
    }

    /** `df['PF_rank'] = …rank(method='min', ascending=False)`, then
        `df['PA_rank'] = …rank(method='min', ascending=True)`. */
    method AddRankColumns()
      modifies this
      ensures rows == old(rows)
      ensures pfRank == Some(MinRank(PfColumn(rows), false))
      ensures paRank == Some(MinRank(PaColumn(rows), true))
      ensures forall i :: 0 <= i < |rows| ==>
        1 <= pfRank.value[i] <= |rows| && 1 <= paRank.value[i] <= |rows|
    {
      pfRank := Some(MinRank(PfColumn(rows), false));
      paRank := Some(MinRank(PaColumn(rows), true));
      MinRankBounds(PfColumn(rows), false);
      MinRankBounds(PaColumn(rows), true);
    }
  }
}
