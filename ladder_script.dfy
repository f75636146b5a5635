/** The standalone ladder script `premiership_window.py`: a frame built from
    one season's standings, to which the script adds the per-game columns
    and then the two rank columns, in place. */
module LadderScript {
  import opened Wrappers
  import opened Stats
  import opened Records
  import opened Ranking

  /** The script's `df`: the standings rows (`Team`, `PF`, `PA`, `Played`)
      and the four columns the script assigns later, absent until then. */
  class LadderFrame {
    var rows: seq<StandingsEntry>
    var pfPerGame: Option<seq<real>>
    var paPerGame: Option<seq<real>>
    var pfRank: Option<seq<nat>>
    var paRank: Option<seq<nat>>

    /** `pd.DataFrame([{…} for team in standings])`. */
    constructor (standings: seq<StandingsEntry>)
      ensures rows == standings
      ensures pfPerGame == None && paPerGame == None && pfRank == None && paRank == None
    {
      rows := standings;
      pfPerGame, paPerGame, pfRank, paRank := None, None, None, None;
    }

    /** `df['PF_per_game'] = df['PF'] / df['Played']`, and the same for PA:
        one exact quotient per row, so average times games played gives back
        the season total. */
    method AddPerGameColumns()
      requires AllPlayed(rows)
      modifies this
      ensures rows == old(rows) && pfRank == old(pfRank) && paRank == old(paRank)
      ensures pfPerGame.Some? && |pfPerGame.value| == |rows|
      ensures paPerGame.Some? && |paPerGame.value| == |rows|
      ensures forall i :: 0 <= i < |rows| ==>
        && pfPerGame.value[i] * (rows[i].played as real) == rows[i].pointsFor as real
        && paPerGame.value[i] * (rows[i].played as real) == rows[i].pointsAgainst as real
    {
      var ts, n := rows, |rows|;
      pfPerGame := Some(seq(n, i requires 0 <= i < n => PerGame(ts[i].pointsFor, ts[i].played)));
      paPerGame := Some(seq(n, i requires 0 <= i < n => PerGame(ts[i].pointsAgainst, ts[i].played)));
    }

    /** `df['PF_rank'] = df['PF_per_game'].rank(method='min', ascending=False)`
        and `df['PA_rank'] = df['PA_per_game'].rank(method='min', ascending=True)`:
        a team ranks strictly better on PF exactly when it scores more per
        game, and two teams share a rank exactly when their averages tie. */
    method AddRankColumns()
      requires pfPerGame.Some? && paPerGame.Some?
      modifies this
      ensures rows == old(rows) && pfPerGame == old(pfPerGame) && paPerGame == old(paPerGame)
      ensures pfRank == Some(MinRank(pfPerGame.value, false))
      ensures paRank == Some(MinRank(paPerGame.value, true))
      ensures forall i, j :: 0 <= i < |pfPerGame.value| && 0 <= j < |pfPerGame.value| ==>
        && (pfRank.value[i] < pfRank.value[j] <==> pfPerGame.value[i] > pfPerGame.value[j])
        && (pfRank.value[i] == pfRank.value[j] <==> pfPerGame.value[i] == pfPerGame.value[j])
      ensures forall i, j :: 0 <= i < |paPerGame.value| && 0 <= j < |paPerGame.value| ==>
        && (paRank.value[i] < paRank.value[j] <==> paPerGame.value[i] < paPerGame.value[j])
        && (paRank.value[i] == paRank.value[j] <==> paPerGame.value[i] == paPerGame.value[j])
    {
      var pf, pa := pfPerGame.value, paPerGame.value;
      pfRank := Some(MinRank(pf, false));
      paRank := Some(MinRank(pa, true));
      forall i, j | 0 <= i < |pf| && 0 <= j < |pf|
        ensures MinRank(pf, false)[i] < MinRank(pf, false)[j] <==> pf[i] > pf[j]
        ensures MinRank(pf, false)[i] == MinRank(pf, false)[j] <==> pf[i] == pf[j]
      {
        MinRankOrder(pf, false, i, j);
      }
      forall i, j | 0 <= i < |pa| && 0 <= j < |pa|
        ensures MinRank(pa, true)[i] < MinRank(pa, true)[j] <==> pa[i] < pa[j]
        ensures MinRank(pa, true)[i] == MinRank(pa, true)[j] <==> pa[i] == pa[j]
      {
        MinRankOrder(pa, true, i, j);
      }
    }
  }

  /** The script from the standings onwards: an empty standings list gives a
      frame without a `PF` column, so the first column access raises;
      otherwise the frame ends with the per-game and the rank columns. */
  method RunScript(standings: seq<StandingsEntry>) returns (r: Result<LadderFrame, FrameError>)
    requires AllPlayed(standings)
    ensures r.Failure? <==> standings == []
    ensures r.Failure? ==> r.error == MissingColumn("PF")
    ensures r.Success? ==>
      && fresh(r.value)
      && r.value.rows == standings
      && r.value.pfPerGame.Some? && r.value.paPerGame.Some?
      && |r.value.pfPerGame.value| == |standings| && |r.value.paPerGame.value| == |standings|
      && (forall i :: 0 <= i < |standings| ==>
            && r.value.pfPerGame.value[i] * (standings[i].played as real) == standings[i].pointsFor as real
            && r.value.paPerGame.value[i] * (standings[i].played as real) == standings[i].pointsAgainst as real)
      && r.value.pfRank == Some(MinRank(r.value.pfPerGame.value, false))
      && r.value.paRank == Some(MinRank(r.value.paPerGame.value, true))
  {
    if standings == [] {
      return Failure(MissingColumn("PF"));
    }
    var df := new LadderFrame(standings);
    df.AddPerGameColumns();
    df.AddRankColumns();
    r := Success(df);
  }
}
