/** The season-form pipeline of `afl-premiership-window/utils.py`: round
    normalisation, the completed/round-range filter, flattening and the
    per-team means of `fetch_team_form`. The games list is the API's answer,
    passed in. */
module TeamForm {
  import opened Wrappers
  import opened Text
  import opened Stats
  import opened Records

  /** `FINALS_ROUND_MAP`. */
  const FinalsRoundMap: map<string, int> :=
    map["QF" := 26, "EF" := 27, "SF" := 28, "PF" := 29, "GF" := 30]

  /** The finals labels in round order. */
  const FinalsLabels: seq<string> := ["QF", "EF", "SF", "PF", "GF"]

  /** The finals labels are exactly the keys of `FINALS_ROUND_MAP`, listed in
      the order of their ordinals 26..30. */
  lemma FinalsLabelsMatch()
    ensures forall s :: s in FinalsRoundMap <==> s in FinalsLabels
    ensures forall k :: 0 <= k < |FinalsLabels| ==> FinalsRoundMap[FinalsLabels[k]] == 26 + k
  {
  }

  /** `map_round`: ints pass through, an "opening…" label (any case) is round
      0, a finals label is its ordinal, anything else has no round. */
  function MapRound(round: RoundField): (r: Option<int>)
    ensures r.Some? && !round.IntRound? ==> r.value == 0 || 26 <= r.value <= 30
  {
    match round
    case IntRound(n) => Some(n)
    case StrRound(s) =>
      if StartsWith(Lower(s), "opening") then Some(0)
      else if s in FinalsRoundMap then Some(FinalsRoundMap[s])
      else None
    case OtherRound => None
  }

  /** Each finals label maps to its ordinal 26..30. */
  lemma MapRoundFinals(k: nat)
    requires k < |FinalsLabels|
    ensures MapRound(StrRound(FinalsLabels[k])) == Some(26 + k)
  {
    var s := FinalsLabels[k];
    assert Lower(s)[0] != 'o';
  }

  /** A string round maps to 0 exactly when it starts with "opening" in any
      case, and otherwise maps to nothing or to a finals ordinal 26..30. */
  lemma MapRoundString(s: string)
    ensures MapRound(StrRound(s)) == Some(0) <==> StartsWith(Lower(s), "opening")
    ensures MapRound(StrRound(s)).Some? ==>
      MapRound(StrRound(s)).value == 0 || 26 <= MapRound(StrRound(s)).value <= 30
    ensures !StartsWith(Lower(s), "opening") && s !in FinalsLabels ==> MapRound(StrRound(s)) == None
  {
    if s in FinalsRoundMap {
      assert s in FinalsLabels;
    }
  }

  /** `df['round_mapped'].between(round_start, round_end, inclusive='both')`;
      a round that maps to nothing (NaN) is never between. */
  predicate InRounds(g: Game, roundStart: int, roundEnd: int)
  {
    var m := MapRound(g.round);
    m.Some? && roundStart <= m.value <= roundEnd
  }

  /** The games whose mapped round lies in the range, in input order. */
  function GamesInRounds(gs: seq<Game>, roundStart: int, roundEnd: int): (r: seq<Game>)
    ensures forall g ::
      multiset(r)[g] == if InRounds(g, roundStart, roundEnd) then multiset(gs)[g] else 0
  {
    if gs == [] then []
    else
      assert gs == [gs[0]] + gs[1..];
      (if InRounds(gs[0], roundStart, roundEnd) then [gs[0]] else [])
        + GamesInRounds(gs[1..], roundStart, roundEnd)
  }

  /** The frame after both filters of `fetch_team_form`. */
  function KeptGames(games: seq<Game>, roundStart: int, roundEnd: int): seq<Game>
  {
    GamesInRounds(CompletedGames(games), roundStart, roundEnd)
  }

  lemma EmptyMultiset(gs: seq<Game>)
    requires forall g :: multiset(gs)[g] == 0
    ensures gs == []
  {
    assert multiset(gs) == multiset{};
    assert |gs| == |multiset(gs)|;
  }

  /** A game is kept, with its multiplicity, exactly when it is complete and
      its mapped round lies in the inclusive range; an empty range (start
      after end) keeps nothing. */
  lemma KeptGamesSpec(games: seq<Game>, roundStart: int, roundEnd: int)
    ensures forall g :: (multiset(KeptGames(games, roundStart, roundEnd))[g] ==
      if IsComplete(g) && InRounds(g, roundStart, roundEnd) then multiset(games)[g] else 0)
    ensures forall g :: g in KeptGames(games, roundStart, roundEnd) ==>
      g.complete == 100 && MapRound(g.round).Some? &&
      roundStart <= MapRound(g.round).value <= roundEnd
    ensures roundStart > roundEnd ==> KeptGames(games, roundStart, roundEnd) == []
  {
    var kept := KeptGames(games, roundStart, roundEnd);
    forall g | g in kept
      ensures g.complete == 100 && InRounds(g, roundStart, roundEnd)
    {
      assert multiset(kept)[g] > 0;
    }
    if roundStart > roundEnd {
      EmptyMultiset(kept);
    }
  }

  /** What `fetch_team_form` returns. A games list with no rows makes a frame
      with no `complete` column, and the first filter raises KeyError; the
      finals flag is not read. */
  function TeamFormResult(games: seq<Game>, roundStart: int, roundEnd: int)
    : Result<seq<TeamSummary>, FrameError>
  {
    if games == [] then Failure(MissingColumn("complete"))
    else Success(Summarise(Flatten(KeptGames(games, roundStart, roundEnd))))
  }

  lemma SummariseEmptyIff(recs: seq<TeamRecord>)
    ensures Summarise(recs) == [] <==> recs == []
  {
    SummariseTeams(recs);
    if recs != [] {
      assert recs[0].team in Teams(recs);
    }
  }

  /** `fetch_team_form(season, round_start, round_end, include_finals)`. */
  method FetchTeamForm(games: seq<Game>, roundStart: int, roundEnd: int, includeFinals: bool)
    returns (r: Result<seq<TeamSummary>, FrameError>)
    ensures r == TeamFormResult(games, roundStart, roundEnd)
    ensures r.Failure? <==> games == []
    ensures r.Success? ==> (r.value == [] <==> KeptGames(games, roundStart, roundEnd) == [])
  {
    if games == [] {
      return Failure(MissingColumn("complete"));
    }
    var df := CompletedGames(games);
    df := GamesInRounds(df, roundStart, roundEnd);
    var records := FlattenGames(df);
    SummariseEmptyIff(records);
    if records == [] {
      // `pd.DataFrame(columns=["Team", "PF_avg", "PA_avg"])`
      return Success([]);
    }
    var summary := Summarise(records);
    return Success(summary);
  }

  /** The season summary has one row per team that played a kept game, and
      each row averages exactly that team's records from the kept games. */
  lemma TeamFormRows(games: seq<Game>, roundStart: int, roundEnd: int)
    requires games != []
    ensures var kept := KeptGames(games, roundStart, roundEnd);
      var recs := Flatten(kept);
      var r := TeamFormResult(games, roundStart, roundEnd).value;
      && |r| == |HomeTeams(kept) + AwayTeams(kept)|
      && (forall t :: t in HomeTeams(kept) + AwayTeams(kept) <==>
            exists i :: 0 <= i < |r| && r[i].team == t)
      && (forall i :: 0 <= i < |r| ==>
            var group := RecordsOf(recs, r[i].team);
            && |group| > 0
            && r[i].pfAvg == Mean(PointsFor(group))
            && r[i].paAvg == Mean(PointsAgainst(group)))
  {
    var kept := KeptGames(games, roundStart, roundEnd);
    TeamsOfFlatten(kept);
    SummariseTeams(Flatten(kept));
    SummariseMeans(Flatten(kept));
  }
}
