/** The records the pipeline passes around, and the steps both front ends
    share: keeping completed games, flattening a game into its two
    team-perspective records, and the `groupby('Team').agg(mean)` summary. */
module Records {
  import opened Text
  import opened Stats

  /** The `round` field as the games API delivers it: an int, a string, or
      some other value (a missing round read as NaN, say). */
  datatype RoundField = IntRound(n: int) | StrRound(s: string) | OtherRound

  /** One row of the games API; `date` is already a comparable timestamp. */
  datatype Game = Game(
    hteam: string, ateam: string, date: int,
    hscore: int, ascore: int, round: RoundField, complete: int)

  /** One team's view of one game: points for and points against. */
  datatype TeamRecord = TeamRecord(team: string, date: int, pf: int, pa: int)

  /** One row of a summary table: a team and its average points for and against. */
  datatype TeamSummary = TeamSummary(team: string, pfAvg: real, paAvg: real)

  /** One row of the standings API. */
  datatype StandingsEntry = StandingsEntry(
    name: string, pointsFor: int, pointsAgainst: int, played: int)

  /** Every team has played at least one game (points per game is defined). */
  predicate AllPlayed(standings: seq<StandingsEntry>)
  {
    forall i :: 0 <= i < |standings| ==> standings[i].played > 0
  }

  predicate IsComplete(g: Game)
  {
    g.complete == 100
  }

  /** `df[df['complete'] == 100]`: the completed games, in input order. */
  function CompletedGames(gs: seq<Game>): (r: seq<Game>)
    ensures forall g :: multiset(r)[g] == if IsComplete(g) then multiset(gs)[g] else 0
  {
    if gs == [] then []
    else
      assert gs == [gs[0]] + gs[1..];
      (if IsComplete(gs[0]) then [gs[0]] else []) + CompletedGames(gs[1..])
  }

  function HomeRecord(g: Game): TeamRecord
  {
    TeamRecord(g.hteam, g.date, g.hscore, g.ascore)
  }

  function AwayRecord(g: Game): TeamRecord
  {
    TeamRecord(g.ateam, g.date, g.ascore, g.hscore)
  }

  /** The records the flattening loop appends: for every game, its home
      record and then its away record, with the scores swapped. */
  function Flatten(gs: seq<Game>): (r: seq<TeamRecord>)
    ensures |r| == 2 * |gs|
    ensures forall k :: 0 <= k < |gs| ==>
      r[2 * k] == HomeRecord(gs[k]) && r[2 * k + 1] == AwayRecord(gs[k])
  {
    if gs == [] then []
    else Flatten(gs[..|gs| - 1]) + [HomeRecord(gs[|gs| - 1]), AwayRecord(gs[|gs| - 1])]
  }

  /** The `for _, row in df.iterrows()` loop that appends two records per game. */
  method FlattenGames(games: seq<Game>) returns (records: seq<TeamRecord>)
    ensures records == Flatten(games)
  {
    records := [];
    for i := 0 to |games|
      invariant records == Flatten(games[..i])
    {
      var row := games[i];
      records := records + [HomeRecord(row)];
      records := records + [AwayRecord(row)];
      assert games[..i + 1][..i] == games[..i];
    }
    assert games[..|games|] == games;
  }

  function PointsFor(recs: seq<TeamRecord>): seq<int>
  {
    seq(|recs|, i requires 0 <= i < |recs| => recs[i].pf)
  }

  function PointsAgainst(recs: seq<TeamRecord>): seq<int>
  {
    seq(|recs|, i requires 0 <= i < |recs| => recs[i].pa)
  }

  /** Every point scored in a flattened table is conceded by someone in it. */
  lemma {:induction false} FlattenBalanced(gs: seq<Game>)
    ensures Sum(PointsFor(Flatten(gs))) == Sum(PointsAgainst(Flatten(gs)))
  {
    if gs != [] {
      var init, g := gs[..|gs| - 1], gs[|gs| - 1];
      var pair := [HomeRecord(g), AwayRecord(g)];
      FlattenBalanced(init);
      assert PointsFor(Flatten(gs)) == PointsFor(Flatten(init)) + [g.hscore, g.ascore];
      assert PointsAgainst(Flatten(gs)) == PointsAgainst(Flatten(init)) + [g.ascore, g.hscore];
      SumAppend(PointsFor(Flatten(init)), [g.hscore, g.ascore]);
      SumAppend(PointsAgainst(Flatten(init)), [g.ascore, g.hscore]);
    }
  }

  /** The teams named in some record. */
  function Teams(recs: seq<TeamRecord>): set<string>
  {
    set x | x in recs :: x.team
  }

  lemma TeamsAppend(a: seq<TeamRecord>, b: seq<TeamRecord>)
    ensures Teams(a + b) == Teams(a) + Teams(b)
  {
    forall t | t in Teams(a + b) ensures t in Teams(a) + Teams(b) {
      var x :| x in a + b && x.team == t;
    }
  }

  function HomeTeams(gs: seq<Game>): set<string>
  {
    set g | g in gs :: g.hteam
  }

  function AwayTeams(gs: seq<Game>): set<string>
  {
    set g | g in gs :: g.ateam
  }

  lemma HomeAwaySnoc(init: seq<Game>, g: Game)
    ensures HomeTeams(init + [g]) == HomeTeams(init) + {g.hteam}
    ensures AwayTeams(init + [g]) == AwayTeams(init) + {g.ateam}
  {
    var gs := init + [g];
    forall t | t in HomeTeams(gs) ensures t in HomeTeams(init) + {g.hteam} {
      var h :| h in gs && h.hteam == t;
    }
    forall t | t in AwayTeams(gs) ensures t in AwayTeams(init) + {g.ateam} {
      var h :| h in gs && h.ateam == t;
    }
  }

  lemma TeamsOfPair(g: Game)
    ensures Teams([HomeRecord(g), AwayRecord(g)]) == {g.hteam, g.ateam}
  {
    var pair := [HomeRecord(g), AwayRecord(g)];
    assert pair[0].team == g.hteam && pair[1].team == g.ateam;
  }

  /** The teams of a flattened table are the home and away teams of its games. */
  lemma {:induction false} TeamsOfFlatten(gs: seq<Game>)
    ensures Teams(Flatten(gs)) == HomeTeams(gs) + AwayTeams(gs)
  {
    if gs != [] {
      var init, g := gs[..|gs| - 1], gs[|gs| - 1];
      var pair := [HomeRecord(g), AwayRecord(g)];
      assert gs == init + [g];
      calc {
        Teams(Flatten(gs));
        { assert Flatten(gs) == Flatten(init) + pair; }
        Teams(Flatten(init) + pair);
        { TeamsAppend(Flatten(init), pair); }
        Teams(Flatten(init)) + Teams(pair);
        { TeamsOfFlatten(init); TeamsOfPair(g); }
        (HomeTeams(init) + AwayTeams(init)) + {g.hteam, g.ateam};
        { HomeAwaySnoc(init, g); }
        HomeTeams(gs) + AwayTeams(gs);
      }
    }
  }

  /** One team's records, in table order (a `groupby` group). */
  function RecordsOf(recs: seq<TeamRecord>, t: string): (r: seq<TeamRecord>)
    ensures forall x :: x in r ==> x.team == t
  {
    if recs == [] then []
    else (if recs[0].team == t then [recs[0]] else []) + RecordsOf(recs[1..], t)
  }

  /** A team's group is non-empty exactly when the team has a record. */
  lemma {:induction false} RecordsOfTeams(recs: seq<TeamRecord>, t: string)
    ensures |RecordsOf(recs, t)| > 0 <==> t in Teams(recs)
  {
    if recs != [] {
      RecordsOfTeams(recs[1..], t);
      assert recs == [recs[0]] + recs[1..];
      assert Teams(recs) == {recs[0].team} + Teams(recs[1..]);
    }
  }

  /** A team's group holds every record of that team, each as often as in
      the frame, and nothing else: the group is complete, not only pure. */
  lemma {:induction false} RecordsOfComplete(recs: seq<TeamRecord>, t: string)
    ensures forall x ::
      multiset(RecordsOf(recs, t))[x] == (if x.team == t then multiset(recs)[x] else 0)
  {
    if recs != [] {
      RecordsOfComplete(recs[1..], t);
      assert recs == [recs[0]] + recs[1..];
    }
  }

  /** The group keys of `groupby('Team')`: the distinct teams, sorted by name. */
  function SortedTeams(recs: seq<TeamRecord>): (r: seq<string>)
    ensures StrictlySorted(r)
    ensures forall t :: t in r <==> t in Teams(recs)
  {
    if recs == [] then []
    else
      assert recs == [recs[0]] + recs[1..];
      InsertSorted(recs[0].team, SortedTeams(recs[1..]))
  }

  function TeamRow(t: string, recs: seq<TeamRecord>): TeamSummary
    requires t in Teams(recs)
  {
    RecordsOfTeams(recs, t);
    var group := RecordsOf(recs, t);
    TeamSummary(t, Mean(PointsFor(group)), Mean(PointsAgainst(group)))
  }

  function SummaryRows(teams: seq<string>, recs: seq<TeamRecord>): (r: seq<TeamSummary>)
    requires forall t :: t in teams ==> t in Teams(recs)
    ensures |r| == |teams|
    ensures forall i :: 0 <= i < |teams| ==> r[i] == TeamRow(teams[i], recs)
  {
    if teams == [] then [] else [TeamRow(teams[0], recs)] + SummaryRows(teams[1..], recs)
  }

  /** `groupby('Team').agg(PF_avg=('PF', 'mean'), PA_avg=('PA', 'mean')).reset_index()`. */
  function Summarise(recs: seq<TeamRecord>): seq<TeamSummary>
  {
    SummaryRows(SortedTeams(recs), recs)
  }

  /** The summary has exactly one row per distinct team, in ascending order
      of team name. */
  lemma SummariseTeams(recs: seq<TeamRecord>)
    ensures var r := Summarise(recs);
      && |r| == |Teams(recs)|
      && (forall i, j :: 0 <= i < j < |r| ==> LexLess(r[i].team, r[j].team))
      && (forall t :: t in Teams(recs) <==> exists i :: 0 <= i < |r| && r[i].team == t)
  {
    var teams := SortedTeams(recs);
    var r := Summarise(recs);
    SortedTeamsCard(recs);
    assert forall i :: 0 <= i < |r| ==> r[i].team == teams[i];
    forall t | t in Teams(recs) ensures exists i :: 0 <= i < |r| && r[i].team == t {
      var i :| 0 <= i < |teams| && teams[i] == t;
      assert r[i].team == t;
    }
  }

  /** Each summary row holds the means of its team's PF and PA. */
  lemma SummariseMeans(recs: seq<TeamRecord>)
    ensures var r := Summarise(recs);
      forall i :: 0 <= i < |r| ==>
        var group := RecordsOf(recs, r[i].team);
        && |group| > 0
        && r[i].pfAvg == Mean(PointsFor(group))
        && r[i].paAvg == Mean(PointsAgainst(group))
  {
    var teams := SortedTeams(recs);
    var r := Summarise(recs);
    forall i | 0 <= i < |r|
      ensures var group := RecordsOf(recs, r[i].team);
        && |group| > 0
        && r[i].pfAvg == Mean(PointsFor(group))
        && r[i].paAvg == Mean(PointsAgainst(group))
    {
      assert r[i] == TeamRow(teams[i], recs);
      RecordsOfTeams(recs, teams[i]);
    }
  }

  lemma SortedTeamsCard(recs: seq<TeamRecord>)
    ensures |SortedTeams(recs)| == |Teams(recs)|
  {
    var teams := SortedTeams(recs);
    StrictlySortedCard(teams);
    assert (set x | x in teams) == Teams(recs);
  }
}
