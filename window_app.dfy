/** The two data paths of `premiership_window_app.py`: the season ladder
    (`fetch_year_standings`) and the rolling form over the last N games
    (`fetch_rolling_form`). API answers are passed in: the standings list,
    and a function from a year to that season's games list. */
module WindowApp {
  import opened Wrappers
  import opened Text
  import opened Stats
  import opened Records

  /** `fetch_year_standings(year)`: one row per standings entry, in order,
      with points per game. An empty standings list builds a frame with no
      `PF` column, and the division raises KeyError. */
  method FetchYearStandings(standings: seq<StandingsEntry>)
    returns (r: Result<seq<TeamSummary>, FrameError>)
    requires AllPlayed(standings)
    ensures r.Failure? <==> standings == []
    ensures r.Success? ==> |r.value| == |standings|
    ensures r.Success? ==> forall i :: 0 <= i < |standings| ==>
      && r.value[i].team == standings[i].name
      && r.value[i].pfAvg * (standings[i].played as real) == standings[i].pointsFor as real
      && r.value[i].paAvg * (standings[i].played as real) == standings[i].pointsAgainst as real
  {
    if standings == [] {
      return Failure(MissingColumn("PF"));
    }
    var n := |standings|;
    var pfAvg := seq(n, i requires 0 <= i < n => PerGame(standings[i].pointsFor, standings[i].played));
    var paAvg := seq(n, i requires 0 <= i < n => PerGame(standings[i].pointsAgainst, standings[i].played));
    r := Success(seq(n, i requires 0 <= i < n => TeamSummary(standings[i].name, pfAvg[i], paAvg[i])));
  }

  /** The games lists of `years`, concatenated in order (`games += …`). */
  function Pooled(seasonGames: int -> seq<Game>, years: seq<int>): seq<Game>
  {
    if years == [] then []
    else Pooled(seasonGames, years[..|years| - 1]) + seasonGames(years[|years| - 1])
  }

  predicate DateDescending(rs: seq<TeamRecord>)
  {
    forall i, j :: 0 <= i < j < |rs| ==> rs[i].date >= rs[j].date
  }

  /** A record that is no later than the head of a most-recent-first list
      can go in front of it. */
  lemma ConsDescending(h: TeamRecord, rs: seq<TeamRecord>)
    requires DateDescending(rs)
    requires rs != [] ==> h.date >= rs[0].date
    ensures DateDescending([h] + rs)
  {
    var s := [h] + rs;
    forall i, j | 0 <= i < j < |s| ensures s[i].date >= s[j].date {
      if i == 0 && j > 1 {
        assert s[j] == rs[j - 1];
      }
    }
  }

  /** Insertion of one record before the first record no later than it. */
  function InsertByDate(x: TeamRecord, rs: seq<TeamRecord>): seq<TeamRecord>
  {
    if rs == [] || x.date >= rs[0].date then [x] + rs
    else [rs[0]] + InsertByDate(x, rs[1..])
  }

  /** Inserting into a most-recent-first list keeps it so, adds exactly the
      one record, and leaves at the front either it or the old head. */
  lemma {:induction false} InsertByDateSpec(x: TeamRecord, rs: seq<TeamRecord>)
    requires DateDescending(rs)
    ensures DateDescending(InsertByDate(x, rs))
    ensures multiset(InsertByDate(x, rs)) == multiset(rs) + multiset{x}
    ensures InsertByDate(x, rs)[0] == x || (rs != [] && InsertByDate(x, rs)[0] == rs[0])
  {
    if rs == [] || x.date >= rs[0].date {
      ConsDescending(x, rs);
    } else {
      var tail := rs[1..];
      assert tail != [] ==> rs[0].date >= tail[0].date;
      assert DateDescending(tail);
      InsertByDateSpec(x, tail);
      ConsDescending(rs[0], InsertByDate(x, tail));
      assert rs == [rs[0]] + tail;
    }
  }

  /** A team's records most recent first (the `Date` part of
      `sort_values(['Team', 'Date'], ascending=[True, False])`). */
  function SortByDateDesc(rs: seq<TeamRecord>): (r: seq<TeamRecord>)
    ensures DateDescending(r)
    ensures multiset(r) == multiset(rs)
  {
    if rs == [] then []
    else
      assert rs == [rs[0]] + rs[1..];
      InsertByDateSpec(rs[0], SortByDateDesc(rs[1..]));
      InsertByDate(rs[0], SortByDateDesc(rs[1..]))
  }

  /** `groupby('Team').head(num_games)` for one team: its first `n` records
      in most-recent-first order. */
  function MostRecent(recs: seq<TeamRecord>, t: string, n: nat): seq<TeamRecord>
  {
    var s := SortByDateDesc(RecordsOf(recs, t));
    if n <= |s| then s[..n] else s
  }

  /** The split of a team's sorted records into the kept head and the dropped rest. */
  lemma MostRecentSplit(recs: seq<TeamRecord>, t: string, n: nat)
    ensures var s, sel := SortByDateDesc(RecordsOf(recs, t)), MostRecent(recs, t, n);
      var k := if n <= |s| then n else |s|;
      && sel == s[..k]
      && multiset(RecordsOf(recs, t)) == multiset(sel) + multiset(s[k..])
  {
    var s := SortByDateDesc(RecordsOf(recs, t));
    var k := if n <= |s| then n else |s|;
    TakeDropMultiset(s, k);
  }

  lemma TakeDropMultiset(s: seq<TeamRecord>, k: nat)
    requires k <= |s|
    ensures multiset(s) == multiset(s[..k]) + multiset(s[k..])
  {
    assert s == s[..k] + s[k..];
  }

  /** A team with m records keeps exactly min(m, n) of them, all its own. */
  lemma MostRecentSpec(recs: seq<TeamRecord>, t: string, n: nat)
    ensures var sel, all := MostRecent(recs, t, n), RecordsOf(recs, t);
      && |sel| == (if n <= |all| then n else |all|)
      && multiset(sel) <= multiset(all)
      && (forall x :: x in sel ==> x.team == t)
  {
    var all := RecordsOf(recs, t);
    var sel := MostRecent(recs, t, n);
    MostRecentSplit(recs, t, n);
    assert |SortByDateDesc(all)| == |all| by {
      assert |multiset(SortByDateDesc(all))| == |multiset(all)|;
    }
    forall x | x in sel ensures x.team == t {
      assert x in multiset(all);
    }
  }

  lemma DescendingSplit(s: seq<TeamRecord>, k: nat)
    requires DateDescending(s) && k <= |s|
    ensures forall x, y :: x in s[..k] && y in s[k..] ==> x.date >= y.date
  {
    forall x, y | x in s[..k] && y in s[k..] ensures x.date >= y.date {
      var i :| 0 <= i < k && s[..k][i] == x;
      var j :| 0 <= j < |s| - k && s[k..][j] == y;
      assert s[i] == x && s[k + j] == y;
    }
  }

  /** None of the records a team drops is more recent than one it keeps. */
  lemma MostRecentIsLatest(recs: seq<TeamRecord>, t: string, n: nat)
    ensures var sel, all := MostRecent(recs, t, n), RecordsOf(recs, t);
      forall x, y :: x in sel && y in multiset(all) - multiset(sel) ==> x.date >= y.date
  {
    var s := SortByDateDesc(RecordsOf(recs, t));
    var k := if n <= |s| then n else |s|;
    MostRecentSplit(recs, t, n);
    DescendingSplit(s, k);
    var dropped := multiset(RecordsOf(recs, t)) - multiset(MostRecent(recs, t, n));
    assert dropped == multiset(s[k..]);
  }

  /** The selected records, team block after team block. */
  function RecentBlocks(teams: seq<string>, recs: seq<TeamRecord>, n: nat): seq<TeamRecord>
  {
    if teams == [] then [] else MostRecent(recs, teams[0], n) + RecentBlocks(teams[1..], recs, n)
  }

  /** `df_flat.sort_values(['Team', 'Date'], ascending=[True, False])
      .groupby('Team').head(num_games)`. */
  function RecentRecords(recs: seq<TeamRecord>, n: nat): seq<TeamRecord>
  {
    RecentBlocks(SortedTeams(recs), recs, n)
  }

  lemma {:induction false} RecordsOfAppend(a: seq<TeamRecord>, b: seq<TeamRecord>, t: string)
    ensures RecordsOf(a + b, t) == RecordsOf(a, t) + RecordsOf(b, t)
  {
    if a == [] {
      assert a + b == b;
    } else {
      assert (a + b)[1..] == a[1..] + b;
      RecordsOfAppend(a[1..], b, t);
    }
  }

  lemma {:induction false} RecordsOfOneTeam(s: seq<TeamRecord>, u: string, t: string)
    requires forall x :: x in s ==> x.team == u
    ensures RecordsOf(s, t) == if u == t then s else []
  {
    if s != [] {
      RecordsOfOneTeam(s[1..], u, t);
      assert s == [s[0]] + s[1..];
    }
  }

  lemma NotInTail(teams: seq<string>)
    requires StrictlySorted(teams) && teams != []
    ensures teams[0] !in teams[1..]
  {
    forall j | 1 <= j < |teams| ensures teams[j] != teams[0] {
      LexLessIrreflexive(teams[0]);
    }
  }

  lemma BlockOf(recs: seq<TeamRecord>, u: string, n: nat, t: string)
    ensures RecordsOf(MostRecent(recs, u, n), t) == if u == t then MostRecent(recs, u, n) else []
  {
    MostRecentSpec(recs, u, n);
    RecordsOfOneTeam(MostRecent(recs, u, n), u, t);
  }

  /** Regrouping the selected records gives back each team's selection. */
  lemma {:induction false} RecordsOfBlocks(teams: seq<string>, recs: seq<TeamRecord>, n: nat, t: string)
    requires StrictlySorted(teams)
    ensures RecordsOf(RecentBlocks(teams, recs, n), t) == if t in teams then MostRecent(recs, t, n) else []
  {
    if teams != [] {
      var u := teams[0];
      RecordsOfAppend(MostRecent(recs, u, n), RecentBlocks(teams[1..], recs, n), t);
      BlockOf(recs, u, n, t);
      RecordsOfBlocks(teams[1..], recs, n, t);
      NotInTail(teams);
      assert t in teams <==> t == u || t in teams[1..];
    }
  }

  /** With n >= 1 every team keeps at least one record, so the selection
      names the same teams; with n = 0 nothing is selected. */
  lemma RecentRecordsTeams(recs: seq<TeamRecord>, n: nat)
    ensures n >= 1 ==> Teams(RecentRecords(recs, n)) == Teams(recs)
    ensures n == 0 ==> RecentRecords(recs, n) == []
    ensures forall t :: (RecordsOf(RecentRecords(recs, n), t) ==
      if t in Teams(recs) then MostRecent(recs, t, n) else [])
  {
    var teams := SortedTeams(recs);
    var sel := RecentRecords(recs, n);
    forall t ensures RecordsOf(sel, t) == if t in Teams(recs) then MostRecent(recs, t, n) else [] {
      RecordsOfBlocks(teams, recs, n, t);
    }
    if n >= 1 {
      forall t ensures t in Teams(sel) <==> t in Teams(recs) {
        RecordsOfTeams(recs, t);
        RecordsOfTeams(sel, t);
        MostRecentSpec(recs, t, n);
      }
    } else {
      RecentBlocksNone(teams, recs);
    }
  }

  lemma {:induction false} RecentBlocksNone(teams: seq<string>, recs: seq<TeamRecord>)
    ensures RecentBlocks(teams, recs, 0) == []
  {
    if teams != [] {
      RecentBlocksNone(teams[1..], recs);
    }
  }

  /** What `fetch_rolling_form` returns for the pooled games of both seasons.
      No pooled games leaves no `complete` column; no completed games leaves
      an empty records frame with no `Team` column to sort by. Both raise
      KeyError. */
  function RollingFormResult(pooled: seq<Game>, n: nat): (r: Result<seq<TeamSummary>, FrameError>)
    ensures r.Failure? <==> CompletedGames(pooled) == []
  {
    if pooled == [] then Failure(MissingColumn("complete"))
    else if CompletedGames(pooled) == [] then Failure(MissingColumn("Team"))
    else Success(Summarise(RecentRecords(Flatten(CompletedGames(pooled)), n)))
  }

  /** `fetch_rolling_form(num_games, current_year)`. */
  method FetchRollingForm(numGames: nat, currentYear: int, seasonGames: int -> seq<Game>)
    returns (r: Result<seq<TeamSummary>, FrameError>)
    ensures r == RollingFormResult(seasonGames(currentYear) + seasonGames(currentYear - 1), numGames)
  {
    var years := [currentYear, currentYear - 1];
    var games: seq<Game> := [];
    for k := 0 to |years|
      invariant games == Pooled(seasonGames, years[..k])
    {
      games := games + seasonGames(years[k]);
      assert years[..k + 1][..k] == years[..k];
    }
    assert years[..2] == years && years[..2][..1] == [currentYear] && years[..1][..0] == [];
    assert games == seasonGames(currentYear) + seasonGames(currentYear - 1);
    if games == [] {
      return Failure(MissingColumn("complete"));
    }
    var dfGames := CompletedGames(games);
    var records := FlattenGames(dfGames);
    assert records == [] <==> dfGames == [];
    if records == [] {
      return Failure(MissingColumn("Team"));
    }
    var recent := RecentRecords(records, numGames);
    r := Success(Summarise(recent));
  }

  /** Rolling form, team by team: every team of a completed game of either
      season has exactly one row (for n >= 1), averaged over its min(m, n)
      most recent records. */
  lemma RollingFormRows(pooled: seq<Game>, n: nat)
    requires CompletedGames(pooled) != []
    ensures var kept := CompletedGames(pooled);
      var recs := Flatten(kept);
      var r := RollingFormResult(pooled, n).value;
      && (n == 0 ==> r == [])
      && (n >= 1 ==> |r| == |HomeTeams(kept) + AwayTeams(kept)|)
      && (n >= 1 ==> forall t :: t in HomeTeams(kept) + AwayTeams(kept) <==>
            exists i :: 0 <= i < |r| && r[i].team == t)
      && (forall i :: 0 <= i < |r| ==>
            var all, sel := RecordsOf(recs, r[i].team), MostRecent(recs, r[i].team, n);
            && |sel| > 0
            && |sel| == (if n <= |all| then n else |all|)
            && r[i].pfAvg == Mean(PointsFor(sel))
            && r[i].paAvg == Mean(PointsAgainst(sel)))
  {
    var kept := CompletedGames(pooled);
    var recs := Flatten(kept);
    var sel := RecentRecords(recs, n);
    var r := Summarise(sel);
    TeamsOfFlatten(kept);
    RecentRecordsTeams(recs, n);
    SummariseTeams(sel);
    SummariseMeans(sel);
    forall i | 0 <= i < |r|
      ensures var all, mine := RecordsOf(recs, r[i].team), MostRecent(recs, r[i].team, n);
        && |mine| > 0
        && |mine| == (if n <= |all| then n else |all|)
        && r[i].pfAvg == Mean(PointsFor(mine))
        && r[i].paAvg == Mean(PointsAgainst(mine))
    {
      var t := r[i].team;
      MostRecentSpec(recs, t, n);
      assert RecordsOf(sel, t) != [];
    }
  }
}
