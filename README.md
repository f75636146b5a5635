# AFL premiership window — a Dafny model

This project models the data pipeline behind the "AFL premiership window"
charts. Each chart places every team by two ranks:

- its points-for rank, where higher is better;
- its points-against rank, where lower is better.

Three front ends produce the team tables behind the charts. Each is modelled:

- **Season form** (`afl-premiership-window/utils.py`, `fetch_team_form`).
  The steps are:
  - keep the completed games;
  - normalise the round field (`map_round`) and keep the games whose round
    lies in an inclusive range;
  - flatten every game into a home record and an away record;
  - average points for and against per team, with teams in sorted order.

  Modules `Records` and `TeamForm`.
- **Season ladder and rolling form** (`premiership_window_app.py`).
  - The ladder turns a season's standings into per-game averages.
  - The rolling form pools two seasons of games, keeps the completed ones,
    flattens them, keeps each team's `n` most recent records, and averages them.

  Module `WindowApp`.
- **Standalone ladder script** (`premiership_window.py`). It builds a frame
  from the standings, then adds the per-game columns and the two rank columns
  in place. Module `LadderScript`, class `LadderFrame`.

Module `Ranking` holds the shared min-method ranking
(`Series.rank(method='min')`), written as a function with its properties.
Class `SummaryFrame` in the same module models the rank columns that
`plot_premiership_matrix` assigns in place.

Module `FormPage` models the Streamlit page of `afl-premiership-window/app.py`:

- the round label tables (`ROUND_DISPLAY`, `label_to_value`);
- the slider options and their defaults;
- the selected round range;
- the chart title and its " + Finals" suffix;
- the choice between the empty-result warning and a ranked chart.

Supporting modules:

- `Wrappers`: `Option`, `Result`, and the missing-column error.
- `Text`: ASCII lower-casing, digit strings, decimal rendering, and the
  code-point string order pandas sorts team names by.
- `Stats`: sums, means and per-game quotients over exact rationals.

A pandas `KeyError` on a frame with no columns is modelled as
`Failure(MissingColumn(c))`. This covers:

- `fetch_team_form` given no games (column `complete`);
- `fetch_rolling_form` with no games at all (`complete`), or with no
  completed game (`Team`);
- either standings function given no standings (`PF`).

## Model

| member | source | states |
|---|---|---|
| Text.NatToStringRoundTrip | afl-premiership-window/app.py:57 | the decimal text of a round is all digits and reads back as that round |
| Text.NatToStringInjective | afl-premiership-window/app.py:30 | two rounds with the same decimal text are the same round |
| Text.InsertSorted | afl-premiership-window/utils.py:71 | inserting a team name keeps the group keys strictly sorted; the result holds exactly the old keys and the new name |
| Text.LexLessTotal | afl-premiership-window/utils.py:71 | any two distinct team names are ordered one way or the other |
| Text.LexLessTransitive | afl-premiership-window/utils.py:71 | the name order is transitive |
| Stats.Mean | afl-premiership-window/utils.py:72 | the mean of a non-empty column times its length is the column's sum |
| Stats.MeanBounds | afl-premiership-window/utils.py:72 | a mean lies between any lower and upper bound of the values |
| Stats.PerGame | premiership_window_app.py:47-48 | the per-game average times games played gives back the season total |
| Records.CompletedGames | afl-premiership-window/utils.py:43 | each completed game is kept as often as it occurs; every other game is dropped |
| Records.Flatten | afl-premiership-window/utils.py:58-61 | two records per game: the home record at 2k and the away record, with the scores swapped, at 2k+1 |
| Records.FlattenGames | afl-premiership-window/utils.py:58-61 | the append loop yields exactly the flattened records |
| Records.FlattenBalanced | afl-premiership-window/utils.py:60-61 | over all records, total points for equals total points against |
| Records.TeamsOfFlatten | afl-premiership-window/utils.py:60-61 | the teams of the records are exactly the home teams and the away teams of the games |
| Records.RecordsOf | afl-premiership-window/utils.py:71 | a team's group holds only that team's records |
| Records.RecordsOfComplete | afl-premiership-window/utils.py:71 | a team's group holds every record of that team, as often as it occurs in the frame, and no other record |
| Records.RecordsOfTeams | afl-premiership-window/utils.py:71 | a team's group is non-empty exactly when the team has a record |
| Records.SortedTeams | afl-premiership-window/utils.py:71-73 | the group keys are strictly sorted and are exactly the teams of the records |
| Records.SortedTeamsCard | afl-premiership-window/utils.py:71-73 | there is one group key per distinct team |
| Records.Summarise | afl-premiership-window/utils.py:70-74 | definition of the grouped summary, one row per sorted group key; its properties are stated by `SummariseTeams` and `SummariseMeans` |
| Records.SummariseTeams | afl-premiership-window/utils.py:70-74 | one summary row per distinct team, in sorted order; a name has a row exactly when it has a record |
| Records.SummariseMeans | afl-premiership-window/utils.py:72 | each row's PF_avg and PA_avg are the means over exactly that team's records |
| Ranking.MinRank | afl-premiership-window/utils.py:79-80 | one rank per value |
| Ranking.MinRankBounds | afl-premiership-window/utils.py:79-80 | every rank lies in 1..n |
| Ranking.MinRankOrder | premiership_window_app.py:79-80 | a strictly better rank exactly when the value is strictly ahead; equal ranks exactly when the values tie |
| Ranking.MinRankTop | premiership_window.py:57-58 | a non-empty column has a team ranked 1 |
| Ranking.MinRankCompetition | premiership_window.py:57-58 | a rank is one plus the number of strictly better ranks (tied teams share the smallest rank) |
| Ranking.SummaryFrame.constructor | afl-premiership-window/utils.py:78 | the frame holds the summary rows and no rank columns yet |
| Ranking.SummaryFrame.AddRankColumns | afl-premiership-window/utils.py:79-80 | leaves the rows unchanged and adds the PF rank (descending) and the PA rank (ascending), each within 1..n |
| TeamForm.FinalsLabelsMatch | afl-premiership-window/utils.py:35 | the finals labels listed in round order are exactly the keys of the finals map, the k-th mapping to round 26 + k |
| TeamForm.MapRound | afl-premiership-window/utils.py:46-53 | a text round never maps to anything but 0 or a finals round 26..30; `MapRoundString` and `MapRoundFinals` state which text maps where |
| TeamForm.MapRoundFinals | afl-premiership-window/utils.py:35 | QF, EF, SF, PF and GF map to rounds 26..30 |
| TeamForm.MapRoundString | afl-premiership-window/utils.py:46-53 | a text round maps to 0 exactly when it starts with "opening" in any case; otherwise to a finals round or to nothing |
| TeamForm.GamesInRounds | afl-premiership-window/utils.py:55-56 | a game is kept, as often as it occurs, exactly when its mapped round lies in the inclusive range |
| TeamForm.KeptGames | afl-premiership-window/utils.py:43-56 | definition of the games surviving both filters; `KeptGamesSpec` states which games those are |
| TeamForm.KeptGamesSpec | afl-premiership-window/utils.py:43-56 | the games kept are the complete games in range; an inverted range keeps none |
| TeamForm.SummariseEmptyIff | afl-premiership-window/utils.py:63-66 | the summary is empty exactly when there are no records |
| TeamForm.TeamFormResult | afl-premiership-window/utils.py:38-75 | definition of the value `fetch_team_form` returns; `FetchTeamForm`, `SummariseEmptyIff` and `TeamFormRows` state its failure case and its rows |
| TeamForm.FetchTeamForm | afl-premiership-window/utils.py:38-75 | fails exactly on an empty games list; otherwise the summary of the kept games, empty exactly when no game is kept |
| TeamForm.TeamFormRows | afl-premiership-window/utils.py:58-75 | one row per team of a kept game, averaging exactly that team's records |
| WindowApp.FetchYearStandings | premiership_window_app.py:38-49 | fails exactly on empty standings; otherwise one row per team, in order, with its name and per-game PF and PA |
| WindowApp.Pooled | premiership_window_app.py:52-56 | definition of the games of several seasons concatenated in year order; `FetchRollingForm` states the two seasons it pools |
| WindowApp.InsertByDateSpec | premiership_window_app.py:68 | inserting a record keeps a list most-recent-first and adds exactly that record |
| WindowApp.SortByDateDesc | premiership_window_app.py:68 | a team's records reordered most-recent-first, as a permutation |
| WindowApp.MostRecent | premiership_window_app.py:68-71 | definition of a team's `head(n)` group; `MostRecentSplit`, `MostRecentSpec` and `MostRecentIsLatest` state its size, contents and recency |
| WindowApp.RecentRecords | premiership_window_app.py:68-71 | definition of the `head(n)` frame, the groups in sorted team order; `RecentRecordsTeams` states its teams and per-team contents |
| WindowApp.MostRecentSplit | premiership_window_app.py:69-71 | a team's records split into the kept head and the dropped rest |
| WindowApp.MostRecentSpec | premiership_window_app.py:69-71 | a team with m records keeps min(m, n) of them, all its own |
| WindowApp.MostRecentIsLatest | premiership_window_app.py:68-71 | no dropped record is more recent than a kept one |
| WindowApp.RecentRecordsTeams | premiership_window_app.py:69-72 | with n >= 1 the selection names the same teams; with n = 0 it is empty; per team it is that team's most recent records |
| WindowApp.RollingFormResult | premiership_window_app.py:58-76 | fails exactly when no pooled game is complete (no games at all, or none complete); `RollingFormRows` states its rows |
| WindowApp.FetchRollingForm | premiership_window_app.py:51-76 | pools the current and the previous season in that order, then fails or summarises as the result function defines |
| WindowApp.RollingFormRows | premiership_window_app.py:63-75 | for n >= 1, one row per team of a completed game, averaged over exactly its min(m, n) most recent records; for n = 0 no rows |
| FormPage.DisplayUpTo | afl-premiership-window/app.py:27-28 | one label per round, in round order |
| FormPage.RoundDisplayEntry | afl-premiership-window/app.py:19-28 | round 0 reads "OR", rounds 26..30 read QF, EF, SF, PF, GF, and every other round reads its number |
| FormPage.LabelValuesInverse | afl-premiership-window/app.py:29 | the label table inverts `ROUND_LABELS` in both directions |
| FormPage.DigitsUpTo | afl-premiership-window/app.py:30 | each number below n is keyed by its decimal text, and every key is the text of its value |
| FormPage.DigitValuesKeys | afl-premiership-window/app.py:30 | every key of the digit table is a digit string |
| FormPage.LabelToValueDigits | afl-premiership-window/app.py:30 | "0".."30" map to their numeric value |
| FormPage.LabelToValueInverts | afl-premiership-window/app.py:28-30 | every slider label reads back as its own round |
| FormPage.LabelToValueKeys | afl-premiership-window/app.py:29-30 | every key names a round 0..30, as that round's label or its number |
| FormPage.FinalsLabelsAgree | afl-premiership-window/app.py:21-25 | the slider's finals labels name the rounds the games API's finals labels map to |
| FormPage.RoundOptions | afl-premiership-window/app.py:36 | definition of the slider options; `RoundOptionsSpec` states their number and values |
| FormPage.DefaultRounds | afl-premiership-window/app.py:37 | definition of the initial selection; `RoundOptionsSpec` states it is the first and the last option |
| FormPage.RoundOptionsSpec | afl-premiership-window/app.py:36-37 | 31 options with finals and 26 without; the defaults are the first and last options; option k reads back as round k |
| FormPage.SelectedRange | afl-premiership-window/app.py:45 | the selected range lies in 0..30, and in 0..25 without finals |
| FormPage.OptionIsLabel | afl-premiership-window/app.py:36 | every slider option is one of the round labels |
| FormPage.OptionValue | afl-premiership-window/app.py:45 | every option has a value below the number of options |
| FormPage.FormatTitleLabel | afl-premiership-window/app.py:56-59 | a label is shown as it is, or with an "R" prefix when it is a digit string; `FormatTitleLabelRounds` states which rounds get the prefix |
| FormPage.FormatTitleLabelRounds | afl-premiership-window/app.py:56-59 | rounds 1..24 get an "R" prefix; "OR", "25" and the finals labels are unchanged |
| FormPage.FormattedLabelLastChar | afl-premiership-window/app.py:61 | no formatted label ends with the suffix's last letter |
| FormPage.BuildTitle | afl-premiership-window/app.py:61-63 | the title is the base text, followed by " + Finals" when finals are included and the range ends after round 25, and by nothing otherwise; it ends with " + Finals" exactly in that case |
| FormPage.RenderPage | afl-premiership-window/app.py:45-70 | a failed fetch shows nothing; an empty table shows the warning, exactly when there are games but none is both complete and in range; otherwise a chart of the rows with their ranks, under the title with the " + Finals" suffix exactly when finals are included and the range ends after round 25 |
| LadderScript.LadderFrame.constructor | premiership_window.py:45-50 | the frame holds the standings rows and none of the added columns |
| LadderScript.LadderFrame.AddPerGameColumns | premiership_window.py:53-54 | adds per-game PF and PA columns, one per row, each times games played giving the total; nothing else changes |
| LadderScript.LadderFrame.AddRankColumns | premiership_window.py:57-58 | adds PF (descending) and PA (ascending) min ranks; better rank exactly when strictly ahead, shared rank exactly on a tie |
| LadderScript.RunScript | premiership_window.py:45-58 | fails with missing `PF` exactly on empty standings; otherwise a new frame with the standings, both per-game columns and both ranks |

## Left out

- HTTP requests, JSON decoding and the `User-Agent` headers are not modelled. The games and standings lists are inputs. So are the per-year game lists pooled by the rolling form, given as a function from year to games.
- The season of `fetch_team_form` and the year of `fetch_year_standings` are used only in the request URL, so those two fetch functions do not take them. `WindowApp.FetchRollingForm` takes the current year, because it chooses which two seasons are pooled.
- `pd.to_datetime` is not modelled. Dates are integers ordered as the timestamps would be.
- Plotting, logos, `savefig`, the PNG download and the Streamlit widgets are not modelled.
- The mode radio in `premiership_window_app.py:145-154` is not modelled. It calls the modelled functions and the plot.
- The chart titles of `premiership_window_app.py` are not modelled. Only the title of `afl-premiership-window/app.py` is.
- Floating point is not modelled. Averages are exact rationals, so ties between ranks are exact ties rather than float ties.
- Stats.PerGame: a team with zero games played is excluded by precondition. pandas would give `inf` or `NaN`, which exact rationals cannot represent.
- Text.Lower: only ASCII letters are lower-cased, and `isdigit` accepts only ASCII digits. Python's Unicode case mapping and Unicode digits are not modelled.
- WindowApp.SortByDateDesc: the model keeps a team's same-day records in pooled order (current season first), because its insertion sort is stable. In the source that order comes from the unstable date sort of the pooled games (`premiership_window_app.py:61`); the later `(Team, Date)` sort at line 68 keeps it. The contract pins the multiset, the date order and that the kept records are the latest, not the tie order.
- The date sort of the pooled games (`premiership_window_app.py:61`) is not modelled separately. The later sort by team and date decides everything except that same-day tie order.
- The `(Team, Date)` sort before the grouping in `fetch_team_form` (`afl-premiership-window/utils.py:68`) is not modelled. A mean does not depend on order.
- `fetch_team_form`'s `include_finals` argument is never read by the source. `TeamForm.FetchTeamForm` takes it and ignores it.
- `head(n)` with a negative `n` is not modelled. The slider only offers 3..15, and the model takes a natural number.
- The commented-out premiership-window flag and bounding box (`premiership_window.py:59-64`) are not modelled. They are dead code.
- `label_to_value` (`afl-premiership-window/app.py:29`) is written as a literal map. `FormPage.LabelValuesInverse` proves it is the inverse of the round labels.
