/** The Streamlit page of `afl-premiership-window/app.py`: the round-label
    tables behind the round slider, the chart title, and the choice between
    a warning and a chart. Widget values (season, finals flag, the two
    slider labels) and the games list are inputs. */
module FormPage {
  import opened Wrappers
  import opened Text
  import opened Records
  import opened Ranking
  import opened TeamForm

  const MaxHomeAwayRound := 25
  const MaxFinalRound := 30

  /** `ROUND_LABELS`: the rounds whose slider label is not their number. */
  const RoundLabels: map<int, string> :=
    map[0 := "OR", 26 := "QF", 27 := "EF", 28 := "SF", 29 := "PF", 30 := "GF"]

  /** The slider label of round r: its name when it has one, else its number. */
  function RoundLabel(r: nat): string
  {
    if r in RoundLabels then RoundLabels[r] else NatToString(r)
  }

  /** The labels of rounds 0..n-1, in round order. */
  function DisplayUpTo(n: nat): (s: seq<string>)
    ensures |s| == n
    ensures forall r :: 0 <= r < n ==> s[r] == RoundLabel(r)
  {
    if n == 0 then [] else DisplayUpTo(n - 1) + [RoundLabel(n - 1)]
  }

  /** `ROUND_DISPLAY`: the slider label of every round 0..30. */
  const RoundDisplay: seq<string> := DisplayUpTo(MaxFinalRound + 1)

  /** `{v: k for k, v in ROUND_LABELS.items()}`, written out. */
  const LabelValues: map<string, int> :=
    map["OR" := 0, "QF" := 26, "EF" := 27, "SF" := 28, "PF" := 29, "GF" := 30]

  /** The written-out table is the inverse of `ROUND_LABELS`, in both directions. */
  lemma LabelValuesInverse()
    ensures forall r :: r in RoundLabels ==> RoundLabels[r] in LabelValues && LabelValues[RoundLabels[r]] == r
    ensures forall k :: k in LabelValues ==> LabelValues[k] in RoundLabels && RoundLabels[LabelValues[k]] == k
  {
  }

  /** No number below n is written the same way as n. */
  lemma NatToStringFresh(n: nat)
    ensures forall i :: 0 <= i < n ==> NatToString(i) != NatToString(n)
  {
    forall i | 0 <= i < n && NatToString(i) == NatToString(n) ensures false {
      NatToStringInjective(i, n);
    }
  }

  /** `{str(i): i for i in range(0, n)}`. */
  function DigitsUpTo(n: nat): (m: map<string, int>)
    ensures forall i :: 0 <= i < n ==> NatToString(i) in m && m[NatToString(i)] == i
    ensures forall k :: k in m ==> 0 <= m[k] < n && k == NatToString(m[k])
  {
    if n == 0 then map[]
    else
      NatToStringFresh(n - 1);
      DigitsUpTo(n - 1)[NatToString(n - 1) := n - 1]
  }

  /** `{str(i): i for i in range(0, 31)}`. */
  const DigitValues: map<string, int> := DigitsUpTo(MaxFinalRound + 1)

  /** `label_to_value` after its `.update`: a right-biased union of maps. */
  const LabelToValue: map<string, int> := LabelValues + DigitValues

  /** Round r is labelled "OR" for 0, "QF", "EF", "SF", "PF", "GF" for
      26..30 (the labels the games API uses for the same finals) and its
      number otherwise. */
  lemma RoundDisplayEntry(r: nat)
    requires r <= MaxFinalRound
    ensures |RoundDisplay| == MaxFinalRound + 1
    ensures RoundDisplay[r] ==
      if r == 0 then "OR"
      else if r > MaxHomeAwayRound then FinalsLabels[r - MaxHomeAwayRound - 1]
      else NatToString(r)
  {
  }

  /** The digit strings "0".."30" map to their numeric value. */
  lemma LabelToValueDigits(i: nat)
    requires i <= MaxFinalRound
    ensures NatToString(i) in LabelToValue && LabelToValue[NatToString(i)] == i
  {
  }

  /** Every key of the digit table is a string of decimal digits. */
  lemma DigitValuesKeys()
    ensures forall k :: k in DigitValues ==> IsDigits(k)
  {
    forall k | k in DigitValues ensures IsDigits(k) {
      NatToStringRoundTrip(DigitValues[k]);
    }
  }

  /** `label_to_value` inverts `ROUND_DISPLAY`: every label reads back as its round. */
  lemma LabelToValueInverts(r: nat)
    requires r <= MaxFinalRound
    ensures RoundDisplay[r] in LabelToValue && LabelToValue[RoundDisplay[r]] == r
  {
    if r in RoundLabels {
      var name := RoundLabels[r];
      LabelValuesInverse();
      assert !IsDigits(name) by {
        assert !IsDigit(name[0]);
      }
      DigitValuesKeys();
    }
  }

  /** Every key of `label_to_value` names a round 0..30: it is that round's
      slider label or that round's number. */
  lemma LabelToValueKeys(k: string)
    requires k in LabelToValue
    ensures 0 <= LabelToValue[k] <= MaxFinalRound
    ensures k == RoundDisplay[LabelToValue[k]] || k == NatToString(LabelToValue[k])
  {
    if k !in DigitValues {
      LabelValuesInverse();
      assert RoundDisplay[LabelValues[k]] == RoundLabels[LabelValues[k]];
    }
  }

  /** The finals labels of the slider name the same rounds as the finals
      labels of the games API. */
  lemma FinalsLabelsAgree(r: nat)
    requires MaxHomeAwayRound < r <= MaxFinalRound
    ensures MapRound(StrRound(RoundDisplay[r])) == Some(LabelToValue[RoundDisplay[r]])
  {
    LabelToValueInverts(r);
    MapRoundFinals(r - MaxHomeAwayRound - 1);
  }

  /** `round_options`: the labels the slider offers. */
  function RoundOptions(includeFinals: bool): seq<string>
  {
    if includeFinals then RoundDisplay[..MaxFinalRound + 1] else RoundDisplay[..MaxHomeAwayRound + 1]
  }

  /** `default_rounds`: the initial slider selection. */
  function DefaultRounds(includeFinals: bool): (string, string)
  {
    (RoundDisplay[0], RoundDisplay[if includeFinals then MaxFinalRound else MaxHomeAwayRound])
  }

  /** The options are the first 31 labels with finals and the first 26
      without; the default selection is the first and the last option; every
      option reads back as its own position, so without finals no option
      reaches past round 25. */
  lemma RoundOptionsSpec(includeFinals: bool)
    ensures |RoundOptions(includeFinals)| ==
      (if includeFinals then MaxFinalRound + 1 else MaxHomeAwayRound + 1)
    ensures RoundOptions(includeFinals) == RoundDisplay[..|RoundOptions(includeFinals)|]
    ensures DefaultRounds(includeFinals) ==
      (RoundOptions(includeFinals)[0], RoundOptions(includeFinals)[|RoundOptions(includeFinals)| - 1])
    ensures forall k :: 0 <= k < |RoundOptions(includeFinals)| ==>
      RoundOptions(includeFinals)[k] in LabelToValue && LabelToValue[RoundOptions(includeFinals)[k]] == k
  {
    var opts := RoundOptions(includeFinals);
    forall k | 0 <= k < |opts| ensures opts[k] in LabelToValue && LabelToValue[opts[k]] == k {
      LabelToValueInverts(k);
    }
  }

  /** `round_range`: the round numbers of the two selected labels. */
  function SelectedRange(selected: (string, string), includeFinals: bool): (range: (int, int))
    requires selected.0 in RoundOptions(includeFinals) && selected.1 in RoundOptions(includeFinals)
    ensures 0 <= range.0 <= MaxFinalRound && 0 <= range.1 <= MaxFinalRound
    ensures !includeFinals ==> range.0 <= MaxHomeAwayRound && range.1 <= MaxHomeAwayRound
  {
    OptionValue(includeFinals, selected.0);
    OptionValue(includeFinals, selected.1);
    (LabelToValue[selected.0], LabelToValue[selected.1])
  }

  lemma OptionValue(includeFinals: bool, option: string)
    requires option in RoundOptions(includeFinals)
    ensures option in LabelToValue && 0 <= LabelToValue[option] < |RoundOptions(includeFinals)|
  {
    RoundOptionsSpec(includeFinals);
  }

  /** Every option is a slider label. */
  lemma OptionIsLabel(includeFinals: bool, option: string)
    requires option in RoundOptions(includeFinals)
    ensures option in RoundDisplay
  {
    var opts := RoundOptions(includeFinals);
    var k :| 0 <= k < |opts| && opts[k] == option;
    assert RoundDisplay[k] == option;
  }

  /** `format_title_label`. */
  function FormatTitleLabel(lbl: string): (r: string)
    ensures r == lbl || (r == "R" + lbl && IsDigits(lbl))
  {
    if IsDigits(lbl) && 1 <= DigitsValue(lbl) <= 24 then "R" + lbl else lbl
  }

  /** Rounds 1..24 get an "R" prefix in the title; "OR", "25" and the finals
      labels are shown as they are. */
  lemma FormatTitleLabelRounds(r: nat)
    requires r <= MaxFinalRound
    ensures FormatTitleLabel(RoundDisplay[r]) ==
      if 1 <= r <= 24 then "R" + NatToString(r) else RoundDisplay[r]
  {
    if r in RoundLabels {
      assert !IsDigit(RoundDisplay[r][0]);
    } else {
      NatToStringRoundTrip(r);
    }
  }

  /** No slider label, however formatted, ends in the letter 's'. */
  lemma FormattedLabelLastChar(lbl: string)
    requires lbl in RoundDisplay
    ensures var f := FormatTitleLabel(lbl); |f| > 0 && f[|f| - 1] != 's'
  {
    var r :| 0 <= r < |RoundDisplay| && RoundDisplay[r] == lbl;
    if r !in RoundLabels {
      var s := NatToString(r);
      if r >= 10 {
        assert s[|s| - 1] == DigitChar(r % 10);
      }
    }
  }

  const FinalsSuffix := " + Finals"

  /** The title before the finals suffix. */
  function TitleBase(season: nat, selected: (string, string)): string
  {
    NatToString(season) + " AFL Premiership Window \U{2013} "
      + FormatTitleLabel(selected.0) + "\U{2013}" + FormatTitleLabel(selected.1)
  }

  /** `title = f"…"`, then `title += " + Finals"` when finals are included
      and the range ends after the home-and-away season. */
  method BuildTitle(season: nat, selected: (string, string), includeFinals: bool, roundEnd: int)
    returns (title: string)
    requires selected.1 in RoundDisplay
    ensures StartsWith(title, TitleBase(season, selected))
    ensures EndsWith(title, FinalsSuffix) <==> includeFinals && roundEnd > MaxHomeAwayRound
    ensures title == TitleBase(season, selected) +
      (if includeFinals && roundEnd > MaxHomeAwayRound then FinalsSuffix else "")
  {
    title := TitleBase(season, selected);
    FormattedLabelLastChar(selected.1);
    assert title[|title| - 1] != 's';
    if includeFinals && roundEnd > MaxHomeAwayRound {
      title := title + FinalsSuffix;
    }
  }

  /** What the page shows: nothing (the fetch raised), the empty-result
      warning, or the chart of the ranked summary under its title. */
  datatype Page =
    | Failed(error: FrameError)
    | Warning(message: string)
    | Chart(title: string, rows: seq<TeamSummary>, pfRank: seq<nat>, paRank: seq<nat>)

  const NoGamesWarning := "No games found for the selected season and round range."

  /** The page script from the round range onwards: fetch the season form,
      build the title, then warn on an empty table or rank and plot it. */
  method RenderPage(season: nat, includeFinals: bool, selected: (string, string), games: seq<Game>)
    returns (page: Page)
    requires selected.0 in RoundOptions(includeFinals) && selected.1 in RoundOptions(includeFinals)
    ensures var range := SelectedRange(selected, includeFinals);
      var form := TeamFormResult(games, range.0, range.1);
      && (form.Failure? ==> page == Failed(form.error))
      && (form.Success? && form.value == [] ==> page == Warning(NoGamesWarning))
      && (form.Success? && form.value != [] ==>
            && page.Chart?
            && page.rows == form.value
            && page.pfRank == MinRank(PfColumn(form.value), false)
            && page.paRank == MinRank(PaColumn(form.value), true)
            && page.title == TitleBase(season, selected) +
                 (if includeFinals && range.1 > MaxHomeAwayRound then FinalsSuffix else "")
            && StartsWith(page.title, TitleBase(season, selected))
            && (EndsWith(page.title, FinalsSuffix) <==> includeFinals && range.1 > MaxHomeAwayRound))
    ensures page.Warning? <==> games != [] && KeptGames(games, SelectedRange(selected, includeFinals).0,
      SelectedRange(selected, includeFinals).1) == []
  {
    var range := SelectedRange(selected, includeFinals);
    var df := FetchTeamForm(games, range.0, range.1, includeFinals);
    if df.Failure? {
      return Failed(df.error);
    }
    OptionIsLabel(includeFinals, selected.1);
    var title := BuildTitle(season, selected, includeFinals, range.1);
    if df.value == [] {
      page := Warning(NoGamesWarning);
    } else {
      var frame := new SummaryFrame(df.value);
      frame.AddRankColumns();
      page := Chart(title, frame.rows, frame.pfRank.value, frame.paRank.value);
    }
  }
}
