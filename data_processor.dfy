/** The processing step of utils/data_processor.py: head-to-head records
    are summarised (percentages, goal averages from the fixture's sides,
    both-teams-score and over-2.5 counts, results of the last meetings),
    each team's recent form is tallied, table positions become percentiles
    and pairwise differences, and the general predictions gain their
    differences to the league averages. */
module DataProcessor {
  import opened Common

  // ---------------------------------------------------------------------
  // Head to head (lines 28-118)
  // ---------------------------------------------------------------------

  /** The non-empty `head_to_head` dictionary: its integer counters under
      their own keys, `last_matches` ([] when absent) and the optional
      `goals_stats` passed through. */
  datatype H2HData = H2HData(
    counters: map<string, int>,
    lastMatches: seq<Match>,
    goalsStats: Option<map<string, real>>)

  datatype LastMatchesSummary = LastMatchesSummary(
    matches: seq<Match>,
    avgHomeGoals: real,
    avgAwayGoals: real,
    avgTotalGoals: real,
    bttsPercentage: real,
    over25Percentage: real,
    homeWins: nat,
    awayWins: nat,
    draws: nat)

  datatype ProcessedH2H = ProcessedH2H(
    totalMatches: int,
    homeTeamWins: int,
    awayTeamWins: int,
    draws: int,
    homeWinPercentage: real,
    awayWinPercentage: real,
    drawPercentage: real,
    last5: LastMatchesSummary,
    goalsStats: Option<map<string, real>>)

  /** Both teams scored. */
  predicate IsBtts(m: Match) {
    m.homeScore > 0 && m.awayScore > 0
  }

  /** `home_score + away_score > 2.5`. */
  predicate IsOver25(m: Match) {
    (m.homeScore + m.awayScore) as real > 2.5
  }

  predicate IsDraw(m: Match) {
    m.homeScore == m.awayScore
  }

  /** The test of lines 104-109: `team` won the match, at home or away. */
  function WonBy(team: string): Match -> bool {
    (m: Match) => (m.homeTeam == team && m.homeScore > m.awayScore)
      || (m.awayTeam == team && m.awayScore > m.homeScore)
  }

  function TotalGoals(matches: seq<Match>): (t: seq<nat>)
    ensures |t| == |matches|
  {
    seq(|matches|, k requires 0 <= k < |matches| => matches[k].homeScore + matches[k].awayScore)
  }

  function SummarizeLastMatches(matches: seq<Match>, homeTeam: string, awayTeam: string): LastMatchesSummary {
    var (hg, ag) := H2HGoals(matches, homeTeam);
    LastMatchesSummary(
      matches,
      Mean(hg), Mean(ag), Mean(TotalGoals(matches)),
      Percent(Count(matches, IsBtts), |matches|),
      Percent(Count(matches, IsOver25), |matches|),
      Count(matches, WonBy(homeTeam)),
      Count(matches, WonBy(awayTeam)),
      Count(matches, IsDraw))
  }

  /** `process_head_to_head()`: None stands for the empty dictionary, both
      as input and as result. */
  function ProcessHeadToHead(h2h: Option<H2HData>, homeTeam: string, awayTeam: string): Option<ProcessedH2H> {
    if h2h.None? then None
    else
      var d := h2h.value;
      var total := GetIntOr(d.counters, "total_matches", 0);
      var hw := GetIntOr(d.counters, "home_team_wins", 0);
      var aw := GetIntOr(d.counters, "away_team_wins", 0);
      var dr := GetIntOr(d.counters, "draws", 0);
      Some(ProcessedH2H(
        total, hw, aw, dr,
        Percent(hw, total), Percent(aw, total), Percent(dr, total),
        SummarizeLastMatches(d.lastMatches, homeTeam, awayTeam),
        d.goalsStats))
  }

  /** Over 2.5 on whole goals means at least three goals. */
  lemma IsOver25Threshold(m: Match)
    ensures IsOver25(m) <==> m.homeScore + m.awayScore >= 3
  {
    if m.homeScore + m.awayScore <= 2 {
      assert (m.homeScore + m.awayScore) as real <= 2.0;
    }
  }

  /** The empty dictionary is returned exactly for missing data; the
      percentages of the overall record are the counters over the total,
      and all three are 0 when the total is 0. */
  lemma ProcessHeadToHeadRecord(h2h: Option<H2HData>, homeTeam: string, awayTeam: string)
    ensures ProcessHeadToHead(h2h, homeTeam, awayTeam).None? <==> h2h.None?
    ensures h2h.Some? ==>
      var r := ProcessHeadToHead(h2h, homeTeam, awayTeam).value;
      (r.totalMatches == 0 ==> r.homeWinPercentage == 0.0 && r.awayWinPercentage == 0.0 && r.drawPercentage == 0.0)
      && (r.totalMatches != 0 ==>
            r.homeWinPercentage == r.homeTeamWins as real / r.totalMatches as real * 100.0
            && r.awayWinPercentage == r.awayTeamWins as real / r.totalMatches as real * 100.0
            && r.drawPercentage == r.draws as real / r.totalMatches as real * 100.0)
      && r.last5 == SummarizeLastMatches(h2h.value.lastMatches, homeTeam, awayTeam)
  {
  }

  /** Both-teams-score and over-2.5 matches are at most all of the last
      matches, so their percentages are in [0, 100]; with no matches both
      percentages and the three averages are 0. */
  lemma {:induction false} LastMatchesBounds(matches: seq<Match>, homeTeam: string, awayTeam: string)
    ensures var s := SummarizeLastMatches(matches, homeTeam, awayTeam);
      0.0 <= s.bttsPercentage <= 100.0 && 0.0 <= s.over25Percentage <= 100.0
      && (matches == [] ==>
            (s.bttsPercentage == 0.0 && s.over25Percentage == 0.0
             && s.avgHomeGoals == 0.0 && s.avgAwayGoals == 0.0 && s.avgTotalGoals == 0.0))
  {
    PercentBounds(Count(matches, IsBtts), |matches|);
    PercentBounds(Count(matches, IsOver25), |matches|);
  }

  /** With two different fixture teams no match is a win for both or a win
      and a draw, so the three last-match tallies add up to at most the
      number of matches. */
  lemma LastMatchesResultsDisjoint(matches: seq<Match>, homeTeam: string, awayTeam: string)
    requires homeTeam != awayTeam
    ensures var s := SummarizeLastMatches(matches, homeTeam, awayTeam);
      s.homeWins + s.awayWins + s.draws <= |matches|
  {
    CountThree(matches, WonBy(homeTeam), WonBy(awayTeam), IsDraw);
  }

  /** The average of the match totals is the sum of the two side averages,
      whichever side each match was played on. */
  lemma LastMatchesAverageTotal(matches: seq<Match>, homeTeam: string, awayTeam: string)
    ensures var s := SummarizeLastMatches(matches, homeTeam, awayTeam);
      s.avgTotalGoals == s.avgHomeGoals + s.avgAwayGoals
  {
    var (hg, ag) := H2HGoals(matches, homeTeam);
    MeanPointwise(hg, ag, TotalGoals(matches));
  }

  /** The accumulating loop of lines 48-74. */
  method ScanHeadToHead(matches: seq<Match>, fixtureHome: string)
    returns (homeGoals: seq<nat>, awayGoals: seq<nat>, totalGoals: seq<nat>, btts: nat, over25: nat)
    ensures (homeGoals, awayGoals) == H2HGoals(matches, fixtureHome)
    ensures totalGoals == TotalGoals(matches)
    ensures btts == Count(matches, IsBtts) && over25 == Count(matches, IsOver25)
  {
    homeGoals, awayGoals, totalGoals := [], [], [];
    btts, over25 := 0, 0;
    var i := 0;
    while i < |matches|
      invariant 0 <= i <= |matches|
      invariant (homeGoals, awayGoals, totalGoals, btts, over25) == ScanOf(matches[..i], fixtureHome)
    {
      var m := matches[i];
      ScanStep(matches, fixtureHome, i);
      if m.homeTeam == fixtureHome {
        homeGoals := homeGoals + [m.homeScore];
        awayGoals := awayGoals + [m.awayScore];
      } else {
        homeGoals := homeGoals + [m.awayScore];
        awayGoals := awayGoals + [m.homeScore];
      }
      totalGoals := totalGoals + [m.homeScore + m.awayScore];
      if IsBtts(m) {
        btts := btts + 1;
      }
      if IsOver25(m) {
        over25 := over25 + 1;
      }
      i := i + 1;
    }
    assert matches[..i] == matches;
  }

  /** The five accumulators of the scan after reading `matches`: both goal
      lists, the total-goals list and the two counters. */
  function ScanOf(matches: seq<Match>, fixtureHome: string): (seq<nat>, seq<nat>, seq<nat>, nat, nat) {
    (H2HGoals(matches, fixtureHome).0, H2HGoals(matches, fixtureHome).1, TotalGoals(matches),
     Count(matches, IsBtts), Count(matches, IsOver25))
  }

  /** What one more match adds to each accumulator of the scan. */
  lemma ScanStep(matches: seq<Match>, fixtureHome: string, i: nat)
    requires i < |matches|
    ensures var (h, a, t, b, o) := ScanOf(matches[..i], fixtureHome);
            var m := matches[i];
            var g := FixtureGoals(m, fixtureHome);
            ScanOf(matches[..i + 1], fixtureHome)
              == (h + [g.0], a + [g.1], t + [m.homeScore + m.awayScore],
                  b + (if IsBtts(m) then 1 else 0), o + (if IsOver25(m) then 1 else 0))
  {
    var (pre, m) := (matches[..i], matches[i]);
    assert matches[..i + 1] == pre + [m];
    assert H2HGoals(pre + [m], fixtureHome).0 == H2HGoals(pre, fixtureHome).0 + [FixtureGoals(m, fixtureHome).0];
    assert H2HGoals(pre + [m], fixtureHome).1 == H2HGoals(pre, fixtureHome).1 + [FixtureGoals(m, fixtureHome).1];
    assert TotalGoals(pre + [m]) == TotalGoals(pre) + [m.homeScore + m.awayScore];
    CountStep(matches, i, IsBtts);
    CountStep(matches, i, IsOver25);
  }

  /** `process_head_to_head()` as a method. */
  method RunProcessHeadToHead(h2h: Option<H2HData>, homeTeam: string, awayTeam: string) returns (r: Option<ProcessedH2H>)
    ensures r == ProcessHeadToHead(h2h, homeTeam, awayTeam)
  {
    if h2h.None? {
      return None;
    }
    var d := h2h.value;
    var total := GetIntOr(d.counters, "total_matches", 0);
    var hw := GetIntOr(d.counters, "home_team_wins", 0);
    var aw := GetIntOr(d.counters, "away_team_wins", 0);
    var dr := GetIntOr(d.counters, "draws", 0);
    var last := d.lastMatches;
    var hg, ag, tg, btts, over := ScanHeadToHead(last, homeTeam);
    var summary := LastMatchesSummary(
      last, Mean(hg), Mean(ag), Mean(tg),
      Percent(btts, |last|), Percent(over, |last|),
      Count(last, WonBy(homeTeam)), Count(last, WonBy(awayTeam)), Count(last, IsDraw));
    r := Some(ProcessedH2H(total, hw, aw, dr, Percent(hw, total), Percent(aw, total), Percent(dr, total),
                           summary, d.goalsStats));
  }

  // ---------------------------------------------------------------------
  // Team form (lines 120-200)
  // ---------------------------------------------------------------------

  /** One entry of a team's `last_matches`: the result code from the team's
      point of view ("V" win, "E" draw, "D" loss) and the match itself. */
  datatype FormMatch = FormMatch(result: string, game: Match)

  /** One team's `team_form` entry: its form strings under their own keys,
      `last_matches` ([] when absent) and the optional `stats`. */
  datatype FormData = FormData(forms: map<string, string>, lastMatches: seq<FormMatch>, stats: Option<Stats>)

  datatype FormSummary = FormSummary(
    matches: seq<FormMatch>,
    wins: nat,
    draws: nat,
    losses: nat,
    winPercentage: real,
    drawPercentage: real,
    lossPercentage: real,
    avgGoalsScored: real,
    avgGoalsConceded: real,
    cleanSheets: nat,
    cleanSheetsPercentage: real,
    failedToScore: nat,
    failedToScorePercentage: real)

  datatype ProcessedForm = ProcessedForm(
    generalForm: string,
    homeForm: string,
    awayForm: string,
    last5: FormSummary,
    stats: Option<Stats>)

  function GetTextOr(d: map<string, string>, key: string, default: string): string {
    if key in d then d[key] else default
  }

  function HasResult(code: string): FormMatch -> bool {
    (f: FormMatch) => f.result == code
  }

  /** The team conceded nothing, from its own side of the match. */
  function KeptCleanSheet(team: string): FormMatch -> bool {
    (f: FormMatch) => FixtureGoals(f.game, team).1 == 0
  }

  /** The team scored nothing, from its own side of the match. */
  function FailedToScore(team: string): FormMatch -> bool {
    (f: FormMatch) => FixtureGoals(f.game, team).0 == 0
  }

  function Games(s: seq<FormMatch>): (g: seq<Match>)
    ensures |g| == |s|
  {
    seq(|s|, k requires 0 <= k < |s| => s[k].game)
  }

  function SummarizeForm(team: string, s: seq<FormMatch>): FormSummary {
    var (scored, conceded) := H2HGoals(Games(s), team);
    var w, d, l := Count(s, HasResult("V")), Count(s, HasResult("E")), Count(s, HasResult("D"));
    var cs, fs := Count(s, KeptCleanSheet(team)), Count(s, FailedToScore(team));
    FormSummary(s, w, d, l, Percent(w, |s|), Percent(d, |s|), Percent(l, |s|),
                Mean(scored), Mean(conceded), cs, Percent(cs, |s|), fs, Percent(fs, |s|))
  }

  function ProcessTeam(team: string, d: FormData): ProcessedForm {
    ProcessedForm(
      GetTextOr(d.forms, "general_form", ""),
      GetTextOr(d.forms, "home_form", ""),
      GetTextOr(d.forms, "away_form", ""),
      SummarizeForm(team, d.lastMatches),
      d.stats)
  }

  /** `process_team_form()`: one processed entry per team of the input
      (none for the empty dictionary). */
  function ProcessTeamForm(teamForm: map<string, FormData>): map<string, ProcessedForm> {
    map team | team in teamForm :: ProcessTeam(team, teamForm[team])
  }

  /** Wins, draws and losses are counted on distinct codes, so together
      they are at most the number of matches; clean sheets and failures to
      score are each at most that number; all percentages are in [0, 100]
      and, with no matches, every count and percentage is 0. */
  lemma FormSummaryBounds(team: string, s: seq<FormMatch>)
    ensures var r := SummarizeForm(team, s);
      r.wins + r.draws + r.losses <= |s|
      && r.cleanSheets <= |s| && r.failedToScore <= |s|
      && 0.0 <= r.winPercentage <= 100.0 && 0.0 <= r.drawPercentage <= 100.0 && 0.0 <= r.lossPercentage <= 100.0
      && 0.0 <= r.cleanSheetsPercentage <= 100.0 && 0.0 <= r.failedToScorePercentage <= 100.0
      && (s == [] ==>
            (r.wins == r.draws == r.losses == r.cleanSheets == r.failedToScore == 0
             && r.winPercentage == r.drawPercentage == r.lossPercentage == 0.0
             && r.cleanSheetsPercentage == r.failedToScorePercentage == 0.0
             && r.avgGoalsScored == r.avgGoalsConceded == 0.0))
  {
    var r := SummarizeForm(team, s);
    assert "V" != "E" && "V" != "D" && "E" != "D" by {
      assert "V"[0] != "E"[0] && "V"[0] != "D"[0] && "E"[0] != "D"[0];
    }
    CountThree(s, HasResult("V"), HasResult("E"), HasResult("D"));
    PercentBounds(r.wins, |s|);
    PercentBounds(r.draws, |s|);
    PercentBounds(r.losses, |s|);
    PercentBounds(r.cleanSheets, |s|);
    PercentBounds(r.failedToScore, |s|);
  }

  /** A clean sheet is a match where the team's conceded entry is 0 and a
      failure to score one where its scored entry is 0: home score and
      away score swap roles with the side the team played on. */
  lemma FormSidesAttribution(team: string, s: seq<FormMatch>)
    ensures forall k :: 0 <= k < |s| ==>
      var m := s[k].game;
      (KeptCleanSheet(team)(s[k]) <==> (if m.homeTeam == team then m.awayScore else m.homeScore) == 0)
      && (FailedToScore(team)(s[k]) <==> (if m.homeTeam == team then m.homeScore else m.awayScore) == 0)
  {
  }

  /** Summary of one team, the loop of lines 146-165 kept as a loop. */
  method ScanTeamMatches(team: string, s: seq<FormMatch>)
    returns (scored: seq<nat>, conceded: seq<nat>, cleanSheets: nat, failedToScore: nat)
    ensures (scored, conceded) == H2HGoals(Games(s), team)
    ensures cleanSheets == Count(s, KeptCleanSheet(team)) && failedToScore == Count(s, FailedToScore(team))
  {
    scored, conceded := [], [];
    cleanSheets, failedToScore := 0, 0;
    var i := 0;
    while i < |s|
      invariant 0 <= i <= |s|
      invariant scored == H2HGoals(Games(s[..i]), team).0
      invariant conceded == H2HGoals(Games(s[..i]), team).1
      invariant cleanSheets == Count(s[..i], KeptCleanSheet(team))
      invariant failedToScore == Count(s[..i], FailedToScore(team))
    {
      var m := s[i].game;
      CountStep(s, i, KeptCleanSheet(team));
      CountStep(s, i, FailedToScore(team));
      assert Games(s[..i + 1]) == Games(s[..i]) + [m];
      if m.homeTeam == team {
        scored := scored + [m.homeScore];
        conceded := conceded + [m.awayScore];
        if m.awayScore == 0 {
          cleanSheets := cleanSheets + 1;
        }
        if m.homeScore == 0 {
          failedToScore := failedToScore + 1;
        }
      } else {
        scored := scored + [m.awayScore];
        conceded := conceded + [m.homeScore];
        if m.homeScore == 0 {
          cleanSheets := cleanSheets + 1;
        }
        if m.awayScore == 0 {
          failedToScore := failedToScore + 1;
        }
      }
      i := i + 1;
    }
    assert s[..i] == s;
  }

  /** One team's summary, with the loop of lines 146-165. */
  method RunSummarizeForm(team: string, s: seq<FormMatch>) returns (summary: FormSummary)
    ensures summary == SummarizeForm(team, s)
  {
    var scored, conceded, cs, fs := ScanTeamMatches(team, s);
    var w, d, l := Count(s, HasResult("V")), Count(s, HasResult("E")), Count(s, HasResult("D"));
    summary := FormSummary(s, w, d, l, Percent(w, |s|), Percent(d, |s|), Percent(l, |s|),
                           Mean(scored), Mean(conceded), cs, Percent(cs, |s|), fs, Percent(fs, |s|));
  }

  method RunProcessTeam(team: string, d: FormData) returns (p: ProcessedForm)
    ensures p == ProcessTeam(team, d)
  {
    var summary := RunSummarizeForm(team, d.lastMatches);
    p := ProcessedForm(GetTextOr(d.forms, "general_form", ""), GetTextOr(d.forms, "home_form", ""),
                       GetTextOr(d.forms, "away_form", ""), summary, d.stats);
  }

  /** `process_team_form()` as a method: the loop over the teams. */
  method RunProcessTeamForm(teamForm: map<string, FormData>) returns (r: map<string, ProcessedForm>)
    ensures r == ProcessTeamForm(teamForm)
  {
    r := map[];
    var todo := teamForm.Keys;
    while todo != {}
      invariant todo <= teamForm.Keys
      invariant r == map t | t in teamForm.Keys - todo :: ProcessTeam(t, teamForm[t])
      decreases |todo|
    {
      var team :| team in todo;
      var p := RunProcessTeam(team, teamForm[team]);
      ProcessedGrow(teamForm, teamForm.Keys - todo, team);
      assert teamForm.Keys - (todo - {team}) == (teamForm.Keys - todo) + {team};
      r := r[team := p];
      todo := todo - {team};
    }
    assert teamForm.Keys - todo == teamForm.Keys;
  }

  /** Processing one more team extends the map of processed teams by it. */
  lemma ProcessedGrow(teamForm: map<string, FormData>, done: set<string>, team: string)
    requires done <= teamForm.Keys && team in teamForm
    ensures (map t | t in done :: ProcessTeam(t, teamForm[t]))[team := ProcessTeam(team, teamForm[team])]
            == map t | t in done + {team} :: ProcessTeam(t, teamForm[t])
  {
  }

  // ---------------------------------------------------------------------
  // Table positions (lines 202-266)
  // ---------------------------------------------------------------------

  datatype Comparison = Comparison(positionDifference: int, isHigherRanked: bool)

  datatype ProcessedPosition = ProcessedPosition(
    generalPosition: int,
    totalTeams: int,
    generalPercentile: real,
    homePosition: Option<int>,
    awayPosition: Option<int>,
    comparison: Option<Comparison>)

  /** The home side's home figures against the away side's away figures. */
  datatype DirectComparison = DirectComparison(
    homeWinPercentage: real, awayWinPercentage: real,
    homeGoalsScored: real, awayGoalsScored: real,
    homeGoalsConceded: real, awayGoalsConceded: real,
    homeXg: real, awayXg: real,
    homeXgc: real, awayXgc: real)

  datatype ProcessedPositions = ProcessedPositions(
    teams: map<string, ProcessedPosition>,
    direct: Option<DirectComparison>)

  const DefaultTotalTeams: int := 20

  /** `((total - pos + 1) / total) * 100 if total else 0`. */
  function Percentile(position: int, total: int): real {
    if total != 0 then ((total - position + 1) as real / total as real) * 100.0 else 0.0
  }

  function GetOptional(d: map<string, int>, key: string): Option<int> {
    if key in d then Some(d[key]) else None
  }

  function GeneralPosition(positions: map<string, map<string, int>>, team: string): int
    requires team in positions
  {
    GetIntOr(positions[team], "general_position", 0)
  }

  function Compare(other: int, own: int): Comparison {
    Comparison(other - own, other - own > 0)
  }

  /** The entry of one team; its comparison is against the other fixture
      team, the away team's branch written last. */
  function ProcessPosition(positions: map<string, map<string, int>>, team: string, homeTeam: string, awayTeam: string): ProcessedPosition
    requires team in positions
  {
    var d := positions[team];
    var pos := GeneralPosition(positions, team);
    var total := GetIntOr(d, "total_teams", DefaultTotalTeams);
    var cmp :=
      if team == awayTeam && homeTeam in positions then Some(Compare(GeneralPosition(positions, homeTeam), pos))
      else if team == homeTeam && awayTeam in positions then Some(Compare(GeneralPosition(positions, awayTeam), pos))
      else None;
    ProcessedPosition(pos, total, Percentile(pos, total),
                      GetOptional(d, "home_position"), GetOptional(d, "away_position"), cmp)
  }

  function DirectOf(hs: Stats, as_: Stats): DirectComparison {
    DirectComparison(
      GetNested(hs, "win_percentage", "home", 0.0), GetNested(as_, "win_percentage", "away", 0.0),
      GetNested(hs, "goals_scored_per_game", "home", 0.0), GetNested(as_, "goals_scored_per_game", "away", 0.0),
      GetNested(hs, "goals_conceded_per_game", "home", 0.0), GetNested(as_, "goals_conceded_per_game", "away", 0.0),
      GetNested(hs, "xG", "home", 0.0), GetNested(as_, "xG", "away", 0.0),
      GetNested(hs, "xGC", "home", 0.0), GetNested(as_, "xGC", "away", 0.0))
  }

  /** `process_table_positions()`; `homeStats` and `awayStats` are the two
      teams' `team_form` stats (empty when absent). */
  function ProcessTablePositions(positions: map<string, map<string, int>>, homeStats: Stats, awayStats: Stats,
                                 homeTeam: string, awayTeam: string): ProcessedPositions {
    var teams := map team | team in positions :: ProcessPosition(positions, team, homeTeam, awayTeam);
    var direct :=
      if homeTeam in teams && awayTeam in teams && homeStats != map[] && awayStats != map[]
      then Some(DirectOf(homeStats, awayStats)) else None;
    ProcessedPositions(teams, direct)
  }

  /** The leader is at the 100th percentile, a larger position never has a
      larger percentile, and a total of 0 gives 0. */
  lemma PercentileProperties(p1: int, p2: int, total: int)
    ensures total != 0 ==> Percentile(1, total) == 100.0
    ensures total == 0 ==> Percentile(p1, total) == 0.0
    ensures total > 0 && p1 <= p2 ==> Percentile(p2, total) <= Percentile(p1, total)
  {
    if total != 0 {
      QuotientSelf(total as real);
      assert (total - 1 + 1) as real == total as real;
    }
    if total > 0 && p1 <= p2 {
      QuotientMonotone((total - p2 + 1) as real, (total - p1 + 1) as real, total as real);
    }
  }

  /** With two distinct fixture teams in the table, each carries the other's
      position minus its own: the two differences are negations of each
      other, each is higher ranked exactly when its difference is positive,
      and so at most one of them is. */
  lemma PositionComparisonProperties(positions: map<string, map<string, int>>, hs: Stats, as_: Stats,
                                     homeTeam: string, awayTeam: string)
    requires homeTeam != awayTeam && homeTeam in positions && awayTeam in positions
    ensures var r := ProcessTablePositions(positions, hs, as_, homeTeam, awayTeam).teams;
      homeTeam in r && awayTeam in r
      && r[homeTeam].comparison.Some? && r[awayTeam].comparison.Some?
      && r[homeTeam].comparison.value.positionDifference
         == GeneralPosition(positions, awayTeam) - GeneralPosition(positions, homeTeam)
      && r[homeTeam].comparison.value.positionDifference == -r[awayTeam].comparison.value.positionDifference
      && (r[homeTeam].comparison.value.isHigherRanked <==> r[homeTeam].comparison.value.positionDifference > 0)
      && (r[awayTeam].comparison.value.isHigherRanked <==> r[awayTeam].comparison.value.positionDifference > 0)
      && !(r[homeTeam].comparison.value.isHigherRanked && r[awayTeam].comparison.value.isHigherRanked)
  {
  }

  /** Every team of the input gets an entry and only those; a team that is
      not a fixture team gets no comparison; the direct comparison exists
      exactly when both fixture teams are in the table and both have stats. */
  lemma ProcessTablePositionsShape(positions: map<string, map<string, int>>, hs: Stats, as_: Stats,
                                   homeTeam: string, awayTeam: string)
    ensures var r := ProcessTablePositions(positions, hs, as_, homeTeam, awayTeam);
      r.teams.Keys == positions.Keys
      && (forall t :: t in r.teams && t != homeTeam && t != awayTeam ==> r.teams[t].comparison.None?)
      && (r.direct.Some? <==> homeTeam in positions && awayTeam in positions && hs != map[] && as_ != map[])
      && (forall t :: t in r.teams ==>
            r.teams[t].generalPercentile == Percentile(r.teams[t].generalPosition, r.teams[t].totalTeams))
  {
  }

  // ---------------------------------------------------------------------
  // Predictions (lines 268-317)
  // ---------------------------------------------------------------------

  /** The six assignments of lines 284-289, in order, on a non-empty
      dictionary; the empty dictionary is left as it is. */
  function LeagueComparisons(g: map<string, real>): map<string, real> {
    if g == map[] then g
    else
      var g1 := VsLeague(g, "over_2_5_vs_league", "over_2_5_percentage", "over_2_5_league_avg");
      var g2 := VsLeague(g1, "over_1_5_vs_league", "over_1_5_percentage", "over_1_5_league_avg");
      var g3 := VsLeague(g2, "btts_vs_league", "btts_percentage", "btts_league_avg");
      var g4 := VsLeague(g3, "goals_vs_league", "goals_per_game", "goals_per_game_league_avg");
      var g5 := VsLeague(g4, "cards_vs_league", "cards_per_game", "cards_per_game_league_avg");
      VsLeague(g5, "corners_vs_league", "corners_per_game", "corners_per_game_league_avg")
  }

  /** One assignment `g[target] = g.get(value, 0) - g.get(average, 0)`. */
  function VsLeague(g: map<string, real>, target: string, value: string, average: string): map<string, real> {
    g[target := GetOr(g, value, 0.0) - GetOr(g, average, 0.0)]
  }

  const LeagueTargets: set<string> := {"over_2_5_vs_league", "over_1_5_vs_league", "btts_vs_league",
                                       "goals_vs_league", "cards_vs_league", "corners_vs_league"}

  /** On a non-empty dictionary each `*_vs_league` key is the value minus
      the league average (0 for a missing key) read from the original
      dictionary, since no assignment reads a key an earlier one wrote; the
      keys are the original ones plus the six targets, and every other key
      keeps its value. The empty dictionary stays empty. */
  lemma LeagueComparisonsProperties(g: map<string, real>)
    ensures g == map[] ==> LeagueComparisons(g) == map[]
    ensures g != map[] ==>
      var r := LeagueComparisons(g);
      r.Keys == g.Keys + LeagueTargets
      && r["over_2_5_vs_league"] == GetOr(g, "over_2_5_percentage", 0.0) - GetOr(g, "over_2_5_league_avg", 0.0)
      && r["over_1_5_vs_league"] == GetOr(g, "over_1_5_percentage", 0.0) - GetOr(g, "over_1_5_league_avg", 0.0)
      && r["btts_vs_league"] == GetOr(g, "btts_percentage", 0.0) - GetOr(g, "btts_league_avg", 0.0)
      && r["goals_vs_league"] == GetOr(g, "goals_per_game", 0.0) - GetOr(g, "goals_per_game_league_avg", 0.0)
      && r["cards_vs_league"] == GetOr(g, "cards_per_game", 0.0) - GetOr(g, "cards_per_game_league_avg", 0.0)
      && r["corners_vs_league"] == GetOr(g, "corners_per_game", 0.0) - GetOr(g, "corners_per_game_league_avg", 0.0)
      && forall x :: x in g && x !in LeagueTargets ==> r[x] == g[x]
  {
    if g != map[] {
      KeysDistinct();
      // the intermediate dictionaries after the first five assignments
      var g1 := VsLeague(g, "over_2_5_vs_league", "over_2_5_percentage", "over_2_5_league_avg");
      var g2 := VsLeague(g1, "over_1_5_vs_league", "over_1_5_percentage", "over_1_5_league_avg");
      var g3 := VsLeague(g2, "btts_vs_league", "btts_percentage", "btts_league_avg");
      var g4 := VsLeague(g3, "goals_vs_league", "goals_per_game", "goals_per_game_league_avg");
      var g5 := VsLeague(g4, "cards_vs_league", "cards_per_game", "cards_per_game_league_avg");
      // every key an assignment reads is untouched by the assignments before it
      VsLeagueReads(g, "over_2_5_vs_league", "over_2_5_percentage", "over_2_5_league_avg", "over_1_5_percentage");
      VsLeagueReads(g, "over_2_5_vs_league", "over_2_5_percentage", "over_2_5_league_avg", "over_1_5_league_avg");
      VsLeagueReads(g, "over_2_5_vs_league", "over_2_5_percentage", "over_2_5_league_avg", "btts_percentage");
      VsLeagueReads(g1, "over_1_5_vs_league", "over_1_5_percentage", "over_1_5_league_avg", "btts_percentage");
      VsLeagueReads(g, "over_2_5_vs_league", "over_2_5_percentage", "over_2_5_league_avg", "btts_league_avg");
      VsLeagueReads(g1, "over_1_5_vs_league", "over_1_5_percentage", "over_1_5_league_avg", "btts_league_avg");
      VsLeagueReads(g, "over_2_5_vs_league", "over_2_5_percentage", "over_2_5_league_avg", "goals_per_game");
      VsLeagueReads(g1, "over_1_5_vs_league", "over_1_5_percentage", "over_1_5_league_avg", "goals_per_game");
      VsLeagueReads(g2, "btts_vs_league", "btts_percentage", "btts_league_avg", "goals_per_game");
      VsLeagueReads(g, "over_2_5_vs_league", "over_2_5_percentage", "over_2_5_league_avg", "goals_per_game_league_avg");
      VsLeagueReads(g1, "over_1_5_vs_league", "over_1_5_percentage", "over_1_5_league_avg", "goals_per_game_league_avg");
      VsLeagueReads(g2, "btts_vs_league", "btts_percentage", "btts_league_avg", "goals_per_game_league_avg");
      VsLeagueReads(g, "over_2_5_vs_league", "over_2_5_percentage", "over_2_5_league_avg", "cards_per_game");
      VsLeagueReads(g1, "over_1_5_vs_league", "over_1_5_percentage", "over_1_5_league_avg", "cards_per_game");
      VsLeagueReads(g2, "btts_vs_league", "btts_percentage", "btts_league_avg", "cards_per_game");
      VsLeagueReads(g3, "goals_vs_league", "goals_per_game", "goals_per_game_league_avg", "cards_per_game");
      VsLeagueReads(g, "over_2_5_vs_league", "over_2_5_percentage", "over_2_5_league_avg", "cards_per_game_league_avg");
      VsLeagueReads(g1, "over_1_5_vs_league", "over_1_5_percentage", "over_1_5_league_avg", "cards_per_game_league_avg");
      VsLeagueReads(g2, "btts_vs_league", "btts_percentage", "btts_league_avg", "cards_per_game_league_avg");
      VsLeagueReads(g3, "goals_vs_league", "goals_per_game", "goals_per_game_league_avg", "cards_per_game_league_avg");
      VsLeagueReads(g, "over_2_5_vs_league", "over_2_5_percentage", "over_2_5_league_avg", "corners_per_game");
      VsLeagueReads(g1, "over_1_5_vs_league", "over_1_5_percentage", "over_1_5_league_avg", "corners_per_game");
      VsLeagueReads(g2, "btts_vs_league", "btts_percentage", "btts_league_avg", "corners_per_game");
      VsLeagueReads(g3, "goals_vs_league", "goals_per_game", "goals_per_game_league_avg", "corners_per_game");
      VsLeagueReads(g4, "cards_vs_league", "cards_per_game", "cards_per_game_league_avg", "corners_per_game");
      VsLeagueReads(g, "over_2_5_vs_league", "over_2_5_percentage", "over_2_5_league_avg", "corners_per_game_league_avg");
      VsLeagueReads(g1, "over_1_5_vs_league", "over_1_5_percentage", "over_1_5_league_avg", "corners_per_game_league_avg");
      VsLeagueReads(g2, "btts_vs_league", "btts_percentage", "btts_league_avg", "corners_per_game_league_avg");
      VsLeagueReads(g3, "goals_vs_league", "goals_per_game", "goals_per_game_league_avg", "corners_per_game_league_avg");
      VsLeagueReads(g4, "cards_vs_league", "cards_per_game", "cards_per_game_league_avg", "corners_per_game_league_avg");
      // every target keeps its value through the assignments after it
      VsLeagueKeeps(g1, "over_1_5_vs_league", "over_1_5_percentage", "over_1_5_league_avg", "over_2_5_vs_league");
      VsLeagueKeeps(g2, "btts_vs_league", "btts_percentage", "btts_league_avg", "over_2_5_vs_league");
      VsLeagueKeeps(g3, "goals_vs_league", "goals_per_game", "goals_per_game_league_avg", "over_2_5_vs_league");
      VsLeagueKeeps(g4, "cards_vs_league", "cards_per_game", "cards_per_game_league_avg", "over_2_5_vs_league");
      VsLeagueKeeps(g5, "corners_vs_league", "corners_per_game", "corners_per_game_league_avg", "over_2_5_vs_league");
      VsLeagueKeeps(g2, "btts_vs_league", "btts_percentage", "btts_league_avg", "over_1_5_vs_league");
      VsLeagueKeeps(g3, "goals_vs_league", "goals_per_game", "goals_per_game_league_avg", "over_1_5_vs_league");
      VsLeagueKeeps(g4, "cards_vs_league", "cards_per_game", "cards_per_game_league_avg", "over_1_5_vs_league");
      VsLeagueKeeps(g5, "corners_vs_league", "corners_per_game", "corners_per_game_league_avg", "over_1_5_vs_league");
      VsLeagueKeeps(g3, "goals_vs_league", "goals_per_game", "goals_per_game_league_avg", "btts_vs_league");
      VsLeagueKeeps(g4, "cards_vs_league", "cards_per_game", "cards_per_game_league_avg", "btts_vs_league");
      VsLeagueKeeps(g5, "corners_vs_league", "corners_per_game", "corners_per_game_league_avg", "btts_vs_league");
      VsLeagueKeeps(g4, "cards_vs_league", "cards_per_game", "cards_per_game_league_avg", "goals_vs_league");
      VsLeagueKeeps(g5, "corners_vs_league", "corners_per_game", "corners_per_game_league_avg", "goals_vs_league");
      VsLeagueKeeps(g5, "corners_vs_league", "corners_per_game", "corners_per_game_league_avg", "cards_vs_league");
    }
  }

  /** An assignment leaves the reading of every other key as it was. */
  lemma VsLeagueReads(g: map<string, real>, target: string, value: string, average: string, k: string)
    requires k != target
    ensures GetOr(VsLeague(g, target, value, average), k, 0.0) == GetOr(g, k, 0.0)
  {
  }

  /** An assignment keeps every other key present with its value. */
  lemma VsLeagueKeeps(g: map<string, real>, target: string, value: string, average: string, k: string)
    requires k != target && k in g
    ensures k in VsLeague(g, target, value, average) && VsLeague(g, target, value, average)[k] == g[k]
  {
  }

  /** Every key read by an assignment differs from the targets written
      before it, and the six targets differ from each other. */
  lemma KeysDistinct()
    ensures "over_1_5_percentage" != "over_2_5_vs_league"
    ensures "over_1_5_league_avg" != "over_2_5_vs_league"
    ensures "btts_percentage" != "over_2_5_vs_league"
    ensures "btts_percentage" != "over_1_5_vs_league"
    ensures "btts_league_avg" != "over_2_5_vs_league"
    ensures "btts_league_avg" != "over_1_5_vs_league"
    ensures "goals_per_game" != "over_2_5_vs_league"
    ensures "goals_per_game" != "over_1_5_vs_league"
    ensures "goals_per_game" != "btts_vs_league"
    ensures "goals_per_game_league_avg" != "over_2_5_vs_league"
    ensures "goals_per_game_league_avg" != "over_1_5_vs_league"
    ensures "goals_per_game_league_avg" != "btts_vs_league"
    ensures "cards_per_game" != "over_2_5_vs_league"
    ensures "cards_per_game" != "over_1_5_vs_league"
    ensures "cards_per_game" != "btts_vs_league"
    ensures "cards_per_game" != "goals_vs_league"
    ensures "cards_per_game_league_avg" != "over_2_5_vs_league"
    ensures "cards_per_game_league_avg" != "over_1_5_vs_league"
    ensures "cards_per_game_league_avg" != "btts_vs_league"
    ensures "cards_per_game_league_avg" != "goals_vs_league"
    ensures "corners_per_game" != "over_2_5_vs_league"
    ensures "corners_per_game" != "over_1_5_vs_league"
    ensures "corners_per_game" != "btts_vs_league"
    ensures "corners_per_game" != "goals_vs_league"
    ensures "corners_per_game" != "cards_vs_league"
    ensures "corners_per_game_league_avg" != "over_2_5_vs_league"
    ensures "corners_per_game_league_avg" != "over_1_5_vs_league"
    ensures "corners_per_game_league_avg" != "btts_vs_league"
    ensures "corners_per_game_league_avg" != "goals_vs_league"
    ensures "corners_per_game_league_avg" != "cards_vs_league"
    ensures "over_2_5_vs_league" != "over_1_5_vs_league"
    ensures "over_2_5_vs_league" != "btts_vs_league"
    ensures "over_2_5_vs_league" != "goals_vs_league"
    ensures "over_2_5_vs_league" != "cards_vs_league"
    ensures "over_2_5_vs_league" != "corners_vs_league"
    ensures "over_1_5_vs_league" != "btts_vs_league"
    ensures "over_1_5_vs_league" != "goals_vs_league"
    ensures "over_1_5_vs_league" != "cards_vs_league"
    ensures "over_1_5_vs_league" != "corners_vs_league"
    ensures "btts_vs_league" != "goals_vs_league"
    ensures "btts_vs_league" != "cards_vs_league"
    ensures "btts_vs_league" != "corners_vs_league"
    ensures "goals_vs_league" != "cards_vs_league"
    ensures "goals_vs_league" != "corners_vs_league"
    ensures "cards_vs_league" != "corners_vs_league"
  {
  }

  /** The `general` predictions dictionary, updated in place. */
  class GeneralPredictions {
    var values: map<string, real>

    constructor (values: map<string, real>)
      ensures this.values == values
    {
      this.values := values;
    }

    /** Lines 283-289. */
    method AddLeagueComparisons()
      modifies this
      ensures values == LeagueComparisons(old(values))
    {
      if values != map[] {
        values := VsLeague(values, "over_2_5_vs_league", "over_2_5_percentage", "over_2_5_league_avg");
        values := VsLeague(values, "over_1_5_vs_league", "over_1_5_percentage", "over_1_5_league_avg");
        values := VsLeague(values, "btts_vs_league", "btts_percentage", "btts_league_avg");
        values := VsLeague(values, "goals_vs_league", "goals_per_game", "goals_per_game_league_avg");
        values := VsLeague(values, "cards_vs_league", "cards_per_game", "cards_per_game_league_avg");
        values := VsLeague(values, "corners_vs_league", "corners_per_game", "corners_per_game_league_avg");
      }
    }
  }

  /** The non-empty `predictions` dictionary: the analysis text ("" when
      absent), the shared `general` dictionary and the other sections
      passed through. */
  datatype PredictionsData = PredictionsData(
    gptAnalysis: string,
    general: GeneralPredictions,
    goalsDetailed: map<string, map<string, real>>,
    corners: map<string, real>,
    cards: map<string, real>,
    halftimeFulltime: map<string, real>,
    firstGoal: map<string, real>)

  /** `process_predictions()`: the result holds the same `general`
      dictionary, now with its league comparisons; None stands for the
      empty dictionary. */
  method ProcessPredictions(data: Option<PredictionsData>) returns (r: Option<PredictionsData>)
    modifies if data.Some? then {data.value.general} else {}
    ensures r == data
    ensures data.Some? ==> data.value.general.values == LeagueComparisons(old(data.value.general.values))
  {
    if data.None? {
      return None;
    }
    data.value.general.AddLeagueComparisons();
    r := data;
  }
}
