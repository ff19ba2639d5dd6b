/** The head-to-head analyses of analyzers/head_to_head.py: historical
    dominance, goal patterns, the recent trend against the historical one,
    the home/away factor counted match by match, and the dominant team the
    current-match insight starts from. They read the processed
    head-to-head dictionary. */
module HeadToHead {
  import opened Common
  import opened DataProcessor

  /** The non-empty processed `head_to_head` dictionary as the analyses
      read it: integer counters, percentages and `goals_stats` under their
      own keys, `last_5_matches` (None when absent or empty) and the
      separate key `last_matches` ([] when absent). */
  datatype H2HView = H2HView(
    counters: map<string, int>,
    percentages: map<string, real>,
    goalsStats: map<string, real>,
    last5: Option<LastMatchesSummary>,
    lastMatches: seq<Match>)

  /** The dictionary `process_head_to_head()` builds, seen through H2HView:
      it holds no `last_matches` key. */
  function FromProcessed(p: ProcessedH2H): H2HView {
    H2HView(
      map["total_matches" := p.totalMatches, "home_team_wins" := p.homeTeamWins,
          "away_team_wins" := p.awayTeamWins, "draws" := p.draws],
      map["home_win_percentage" := p.homeWinPercentage, "away_win_percentage" := p.awayWinPercentage,
          "draw_percentage" := p.drawPercentage],
      if p.goalsStats.Some? then p.goalsStats.value else map[],
      Some(p.last5),
      [])
  }

  const NoH2HData := "Dados de confrontos diretos não disponíveis"
  const NoGoalStats := "Estatísticas de gols não disponíveis"
  const NoLastFive := "Dados dos últimos 5 confrontos não disponíveis"
  const NoLastFiveDetails := "Detalhes dos últimos confrontos não disponíveis"
  const NoMatchDetails := "Detalhes dos confrontos não disponíveis"

  // ---------------------------------------------------------------------
  // Historical dominance (lines 29-82)
  // ---------------------------------------------------------------------

  const DominanceThreshold: real := 60.0
  const StrongDominance: real := 75.0
  const SignificantMatches: int := 5

  datatype Dominance = Dominance(
    totalMatches: int,
    homeTeamWins: int,
    awayTeamWins: int,
    draws: int,
    homeWinPercentage: real,
    awayWinPercentage: real,
    drawPercentage: real,
    dominantTeam: Option<string>,
    dominanceLevel: string,
    isSignificant: bool)

  function Strength(percentage: real): string {
    if percentage >= StrongDominance then "Forte" else "Moderado"
  }

  function HistoricalDominance(h2h: Option<H2HView>, homeTeam: string, awayTeam: string): Result<Dominance> {
    if h2h.None? then Err(NoH2HData)
    else
      var h := h2h.value;
      var total := GetIntOr(h.counters, "total_matches", 0);
      var hp := GetOr(h.percentages, "home_win_percentage", 0.0);
      var ap := GetOr(h.percentages, "away_win_percentage", 0.0);
      var dp := GetOr(h.percentages, "draw_percentage", 0.0);
      var (team, level) :=
        if total >= SignificantMatches then
          if hp >= DominanceThreshold then (Some(homeTeam), Strength(hp))
          else if ap >= DominanceThreshold then (Some(awayTeam), Strength(ap))
          else if dp >= DominanceThreshold then (None, "Tendência a empates")
          else (None, "Equilibrado")
        else (None, "Equilibrado");
      Ok(Dominance(total,
                   GetIntOr(h.counters, "home_team_wins", 0), GetIntOr(h.counters, "away_team_wins", 0),
                   GetIntOr(h.counters, "draws", 0), hp, ap, dp, team, level, total >= SignificantMatches))
  }

  /** The record is significant exactly from 5 matches; the home team is
      dominant exactly when the record is significant and its win
      percentage is at least 60, the away team exactly when in addition the
      home team's is below 60 and its own is at least 60; a dominant team's
      level is "Forte" exactly from 75%; otherwise a significant record
      with at least 60% draws is "Tendência a empates" and anything else
      "Equilibrado". The counts and percentages reported are the
      dictionary's own, 0 where a key is missing. */
  lemma HistoricalDominanceLadder(h: H2HView, homeTeam: string, awayTeam: string)
    ensures HistoricalDominance(Some(h), homeTeam, awayTeam).Ok?
    ensures var d := HistoricalDominance(Some(h), homeTeam, awayTeam).value;
      var sig := d.totalMatches >= 5;
      d.isSignificant == sig
      && (d.dominantTeam.Some? <==> sig && (d.homeWinPercentage >= 60.0 || d.awayWinPercentage >= 60.0))
      && (sig && d.homeWinPercentage >= 60.0 ==>
            d.dominantTeam == Some(homeTeam) && (d.dominanceLevel == "Forte" <==> d.homeWinPercentage >= 75.0))
      && (sig && d.homeWinPercentage < 60.0 && d.awayWinPercentage >= 60.0 ==>
            d.dominantTeam == Some(awayTeam) && (d.dominanceLevel == "Forte" <==> d.awayWinPercentage >= 75.0))
      && (d.dominantTeam.None? ==>
            (d.dominanceLevel == "Tendência a empates" <==> sig && d.drawPercentage >= 60.0))
      && (d.dominantTeam.None? && d.dominanceLevel != "Tendência a empates" ==> d.dominanceLevel == "Equilibrado")
    ensures var d := HistoricalDominance(Some(h), homeTeam, awayTeam).value;
      d.totalMatches == GetIntOr(h.counters, "total_matches", 0)
      && d.homeTeamWins == GetIntOr(h.counters, "home_team_wins", 0)
      && d.awayTeamWins == GetIntOr(h.counters, "away_team_wins", 0)
      && d.draws == GetIntOr(h.counters, "draws", 0)
      && d.homeWinPercentage == GetOr(h.percentages, "home_win_percentage", 0.0)
      && d.awayWinPercentage == GetOr(h.percentages, "away_win_percentage", 0.0)
      && d.drawPercentage == GetOr(h.percentages, "draw_percentage", 0.0)
  {
    assert "Forte" != "Moderado" by { assert "Forte"[0] != "Moderado"[0]; }
    assert "Tendência a empates" != "Equilibrado" by { assert "Tendência a empates"[0] != "Equilibrado"[0]; }
  }

  // ---------------------------------------------------------------------
  // Goal patterns (lines 84-133)
  // ---------------------------------------------------------------------

  datatype GoalPatterns = GoalPatterns(
    over15Percent: real,
    over25Percent: real,
    over35Percent: real,
    bttsPercent: real,
    isHighScoring: bool,
    isLowScoring: bool,
    isBttsTrend: bool,
    goalPattern: string)

  const OpenGames := "Jogos abertos com muitos gols e ambas equipes marcando"
  const OneSidedGoals := "Jogos com muitos gols, geralmente de uma equipe"
  const TightButBothScore := "Jogos equilibrados com poucos gols, mas ambas equipes marcando"
  const ClosedGames := "Jogos fechados com poucos gols"
  const VariablePattern := "Padrão de gols variável"

  function PatternLabel(high: bool, low: bool, btts: bool): string {
    if high && btts then OpenGames
    else if high && !btts then OneSidedGoals
    else if low && btts then TightButBothScore
    else if low && !btts then ClosedGames
    else VariablePattern
  }

  function GoalPatternsOf(h2h: Option<H2HView>): Result<GoalPatterns> {
    if h2h.None? then Err(NoH2HData)
    else if h2h.value.goalsStats == map[] then Err(NoGoalStats)
    else
      var g := h2h.value.goalsStats;
      var over25 := GetOr(g, "over_2_5_percent", 0.0);
      var btts := GetOr(g, "btts_percent", 0.0);
      var high, low, trend := over25 >= 60.0, over25 <= 40.0, btts >= 60.0;
      Ok(GoalPatterns(GetOr(g, "over_1_5_percent", 0.0), over25, GetOr(g, "over_3_5_percent", 0.0), btts,
                      high, low, trend, PatternLabel(high, low, trend)))
  }

  /** A record is never both high and low scoring; it is high scoring from
      60% over 2.5 and low scoring up to 40%; the pattern depends on the
      three flags alone: high or low scoring picks one of two labels by the
      BTTS trend, neither gives the "variable" label. */
  lemma GoalPatternsProperties(h2h: Option<H2HView>)
    ensures GoalPatternsOf(h2h).Err? <==> h2h.None? || h2h.value.goalsStats == map[]
    ensures GoalPatternsOf(h2h).Ok? ==>
      var g := GoalPatternsOf(h2h).value;
      !(g.isHighScoring && g.isLowScoring)
      && (g.isHighScoring <==> g.over25Percent >= 60.0)
      && (g.isLowScoring <==> g.over25Percent <= 40.0)
      && (g.isBttsTrend <==> g.bttsPercent >= 60.0)
      && g.goalPattern == PatternLabel(g.isHighScoring, g.isLowScoring, g.isBttsTrend)
      && (!g.isHighScoring && !g.isLowScoring ==> g.goalPattern == VariablePattern)
      && (g.isHighScoring ==> g.goalPattern == (if g.isBttsTrend then OpenGames else OneSidedGoals))
      && (g.isLowScoring ==> g.goalPattern == (if g.isBttsTrend then TightButBothScore else ClosedGames))
  {
  }

  // ---------------------------------------------------------------------
  // Recent trend (lines 135-234)
  // ---------------------------------------------------------------------

  datatype RecentTrend = RecentTrend(
    last5: LastMatchesSummary,
    recentDominantTeam: Option<string>,
    recentDominanceLevel: string,
    recentGoalTrend: string,
    trendChange: bool)

  /** The ladder of lines 168-181 over the last-match results. */
  function RecentDominance(homeWins: int, awayWins: int, draws: int, homeTeam: string, awayTeam: string): (Option<string>, string) {
    if homeWins >= 4 then (Some(homeTeam), "Forte")
    else if homeWins == 3 then (Some(homeTeam), "Moderado")
    else if awayWins >= 4 then (Some(awayTeam), "Forte")
    else if awayWins == 3 then (Some(awayTeam), "Moderado")
    else if draws >= 3 then (None, "Tendência a empates")
    else (None, "Equilibrado")
  }

  /** The ladder of lines 186-200 over the average goals and BTTS share. */
  function RecentGoalTrend(avgTotalGoals: real, bttsPercentage: real): string {
    if avgTotalGoals >= 3.5 then
      if bttsPercentage >= 60.0 then "Jogos recentes com muitos gols e ambas equipes marcando"
      else "Jogos recentes com muitos gols, geralmente de uma equipe"
    else if avgTotalGoals >= 2.5 then
      if bttsPercentage >= 60.0 then "Jogos recentes com gols moderados e ambas equipes marcando"
      else "Jogos recentes com gols moderados, geralmente de uma equipe"
    else
      if bttsPercentage >= 60.0 then "Jogos recentes com poucos gols, mas ambas equipes marcando"
      else "Jogos recentes fechados com poucos gols"
  }

  /** The three branches of lines 209-217 on Python truthiness. */
  predicate TrendChanged(historical: Option<string>, recent: Option<string>) {
    (Truthy(historical) && Truthy(recent) && historical != recent)
    || (Truthy(historical) && !Truthy(recent))
    || (!Truthy(historical) && Truthy(recent))
  }

  function RecentTrendOf(h2h: Option<H2HView>, homeTeam: string, awayTeam: string): Result<RecentTrend> {
    if h2h.None? then Err(NoH2HData)
    else if h2h.value.last5.None? then Err(NoLastFive)
    else if h2h.value.last5.value.matches == [] then Err(NoLastFiveDetails)
    else
      var l := h2h.value.last5.value;
      var (team, level) := RecentDominance(l.homeWins, l.awayWins, l.draws, homeTeam, awayTeam);
      var historical := HistoricalDominance(h2h, homeTeam, awayTeam).value.dominantTeam;
      Ok(RecentTrend(l, team, level, RecentGoalTrend(l.avgTotalGoals, l.bttsPercentage),
                     TrendChanged(historical, team)))
  }

  /** A dominant team, with "" (falsy) read as no team. */
  function Canonical(team: Option<string>): Option<string> {
    if Truthy(team) then team else None
  }

  /** The trend changes exactly when the historical and the recent dominant
      team differ, no dominant team counting as a value of its own. */
  lemma TrendChangedIff(historical: Option<string>, recent: Option<string>)
    ensures TrendChanged(historical, recent) <==> Canonical(historical) != Canonical(recent)
  {
  }

  /** The recent ladder is first-match: 4 or more home wins gives the home
      team "Forte", exactly 3 "Moderado", and only then are away wins
      looked at; 3 or more draws without such a team gives
      "Tendência a empates" and no dominant team. */
  lemma RecentDominanceLadder(homeWins: int, awayWins: int, draws: int, homeTeam: string, awayTeam: string)
    ensures var (team, level) := RecentDominance(homeWins, awayWins, draws, homeTeam, awayTeam);
      (homeWins >= 4 ==> team == Some(homeTeam) && level == "Forte")
      && (homeWins == 3 ==> team == Some(homeTeam) && level == "Moderado")
      && (homeWins < 3 && awayWins >= 4 ==> team == Some(awayTeam) && level == "Forte")
      && (homeWins < 3 && awayWins == 3 ==> team == Some(awayTeam) && level == "Moderado")
      && (team.None? <==> homeWins < 3 && awayWins < 3)
      && (team.None? ==> (level == "Tendência a empates" <==> draws >= 3))
  {
    assert "Tendência a empates" != "Equilibrado" by { assert "Tendência a empates"[0] != "Equilibrado"[0]; }
  }

  /** Errors come in the order of lines 142-151; otherwise the goal trend
      is always one of the six labels and the trend change compares the
      historical dominant team of the same record with the recent one. */
  lemma RecentTrendProperties(h2h: Option<H2HView>, homeTeam: string, awayTeam: string)
    ensures h2h.None? ==> RecentTrendOf(h2h, homeTeam, awayTeam) == Err(NoH2HData)
    ensures RecentTrendOf(h2h, homeTeam, awayTeam).Ok? <==>
      h2h.Some? && h2h.value.last5.Some? && h2h.value.last5.value.matches != []
    ensures RecentTrendOf(h2h, homeTeam, awayTeam).Ok? ==>
      var r := RecentTrendOf(h2h, homeTeam, awayTeam).value;
      var hist := HistoricalDominance(h2h, homeTeam, awayTeam);
      hist.Ok?
      && (r.recentDominantTeam, r.recentDominanceLevel)
         == RecentDominance(r.last5.homeWins, r.last5.awayWins, r.last5.draws, homeTeam, awayTeam)
      && (r.trendChange <==> Canonical(hist.value.dominantTeam) != Canonical(r.recentDominantTeam))
  {
    if RecentTrendOf(h2h, homeTeam, awayTeam).Ok? {
      var r := RecentTrendOf(h2h, homeTeam, awayTeam).value;
      TrendChangedIff(HistoricalDominance(h2h, homeTeam, awayTeam).value.dominantTeam, r.recentDominantTeam);
    }
  }

  // ---------------------------------------------------------------------
  // Home/away factor (lines 236-316)
  // ---------------------------------------------------------------------

  datatype Venue = HomeTeamAtHome | AwayTeamAtHome | HomeTeamAway | AwayTeamAway

  /** The if/elif chain of lines 262-269: the one counter a match bumps, if
      any. */
  function Classify(m: Match, homeTeam: string, awayTeam: string): Option<Venue> {
    if m.homeTeam == homeTeam && m.homeScore > m.awayScore then Some(HomeTeamAtHome)
    else if m.homeTeam == awayTeam && m.homeScore > m.awayScore then Some(AwayTeamAtHome)
    else if m.awayTeam == homeTeam && m.awayScore > m.homeScore then Some(HomeTeamAway)
    else if m.awayTeam == awayTeam && m.awayScore > m.homeScore then Some(AwayTeamAway)
    else None
  }

  function WinAt(homeTeam: string, awayTeam: string, v: Venue): Match -> bool {
    (m: Match) => Classify(m, homeTeam, awayTeam) == Some(v)
  }

  function HostedBy(team: string): Match -> bool {
    (m: Match) => m.homeTeam == team
  }

  function VisitedBy(team: string): Match -> bool {
    (m: Match) => m.awayTeam == team
  }

  datatype HomeAwayFactor = HomeAwayFactor(
    homeTeamHomeWins: nat,
    homeTeamAwayWins: nat,
    awayTeamHomeWins: nat,
    awayTeamAwayWins: nat,
    homeTeamHomeGames: nat,
    homeTeamAwayGames: nat,
    awayTeamHomeGames: nat,
    awayTeamAwayGames: nat,
    homeTeamHomeWinPct: real,
    homeTeamAwayWinPct: real,
    awayTeamHomeWinPct: real,
    awayTeamAwayWinPct: real,
    homeTeamHomeAdvantage: real,
    awayTeamHomeAdvantage: real,
    homeAdvantageSignificant: bool,
    homeAdvantageTeam: Option<string>)

  const HomeAdvantageThreshold: real := 20.0

  /** Lines 271-297 from the four win counters. */
  function FactorFromCounts(matches: seq<Match>, homeTeam: string, awayTeam: string,
                            hh: nat, ha: nat, ah: nat, aa: nat): HomeAwayFactor {
    var hhg, hag := Count(matches, HostedBy(homeTeam)), Count(matches, VisitedBy(homeTeam));
    var ahg, aag := Count(matches, HostedBy(awayTeam)), Count(matches, VisitedBy(awayTeam));
    var hhp, hap, ahp, aap := Percent(hh, hhg), Percent(ha, hag), Percent(ah, ahg), Percent(aa, aag);
    var hAdv, aAdv := hhp - hap, ahp - aap;
    var team :=
      if hAdv > aAdv && hAdv > HomeAdvantageThreshold then Some(homeTeam)
      else if aAdv > hAdv && aAdv > HomeAdvantageThreshold then Some(awayTeam)
      else None;
    HomeAwayFactor(hh, ha, ah, aa, hhg, hag, ahg, aag, hhp, hap, ahp, aap, hAdv, aAdv,
                   hAdv > HomeAdvantageThreshold || aAdv > HomeAdvantageThreshold, team)
  }

  function Factor(matches: seq<Match>, homeTeam: string, awayTeam: string): HomeAwayFactor {
    FactorFromCounts(matches, homeTeam, awayTeam,
                     Count(matches, WinAt(homeTeam, awayTeam, HomeTeamAtHome)),
                     Count(matches, WinAt(homeTeam, awayTeam, HomeTeamAway)),
                     Count(matches, WinAt(homeTeam, awayTeam, AwayTeamAtHome)),
                     Count(matches, WinAt(homeTeam, awayTeam, AwayTeamAway)))
  }

  /** `analyze_home_away_factor()` as written: it reads `last_matches`. */
  function HomeAwayFactorOf(h2h: Option<H2HView>, homeTeam: string, awayTeam: string): Result<HomeAwayFactor> {
    if h2h.None? then Err(NoH2HData)
    else if h2h.value.lastMatches == [] then Err(NoMatchDetails)
    else Ok(Factor(h2h.value.lastMatches, homeTeam, awayTeam))
  }

  /** The factor on the meetings `process_head_to_head()` keeps, under
      `last_5_matches.matches`. */
  function HomeAwayFactorFromLastFive(h2h: Option<H2HView>, homeTeam: string, awayTeam: string): (r: Result<HomeAwayFactor>)
    ensures r.Ok? <==> h2h.Some? && h2h.value.last5.Some? && h2h.value.last5.value.matches != []
    ensures r.Ok? ==> r.value == Factor(h2h.value.last5.value.matches, homeTeam, awayTeam)
  {
    if h2h.None? then Err(NoH2HData)
    else if h2h.value.last5.None? || h2h.value.last5.value.matches == [] then Err(NoMatchDetails)
    else Ok(Factor(h2h.value.last5.value.matches, homeTeam, awayTeam))
  }

  /** On the dictionary the processing step produces, the factor as written
      never gets past its second guard, whatever the meetings. */
  lemma HomeAwayFactorOnProcessedData(p: ProcessedH2H, homeTeam: string, awayTeam: string)
    ensures HomeAwayFactorOf(Some(FromProcessed(p)), homeTeam, awayTeam) == Err(NoMatchDetails)
    ensures p.last5.matches != [] ==> HomeAwayFactorFromLastFive(Some(FromProcessed(p)), homeTeam, awayTeam).Ok?
  {
  }

  /** Each match bumps at most one win counter, so the four add up to at
      most the number of matches. */
  lemma {:induction false} WinCountersDisjoint(matches: seq<Match>, homeTeam: string, awayTeam: string)
    ensures Count(matches, WinAt(homeTeam, awayTeam, HomeTeamAtHome)) + Count(matches, WinAt(homeTeam, awayTeam, HomeTeamAway))
          + Count(matches, WinAt(homeTeam, awayTeam, AwayTeamAtHome)) + Count(matches, WinAt(homeTeam, awayTeam, AwayTeamAway))
          <= |matches|
  {
    if matches != [] {
      WinCountersDisjoint(matches[..|matches| - 1], homeTeam, awayTeam);
    }
  }

  /** Each win counter is at most the games of that team at that venue, so
      each win percentage lies in [0, 100] and is 0 without such games; the
      match that bumps a counter is one the team played at that venue. */
  lemma FactorProperties(matches: seq<Match>, homeTeam: string, awayTeam: string)
    ensures var f := Factor(matches, homeTeam, awayTeam);
      f.homeTeamHomeWins <= f.homeTeamHomeGames && f.homeTeamAwayWins <= f.homeTeamAwayGames
      && f.awayTeamHomeWins <= f.awayTeamHomeGames && f.awayTeamAwayWins <= f.awayTeamAwayGames
      && f.homeTeamHomeWins + f.homeTeamAwayWins + f.awayTeamHomeWins + f.awayTeamAwayWins <= |matches|
      && 0.0 <= f.homeTeamHomeWinPct <= 100.0 && 0.0 <= f.homeTeamAwayWinPct <= 100.0
      && 0.0 <= f.awayTeamHomeWinPct <= 100.0 && 0.0 <= f.awayTeamAwayWinPct <= 100.0
      && (f.homeTeamHomeGames == 0 ==> f.homeTeamHomeWinPct == 0.0)
      && (f.homeTeamAwayGames == 0 ==> f.homeTeamAwayWinPct == 0.0)
      && (f.awayTeamHomeGames == 0 ==> f.awayTeamHomeWinPct == 0.0)
      && (f.awayTeamAwayGames == 0 ==> f.awayTeamAwayWinPct == 0.0)
  {
    var f := Factor(matches, homeTeam, awayTeam);
    CountImplies(matches, WinAt(homeTeam, awayTeam, HomeTeamAtHome), HostedBy(homeTeam));
    CountImplies(matches, WinAt(homeTeam, awayTeam, HomeTeamAway), VisitedBy(homeTeam));
    CountImplies(matches, WinAt(homeTeam, awayTeam, AwayTeamAtHome), HostedBy(awayTeam));
    CountImplies(matches, WinAt(homeTeam, awayTeam, AwayTeamAway), VisitedBy(awayTeam));
    WinCountersDisjoint(matches, homeTeam, awayTeam);
    PercentBounds(f.homeTeamHomeWins, f.homeTeamHomeGames);
    PercentBounds(f.homeTeamAwayWins, f.homeTeamAwayGames);
    PercentBounds(f.awayTeamHomeWins, f.awayTeamHomeGames);
    PercentBounds(f.awayTeamAwayWins, f.awayTeamAwayGames);
  }

  /** A team benefits from home advantage only when its advantage is
      strictly above the other team's and above 20 points, so only when
      the advantage is significant; the significance itself is either
      advantage above 20. */
  lemma HomeAdvantageProperties(matches: seq<Match>, homeTeam: string, awayTeam: string)
    ensures var f := Factor(matches, homeTeam, awayTeam);
      (f.homeAdvantageSignificant <==> f.homeTeamHomeAdvantage > 20.0 || f.awayTeamHomeAdvantage > 20.0)
      && (f.homeAdvantageTeam.Some? ==> f.homeAdvantageSignificant)
      && ((f.homeTeamHomeAdvantage > f.awayTeamHomeAdvantage && f.homeTeamHomeAdvantage > 20.0)
          ==> f.homeAdvantageTeam == Some(homeTeam))
      && ((f.awayTeamHomeAdvantage > f.homeTeamHomeAdvantage && f.awayTeamHomeAdvantage > 20.0)
          ==> f.homeAdvantageTeam == Some(awayTeam))
      && (f.homeAdvantageTeam.Some? <==>
            (f.homeTeamHomeAdvantage > f.awayTeamHomeAdvantage && f.homeTeamHomeAdvantage > 20.0)
            || (f.awayTeamHomeAdvantage > f.homeTeamHomeAdvantage && f.awayTeamHomeAdvantage > 20.0))
  {
  }

  /** The counting loop of lines 256-269. */
  method CountVenueWins(matches: seq<Match>, homeTeam: string, awayTeam: string)
    returns (hh: nat, ha: nat, ah: nat, aa: nat)
    ensures hh == Count(matches, WinAt(homeTeam, awayTeam, HomeTeamAtHome))
    ensures ha == Count(matches, WinAt(homeTeam, awayTeam, HomeTeamAway))
    ensures ah == Count(matches, WinAt(homeTeam, awayTeam, AwayTeamAtHome))
    ensures aa == Count(matches, WinAt(homeTeam, awayTeam, AwayTeamAway))
  {
    hh, ha, ah, aa := 0, 0, 0, 0;
    var i := 0;
    while i < |matches|
      invariant 0 <= i <= |matches|
      invariant hh == Count(matches[..i], WinAt(homeTeam, awayTeam, HomeTeamAtHome))
      invariant ha == Count(matches[..i], WinAt(homeTeam, awayTeam, HomeTeamAway))
      invariant ah == Count(matches[..i], WinAt(homeTeam, awayTeam, AwayTeamAtHome))
      invariant aa == Count(matches[..i], WinAt(homeTeam, awayTeam, AwayTeamAway))
    {
      var m := matches[i];
      CountStep(matches, i, WinAt(homeTeam, awayTeam, HomeTeamAtHome));
      CountStep(matches, i, WinAt(homeTeam, awayTeam, HomeTeamAway));
      CountStep(matches, i, WinAt(homeTeam, awayTeam, AwayTeamAtHome));
      CountStep(matches, i, WinAt(homeTeam, awayTeam, AwayTeamAway));
      if m.homeTeam == homeTeam && m.homeScore > m.awayScore {
        hh := hh + 1;
      } else if m.homeTeam == awayTeam && m.homeScore > m.awayScore {
        ah := ah + 1;
      } else if m.awayTeam == homeTeam && m.awayScore > m.homeScore {
        ha := ha + 1;
      } else if m.awayTeam == awayTeam && m.awayScore > m.homeScore {
        aa := aa + 1;
      }
      i := i + 1;
    }
    assert matches[..i] == matches;
  }

  /** `analyze_home_away_factor()` as a method. */
  method RunHomeAwayFactor(h2h: Option<H2HView>, homeTeam: string, awayTeam: string) returns (r: Result<HomeAwayFactor>)
    ensures r == HomeAwayFactorOf(h2h, homeTeam, awayTeam)
  {
    if h2h.None? {
      return Err(NoH2HData);
    }
    var matches := h2h.value.lastMatches;
    if matches == [] {
      return Err(NoMatchDetails);
    }
    var hh, ha, ah, aa := CountVenueWins(matches, homeTeam, awayTeam);
    r := Ok(FactorFromCounts(matches, homeTeam, awayTeam, hh, ha, ah, aa));
  }

  // ---------------------------------------------------------------------
  // Current-match insight (line 421)
  // ---------------------------------------------------------------------

  /** `recent or historical`: the recent dominant team when it is a
      non-empty name, otherwise the historical one. */
  function CurrentDominantTeam(recent: Option<string>, historical: Option<string>): (t: Option<string>)
    ensures Truthy(recent) ==> t == recent
    ensures !Truthy(recent) ==> t == historical
    ensures Truthy(t) <==> Truthy(recent) || Truthy(historical)
  {
    if Truthy(recent) then recent else historical
  }
}
