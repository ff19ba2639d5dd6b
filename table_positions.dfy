/** The table-position analyses of analyzers/table_positions.py: the two
    teams' general positions and zones, their home/away table positions,
    the direct comparison of their metrics, the expected quality of the
    match and the gating of the insights. They read the processed
    `table_positions` dictionary. */
module TablePositions {
  import opened Common
  import opened DataProcessor

  /** An analysis returns its dictionary, returns `{"error": ...}`, or
      raises ZeroDivisionError (a percentile over a total of 0 teams),
      which propagates to every caller. */
  datatype Analysis<T> = Done(value: T) | Failed(message: string) | DivisionByZero

  const NoTables := "Dados de posições nas tabelas não disponíveis"
  const NoTeamPositions := "Dados de posições para uma ou ambas as equipes não disponíveis"
  const NoVenueTables := "Dados de posições nas tabelas de casa e fora não disponíveis"
  const NoDirect := "Dados de comparação direta não disponíveis"
  const NoQuality := "Dados insuficientes para analisar a qualidade do jogo"
  const NoInsights := "Dados insuficientes para gerar insights"

  /** `not self.table_positions`: no team entry and no direct comparison. */
  predicate NoPositions(tp: ProcessedPositions) {
    tp.teams == map[] && tp.direct.None?
  }

  // ---------------------------------------------------------------------
  // Symmetric advantage ladders (lines 59-71, 136-149, 240-311)
  // ---------------------------------------------------------------------

  datatype Side = HomeSide | AwaySide | Even

  /** Who is ahead and by how many rungs: 3 "grande" / "muito
      significativa", 2 "significativa", 1 "leve", 0 balanced. */
  datatype Edge = Edge(side: Side, degree: nat)

  /** The three-rung ladder, home rungs first as in the source. */
  function Ladder3(d: real, low: real, mid: real, high: real): Edge {
    if d >= high then Edge(HomeSide, 3)
    else if d >= mid then Edge(HomeSide, 2)
    else if d >= low then Edge(HomeSide, 1)
    else if d <= -high then Edge(AwaySide, 3)
    else if d <= -mid then Edge(AwaySide, 2)
    else if d <= -low then Edge(AwaySide, 1)
    else Edge(Even, 0)
  }

  /** The two-rung ladder of the xG comparisons. */
  function Ladder2(d: real, low: real, mid: real): Edge {
    if d >= mid then Edge(HomeSide, 2)
    else if d >= low then Edge(HomeSide, 1)
    else if d <= -mid then Edge(AwaySide, 2)
    else if d <= -low then Edge(AwaySide, 1)
    else Edge(Even, 0)
  }

  function MirrorEdge(e: Edge): Edge {
    match e.side
    case HomeSide => Edge(AwaySide, e.degree)
    case AwaySide => Edge(HomeSide, e.degree)
    case Even => e
  }

  /** The edge as a signed score: positive for the home team. */
  function EdgeScore(e: Edge): int {
    match e.side
    case HomeSide => e.degree
    case AwaySide => -(e.degree as int)
    case Even => 0
  }

  /** With ordered positive thresholds both ladders are symmetric (negating
      the difference mirrors the edge), monotone (a larger difference never
      gives a smaller signed score), and balanced exactly strictly inside
      the lowest rung. */
  lemma LadderProperties(d1: real, d2: real, low: real, mid: real, high: real)
    requires 0.0 < low <= mid <= high
    ensures Ladder3(-d1, low, mid, high) == MirrorEdge(Ladder3(d1, low, mid, high))
    ensures Ladder2(-d1, low, mid) == MirrorEdge(Ladder2(d1, low, mid))
    ensures d1 <= d2 ==> EdgeScore(Ladder3(d1, low, mid, high)) <= EdgeScore(Ladder3(d2, low, mid, high))
    ensures d1 <= d2 ==> EdgeScore(Ladder2(d1, low, mid)) <= EdgeScore(Ladder2(d2, low, mid))
    ensures Ladder3(d1, low, mid, high).side == Even <==> -low < d1 < low
    ensures Ladder2(d1, low, mid).side == Even <==> -low < d1 < low
  {
  }

  /** The position-difference ladder at 2, 5 and 10 places. */
  function QualityLevel(positionDifference: int): Edge {
    Ladder3(positionDifference as real, 2.0, 5.0, 10.0)
  }

  /** On whole positions the rungs are 2, 5 and 10 places either way. */
  lemma QualityLevelRungs(d: int)
    ensures QualityLevel(d) == Edge(HomeSide, 3) <==> d >= 10
    ensures QualityLevel(d) == Edge(HomeSide, 2) <==> 5 <= d < 10
    ensures QualityLevel(d) == Edge(HomeSide, 1) <==> 2 <= d < 5
    ensures QualityLevel(d) == Edge(AwaySide, 3) <==> d <= -10
    ensures QualityLevel(d) == Edge(AwaySide, 2) <==> -10 < d <= -5
    ensures QualityLevel(d) == Edge(AwaySide, 1) <==> -5 < d <= -2
    ensures QualityLevel(d) == Edge(Even, 0) <==> -2 < d < 2
    ensures QualityLevel(-d) == MirrorEdge(QualityLevel(d))
  {
    LadderProperties(d as real, d as real, 2.0, 5.0, 10.0);
  }

  // ---------------------------------------------------------------------
  // General positions (lines 29-102)
  // ---------------------------------------------------------------------

  /** The table zones, best first. */
  datatype Zone = Titulo | Europa | MeioSuperior | MeioInferior | Risco | Rebaixamento

  function ZoneIndex(z: Zone): nat {
    match z
    case Titulo => 0
    case Europa => 1
    case MeioSuperior => 2
    case MeioInferior => 3
    case Risco => 4
    case Rebaixamento => 5
  }

  /** `classify_position`: the first of 15%, 30%, 50%, 70% and 85% of the
      table that the position does not exceed. */
  function ClassifyPosition(position: int, total: int): Zone {
    var p, t := position as real, total as real;
    if p <= t * 0.15 then Titulo
    else if p <= t * 0.3 then Europa
    else if p <= t * 0.5 then MeioSuperior
    else if p <= t * 0.7 then MeioInferior
    else if p <= t * 0.85 then Risco
    else Rebaixamento
  }

  /** A larger position never lands in a better zone. */
  lemma ClassifyPositionMonotone(p1: int, p2: int, total: int)
    requires p1 <= p2
    ensures ZoneIndex(ClassifyPosition(p1, total)) <= ZoneIndex(ClassifyPosition(p2, total))
  {
    assert p1 as real <= p2 as real;
  }

  /** In a table of the default 20 teams: 1-3 title, 4-6 Europe, 7-10
      upper half, 11-14 lower half, 15-17 risk, 18-20 relegation. */
  lemma ClassifyPositionTwentyTeams(p: int)
    requires 1 <= p <= DefaultTotalTeams
    ensures 1 <= p <= 3 <==> ClassifyPosition(p, DefaultTotalTeams) == Titulo
    ensures 4 <= p <= 6 <==> ClassifyPosition(p, DefaultTotalTeams) == Europa
    ensures 7 <= p <= 10 <==> ClassifyPosition(p, DefaultTotalTeams) == MeioSuperior
    ensures 11 <= p <= 14 <==> ClassifyPosition(p, DefaultTotalTeams) == MeioInferior
    ensures 15 <= p <= 17 <==> ClassifyPosition(p, DefaultTotalTeams) == Risco
    ensures 18 <= p <= 20 <==> ClassifyPosition(p, DefaultTotalTeams) == Rebaixamento
  {
  }

  datatype GeneralAnalysis = GeneralAnalysis(
    homeGeneralPosition: int,
    awayGeneralPosition: int,
    totalTeams: int,
    homePercentile: real,
    awayPercentile: real,
    positionDifference: int,
    percentileDifference: real,
    quality: Edge,
    homeZone: Zone,
    awayZone: Zone)

  /** `analyze_general_positions()`. The table size is the home team's;
      the percentile here has no guard against a total of 0. */
  function GeneralPositions(tp: ProcessedPositions, homeTeam: string, awayTeam: string): Analysis<GeneralAnalysis> {
    if NoPositions(tp) then Failed(NoTables)
    else if homeTeam !in tp.teams || awayTeam !in tp.teams then Failed(NoTeamPositions)
    else
      var h := tp.teams[homeTeam].generalPosition;
      var a := tp.teams[awayTeam].generalPosition;
      var total := tp.teams[homeTeam].totalTeams;
      if total == 0 then DivisionByZero
      else
        var hp := Percentile(h, total);
        var ap := Percentile(a, total);
        Done(GeneralAnalysis(h, a, total, hp, ap, a - h, hp - ap, QualityLevel(a - h),
                             ClassifyPosition(h, total), ClassifyPosition(a, total)))
  }

  /** The percentile difference is the position difference (away minus
      home) as a share of the table, and the leader is at 100. */
  lemma PercentileDifference(h: int, a: int, total: int)
    requires total != 0
    ensures Percentile(h, total) - Percentile(a, total) == (a - h) as real * 100.0 / total as real
    ensures Percentile(1, total) == 100.0
  {
    PercentileProperties(1, 1, total);
    var t := total as real;
    calc {
      Percentile(h, total) - Percentile(a, total);
      ((total - h + 1) as real / t) * 100.0 - ((total - a + 1) as real / t) * 100.0;
      ((total - h + 1) as real - (total - a + 1) as real) / t * 100.0;
      (a - h) as real * 100.0 / t;
    }
  }

  /** The analysis fails without positions or without either team, raises
      for an empty table size, and otherwise reports positions whose
      differences agree: a positive position difference is a home
      advantage in both positions and percentiles. */
  lemma GeneralPositionsProperties(tp: ProcessedPositions, homeTeam: string, awayTeam: string)
    ensures GeneralPositions(tp, homeTeam, awayTeam).Failed? <==>
      NoPositions(tp) || homeTeam !in tp.teams || awayTeam !in tp.teams
    ensures GeneralPositions(tp, homeTeam, awayTeam).DivisionByZero? <==>
      !NoPositions(tp) && homeTeam in tp.teams && awayTeam in tp.teams && tp.teams[homeTeam].totalTeams == 0
    ensures GeneralPositions(tp, homeTeam, awayTeam).Done? ==>
      var g := GeneralPositions(tp, homeTeam, awayTeam).value;
      g.positionDifference == g.awayGeneralPosition - g.homeGeneralPosition
      && g.percentileDifference == g.positionDifference as real * 100.0 / g.totalTeams as real
      && g.quality == QualityLevel(g.positionDifference)
      && ((g.positionDifference > 0) == (g.percentileDifference * g.totalTeams as real > 0.0))
  {
    if GeneralPositions(tp, homeTeam, awayTeam).Done? {
      var g := GeneralPositions(tp, homeTeam, awayTeam).value;
      PercentileDifference(g.homeGeneralPosition, g.awayGeneralPosition, g.totalTeams);
      var t := g.totalTeams as real;
      assert g.percentileDifference * t == g.positionDifference as real * 100.0;
    }
  }

  // ---------------------------------------------------------------------
  // Home and away tables (lines 104-200)
  // ---------------------------------------------------------------------

  /** How much stronger a team is in its venue table than overall, from
      general minus venue-table position: 3 "Muito mais forte", 2
      "Significativamente", 1 "Ligeiramente", 0 "Desempenho similar", and
      the negatives for "mais fraco". */
  function SpecificStrength(d: int): int {
    if d >= 5 then 3
    else if d >= 2 then 2
    else if d >= 1 then 1
    else if d <= -5 then -3
    else if d <= -2 then -2
    else if d <= -1 then -1
    else 0
  }

  /** The away team's ladder as written, weaker-than-overall differences
      first and labelled "mais forte fora". */
  function AwaySpecificStrengthAsWritten(d: int): int {
    if d <= -5 then 3
    else if d <= -2 then 2
    else if d <= -1 then 1
    else if d >= 5 then -3
    else if d >= 2 then -2
    else if d >= 1 then -1
    else 0
  }

  /** As written, the away ladder reads the difference with the opposite
      sign: a team 3rd overall and 10th in the away table is called much
      stronger away. */
  lemma AwaySpecificStrengthAsWrittenInverted(d: int)
    ensures AwaySpecificStrengthAsWritten(d) == SpecificStrength(-d)
    ensures AwaySpecificStrengthAsWritten(3 - 10) == 3 && SpecificStrength(3 - 10) == -3
  {
  }

  /** The strength is monotone in the difference, antisymmetric, at most 3
      either way, and zero exactly when both positions agree. */
  lemma SpecificStrengthProperties(d1: int, d2: int)
    ensures d1 <= d2 ==> SpecificStrength(d1) <= SpecificStrength(d2)
    ensures SpecificStrength(-d1) == -SpecificStrength(d1)
    ensures -3 <= SpecificStrength(d1) <= 3
    ensures SpecificStrength(d1) == 0 <==> d1 == 0
    ensures SpecificStrength(d1) > 0 <==> d1 > 0
    ensures SpecificStrength(d1) == 3 <==> d1 >= 5
    ensures SpecificStrength(d1) == 2 <==> 2 <= d1 < 5
    ensures SpecificStrength(d1) == 1 <==> d1 == 1
    ensures SpecificStrength(d1) == -1 <==> d1 == -1
    ensures SpecificStrength(d1) == -2 <==> -5 < d1 <= -2
    ensures SpecificStrength(d1) == -3 <==> d1 <= -5
  {
  }

  datatype VenueTablesAnalysis = VenueTablesAnalysis(
    homeHomePosition: int,
    awayAwayPosition: int,
    totalTeams: int,
    homeHomePercentile: real,
    awayAwayPercentile: real,
    specificPositionDifference: int,
    specificPercentileDifference: real,
    specificQuality: Edge,
    homePositionDifference: int,
    awayPositionDifference: int,
    homeSpecificStrength: int,
    awaySpecificStrength: int)

  /** `analyze_home_away_tables()`: the home team's home-table position
      against the away team's away-table position; the away team's
      strength uses the away ladder as written. */
  function HomeAwayTables(tp: ProcessedPositions, homeTeam: string, awayTeam: string): Analysis<VenueTablesAnalysis> {
    if NoPositions(tp) then Failed(NoTables)
    else if homeTeam !in tp.teams || awayTeam !in tp.teams then Failed(NoTeamPositions)
    else
      var he := tp.teams[homeTeam];
      var ae := tp.teams[awayTeam];
      var total := he.totalTeams;
      if he.homePosition.None? || ae.awayPosition.None? then Failed(NoVenueTables)
      else if total == 0 then DivisionByZero
      else
        var hh := he.homePosition.value;
        var aa := ae.awayPosition.value;
        var hp := Percentile(hh, total);
        var ap := Percentile(aa, total);
        var hd := he.generalPosition - hh;
        var ad := ae.generalPosition - aa;
        Done(VenueTablesAnalysis(hh, aa, total, hp, ap, aa - hh, hp - ap, QualityLevel(aa - hh),
                                 hd, ad, SpecificStrength(hd), AwaySpecificStrengthAsWritten(ad)))
  }

  /** The venue analysis errors exactly when either venue-table position
      is missing (with both teams present). The home team is reported
      stronger at home exactly when it ranks better in the home table than
      overall; the away team is reported stronger away exactly when it
      ranks worse in the away table than overall, the corrected rung
      negated. */
  lemma HomeAwayTablesProperties(tp: ProcessedPositions, homeTeam: string, awayTeam: string)
    requires !NoPositions(tp) && homeTeam in tp.teams && awayTeam in tp.teams
    ensures HomeAwayTables(tp, homeTeam, awayTeam).Failed? <==>
      tp.teams[homeTeam].homePosition.None? || tp.teams[awayTeam].awayPosition.None?
    ensures HomeAwayTables(tp, homeTeam, awayTeam).Done? ==>
      var v := HomeAwayTables(tp, homeTeam, awayTeam).value;
      (v.homeSpecificStrength > 0 <==> v.homeHomePosition < tp.teams[homeTeam].generalPosition)
      && (v.awaySpecificStrength > 0 <==> v.awayAwayPosition > tp.teams[awayTeam].generalPosition)
      && v.awaySpecificStrength == -SpecificStrength(v.awayPositionDifference)
      && v.specificPercentileDifference == v.specificPositionDifference as real * 100.0 / v.totalTeams as real
  {
    if HomeAwayTables(tp, homeTeam, awayTeam).Done? {
      var v := HomeAwayTables(tp, homeTeam, awayTeam).value;
      SpecificStrengthProperties(v.homePositionDifference, 0);
      SpecificStrengthProperties(v.awayPositionDifference, 0);
      AwaySpecificStrengthAsWrittenInverted(v.awayPositionDifference);
      PercentileDifference(v.homeHomePosition, v.awayAwayPosition, v.totalTeams);
    }
  }

  // ---------------------------------------------------------------------
  // Performance metrics (lines 202-344)
  // ---------------------------------------------------------------------

  datatype Metric = Metric(home: real, away: real, difference: real, advantage: Edge)

  datatype PerformanceAnalysis = PerformanceAnalysis(
    winPercentage: Metric,
    goalsScored: Metric,
    goalsConceded: Metric,
    xG: Metric,
    xGC: Metric)

  /** `analyze_performance_metrics()` on the direct comparison. The
      conceded and xGC differences are away minus home, so that positive
      favours the home team everywhere. */
  function PerformanceMetrics(tp: ProcessedPositions): Analysis<PerformanceAnalysis> {
    if NoPositions(tp) then Failed(NoTables)
    else if tp.direct.None? then Failed(NoDirect)
    else
      var c := tp.direct.value;
      var wd := c.homeWinPercentage - c.awayWinPercentage;
      var sd := c.homeGoalsScored - c.awayGoalsScored;
      var cd := c.awayGoalsConceded - c.homeGoalsConceded;
      var xd := c.homeXg - c.awayXg;
      var xcd := c.awayXgc - c.homeXgc;
      Done(PerformanceAnalysis(
        Metric(c.homeWinPercentage, c.awayWinPercentage, wd, Ladder3(wd, 5.0, 15.0, 25.0)),
        Metric(c.homeGoalsScored, c.awayGoalsScored, sd, Ladder3(sd, 0.2, 0.5, 1.0)),
        Metric(c.homeGoalsConceded, c.awayGoalsConceded, cd, Ladder3(cd, 0.2, 0.5, 1.0)),
        Metric(c.homeXg, c.awayXg, xd, Ladder2(xd, 0.2, 0.5)),
        Metric(c.homeXgc, c.awayXgc, xcd, Ladder2(xcd, 0.2, 0.5))))
  }

  /** The metrics exist exactly when there is a direct comparison. The
      home team holds the defensive (xGC) advantage only when it concedes
      (is expected to concede) less, the attacking ones only when it
      scores more, and a strictly smaller gap than the lowest rung is
      balanced. */
  lemma PerformanceMetricsProperties(tp: ProcessedPositions)
    ensures PerformanceMetrics(tp).Done? <==> tp.direct.Some?
    ensures PerformanceMetrics(tp).Done? ==>
      var m := PerformanceMetrics(tp).value;
      var c := tp.direct.value;
      (m.goalsConceded.advantage.side == HomeSide ==> c.homeGoalsConceded < c.awayGoalsConceded)
      && (m.xGC.advantage.side == HomeSide ==> c.homeXgc < c.awayXgc)
      && (m.goalsScored.advantage.side == HomeSide ==> c.homeGoalsScored > c.awayGoalsScored)
      && (m.xG.advantage.side == HomeSide ==> c.homeXg > c.awayXg)
      && (m.winPercentage.advantage.side == Even <==> -5.0 < m.winPercentage.difference < 5.0)
      && m.winPercentage.advantage.degree <= 3 && m.xG.advantage.degree <= 2
  {
  }

  // ---------------------------------------------------------------------
  // Match quality (lines 346-444)
  // ---------------------------------------------------------------------

  /** The expected quality: the band of the average position (0 the top
      20% of the table, ..., 4 the bottom 20%) and whether the two teams
      are at most three places apart. */
  datatype Quality = Quality(tier: nat, close: bool)

  datatype Balance = MuitoEquilibrado | Equilibrado | Desequilibrado | MuitoDesequilibrado

  datatype Importance = LutaTitulo | LutaEuropa | Manutencao | Afastamento | LutaRebaixamento

  /** Importance in order of table position. */
  function ImportanceIndex(i: Importance): nat {
    match i
    case LutaTitulo => 0
    case LutaEuropa => 1
    case Manutencao => 2
    case Afastamento => 3
    case LutaRebaixamento => 4
  }

  function Abs(x: int): nat {
    if x < 0 then -x else x
  }

  function QualityOf(average: real, gap: nat, total: int): Quality {
    var t := total as real;
    var close := gap <= 3;
    if average <= t * 0.2 then Quality(0, close)
    else if average <= t * 0.4 then Quality(1, close)
    else if average <= t * 0.6 then Quality(2, close)
    else if average <= t * 0.8 then Quality(3, close)
    else Quality(4, close)
  }

  function BalanceOf(gap: nat): Balance {
    if gap <= 2 then MuitoEquilibrado
    else if gap <= 5 then Equilibrado
    else if gap <= 10 then Desequilibrado
    else MuitoDesequilibrado
  }

  function BalanceIndex(b: Balance): nat {
    match b
    case MuitoEquilibrado => 0
    case Equilibrado => 1
    case Desequilibrado => 2
    case MuitoDesequilibrado => 3
  }

  /** The importance ladder: the top three and the next three first, then
      the last four and the three above them. */
  function ImportanceOf(position: int, total: int): Importance {
    if position <= 3 then LutaTitulo
    else if position <= 6 then LutaEuropa
    else if position >= total - 3 then LutaRebaixamento
    else if position >= total - 6 then Afastamento
    else Manutencao
  }

  /** A larger position never means a more important fight nearer the
      top: the importance moves down the table with the position, and the
      top six are never in a relegation fight whatever the table size. */
  lemma ImportanceProperties(p1: int, p2: int, total: int)
    ensures p1 <= p2 ==> ImportanceIndex(ImportanceOf(p1, total)) <= ImportanceIndex(ImportanceOf(p2, total))
    ensures p1 <= 6 ==> ImportanceIndex(ImportanceOf(p1, total)) <= 1
    ensures 6 < p1 && p1 >= total - 3 ==> ImportanceOf(p1, total) == LutaRebaixamento
  {
  }

  /** A larger gap never makes the match more balanced. */
  lemma BalanceMonotone(g1: nat, g2: nat)
    requires g1 <= g2
    ensures BalanceIndex(BalanceOf(g1)) <= BalanceIndex(BalanceOf(g2))
  {
  }

  datatype QualityAnalysis = QualityAnalysis(
    homePosition: int,
    awayPosition: int,
    averagePosition: real,
    positionGap: nat,
    quality: Quality,
    balance: Balance,
    homeImportance: Importance,
    awayImportance: Importance)

  /** `analyze_match_quality()`: its own error when the general analysis
      errors; the general analysis raising propagates. */
  function MatchQuality(tp: ProcessedPositions, homeTeam: string, awayTeam: string): Analysis<QualityAnalysis> {
    match GeneralPositions(tp, homeTeam, awayTeam)
    case DivisionByZero => DivisionByZero
    case Failed(_) => Failed(NoQuality)
    case Done(g) =>
      var h, a, total := g.homeGeneralPosition, g.awayGeneralPosition, g.totalTeams;
      var average := (h + a) as real / 2.0;
      var gap := Abs(h - a);
      Done(QualityAnalysis(h, a, average, gap, QualityOf(average, gap, total), BalanceOf(gap),
                           ImportanceOf(h, total), ImportanceOf(a, total)))
  }

  /** The quality, the average and the balance of a match do not depend
      on which team is at home, and each team's importance is the one its
      own position gives. */
  lemma MatchQualitySymmetric(h: int, a: int, total: int)
    ensures Abs(h - a) == Abs(a - h)
    ensures (h + a) as real / 2.0 == (a + h) as real / 2.0
    ensures QualityOf((h + a) as real / 2.0, Abs(h - a), total) == QualityOf((a + h) as real / 2.0, Abs(a - h), total)
    ensures BalanceOf(Abs(h - a)) == BalanceOf(Abs(a - h))
  {
  }

  /** Every field of the quality analysis follows from the two general
      positions: the gap is the distance between them whatever their
      order, and the match is "close" exactly for gaps of at most three. */
  lemma MatchQualityProperties(tp: ProcessedPositions, homeTeam: string, awayTeam: string)
    ensures MatchQuality(tp, homeTeam, awayTeam).Done? <==> GeneralPositions(tp, homeTeam, awayTeam).Done?
    ensures MatchQuality(tp, homeTeam, awayTeam).DivisionByZero? <==> GeneralPositions(tp, homeTeam, awayTeam).DivisionByZero?
    ensures MatchQuality(tp, homeTeam, awayTeam).Done? ==>
      var q := MatchQuality(tp, homeTeam, awayTeam).value;
      var g := GeneralPositions(tp, homeTeam, awayTeam).value;
      q.homePosition == g.homeGeneralPosition && q.awayPosition == g.awayGeneralPosition
      && (q.positionGap == q.homePosition - q.awayPosition || q.positionGap == q.awayPosition - q.homePosition)
      && (q.quality.close <==> q.positionGap <= 3)
      && q.quality.tier <= 4
      && q.homeImportance == ImportanceOf(q.homePosition, g.totalTeams)
  {
  }

  // ---------------------------------------------------------------------
  // Insights gating (lines 446-519)
  // ---------------------------------------------------------------------

  datatype TableAnalyses = TableAnalyses(
    general: GeneralAnalysis,
    venueTables: VenueTablesAnalysis,
    performance: PerformanceAnalysis,
    quality: QualityAnalysis)

  /** `generate_insights()` without its sentences: the four analyses run
      in order, the first raise propagates, and any error among them gives
      the insights' own error. */
  function Insights(tp: ProcessedPositions, homeTeam: string, awayTeam: string): Analysis<TableAnalyses> {
    var g := GeneralPositions(tp, homeTeam, awayTeam);
    var v := HomeAwayTables(tp, homeTeam, awayTeam);
    var p := PerformanceMetrics(tp);
    var q := MatchQuality(tp, homeTeam, awayTeam);
    if g.DivisionByZero? || v.DivisionByZero? || q.DivisionByZero? then DivisionByZero
    else if g.Done? && v.Done? && p.Done? && q.Done? then Done(TableAnalyses(g.value, v.value, p.value, q.value))
    else Failed(NoInsights)
  }

  /** The insights exist exactly when all four analyses succeed, they
      raise exactly when the general analysis raises (the venue tables can
      only raise when it does), and any error otherwise is the insights'
      own. */
  lemma InsightsGating(tp: ProcessedPositions, homeTeam: string, awayTeam: string)
    ensures Insights(tp, homeTeam, awayTeam).Done? <==>
      GeneralPositions(tp, homeTeam, awayTeam).Done? && HomeAwayTables(tp, homeTeam, awayTeam).Done?
      && PerformanceMetrics(tp).Done? && MatchQuality(tp, homeTeam, awayTeam).Done?
    ensures Insights(tp, homeTeam, awayTeam).DivisionByZero? <==> GeneralPositions(tp, homeTeam, awayTeam).DivisionByZero?
    ensures Insights(tp, homeTeam, awayTeam).Failed? ==> Insights(tp, homeTeam, awayTeam).message == NoInsights
  {
  }
}
