/** The four match models of analyzers/prediction_models.py: the
    independent-Poisson model, its head-to-head-adjusted variant, the
    hand-weighted softmax ("logistic") model and the renormalising ensemble.
    Probabilities are reals; the exponential function is a parameter whose
    values are positive, and the lemmas that need more of it say so through
    ValidExp. */
module PredictionModels {
  import opened Common
  import opened ScoreTable

  type PosReal = x: real | x > 0.0 witness 1.0

  /** The properties of exp the lemmas rely on. */
  ghost predicate ValidExp(exp: real -> PosReal) {
    exp(0.0) == 1.0 && forall x :: x <= 0.0 ==> exp(x) <= 1.0
  }

  // ---------------------------------------------------------------------
  // Inputs
  // ---------------------------------------------------------------------

  /** One team's entry of `team_form`: the keys its dictionary holds (no
      keys: the empty dictionary, falsy) and its `stats` sub-dictionary
      (empty when absent). */
  datatype TeamRecord = TeamRecord(fields: set<string>, stats: Stats)

  /** The parts of the processed data the models read. `h2h` is None when
      the `head_to_head` dictionary is empty, otherwise the list
      `last_5_matches.matches` ([] when absent). */
  datatype ModelInput = ModelInput(
    homeTeam: string,
    awayTeam: string,
    h2h: Option<seq<Match>>,
    teamForm: map<string, TeamRecord>,
    tablePositions: map<string, map<string, int>>,
    general: map<string, real>)

  /** `team_form.get(team, {})`. */
  function RecordOf(teamForm: map<string, TeamRecord>, team: string): TeamRecord {
    if team in teamForm then teamForm[team] else TeamRecord({}, map[])
  }

  // ---------------------------------------------------------------------
  // Results
  // ---------------------------------------------------------------------

  /** The market probabilities every model reports (percentages), with the
      two expected-goals values. */
  datatype Markets = Markets(
    homeExpectedGoals: real,
    awayExpectedGoals: real,
    homeWin: real,
    draw: real,
    awayWin: real,
    over05: real,
    over15: real,
    over25: real,
    over35: real,
    btts: real)

  /** One entry of `top_5_scores`: `"i-j"` and its probability in percent. */
  datatype Scoreline = Scoreline(score: string, probability: real)

  datatype H2HAdjustment = H2HAdjustment(homeAverage: real, awayAverage: real, weight: real)

  datatype PoissonResult = PoissonResult(
    markets: Markets,
    topScores: seq<Scoreline>,
    scoreMatrix: seq<seq<real>>,
    adjustment: Option<H2HAdjustment>)

  datatype Features = Features(
    homeWinPct: real, awayWinPct: real,
    homeGoalsScored: real, homeGoalsConceded: real,
    awayGoalsScored: real, awayGoalsConceded: real,
    homePositionNorm: real, awayPositionNorm: real)

  datatype LogisticResult = LogisticResult(markets: Markets, features: Features)

  datatype ModelName = Poisson | AdjustedPoisson | Logistic

  datatype EnsembleResult = EnsembleResult(
    markets: Markets,
    topScores: seq<Scoreline>,
    modelsUsed: seq<ModelName>,
    modelWeights: map<ModelName, real>)

  // ---------------------------------------------------------------------
  // Constants and messages
  // ---------------------------------------------------------------------

  const DefaultLeagueHomeGoals: real := 1.5
  const DefaultLeagueAwayGoals: real := 1.2
  const LeagueHomeShare: real := 0.55
  const LeagueAwayShare: real := 0.45
  const HomeAdvantageFactor: real := 1.2
  const H2HWeight: real := 0.5

  const PoissonNoData := "Dados insuficientes para o modelo de Poisson"
  const PoissonNoStats := "Estatísticas de gols insuficientes para o modelo de Poisson"
  const AdjustedFailed := "Não foi possível executar o modelo de Poisson ajustado"
  const LogisticNoData := "Dados insuficientes para o modelo de regressão logística"
  const LogisticNoStats := "Estatísticas insuficientes para o modelo de regressão logística"
  const AllModelsFailed := "Todos os modelos falharam"

  // ---------------------------------------------------------------------
  // Scoreline text
  // ---------------------------------------------------------------------

  function DigitChar(d: nat): char
    requires d < 10
  {
    "0123456789"[d]
  }

  /** Decimal text of a natural number, as an f-string writes it. */
  function NatText(n: nat): (s: string)
    ensures |s| >= 1
    ensures forall k :: 0 <= k < |s| ==> '0' <= s[k] <= '9'
  {
    if n < 10 then [DigitChar(n)] else NatText(n / 10) + [DigitChar(n % 10)]
  }

  /** `f"{i}-{j}"`. */
  function ScoreText(home: nat, away: nat): string {
    NatText(home) + "-" + NatText(away)
  }

  /** `[{"score": f"{i}-{j}", "probability": p * 100} for ((i, j), p) in top]`. */
  function ToScorelines(cells: seq<Cell>): (r: seq<Scoreline>)
    ensures |r| == |cells|
  {
    seq(|cells|, k requires 0 <= k < |cells| =>
      Scoreline(ScoreText(cells[k].home, cells[k].away), cells[k].probability * 100.0))
  }

  // ---------------------------------------------------------------------
  // Independent-Poisson model (lines 36-131)
  // ---------------------------------------------------------------------

  /** The league divisors of lines 65-73: 1.5 / 1.2 unless `general` is
      non-empty with a strictly positive league average, then 55% / 45% of
      it. */
  function LeagueDivisors(general: map<string, real>): (d: (real, real))
    ensures d.0 > 0.0 && d.1 > 0.0
    ensures var avg := GetOr(general, "goals_per_game_league_avg", 0.0);
      if avg > 0.0 then d == (avg * LeagueHomeShare, avg * LeagueAwayShare)
      else d == (DefaultLeagueHomeGoals, DefaultLeagueAwayGoals)
  {
    var avg := GetOr(general, "goals_per_game_league_avg", 0.0);
    if general != map[] && avg > 0.0 then (avg * LeagueHomeShare, avg * LeagueAwayShare)
    else (DefaultLeagueHomeGoals, DefaultLeagueAwayGoals)
  }

  /** Home attack, home defence, away attack and away defence (lines 58-62). */
  function Rates(hs: Stats, as_: Stats): (real, real, real, real) {
    (GetNested(hs, "goals_scored_per_game", "home", 0.0),
     GetNested(hs, "goals_conceded_per_game", "home", 0.0),
     GetNested(as_, "goals_scored_per_game", "away", 0.0),
     GetNested(as_, "goals_conceded_per_game", "away", 0.0))
  }

  /** Expected goals of lines 76-81. */
  function ExpectedGoals(hs: Stats, as_: Stats, general: map<string, real>): (xg: (real, real)) {
    var (homeAttack, homeDefense, awayAttack, awayDefense) := Rates(hs, as_);
    var (leagueHome, leagueAway) := LeagueDivisors(general);
    (homeAttack * awayDefense / leagueAway * HomeAdvantageFactor, awayAttack * homeDefense / leagueHome)
  }

  /** Non-negative scoring and conceding rates give non-negative expected
      goals; the home side gets the 1.2 home-advantage factor over the plain
      attack x defence / league ratio. */
  lemma ExpectedGoalsProperties(hs: Stats, as_: Stats, general: map<string, real>)
    ensures var (ha, hd, aa, ad) := Rates(hs, as_);
            var (lh, la) := LeagueDivisors(general);
            ExpectedGoals(hs, as_, general) == (ha * ad / la * 1.2, aa * hd / lh)
    ensures var (ha, hd, aa, ad) := Rates(hs, as_);
            ha >= 0.0 && hd >= 0.0 && aa >= 0.0 && ad >= 0.0 ==>
              ExpectedGoals(hs, as_, general).0 >= 0.0 && ExpectedGoals(hs, as_, general).1 >= 0.0
  {
    var (ha, hd, aa, ad) := Rates(hs, as_);
    var (lh, la) := LeagueDivisors(general);
    if ha >= 0.0 && hd >= 0.0 && aa >= 0.0 && ad >= 0.0 {
      assert ha * ad >= 0.0 && aa * hd >= 0.0;
      assert ha * ad / la >= 0.0;
      assert aa * hd / lh >= 0.0;
    }
  }

  lemma OuterShape(hp: seq<real>, ap: seq<real>)
    requires |hp| == MaxGoals && |ap| == MaxGoals
    ensures |Outer(hp, ap)| == MaxGoals && IsSquare(Outer(hp, ap))
  {
  }

  /** The market values of lines 96-107 and 119-128 on the table m of two
      margins hp, ap. */
  function MarketsOf(hxg: real, axg: real, hp: seq<real>, ap: seq<real>): Markets
    requires |hp| == MaxGoals && |ap| == MaxGoals
  {
    var m := Outer(hp, ap);
    OuterShape(hp, ap);
    Markets(hxg, axg,
      BelowDiagonal(m, 0) * 100.0, Diagonal(m, 0) * 100.0, AboveDiagonal(m, 0) * 100.0,
      Over05(m) * 100.0, Over15(m) * 100.0, Over25(m) * 100.0, Over35(m) * 100.0,
      Btts(hp[0], ap[0]) * 100.0)
  }

  /** Everything the Poisson model computes from the two expected-goals
      values (lines 84-131); the adjusted model recomputes the same from its
      blended values. */
  function PoissonFromRates(hxg: real, axg: real, exp: real -> PosReal): PoissonResult {
    var hp := PmfTable(hxg, exp(-hxg));
    var ap := PmfTable(axg, exp(-axg));
    OuterShape(hp, ap);
    PoissonResult(MarketsOf(hxg, axg, hp, ap), ToScorelines(TopFive(Outer(hp, ap))), Outer(hp, ap), None)
  }

  /** `poisson_model()`. */
  function PoissonModel(inp: ModelInput, exp: real -> PosReal): Result<PoissonResult> {
    var h := RecordOf(inp.teamForm, inp.homeTeam);
    var a := RecordOf(inp.teamForm, inp.awayTeam);
    if h.fields == {} || a.fields == {} then Err(PoissonNoData)
    else if h.stats == map[] || a.stats == map[] then Err(PoissonNoStats)
    else
      var xg := ExpectedGoals(h.stats, a.stats, inp.general);
      Ok(PoissonFromRates(xg.0, xg.1, exp))
  }

  /** The Poisson model fails exactly when a team's form entry or its stats
      is empty, with the message of the first failing gate; otherwise it
      reports the expected goals of lines 76-81. */
  lemma PoissonModelGates(inp: ModelInput, exp: real -> PosReal)
    ensures var h := RecordOf(inp.teamForm, inp.homeTeam);
            var a := RecordOf(inp.teamForm, inp.awayTeam);
            var r := PoissonModel(inp, exp);
            (r.Err? <==> (h.fields == {} || a.fields == {} || h.stats == map[] || a.stats == map[]))
            && (h.fields == {} || a.fields == {} ==> r == Err(PoissonNoData))
            && (h.fields != {} && a.fields != {} && (h.stats == map[] || a.stats == map[]) ==> r == Err(PoissonNoStats))
            && (r.Ok? ==>
                  (r.value.markets.homeExpectedGoals, r.value.markets.awayExpectedGoals)
                    == ExpectedGoals(h.stats, a.stats, inp.general))
  {
  }

  /** The three outcome regions of lines 96-98 partition the table of two
      margins, whose total factors into the two margins' masses. */
  lemma MarketsOutcomesPartition(hxg: real, axg: real, hp: seq<real>, ap: seq<real>)
    requires |hp| == MaxGoals && |ap| == MaxGoals
    ensures IsSquare(Outer(hp, ap))
    ensures var mk := MarketsOf(hxg, axg, hp, ap);
            mk.homeWin + mk.draw + mk.awayWin == Total(Outer(hp, ap)) * 100.0
    ensures Total(Outer(hp, ap)) == RowSum(hp, 0, |hp|) * RowSum(ap, 0, |ap|)
  {
    var m := Outer(hp, ap);
    OuterShape(hp, ap);
    OutcomesPartition(m);
    OuterTotal(hp, ap);
    var mk := MarketsOf(hxg, axg, hp, ap);
    var b, d, a := BelowDiagonal(m, 0), Diagonal(m, 0), AboveDiagonal(m, 0);
    assert mk.homeWin == b * 100.0 && mk.draw == d * 100.0 && mk.awayWin == a * 100.0;
    ScaleSum(b, d, a, 100.0);
  }

  lemma ScaleSum(x: real, y: real, z: real, c: real)
    ensures x * c + y * c + z * c == (x + y + z) * c
  {
  }

  /** The Poisson result is the market values, the top scores and the
      table of the two truncated Poisson margins. */
  lemma PoissonFromRatesParts(hxg: real, axg: real, exp: real -> PosReal)
    ensures var hp := PmfTable(hxg, exp(-hxg));
            var ap := PmfTable(axg, exp(-axg));
            var r := PoissonFromRates(hxg, axg, exp);
            |hp| == MaxGoals && |ap| == MaxGoals && hp[0] == exp(-hxg) && ap[0] == exp(-axg)
            && |Outer(hp, ap)| == MaxGoals && IsSquare(Outer(hp, ap))
            && r.markets == MarketsOf(hxg, axg, hp, ap) && r.scoreMatrix == Outer(hp, ap)
            && r.topScores == ToScorelines(TopFive(Outer(hp, ap)))
            && r.adjustment == None
  {
  }

  lemma PmfTableNonNegative(lam: real, e: real)
    requires lam >= 0.0 && e >= 0.0
    ensures NonNegativeRow(PmfTable(lam, e))
  {
    forall k | 0 <= k < MaxGoals ensures PmfTable(lam, e)[k] >= 0.0 {
      PmfNonNegative(lam, e, k);
    }
  }

  /** Both-teams-score is the product (1 - P(home = 0)) (1 - P(away = 0))
      in percent, inside [0, 100] when both zero-goal probabilities lie in
      [0, 1]. */
  lemma MarketsBtts(hxg: real, axg: real, hp: seq<real>, ap: seq<real>)
    requires |hp| == MaxGoals && |ap| == MaxGoals
    ensures MarketsOf(hxg, axg, hp, ap).btts == (1.0 - hp[0]) * (1.0 - ap[0]) * 100.0
    ensures 0.0 <= hp[0] <= 1.0 && 0.0 <= ap[0] <= 1.0 ==> 0.0 <= MarketsOf(hxg, axg, hp, ap).btts <= 100.0
  {
    BttsFactors(hp[0], ap[0]);
  }

  /** On non-negative margins the table is non-negative, each outcome
      probability is at least 0 and the goal lines over 0.5, 1.5 and 2.5
      never increase. */
  lemma MarketsOrdered(hxg: real, axg: real, hp: seq<real>, ap: seq<real>)
    requires |hp| == MaxGoals && |ap| == MaxGoals && NonNegativeRow(hp) && NonNegativeRow(ap)
    ensures NonNegative(Outer(hp, ap))
    ensures var mk := MarketsOf(hxg, axg, hp, ap);
            mk.homeWin >= 0.0 && mk.draw >= 0.0 && mk.awayWin >= 0.0
            && mk.over05 >= mk.over15 >= mk.over25
  {
    var m := Outer(hp, ap);
    OuterShape(hp, ap);
    OuterNonNegative(hp, ap);
    OutcomeRegionsNonNegative(m, 0);
    OverLinesDecreasing(m);
  }

  /** The truncated Poisson margin of a non-negative rate is non-negative
      and starts at exp(-rate), in (0, 1]; at rate 0 it starts at 1, so
      both-teams-score is 0 when either expected-goals value is 0. */
  lemma PoissonMargin(lam: real, exp: real -> PosReal)
    requires ValidExp(exp)
    ensures |PmfTable(lam, exp(-lam))| == MaxGoals && PmfTable(lam, exp(-lam))[0] == exp(-lam)
    ensures lam >= 0.0 ==> NonNegativeRow(PmfTable(lam, exp(-lam))) && 0.0 < exp(-lam) <= 1.0
    ensures lam == 0.0 ==> PmfTable(lam, exp(-lam))[0] == 1.0
  {
    if lam >= 0.0 {
      assert exp(-lam) <= 1.0;
      PmfTableNonNegative(lam, exp(-lam));
    }
    if lam == 0.0 {
      assert -lam == 0.0;
    }
  }

  /** A team whose expected goals are 0 scores no goal with certainty, so
      both teams to score is 0 %. */
  lemma BttsZeroAtZeroRate(hxg: real, axg: real, exp: real -> PosReal)
    requires ValidExp(exp)
    ensures hxg == 0.0 || axg == 0.0 ==> PoissonFromRates(hxg, axg, exp).markets.btts == 0.0
  {
    if hxg == 0.0 || axg == 0.0 {
      PoissonMargin(hxg, exp);
      PoissonMargin(axg, exp);
      BttsCertainNil(hxg, axg, exp);
    }
  }

  /** When either zero-goal probability is 1, both teams to score is 0 %. */
  lemma BttsCertainNil(hxg: real, axg: real, exp: real -> PosReal)
    requires exp(-hxg) == 1.0 || exp(-axg) == 1.0
    ensures PoissonFromRates(hxg, axg, exp).markets.btts == 0.0
  {
    var hp := PmfTable(hxg, exp(-hxg));
    var ap := PmfTable(axg, exp(-axg));
    PoissonFromRatesParts(hxg, axg, exp);
    BttsFactors(hp[0], ap[0]);
  }

  /** The reported top scores of a 10x10 table: five of its cells, in
      non-increasing probability with ties in row-major scan order, none
      omitted more probable than the fifth, each reported as `"i-j"` with its
      probability in percent. */
  lemma TopScoresProperties(m: seq<seq<real>>)
    requires |m| == MaxGoals && IsSquare(m)
    ensures var top := ToScorelines(TopFive(m));
            |top| == TopCount
            && (forall k :: 0 <= k < TopCount ==>
                  TopFive(m)[k] in CellsOf(m)
                  && top[k].score == ScoreText(TopFive(m)[k].home, TopFive(m)[k].away)
                  && top[k].probability == TopFive(m)[k].probability * 100.0)
            && Ranked(TopFive(m))
            && (forall a, b :: 0 <= a < b < TopCount ==> top[a].probability >= top[b].probability)
            && (forall c :: c in CellsOf(m) && c !in TopFive(m) ==>
                  c.probability * 100.0 <= top[TopCount - 1].probability)
  {
    TopFiveProperties(m);
  }

  // ---------------------------------------------------------------------
  // Head-to-head-adjusted Poisson model (lines 133-241)
  // ---------------------------------------------------------------------

  /** `form_weight * xg + h2h_weight * h2h_avg` with form weight 1 - 0.5. */
  function Blend(formXg: real, h2hAverage: real): real {
    (1.0 - H2HWeight) * formXg + H2HWeight * h2hAverage
  }

  /** `adjusted_poisson_model()`. */
  function AdjustedPoissonModel(inp: ModelInput, exp: real -> PosReal): Result<PoissonResult> {
    var base := PoissonModel(inp, exp);
    if base.Err? then Err(AdjustedFailed)
    else if inp.h2h.None? || inp.h2h.value == [] then base
    else
      var (hg, ag) := H2HGoals(inp.h2h.value, inp.homeTeam);
      var hAvg, aAvg := Mean(hg), Mean(ag);
      var adjHome := Blend(base.value.markets.homeExpectedGoals, hAvg);
      var adjAway := Blend(base.value.markets.awayExpectedGoals, aAvg);
      Ok(PoissonFromRates(adjHome, adjAway, exp).(adjustment := Some(H2HAdjustment(hAvg, aAvg, H2HWeight))))
  }

  /** The adjusted model fails exactly when the base model does; without
      head-to-head data or with no recent meetings it is the base model
      unchanged; otherwise each expected-goals value is the equal blend of
      the base value and the mean head-to-head goals, Poisson markets are
      recomputed from the blend, and the adjustment is reported. */
  lemma AdjustedPoissonProperties(inp: ModelInput, exp: real -> PosReal)
    ensures AdjustedPoissonModel(inp, exp).Err? <==> PoissonModel(inp, exp).Err?
    ensures PoissonModel(inp, exp).Err? ==> AdjustedPoissonModel(inp, exp) == Err(AdjustedFailed)
    ensures PoissonModel(inp, exp).Ok? && (inp.h2h.None? || inp.h2h.value == []) ==>
      AdjustedPoissonModel(inp, exp) == PoissonModel(inp, exp)
    ensures PoissonModel(inp, exp).Ok? && inp.h2h.Some? && inp.h2h.value != [] ==>
      var base := PoissonModel(inp, exp).value.markets;
      var r := AdjustedPoissonModel(inp, exp).value;
      var (hg, ag) := H2HGoals(inp.h2h.value, inp.homeTeam);
      r.markets.homeExpectedGoals == 0.5 * base.homeExpectedGoals + 0.5 * Mean(hg)
      && r.markets.awayExpectedGoals == 0.5 * base.awayExpectedGoals + 0.5 * Mean(ag)
      && r.adjustment == Some(H2HAdjustment(Mean(hg), Mean(ag), 0.5))
      && r.markets == PoissonFromRates(r.markets.homeExpectedGoals, r.markets.awayExpectedGoals, exp).markets
      && r.topScores == PoissonFromRates(r.markets.homeExpectedGoals, r.markets.awayExpectedGoals, exp).topScores
  {
  }

  /** The blend stays between the base value and the head-to-head mean. */
  lemma BlendBetween(formXg: real, h2hAverage: real)
    ensures formXg <= h2hAverage ==> formXg <= Blend(formXg, h2hAverage) <= h2hAverage
    ensures h2hAverage <= formXg ==> h2hAverage <= Blend(formXg, h2hAverage) <= formXg
  {
  }

  // ---------------------------------------------------------------------
  // Softmax "logistic" model (lines 243-348)
  // ---------------------------------------------------------------------

  /** `1 - pos / total if total > 0 else 0.5`. */
  function PositionNorm(position: int, totalTeams: int): real {
    if totalTeams > 0 then 1.0 - position as real / totalTeams as real else 0.5
  }

  /** A better (smaller) position never gives a smaller norm, and a position
      inside the table gives a norm in [0, 1). */
  lemma PositionNormProperties(p1: int, p2: int, totalTeams: int)
    ensures totalTeams > 0 && p1 <= p2 ==> PositionNorm(p1, totalTeams) >= PositionNorm(p2, totalTeams)
    ensures totalTeams > 0 && 1 <= p1 <= totalTeams ==> 0.0 <= PositionNorm(p1, totalTeams) < 1.0
    ensures totalTeams <= 0 ==> PositionNorm(p1, totalTeams) == 0.5
  {
    if totalTeams > 0 && p1 <= p2 {
      assert p1 as real / totalTeams as real <= p2 as real / totalTeams as real;
    }
    if totalTeams > 0 && 1 <= p1 <= totalTeams {
      assert p1 as real / totalTeams as real <= 1.0;
      assert p1 as real / totalTeams as real > 0.0;
    }
  }

  function FeatureVector(f: Features): seq<real> {
    [f.homeWinPct, f.awayWinPct, f.homeGoalsScored, f.homeGoalsConceded,
     f.awayGoalsScored, f.awayGoalsConceded, f.homePositionNorm, f.awayPositionNorm]
  }

  const HomeWinWeights: seq<real> := [0.3, -0.2, 0.15, -0.15, -0.1, 0.1, 0.2, -0.2]
  const DrawWeights: seq<real> := [-0.1, -0.1, -0.05, 0.05, -0.05, 0.05, -0.1, -0.1]
  const AwayWinWeights: seq<real> := [-0.2, 0.3, -0.1, 0.15, 0.15, -0.15, -0.2, 0.2]

  /** `np.dot(x, w)`. */
  function Dot(x: seq<real>, w: seq<real>): real
    requires |x| == |w|
  {
    if x == [] then 0.0 else x[0] * w[0] + Dot(x[1..], w[1..])
  }

  /** `exp_logits / np.sum(exp_logits)` on three positive exponentials. */
  function Softmax(e0: PosReal, e1: PosReal, e2: PosReal): (real, real, real) {
    var s := e0 + e1 + e2;
    (e0 / s, e1 / s, e2 / s)
  }

  lemma FractionBelowOne(a: real, s: real)
    requires 0.0 < a < s
    ensures 0.0 < a / s < 1.0
  {
    var q := a / s;
    assert q * s == a;
    if q >= 1.0 {
      ProductGrows(q, 1.0, s);
    }
  }

  lemma ProductGrows(x: real, y: real, s: real)
    requires x >= y && s > 0.0
    ensures x * s >= y * s
  {
  }

  /** Softmax gives a probability distribution: each value strictly between
      0 and 1, summing to 1. */
  lemma SoftmaxDistribution(e0: PosReal, e1: PosReal, e2: PosReal)
    ensures var (p0, p1, p2) := Softmax(e0, e1, e2);
            0.0 < p0 < 1.0 && 0.0 < p1 < 1.0 && 0.0 < p2 < 1.0 && p0 + p1 + p2 == 1.0
  {
    var s := e0 + e1 + e2;
    assert e0 / s + e1 / s + e2 / s == (e0 + e1 + e2) / s;
    FractionBelowOne(e0, s);
    FractionBelowOne(e1, s);
    FractionBelowOne(e2, s);
  }

  /** The features of lines 265-284. */
  function LogisticFeatures(inp: ModelInput, hs: Stats, as_: Stats): Features {
    var homePos := if inp.homeTeam in inp.tablePositions then inp.tablePositions[inp.homeTeam] else map[];
    var awayPos := if inp.awayTeam in inp.tablePositions then inp.tablePositions[inp.awayTeam] else map[];
    var totalTeams := GetIntOr(homePos, "total_teams", 20);
    Features(
      GetNested(hs, "win_percentage", "home", 0.0) / 100.0,
      GetNested(as_, "win_percentage", "away", 0.0) / 100.0,
      GetNested(hs, "goals_scored_per_game", "home", 0.0),
      GetNested(hs, "goals_conceded_per_game", "home", 0.0),
      GetNested(as_, "goals_scored_per_game", "away", 0.0),
      GetNested(as_, "goals_conceded_per_game", "away", 0.0),
      PositionNorm(GetIntOr(homePos, "general_position", 0), totalTeams),
      PositionNorm(GetIntOr(awayPos, "general_position", 0), totalTeams))
  }

  /** Closed-form goal lines of lines 318-323 for total rate t, eT = exp(-t). */
  function ClosedFormOver(t: real, eT: real): (real, real, real, real) {
    (1.0 - eT,
     1.0 - eT * (1.0 + t),
     1.0 - eT * (1.0 + t + t * t / 2.0),
     1.0 - eT * (1.0 + t + t * t / 2.0 + t * t * t / 6.0))
  }

  /** The closed-form goal lines never increase for a non-negative total
      rate, and the first lies in [0, 1) when exp(-t) is in (0, 1]. */
  lemma ClosedFormOverDecreasing(t: real, eT: PosReal)
    requires t >= 0.0
    ensures var (o0, o1, o2, o3) := ClosedFormOver(t, eT);
            o0 >= o1 >= o2 >= o3
    ensures eT <= 1.0 ==> 0.0 <= ClosedFormOver(t, eT).0 < 1.0
  {
    assert eT * t >= 0.0;
    assert eT * (t * t / 2.0) >= 0.0;
    assert eT * (t * t * t / 6.0) >= 0.0;
  }

  /** The markets of lines 302-325 from the features. */
  function LogisticMarkets(f: Features, exp: real -> PosReal): Markets {
    var x := FeatureVector(f);
    var (ph, pd, pa) := Softmax(exp(Dot(x, HomeWinWeights)), exp(Dot(x, DrawWeights)), exp(Dot(x, AwayWinWeights)));
    var hxg := f.homeGoalsScored * 0.7 + f.awayGoalsConceded * 0.3;
    var axg := f.awayGoalsScored * 0.7 + f.homeGoalsConceded * 0.3;
    var (o0, o1, o2, o3) := ClosedFormOver(hxg + axg, exp(-(hxg + axg)));
    Markets(hxg, axg, ph * 100.0, pd * 100.0, pa * 100.0,
      o0 * 100.0, o1 * 100.0, o2 * 100.0, o3 * 100.0,
      (1.0 - exp(-hxg)) * (1.0 - exp(-axg)) * 100.0)
  }

  /** `logistic_regression_model()`. */
  function LogisticModel(inp: ModelInput, exp: real -> PosReal): Result<LogisticResult> {
    var h := RecordOf(inp.teamForm, inp.homeTeam);
    var a := RecordOf(inp.teamForm, inp.awayTeam);
    if h.fields == {} || a.fields == {} then Err(LogisticNoData)
    else if h.stats == map[] || a.stats == map[] then Err(LogisticNoStats)
    else
      var f := LogisticFeatures(inp, h.stats, a.stats);
      Ok(LogisticResult(LogisticMarkets(f, exp), f))
  }

  /** The softmax outcome probabilities are each in (0, 100) and sum to 100;
      both-teams-score is the same product as the Poisson model's; with
      non-negative expected goals the goal lines never increase. */
  lemma LogisticMarketsProperties(f: Features, exp: real -> PosReal)
    ensures var m := LogisticMarkets(f, exp);
            0.0 < m.homeWin < 100.0 && 0.0 < m.draw < 100.0 && 0.0 < m.awayWin < 100.0
            && m.homeWin + m.draw + m.awayWin == 100.0
    ensures var m := LogisticMarkets(f, exp);
            m.btts == Btts(exp(-m.homeExpectedGoals), exp(-m.awayExpectedGoals)) * 100.0
    ensures var m := LogisticMarkets(f, exp);
            m.homeExpectedGoals + m.awayExpectedGoals >= 0.0 ==>
              m.over05 >= m.over15 >= m.over25 >= m.over35
  {
    var x := FeatureVector(f);
    var e0, e1, e2 := exp(Dot(x, HomeWinWeights)), exp(Dot(x, DrawWeights)), exp(Dot(x, AwayWinWeights));
    SoftmaxDistribution(e0, e1, e2);
    var m := LogisticMarkets(f, exp);
    BttsFactors(exp(-m.homeExpectedGoals), exp(-m.awayExpectedGoals));
    var t := m.homeExpectedGoals + m.awayExpectedGoals;
    if t >= 0.0 {
      ClosedFormOverDecreasing(t, exp(-t));
    }
  }

  /** The logistic model has the same two gates as the Poisson model, so the
      two succeed or fail together. */
  lemma GatesAgree(inp: ModelInput, exp: real -> PosReal)
    ensures PoissonModel(inp, exp).Err? <==> LogisticModel(inp, exp).Err?
    ensures LogisticModel(inp, exp).Ok? ==>
      LogisticModel(inp, exp).value.features.homePositionNorm
        == PositionNorm(
             GetIntOr(if inp.homeTeam in inp.tablePositions then inp.tablePositions[inp.homeTeam] else map[], "general_position", 0),
             GetIntOr(if inp.homeTeam in inp.tablePositions then inp.tablePositions[inp.homeTeam] else map[], "total_teams", 20))
  {
  }

  // ---------------------------------------------------------------------
  // Ensemble (lines 350-484)
  // ---------------------------------------------------------------------

  /** The fixed weights of lines 375-379. */
  function BaseWeight(m: ModelName): (w: real)
    ensures w > 0.0
  {
    match m
    case Poisson => 0.3
    case AdjustedPoisson => 0.5
    case Logistic => 0.2
  }

  /** Position of a model in the fixed order poisson, adjusted, logistic. */
  function Rank(m: ModelName): nat {
    match m
    case Poisson => 0
    case AdjustedPoisson => 1
    case Logistic => 2
  }

  /** `models_ok` of lines 363-369. */
  function ModelsUsed(poissonOk: bool, adjustedOk: bool, logisticOk: bool): seq<ModelName> {
    (if poissonOk then [Poisson] else [])
    + (if adjustedOk then [AdjustedPoisson] else [])
    + (if logisticOk then [Logistic] else [])
  }

  /** A model is used exactly when it succeeded, and the list keeps the
      fixed order without repeats. */
  lemma ModelsUsedProperties(poissonOk: bool, adjustedOk: bool, logisticOk: bool)
    ensures var used := ModelsUsed(poissonOk, adjustedOk, logisticOk);
            (Poisson in used <==> poissonOk)
            && (AdjustedPoisson in used <==> adjustedOk)
            && (Logistic in used <==> logisticOk)
            && (forall a, b :: 0 <= a < b < |used| ==> Rank(used[a]) < Rank(used[b]))
            && (used == [] <==> !poissonOk && !adjustedOk && !logisticOk)
  {
  }

  function TotalWeight(used: seq<ModelName>): real {
    if used == [] then 0.0 else BaseWeight(used[0]) + TotalWeight(used[1..])
  }

  lemma {:induction false} TotalWeightPositive(used: seq<ModelName>)
    requires used != []
    ensures TotalWeight(used) > 0.0
  {
    if |used| > 1 {
      TotalWeightPositive(used[1..]);
    }
  }

  /** `normalized_weights` of lines 382-383. */
  function NormalizedWeights(used: seq<ModelName>): map<ModelName, real>
    requires used != []
  {
    TotalWeightPositive(used);
    map m | m in used :: BaseWeight(m) / TotalWeight(used)
  }

  /** Sum of the weights w gives the models of used, in order. */
  function WeightOver(used: seq<ModelName>, w: map<ModelName, real>): real
    requires forall m :: m in used ==> m in w
  {
    if used == [] then 0.0 else w[used[0]] + WeightOver(used[1..], w)
  }

  lemma {:induction false} WeightOverScaled(used: seq<ModelName>, w: map<ModelName, real>, total: real)
    requires total != 0.0
    requires forall m :: m in used ==> m in w && w[m] == BaseWeight(m) / total
    ensures WeightOver(used, w) == TotalWeight(used) / total
  {
    if used != [] {
      assert forall m :: m in used[1..] ==> m in used;
      WeightOverScaled(used[1..], w, total);
      assert w[used[0]] == BaseWeight(used[0]) / total;
      QuotientSum(BaseWeight(used[0]), TotalWeight(used[1..]), total);
    }
  }

  /** The normalised weights cover exactly the models used, each is its
      fixed weight over the total fixed weight of the models used, so
      positive, and over a repeat-free list they sum to 1. */
  lemma {:induction false} NormalizedWeightsSumToOne(used: seq<ModelName>)
    requires used != []
    ensures TotalWeight(used) > 0.0
    ensures NormalizedWeights(used).Keys == set m | m in used
    ensures forall m :: m in used ==> NormalizedWeights(used)[m] == BaseWeight(m) / TotalWeight(used)
    ensures forall m :: m in used ==> NormalizedWeights(used)[m] > 0.0
    ensures WeightOver(used, NormalizedWeights(used)) == 1.0
  {
    TotalWeightPositive(used);
    var total := TotalWeight(used);
    var w := NormalizedWeights(used);
    assert w.Keys == set m | m in used;
    forall m | m in used ensures m in w && w[m] == BaseWeight(m) / total && w[m] > 0.0 {
      QuotientPositive(BaseWeight(m), total);
    }
    WeightOverScaled(used, w, total);
    QuotientSelf(total);
  }


  /** All three models keep their fixed weights, which already sum to 1. */
  lemma AllModelsWeights()
    ensures var w := NormalizedWeights([Poisson, AdjustedPoisson, Logistic]);
            w.Keys == {Poisson, AdjustedPoisson, Logistic}
            && w[Poisson] == 0.3 && w[AdjustedPoisson] == 0.5 && w[Logistic] == 0.2
  {
    var used := [Poisson, AdjustedPoisson, Logistic];
    assert TotalWeight(used) == 1.0;
  }

  /** An illustration of NormalizedWeightsSumToOne on a subset the ensemble
      never produces (it combines all three models or none): Poisson and
      logistic alone would be renormalised to 0.6 / 0.4. */
  lemma NormalizedWeightsExample()
    ensures NormalizedWeights([Poisson, Logistic]) == map[Poisson := 0.6, Logistic := 0.4]
  {
    var used := [Poisson, Logistic];
    assert TotalWeight(used) == 0.5;
    assert NormalizedWeights(used).Keys == {Poisson, Logistic};
  }

  function Zero(): Markets {
    Markets(0.0, 0.0, 0.0, 0.0, 0.0, 0.0, 0.0, 0.0, 0.0, 0.0)
  }

  /** `acc += value * weight` for every market. */
  function AddScaled(acc: Markets, m: Markets, w: real): Markets {
    Markets(acc.homeExpectedGoals + m.homeExpectedGoals * w,
            acc.awayExpectedGoals + m.awayExpectedGoals * w,
            acc.homeWin + m.homeWin * w,
            acc.draw + m.draw * w,
            acc.awayWin + m.awayWin * w,
            acc.over05 + m.over05 * w,
            acc.over15 + m.over15 * w,
            acc.over25 + m.over25 * w,
            acc.over35 + m.over35 * w,
            acc.btts + m.btts * w)
  }

  /** The accumulated weighted sum of the markets of the used models, in
      order. */
  function Combine(parts: seq<(Markets, real)>): Markets {
    if parts == [] then Zero()
    else AddScaled(Combine(parts[..|parts| - 1]), parts[|parts| - 1].0, parts[|parts| - 1].1)
  }

  /** Sum of the weights of the parts. */
  function PartWeights(parts: seq<(Markets, real)>): real {
    if parts == [] then 0.0 else parts[0].1 + PartWeights(parts[1..])
  }

  lemma {:induction false} PartWeightsLast(parts: seq<(Markets, real)>)
    requires parts != []
    ensures PartWeights(parts) == PartWeights(parts[..|parts| - 1]) + parts[|parts| - 1].1
  {
    if |parts| > 1 {
      PartWeightsLast(parts[1..]);
      assert parts[1..][..|parts| - 2] == parts[..|parts| - 1][1..];
    }
  }

  function Outcomes(m: Markets): real {
    m.homeWin + m.draw + m.awayWin
  }

  lemma AddScaledOutcomes(acc: Markets, m: Markets, w: real)
    ensures Outcomes(AddScaled(acc, m, w)) == Outcomes(acc) + Outcomes(m) * w
  {
  }

  /** The weighted sum of the parts' outcome probabilities, first part
      first. */
  function WeightedOutcomes(parts: seq<(Markets, real)>): real {
    if parts == [] then 0.0 else parts[0].1 * Outcomes(parts[0].0) + WeightedOutcomes(parts[1..])
  }

  lemma {:induction false} WeightedOutcomesLast(parts: seq<(Markets, real)>)
    requires parts != []
    ensures WeightedOutcomes(parts)
      == WeightedOutcomes(parts[..|parts| - 1]) + parts[|parts| - 1].1 * Outcomes(parts[|parts| - 1].0)
  {
    if |parts| > 1 {
      WeightedOutcomesLast(parts[1..]);
      assert parts[1..][..|parts| - 2] == parts[..|parts| - 1][1..];
    }
  }

  /** The combination's outcome probabilities add up to the weighted sum of
      each part's. */
  lemma {:induction false} CombineOutcomes(parts: seq<(Markets, real)>)
    ensures Outcomes(Combine(parts)) == WeightedOutcomes(parts)
  {
    if parts != [] {
      var init := parts[..|parts| - 1];
      var last := parts[|parts| - 1];
      CombineOutcomes(init);
      AddScaledOutcomes(Combine(init), last.0, last.1);
      WeightedOutcomesLast(parts);
    }
  }

  /** The weighted markets of the successful models, in the order of
      `models_used`. */
  function Parts(p: Result<PoissonResult>, ap: Result<PoissonResult>, l: Result<LogisticResult>,
                 w: map<ModelName, real>): seq<(Markets, real)>
    requires p.Ok? ==> Poisson in w
    requires ap.Ok? ==> AdjustedPoisson in w
    requires l.Ok? ==> Logistic in w
  {
    (if p.Ok? then [(p.value.markets, w[Poisson])] else [])
    + (if ap.Ok? then [(ap.value.markets, w[AdjustedPoisson])] else [])
    + (if l.Ok? then [(l.value.markets, w[Logistic])] else [])
  }

  /** `ensemble_model()`. */
  function EnsembleModel(inp: ModelInput, exp: real -> PosReal): Result<EnsembleResult> {
    EnsembleOf(PoissonModel(inp, exp), AdjustedPoissonModel(inp, exp), LogisticModel(inp, exp), exp)
  }

  /** Lines 363-484 once the three models have run. */
  function EnsembleOf(p: Result<PoissonResult>, ap: Result<PoissonResult>, l: Result<LogisticResult>,
                      exp: real -> PosReal): Result<EnsembleResult> {
    var used := ModelsUsed(p.Ok?, ap.Ok?, l.Ok?);
    if used == [] then Err(AllModelsFailed)
    else
      var w := NormalizedWeights(used);
      var combined := Combine(Parts(p, ap, l, w));
      var table := PoissonFromRates(combined.homeExpectedGoals, combined.awayExpectedGoals, exp);
      Ok(EnsembleResult(combined, table.topScores, used, w))
  }

  lemma {:induction false} PartWeightsMatch(parts: seq<(Markets, real)>, used: seq<ModelName>, w: map<ModelName, real>)
    requires forall m :: m in used ==> m in w
    requires |parts| == |used| && forall k :: 0 <= k < |parts| ==> parts[k].1 == w[used[k]]
    ensures PartWeights(parts) == WeightOver(used, w)
  {
    if parts != [] {
      PartWeightsMatch(parts[1..], used[1..], w);
    }
  }

  /** Part k of the combination carries the weight of model k of
      `models_used`. */
  lemma PartsFollowModelsUsed(p: Result<PoissonResult>, ap: Result<PoissonResult>, l: Result<LogisticResult>)
    requires ModelsUsed(p.Ok?, ap.Ok?, l.Ok?) != []
    ensures var used := ModelsUsed(p.Ok?, ap.Ok?, l.Ok?);
            var w := NormalizedWeights(used);
            var parts := Parts(p, ap, l, w);
            |parts| == |used| && (forall k :: 0 <= k < |parts| ==> parts[k].1 == w[used[k]])
            && PartWeights(parts) == WeightOver(used, w)
  {
    var used := ModelsUsed(p.Ok?, ap.Ok?, l.Ok?);
    var w := NormalizedWeights(used);
    PartWeightsMatch(Parts(p, ap, l, w), used, w);
  }

  /** Once the three models have run, the ensemble fails exactly when none
      succeeded; otherwise it reports the successful models in the fixed
      order, their renormalised weights and the weighted combination of their
      markets. */
  lemma EnsembleOfParts(p: Result<PoissonResult>, ap: Result<PoissonResult>, l: Result<LogisticResult>,
                        exp: real -> PosReal)
    ensures var used := ModelsUsed(p.Ok?, ap.Ok?, l.Ok?);
            var r := EnsembleOf(p, ap, l, exp);
            (r.Err? <==> used == [])
            && (r.Err? ==> r == Err(AllModelsFailed))
            && (r.Ok? ==>
                  r.value.modelsUsed == used && r.value.modelWeights == NormalizedWeights(used)
                  && r.value.markets == Combine(Parts(p, ap, l, NormalizedWeights(used))))
  {
  }

  /** The ensemble fails exactly when all three models fail; otherwise it
      reports the successful models in the fixed order with weights that
      cover exactly them and sum to 1. Because the Poisson and logistic gates
      coincide, either all three models are used or none is. */
  lemma EnsembleUsedModels(inp: ModelInput, exp: real -> PosReal)
    ensures var r := EnsembleModel(inp, exp);
            (r.Err? <==> PoissonModel(inp, exp).Err? && AdjustedPoissonModel(inp, exp).Err? && LogisticModel(inp, exp).Err?)
            && (r.Err? ==> r == Err(AllModelsFailed))
            && (r.Ok? ==>
                  r.value.modelsUsed == [Poisson, AdjustedPoisson, Logistic]
                  && r.value.modelWeights.Keys == set m | m in r.value.modelsUsed
                  && WeightOver(r.value.modelsUsed, r.value.modelWeights) == 1.0)
  {
    var p := PoissonModel(inp, exp);
    var ap := AdjustedPoissonModel(inp, exp);
    var l := LogisticModel(inp, exp);
    GatesAgree(inp, exp);
    AdjustedPoissonProperties(inp, exp);
    EnsembleOfAllOrNone(p, ap, l, exp);
  }

  /** With the three models succeeding or failing together, the ensemble
      fails exactly when they do and otherwise uses all three with weights
      that sum to 1. */
  lemma EnsembleOfAllOrNone(p: Result<PoissonResult>, ap: Result<PoissonResult>, l: Result<LogisticResult>,
                            exp: real -> PosReal)
    requires p.Ok? == ap.Ok? && ap.Ok? == l.Ok?
    ensures var r := EnsembleOf(p, ap, l, exp);
            (r.Err? <==> p.Err?)
            && (r.Err? ==> r == Err(AllModelsFailed))
            && (r.Ok? ==>
                  r.value.modelsUsed == [Poisson, AdjustedPoisson, Logistic]
                  && r.value.modelWeights.Keys == set m | m in r.value.modelsUsed
                  && WeightOver(r.value.modelsUsed, r.value.modelWeights) == 1.0)
  {
    EnsembleOfParts(p, ap, l, exp);
    if p.Ok? {
      NormalizedWeightsSumToOne([Poisson, AdjustedPoisson, Logistic]);
    }
  }

  /** With all three models used, the ensemble's outcome probabilities add
      up to 0.3, 0.5 and 0.2 times those of the Poisson, adjusted and
      softmax models. */
  lemma EnsembleOfOutcomes(p: Result<PoissonResult>, ap: Result<PoissonResult>, l: Result<LogisticResult>,
                           exp: real -> PosReal)
    requires p.Ok? && ap.Ok? && l.Ok?
    ensures EnsembleOf(p, ap, l, exp).Ok?
    ensures Outcomes(EnsembleOf(p, ap, l, exp).value.markets)
      == 0.3 * Outcomes(p.value.markets) + 0.5 * Outcomes(ap.value.markets) + 0.2 * Outcomes(l.value.markets)
  {
    var used := [Poisson, AdjustedPoisson, Logistic];
    assert ModelsUsed(p.Ok?, ap.Ok?, l.Ok?) == used;
    EnsembleOfParts(p, ap, l, exp);
    var w := NormalizedWeights(used);
    AllModelsWeights();
    PartsOutcomes(p, ap, l, w);
    FixedWeights(w[Poisson], w[AdjustedPoisson], w[Logistic],
                 Outcomes(p.value.markets), Outcomes(ap.value.markets), Outcomes(l.value.markets));
  }

  lemma FixedWeights(a: real, b: real, c: real, x: real, y: real, z: real)
    requires a == 0.3 && b == 0.5 && c == 0.2
    ensures a * x + b * y + c * z == 0.3 * x + 0.5 * y + 0.2 * z
  {
  }

  /** With all three models present, the combination's outcome
      probabilities are the weighted sum of the three models'. */
  lemma PartsOutcomes(p: Result<PoissonResult>, ap: Result<PoissonResult>, l: Result<LogisticResult>,
                      w: map<ModelName, real>)
    requires p.Ok? && ap.Ok? && l.Ok?
    requires Poisson in w && AdjustedPoisson in w && Logistic in w
    ensures Outcomes(Combine(Parts(p, ap, l, w)))
      == w[Poisson] * Outcomes(p.value.markets) + w[AdjustedPoisson] * Outcomes(ap.value.markets)
         + w[Logistic] * Outcomes(l.value.markets)
  {
    var parts := Parts(p, ap, l, w);
    assert parts == [(p.value.markets, w[Poisson]), (ap.value.markets, w[AdjustedPoisson]), (l.value.markets, w[Logistic])];
    CombineOutcomes(parts);
    WeightedOutcomesThree(parts);
  }

  lemma WeightedOutcomesThree(parts: seq<(Markets, real)>)
    requires |parts| == 3
    ensures WeightedOutcomes(parts)
      == parts[0].1 * Outcomes(parts[0].0) + parts[1].1 * Outcomes(parts[1].0) + parts[2].1 * Outcomes(parts[2].0)
  {
    var tail := parts[1..];
    assert tail[0] == parts[1] && tail[1..][0] == parts[2] && tail[1..][1..] == [];
    assert WeightedOutcomes(tail[1..]) == parts[2].1 * Outcomes(parts[2].0) + WeightedOutcomes([]);
  }

  /** A successful ensemble's outcome probabilities add up to 0.3 and 0.5
      times those of the Poisson and adjusted models plus 20, the softmax
      model's 100 at weight 0.2. The Poisson outcomes cover the 10×10
      table only: they are 100 times its mass (MarketsOutcomesPartition),
      not 100. */
  lemma EnsembleOutcomes(inp: ModelInput, exp: real -> PosReal)
    ensures var r := EnsembleModel(inp, exp);
            r.Ok? ==>
              PoissonModel(inp, exp).Ok? && AdjustedPoissonModel(inp, exp).Ok?
              && Outcomes(r.value.markets)
                 == 0.3 * Outcomes(PoissonModel(inp, exp).value.markets)
                    + 0.5 * Outcomes(AdjustedPoissonModel(inp, exp).value.markets) + 20.0
  {
    var p := PoissonModel(inp, exp);
    var ap := AdjustedPoissonModel(inp, exp);
    var l := LogisticModel(inp, exp);
    EnsembleUsedModels(inp, exp);
    if EnsembleModel(inp, exp).Ok? {
      GatesAgree(inp, exp);
      AdjustedPoissonProperties(inp, exp);
      LogisticMarketsProperties(l.value.features, exp);
      assert l.value.markets == LogisticMarkets(l.value.features, exp);
      EnsembleOfOutcomes(p, ap, l, exp);
    }
  }

  /** The ensemble's top scores are the top five cells of the Poisson table
      built from its combined expected goals. */
  lemma EnsembleTopScores(inp: ModelInput, exp: real -> PosReal)
    ensures var r := EnsembleModel(inp, exp);
            r.Ok? ==>
              var hp := PmfTable(r.value.markets.homeExpectedGoals, exp(-r.value.markets.homeExpectedGoals));
              var ap := PmfTable(r.value.markets.awayExpectedGoals, exp(-r.value.markets.awayExpectedGoals));
              |Outer(hp, ap)| == MaxGoals && IsSquare(Outer(hp, ap))
              && r.value.topScores == ToScorelines(TopFive(Outer(hp, ap)))
  {
    var r := EnsembleModel(inp, exp);
    if r.Ok? {
      PoissonFromRatesParts(r.value.markets.homeExpectedGoals, r.value.markets.awayExpectedGoals, exp);
    }
  }

  // ---------------------------------------------------------------------
  // The imperative rendering of the models
  // ---------------------------------------------------------------------

  /** Lines 84-131 step by step: the table filled cell by cell, the cells
      collected in scan order and sorted in place. */
  method BuildPoissonResult(hxg: real, axg: real, exp: real -> PosReal) returns (r: PoissonResult)
    ensures r == PoissonFromRates(hxg, axg, exp)
  {
    var hp := PmfTable(hxg, exp(-hxg));
    var ap := PmfTable(axg, exp(-axg));
    var a := FillScoreMatrix(hp, ap);
    OuterShape(hp, ap);
    forall i | 0 <= i < MaxGoals ensures Rows(a)[i] == Outer(hp, ap)[i] {
      assert forall j :: 0 <= j < MaxGoals ==> Rows(a)[i][j] == Outer(hp, ap)[i][j];
    }
    assert Rows(a) == Outer(hp, ap);
    var cells := CollectCells(a);
    var sorted := new Cell[|cells|](k requires 0 <= k < |cells| => cells[k]);
    assert sorted[..] == cells;
    SortInPlace(sorted);
    SortDescPermutes(cells);
    var top := sorted[..TopCount];
    r := PoissonResult(MarketsOf(hxg, axg, hp, ap), ToScorelines(top), Rows(a), None);
  }

  /** `poisson_model()` as a method. */
  method RunPoissonModel(inp: ModelInput, exp: real -> PosReal) returns (r: Result<PoissonResult>)
    ensures r == PoissonModel(inp, exp)
  {
    var h := RecordOf(inp.teamForm, inp.homeTeam);
    var a := RecordOf(inp.teamForm, inp.awayTeam);
    if h.fields == {} || a.fields == {} {
      return Err(PoissonNoData);
    }
    if h.stats == map[] || a.stats == map[] {
      return Err(PoissonNoStats);
    }
    var xg := ExpectedGoals(h.stats, a.stats, inp.general);
    var result := BuildPoissonResult(xg.0, xg.1, exp);
    r := Ok(result);
  }

  /** The appending loop of lines 156-171. */
  method CollectH2HGoals(matches: seq<Match>, fixtureHome: string) returns (homeGoals: seq<nat>, awayGoals: seq<nat>)
    ensures (homeGoals, awayGoals) == H2HGoals(matches, fixtureHome)
  {
    homeGoals, awayGoals := [], [];
    var i := 0;
    while i < |matches|
      invariant 0 <= i <= |matches|
      invariant homeGoals == H2HGoals(matches[..i], fixtureHome).0
      invariant awayGoals == H2HGoals(matches[..i], fixtureHome).1
    {
      var m := matches[i];
      if m.homeTeam == fixtureHome {
        homeGoals := homeGoals + [m.homeScore];
        awayGoals := awayGoals + [m.awayScore];
      } else {
        homeGoals := homeGoals + [m.awayScore];
        awayGoals := awayGoals + [m.homeScore];
      }
      i := i + 1;
    }
    assert matches[..i] == matches;
  }

  /** `adjusted_poisson_model()` as a method. */
  method RunAdjustedPoissonModel(inp: ModelInput, exp: real -> PosReal) returns (r: Result<PoissonResult>)
    ensures r == AdjustedPoissonModel(inp, exp)
  {
    var base := RunPoissonModel(inp, exp);
    if base.Err? {
      return Err(AdjustedFailed);
    }
    if inp.h2h.None? || inp.h2h.value == [] {
      return base;
    }
    var hg, ag := CollectH2HGoals(inp.h2h.value, inp.homeTeam);
    var hAvg, aAvg := Mean(hg), Mean(ag);
    var adjHome := Blend(base.value.markets.homeExpectedGoals, hAvg);
    var adjAway := Blend(base.value.markets.awayExpectedGoals, aAvg);
    var result := BuildPoissonResult(adjHome, adjAway, exp);
    r := Ok(result.(adjustment := Some(H2HAdjustment(hAvg, aAvg, H2HWeight))));
  }

  /** The `+=` accumulators of lines 386-447. */
  method CombineMarkets(parts: seq<(Markets, real)>) returns (acc: Markets)
    ensures acc == Combine(parts)
  {
    acc := Zero();
    var i := 0;
    while i < |parts|
      invariant 0 <= i <= |parts|
      invariant acc == Combine(parts[..i])
    {
      assert parts[..i + 1][..i] == parts[..i];
      acc := AddScaled(acc, parts[i].0, parts[i].1);
      i := i + 1;
    }
    assert parts[..i] == parts;
  }

  /** Lines 363-484 as a method, once the three models have run. */
  method RunEnsembleOf(p: Result<PoissonResult>, ap: Result<PoissonResult>, l: Result<LogisticResult>,
                       exp: real -> PosReal) returns (r: Result<EnsembleResult>)
    ensures r == EnsembleOf(p, ap, l, exp)
  {
    var used := ModelsUsed(p.Ok?, ap.Ok?, l.Ok?);
    if used == [] {
      return Err(AllModelsFailed);
    }
    var w := NormalizedWeights(used);
    var combined := CombineMarkets(Parts(p, ap, l, w));
    var table := BuildPoissonResult(combined.homeExpectedGoals, combined.awayExpectedGoals, exp);
    r := Ok(EnsembleResult(combined, table.topScores, used, w));
  }

  /** `ensemble_model()` as a method. */
  method RunEnsembleModel(inp: ModelInput, exp: real -> PosReal) returns (r: Result<EnsembleResult>)
    ensures r == EnsembleModel(inp, exp)
  {
    var p := RunPoissonModel(inp, exp);
    var ap := RunAdjustedPoissonModel(inp, exp);
    var l := LogisticModel(inp, exp);
    r := RunEnsembleOf(p, ap, l, exp);
  }
}
