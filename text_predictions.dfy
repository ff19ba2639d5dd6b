/** The rule-based part of analyzers/text_predictions.py: the favourite
    chosen from pattern counts, the sanity correction of the predicted
    score, the sentiment advantage, the key points, the league trends of
    the general predictions, the recommendations of the detailed
    predictions and the insight fallbacks. What the regular expressions
    find in the analysis text is an input here (TextEvidence). */
module TextPredictions {
  import opened Common
  import opened DataProcessor

  const NoPredictions := "Dados de prognósticos não disponíveis"
  const NoGptAnalysis := "Análise do GPT não disponível"

  /** The processed `predictions` dictionary read at one moment; the
      `general` dictionary is the one `process_predictions()` updated. */
  datatype PredictionsView = PredictionsView(
    gptAnalysis: string,
    general: map<string, real>,
    goalsDetailed: map<string, map<string, real>>,
    corners: map<string, real>,
    cards: map<string, real>,
    halftimeFulltime: map<string, real>,
    firstGoal: map<string, real>)

  function ViewOf(p: PredictionsData): PredictionsView
    reads p.general
  {
    PredictionsView(p.gptAnalysis, p.general.values, p.goalsDetailed, p.corners, p.cards,
                    p.halftimeFulltime, p.firstGoal)
  }

  // ---------------------------------------------------------------------
  // Favourite from the pattern counts (lines 82-118)
  // ---------------------------------------------------------------------

  /** The loop adding up the matches of each favourite pattern. */
  method CountPatternMatches(matchesPerPattern: seq<nat>) returns (total: nat)
    ensures total == SumNat(matchesPerPattern)
  {
    total := 0;
    for i := 0 to |matchesPerPattern|
      invariant total == SumNat(matchesPerPattern[..i])
    {
      SumNatSplit(matchesPerPattern[..i + 1], i);
      assert matchesPerPattern[..i + 1][..i] == matchesPerPattern[..i];
      assert matchesPerPattern[..i + 1][i..] == [matchesPerPattern[i]];
      total := total + matchesPerPattern[i];
    }
    assert matchesPerPattern[..|matchesPerPattern|] == matchesPerPattern;
  }

  /** A sum splits into its prefix and its last entries. */
  lemma {:induction false} SumNatSplit(s: seq<nat>, k: nat)
    requires k <= |s|
    ensures SumNat(s) == SumNat(s[..k]) + SumNat(s[k..])
  {
    if k > 0 {
      SumNatSplit(s[1..], k - 1);
      assert s[1..][..k - 1] == s[..k][1..];
      assert s[1..][k - 1..] == s[k..];
    }
  }

  /** The favourite: the strictly larger favourite-pattern count, then on
      a tie the first general-pattern match, and when that leaves no
      (non-empty) name the strictly larger number of mentions. */
  function PredictedWinner(homeCount: nat, awayCount: nat, generalMatch: Option<string>,
                           homeMentions: nat, awayMentions: nat, homeTeam: string, awayTeam: string): Option<string> {
    var byCount :=
      if homeCount > awayCount then Some(homeTeam)
      else if awayCount > homeCount then Some(awayTeam)
      else generalMatch;
    if Truthy(byCount) then byCount
    else if homeMentions > awayMentions then Some(homeTeam)
    else if awayMentions > homeMentions then Some(awayTeam)
    else byCount
  }

  /** A strictly larger favourite count decides on its own; only a tie
      consults the general match and the mentions; with nothing in the
      text there is no favourite. */
  lemma PredictedWinnerProperties(hc: nat, ac: nat, g: Option<string>, hm: nat, am: nat, homeTeam: string, awayTeam: string)
    requires homeTeam != "" && awayTeam != ""
    ensures hc > ac ==> PredictedWinner(hc, ac, g, hm, am, homeTeam, awayTeam) == Some(homeTeam)
    ensures ac > hc ==> PredictedWinner(hc, ac, g, hm, am, homeTeam, awayTeam) == Some(awayTeam)
    ensures hc == ac && Truthy(g) ==> PredictedWinner(hc, ac, g, hm, am, homeTeam, awayTeam) == g
    ensures hc == ac && !Truthy(g) && hm > am ==> PredictedWinner(hc, ac, g, hm, am, homeTeam, awayTeam) == Some(homeTeam)
    ensures hc == ac && g.None? && hm == am ==> PredictedWinner(hc, ac, g, hm, am, homeTeam, awayTeam).None?
    ensures PredictedWinner(hc, ac, g, hm, am, homeTeam, awayTeam).Some? ==>
      PredictedWinner(hc, ac, g, hm, am, homeTeam, awayTeam).value in {homeTeam, awayTeam}
      || (hc == ac && PredictedWinner(hc, ac, g, hm, am, homeTeam, awayTeam) == g)
  {
  }

  // ---------------------------------------------------------------------
  // Predicted score correction (lines 143-159)
  // ---------------------------------------------------------------------

  function AbsDiff(x: nat, y: nat): nat {
    if x >= y then x - y else y - x
  }

  /** The correction of a parsed score (home goals, away goals): a home
      favourite losing with more than three away goals is swapped round,
      and a goal difference above three (of the parsed score) is replaced
      by 2-0, 0-2 or 1-1 after the favourite. */
  function CorrectScore(score: (nat, nat), winner: Option<string>, homeTeam: string, awayTeam: string): (nat, nat) {
    var (h, a) := score;
    var swapped := if winner == Some(homeTeam) && h < a && a > 3 then (a, h) else (h, a);
    if AbsDiff(h, a) > 3 then
      if winner == Some(homeTeam) then (2, 0)
      else if winner == Some(awayTeam) then (0, 2)
      else (1, 1)
    else swapped
  }

  /** After the correction the goal difference is at most three; a
      moderate score keeps its difference (swapped only for a home
      favourite trailing with more than three away goals, so it then
      leads); an extreme one becomes the favourite's 2-0 or 0-2, or 1-1
      without a favourite. */
  lemma CorrectScoreProperties(score: (nat, nat), winner: Option<string>, homeTeam: string, awayTeam: string)
    requires homeTeam != awayTeam
    ensures AbsDiff(CorrectScore(score, winner, homeTeam, awayTeam).0, CorrectScore(score, winner, homeTeam, awayTeam).1) <= 3
    ensures AbsDiff(score.0, score.1) <= 3 ==>
      var r := CorrectScore(score, winner, homeTeam, awayTeam);
      AbsDiff(r.0, r.1) == AbsDiff(score.0, score.1)
      && (r == score || (r == (score.1, score.0) && winner == Some(homeTeam) && r.0 > r.1))
    ensures AbsDiff(score.0, score.1) > 3 ==>
      CorrectScore(score, winner, homeTeam, awayTeam)
        == (if winner == Some(homeTeam) then (2, 0) else if winner == Some(awayTeam) then (0, 2) else (1, 1))
    ensures winner == Some(homeTeam) && score.0 < score.1 && score.1 > 3 ==>
      CorrectScore(score, winner, homeTeam, awayTeam).0 >= CorrectScore(score, winner, homeTeam, awayTeam).1
  {
  }

  /** Correcting twice changes nothing more for a home or away favourite
      or none. */
  lemma CorrectScoreIdempotent(score: (nat, nat), winner: Option<string>, homeTeam: string, awayTeam: string)
    requires homeTeam != awayTeam
    ensures CorrectScore(CorrectScore(score, winner, homeTeam, awayTeam), winner, homeTeam, awayTeam)
         == CorrectScore(score, winner, homeTeam, awayTeam)
  {
  }

  // ---------------------------------------------------------------------
  // Sentiment advantage (lines 161-186)
  // ---------------------------------------------------------------------

  datatype Side = HomeSide | AwaySide | Even

  /** Who the text favours and whether strongly ("forte") or slightly
      ("leve"). */
  datatype Sentiment = Sentiment(side: Side, strong: bool)

  function SentimentAdvantage(difference: int): Sentiment {
    if difference >= 3 then Sentiment(HomeSide, true)
    else if difference >= 1 then Sentiment(HomeSide, false)
    else if difference <= -3 then Sentiment(AwaySide, true)
    else if difference <= -1 then Sentiment(AwaySide, false)
    else Sentiment(Even, false)
  }

  function MirrorSide(s: Side): Side {
    match s
    case HomeSide => AwaySide
    case AwaySide => HomeSide
    case Even => Even
  }

  /** Balanced exactly at a difference of 0, strong from three either way,
      and symmetric in the two teams. */
  lemma SentimentProperties(d: int)
    ensures SentimentAdvantage(d).side == Even <==> d == 0
    ensures SentimentAdvantage(d).side == HomeSide <==> d > 0
    ensures SentimentAdvantage(d).strong <==> d >= 3 || d <= -3
    ensures SentimentAdvantage(-d) == Sentiment(MirrorSide(SentimentAdvantage(d).side), SentimentAdvantage(d).strong)
  {
  }

  // ---------------------------------------------------------------------
  // Key points (lines 188-197)
  // ---------------------------------------------------------------------

  /** A paragraph of the text: its length once stripped and its first
      sentence. */
  datatype Paragraph = Paragraph(strippedLength: nat, firstSentence: string)

  predicate IsLong(p: Paragraph) {
    p.strippedLength > 50
  }

  /** The first sentence of every paragraph longer than 50 characters, in
      order. */
  function KeyPoints(ps: seq<Paragraph>): seq<string> {
    if ps == [] then []
    else KeyPoints(ps[..|ps| - 1]) + (if IsLong(ps[|ps| - 1]) then [ps[|ps| - 1].firstSentence] else [])
  }

  /** There is one key point per long paragraph, and each is the first
      sentence of one. */
  lemma {:induction false} KeyPointsProperties(ps: seq<Paragraph>)
    ensures |KeyPoints(ps)| == Count(ps, IsLong)
    ensures forall k :: 0 <= k < |KeyPoints(ps)| ==>
      exists j :: 0 <= j < |ps| && ps[j].strippedLength > 50 && ps[j].firstSentence == KeyPoints(ps)[k]
  {
    if ps != [] {
      var init := ps[..|ps| - 1];
      KeyPointsProperties(init);
      forall k | 0 <= k < |KeyPoints(ps)|
        ensures exists j :: 0 <= j < |ps| && ps[j].strippedLength > 50 && ps[j].firstSentence == KeyPoints(ps)[k]
      {
        if k < |KeyPoints(init)| {
          var j :| 0 <= j < |init| && init[j].strippedLength > 50 && init[j].firstSentence == KeyPoints(init)[k];
          assert ps[j] == init[j];
        } else {
          assert ps[|ps| - 1].strippedLength > 50 && ps[|ps| - 1].firstSentence == KeyPoints(ps)[k];
        }
      }
    }
  }

  /** The loop over the paragraphs. */
  method CollectKeyPoints(ps: seq<Paragraph>) returns (points: seq<string>)
    ensures points == KeyPoints(ps)
  {
    points := [];
    for i := 0 to |ps|
      invariant points == KeyPoints(ps[..i])
    {
      assert ps[..i + 1][..i] == ps[..i];
      if ps[i].strippedLength > 50 {
        points := points + [ps[i].firstSentence];
      }
    }
    assert ps[..|ps|] == ps;
  }

  // ---------------------------------------------------------------------
  // The text analysis (lines 30-211)
  // ---------------------------------------------------------------------

  /** What the patterns find in the text: matches per favourite pattern
      of each team, the first general winner match, the mentions of each
      team, the parsed score, the sentiment words after each team and the
      paragraphs. */
  datatype TextEvidence = TextEvidence(
    homePatternMatches: seq<nat>,
    awayPatternMatches: seq<nat>,
    generalMatch: Option<string>,
    homeMentions: nat,
    awayMentions: nat,
    score: Option<(nat, nat)>,
    homePositive: nat,
    homeNegative: nat,
    awayPositive: nat,
    awayNegative: nat,
    paragraphs: seq<Paragraph>)

  datatype TextAnalysis = TextAnalysis(
    gptAnalysis: string,
    predictedWinner: Option<string>,
    predictedScore: Option<(nat, nat)>,
    homeSentimentScore: int,
    awaySentimentScore: int,
    sentimentDifference: int,
    sentimentAdvantage: Sentiment,
    keyPoints: seq<string>)

  /** `analyze_gpt_analysis()`. */
  function GptAnalysis(view: Option<PredictionsView>, ev: TextEvidence, homeTeam: string, awayTeam: string): Result<TextAnalysis> {
    if view.None? then Err(NoPredictions)
    else if view.value.gptAnalysis == "" then Err(NoGptAnalysis)
    else
      var winner := PredictedWinner(SumNat(ev.homePatternMatches), SumNat(ev.awayPatternMatches), ev.generalMatch,
                                    ev.homeMentions, ev.awayMentions, homeTeam, awayTeam);
      var score := if ev.score.Some? then Some(CorrectScore(ev.score.value, winner, homeTeam, awayTeam)) else None;
      var hs := ev.homePositive as int - ev.homeNegative as int;
      var as_ := ev.awayPositive as int - ev.awayNegative as int;
      Ok(TextAnalysis(view.value.gptAnalysis, winner, score, hs, as_, hs - as_, SentimentAdvantage(hs - as_),
                      KeyPoints(ev.paragraphs)))
  }

  /** The analysis fails exactly without predictions or without text; a
      predicted score is then present exactly when one was parsed, with a
      goal difference of at most three. */
  lemma GptAnalysisProperties(view: Option<PredictionsView>, ev: TextEvidence, homeTeam: string, awayTeam: string)
    requires homeTeam != awayTeam
    ensures GptAnalysis(view, ev, homeTeam, awayTeam).Ok? <==> view.Some? && view.value.gptAnalysis != ""
    ensures GptAnalysis(view, ev, homeTeam, awayTeam).Ok? ==>
      var t := GptAnalysis(view, ev, homeTeam, awayTeam).value;
      (t.predictedScore.Some? <==> ev.score.Some?)
      && (t.predictedScore.Some? ==> AbsDiff(t.predictedScore.value.0, t.predictedScore.value.1) <= 3)
      && (t.sentimentAdvantage.side == Even <==> t.homeSentimentScore == t.awaySentimentScore)
      && |t.keyPoints| == Count(ev.paragraphs, IsLong)
  {
    if GptAnalysis(view, ev, homeTeam, awayTeam).Ok? {
      var t := GptAnalysis(view, ev, homeTeam, awayTeam).value;
      if ev.score.Some? {
        CorrectScoreProperties(ev.score.value, t.predictedWinner, homeTeam, awayTeam);
      }
      SentimentProperties(t.sentimentDifference);
      KeyPointsProperties(ev.paragraphs);
    }
  }

  // ---------------------------------------------------------------------
  // General predictions (lines 213-394)
  // ---------------------------------------------------------------------

  /** The table used whenever `predictions` or its `general` dictionary is
      empty. */
  const DefaultGeneral: map<string, real> := map[
    "over_1_5_percentage" := 75.0, "over_2_5_percentage" := 60.0, "btts_percentage" := 65.0,
    "goals_per_game" := 2.8, "cards_per_game" := 3.5, "corners_per_game" := 10.5,
    "over_1_5_league_avg" := 70.0, "over_2_5_league_avg" := 55.0, "btts_league_avg" := 60.0,
    "goals_per_game_league_avg" := 2.6, "cards_per_game_league_avg" := 3.2, "corners_per_game_league_avg" := 9.8]

  datatype LeagueTrend = MuitoAcima | Acima | NaMedia | Abaixo | MuitoAbaixo

  /** The five-band ladder of a team value against the league average. */
  function TrendOf(vsLeague: real, small: real, big: real): LeagueTrend {
    if vsLeague >= big then MuitoAcima
    else if vsLeague >= small then Acima
    else if vsLeague <= -big then MuitoAbaixo
    else if vsLeague <= -small then Abaixo
    else NaMedia
  }

  function MirrorTrend(t: LeagueTrend): LeagueTrend {
    match t
    case MuitoAcima => MuitoAbaixo
    case Acima => Abaixo
    case NaMedia => NaMedia
    case Abaixo => Acima
    case MuitoAbaixo => MuitoAcima
  }

  function TrendRank(t: LeagueTrend): int {
    match t
    case MuitoAcima => 2
    case Acima => 1
    case NaMedia => 0
    case Abaixo => -1
    case MuitoAbaixo => -2
  }

  /** The ladder is symmetric around 0 and monotone, and "Na média"
      exactly strictly inside the small band. */
  lemma TrendOfProperties(d1: real, d2: real, small: real, big: real)
    requires 0.0 < small <= big
    ensures TrendOf(-d1, small, big) == MirrorTrend(TrendOf(d1, small, big))
    ensures d1 <= d2 ==> TrendRank(TrendOf(d1, small, big)) <= TrendRank(TrendOf(d2, small, big))
    ensures TrendOf(d1, small, big) == NaMedia <==> -small < d1 < small
  {
  }

  datatype TrendLine = TrendLine(value: real, leagueAvg: real, vsLeague: real, trend: LeagueTrend)

  datatype GeneralTrends = GeneralTrends(
    over15: TrendLine,
    over25: TrendLine,
    btts: TrendLine,
    goals: TrendLine,
    cards: TrendLine,
    corners: TrendLine)

  function Line(general: map<string, real>, key: string, default: real, avgKey: string, avgDefault: real,
                small: real, big: real): TrendLine {
    var v := GetOr(general, key, default);
    var avg := GetOr(general, avgKey, avgDefault);
    TrendLine(v, avg, v - avg, TrendOf(v - avg, small, big))
  }

  function GeneralTable(view: Option<PredictionsView>): map<string, real> {
    if view.None? || view.value.general == map[] then DefaultGeneral else view.value.general
  }

  /** `analyze_general_predictions()`: never an error. */
  function GeneralPredictionsOf(view: Option<PredictionsView>): GeneralTrends {
    var g := GeneralTable(view);
    GeneralTrends(
      Line(g, "over_1_5_percentage", 75.0, "over_1_5_league_avg", 70.0, 5.0, 15.0),
      Line(g, "over_2_5_percentage", 60.0, "over_2_5_league_avg", 55.0, 5.0, 15.0),
      Line(g, "btts_percentage", 65.0, "btts_league_avg", 60.0, 5.0, 15.0),
      Line(g, "goals_per_game", 2.8, "goals_per_game_league_avg", 2.6, 0.2, 0.5),
      Line(g, "cards_per_game", 3.5, "cards_per_game_league_avg", 3.2, 0.5, 1.0),
      Line(g, "corners_per_game", 10.5, "corners_per_game_league_avg", 9.8, 1.0, 2.0))
  }

  /** Missing predictions and an empty `general` give the same trends,
      those of the default table: the three percentages 5 points and the
      goals 0.2 above the league (in exact arithmetic), cards and corners
      at the league's level. */
  lemma GeneralDefaults(emptyGeneral: PredictionsView)
    requires emptyGeneral.general == map[]
    ensures GeneralPredictionsOf(None) == GeneralPredictionsOf(Some(emptyGeneral))
    ensures var t := GeneralPredictionsOf(None);
      t.over15.trend == Acima && t.over25.trend == Acima && t.btts.trend == Acima
      && t.goals.trend == Acima && t.cards.trend == NaMedia && t.corners.trend == NaMedia
  {
    var g := DefaultGeneral;
    assert g["over_1_5_percentage"] == 75.0 && g["over_1_5_league_avg"] == 70.0;
    assert g["over_2_5_percentage"] == 60.0 && g["over_2_5_league_avg"] == 55.0;
    assert g["btts_percentage"] == 65.0 && g["btts_league_avg"] == 60.0;
    assert g["goals_per_game"] == 2.8 && g["goals_per_game_league_avg"] == 2.6;
    assert g["cards_per_game"] == 3.5 && g["cards_per_game_league_avg"] == 3.2;
    assert g["corners_per_game"] == 10.5 && g["corners_per_game_league_avg"] == 9.8;
  }

  // ---------------------------------------------------------------------
  // Detailed predictions (lines 396-740)
  // ---------------------------------------------------------------------

  /** A market recommendation: for the line ("Over", "Sim") or against it
      ("Under", "Não") with high or medium-high probability, or avoid. */
  datatype Recommendation = For(high: bool) | Against(high: bool) | Avoid

  /** The shared ladder at 65 / 55 / 35 / 45 percent. */
  function Recommend(p: real): Recommendation {
    if p >= 65.0 then For(true)
    else if p >= 55.0 then For(false)
    else if p <= 35.0 then Against(true)
    else if p <= 45.0 then Against(false)
    else Avoid
  }

  function RecommendationRank(r: Recommendation): int {
    match r
    case For(high) => if high then 2 else 1
    case Avoid => 0
    case Against(high) => if high then -2 else -1
  }

  /** Each rung is reached only when the earlier ones failed: the bands
      partition the percentages, and a higher probability never gives a
      recommendation further against the line. */
  lemma RecommendBands(p: real, q: real)
    ensures Recommend(p) == For(true) <==> p >= 65.0
    ensures Recommend(p) == For(false) <==> 55.0 <= p < 65.0
    ensures Recommend(p) == Against(true) <==> p <= 35.0
    ensures Recommend(p) == Against(false) <==> 35.0 < p <= 45.0
    ensures Recommend(p) == Avoid <==> 45.0 < p < 55.0
    ensures p <= q ==> RecommendationRank(Recommend(p)) <= RecommendationRank(Recommend(q))
  {
  }

  datatype Tendency = Vitoria | Empate | Derrota | Variavel

  /** A half's tendency: the outcome with the strictly largest
      probability, "Variável" when there is none. */
  function TendencyOf(win: real, draw: real, loss: real): Tendency {
    if win > draw && win > loss then Vitoria
    else if draw > win && draw > loss then Empate
    else if loss > win && loss > draw then Derrota
    else Variavel
  }

  /** The tendency names an outcome exactly when that outcome is a strict
      maximum, and is "Variável" exactly when the largest value is
      shared. */
  lemma TendencyProperties(win: real, draw: real, loss: real)
    ensures TendencyOf(win, draw, loss) == Vitoria <==> win > draw && win > loss
    ensures TendencyOf(win, draw, loss) == Empate <==> draw > win && draw > loss
    ensures TendencyOf(win, draw, loss) == Derrota <==> loss > win && loss > draw
    ensures TendencyOf(win, draw, loss) == Variavel <==>
      (win >= draw && win >= loss && (win == draw || win == loss))
      || (draw >= win && draw >= loss && (draw == win || draw == loss))
  {
  }

  datatype HalfRecommendation = HomeWinsHalf | AwayWinsHalf | DrawAtHalf | AvoidHalf

  function FirstHalfRecommendation(homeWin: real, homeDraw: real, homeLoss: real,
                                   awayWin: real, awayDraw: real, awayLoss: real): HalfRecommendation {
    if homeWin >= 50.0 && awayLoss >= 50.0 then HomeWinsHalf
    else if homeLoss >= 50.0 && awayWin >= 50.0 then AwayWinsHalf
    else if homeDraw >= 50.0 && awayDraw >= 50.0 then DrawAtHalf
    else AvoidHalf
  }

  /** The home win test comes first, then the away win test; a draw is
      recommended only when neither win test holds and both sides draw at
      least half their first halves. */
  lemma FirstHalfProperties(homeWin: real, homeDraw: real, homeLoss: real,
                            awayWin: real, awayDraw: real, awayLoss: real)
    ensures var r := FirstHalfRecommendation(homeWin, homeDraw, homeLoss, awayWin, awayDraw, awayLoss);
      var homeTest := homeWin >= 50.0 && awayLoss >= 50.0;
      var awayTest := homeLoss >= 50.0 && awayWin >= 50.0;
      var drawTest := homeDraw >= 50.0 && awayDraw >= 50.0;
      (r == HomeWinsHalf <==> homeTest)
      && (r == AwayWinsHalf <==> !homeTest && awayTest)
      && (r == DrawAtHalf <==> !homeTest && !awayTest && drawTest)
      && (r == AvoidHalf <==> !homeTest && !awayTest && !drawTest)
  {
  }

  datatype FirstGoal = HomeFirst(high: bool) | AwayFirst(high: bool) | AvoidFirstGoal

  function FirstGoalRecommendation(home: real, away: real): FirstGoal {
    if home >= 65.0 then HomeFirst(true)
    else if home >= 55.0 then HomeFirst(false)
    else if away >= 65.0 then AwayFirst(true)
    else if away >= 55.0 then AwayFirst(false)
    else AvoidFirstGoal
  }

  /** The home side is checked first: the away team is recommended only
      when the home team is below 55. */
  lemma FirstGoalProperties(home: real, away: real)
    ensures FirstGoalRecommendation(home, away).AwayFirst? <==> home < 55.0 && away >= 55.0
    ensures FirstGoalRecommendation(home, away).HomeFirst? <==> home >= 55.0
    ensures FirstGoalRecommendation(home, away) == AvoidFirstGoal <==> home < 55.0 && away < 55.0
  {
  }

  const DefaultGoalsDetailed: map<string, map<string, real>> := map[
    "over_0_5" := map["average" := 95.0], "over_1_5" := map["average" := 75.0],
    "over_2_5" := map["average" := 60.0], "over_3_5" := map["average" := 35.0],
    "over_4_5" := map["average" := 20.0], "btts" := map["average" := 65.0]]

  const DefaultCorners: map<string, real> := map[
    "over_6_corners_percentage" := 80.0, "over_7_corners_percentage" := 70.0,
    "over_8_corners_percentage" := 60.0, "over_9_corners_percentage" := 50.0,
    "over_10_corners_percentage" := 40.0]

  const DefaultCards: map<string, real> := map[
    "over_2_5_cards_percentage" := 75.0, "over_3_5_cards_percentage" := 60.0,
    "over_4_5_cards_percentage" := 40.0]

  const DefaultHalftime: map<string, real> := map[
    "home_win_1h" := 40.0, "home_win_2h" := 45.0, "home_draw_1h" := 40.0, "home_draw_2h" := 30.0,
    "home_loss_1h" := 20.0, "home_loss_2h" := 25.0, "away_win_1h" := 20.0, "away_win_2h" := 25.0,
    "away_draw_1h" := 40.0, "away_draw_2h" := 30.0, "away_loss_1h" := 40.0, "away_loss_2h" := 45.0]

  const DefaultFirstGoal: map<string, real> := map[
    "home_first_goal_percentage" := 60.0, "away_first_goal_percentage" := 40.0]

  datatype Tendencies = Tendencies(firstHalf: Tendency, secondHalf: Tendency)

  /** The detailed analysis. Every section is replaced by its default
      table when empty, so all five are always present. */
  datatype DetailedAnalysis = DetailedAnalysis(
    overUnder: Recommendation,
    btts: Recommendation,
    corners: Recommendation,
    cards: Recommendation,
    homeTendencies: Tendencies,
    awayTendencies: Tendencies,
    firstHalf: HalfRecommendation,
    firstGoal: FirstGoal)

  function OrDefault<K, V>(section: map<K, V>, default: map<K, V>): map<K, V> {
    if section == map[] then default else section
  }

  function DetailedOf(gd: map<string, map<string, real>>, co: map<string, real>, ca: map<string, real>,
                      ht: map<string, real>, fg: map<string, real>): DetailedAnalysis {
    var hw1, hw2 := GetOr(ht, "home_win_1h", 40.0), GetOr(ht, "home_win_2h", 45.0);
    var hd1, hd2 := GetOr(ht, "home_draw_1h", 40.0), GetOr(ht, "home_draw_2h", 30.0);
    var hl1, hl2 := GetOr(ht, "home_loss_1h", 20.0), GetOr(ht, "home_loss_2h", 25.0);
    var aw1, aw2 := GetOr(ht, "away_win_1h", 20.0), GetOr(ht, "away_win_2h", 25.0);
    var ad1, ad2 := GetOr(ht, "away_draw_1h", 40.0), GetOr(ht, "away_draw_2h", 30.0);
    var al1, al2 := GetOr(ht, "away_loss_1h", 40.0), GetOr(ht, "away_loss_2h", 45.0);
    DetailedAnalysis(
      Recommend(GetNested(gd, "over_2_5", "average", 60.0)),
      Recommend(GetNested(gd, "btts", "average", 65.0)),
      Recommend(GetOr(co, "over_8_corners_percentage", 60.0)),
      Recommend(GetOr(ca, "over_3_5_cards_percentage", 60.0)),
      Tendencies(TendencyOf(hw1, hd1, hl1), TendencyOf(hw2, hd2, hl2)),
      Tendencies(TendencyOf(aw1, ad1, al1), TendencyOf(aw2, ad2, al2)),
      FirstHalfRecommendation(hw1, hd1, hl1, aw1, ad1, al1),
      FirstGoalRecommendation(GetOr(fg, "home_first_goal_percentage", 60.0),
                              GetOr(fg, "away_first_goal_percentage", 40.0)))
  }

  /** `analyze_detailed_predictions()`: never an error. */
  function DetailedPredictionsOf(view: Option<PredictionsView>): DetailedAnalysis {
    if view.None? then DetailedOf(DefaultGoalsDetailed, DefaultCorners, DefaultCards, DefaultHalftime, DefaultFirstGoal)
    else
      var v := view.value;
      DetailedOf(OrDefault(v.goalsDetailed, DefaultGoalsDetailed), OrDefault(v.corners, DefaultCorners),
                 OrDefault(v.cards, DefaultCards), OrDefault(v.halftimeFulltime, DefaultHalftime),
                 OrDefault(v.firstGoal, DefaultFirstGoal))
  }

  /** Missing predictions and predictions with every detailed section
      empty give the same analysis, that of the default tables: Over 2.5
      and BTTS, corners and cards at medium-high or high, a home team that
      tends to win the second half while its first half is undecided, no
      first-half market, and the home team to score first. */
  lemma DetailedDefaults(empty: PredictionsView)
    requires empty.goalsDetailed == map[] && empty.corners == map[] && empty.cards == map[]
    requires empty.halftimeFulltime == map[] && empty.firstGoal == map[]
    ensures DetailedPredictionsOf(None) == DetailedPredictionsOf(Some(empty))
    ensures var d := DetailedPredictionsOf(None);
      d.overUnder == For(false) && d.btts == For(true) && d.corners == For(false) && d.cards == For(false)
      && d.homeTendencies == Tendencies(Variavel, Vitoria) && d.awayTendencies == Tendencies(Variavel, Derrota)
      && d.firstHalf == AvoidHalf && d.firstGoal == HomeFirst(false)
  {
    var ht := DefaultHalftime;
    assert ht["home_win_1h"] == 40.0 && ht["home_draw_1h"] == 40.0 && ht["home_loss_1h"] == 20.0;
    assert ht["home_win_2h"] == 45.0 && ht["home_draw_2h"] == 30.0 && ht["home_loss_2h"] == 25.0;
    assert ht["away_win_1h"] == 20.0 && ht["away_draw_1h"] == 40.0 && ht["away_loss_1h"] == 40.0;
    assert ht["away_win_2h"] == 25.0 && ht["away_draw_2h"] == 30.0 && ht["away_loss_2h"] == 45.0;
    assert DefaultGoalsDetailed["over_2_5"]["average"] == 60.0 && DefaultGoalsDetailed["btts"]["average"] == 65.0;
    assert DefaultCorners["over_8_corners_percentage"] == 60.0;
    assert DefaultCards["over_3_5_cards_percentage"] == 60.0;
    assert DefaultFirstGoal["home_first_goal_percentage"] == 60.0;
  }

  // ---------------------------------------------------------------------
  // Insight fallbacks (lines 753-865)
  // ---------------------------------------------------------------------

  /** What the insights report whatever the analyses returned: the
      textual favourite (the home team when none was found), the sentiment
      advantage unless balanced, the predicted score (2-1 when none) and at
      most three key points. */
  datatype InsightSummary = InsightSummary(favorite: string, sentiment: Option<Sentiment>, score: (nat, nat),
                                           keyPoints: seq<string>)

  function InsightSummaryOf(text: Result<TextAnalysis>, homeTeam: string): InsightSummary {
    if text.Err? then InsightSummary(homeTeam, None, (2, 1), [])
    else
      var t := text.value;
      var kp := t.keyPoints;
      InsightSummary(if Truthy(t.predictedWinner) then t.predictedWinner.value else homeTeam,
                     if t.sentimentAdvantage.side != Even then Some(t.sentimentAdvantage) else None,
                     if t.predictedScore.Some? then t.predictedScore.value else (2, 1),
                     if |kp| <= 3 then kp else kp[..3])
  }

  /** The insights do not fail with the text analysis: an error gives the
      home team, no sentiment, 2-1 and no key points; otherwise the
      favourite is the predicted winner when there is one, a sentiment is
      reported exactly when it is not balanced, and the key points are the
      first (at most three) of the analysis. */
  lemma InsightSummaryProperties(text: Result<TextAnalysis>, homeTeam: string)
    ensures text.Err? ==> InsightSummaryOf(text, homeTeam) == InsightSummary(homeTeam, None, (2, 1), [])
    ensures text.Ok? ==>
      (InsightSummaryOf(text, homeTeam).sentiment.Some? <==> text.value.sentimentAdvantage.side != Even)
    ensures text.Ok? && Truthy(text.value.predictedWinner) ==>
      InsightSummaryOf(text, homeTeam).favorite == text.value.predictedWinner.value
    ensures |InsightSummaryOf(text, homeTeam).keyPoints| <= 3
    ensures text.Ok? ==> InsightSummaryOf(text, homeTeam).keyPoints <= text.value.keyPoints
  {
  }
}
