/** The recent-form analyses of analyzers/recent_form.py: each team's
    momentum (result ladder, form trend, attack and defence ratings), its
    home/away profile, the comparison of the two teams and the match
    context with the favourite. They read the processed `team_form`
    dictionary, one ProcessedForm per team. */
module RecentForm {
  import opened Common
  import opened DataProcessor

  function NoFormData(team: string): string {
    "Dados de forma recente para " + team + " não disponíveis"
  }
  function NoStats(team: string): string {
    "Estatísticas para " + team + " não disponíveis"
  }
  const CannotCompare := "Dados insuficientes para comparar a forma das equipes"
  const NoContext := "Dados insuficientes para analisar o contexto do jogo"

  // ---------------------------------------------------------------------
  // Substring test (Python's `needle in text`)
  // ---------------------------------------------------------------------

  predicate OccursAt(text: string, needle: string, i: int) {
    0 <= i <= |text| - |needle| && text[i..i + |needle|] == needle
  }

  predicate Contains(text: string, needle: string) {
    exists i | 0 <= i <= |text| - |needle| :: OccursAt(text, needle, i)
  }

  lemma ContainsPrefix(text: string, rest: string)
    ensures Contains(text + rest, text)
  {
    assert OccursAt(text + rest, text, 0);
  }

  // ---------------------------------------------------------------------
  // Momentum ladder (lines 67-91)
  // ---------------------------------------------------------------------

  datatype Level = Excelente | MuitoBom | Bom | Estavel | Neutro | Fraco | Ruim | MuitoRuim

  function LevelLabel(l: Level): string {
    match l
    case Excelente => "Excelente"
    case MuitoBom => "Muito Bom"
    case Bom => "Bom"
    case Estavel => "Estável"
    case Neutro => "Neutro"
    case Fraco => "Fraco"
    case Ruim => "Ruim"
    case MuitoRuim => "Muito Ruim"
  }

  function LevelDescription(l: Level): string {
    match l
    case Excelente => "Sequência muito positiva de resultados"
    case MuitoBom => "Sequência positiva de resultados sem derrotas"
    case Bom => "Mais vitórias que derrotas recentemente"
    case Estavel => "Muitos empates recentemente"
    case Neutro => "Forma recente equilibrada"
    case Fraco => "Mais derrotas que vitórias recentemente"
    case Ruim => "Sequência negativa de resultados sem vitórias"
    case MuitoRuim => "Sequência muito negativa de resultados"
  }

  /** The first-match ladder over the counts of the last matches. */
  function MomentumLevel(wins: nat, draws: nat, losses: nat): Level {
    if wins >= 4 then Level.Excelente
    else if wins == 3 && draws >= 1 then Level.MuitoBom
    else if wins == 3 then Level.Bom
    else if losses >= 4 then Level.MuitoRuim
    else if losses == 3 && draws >= 1 then Level.Ruim
    else if losses == 3 then Level.Fraco
    else if draws >= 3 then Level.Estavel
    else Level.Neutro
  }

  /** Each level is reached on exactly one region of the counts: the win
      rungs come first, so four losses are "Muito Ruim" only with fewer
      than three wins. */
  lemma MomentumLadder(wins: nat, draws: nat, losses: nat)
    ensures MomentumLevel(wins, draws, losses) == Level.Excelente <==> wins >= 4
    ensures MomentumLevel(wins, draws, losses) == Level.MuitoBom <==> wins == 3 && draws >= 1
    ensures MomentumLevel(wins, draws, losses) == Level.Bom <==> wins == 3 && draws == 0
    ensures MomentumLevel(wins, draws, losses) == Level.MuitoRuim <==> wins < 3 && losses >= 4
    ensures MomentumLevel(wins, draws, losses) == Level.Ruim <==> wins < 3 && losses == 3 && draws >= 1
    ensures MomentumLevel(wins, draws, losses) == Level.Fraco <==> wins < 3 && losses == 3 && draws == 0
    ensures MomentumLevel(wins, draws, losses) == Level.Estavel <==> wins < 3 && losses < 3 && draws >= 3
    ensures MomentumLevel(wins, draws, losses) == Level.Neutro <==> wins < 3 && losses < 3 && draws < 3
  {
  }

  // ---------------------------------------------------------------------
  // Label scores of the comparison (lines 309-321, 351-361, 378-388)
  // ---------------------------------------------------------------------

  const MomentumLevels: map<string, int> :=
    map["Excelente" := 5, "Muito Bom" := 4, "Bom" := 3, "Estável" := 2, "Neutro" := 2,
        "Fraco" := 1, "Ruim" := 0, "Muito Ruim" := -1]

  /** `momentum_levels.get(label, 2)`. */
  function MomentumScore(lbl: string): int {
    if lbl in MomentumLevels then MomentumLevels[lbl] else 2
  }

  function LevelScore(l: Level): int {
    MomentumScore(LevelLabel(l))
  }

  /** The score of every level the ladder can produce, and the default for
      any other label. */
  lemma LevelScores(other: string)
    requires other !in MomentumLevels
    ensures LevelScore(Level.Excelente) == 5 && LevelScore(Level.MuitoBom) == 4
    ensures LevelScore(Level.Bom) == 3 && LevelScore(Level.Estavel) == 2 && LevelScore(Level.Neutro) == 2
    ensures LevelScore(Level.Fraco) == 1 && LevelScore(Level.Ruim) == 0 && LevelScore(Level.MuitoRuim) == -1
    ensures MomentumScore(other) == 2
  {
  }

  /** One more win never lowers the momentum score and one more loss never
      raises it. */
  lemma MomentumMonotone(wins: nat, draws: nat, losses: nat)
    ensures LevelScore(MomentumLevel(wins, draws, losses)) <= LevelScore(MomentumLevel(wins + 1, draws, losses))
    ensures LevelScore(MomentumLevel(wins, draws, losses + 1)) <= LevelScore(MomentumLevel(wins, draws, losses))
  {
    LevelScores("");
  }

  datatype Rating = Excelente | MuitoBom | Bom | Medio | Fraco | MuitoFraco

  function RatingLabel(r: Rating): string {
    match r
    case Excelente => "Excelente"
    case MuitoBom => "Muito Bom"
    case Bom => "Bom"
    case Medio => "Médio"
    case Fraco => "Fraco"
    case MuitoFraco => "Muito Fraco"
  }

  /** The table shared by `offensive_ratings` and `defensive_ratings`. */
  const RatingScores: map<string, int> :=
    map["Excelente" := 5, "Muito Bom" := 4, "Bom" := 3, "Médio" := 2, "Fraco" := 1, "Muito Fraco" := 0]

  function RatingScore(lbl: string): int {
    if lbl in RatingScores then RatingScores[lbl] else 2
  }

  function RatingRank(r: Rating): int {
    RatingScore(RatingLabel(r))
  }

  lemma RatingRanks()
    ensures RatingRank(Rating.Excelente) == 5 && RatingRank(Rating.MuitoBom) == 4 && RatingRank(Rating.Bom) == 3
    ensures RatingRank(Rating.Medio) == 2 && RatingRank(Rating.Fraco) == 1 && RatingRank(Rating.MuitoFraco) == 0
  {
  }

  // ---------------------------------------------------------------------
  // Attack and defence ratings (lines 116-142)
  // ---------------------------------------------------------------------

  function OffensiveRating(avgScored: real): Rating {
    if avgScored >= 2.5 then Rating.Excelente
    else if avgScored >= 2.0 then Rating.MuitoBom
    else if avgScored >= 1.5 then Rating.Bom
    else if avgScored <= 0.5 then Rating.MuitoFraco
    else if avgScored < 1.0 then Rating.Fraco
    else Rating.Medio
  }

  function DefensiveRating(avgConceded: real, cleanSheets: nat): Rating {
    if avgConceded <= 0.5 && cleanSheets >= 3 then Rating.Excelente
    else if avgConceded <= 0.8 && cleanSheets >= 2 then Rating.MuitoBom
    else if avgConceded <= 1.0 then Rating.Bom
    else if avgConceded >= 2.5 then Rating.MuitoFraco
    else if avgConceded >= 2.0 then Rating.Fraco
    else Rating.Medio
  }

  /** Scoring more never earns a lower attack rating; conceding less with
      at least as many clean sheets never earns a lower defence rating. */
  lemma RatingsMonotone(scored1: real, scored2: real, conceded1: real, conceded2: real, sheets1: nat, sheets2: nat)
    requires scored1 <= scored2
    requires conceded2 <= conceded1 && sheets1 <= sheets2
    ensures RatingRank(OffensiveRating(scored1)) <= RatingRank(OffensiveRating(scored2))
    ensures RatingRank(DefensiveRating(conceded1, sheets1)) <= RatingRank(DefensiveRating(conceded2, sheets2))
  {
    RatingRanks();
  }

  // ---------------------------------------------------------------------
  // Form trend (lines 93-114)
  // ---------------------------------------------------------------------

  datatype Trend = Melhorando | Piorando | Estavel

  /** V = 3, E = 1, anything else 0. */
  function ResultPoints(c: char): nat {
    if c == 'V' then 3 else if c == 'E' then 1 else 0
  }

  function Points(form: string): (p: seq<nat>)
    ensures |p| == |form|
  {
    seq(|form|, i requires 0 <= i < |form| => ResultPoints(form[i]))
  }

  /** The loop that converts the form sequence to points. */
  method FormPoints(form: string) returns (points: seq<nat>)
    ensures |points| == |form|
    ensures forall i :: 0 <= i < |form| ==> points[i] == ResultPoints(form[i])
    ensures points == Points(form)
  {
    points := [];
    for i := 0 to |form|
      invariant |points| == i
      invariant forall k :: 0 <= k < i ==> points[k] == ResultPoints(form[k])
    {
      if form[i] == 'V' {
        points := points + [3];
      } else if form[i] == 'E' {
        points := points + [1];
      } else {
        points := points + [0];
      }
    }
  }

  function Compare(first: nat, second: nat): Trend {
    if second > first + 1 then Trend.Melhorando
    else if first > second + 1 then Trend.Piorando
    else Trend.Estavel
  }

  /** The trend as written: the first ⌊n/2⌋ points against all the rest,
      so for an odd length the later half holds one more match. */
  function FormTrendAsWritten(form: string): Trend {
    if |form| < 3 then Trend.Estavel
    else
      var p := Points(form);
      Compare(SumNat(p[..|p| / 2]), SumNat(p[|p| / 2..]))
  }

  /** A perfect run of five wins is read as improving: 6 points in the
      first two matches against 9 in the last three. */
  lemma FormTrendAsWrittenPerfectRun()
    ensures FormTrendAsWritten("VVVVV") == Trend.Melhorando
  {
    var p := Points("VVVVV");
    assert p == [3, 3, 3, 3, 3];
    assert p[..2] == [3, 3] && p[2..] == [3, 3, 3];
    assert SumNat([3, 3]) == 6 && SumNat([3, 3, 3]) == 9;
  }

  /** The trend compared over halves of equal length: the first ⌊n/2⌋
      points against the last ⌊n/2⌋, the middle match of an odd length
      left out. */
  function FormTrend(form: string): Trend {
    if |form| < 3 then Trend.Estavel
    else
      var p := Points(form);
      Compare(SumNat(p[..|p| / 2]), SumNat(p[|p| - |p| / 2..]))
  }

  function Reverse<T>(s: seq<T>): (r: seq<T>)
    ensures |r| == |s|
  {
    seq(|s|, i requires 0 <= i < |s| => s[|s| - 1 - i])
  }

  /** Reversal moves the first entry to the end. */
  lemma ReverseFirst<T>(s: seq<T>)
    requires s != []
    ensures Reverse(s) == Reverse(s[1..]) + [s[0]]
  {
  }

  lemma {:induction false} SumNatConcat(a: seq<nat>, b: seq<nat>)
    ensures SumNat(a + b) == SumNat(a) + SumNat(b)
  {
    if a == [] {
      assert a + b == b;
    } else {
      assert (a + b)[0] == a[0];
      assert (a + b)[1..] == a[1..] + b;
      SumNatConcat(a[1..], b);
    }
  }

  lemma {:induction false} SumNatReverse(s: seq<nat>)
    ensures SumNat(Reverse(s)) == SumNat(s)
  {
    if s != [] {
      SumNatReverse(s[1..]);
      ReverseFirst(s);
      SumNatConcat(Reverse(s[1..]), [s[0]]);
      assert SumNat([s[0]]) == s[0];
    }
  }

  lemma {:induction false} SumNatConstant(s: seq<nat>, v: nat)
    requires forall i :: 0 <= i < |s| ==> s[i] == v
    ensures SumNat(s) == |s| * v
  {
    if s != [] {
      SumNatConstant(s[1..], v);
    }
  }

  function MirrorTrend(t: Trend): Trend {
    match t
    case Melhorando => Trend.Piorando
    case Piorando => Trend.Melhorando
    case Estavel => Trend.Estavel
  }

  /** Fewer than three results are always stable, and so is a run of one
      repeated result. */
  lemma FormTrendStable(form: string)
    ensures |form| < 3 ==> FormTrend(form) == Trend.Estavel
    ensures (forall i :: 0 <= i < |form| ==> form[i] == form[0]) ==> FormTrend(form) == Trend.Estavel
  {
    var n := |form|;
    var h := n / 2;
    var p := Points(form);
    if n >= 3 && forall i :: 0 <= i < n ==> form[i] == form[0] {
      SumNatConstant(p[..h], ResultPoints(form[0]));
      SumNatConstant(p[n - h..], ResultPoints(form[0]));
    }
  }

  lemma PointsReverse(form: string)
    ensures Points(Reverse(form)) == Reverse(Points(form))
  {
  }

  /** Reading the form backwards swaps improving and worsening. */
  lemma FormTrendReverse(form: string)
    ensures FormTrend(Reverse(form)) == MirrorTrend(FormTrend(form))
  {
    if |form| >= 3 {
      PointsReverse(form);
      HalvesReverse(Points(form));
    }
  }

  /** The trend as written: short runs are stable; for an even length it
      is the trend over equal halves, so reading the form backwards mirrors
      it; and a run of one repeated result is improving exactly when it is
      a run of wins of odd length, because the later half then holds one
      more win. */
  lemma FormTrendAsWrittenProperties(form: string)
    ensures |form| < 3 ==> FormTrendAsWritten(form) == Trend.Estavel
    ensures |form| % 2 == 0 ==> FormTrendAsWritten(form) == FormTrend(form)
    ensures |form| % 2 == 0 ==> FormTrendAsWritten(Reverse(form)) == MirrorTrend(FormTrendAsWritten(form))
    ensures 3 <= |form| && (forall i :: 0 <= i < |form| ==> form[i] == form[0]) ==>
      FormTrendAsWritten(form) == (if |form| % 2 == 1 && form[0] == 'V' then Trend.Melhorando else Trend.Estavel)
  {
    if |form| % 2 == 0 {
      FormTrendAsWrittenEven(form);
    }
    if 3 <= |form| && forall i :: 0 <= i < |form| ==> form[i] == form[0] {
      FormTrendAsWrittenConstant(form);
    }
  }

  lemma FormTrendAsWrittenEven(form: string)
    requires |form| % 2 == 0
    ensures FormTrendAsWritten(form) == FormTrend(form)
    ensures FormTrendAsWritten(Reverse(form)) == MirrorTrend(FormTrendAsWritten(form))
  {
    assert |form| - |form| / 2 == |form| / 2;
    FormTrendReverse(form);
  }

  lemma FormTrendAsWrittenConstant(form: string)
    requires 3 <= |form| && forall i :: 0 <= i < |form| ==> form[i] == form[0]
    ensures FormTrendAsWritten(form) == if |form| % 2 == 1 && form[0] == 'V' then Trend.Melhorando else Trend.Estavel
  {
    var n := |form|;
    var h := n / 2;
    var p := Points(form);
    var v := ResultPoints(form[0]);
    SumNatConstant(p[..h], v);
    SumNatConstant(p[h..], v);
    assert (n - h) * v == h * v + (n - h - h) * v;
  }

  /** Comparing the halves of reversed points mirrors the comparison. */
  lemma HalvesReverse(p: seq<nat>)
    ensures var n, q := |p|, Reverse(p);
            Compare(SumNat(q[..n / 2]), SumNat(q[n - n / 2..]))
              == MirrorTrend(Compare(SumNat(p[..n / 2]), SumNat(p[n - n / 2..])))
  {
    var n := |p|;
    var h := n / 2;
    var q := Reverse(p);
    ReverseHalves(p, h);
    SumNatReverse(p[n - h..]);
    SumNatReverse(p[..h]);
    CompareMirror(SumNat(p[..h]), SumNat(p[n - h..]));
  }

  lemma CompareMirror(first: nat, second: nat)
    ensures Compare(second, first) == MirrorTrend(Compare(first, second))
  {
  }

  /** The first h entries of a reversed sequence are its last h entries
      reversed, and the other way round. */
  lemma ReverseHalves(p: seq<nat>, h: nat)
    requires h <= |p|
    ensures Reverse(p)[..h] == Reverse(p[|p| - h..])
    ensures Reverse(p)[|p| - h..] == Reverse(p[..h])
  {
    var n := |p|;
    var r := Reverse(p);
    var tail, head := Reverse(p[n - h..]), Reverse(p[..h]);
    forall i | 0 <= i < h ensures r[..h][i] == tail[i] {
      assert r[i] == p[n - 1 - i];
      assert tail[i] == p[n - h..][h - 1 - i];
    }
    forall i | 0 <= i < h ensures r[n - h..][i] == head[i] {
      assert r[n - h + i] == p[h - 1 - i];
      assert head[i] == p[..h][h - 1 - i];
    }
    assert r[..h] == tail;
    assert r[n - h..] == head;
  }

  /** The trend of a form sequence as written, computed from the points
      loop. */
  method ComputeTrend(form: string) returns (t: Trend)
    ensures t == FormTrendAsWritten(form)
  {
    t := Trend.Estavel;
    if |form| >= 3 {
      var points := FormPoints(form);
      var half := |points| / 2;
      var first := SumNat(points[..half]);
      var second := SumNat(points[half..]);
      if second > first + 1 {
        t := Trend.Melhorando;
      } else if first > second + 1 {
        t := Trend.Piorando;
      }
    }
  }

  // ---------------------------------------------------------------------
  // Team momentum (lines 29-163)
  // ---------------------------------------------------------------------

  datatype TeamMomentum = TeamMomentum(
    team: string,
    matches: seq<FormMatch>,
    wins: nat,
    draws: nat,
    losses: nat,
    winPercentage: real,
    avgGoalsScored: real,
    avgGoalsConceded: real,
    cleanSheets: nat,
    cleanSheetsPercentage: real,
    failedToScore: nat,
    failedToScorePercentage: real,
    formSequence: string,
    level: Level,
    trend: Trend,
    offensive: Rating,
    defensive: Rating)

  /** `analyze_team_momentum(team)` on the processed form of every team.
      A processed entry always carries its `last_5_matches` summary. */
  function TeamMomentumOf(teamForm: map<string, ProcessedForm>, team: string): Result<TeamMomentum> {
    if team !in teamForm then Err(NoFormData(team))
    else
      var f := teamForm[team];
      var s := f.last5;
      Ok(TeamMomentum(team, s.matches, s.wins, s.draws, s.losses, s.winPercentage,
                      s.avgGoalsScored, s.avgGoalsConceded, s.cleanSheets, s.cleanSheetsPercentage,
                      s.failedToScore, s.failedToScorePercentage, f.generalForm,
                      MomentumLevel(s.wins, s.draws, s.losses), FormTrendAsWritten(f.generalForm),
                      OffensiveRating(s.avgGoalsScored), DefensiveRating(s.avgGoalsConceded, s.cleanSheets)))
  }

  /** The analysis fails exactly for a team without form data; otherwise
      it copies the team's summary and classifies it, with the trend as
      written. */
  lemma TeamMomentumProperties(teamForm: map<string, ProcessedForm>, team: string)
    ensures TeamMomentumOf(teamForm, team).Err? <==> team !in teamForm
    ensures team in teamForm ==>
      var m := TeamMomentumOf(teamForm, team).value;
      var s := teamForm[team].last5;
      m.team == team && m.wins == s.wins && m.draws == s.draws && m.losses == s.losses
      && m.level == MomentumLevel(s.wins, s.draws, s.losses)
      && m.trend == FormTrendAsWritten(teamForm[team].generalForm)
      && m.offensive == OffensiveRating(s.avgGoalsScored)
      && m.defensive == DefensiveRating(s.avgGoalsConceded, s.cleanSheets)
  {
  }

  /** `analyze_team_momentum(team)` with the trend computed by the loop. */
  method RunTeamMomentum(teamForm: map<string, ProcessedForm>, team: string) returns (r: Result<TeamMomentum>)
    ensures r == TeamMomentumOf(teamForm, team)
  {
    if team !in teamForm {
      return Err(NoFormData(team));
    }
    var f := teamForm[team];
    var s := f.last5;
    var trend := ComputeTrend(f.generalForm);
    r := Ok(TeamMomentum(team, s.matches, s.wins, s.draws, s.losses, s.winPercentage,
                         s.avgGoalsScored, s.avgGoalsConceded, s.cleanSheets, s.cleanSheetsPercentage,
                         s.failedToScore, s.failedToScorePercentage, f.generalForm,
                         MomentumLevel(s.wins, s.draws, s.losses), trend,
                         OffensiveRating(s.avgGoalsScored), DefensiveRating(s.avgGoalsConceded, s.cleanSheets)));
  }

  // ---------------------------------------------------------------------
  // Home/away performance (lines 165-293)
  // ---------------------------------------------------------------------

  /** Which venue a team does better at, by how much. */
  datatype Lean = MuitoMelhorEmCasa | MelhorEmCasa | Equilibrado | MelhorFora | MuitoMelhorFora

  /** The symmetric five-band ladder used for the win, attack and defence
      differences: at least `big` or `small` either way. */
  function Band(difference: real, small: real, big: real): Lean {
    if difference >= big then Lean.MuitoMelhorEmCasa
    else if difference >= small then Lean.MelhorEmCasa
    else if difference <= -big then Lean.MuitoMelhorFora
    else if difference <= -small then Lean.MelhorFora
    else Lean.Equilibrado
  }

  function MirrorLean(l: Lean): Lean {
    match l
    case MuitoMelhorEmCasa => Lean.MuitoMelhorFora
    case MelhorEmCasa => Lean.MelhorFora
    case Equilibrado => Lean.Equilibrado
    case MelhorFora => Lean.MelhorEmCasa
    case MuitoMelhorFora => Lean.MuitoMelhorEmCasa
  }

  /** The `home_away_strength` texts. */
  function StrengthLabel(l: Lean): string {
    match l
    case MuitoMelhorEmCasa => "Muito melhor em casa"
    case MelhorEmCasa => "Melhor em casa"
    case Equilibrado => "Equilibrado"
    case MelhorFora => "Melhor fora"
    case MuitoMelhorFora => "Muito melhor fora"
  }

  const StrengthSmall: real := 10.0
  const StrengthBig: real := 20.0
  const GoalsSmall: real := 0.5
  const GoalsBig: real := 1.0

  /** The bands are symmetric: negating the difference mirrors the lean,
      a difference strictly inside the small band is balanced, and the
      lean is on the home side exactly when the difference reaches the
      small band. */
  lemma BandProperties(d: real, small: real, big: real)
    requires 0.0 < small <= big
    ensures Band(-d, small, big) == MirrorLean(Band(d, small, big))
    ensures -small < d < small ==> Band(d, small, big) == Lean.Equilibrado
    ensures Band(d, small, big) in {Lean.MuitoMelhorEmCasa, Lean.MelhorEmCasa} <==> d >= small
    ensures Band(d, small, big) == Lean.MuitoMelhorEmCasa <==> d >= big
  {
  }

  datatype Venues = Venues(overall: real, home: real, away: real)

  function VenuesOf(stats: Stats, metric: string): Venues {
    Venues(GetNested(stats, metric, "overall", 0.0), GetNested(stats, metric, "home", 0.0),
           GetNested(stats, metric, "away", 0.0))
  }

  datatype HomeAwayPerformance = HomeAwayPerformance(
    team: string,
    isHomeTeam: bool,
    winPercentage: Venues,
    goalsScored: Venues,
    goalsConceded: Venues,
    bttsPercentage: Venues,
    cleanSheetsPercentage: Venues,
    failedToScorePercentage: Venues,
    xG: Venues,
    xGC: Venues,
    homeAwayDifference: real,
    strength: Lean,
    offensiveDifference: real,
    offensive: Lean,
    defensiveDifference: real,
    defensive: Lean,
    highRelevance: bool)

  /** `analyze_home_away_performance(team)`; `homeTeam` is the fixture's
      home team. A missing or empty `stats` dictionary is an error. */
  function HomeAwayOf(teamForm: map<string, ProcessedForm>, homeTeam: string, team: string): Result<HomeAwayPerformance> {
    if team !in teamForm then Err(NoFormData(team))
    else if teamForm[team].stats.None? || teamForm[team].stats.value == map[] then Err(NoStats(team))
    else
      var st := teamForm[team].stats.value;
      var win := VenuesOf(st, "win_percentage");
      var scored := VenuesOf(st, "goals_scored_per_game");
      var conceded := VenuesOf(st, "goals_conceded_per_game");
      var diff := win.home - win.away;
      var off := scored.home - scored.away;
      var def := conceded.away - conceded.home;
      var isHome := team == homeTeam;
      Ok(HomeAwayPerformance(team, isHome, win, scored, conceded, VenuesOf(st, "btts_percentage"),
                             VenuesOf(st, "clean_sheets_percentage"), VenuesOf(st, "failed_to_score_percentage"),
                             VenuesOf(st, "xG"), VenuesOf(st, "xGC"),
                             diff, Band(diff, StrengthSmall, StrengthBig),
                             off, Band(off, GoalsSmall, GoalsBig),
                             def, Band(def, GoalsSmall, GoalsBig),
                             (isHome && diff > 0.0) || (!isHome && diff < 0.0)))
  }

  /** Relevance is high exactly when the team is better at the venue it
      plays this match at; a team with equal home and away win rates is
      never highly relevant, and only the fixture's home team can be for a
      positive difference. */
  lemma HomeAwayProperties(teamForm: map<string, ProcessedForm>, homeTeam: string, team: string)
    ensures HomeAwayOf(teamForm, homeTeam, team).Ok? <==>
      team in teamForm && teamForm[team].stats.Some? && teamForm[team].stats.value != map[]
    ensures HomeAwayOf(teamForm, homeTeam, team).Ok? ==>
      var p := HomeAwayOf(teamForm, homeTeam, team).value;
      var st := teamForm[team].stats.value;
      p.homeAwayDifference == GetNested(st, "win_percentage", "home", 0.0) - GetNested(st, "win_percentage", "away", 0.0)
      && (p.highRelevance <==> ((team == homeTeam && p.homeAwayDifference > 0.0) || (team != homeTeam && p.homeAwayDifference < 0.0)))
      && (p.homeAwayDifference == 0.0 ==> !p.highRelevance)
      && (p.homeAwayDifference >= StrengthSmall && team == homeTeam ==> p.highRelevance)
      && (p.strength == MirrorLean(Band(-p.homeAwayDifference, StrengthSmall, StrengthBig)))
  {
    if HomeAwayOf(teamForm, homeTeam, team).Ok? {
      var p := HomeAwayOf(teamForm, homeTeam, team).value;
      BandProperties(-p.homeAwayDifference, StrengthSmall, StrengthBig);
    }
  }

  // ---------------------------------------------------------------------
  // Comparison of the two teams (lines 295-439)
  // ---------------------------------------------------------------------

  datatype Side = HomeSide | AwaySide | Even

  function MirrorSide(s: Side): Side {
    match s
    case HomeSide => AwaySide
    case AwaySide => HomeSide
    case Even => Even
  }

  /** Who holds an advantage and whether it is the stronger one ("muito
      significativa" for momentum, "significativa" for attack and
      defence). */
  datatype Advantage = Advantage(side: Side, strong: bool)

  function MirrorAdvantage(a: Advantage): Advantage {
    Advantage(MirrorSide(a.side), a.strong)
  }

  /** The advantage ladder on a score difference: at least `big` either
      way is strong, at least 1 is an advantage, otherwise balanced. */
  function AdvantageOf(difference: int, big: int): Advantage {
    if difference >= big then Advantage(HomeSide, true)
    else if difference >= 1 then Advantage(HomeSide, false)
    else if difference <= -big then Advantage(AwaySide, true)
    else if difference <= -1 then Advantage(AwaySide, false)
    else Advantage(Even, false)
  }

  const MomentumBig := 3
  const RatingBig := 2

  /** The `momentum_advantage` text. */
  function MomentumText(a: Advantage, homeTeam: string, awayTeam: string): string {
    match a.side
    case HomeSide => homeTeam + (if a.strong then " (vantagem muito significativa)" else " (vantagem significativa)")
    case AwaySide => awayTeam + (if a.strong then " (vantagem muito significativa)" else " (vantagem significativa)")
    case Even => "Equilibrado"
  }

  /** The trend ladder: an improving team against a non-improving one
      first, then a worsening team against a non-worsening one. */
  function TrendAdvantage(home: Trend, away: Trend): Side {
    if home == Trend.Melhorando && away != Trend.Melhorando then HomeSide
    else if away == Trend.Melhorando && home != Trend.Melhorando then AwaySide
    else if home == Trend.Piorando && away != Trend.Piorando then AwaySide
    else if away == Trend.Piorando && home != Trend.Piorando then HomeSide
    else Even
  }

  datatype DirectForm = DirectForm(
    homeWins: nat,
    awayWins: nat,
    winsDifference: int,
    homeScored: real,
    awayScored: real,
    scoredDifference: real,
    homeConceded: real,
    awayConceded: real,
    concededDifference: real)

  datatype FormComparison = FormComparison(
    home: TeamMomentum,
    away: TeamMomentum,
    momentumDifference: int,
    momentum: Advantage,
    trend: Side,
    offensiveDifference: int,
    offensive: Advantage,
    defensiveDifference: int,
    defensive: Advantage,
    direct: DirectForm)

  /** The comparison of two momentum analyses, home first. */
  function CompareMomenta(h: TeamMomentum, a: TeamMomentum): FormComparison {
    var md := LevelScore(h.level) - LevelScore(a.level);
    var od := RatingRank(h.offensive) - RatingRank(a.offensive);
    var dd := RatingRank(h.defensive) - RatingRank(a.defensive);
    FormComparison(h, a, md, AdvantageOf(md, MomentumBig), TrendAdvantage(h.trend, a.trend),
                   od, AdvantageOf(od, RatingBig), dd, AdvantageOf(dd, RatingBig),
                   DirectForm(h.wins, a.wins, h.wins - a.wins,
                              h.avgGoalsScored, a.avgGoalsScored, h.avgGoalsScored - a.avgGoalsScored,
                              h.avgGoalsConceded, a.avgGoalsConceded, a.avgGoalsConceded - h.avgGoalsConceded))
  }

  /** `compare_teams_form()`: an error when either team's momentum is. */
  function CompareTeamsForm(teamForm: map<string, ProcessedForm>, homeTeam: string, awayTeam: string): Result<FormComparison> {
    var h := TeamMomentumOf(teamForm, homeTeam);
    var a := TeamMomentumOf(teamForm, awayTeam);
    if h.Err? || a.Err? then Err(CannotCompare) else Ok(CompareMomenta(h.value, a.value))
  }

  /** Swapping the two teams negates every difference and mirrors every
      advantage; a positive conceded difference means the home team
      concedes less. */
  lemma CompareSwap(h: TeamMomentum, a: TeamMomentum)
    ensures CompareMomenta(a, h).momentumDifference == -CompareMomenta(h, a).momentumDifference
    ensures CompareMomenta(a, h).momentum == MirrorAdvantage(CompareMomenta(h, a).momentum)
    ensures CompareMomenta(a, h).trend == MirrorSide(CompareMomenta(h, a).trend)
    ensures CompareMomenta(a, h).offensive == MirrorAdvantage(CompareMomenta(h, a).offensive)
    ensures CompareMomenta(a, h).defensive == MirrorAdvantage(CompareMomenta(h, a).defensive)
    ensures CompareMomenta(a, h).direct.winsDifference == -CompareMomenta(h, a).direct.winsDifference
    ensures CompareMomenta(a, h).direct.concededDifference == -CompareMomenta(h, a).direct.concededDifference
    ensures CompareMomenta(h, a).direct.concededDifference > 0.0 <==> h.avgGoalsConceded < a.avgGoalsConceded
  {
  }

  /** Only momentum scores that differ give an advantage, and a strong one
      needs a gap of at least three levels' worth of score. */
  lemma MomentumAdvantageProperties(h: TeamMomentum, a: TeamMomentum)
    ensures CompareMomenta(h, a).momentum.side == Even <==> h.level == a.level || LevelScore(h.level) == LevelScore(a.level)
    ensures CompareMomenta(h, a).momentum.strong ==> LevelScore(h.level) - LevelScore(a.level) >= 3 || LevelScore(a.level) - LevelScore(h.level) >= 3
  {
  }

  // ---------------------------------------------------------------------
  // Match context (lines 441-550)
  // ---------------------------------------------------------------------

  /** The factor a `home_away_strength` contributes, as written: 1 when the
      text contains "melhor em casa", one more when it also contains
      "Muito". The test is case-sensitive. */
  function HomeFactorAsWritten(strength: string): nat {
    if Contains(strength, "melhor em casa") then 1 + (if Contains(strength, "Muito") then 1 else 0) else 0
  }

  /** "Melhor em casa" begins with a capital letter, so a team that is
      only better at home contributes nothing. */
  lemma HomeFactorAsWrittenMissesBetterAtHome()
    ensures HomeFactorAsWritten(StrengthLabel(Lean.MelhorEmCasa)) == 0
    ensures HomeFactorAsWritten(StrengthLabel(Lean.MuitoMelhorEmCasa)) == 2
  {
    assert "Melhor em casa"[0] != "melhor em casa"[0];
    forall i ensures !OccursAt("Melhor em casa", "melhor em casa", i) {}
    assert OccursAt("Muito melhor em casa", "melhor em casa", 6);
    assert OccursAt("Muito melhor em casa", "Muito", 0);
  }

  /** On the five `home_away_strength` texts the factor as written is 2
      for "Muito melhor em casa" and 0 for every other text. */
  lemma HomeFactorAsWrittenLabels(l: Lean)
    ensures HomeFactorAsWritten(StrengthLabel(l)) == if l == Lean.MuitoMelhorEmCasa then 2 else 0
  {
    match l
    case MuitoMelhorEmCasa => HomeFactorAsWrittenMissesBetterAtHome();
    case MelhorEmCasa => HomeFactorAsWrittenMissesBetterAtHome();
    case Equilibrado =>
    case MelhorFora =>
    case MuitoMelhorFora =>
      forall i ensures !OccursAt("Muito melhor fora", "melhor em casa", i) {
        if 0 <= i <= 3 {
          assert "Muito melhor fora"[i] != "melhor em casa"[0];
        }
      }
  }

  /** The home factor of a lean: 2 for much better at home, 1 for better
      at home, 0 otherwise. */
  function HomeFactor(l: Lean): (f: nat)
    ensures f <= 2
    ensures f > 0 <==> l in {Lean.MuitoMelhorEmCasa, Lean.MelhorEmCasa}
  {
    match l
    case MuitoMelhorEmCasa => 2
    case MelhorEmCasa => 1
    case _ => 0
  }

  /** The factor grows with the home-minus-away win difference. */
  lemma HomeFactorMonotone(d1: real, d2: real)
    requires d1 <= d2
    ensures HomeFactor(Band(d1, StrengthSmall, StrengthBig)) <= HomeFactor(Band(d2, StrengthSmall, StrengthBig))
  {
  }

  datatype FavoriteStrength = ForteFavorito | Favorito | LeveFavorito

  /** The favourite and its strength as written: the momentum text is
      searched for each team's name and for the words of its strength. */
  function FavoriteAsWritten(momentumText: string, total: nat, homeTeam: string, awayTeam: string): (Option<string>, FavoriteStrength) {
    var veryStrong := Contains(momentumText, "muito significativa");
    var strong := Contains(momentumText, "significativa");
    if Contains(momentumText, homeTeam) && total >= 2 then
      (Some(homeTeam), if veryStrong then ForteFavorito else if strong then Favorito else LeveFavorito)
    else if Contains(momentumText, awayTeam) && total <= 1 then
      (Some(awayTeam), if veryStrong && total == 0 then ForteFavorito
                       else if strong || total == 0 then Favorito else LeveFavorito)
    else if total >= 3 then (Some(homeTeam), Favorito)
    else if total >= 2 then (Some(homeTeam), LeveFavorito)
    else if Contains(momentumText, homeTeam) then (Some(homeTeam), LeveFavorito)
    else if Contains(momentumText, awayTeam) then (Some(awayTeam), LeveFavorito)
    else (Some(homeTeam), LeveFavorito)
  }

  /** There is always a favourite, one of the two teams; from a total of 2
      it is the home team, so the away team needs a total of at most 1;
      and "Forte favorito" needs "muito significativa" in the momentum
      text. */
  lemma FavoriteAsWrittenProperties(momentumText: string, total: nat, homeTeam: string, awayTeam: string)
    requires homeTeam != awayTeam
    ensures FavoriteAsWritten(momentumText, total, homeTeam, awayTeam).0.Some?
    ensures FavoriteAsWritten(momentumText, total, homeTeam, awayTeam).0.value in {homeTeam, awayTeam}
    ensures total >= 2 ==> FavoriteAsWritten(momentumText, total, homeTeam, awayTeam).0 == Some(homeTeam)
    ensures FavoriteAsWritten(momentumText, total, homeTeam, awayTeam).0 == Some(awayTeam) ==>
      total <= 1 && Contains(momentumText, awayTeam)
    ensures FavoriteAsWritten(momentumText, total, homeTeam, awayTeam).1 == ForteFavorito ==>
      Contains(momentumText, "muito significativa") && (total >= 2 || total == 0)
  {
  }

  /** When the momentum text names exactly the side that holds the
      advantage, and carries "significativa" and "muito significativa"
      exactly for an advantage and a strong one, the favourite as written
      is the corrected one. */
  lemma FavoriteAsWrittenAgrees(adv: Advantage, total: nat, homeTeam: string, awayTeam: string)
    requires var text := MomentumText(adv, homeTeam, awayTeam);
      (Contains(text, homeTeam) <==> adv.side == HomeSide)
      && (Contains(text, awayTeam) <==> adv.side == AwaySide)
      && (Contains(text, "significativa") <==> adv.side != Even)
      && (Contains(text, "muito significativa") <==> adv.side != Even && adv.strong)
    ensures FavoriteAsWritten(MomentumText(adv, homeTeam, awayTeam), total, homeTeam, awayTeam)
      == Favorite(adv, total, homeTeam, awayTeam)
  {
  }

  /** When the away team's name is part of the home team's, a home
      momentum advantage without home factor makes the away team the
      favourite. */
  lemma FavoriteAsWrittenNameClash()
    ensures FavoriteAsWritten(MomentumText(Advantage(HomeSide, false), "Sport Recife", "Sport"), 0,
                              "Sport Recife", "Sport").0 == Some("Sport")
    ensures Favorite(Advantage(HomeSide, false), 0, "Sport Recife", "Sport").0 == Some("Sport Recife")
  {
    var text := MomentumText(Advantage(HomeSide, false), "Sport Recife", "Sport");
    assert OccursAt(text, "Sport", 0);
  }

  /** The favourite decided on the momentum advantage itself rather than
      on names found in its text. Both away texts contain "significativa",
      so an away favourite is at least "Favorito". */
  function Favorite(adv: Advantage, total: nat, homeTeam: string, awayTeam: string): (Option<string>, FavoriteStrength) {
    if adv.side == HomeSide && total >= 2 then
      (Some(homeTeam), if adv.strong then ForteFavorito else Favorito)
    else if adv.side == AwaySide && total <= 1 then
      (Some(awayTeam), if adv.strong && total == 0 then ForteFavorito else Favorito)
    else if total >= 3 then (Some(homeTeam), Favorito)
    else if total >= 2 then (Some(homeTeam), LeveFavorito)
    else if adv.side == HomeSide then (Some(homeTeam), LeveFavorito)
    else if adv.side == AwaySide then (Some(awayTeam), LeveFavorito)
    else (Some(homeTeam), LeveFavorito)
  }

  /** There is always a favourite, one of the two teams. The away team is
      it exactly when it holds the momentum and the home factors add up to
      at most 1; "Forte favorito" needs the strong momentum advantage. */
  lemma FavoriteProperties(adv: Advantage, total: nat, homeTeam: string, awayTeam: string)
    requires homeTeam != awayTeam
    ensures Favorite(adv, total, homeTeam, awayTeam).0.Some?
    ensures Favorite(adv, total, homeTeam, awayTeam).0.value in {homeTeam, awayTeam}
    ensures Favorite(adv, total, homeTeam, awayTeam).0 == Some(awayTeam) <==> adv.side == AwaySide && total <= 1
    ensures Favorite(adv, total, homeTeam, awayTeam).1 == ForteFavorito ==>
      adv.strong && ((adv.side == HomeSide && total >= 2) || (adv.side == AwaySide && total == 0))
    ensures adv.side == Even ==> Favorite(adv, total, homeTeam, awayTeam).0 == Some(homeTeam)
  {
  }

  datatype Btts = Provavel | Possivel | Improvavel

  datatype Pattern =
    | OpenBothScore       // muitos gols e ambas equipes marcando
    | OpenOneSided        // muitos gols, possivelmente concentrados
    | ModerateBothScore   // gols moderados e ambas equipes marcando
    | ModerateOneSided    // gols moderados, possivelmente concentrados
    | FewBothScore        // poucos gols, mas ambas equipes marcando
    | Closed              // jogo fechado com poucos gols

  function ExpectedBtts(h: TeamMomentum, a: TeamMomentum): Btts {
    if h.failedToScorePercentage > 40.0 || a.failedToScorePercentage > 40.0 then Improvavel
    else if h.avgGoalsScored > 1.0 && a.avgGoalsScored > 1.0 then Provavel
    else Possivel
  }

  function ExpectedPattern(goals: real, btts: Btts): Pattern {
    if goals >= 3.0 && btts == Provavel then OpenBothScore
    else if goals >= 3.0 then OpenOneSided
    else if goals >= 2.5 && btts == Provavel then ModerateBothScore
    else if goals >= 2.5 then ModerateOneSided
    else if btts == Provavel then FewBothScore
    else Closed
  }

  datatype MatchContext = MatchContext(
    homeMomentum: TeamMomentum,
    awayMomentum: TeamMomentum,
    homeHomeAway: HomeAwayPerformance,
    awayHomeAway: HomeAwayPerformance,
    comparison: FormComparison,
    totalHomeAdvantage: nat,
    favoriteTeam: Option<string>,
    favoriteStrength: FavoriteStrength,
    expectedGoals: real,
    expectedBtts: Btts,
    expectedPattern: Pattern)

  /** The total home advantage: the home team's factor plus the away
      team's (an away side that is better at home is weaker here), both
      read from the strength texts as written; the favourite is then picked
      from the momentum text as written. */
  function ContextOf(h: TeamMomentum, a: TeamMomentum, hh: HomeAwayPerformance, ah: HomeAwayPerformance,
                     homeTeam: string, awayTeam: string): MatchContext {
    var comparison := CompareMomenta(h, a);
    var total := HomeFactorAsWritten(StrengthLabel(hh.strength)) + HomeFactorAsWritten(StrengthLabel(ah.strength));
    var (team, strength) := FavoriteAsWritten(MomentumText(comparison.momentum, homeTeam, awayTeam), total, homeTeam, awayTeam);
    var goals := (h.avgGoalsScored + a.avgGoalsConceded + a.avgGoalsScored + h.avgGoalsConceded) / 2.0;
    var btts := ExpectedBtts(h, a);
    MatchContext(h, a, hh, ah, comparison, total, team, strength, goals, btts, ExpectedPattern(goals, btts))
  }

  /** `analyze_match_context()`: both momentum and both home/away analyses
      must succeed. */
  function MatchContextOf(teamForm: map<string, ProcessedForm>, homeTeam: string, awayTeam: string): Result<MatchContext> {
    var h := TeamMomentumOf(teamForm, homeTeam);
    var a := TeamMomentumOf(teamForm, awayTeam);
    if h.Err? || a.Err? then Err(NoContext)
    else
      var hh := HomeAwayOf(teamForm, homeTeam, homeTeam);
      var ah := HomeAwayOf(teamForm, homeTeam, awayTeam);
      if hh.Err? || ah.Err? then Err(NoContext)
      else Ok(ContextOf(h.value, a.value, hh.value, ah.value, homeTeam, awayTeam))
  }

  /** The context exists exactly when both teams have form data and
      non-empty stats. Its favourite is one of the two teams; the
      expected goals are the mean of the two attack-against-defence sums
      and do not depend on which team is at home; BTTS is "Improvável"
      exactly when either team failed to score in more than 40% of its
      matches; and an open-game pattern means at least three goals are
      expected. */
  lemma MatchContextProperties(teamForm: map<string, ProcessedForm>, homeTeam: string, awayTeam: string)
    requires homeTeam != awayTeam
    ensures MatchContextOf(teamForm, homeTeam, awayTeam).Ok? <==>
      homeTeam in teamForm && awayTeam in teamForm
      && teamForm[homeTeam].stats.Some? && teamForm[homeTeam].stats.value != map[]
      && teamForm[awayTeam].stats.Some? && teamForm[awayTeam].stats.value != map[]
    ensures MatchContextOf(teamForm, homeTeam, awayTeam).Ok? ==>
      var c := MatchContextOf(teamForm, homeTeam, awayTeam).value;
      var h := c.homeMomentum;
      var a := c.awayMomentum;
      c.expectedGoals == (h.avgGoalsScored + a.avgGoalsConceded) / 2.0 + (a.avgGoalsScored + h.avgGoalsConceded) / 2.0
      && c.expectedGoals == ContextOf(a, h, c.awayHomeAway, c.homeHomeAway, awayTeam, homeTeam).expectedGoals
      && c.expectedBtts == ContextOf(a, h, c.awayHomeAway, c.homeHomeAway, awayTeam, homeTeam).expectedBtts
      && (c.expectedBtts == Improvavel <==> h.failedToScorePercentage > 40.0 || a.failedToScorePercentage > 40.0)
      && (c.expectedBtts == Provavel ==> h.avgGoalsScored > 1.0 && a.avgGoalsScored > 1.0)
      && (c.expectedPattern in {OpenBothScore, OpenOneSided} <==> c.expectedGoals >= 3.0)
  {
  }

  /** The total home advantage counts 2 for each team whose strength text
      is "Muito melhor em casa" and nothing for any other text; the
      favourite is one of the two teams, the home team from a total of 2,
      so an away favourite needs a total of 0. */
  lemma ContextFavorite(h: TeamMomentum, a: TeamMomentum, hh: HomeAwayPerformance, ah: HomeAwayPerformance,
                        homeTeam: string, awayTeam: string)
    requires homeTeam != awayTeam
    ensures var c := ContextOf(h, a, hh, ah, homeTeam, awayTeam);
      c.totalHomeAdvantage == (if hh.strength == Lean.MuitoMelhorEmCasa then 2 else 0)
                              + (if ah.strength == Lean.MuitoMelhorEmCasa then 2 else 0)
      && c.favoriteTeam.Some? && c.favoriteTeam.value in {homeTeam, awayTeam}
      && (c.totalHomeAdvantage >= 2 ==> c.favoriteTeam == Some(homeTeam))
      && (c.favoriteTeam == Some(awayTeam) ==> c.totalHomeAdvantage == 0)
  {
    var c := ContextOf(h, a, hh, ah, homeTeam, awayTeam);
    HomeFactorAsWrittenLabels(hh.strength);
    HomeFactorAsWrittenLabels(ah.strength);
    FavoriteAsWrittenProperties(MomentumText(c.comparison.momentum, homeTeam, awayTeam), c.totalHomeAdvantage, homeTeam, awayTeam);
  }

  /** Both venue strengths "Melhor em casa" add nothing, so an away
      momentum advantage makes the away team the favourite. */
  lemma ContextAwayFavoriteDespiteHomeLean(h: TeamMomentum, a: TeamMomentum, hh: HomeAwayPerformance, ah: HomeAwayPerformance)
    requires hh.strength == Lean.MelhorEmCasa && ah.strength == Lean.MelhorEmCasa
    requires LevelScore(a.level) > LevelScore(h.level)
    ensures ContextOf(h, a, hh, ah, "Bahia", "Vitória").totalHomeAdvantage == 0
    ensures ContextOf(h, a, hh, ah, "Bahia", "Vitória").favoriteTeam == Some("Vitória")
    ensures Favorite(CompareMomenta(h, a).momentum, 2, "Bahia", "Vitória").0 == Some("Bahia")
  {
    HomeFactorAsWrittenMissesBetterAtHome();
    var text := MomentumText(CompareMomenta(h, a).momentum, "Bahia", "Vitória");
    assert text == "Vitória" + text[|"Vitória"|..];
    ContainsPrefix("Vitória", text[|"Vitória"|..]);
  }
}
