# Football match statistics: a verified model

This project models the analytical core of a football-statistics tool
that turns the figures scraped from a match-preview page into predictions
and verdicts. The modelled parts:

- **Scoreline models** (`analyzers/prediction_models.py`):
  - an independent-Poisson model over a 10×10 table of scorelines;
  - a variant whose expected goals are blended with the head-to-head record;
  - a hand-weighted softmax model;
  - an ensemble that renormalises the weights of the models that succeeded.
- **Data processing** (`utils/data_processor.py`):
  - head-to-head and team-form counting;
  - table percentiles and the comparison of the two teams;
  - the in-place league comparison of the general predictions.
- **Rule-based analysers** (`analyzers/head_to_head.py`, `analyzers/recent_form.py`, `analyzers/table_positions.py`, `analyzers/text_predictions.py`): their threshold ladders, counting loops, error gating and fallbacks.

Numbers are Dafny `real`s, and counts are `nat`s. The functions `exp` and
`poisson.pmf` cannot be computed over the reals, so they are handled like this:

- `exp` is a parameter with the properties the proofs need (`ValidExp`: positive, 1 at 0, at most 1 on non-positive arguments).
- The pmf is the recurrence p(0) = e^-λ, p(k+1) = p(k)·λ/(k+1).
- The softmax exponentials are opaque positive reals.

Modules, one per source file plus a shared vocabulary:

| module | file | models |
|---|---|---|
| `Common` | `common.dfy` | Option/Result, the match record, `dict.get` with defaults, sums, means, percentages, counting |
| `ScoreTable` | `score_table.dfy` | the pmf table, the score matrix, outcome regions, goal lines, BTTS, the top five |
| `PredictionModels` | `prediction_models.dfy` | the four models of `analyzers/prediction_models.py` |
| `DataProcessor` | `data_processor.dfy` | `utils/data_processor.py` |
| `HeadToHead` | `head_to_head.dfy` | `analyzers/head_to_head.py` |
| `RecentForm` | `recent_form.dfy` | `analyzers/recent_form.py` |
| `TablePositions` | `table_positions.dfy` | `analyzers/table_positions.py` |
| `TextPredictions` | `text_predictions.dfy` | the rule-based part of `analyzers/text_predictions.py` |

Where the source builds a value in a loop (the score matrix, the sorting of
the top scores, the head-to-head goal lists, the ensemble accumulators, the
counters of the processor and of the analysers), the loop is a `method`. Each
such method is proved equal to a specification function, and the properties
are lemmas about that function. The `general` predictions dictionary, which
`process_predictions` updates in place, is the class
`DataProcessor.GeneralPredictions`. The rest is functions and lemmas.

The model follows the code, defects included. The Poisson goal lines are
meant to be 1 − P(total goals ≤ k), which never increases with k. Lines
103-104 of `analyzers/prediction_models.py` do not compute that. They are
modelled as written, and the counterexample is in the findings below. The
same holds for every finding: the analyses (`MarketsOf`, `HomeAwayFactorOf`,
`TeamMomentumOf`, `ContextOf`, `HomeAwayTables`) compute what the program
computes, defects included, and each finding's corrected member stands
beside them with the intended property proved about it. No analysis calls a
corrected member.

## Model

| member | source | states |
|---|---|---|
| ScoreTable.PmfNonNegative | analyzers/prediction_models.py:86-87 | every Poisson probability of the recurrence is non-negative for a non-negative rate |
| ScoreTable.PmfAtZeroRate | analyzers/prediction_models.py:86-87 | with expected goals 0, every score above 0 has probability 0 |
| ScoreTable.OuterTotal | analyzers/prediction_models.py:90-93 | the score matrix sums to the product of the two marginal sums |
| ScoreTable.OuterNonNegative | analyzers/prediction_models.py:90-93 | a matrix built from non-negative marginals is non-negative |
| ScoreTable.OutcomesPartition | analyzers/prediction_models.py:94-98 | home win (i>j), draw (i=j) and away win (i<j) add up to the sum of all cells |
| ScoreTable.BttsFactors | analyzers/prediction_models.py:107 | 1 − h0 − a0 + h0·a0 factors as (1 − h0)(1 − a0), lies in [0,1] for h0, a0 in [0,1], and is 0 when either is 1 |
| ScoreTable.OverLinesDecreasing | analyzers/prediction_models.py:101-103 | on a non-negative table the as-written over 0.5 ≥ over 1.5 ≥ over 2.5 |
| ScoreTable.Over25MinusOver35 | analyzers/prediction_models.py:103-104 | the exact difference of the two as-written lines: row 2 beyond column 2, plus column 2 below row 2, minus cells (1,2) and (2,1) |
| ScoreTable.Over25BelowOver35AtHalf | analyzers/prediction_models.py:103-104 | with expected goals 0.5 on both sides, the as-written over 2.5 is below over 3.5 |
| ScoreTable.OverLineDecreasing | analyzers/prediction_models.py:101-104 | the lines 1 − P(total goals ≤ k) never increase with k on a non-negative table |
| ScoreTable.FirstLinesAgree | analyzers/prediction_models.py:101-102 | the as-written over 0.5 and over 1.5 equal the total-goals lines for k = 0 and 1 |
| ScoreTable.SortDescPermutes | analyzers/prediction_models.py:115 | the stable descending sort is a permutation of the cells |
| ScoreTable.SortDescRanked | analyzers/prediction_models.py:115 | sorting cells in scan order gives non-increasing probabilities, ties kept in scan order |
| ScoreTable.TopFiveProperties | analyzers/prediction_models.py:110-116 | five entries, all from the table, in non-increasing probability with ties in row-major order; no omitted cell exceeds the fifth |
| ScoreTable.FillScoreMatrix | analyzers/prediction_models.py:90-93 | the nested loops leave hp[i]·ap[j] in every cell (i,j) |
| ScoreTable.CollectCells | analyzers/prediction_models.py:110-113 | the double loop lists the cells in row-major order |
| ScoreTable.InsertInPlace | analyzers/prediction_models.py:115 | one insertion step puts a[i] into the sorted prefix and leaves the rest alone |
| ScoreTable.SortInPlace | analyzers/prediction_models.py:115 | the in-place sort leaves the stable descending order of the old contents |
| PredictionModels.LeagueDivisors | analyzers/prediction_models.py:63-73 | the divisors are 0.55 and 0.45 times a positive league average, else 1.5 and 1.2; never zero |
| PredictionModels.ExpectedGoalsProperties | analyzers/prediction_models.py:56-81 | home xG = attack·opponent defence/league away goals·1.2, away xG = attack·opponent defence/league home goals; both ≥ 0 for non-negative rates |
| PredictionModels.PoissonModelGates | analyzers/prediction_models.py:43-55 | the model fails exactly when either team's form entry or its stats are empty, with the message of that case |
| PredictionModels.PoissonFromRatesParts | analyzers/prediction_models.py:84-131 | the result holds the markets, matrix and top five of the two pmf tables |
| PredictionModels.PmfTableNonNegative | analyzers/prediction_models.py:86-87 | every pmf entry is non-negative |
| PredictionModels.PoissonMargin | analyzers/prediction_models.py:86-87 | the table has 10 entries starting with e^-λ in (0,1], and starts with 1 when λ is 0 |
| PredictionModels.MarketsOutcomesPartition | analyzers/prediction_models.py:94-98 | home win + draw + away win is 100 times the total mass of the table |
| PredictionModels.MarketsBtts | analyzers/prediction_models.py:107 | BTTS is (1 − hp0)(1 − ap0)·100 and lies in [0,100] |
| PredictionModels.BttsZeroAtZeroRate | analyzers/prediction_models.py:86-107 | BTTS is 0 when either expected-goals value is 0 |
| PredictionModels.BttsCertainNil | analyzers/prediction_models.py:86-107 | BTTS is 0 when either team's zero-goal probability e^-λ is 1 |
| PredictionModels.MarketsOrdered | analyzers/prediction_models.py:94-103 | the outcome probabilities are non-negative and over 0.5 ≥ over 1.5 ≥ over 2.5 |
| PredictionModels.TopScoresProperties | analyzers/prediction_models.py:110-129 | five "h-a" scorelines in non-increasing percentage, each a table cell in percent, none omitted above the fifth |
| PredictionModels.AdjustedPoissonProperties | analyzers/prediction_models.py:143-186 | fails iff the base model fails; returns it unchanged without meetings; otherwise xG is 0.5·base + 0.5·(meeting mean) and the markets are recomputed from it |
| PredictionModels.BlendBetween | analyzers/prediction_models.py:182-186 | the blended expected goals lie between the form value and the head-to-head mean |
| PredictionModels.CollectH2HGoals | analyzers/prediction_models.py:156-171 | the loop credits each side with its own score, swapping the scores when the fixture's home team played away |
| PredictionModels.PositionNormProperties | analyzers/prediction_models.py:283-284 | 1 − pos/total lies in [0,1) for a valid position and decreases with the position; 0.5 without a total |
| PredictionModels.SoftmaxDistribution | analyzers/prediction_models.py:302-309 | the three softmax probabilities lie in (0,1) and sum to 1 |
| PredictionModels.ClosedFormOverDecreasing | analyzers/prediction_models.py:318-323 | the closed-form over lines are non-increasing for a non-negative total rate |
| PredictionModels.LogisticMarketsProperties | analyzers/prediction_models.py:302-325 | the outcome percentages lie in (0,100) and sum to 100, BTTS is the product form, and the over lines are ordered |
| PredictionModels.GatesAgree | analyzers/prediction_models.py:254-262 | the softmax model fails exactly when the Poisson model does, and uses the position norm of the table entry |
| PredictionModels.BaseWeight | analyzers/prediction_models.py:375-379 | every fixed model weight is positive |
| PredictionModels.ModelsUsedProperties | analyzers/prediction_models.py:363-372 | a model is used iff it succeeded, in the order poisson, adjusted, logistic; none used iff all failed |
| PredictionModels.NormalizedWeightsSumToOne | analyzers/prediction_models.py:375-383 | the normalised weights cover exactly the used models, each is its fixed weight over the total fixed weight of the used models (so positive), and they sum to 1 |
| PredictionModels.AllModelsWeights | analyzers/prediction_models.py:375-383 | with all three models used, the weights stay 0.3, 0.5 and 0.2 |
| PredictionModels.NormalizedWeightsExample | analyzers/prediction_models.py:375-383 | an illustration of the renormalisation on a subset the ensemble never produces: poisson and logistic alone would get weights 0.6 and 0.4 |
| PredictionModels.CombineOutcomes | analyzers/prediction_models.py:386-403 | the combined home-win, draw and away-win probabilities add up to the weighted sum of each part's, for any parts and weights |
| PredictionModels.CombineMarkets | analyzers/prediction_models.py:386-447 | the += accumulators compute the weighted combination of the markets |
| PredictionModels.EnsembleUsedModels | analyzers/prediction_models.py:363-383 | the ensemble fails iff all three models fail; otherwise all three are used and the weights sum to 1 |
| PredictionModels.EnsembleOfParts | analyzers/prediction_models.py:363-447 | once the models have run, the ensemble fails iff none succeeded (with the all-failed error); otherwise it reports the successful models in order, their renormalised weights and the weighted combination of their markets |
| PredictionModels.EnsembleOfAllOrNone | analyzers/prediction_models.py:363-383 | when the three models succeed or fail together, the ensemble fails iff they do and otherwise uses all three with weights covering exactly them and summing to 1 |
| PredictionModels.PartsOutcomes | analyzers/prediction_models.py:386-403 | with all three models present, the combined outcomes are the weights times each model's outcomes |
| PredictionModels.EnsembleOfOutcomes | analyzers/prediction_models.py:363-403 | once all three models have succeeded, the ensemble's outcomes are 0.3, 0.5 and 0.2 times the Poisson, adjusted and softmax outcomes |
| PredictionModels.EnsembleOutcomes | analyzers/prediction_models.py:350-403 | a successful ensemble's outcomes are 0.3 × Poisson + 0.5 × adjusted + 20, the softmax model contributing 0.2 × 100 |
| PredictionModels.EnsembleTopScores | analyzers/prediction_models.py:449-481 | the ensemble's top five come from the table rebuilt on the combined expected goals |
| PredictionModels.BuildPoissonResult | analyzers/prediction_models.py:84-131 | the loop-built Poisson result equals its specification |
| PredictionModels.RunPoissonModel | analyzers/prediction_models.py:36-131 | the imperative Poisson model equals its specification |
| PredictionModels.RunAdjustedPoissonModel | analyzers/prediction_models.py:133-241 | the imperative adjusted model equals its specification |
| PredictionModels.RunEnsembleOf | analyzers/prediction_models.py:363-484 | the imperative combination step equals the ensemble specification for any three model results |
| PredictionModels.RunEnsembleModel | analyzers/prediction_models.py:350-484 | the imperative ensemble equals its specification |
| Common.FixtureGoals | utils/data_processor.py:61-68 | the fixture's home side is credited with the home score iff it hosted the match; the total is unchanged |
| Common.H2HGoalsAttribution | utils/data_processor.py:54-68 | entry k of each goal list is that side's score in match k |
| DataProcessor.IsOver25Threshold | utils/data_processor.py:73 | a match is over 2.5 iff at least 3 goals were scored |
| DataProcessor.ProcessHeadToHeadRecord | utils/data_processor.py:35-118 | none without data; percentages are count/total·100, and 0 when there are no matches; last five summarised |
| DataProcessor.LastMatchesBounds | utils/data_processor.py:70-83 | BTTS and over 2.5 percentages lie in [0,100]; everything is 0 for no matches |
| DataProcessor.LastMatchesResultsDisjoint | utils/data_processor.py:104-110 | with distinct teams, home wins + away wins + draws ≤ number of matches |
| DataProcessor.LastMatchesAverageTotal | utils/data_processor.py:77-79 | the average total is the sum of the two side averages |
| DataProcessor.ScanHeadToHead | utils/data_processor.py:48-74 | the loop yields the side-attributed goal lists, the totals and the BTTS and over-2.5 counts |
| DataProcessor.RunProcessHeadToHead | utils/data_processor.py:28-118 | the imperative processing equals its specification |
| DataProcessor.FormSummaryBounds | utils/data_processor.py:137-192 | W+D+L ≤ n, clean sheets and failures ≤ n, all percentages in [0,100], all zero for no matches |
| DataProcessor.FormSidesAttribution | utils/data_processor.py:146-165 | a clean sheet (failure to score) is read from the opponent's (own) score according to the venue |
| DataProcessor.ScanTeamMatches | utils/data_processor.py:141-165 | the loop yields the scored/conceded lists and the clean-sheet and failed-to-score counts |
| DataProcessor.RunSummarizeForm | utils/data_processor.py:133-192 | one team's imperative summary equals its specification |
| DataProcessor.RunProcessTeam | utils/data_processor.py:133-198 | one team's processed entry equals its specification |
| DataProcessor.RunProcessTeamForm | utils/data_processor.py:120-200 | the loop over all teams builds the map of processed entries |
| DataProcessor.PercentileProperties | utils/data_processor.py:220 | position 1 is the 100th percentile, 0 without a total, and a lower position never has a lower percentile |
| DataProcessor.PositionComparisonProperties | utils/data_processor.py:226-242 | the home difference is away − home and the negation of the away one; "higher ranked" iff the difference is > 0, never for both |
| DataProcessor.ProcessTablePositionsShape | utils/data_processor.py:202-266 | an entry per team, comparisons only for the two fixture teams, the direct comparison iff both are ranked and have stats |
| DataProcessor.LeagueComparisonsProperties | utils/data_processor.py:283-289 | an empty dict stays empty; otherwise the six *_vs_league keys are value − league average and the other keys are kept |
| DataProcessor.GeneralPredictions.AddLeagueComparisons | utils/data_processor.py:283-289 | the dict is updated in place to its league comparison |
| DataProcessor.ProcessPredictions | utils/data_processor.py:268-317 | the predictions are returned as given, with their general dict updated in place |
| HeadToHead.HistoricalDominanceLadder | analyzers/head_to_head.py:55-81 | significant iff ≥ 5 matches; a dominant team only when significant and ≥ 60% (home first); "Forte" iff ≥ 75%; otherwise draws or balance; the counts and percentages reported are the dictionary's, 0 where missing |
| HeadToHead.GoalPatternsProperties | analyzers/head_to_head.py:84-133 | fails iff no goal stats; high scoring (over 2.5 ≥ 60) and low scoring (≤ 40) never both hold; the pattern is a function of the three flags |
| HeadToHead.RecentDominanceLadder | analyzers/head_to_head.py:168-181 | home wins ≥ 4 gives Forte and 3 gives Moderado, before the away side; else draws ≥ 3 mean a draw tendency |
| HeadToHead.TrendChangedIff | analyzers/head_to_head.py:209-217 | the trend changed iff the historical and recent dominant teams differ, "none" counting as a value |
| HeadToHead.RecentTrendProperties | analyzers/head_to_head.py:135-234 | errors in source order; with recent matches the ladder and the trend-change flag follow |
| HeadToHead.HomeAwayFactorOnProcessedData | analyzers/head_to_head.py:246-248 | on processed data the factor always reports missing match details, even with recent matches |
| HeadToHead.HomeAwayFactorFromLastFive | analyzers/head_to_head.py:236-316 | read from the last-five list, the factor succeeds exactly when there are recent matches |
| HeadToHead.WinCountersDisjoint | analyzers/head_to_head.py:256-269 | each match bumps at most one of the four win counters |
| HeadToHead.FactorProperties | analyzers/head_to_head.py:256-281 | each win counter ≤ its games, percentages in [0,100] and 0 for no games |
| HeadToHead.HomeAdvantageProperties | analyzers/head_to_head.py:283-297 | significant iff either advantage > 20; a team only when its advantage strictly exceeds the other and 20 |
| HeadToHead.CountVenueWins | analyzers/head_to_head.py:256-269 | the loop computes the four win counts |
| HeadToHead.RunHomeAwayFactor | analyzers/head_to_head.py:236-316 | the imperative factor equals its specification |
| HeadToHead.CurrentDominantTeam | analyzers/head_to_head.py:421 | the recent dominant team when present, else the historical one |
| RecentForm.MomentumLadder | analyzers/recent_form.py:71-91 | each level's exact condition: ≥ 4 wins is Excelente; ≥ 4 losses is Muito Ruim only below 3 wins; and so on |
| RecentForm.LevelScores | analyzers/recent_form.py:309-321 | the momentum scores 5, 4, 3, 2, 2, 1, 0, −1, and 2 for an unknown label |
| RecentForm.MomentumMonotone | analyzers/recent_form.py:71-91 | one more win never lowers the momentum score; one more loss never raises it |
| RecentForm.RatingsMonotone | analyzers/recent_form.py:116-142 | more goals scored never lowers the attack rating; fewer conceded with more clean sheets never lowers the defence rating |
| RecentForm.FormPoints | analyzers/recent_form.py:98-105 | the points loop maps V to 3, E to 1, anything else to 0 |
| RecentForm.FormTrendAsWrittenPerfectRun | analyzers/recent_form.py:107-114 | the as-written halves call five wins in a row "Melhorando" |
| RecentForm.FormTrendStable | analyzers/recent_form.py:93-114 | the corrected trend over equal halves: under three results, or a constant run, it is "Estável" |
| RecentForm.FormTrendReverse | analyzers/recent_form.py:98-114 | reversing the sequence mirrors the corrected trend |
| RecentForm.FormTrendAsWrittenProperties | analyzers/recent_form.py:93-114 | the trend as written: "Estável" under three results; for an even length equal to the corrected trend and mirrored by reversal; a constant run is "Melhorando" exactly when it is an odd-length run of wins, otherwise "Estável" |
| RecentForm.ComputeTrend | analyzers/recent_form.py:93-114 | the points loop and the `points[:n//2]` / `points[n//2:]` halves give the trend as written |
| RecentForm.TeamMomentumProperties | analyzers/recent_form.py:29-163 | fails iff the team is unknown; otherwise the counts come from the last five, the level and ratings from their ladders, and the trend is the trend as written |
| RecentForm.RunTeamMomentum | analyzers/recent_form.py:29-163 | the imperative momentum analysis, trend as written, equals its specification |
| RecentForm.BandProperties | analyzers/recent_form.py:234-270 | the ±small/±big band is symmetric, balanced strictly inside the small band, home-sided iff ≥ small, "very" iff ≥ big |
| RecentForm.HomeAwayProperties | analyzers/recent_form.py:165-293 | fails iff the team or its stats are missing; the difference is home − away win%, and relevance is "Alta" iff its sign matches the team's side |
| RecentForm.CompareSwap | analyzers/recent_form.py:309-405 | swapping the teams negates the differences and mirrors every advantage |
| RecentForm.MomentumAdvantageProperties | analyzers/recent_form.py:320-335 | balanced iff equal scores; "muito significativa" only for a gap of 3 or more |
| RecentForm.HomeFactorAsWrittenMissesBetterAtHome | analyzers/recent_form.py:466-482 | as written, "Melhor em casa" contributes 0 while "Muito melhor em casa" contributes 2 |
| RecentForm.HomeFactorAsWrittenLabels | analyzers/recent_form.py:466-482 | on the five strength texts the factor as written is 2 for "Muito melhor em casa" and 0 for every other text |
| RecentForm.HomeFactor | analyzers/recent_form.py:466-482 | the corrected factor (not used by the context): at most 2, positive exactly for the two home-leaning bands |
| RecentForm.HomeFactorMonotone | analyzers/recent_form.py:234-245 | a larger home-minus-away difference never lowers the corrected factor |
| RecentForm.FavoriteAsWrittenNameClash | analyzers/recent_form.py:487-512 | as written, home "Sport Recife" and away "Sport" make "Sport" the favourite of a home advantage; the corrected choice is the home team |
| RecentForm.FavoriteProperties | analyzers/recent_form.py:487-512 | the corrected favourite (not used by the context): always one of the two teams; the away team exactly on an away advantage with total home factor ≤ 1; "Forte" only for a strong advantage |
| RecentForm.FavoriteAsWrittenProperties | analyzers/recent_form.py:487-512 | the favourite as written is always one of the two teams, the home team from a total of 2, the away team only with a total ≤ 1 and its name in the momentum text; "Forte favorito" needs "muito significativa" in the text |
| RecentForm.FavoriteAsWrittenAgrees | analyzers/recent_form.py:487-512 | when the momentum text names exactly the advantaged side and carries "significativa" / "muito significativa" exactly for an advantage / a strong one, the favourite as written equals the corrected one |
| RecentForm.MatchContextProperties | analyzers/recent_form.py:441-550 | fails iff a momentum or venue analysis fails; expected goals is half the sum of the four averages and symmetric in the teams; BTTS unlikely iff a failure rate > 40; an open game iff ≥ 3 goals |
| RecentForm.ContextFavorite | analyzers/recent_form.py:466-512 | the total home advantage counts 2 per "Muito melhor em casa" text and 0 for any other; the favourite is one of the two teams, the home team from a total of 2, so an away favourite needs total 0 |
| RecentForm.ContextAwayFavoriteDespiteHomeLean | analyzers/recent_form.py:466-512 | with both strengths "Melhor em casa" and an away momentum advantage the total is 0 and the away team is the favourite, while the corrected factors would make the home team the favourite |
| TablePositions.LadderProperties | analyzers/table_positions.py:59-71 | the symmetric ladders mirror under negation, are monotone, and are balanced exactly inside the first rung |
| TablePositions.QualityLevelRungs | analyzers/table_positions.py:59-71 | the quality level bands the position difference at ±2/±5/±10 |
| TablePositions.ClassifyPositionMonotone | analyzers/table_positions.py:74-86 | a larger position never gets a better zone |
| TablePositions.ClassifyPositionTwentyTeams | analyzers/table_positions.py:74-86 | in a 20-team table the zones are 1-3, 4-6, 7-10, 11-14, 15-17 and 18-20 |
| TablePositions.PercentileDifference | analyzers/table_positions.py:51-56 | the percentile difference is (away − home)·100/total, and position 1 is 100 |
| TablePositions.GeneralPositionsProperties | analyzers/table_positions.py:29-102 | fails without positions or either team; a division by zero for a zero total; otherwise differences and level as stated |
| TablePositions.AwaySpecificStrengthAsWrittenInverted | analyzers/table_positions.py:171-185 | the as-written away strength is the home ladder of the negated difference (3 for an away team worse away) |
| TablePositions.SpecificStrengthProperties | analyzers/table_positions.py:152-169 | the specific strength is monotone, odd, within ±3, zero iff the positions agree, and each rung holds exactly on its range: 3 from 5, 2 on 2..4, 1 at 1, and mirrored below 0 |
| TablePositions.HomeAwayTablesProperties | analyzers/table_positions.py:104-200 | fails iff a venue position is missing; the home strength is positive iff the home table is better than the general position; the away strength, as written, is positive iff the away table is worse, the corrected rung negated |
| TablePositions.PerformanceMetricsProperties | analyzers/table_positions.py:202-344 | fails iff there is no direct comparison; each advantage points to the better side; win% is balanced inside ±5 |
| TablePositions.ImportanceProperties | analyzers/table_positions.py:412-433 | importance is monotone in position; the top six fight for title or Europe; the last four below seventh fight relegation |
| TablePositions.BalanceMonotone | analyzers/table_positions.py:397-405 | a larger gap never gives a more balanced game |
| TablePositions.MatchQualitySymmetric | analyzers/table_positions.py:362-366 | mean position, gap, quality and balance do not depend on which team is at home |
| TablePositions.MatchQualityProperties | analyzers/table_positions.py:346-444 | succeeds iff the general analysis does; the gap is the absolute difference; a close game iff the gap ≤ 3 |
| TablePositions.InsightsGating | analyzers/table_positions.py:446-460 | the insights succeed iff all four analyses do; otherwise the fixed error |
| TextPredictions.CountPatternMatches | analyzers/text_predictions.py:86-95 | the loop adds up the matches of every pattern |
| TextPredictions.PredictedWinnerProperties | analyzers/text_predictions.py:97-118 | a strictly larger count decides; only a tie consults the general match, then the mentions; nothing found gives no favourite |
| TextPredictions.CorrectScoreProperties | analyzers/text_predictions.py:143-159 | after correction the difference is ≤ 3; the swap keeps the difference; a larger gap becomes 2-0, 0-2 or 1-1 by favourite |
| TextPredictions.CorrectScoreIdempotent | analyzers/text_predictions.py:143-159 | correcting a corrected score changes nothing |
| TextPredictions.SentimentProperties | analyzers/text_predictions.py:171-186 | "Equilibrado" iff the difference is 0; strong iff ≥ 3 either way; symmetric in the teams |
| TextPredictions.KeyPointsProperties | analyzers/text_predictions.py:188-197 | one key point per paragraph longer than 50 characters, each its first sentence |
| TextPredictions.CollectKeyPoints | analyzers/text_predictions.py:190-197 | the appending loop yields the key points |
| TextPredictions.GptAnalysisProperties | analyzers/text_predictions.py:30-211 | fails iff no predictions or no text; a corrected score iff one was parsed, with difference ≤ 3 |
| TextPredictions.TrendOfProperties | analyzers/text_predictions.py:285-355 | the five-band trend ladder is symmetric, monotone and "Na média" strictly inside the small band |
| TextPredictions.GeneralDefaults | analyzers/text_predictions.py:220-281 | missing predictions and an empty general dict give the same trends, those of the default table |
| TextPredictions.RecommendBands | analyzers/text_predictions.py:528-550 | the 65/55/35/45 bands partition the percentages and never recommend further against the line for a higher probability |
| TextPredictions.TendencyProperties | analyzers/text_predictions.py:638-678 | an outcome label exactly for a strict maximum, "Variável" exactly for a shared maximum |
| TextPredictions.FirstGoalProperties | analyzers/text_predictions.py:723-732 | the away team is recommended only when the home team is below 55 |
| TextPredictions.FirstHalfProperties | analyzers/text_predictions.py:680-689 | home win exactly on the home test (home win ≥ 50 and away loss ≥ 50), checked first; away win only when the home test fails; draw only when neither win test holds and both draw rates ≥ 50 |
| TextPredictions.DetailedDefaults | analyzers/text_predictions.py:406-495 | missing predictions and empty detailed sections give the same analysis, that of the default tables |
| TextPredictions.InsightSummaryProperties | analyzers/text_predictions.py:770-858 | a failed text analysis still gives the home team, 2-1 and no key points; at most three key points, a prefix of the analysis |

## Left out

- I/O, scraping and presentation are not part of this model: `utils/text_extractor.py`, `utils/visualizer.py`, `app.py` and `process_all_data`.
- String templating of every `generate_insights` and `run_complete_analysis`. Their verdicts are datatypes here, not Portuguese sentences, except where membership in a string is itself the logic (the two recent-form findings).
- Floating point. All arithmetic is over reals. One visible effect: `2.8 − 2.6` is exactly 0.2 here, so the default goals trend is "Acima da média", while in IEEE doubles it falls just short of 0.2.
- The values of `np.exp` and `poisson.pmf`. `exp` is a parameter, and the pmf is the exact recurrence. Because the table stops at 9 goals a side, the Poisson and adjusted models' outcome probabilities sum to 100 times the table's mass (`PredictionModels.MarketsOutcomesPartition`), not to 100. The ensemble's therefore sum to 0.3 and 0.5 times those plus 20 (`PredictionModels.EnsembleOutcomes`).
- Regular-expression matching, paragraph and sentence splitting, and the BTTS and over/under text mining of `analyze_gpt_analysis`. `TextPredictions.TextEvidence` holds what the patterns would find.
- `analyze_user_predictions`, a placeholder that returns a fixed message.
- The unused pandas DataFrames and the unused `LogisticRegression` import.
- Match records with missing keys. The model's match record has all four fields. The goal lists at `utils/data_processor.py:55-58` read a missing key as 0 or "". The last-five win and draw counters at lines 104-110 read the scores without a default, so a missing score raises TypeError there or compares `None` with a number. Only complete records are modelled. NaN values are not modelled.
- Scores in the predicted-score text are natural numbers, so leading zeros and the `int()` parse are not modelled.
- Assignments that are never reached are not modelled: after processing, `last_5_matches` is always present, so the error branch at `analyzers/recent_form.py:45-46` cannot be taken.
- Partial ensembles cannot occur: the softmax and Poisson models fail on the same test, and the adjusted model fails exactly when the Poisson model does, so the ensemble uses all three models or none. The partial cases are stated on the success flags alone, in `PredictionModels.ModelsUsedProperties`.
- The unguarded division by `total_teams` at `analyzers/table_positions.py:54` raises in Python. Here it is the `DivisionByZero` outcome, which every later analysis passes on.

## Findings

| source | as written | input that shows it | evidently intended | confidence | as-written member | corrected member |
|---|---|---|---|---|---|---|
| analyzers/prediction_models.py:103-104 | over 2.5 and over 3.5 subtract hand-picked blocks, not the cells with total ≤ 2 and ≤ 3 | expected goals 0.5 for both teams: over 2.5 ≈ 10%, over 3.5 ≈ 14% | over k = 1 − P(total goals ≤ k), non-increasing in k | not executed | ScoreTable.Over25BelowOver35AtHalf | ScoreTable.OverLineDecreasing |
| analyzers/head_to_head.py:246 | the home/away factor reads `last_matches`, a key the processor never writes | any processed head-to-head with recent matches: "Detalhes dos confrontos não disponíveis" | read the matches of `last_5_matches` | not executed | HeadToHead.HomeAwayFactorOnProcessedData | HeadToHead.HomeAwayFactorFromLastFive |
| analyzers/recent_form.py:472,478 | `"melhor em casa" in label` is case-sensitive | home strength "Melhor em casa" adds 0 to the home factor | both home-leaning bands add to the factor (1 and 2) | not executed | RecentForm.HomeFactorAsWrittenMissesBetterAtHome | RecentForm.HomeFactor |
| analyzers/recent_form.py:108-114 | for odd n the second half has one entry more than the first | "VVVVV": 6 points against 9, so "Melhorando" | compare halves of equal length | not executed | RecentForm.FormTrendAsWrittenPerfectRun | RecentForm.FormTrendStable |
| analyzers/recent_form.py:490-510 | the favourite is found by substring search of a team name in the advantage text | home "Sport Recife", away "Sport", home advantage, home factor 0: "Sport" | choose by which side holds the advantage | not executed | RecentForm.FavoriteAsWrittenNameClash | RecentForm.FavoriteProperties |
| analyzers/table_positions.py:171-185 | the away specific strength uses the home ladder with the difference general − away table | general 3rd, away table 10th: "Muito mais forte fora" | the strength is positive when the away table is better | not executed | TablePositions.AwaySpecificStrengthAsWrittenInverted | TablePositions.SpecificStrengthProperties |
