# Ranked match table and form features

The project has two stages:

1. **Building the ranked table.** It takes international football results and
   FIFA ranking snapshots. It keeps the results and snapshots from 2023-01-01
   on. It rewrites four ranking-side country names to the spelling the results
   use. It expands each team's snapshots into one row per day, each carrying
   the most recent snapshot. It then inner-joins the results with those daily
   rows twice: on (date, home team) and on (date, away team).
2. **Building the feature table.** For every ranked match it computes:
   - league points for each side;
   - points weighted by the opponent's rank;
   - the rank difference;
   - for each side, twelve trailing means (last 5 and last 3 games) over that
     team's strictly earlier games.

The Dafny model has three modules:

- `Seqs` holds the generic table operations: row filter, column map, a
  filter-and-collect, and a stable sort on an integer key. Their properties are
  proved once, generically: selection membership, permutation and sortedness.
- `RankedDatabase` models `db_builder.py` as pure functions. The ranked table is
  proved equal to a reference definition (`Expected`, built from `Joined`): one
  row per result from the cutoff on whose two sides are both ranked that day.
  The ranking used is characterised by its snapshots.
- `FormFeatures` models `features_creator.py`:
  - a pure part: points, weights, a team's history before a date, and the
    trailing means;
  - the `FeaturesCreator` class. Its constructor sorts the table. Its
    `CreateAllFeatures` method assigns the feature table to a field. Its
    row-by-row loop is a method proved against the specification function
    `AllWithAverages`.

How source values are represented:

- Dates are day numbers (days since 1970-01-01). 2023-01-01 is `Cutoff` = 19358.
- Pandas/NumPy floating point is exact `real`.
- A NaN feature is `None`.
- Rank positions are `nat`.

Snapshots before 2023-01-01 are dropped before the daily series is built. As a
result, a result dated between 2023-01-01 and a team's first snapshot of 2023
finds no daily row and is left out of the ranked table, even though the
December 2022 ranking was in force that day. `EarlyMatchDropped` shows this on
a concrete two-team ranking. The model keeps the code's behaviour.

## Model

| member | source | states |
|---|---|---|
| `FormFeatures.CalculatePointsWon` | features_creator.py:24-34 | 3 exactly when the side scored more, 1 exactly on a draw, 0 exactly when it scored fewer |
| `FormFeatures.Weighted` | features_creator.py:56-57 | the weighted value times `1 + rank/100` gives back the raw value; a non-negative value is never increased |
| `FormFeatures.WeightedAntitone` | features_creator.py:56-57 | the same result against a better-ranked (smaller rank) opponent is weighted at least as high |
| `FormFeatures.WeightedPointsExample` | features_creator.py:56 | a win (3 points) against the 50th-ranked team is worth 2.0 |
| `FormFeatures.BasicFeatures` | features_creator.py:46-60 | the point pair is (3,0), (0,3) or (1,1); home gets 3 exactly when it outscored away and vice versa; each weighted column times the opponent's weight is its points; `rank_dif` is rank_home minus rank_away, negative exactly when home is better ranked |
| `FormFeatures.Recast` | features_creator.py:166-187 | a history row keeps the match date; goals, goals suffered and points are seen from the team's own side; all three weighted columns use the opponent's rank |
| `FormFeatures.AwayIsSwappedHome` | features_creator.py:178-187 | an away game is recast exactly like the home game of the match with sides exchanged |
| `FormFeatures.RecastAgreesWithBasic` | features_creator.py:167-183 | the points a match contributes to a later history equal that match's own points and weighted-points columns, for both sides |
| `FormFeatures.GamesFacts` | features_creator.py:166-187 | every home or away game selected is dated strictly before the day, has points in {0,1,3} and weighted values between 0 and the raw value |
| `FormFeatures.HistoryFacts` | features_creator.py:189-193 | the history is in ascending date order, is a permutation of the home games followed by the away games, and every entry is strictly earlier and in range |
| `FormFeatures.History` | features_creator.py:161-193 | a team's games strictly before a date, home games recast from the home side and away games from the away side, concatenated and sorted by date; its properties are stated by `HistoryFacts`, `HistoryMembers`, `HistoryLength` and `EmptyHistoryIff` |
| `FormFeatures.HistoryLength` | features_creator.py:166-191 | the history has exactly one entry per strictly earlier home row of the team plus one per strictly earlier away row, duplicates included |
| `FormFeatures.HistoryMembers` | features_creator.py:161-193 | a game is in the history exactly when it is the recast of a strictly earlier row in which the team played, at home or away |
| `FormFeatures.EmptyHistoryIff` | features_creator.py:161-193 | the history is empty exactly when no strictly earlier row names the team on either side |
| `FormFeatures.HistoryIgnoresLaterRows` | features_creator.py:166-178 | two tables that agree on their rows before the day give the same history: rows on or after the match date are never read |
| `FormFeatures.SameDayNotSeen` | features_creator.py:166 | two games of one team on the same day do not see each other: on that day the team's history is empty |
| `FormFeatures.NextDaySeesBoth` | features_creator.py:166-191 | a game on the following day sees both earlier games, one home and one away |
| `FormFeatures.Last` | features_creator.py:141-157 | the window `[-k:]` holds the last min(k, n) values, in order |
| `FormFeatures.Column` | features_creator.py:133-138 | a metric column has one value per history game, that game's value |
| `FormFeatures.MeanWithin` | features_creator.py:141-157 | a mean lies within any bounds on its entries |
| `FormFeatures.FeaturesOfColumn` | features_creator.py:117-157 | each `<metric>_ma_<5/3>` column is NaN for an empty history and otherwise the mean of that metric over the last 5 or 3 games, or all of them if there are fewer |
| `FormFeatures.FeaturesOf` | features_creator.py:117-157 | the twelve `<metric>_ma_<5/3>` values of a history, all NaN for an empty one; stated by `FeaturesOfColumn` and `AveragesInRange` |
| `FormFeatures.TeamFeaturesAt` | features_creator.py:107-159 | one side's features for a match date, computed on its history; stated by `UndefinedIffNoEarlierGame`, `FeaturesIgnoreLaterRows` and `AveragesInRange` |
| `FormFeatures.UndefinedIffNoEarlierGame` | features_creator.py:117-130 | all twelve features are NaN exactly when the team has no strictly earlier game |
| `FormFeatures.FeaturesIgnoreLaterRows` | features_creator.py:107-113 | a side's features depend only on the rows dated strictly before the match |
| `FormFeatures.ValueInRange` | features_creator.py:133-138 | every metric of an in-range game is non-negative, and a points metric is at most 3 |
| `FormFeatures.WindowInRange` | features_creator.py:141-157 | every entry of a trailing window lies in its metric's range |
| `FormFeatures.AverageInRange` | features_creator.py:141-157 | a trailing mean is non-negative, and at most 3 for the two points metrics |
| `FormFeatures.AveragesInRange` | features_creator.py:107-159 | every defined feature is non-negative; the points and weighted-points means lie in [0, 3] |
| `FormFeatures.ThreeGamesExample` | features_creator.py:147-148 | three earlier games with 1, 2 and 3 goals give goals_ma_3 = goals_ma_5 = 2 |
| `FormFeatures.FeaturesCreator.constructor` | features_creator.py:12-22 | the stored table is a date-ordered permutation of the loaded rows; no feature table yet |
| `FormFeatures.FeaturesCreator.CreateAllFeatures` | features_creator.py:36-67 | the input table is unchanged; the result, also stored in the object, has one row per input row, in order, each with its own points columns, rank difference and both sides' features over the whole table |
| `FormFeatures.FeaturesCreator.AddAllMovingAverages` | features_creator.py:69-105 | the loop's output is, row for row, the input row extended by the home team's and the away team's features at the row's date |
| `FormFeatures.AllWithAverages` | features_creator.py:77-105 | the specification of the row loop: each row extended by both sides' features over the whole table, in row order; `AddAllMovingAverages` is proved equal to it |
| `FormFeatures.FeatureRowFor` | features_creator.py:36-67 | the complete feature row of one match; `CreateAllFeatures` is proved to give it for every row |
| `Seqs.Filter` | features_creator.py:166 | the selection is no longer than the table, holds only rows of the table satisfying the condition, and holds every such row; multiplicity and order are stated by `FilterMultiset`, `FilterIndex` and `FilterAppend` |
| `Seqs.FilterMultiset` | features_creator.py:166 | a selected row is kept exactly as many times as it occurs in the table, a rejected row not at all |
| `Seqs.FilterIndex` | features_creator.py:166 | the selection keeps table order: the k-th selected row stands at some position j of the table, and the rows selected before it are exactly those selected from the table's first j rows |
| `Seqs.FilterAppend` | features_creator.py:190 | selecting from two tables one after the other gives the two selections one after the other |
| `Seqs.Map` | features_creator.py:167-175 | a computed column has one value per row, the function of that row |
| `Seqs.MapFilterHas` | features_creator.py:166-175 | a selected row's computed value appears in the result |
| `Seqs.MapFilterFrom` | features_creator.py:166-175 | every computed value comes from a selected row |
| `Seqs.FilterMapOfFilter` | db_builder.py:9-23 | after a selection, a value is collected exactly when a selected row yields it; never more values than rows |
| `Seqs.InsertPerm` | features_creator.py:191 | inserting adds exactly the new row |
| `Seqs.InsertSorted` | features_creator.py:191 | inserting into a key-ordered sequence keeps it ordered |
| `Seqs.SortBySorted` | features_creator.py:191 | the sort returns its input in ascending key order, as a permutation of it |
| `Seqs.SortBy` | features_creator.py:191 | the date sort (also at line 21); `SortBySorted` states that it returns a sorted permutation |
| `RankedDatabase.ReplaceAllAbsent` | db_builder.py:17 | a name without the pattern is left as it is |
| `RankedDatabase.ReplaceAllWhole` | db_builder.py:17 | the pattern itself is replaced by the replacement |
| `RankedDatabase.ReplaceAll` | db_builder.py:17 | `str.replace` of one spelling, left to right without overlaps; stated by `ReplaceAllAbsent` and `ReplaceAllWhole` |
| `RankedDatabase.Normalize` | db_builder.py:17 | the four chained replacements; stated by `NormalizeKeeps` and the four `Normalize<Country>` lemmas |
| `RankedDatabase.NormalizeKeeps` | db_builder.py:17 | a name containing none of the four spellings is unchanged |
| `RankedDatabase.NormalizeCzechia` | db_builder.py:17 | "Czechia" becomes "Czech Republic" |
| `RankedDatabase.NormalizeIran` | db_builder.py:17 | "IR Iran" becomes "Iran" |
| `RankedDatabase.NormalizeKorea` | db_builder.py:17 | "Korea Republic" becomes "South Korea" |
| `RankedDatabase.NormalizeUsa` | db_builder.py:17 | "USA" becomes "United States" |
| `RankedDatabase.FirstDate` | db_builder.py:19 | the earliest snapshot date: a lower bound attained by some snapshot |
| `RankedDatabase.LastDate` | db_builder.py:19 | the latest snapshot date: an upper bound attained by some snapshot |
| `RankedDatabase.InForce` | db_builder.py:19 | there is a ranking for a day exactly when some snapshot is dated on or before it; it is such a snapshot with the latest date, the first in table order among same-date snapshots |
| `RankedDatabase.DaysLookup` | db_builder.py:19 | a team's daily rows hold exactly one row for each day of the span, carrying the snapshot in force, and none for other keys |
| `RankedDatabase.SeriesLookup` | db_builder.py:19 | a team's series answers its own name with the recorded ranking, or nothing outside its span, and any other name with nothing |
| `RankedDatabase.LookupDaily` | db_builder.py:19 | the daily table has one row for (team, day) when the team is ranked that day, carrying that ranking, and none otherwise |
| `RankedDatabase.Days` | db_builder.py:19 | one daily row per day of a span, carrying the snapshot in force; stated by `DaysLookup` |
| `RankedDatabase.Series` | db_builder.py:19 | a team's daily rows from its first to its last snapshot date; stated by `SeriesLookup` |
| `RankedDatabase.DailyTable` | db_builder.py:19 | the series of every team; stated by `LookupDaily` |
| `RankedDatabase.MergeHome` | db_builder.py:21 | the inner join on (date, home team); stated by `MergeHomeOne` and `MergesMatchExpected` |
| `RankedDatabase.MergeAway` | db_builder.py:23 | the inner join on (date, away team), with the second ranking columns as the away side's; stated by `MergeAwayOne` and `MergesMatchExpected` |
| `RankedDatabase.MergeAwayOne` | db_builder.py:23 | a home-ranked match survives the away join exactly when its away side is ranked that day, taking that ranking as the away columns |
| `RankedDatabase.MergeHomeOne` | db_builder.py:21 | a match survives the home join exactly when its home side is ranked that day, taking that ranking as the home columns |
| `RankedDatabase.MergeOne` | db_builder.py:21-23 | one match through both joins gives its reference row, or nothing |
| `RankedDatabase.MergesMatchExpected` | db_builder.py:21-23 | the two joins against the daily table give the reference rows, in match order |
| `RankedDatabase.BuildIsExpected` | db_builder.py:9-23 | the whole pipeline equals the reference table over the results from the cutoff on and the prepared ranking |
| `RankedDatabase.BuildRankedDatabase` | db_builder.py:9-23 | the whole chain: filter results, prepare the ranking, build the daily table, join twice; stated by `BuildIsExpected` and `BuildRows` |
| `RankedDatabase.PreparedRanking` | db_builder.py:16-17 | the snapshots from the cutoff on, names normalised; stated by `PreparedMembers` |
| `RankedDatabase.RankingOn` | db_builder.py:19 | reference definition of a team's ranking on a day; characterised by `RankingOnMeaning` and `RankingOnFirstOfDay` |
| `RankedDatabase.Joined` | db_builder.py:21-23 | reference definition of one match's output row: present when both sides are ranked that day; used by `BuildRows` |
| `RankedDatabase.Expected` | db_builder.py:21-23 | reference definition of the joined table, one row per match with both sides ranked, in match order; `MergesMatchExpected` equates the joins with it |
| `RankedDatabase.RankingOnMeaning` | db_builder.py:19 | a team is ranked on a day exactly when it has snapshots on or before and on or after that day; the ranking is then its most recent snapshot on or before the day |
| `RankedDatabase.RankingOnFirstOfDay` | db_builder.py:19 | of several snapshots of the team carrying the date in force, the ranking used is the first in table order (the daily bin's first row) |
| `RankedDatabase.PreparedMembers` | db_builder.py:16-17 | a prepared snapshot is exactly a renamed snapshot dated from 2023-01-01 on |
| `RankedDatabase.BuildRows` | db_builder.py:9-23 | a row is in the ranked table exactly when it is the joined row of a result from 2023-01-01 on whose two sides are ranked that day; the table never has more rows than the results |
| `RankedDatabase.PreparedFromCutoff` | db_builder.py:16 | when every snapshot from the cutoff on is later than a day, so is every prepared snapshot |
| `RankedDatabase.UnrankedHomeDropped` | db_builder.py:21 | a result whose home side is not ranked that day yields no row |
| `RankedDatabase.NotRankedBeforeFirst` | db_builder.py:19 | before a team's own first snapshot it has no ranking, whatever other teams' snapshots are |
| `RankedDatabase.DecemberSnapshotInForce` | db_builder.py:19 | with the cutoff ignored, the December 2022 snapshot gives a ranking for 2023-01-13 |
| `RankedDatabase.EarlyMatchDropped` | db_builder.py:16-23 | the 2023-01-13 match is still dropped, because the December snapshot was filtered out before the series was built |

## Left out

- Reading and writing CSV files, `pd.to_datetime` parsing, the progress `print`s, `save_to_csv`, `get_features_dataframe` and the `__main__` block are I/O. The model starts from already-read rows, with dates as day numbers.
- Column selection and housekeeping (`db_builder.py:13`, `reset_index`, dropping the duplicated key columns) only shape columns. Only the columns the features use are modelled; other result columns are not, for example tournament, city and neutral.
- IEEE floating point is not modelled. The arithmetic is exact `real`, and NaN is `None`.
- Ties in date order: `sort_values('date')` uses pandas' default sort, which does not guarantee a stable order among rows on the same date. The model sorts with a stable insertion sort, so same-date rows keep their input order. Trailing windows that cut between two games of one team on the same day may therefore differ from the source.
- The daily table lists teams in order of first appearance, while `groupby` sorts names. The join output is a per-match collection and does not depend on this order.
- `resample('D').first()` takes the first non-missing value per column within a day. Snapshots here have no missing values, so the model takes the first snapshot of the day whole.
- Scores are `nat`. A missing score (NaN in the CSV) or a non-integer score is not modelled; in the source such a match gives both sides 0 points, and NaN in every goal mean whose window includes it.
- Ranks are `nat`. A negative or missing rank, which would make a weight zero or undefined, is not modelled.
- Cost: the source's quadratic rescans of the table are modelled as the same rescans, but nothing about their cost is stated.
- `get_data.py` (downloading the raw tables) is not part of this model.
