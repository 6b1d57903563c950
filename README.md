# Betting receipts and personalised game recommendations, in Dafny

This project models the core of a sports-betting receipt service. It has three parts.

- The **recommendation engine**:
  - it folds a user's past receipts into frequency tallies (leagues, sports, teams, bet types, time slots, weekdays, multi-sport combinations);
  - it scores each available game by six capped factors, keeping games that score above 20;
  - it picks the recommended wager side;
  - it summarises the user's favourites;
  - it returns the top five by confidence, or three flat-scored games for a user with no history.
- The **receipt rules**:
  - reading a calculator bookmark into betting type, odds and selected side;
  - building the betting items with an equal share of the stake;
  - the validation gates of receipt creation;
  - the pending-only settlement (cancel, win, loss);
  - the bulk update and delete counters;
  - the win-rate statistics.
- The **recommendation configuration**: a record of weights and limits with declared defaults and ranges.

## Files and modules

| file | module | contents |
|---|---|---|
| `domain.dfy` | `Domain` | `Option`, `Result`, `Round` (`Math.round`), the `GameInfo`, `BettingItem` and `Receipt` records, the four status names |
| `tallies.dfy` | `Tallies` | `Tally<V>`: an insertion-ordered map, the model of a JS `Map`; sums over it; the first-maximum ("argmax with strict `>`") search |
| `strings.dfy` | `Strings` | duplicate-free spreading of a `Set`, the default ascending sort, `join`, `includes`, decimal rendering |
| `config.dfy` | `RecommendationConfig` | the configuration record, its ranges and its defaults |
| `pattern.dfy` | `PatternAnalysis` | the pattern tallies, the imperative analysis loop proved against a fold, and the invariants and totals of the fold |
| `scoring.dfy` | `Scoring` | factor weights, the six factors, confidence, reasons, the recommended betting type, the per-game score and the filter |
| `recommendation.dfy` | `Recommendation` | the analysis summary, cold start, the stable descending sort, top-N, the orchestrator and the controller's input guard |
| `receipt_rules.dfy` | `ReceiptRules` | reading a bookmark, the betting items, the creation gates and the statistics |
| `receipt_store.dfy` | `ReceiptStore` | the `Store` class, a map from receipt id to receipt, with save, update, remove, settlement and the bulk loops |

## Modelling choices

- **Tallies.** A JS `Map` iterates in insertion order. Every "find the maximum" loop in the source uses a strict `>`, so on a tie the first-inserted key wins. A `Tally` therefore keeps its keys in insertion order beside a Dafny `map`.
- **Functions passed in as parameters.** These are:
  - the clock, `now` in milliseconds;
  - the weekday of a match-date string, `weekday`;
  - `parseFloat`, as `parse: string -> Option<real>`, where `None` stands for `NaN`.
- **Numbers.**
  - Scores are exact rationals (`real`).
  - `Math.round(x)` is `floor(x + 1/2)`.
  - `Math.floor` of a quotient by a positive divisor is Dafny's `/` on integers.
- **Imperative parts.** These are methods with loop invariants, each proved equal to a functional specification:
  - the analysis loop;
  - the argmax loops;
  - the recommended-type computation;
  - the bulk loops.

  The properties are then proved about the specification.
- **Configuration numbers.** The schema declares every numeric field a `Number` bounded by `min`/`max`, so fractional values are valid; the model's fields are `real`. A fractional recommendation count is truncated, as `slice` truncates its end.
- **Scoring weights.** Scoring is parameterised by a `Weights` record. `Scoring.Shown` holds the constants written in the scoring code. `Scoring.DefaultConfigIsShown` proves that the default configuration yields exactly those constants.
- **The receipt store.** It is a class whose `receipts` map is updated in place by its methods. Every method keeps the invariant that each receipt is stored under its own id.
- **Receipt order.** The receipts given to the recommendation engine are the user's receipts, newest first, as the database query returns them.
- **Where the code differs from its documentation, the model follows the code.**
  - The score threshold is strict (`> 20`).
  - Cold start takes three games, not the configured maximum.
  - No accuracy, bet-type-consistency or odds-preference factor exists.
  - The team caps are 15 and 10, written as constants.
  - The scoring code never reads the configuration record.
- **The status update is not tied to the state machine.** It accepts any non-empty status (the schema declares `status` as a required string with no enumeration). So it can move a won receipt back to pending; `ReceiptStore.UpdateReopensSettled` states this. Only cancel, win and loss enforce the pending-only rule.
- **Over/under and the away side.** For state `O` on a market other than over/under, the three bookmark readers disagree: the betting type is `home`, while the odds and the selected side are the away side's. `ReceiptRules.BookmarkReadingAgrees` is therefore stated for the states that belong to their market.

## Model

| member | source | states |
|---|---|---|
| Tallies.Tally.Set | src/modules/betting-receipt/services/recommendation.service.ts:140-146 | `Map.set` stores the value, keeps the key order for an existing key and appends a new key at the end |
| Tallies.Empty | src/modules/betting-receipt/services/recommendation.service.ts:121-129 | a fresh map is well-formed and has no keys |
| Tallies.SumOverAppend | src/modules/betting-receipt/services/recommendation.service.ts:138-187 | a sum over keys grows by exactly the appended key's count |
| Tallies.SumOverUntouched | src/modules/betting-receipt/services/recommendation.service.ts:138-187 | storing under a key outside the summed keys leaves the sum unchanged |
| Tallies.SumOverReplace | src/modules/betting-receipt/services/recommendation.service.ts:138-187 | replacing one key's value changes a duplicate-free sum by the difference of the counts |
| Tallies.TotalSet | src/modules/betting-receipt/services/recommendation.service.ts:140-146 | after `set`, the total over all keys changes by the new count minus the old one |
| Tallies.LeaderIsFirstMax | src/modules/betting-receipt/services/recommendation.service.ts:385-393 | the strict-`>` scan returns the running best when nothing exceeds it, and otherwise the first key with the largest count |
| Tallies.FavouriteIsFirstMax | src/modules/betting-receipt/services/recommendation.service.ts:385-423 | the favourite is the default when every count is zero, and otherwise the first key of maximal count |
| Tallies.FavouriteOfPositive | src/modules/betting-receipt/services/recommendation.service.ts:385-423 | with positive counts, the favourite is the default for an empty map, and otherwise the first key of maximal count (which may itself equal the default); when the default is not a key, the favourite is the default exactly for an empty map |
| Tallies.FindFavourite | src/modules/betting-receipt/services/recommendation.service.ts:385-393 | the `forEach` loop with `maxCount` returns the first key of maximal count |
| Strings.DedupProperties | src/modules/betting-receipt/services/recommendation.service.ts:201-203 | spreading a `Set` yields each element once, and exactly the elements of the input |
| Strings.BelowIrreflexive | src/modules/betting-receipt/services/recommendation.service.ts:205 | the default string order is irreflexive |
| Strings.BelowTransitive | src/modules/betting-receipt/services/recommendation.service.ts:205 | the default string order is transitive |
| Strings.BelowTotal | src/modules/betting-receipt/services/recommendation.service.ts:205 | two different strings are ordered one way or the other |
| Strings.InsertStringMultiset | src/modules/betting-receipt/services/recommendation.service.ts:205 | insertion adds exactly the inserted string |
| Strings.ConsSorted | src/modules/betting-receipt/services/recommendation.service.ts:205 | a lower bound placed before a sorted sequence keeps it sorted |
| Strings.InsertStringProperties | src/modules/betting-receipt/services/recommendation.service.ts:205 | insertion into a sorted sequence keeps it sorted and adds exactly one element |
| Strings.SortStringsProperties | src/modules/betting-receipt/services/recommendation.service.ts:205 | `sort()` returns an ascending permutation of its input |
| Strings.SortedUnique | src/modules/betting-receipt/services/recommendation.service.ts:205 | two ascending duplicate-free sequences with the same elements are equal |
| Strings.NoDupCount | src/modules/betting-receipt/services/recommendation.service.ts:201-205 | a duplicate-free sequence holds each of its elements exactly once |
| Strings.MultisetNoDup | src/modules/betting-receipt/services/recommendation.service.ts:201-205 | a permutation of a duplicate-free sequence is duplicate-free |
| Strings.SameElements | src/modules/betting-receipt/services/recommendation.service.ts:201-205 | permutations of two sequences with the same elements have the same elements |
| Strings.SortStringsSetOnly | src/modules/betting-receipt/services/recommendation.service.ts:201-205 | sorting the distinct elements of two sequences with the same elements gives the same result |
| Strings.NatToString | src/modules/betting-receipt/services/recommendation.service.ts:233-236 | the decimal rendering of a count is non-empty, made of the digits 0 to 9, and starts with 0 only for zero |
| Strings.NatToStringValue | src/modules/betting-receipt/services/recommendation.service.ts:233-236 | reading the rendering back as a decimal number gives the count |
| Strings.NatToStringInjective | src/modules/betting-receipt/services/recommendation.service.ts:233-236 | two different counts are never rendered as the same text |
| RecommendationConfig.DefaultIsValid | src/modules/betting-receipt/schemas/recommendation-config.schema.ts:13-67 | the default record (30, 25, 25, 10, 10, 10, 20, 15, 10; score 20; 5 recommendations; 7 days; `v1.1`; active) meets every declared min/max range |
| Scoring.DefaultConfigIsShown | src/modules/betting-receipt/schemas/recommendation-config.schema.ts:13-59 | the default configuration, with the team weight split 15/10, gives exactly the constants of the scoring code, and they are non-negative |
| Scoring.ValidConfigWeights | src/modules/betting-receipt/schemas/recommendation-config.schema.ts:13-59 | every valid configuration, fractional values included, gives non-negative weights, a threshold in [0, 100] and a count in [1, 10] |
| PatternAnalysis.CompesOf | src/modules/betting-receipt/services/recommendation.service.ts:201-203 | the sports of a receipt's games, one per game and in game order |
| PatternAnalysis.CountGame | src/modules/betting-receipt/services/recommendation.service.ts:138-187 | one game's get-or-default, increment and `set` on the league, sport, both team, time and weekday maps give exactly the specified pattern |
| PatternAnalysis.RecordGamesSnoc | src/modules/betting-receipt/services/recommendation.service.ts:138-187 | counting one more game extends the fold by that game |
| PatternAnalysis.CountGames | src/modules/betting-receipt/services/recommendation.service.ts:138-187 | the loop over the selected games computes the fold over them |
| PatternAnalysis.CountItems | src/modules/betting-receipt/services/recommendation.service.ts:190-198 | the loop over the betting items computes the fold of the bet-type counts |
| PatternAnalysis.CountCombo | src/modules/betting-receipt/services/recommendation.service.ts:201-208 | a receipt with more than one distinct sport bumps the count of its sorted `+`-joined key, and otherwise nothing changes |
| PatternAnalysis.FoldSnoc | src/modules/betting-receipt/services/recommendation.service.ts:134-209 | one more receipt extends the fold by that receipt |
| PatternAnalysis.AnalyzeUserPattern | src/modules/betting-receipt/services/recommendation.service.ts:120-211 | the whole analysis loop returns the fold of all receipts, with recency cut 30 days before `now` |
| PatternAnalysis.KeysValidGame | src/modules/betting-receipt/services/recommendation.service.ts:138-187 | counting a game keeps every map's key order duplicate-free and matching its contents |
| PatternAnalysis.KeysValidGames | src/modules/betting-receipt/services/recommendation.service.ts:138-187 | the same for all of a receipt's games |
| PatternAnalysis.KeysValidItems | src/modules/betting-receipt/services/recommendation.service.ts:190-198 | the same for the betting items |
| PatternAnalysis.FoldKeysValid | src/modules/betting-receipt/services/recommendation.service.ts:134-209 | after any number of receipts, every map is well-formed |
| PatternAnalysis.BumpOk | src/modules/betting-receipt/services/recommendation.service.ts:140-146 | a bump keeps every entry at a positive count with `recent_count <= count` |
| PatternAnalysis.BumpTeamOk | src/modules/betting-receipt/services/recommendation.service.ts:158-176 | the same for team entries |
| PatternAnalysis.RecordGameOk | src/modules/betting-receipt/services/recommendation.service.ts:138-187 | counting a game keeps every entry at `0 < count` and `recent_count <= count` |
| PatternAnalysis.RecordGamesOk | src/modules/betting-receipt/services/recommendation.service.ts:138-187 | the same for all of a receipt's games |
| PatternAnalysis.RecordItemsOk | src/modules/betting-receipt/services/recommendation.service.ts:190-198 | the same for the bet-type entries |
| PatternAnalysis.RecordReceiptOk | src/modules/betting-receipt/services/recommendation.service.ts:134-209 | the same for one whole receipt |
| PatternAnalysis.FoldOk | src/modules/betting-receipt/services/recommendation.service.ts:134-209 | the same after any number of receipts |
| PatternAnalysis.PatternWellFormed | src/modules/betting-receipt/services/recommendation.service.ts:134-198 | after analysis every league, sport, team and bet-type entry has `recent_count <= count` |
| PatternAnalysis.BumpTotals | src/modules/betting-receipt/services/recommendation.service.ts:140-146 | a bump raises the total count by one, and the recent total by one exactly when the receipt is recent |
| PatternAnalysis.BumpTeamTotal | src/modules/betting-receipt/services/recommendation.service.ts:158-176 | a team bump raises the team total by one |
| PatternAnalysis.TickTotal | src/modules/betting-receipt/services/recommendation.service.ts:178-186 | a time or weekday tick raises its total by one |
| PatternAnalysis.RecordGameTotals | src/modules/betting-receipt/services/recommendation.service.ts:138-187 | one game adds one to the league, sport, time and weekday totals and two to the team total |
| PatternAnalysis.RecordGamesTotals | src/modules/betting-receipt/services/recommendation.service.ts:138-187 | a receipt's games add their number to each of those totals, and twice their number to the team total |
| PatternAnalysis.RecordItemsTotals | src/modules/betting-receipt/services/recommendation.service.ts:190-198 | the items add their number to the bet-type total |
| PatternAnalysis.RecordComboTotals | src/modules/betting-receipt/services/recommendation.service.ts:201-208 | the combination total grows by one exactly for a multi-sport receipt |
| PatternAnalysis.RecordReceiptTotals | src/modules/betting-receipt/services/recommendation.service.ts:134-209 | one receipt adds its game, item and combination counts to the totals |
| PatternAnalysis.FoldGameTotals | src/modules/betting-receipt/services/recommendation.service.ts:138-187 | league, sport, time and weekday counts each sum to the number of selected games; team counts to twice that; recent league counts to the games of recent receipts |
| PatternAnalysis.FoldReceiptTotals | src/modules/betting-receipt/services/recommendation.service.ts:190-208 | bet-type counts sum to the number of betting items, and combination counts to the number of multi-sport receipts |
| PatternAnalysis.ComboKeyOrderFree | src/modules/betting-receipt/services/recommendation.service.ts:201-205 | two receipts with the same sports get the same combination key and the same multi-sport verdict, whatever the game order |
| PatternAnalysis.CombosComeFromMultiSportReceipts | src/modules/betting-receipt/services/recommendation.service.ts:201-208 | every recorded key is the key of some receipt with more than one distinct sport |
| PatternAnalysis.RecordGamesKeepsCombos | src/modules/betting-receipt/services/recommendation.service.ts:138-187 | counting games never touches the combination or bet-type maps |
| PatternAnalysis.RecordItemsKeepsCombos | src/modules/betting-receipt/services/recommendation.service.ts:190-198 | counting items never touches the combination map |
| Scoring.FactorBounds | src/modules/betting-receipt/services/recommendation.service.ts:226-303 | each factor lies between 0 and its cap (league 30, sport 25, home 15, away 10, time 10, weekday 10); the recency bonus is 0 or its weight, and equals the weight exactly when a receipt inside the window chose the league; the total is bounded by the sum of the caps |
| Scoring.Confidence | src/modules/betting-receipt/services/recommendation.service.ts:333 | `min(100, round(score))` never exceeds 100, is within one half of the score below 99.5, is non-negative for a non-negative score, and is below 100 exactly when the score is below 99.5 |
| Scoring.JoinNonEmpty | src/modules/betting-receipt/services/recommendation.service.ts:334 | joining reasons whose first is non-empty gives a non-empty text |
| Scoring.ReasonTextMeaning | src/modules/betting-receipt/services/recommendation.service.ts:334 | the reason text is the `, `-joined reasons, or `새로운 경기입니다` exactly when there are none |
| Scoring.NoReasonIff | src/modules/betting-receipt/services/recommendation.service.ts:226-303 | there is no reason exactly when none of the six conditions holds (league chosen more than 3 times, sport recently more than 2 times, home or away team more than 2 times, time slot more than 3 times, league chosen recently) |
| Scoring.DetermineRecommendedBettingType | src/modules/betting-receipt/services/recommendation.service.ts:343-375 | the argmax loop and the three rules compute the specified betting type |
| Scoring.RecommendedTypeCases | src/modules/betting-receipt/services/recommendation.service.ts:343-375 | the result is one of five types: with a handicap preference it is `handicap_home` exactly when the parsed line is negative; with a draw preference it is `draw`; otherwise it is `home` exactly when the home odds parse higher, so ties and NaN give `away`; the preference is `home` unless some type has a positive count, and then the first type of maximal count |
| Scoring.RecommendedTypeFallbacks | src/modules/betting-receipt/services/recommendation.service.ts:359-374 | with `parseFloat` reading "0" as 0 and "1" as 1, a handicap preference on a game with no handicap line gives `handicap_away`, and a home or away preference on a game with no odds gives `away` |
| Scoring.ScoreGame | src/modules/betting-receipt/services/recommendation.service.ts:220-336 | the scored record copies the game's fields and has a confidence of at most 100 |
| Scoring.ConfidenceBounds | src/modules/betting-receipt/services/recommendation.service.ts:333 | with non-negative weights the confidence is in [0, 100] |
| Scoring.RecentWithinFrequency | src/modules/betting-receipt/services/recommendation.service.ts:312-320 | in a well-formed pattern the recent selection count never exceeds the frequency |
| Scoring.ScoreGames | src/modules/betting-receipt/services/recommendation.service.ts:213-340 | no more games come out than went in, and each has `threshold < confidence <= 100` |
| Scoring.ScoreGamesComplete | src/modules/betting-receipt/services/recommendation.service.ts:339 | every game scoring above the threshold is kept |
| Scoring.ScoreGamesSound | src/modules/betting-receipt/services/recommendation.service.ts:221-339 | everything kept is the score of one of the available games |
| Recommendation.GenerateAnalysis | src/modules/betting-receipt/services/recommendation.service.ts:378-438 | the four argmax loops and the day span compute the specified summary |
| Recommendation.AnalysisDays | src/modules/betting-receipt/services/recommendation.service.ts:424-428 | the activity span is the floor of the newest-minus-oldest time in days, and is non-negative when the newest is not older |
| Recommendation.AnalysisFavourites | src/modules/betting-receipt/services/recommendation.service.ts:385-423 | each favourite is `""` for an empty map, and otherwise the first league, sport, bet type or team of maximal count; an empty name is stored as a key and can win, and when `""` is not a key the favourite is `""` exactly for an empty map |
| Recommendation.DefaultRecommendationsShape | src/modules/betting-receipt/services/recommendation.service.ts:441-479 | cold start returns the first `min(3, n)` games in order, each with score 50, type `home`, reason `인기 경기입니다`, frequency 0 and recent count 0, and an analysis of 0 receipts and `-` in every text field |
| Recommendation.AtMostByMultiset | src/modules/betting-receipt/services/recommendation.service.ts:104-106 | an upper bound on confidence holds for any permutation |
| Recommendation.NonIncreasingTail | src/modules/betting-receipt/services/recommendation.service.ts:104-106 | the tail of a descending list is descending and bounded by its head |
| Recommendation.ConsNonIncreasing | src/modules/betting-receipt/services/recommendation.service.ts:104-106 | an upper bound placed first keeps a descending list descending |
| Recommendation.InsertByConfidenceMultiset | src/modules/betting-receipt/services/recommendation.service.ts:104-106 | insertion adds exactly the inserted game |
| Recommendation.InsertByConfidenceProperties | src/modules/betting-receipt/services/recommendation.service.ts:104-106 | insertion into a descending list keeps it descending |
| Recommendation.SortByConfidenceProperties | src/modules/betting-receipt/services/recommendation.service.ts:104-105 | the sort by `b.confidence_score - a.confidence_score` yields a descending permutation |
| Recommendation.Take | src/modules/betting-receipt/services/recommendation.service.ts:106 | `slice(0, n)` is the prefix of length `min(n, length)` |
| Recommendation.TakeKeeps | src/modules/betting-receipt/services/recommendation.service.ts:106 | a prefix of a descending list is descending and a sub-multiset |
| Recommendation.RecommendationsWithHistory | src/modules/betting-receipt/services/recommendation.service.ts:97-117 | with history the list has at most `top` games and no more than were available, is descending by confidence, is a sub-multiset of the scored games, and every game is above the threshold |
| Recommendation.ShownRecommendations | src/modules/betting-receipt/services/recommendation.service.ts:104-106 | with the code's constants: at most 5 games, each with confidence in (20, 100] |
| Recommendation.GetRecommendations | src/modules/betting-receipt/services/recommendation.service.ts:74-117 | the orchestrator takes the cold-start path without receipts and otherwise analyses, scores, sorts and keeps the top five |
| Recommendation.Recommend | src/modules/betting-receipt/controllers/recommendation.controller.ts:199-218 | the request succeeds exactly when the user and a non-empty game list are given, and the failure carries no data and the fixed message |
| ReceiptRules.BettingTypeTable | src/modules/betting-receipt/services/betting-receipt.service.ts:56-79 | each of the seven betting types is produced by exactly the listed state and market, and `home` also by every unknown state |
| ReceiptRules.OddsTable | src/modules/betting-receipt/services/betting-receipt.service.ts:85-95 | W/U take the win odds, D the draw odds, L/O the loss odds, anything else the win odds |
| ReceiptRules.SelectedTeamTable | src/modules/betting-receipt/services/betting-receipt.service.ts:101-118 | on over/under the side is `언더` exactly for U and `오버` otherwise; elsewhere W/U give home, D `무승부`, L/O away, anything else home |
| ReceiptRules.BookmarkReadingAgrees | src/modules/betting-receipt/services/betting-receipt.service.ts:56-118 | for a state of its market, the betting type, the odds and the selected side name the same outcome |
| ReceiptRules.FindGame | src/modules/betting-receipt/services/betting-receipt.service.ts:132-134 | the lookup fails exactly when no game has the number, and otherwise returns the first game with it |
| ReceiptRules.FirstMissing | src/modules/betting-receipt/services/betting-receipt.service.ts:130-143 | the first bookmark without its game, and none exactly when all are found |
| ReceiptRules.CreateBettingItems | src/modules/betting-receipt/services/betting-receipt.service.ts:124-178 | success exactly when every bookmark finds its game; then one item per bookmark, in order, from its game with the equal share; otherwise the error names the first bookmark without a game |
| ReceiptRules.SumAmountsEqual | src/modules/betting-receipt/services/betting-receipt.service.ts:126-128 | items with equal amounts sum to count times the amount |
| ReceiptRules.CreateBettingItemsAmounts | src/modules/betting-receipt/services/betting-receipt.service.ts:126-128 | each item carries `floor(price / n)`, and the amounts sum to at most the stake and to more than the stake minus `n` |
| ReceiptRules.CreateReceiptSpec | src/modules/betting-receipt/services/betting-receipt.service.ts:211-302 | each gate (no bookmarks, stake under 500, count mismatch, missing game) fails exactly the requests that passed the earlier ones; an accepted receipt is pending, stamped now, holds the games, one item per bookmark and items not exceeding the stake |
| ReceiptRules.WinRateBounds | src/modules/betting-receipt/services/betting-receipt.service.ts:509-515 | the win rate lies in [0, 100], is 100 exactly when something was won and nothing lost, 0 exactly when nothing was won, and stays in [0, 100] once rounded |
| ReceiptRules.OpenReceiptKeepsWinRate | src/modules/betting-receipt/services/betting-receipt.service.ts:465-515 | a pending or cancelled receipt adds to the bet count but leaves the win rate unchanged |
| ReceiptRules.StatusCountsAddUp | src/modules/betting-receipt/services/betting-receipt.service.ts:476-489 | the four status counts never exceed the bet count and add up to it when every status is a known one |
| ReceiptRules.OverallMatchesUserFormula | src/modules/betting-receipt/services/betting-receipt.service.ts:766-830 | the overall win rate uses the same formula as the user statistics, settled bets are won plus lost, the rate is in [0, 100], and pending plus settled never exceed all bets |
| ReceiptStore.UpdateStatusSpec | src/modules/betting-receipt/services/betting-receipt.service.ts:437-452 | an update succeeds exactly for a non-empty status and a stored id and then changes only that receipt's status; an empty status fails validation, a missing id fails with not-found, and a failure changes nothing |
| ReceiptStore.SettleSpec | src/modules/betting-receipt/services/betting-receipt.service.ts:673-703 | cancel, win and loss succeed exactly on a stored pending receipt and then change only its status to the target; otherwise they fail with not-found or not-pending and change nothing |
| ReceiptStore.TerminalIsAbsorbing | src/modules/betting-receipt/services/betting-receipt.service.ts:673-703 | a won, lost or cancelled receipt is never changed by any run of settlements |
| ReceiptStore.UpdateReopensSettled | src/modules/betting-receipt/services/betting-receipt.service.ts:437-452 | the plain update moves a won receipt back to pending, which settlement refuses |
| ReceiptStore.BulkUpdateSpec | src/modules/betting-receipt/services/betting-receipt.service.ts:573-594 | a bulk update keeps the set of receipts, sets the status of exactly the listed stored receipts when the status is accepted, and counts one update per listed position that is stored |
| ReceiptStore.SetOfSnoc | src/modules/betting-receipt/services/betting-receipt.service.ts:596-613 | the ids of a list are those of its prefix plus its last |
| ReceiptStore.AfterDeletesSpec | src/modules/betting-receipt/services/betting-receipt.service.ts:596-613 | a bulk delete removes exactly the listed receipts |
| ReceiptStore.DeletedCountSpec | src/modules/betting-receipt/services/betting-receipt.service.ts:596-613 | the deleted count is the number of distinct listed ids that were stored |
| ReceiptStore.Store.constructor | src/modules/betting-receipt/services/betting-receipt.service.ts:14-17 | the store starts empty and valid |
| ReceiptStore.Store.Find | src/modules/betting-receipt/services/betting-receipt.service.ts:413-423 | the lookup returns the receipt stored under the id, whose own id it is, or not-found |
| ReceiptStore.Store.Save | src/modules/betting-receipt/services/betting-receipt.service.ts:295-301 | saving adds the receipt under its id, or fails with a duplicate id and changes nothing |
| ReceiptStore.Store.Create | src/modules/betting-receipt/services/betting-receipt.service.ts:211-302 | a rejected request changes nothing; an accepted one is saved under the generated id unless that id is taken |
| ReceiptStore.Store.Update | src/modules/betting-receipt/services/betting-receipt.service.ts:437-452 | an empty status fails validation, a missing id fails, otherwise exactly that receipt's status changes |
| ReceiptStore.Store.Remove | src/modules/betting-receipt/services/betting-receipt.service.ts:454-461 | the stored receipt is returned and removed, or not-found with nothing changed |
| ReceiptStore.Store.SettleReceipt | src/modules/betting-receipt/services/betting-receipt.service.ts:673-703 | look up, require pending, then update: the state and result of the settlement specification |
| ReceiptStore.Store.Cancel | src/modules/betting-receipt/services/betting-receipt.service.ts:673-680 | settlement to `cancelled` |
| ReceiptStore.Store.ProcessWin | src/modules/betting-receipt/services/betting-receipt.service.ts:684-691 | settlement to `won` |
| ReceiptStore.Store.ProcessLoss | src/modules/betting-receipt/services/betting-receipt.service.ts:695-702 | settlement to `lost` |
| ReceiptStore.Store.BulkUpdateStatus | src/modules/betting-receipt/services/betting-receipt.service.ts:573-594 | `updated + failed` is the number of ids; the new state is the bulk-update specification; `updated` is the number of listed positions that were stored, or 0 for an empty status |
| ReceiptStore.Store.BulkDelete | src/modules/betting-receipt/services/betting-receipt.service.ts:596-613 | `deleted + failed` is the number of ids; exactly the listed receipts are gone; `deleted` is the number of distinct listed ids that were stored |

## Left out

- Database access (`find`, `aggregate`, `findOneAndUpdate`, `save`) is I/O.
  - The receipts are an input sequence, newest first.
  - The six-month window of the query is not modelled.
  - The stored receipts are the `Store` map.
- Receipt id generation (`generateReceiptId`) and its uniqueness retry loop depend on the clock and on randomness. The id is a parameter of `ReceiptStore.Store.Create`.
- `calculateTotalOdds`, the expected payouts and `validateOddsAndCalculatePayout` are floating-point products rounded to decimal strings. They are not modelled, and neither are the `total_odds`, `expected_payout` and `total_expected_payout` fields.
- `parseInt` of the stake: the stake is taken as an integer. A non-numeric stake, whose `NaN` passes the `< 500` gate, is not modelled.
- Calendar arithmetic (`setDate`, `toLocaleDateString`) is a fixed day of 86 400 000 ms and a `weekday` parameter.
  - Daylight-saving shifts are not modelled.
  - The several `new Date()` calls of one request are one `now`.
- The `updatedAt` timestamp and the `original_data` copy of the request are not modelled.
- Strings are sequences of characters, so the default sort compares characters rather than UTF-16 code units. The two orders differ only outside the basic multilingual plane.
- Recommendation.SortByConfidenceProperties: stability (games of equal confidence keep their order) holds by construction of the insertion but is not stated.
- The other queries and statistics are not modelled because they are thin database queries:
  - `findAll`, `findByUser`, `findById`, `findByStatus`, `getRecentBettingsByUser`, `findByDateRange`;
  - `getDailyBettingStats`, `getGameBettingStats`, `getBettingTypeStats`, `getUserPattern`.
- Logging, the HTTP controllers other than the recommendation input guard, the DTO validators, Swagger metadata and module wiring are not modelled.
