# PropPicks bet-slip rules, modelled in Dafny

PropPicks is a sports-betting tracker with two parts:

- a Go back end that stores a user's past bets, grades them, keeps per-model win/loss statistics, lists upcoming games from the ESPN scoreboard feed, and builds the prompt for an AI slip generator;
- an Angular front end with a slip-generator wizard, a demo slip generator, CSV export and error-message extraction.

This project models the bookkeeping and odds rules of both parts and proves what they promise:

- grading a bet or moving it between outcomes keeps the win/loss/push tallies consistent;
- a user's in-memory bet list never holds more than 15 bets, and grading touches exactly one bet;
- batch recomputation counts every bet in exactly one group;
- odds typed into the wizard snap to valid American odds;
- the wizard's day window and legs count stay within their bounds;
- the games list is deduplicated by id and sorted stably by start time;
- the prompt carries the mode rules, the legs count, the payout clauses and one line per selected game.

One module per source file:

| file | module | models |
|---|---|---|
| `wrappers.dfy` | `Wrappers` | Option / Result (nil values, error returns) |
| `text.dfy` | `Text` | `strings.TrimSpace`, case mapping, `Join`/split, Go's byte-wise string order, substring occurrence |
| `numbers.dfy` | `Numbers` | `strconv.Atoi` on the int64 range, JavaScript `Number()` on decimal text, `String(int)`, `Math.round`, `Math.trunc` |
| `past_bets.dfy` | `PastBets` | `go-api/past_bets.go` |
| `stats_upsert.dfy` | `StatsUpsert` | `go-api/stats_upsert.go` |
| `demo.dfy` | `Demo` | `go-api/demo.go` |
| `bet_generator.dfy` | `BetGenerator` | the generator wizard component |
| `generator_service.dfy` | `GeneratorService` | the front end's demo slip generator |
| `games.dfy` | `Games` | `go-api/api_games.go` |
| `generate_slip.dfy` | `GenerateSlip` | prompt assembly in `go-api/api_generate_slip.go` |
| `model_stats.dfy` | `ModelStats` | `go-api/api_model_stats.go` |
| `csv.dfy` | `Csv` | `toCSV` |
| `error_util.dfy` | `ErrorUtil` | `extractErrorMessage` |

Each part takes the form of its source:

- **Classes.** The in-memory bet store is a class whose methods update its map. So is the wizard component: its signals are fields, and its handlers are methods with `modifies` frames.
- **Loops.** Loops become `while`/`for` loops, with invariants tied to a specification function:
  - batch aggregation, the map-to-rows copies, and collecting games day by day;
  - the in-place insertion sort over an `array`;
  - the string builder that writes the games block;
  - the slip generator's nested loops.
- **Pure code.** Switches and expressions become functions.
- **Go map iteration.** Its order is unspecified, so where the output depends on it (`range m` in `recomputeStatsForUser`, `range byID` in `fetchESPNGames`), the model picks an arbitrary remaining key with `:|`.

## Model

| member | source | states |
|---|---|---|
| PastBets.ToPublic | go-api/past_bets.go:66-83 | Every field is copied; a missing result reads as "" and missing units as 0. |
| PastBets.FindInt | go-api/past_bets.go:386-391 | Finds the leftmost match of `[+-]?\d+` at or after `from`, as a whole match: an optional sign, then the digit run up to the first non-digit. Reports no match exactly when no position starts one. |
| PastBets.AmericanOfDigits | go-api/past_bets.go:390-407 | Plain digits of any positive int64 read back as that number. |
| PastBets.ExtractAmerican | go-api/past_bets.go:390-407 | Only the first match counts. Success exactly when there is a match and its digits read as a value in 1..MaxInt64. The result then carries that value with the match's sign. No match, zero digits or overflow give (0, false). |
| PastBets.FirstMatchWins | go-api/past_bets.go:388-407 | Words before the odds are skipped, and whatever follows the first match, other numbers included, is ignored. |
| PastBets.AmericanOfSignedDigits | go-api/past_bets.go:390-407 | The digits of n, with an optional leading sign, read back as ±n, the sign coming from the text. |
| PastBets.AmericanOfDecimal | go-api/past_bets.go:390-407 | The decimal text of any non-zero int64, with or without a '+', reads back as that number. |
| PastBets.WinProfit | go-api/past_bets.go:421-428 | A win on non-zero odds always pays a positive profit per unit. |
| PastBets.WinProfitIsDecimalMinusOne | go-api/past_bets.go:421-428 | The win profit is the decimal multiple minus the returned stake: 1 + o/100 for positive odds, 1 + 100/\|o\| for negative. |
| PastBets.UnitsForOutcome | go-api/past_bets.go:410-429 | The outcome is trimmed and lower-cased. A loss gives −1 and any non-win gives 0. A win gives the profit of the parsed odds, or 0 when the odds do not parse. A win is never negative. |
| PastBets.KeepNewest | go-api/past_bets.go:165-167 | At most 15 bets are kept: the newest, in order. |
| PastBets.AfterSave | go-api/past_bets.go:161-168 | After a save: 1 to 15 bets, ending with the new bet, forming a suffix of the old list followed by the new bet. |
| PastBets.StampedDate | go-api/past_bets.go:132-135 | A saved bet gets the new id. A blank date gets the current time, so the saved date is never blank, and a client date is kept. Stamping again with the same id changes nothing. |
| PastBets.FirstIndex | go-api/past_bets.go:238-245 | The first bet with the id, or −1 exactly when none has it. |
| PastBets.IndexOfBet | go-api/past_bets.go:239-245 | The search loop returns the first matching index. |
| PastBets.PastBetStore.constructor | go-api/past_bets.go:87-89 | The store starts with no user and no bet. |
| PastBets.PastBetStore.List | go-api/past_bets.go:118-124 | The user's bets, newest first, in place of a reversed copy. The store is unchanged. |
| PastBets.PastBetStore.Save | go-api/past_bets.go:132-168 | The bet is stamped with a fresh id, and with the current time when its date is blank. Only the user's entry changes, and it becomes `AfterSave` of the old list. |
| PastBets.PastBetStore.Grade | go-api/past_bets.go:192-256 | A blank id gives Invalid and changes nothing. A missing id gives NotFound and changes nothing. Otherwise only the first matching bet is replaced, by its graded copy. |
| PastBets.GradeTouchesOneBet | go-api/past_bets.go:238-254 | Grading keeps the list's length and every other bet. The graded bet keeps its id, odds, date, model, sport, event and type, and gets the outcome as its result and that outcome's units for its odds. |
| PastBets.NextTally | go-api/past_bets.go:303-332 | A first grading counts a bet and its bucket. A change of outcome moves one count between buckets. The same outcome changes nothing. Over the outcome words, the bucket total grows exactly as the bet count does. |
| PastBets.UpdateUserModelStat | go-api/past_bets.go:282-345 | A failed lookup is an error. Otherwise the identity fields are kept, the tallies follow `NextTally`, and units grow by new minus previous units (nil reads as 0). ROI is units/bets·100, or 0 with no bets. |
| StatsUpsert.UpsertTally | go-api/stats_upsert.go:19-53 | Bets grow by one exactly on a first non-blank grading and never shrink. A first grading counts next's bucket. A change moves a count from prev's bucket to next's. Equal outcomes change nothing. |
| StatsUpsert.UpsertAgreesOnOutcomes | go-api/stats_upsert.go:19-53 | On an outcome word `win`, `loss` or `push`, the two tally variants agree. |
| StatsUpsert.VariantsDifferOnBlank | go-api/stats_upsert.go:19-26 | On a blank regrading of an ungraded bet, the upsert changes nothing, while `updateUserModelStat` counts a bet. |
| StatsUpsert.UngradeKeepsBets | go-api/stats_upsert.go:36-53 | Clearing a graded bet keeps the bet count and drops one bucket count. |
| StatsUpsert.UpsertUserModelStat | go-api/stats_upsert.go:6-65 | A failed lookup is an error. Otherwise the tallies follow `UpsertTally`, units grow by next minus previous units, and ROI is recomputed. |
| Demo.DemoCloneLimit | go-api/demo.go:25-32 | A positive integer setting is used as is; anything else gives 250. The result is always positive. |
| Demo.CloneLimitOfDecimal | go-api/demo.go:25-32 | Any positive int64 written out in decimal is taken as the limit. |
| Demo.CloneBets | go-api/demo.go:54-62 | One clone per source bet, in order, each with a fresh id and the destination user key, and every other field copied. |
| Demo.ClassOf | go-api/demo.go:97-106 | "win" and "loss" match in any letter case. Any other present result is a push; an absent one is ungraded. |
| Demo.ClassesPartition | go-api/demo.go:96-106 | Every bet is in exactly one class. |
| Demo.AggregateIsTallied | go-api/demo.go:89-111 | The accumulated map has a group exactly for each key that occurs. Each group equals the counts and unit sum taken directly over its bets. |
| Demo.AggregateWellFormed | go-api/demo.go:96-106 | Every group has a bet, and its wins, losses and pushes together never exceed its bets. |
| Demo.AggregateBets | go-api/demo.go:89-111 | The accumulation loop computes `Aggregate`. |
| Demo.BuildRows | go-api/demo.go:113-131 | One row per map entry, keys distinct, each row built from its group. |
| Demo.GroupsPartitionBets | go-api/demo.go:89-96 | Over distinct keys covering all bets, the group sizes sum to the number of bets. |
| Demo.RecomputeStatsForUser | go-api/demo.go:76-136 | No rows exactly when there are no bets. Row bets sum to the bet count. Keys are distinct and cover every bet. Each row holds its group's direct tally, with wins + losses + pushes ≤ bets. |
| BetGenerator.SignedText | web-frontend/src/app/features/generator/bet-generator.component.ts:555 | Non-negative values get a '+', negative ones their plain decimal. |
| BetGenerator.SnapOdds | web-frontend/src/app/features/generator/bet-generator.component.ts:547-552 | Always a multiple of 5 that is ≥ 100 or ≤ −105. Outside the dead zone it is within 2.5 of the input. Inside the dead zone it is +100 or −105 by sign, so −100 becomes −105. |
| BetGenerator.SnapOddsFixed | web-frontend/src/app/features/generator/bet-generator.component.ts:547-552 | Valid snapped values are fixed points. |
| BetGenerator.NormalizeOddsFromText | web-frontend/src/app/features/generator/bet-generator.component.ts:540-557 | Null exactly when the trimmed text is not a finite number; otherwise the snapped value and its signed text. |
| BetGenerator.SignedTextReads | web-frontend/src/app/features/generator/bet-generator.component.ts:555 | The signed text parses back to its value. |
| BetGenerator.NormalizeIdempotent | web-frontend/src/app/features/generator/bet-generator.component.ts:540-557 | Normalising a result's text again gives the same value and text. |
| BetGenerator.OddsTextInvalid | web-frontend/src/app/features/generator/bet-generator.component.ts:194-200 | Invalid exactly when the text parses to a finite, non-zero number strictly between −100 and 100. |
| BetGenerator.BlankOrSignNeverInvalid | web-frontend/src/app/features/generator/bet-generator.component.ts:196 | Empty and sign-only text is never flagged. |
| BetGenerator.WrittenOddsNeverInvalid | web-frontend/src/app/features/generator/bet-generator.component.ts:194-200 | Text written for valid odds is never flagged. |
| BetGenerator.OddsBlurNeverInvalid | web-frontend/src/app/features/generator/bet-generator.component.ts:261-286 | From a valid last value, the text left by a blur is never flagged. |
| BetGenerator.JunkNeverInvalid | web-frontend/src/app/features/generator/bet-generator.component.ts:194-200 | Text the normaliser rejects is never flagged. |
| BetGenerator.InvalidIgnoresSpace | web-frontend/src/app/features/generator/bet-generator.component.ts:194-200 | Surrounding space never changes whether odds text is flagged. |
| BetGenerator.OddsBlur | web-frontend/src/app/features/generator/bet-generator.component.ts:265-285 | A restore happens exactly when the trimmed text is blank or a bare sign; it gives back the last valid value and its decimal text. A value taken is outside the dead zone. |
| BetGenerator.OddsBlurCases | web-frontend/src/app/features/generator/bet-generator.component.ts:265-285 | The text is kept exactly when it is neither blank, a bare sign nor a finite number. Otherwise a finite number is taken, snapped, and written with its sign. |
| BetGenerator.ClampInt | web-frontend/src/app/features/generator/bet-generator.component.ts:237-240 | NaN gives lo and +∞ gives hi. Otherwise the truncated value is clamped into [lo, hi]. |
| BetGenerator.Clamp | web-frontend/src/app/features/generator/bet-generator.component.ts:574-576 | Non-finite input gives lo. Otherwise the truncated value is clamped into [lo, hi]. |
| BetGenerator.YmdLocal | web-frontend/src/app/features/generator/bet-generator.component.ts:568-572 | The year, then `-MM-DD` with the 1-based month and the day padded to two digits. |
| BetGenerator.YmdInjective | web-frontend/src/app/features/generator/bet-generator.component.ts:568-572 | Different dates give different day keys. |
| BetGenerator.VisibleIds | web-frontend/src/app/features/generator/bet-generator.component.ts:385-393 | Exactly the ids of the games in the visible day groups. |
| BetGenerator.DayIds | web-frontend/src/app/features/generator/bet-generator.component.ts:395-406 | The ids of the first group with the day key; none when no group has it. Always a subset of the visible ids. |
| BetGenerator.DaysToLoad | web-frontend/src/app/features/generator/bet-generator.component.ts:418 | Between 1 and 7, and the end offset + 1 inside the window. |
| BetGenerator.PresetRange | web-frontend/src/app/features/generator/bet-generator.component.ts:341-351 | Each preset is a valid positive range with min < max. |
| BetGenerator.PresetTextsOfRange | web-frontend/src/app/features/generator/bet-generator.component.ts:341-348 | The texts a preset writes are `String` of its two bounds. |
| BetGenerator.BetGeneratorComponent.constructor | web-frontend/src/app/features/generator/bet-generator.component.ts:46-124 | The initial signals: MLB, Single with legs 2, odds 300..700, stake 1, window 0..0, the first model selected. |
| BetGenerator.BetGeneratorComponent.LoadGames | web-frontend/src/app/features/generator/bet-generator.component.ts:414-418 | With no sport, the selection is cleared and nothing is requested. Otherwise endOffset + 1 days are requested. |
| BetGenerator.BetGeneratorComponent.SetSport | web-frontend/src/app/features/generator/bet-generator.component.ts:220-226 | The sport is set, the selection cleared and the window reset to today. |
| BetGenerator.BetGeneratorComponent.SetMode | web-frontend/src/app/features/generator/bet-generator.component.ts:228-235 | Single forces 1 leg; other modes give at least 2. |
| BetGenerator.BetGeneratorComponent.OnLegsInput | web-frontend/src/app/features/generator/bet-generator.component.ts:242-249 | Single keeps 1 leg. Other modes clamp the input into [2, 12], keeping an in-range input as is. |
| BetGenerator.BetGeneratorComponent.OnOddsInput | web-frontend/src/app/features/generator/bet-generator.component.ts:252-257 | Only the targeted text changes. |
| BetGenerator.BetGeneratorComponent.OnOddsBlur | web-frontend/src/app/features/generator/bet-generator.component.ts:261-286 | The targeted box follows the blur rule: restore, keep or take. The other box is unchanged. |
| BetGenerator.BetGeneratorComponent.OnSlipOddsInput | web-frontend/src/app/features/generator/bet-generator.component.ts:289-293 | Only the slip-odds text changes, to the input. |
| BetGenerator.BetGeneratorComponent.OnSlipOddsBlur | web-frontend/src/app/features/generator/bet-generator.component.ts:294-310 | Blank or sign-only text restores the last value into both texts. Junk changes nothing. Otherwise the snapped value and its text are taken. |
| BetGenerator.BetGeneratorComponent.OnUnitsInput | web-frontend/src/app/features/generator/bet-generator.component.ts:314-317 | Only the stake text changes, to the input. |
| BetGenerator.BetGeneratorComponent.OnUnitsBlur | web-frontend/src/app/features/generator/bet-generator.component.ts:318-339 | Only a finite positive stake is taken; otherwise the previous stake is kept. The text is rewritten either way. |
| BetGenerator.BetGeneratorComponent.SetPreset | web-frontend/src/app/features/generator/bet-generator.component.ts:341-351 | Both boxes get the preset's values, texts and last-valid values. |
| BetGenerator.BetGeneratorComponent.ToggleModel | web-frontend/src/app/features/generator/bet-generator.component.ts:355-359 | Adds or removes exactly the id. |
| BetGenerator.BetGeneratorComponent.SetExclusiveModel | web-frontend/src/app/features/generator/bet-generator.component.ts:360-363 | Checking selects only the id; unchecking changes nothing. |
| BetGenerator.BetGeneratorComponent.SetStartOffset | web-frontend/src/app/features/generator/bet-generator.component.ts:366-371 | The start is clamped into [0, 6] and the end raised to it, so 0 ≤ start ≤ end ≤ 6. |
| BetGenerator.BetGeneratorComponent.SetEndOffset | web-frontend/src/app/features/generator/bet-generator.component.ts:372-377 | The end is clamped into [0, 6] and the start lowered to it, so 0 ≤ start ≤ end ≤ 6. |
| BetGenerator.BetGeneratorComponent.ToggleGame | web-frontend/src/app/features/generator/bet-generator.component.ts:380-384 | Membership changes for the id only. |
| BetGenerator.BetGeneratorComponent.SelectAllVisible | web-frontend/src/app/features/generator/bet-generator.component.ts:385-389 | The visible ids are added; every other id keeps its membership. |
| BetGenerator.BetGeneratorComponent.ClearVisible | web-frontend/src/app/features/generator/bet-generator.component.ts:390-394 | The visible ids are removed; every other id keeps its membership. |
| BetGenerator.BetGeneratorComponent.SelectDay | web-frontend/src/app/features/generator/bet-generator.component.ts:395-400 | The day's ids are added; every other id keeps its membership. |
| BetGenerator.BetGeneratorComponent.ClearDay | web-frontend/src/app/features/generator/bet-generator.component.ts:401-406 | The day's ids are removed; every other id keeps its membership. |
| GeneratorService.NormalizeAmericanOdds | web-frontend/src/app/shared/generator.service.ts:33-38 | Never inside (−100, 100). Non-finite or 0 gives 100, (0, 100) gives 100, (−100, 0) gives −100, and anything else is truncated. |
| GeneratorService.NormalizeAmericanIdempotent | web-frontend/src/app/shared/generator.service.ts:33-38 | Normalising twice is normalising once. |
| GeneratorService.OddsBounds | web-frontend/src/app/shared/generator.service.ts:41-43 | After normalising and the swap, min ≤ max, both valid odds, and they are the two normalised inputs. |
| GeneratorService.Draw | web-frontend/src/app/shared/generator.service.ts:47 | The rounded draw lies between the bounds. |
| GeneratorService.NormalizeBetween | web-frontend/src/app/shared/generator.service.ts:47-48 | Between valid bounds, normalising a draw keeps it between them. |
| GeneratorService.RandomOdds | web-frontend/src/app/shared/generator.service.ts:40-51 | The result has \|v\| ≥ 100 and lies within the normalised, ordered bounds. |
| GeneratorService.Pick | web-frontend/src/app/shared/generator.service.ts:74-76 | The pick is an element of the array. |
| GeneratorService.CatalogOf | web-frontend/src/app/shared/generator.service.ts:79-80 | The sport's catalog, or the fallback list when the sport has none. |
| GeneratorService.RandomLeg | web-frontend/src/app/shared/generator.service.ts:78-86 | The player and market come from the sport's catalogs. The line is a sign, a digit 1-3 and ".0". The odds lie within 100..600. |
| GeneratorService.LegsCount | web-frontend/src/app/shared/generator.service.ts:98 | 1 for Single, else max(1, legs). |
| GeneratorService.GenerateSlip | web-frontend/src/app/shared/generator.service.ts:102-127 | One slip with the title and the three rationale lines. Single: slip odds within the range. Otherwise: the legs' odds within the range, and the slip odds combined from them. |
| GeneratorService.Generate | web-frontend/src/app/shared/generator.service.ts:97-130 | Exactly max(0, slips) slips, each of the declared shape. |
| Games.SportRoute | go-api/api_games.go:30-62 | The sport is trimmed and upper-cased. Blank gives "missing sport". Only NBA/NFL/NHL/MLB succeed, and the label is the normalised sport. |
| Games.SportPathsDistinct | go-api/api_games.go:50-58 | Different supported sports get different provider paths. |
| Games.ParseDays | go-api/api_games.go:36-41 | A blank value gives 7. A value is taken exactly when Atoi reads the trimmed text as an integer in [1, 30], so "05" and "+5" give 5. The result always lies in [1, 30]. |
| Games.ParseDaysOfDecimal | go-api/api_games.go:36-41 | Every number 1..30 written in decimal is taken. |
| Games.ParseDaysOutOfRange | go-api/api_games.go:36-41 | Every int64 outside 1..30 falls back to 7. |
| Games.ListGames | go-api/api_games.go:28-70 | Bad sports are rejected before any fetch. Success exactly when the route and the fetch succeed, with the fetched games. |
| Games.NameOf | go-api/api_games.go:157-160 | The display name, or the short name when it is empty. |
| Games.LastNameIsLast | go-api/api_games.go:155-167 | Home (away) is the name of the last competitor marked (not marked) "home", or "" when there is none. |
| Games.HomeAway | go-api/api_games.go:152-167 | The loop over the first competition's competitors yields those last names. |
| Games.EventTime | go-api/api_games.go:170-173 | The event date is used first, then the first competition's date. |
| Games.EventGame | go-api/api_games.go:170-199 | A game exactly when the time parses and is not before the window start, with the event's id, the sport label, the formatted start and the home/away names. |
| Games.HadErrMeans | go-api/api_games.go:123-175 | The error flag is set exactly when some day failed or some event's time did not parse. |
| Games.EventsHadErrMeans | go-api/api_games.go:169-175 | Within one day, the error flag is set exactly when some event's time did not parse. |
| Games.AddDaysKeyed | go-api/api_games.go:192-199 | Every game in the map is stored under its own id. |
| Games.AddEventsOther | go-api/api_games.go:185-199 | Events that yield no game under an id leave that id's entry, or its absence, unchanged. |
| Games.LaterEventWins | go-api/api_games.go:185-199 | Within one scoreboard, an id holds the game of the last accepted event with that id: a later occurrence replaces an earlier one. |
| Games.AddEventsReaches | go-api/api_games.go:185-199 | Every accepted event's id is in the map. |
| Games.LaterDayEventWins | go-api/api_games.go:152-199 | Over all days, an id holds the game of the last accepted event with that id, in day order, then event order. |
| Games.AddDaysReaches | go-api/api_games.go:152-199 | Every accepted event of every scoreboard has its id in the map. |
| Games.AddDaysFrom | go-api/api_games.go:152-199 | Every game in the map was built from an event of one of the fetched scoreboards. |
| Games.CollectedInWindow | go-api/api_games.go:185-199 | Every collected game comes from an event with a parsed time not before the start. |
| Games.CollectDay | go-api/api_games.go:152-200 | One day's loop adds its events to the map and sets the flag on unparseable times. |
| Games.CollectGames | go-api/api_games.go:114-204 | The day loop computes the map and the error flag. |
| Games.ListById | go-api/api_games.go:206-209 | One game per map entry, ids distinct, exactly the map's values. |
| Games.FetchGames | go-api/api_games.go:97-223 | An error exactly when some day failed and nothing was collected. Otherwise each collected game once, with distinct ids, sorted by start. |
| Games.SortGames | go-api/api_games.go:210-217 | The in-place insertion sort computes `SortByStart` of the array. |
| Games.InsertAt | go-api/api_games.go:212-216 | The inner swap loop inserts element i into the sorted prefix. |
| Games.SortByStartSorted | go-api/api_games.go:210-217 | The result is non-decreasing by start string. |
| Games.SortByStartPermutes | go-api/api_games.go:210-217 | The result is a permutation of the input. |
| Games.SortByStartStable | go-api/api_games.go:213 | Games with equal start keep their relative order. |
| Games.SortByStartDistinct | go-api/api_games.go:210-217 | Sorting keeps ids distinct. |
| GenerateSlip.LegsWanted | go-api/api_generate_slip.go:208-217 | 1 for mode "single" (trimmed, any case). Otherwise Legs when positive, else 3. Always ≥ 1. |
| GenerateSlip.ModelOrDefault | go-api/api_generate_slip.go:220-223 | A blank model becomes "Narrative"; any other model is trimmed. |
| GenerateSlip.OrDefault | go-api/api_generate_slip.go:397-402 | def exactly when s is blank after trimming, else s itself. |
| GenerateSlip.OrDefaultIdempotent | go-api/api_generate_slip.go:397-402 | Applying it twice is applying it once. |
| GenerateSlip.BetTypeOf | go-api/api_generate_slip.go:354-365 | The trimmed, lower-cased mode picks one of the four rule texts; an unknown mode picks the default-SGP text. |
| GenerateSlip.SgpRulesIgnoresCase | go-api/api_generate_slip.go:354-365 | Modes equal up to case and surrounding space get the same rules. |
| GenerateSlip.TemplateOf | go-api/api_generate_slip.go:273-350 | The selected template is the default or one whose alias list holds the key. |
| GenerateSlip.TemplateOfAliases | go-api/api_generate_slip.go:275-341 | Each alias list selects its own template. |
| GenerateSlip.TemplateOfDefault | go-api/api_generate_slip.go:343-349 | The default template is selected exactly when the key is in no alias list. |
| GenerateSlip.PromptEmbeds | go-api/api_generate_slip.go:269-351 | Whatever the template, the prompt contains the mode rules, the legs count, the payout block and the sport. |
| GenerateSlip.BoostLine | go-api/api_generate_slip.go:376-380 | The boost line when boostPct > 0, else the "No boost" line. |
| GenerateSlip.RangeBounds | go-api/api_generate_slip.go:384-390 | Both bounds when both are ≥ 100, "≥ min" when only min is, "≤ max" otherwise. |
| GenerateSlip.RangeLine | go-api/api_generate_slip.go:382-392 | The range sentence appears exactly when min or max is ≥ 100. |
| GenerateSlip.PayoutClauses | go-api/api_generate_slip.go:368-395 | The payout block contains the boost or no-boost line, and the range sentence when it applies. |
| GenerateSlip.GamesBlock | go-api/api_generate_slip.go:237-243 | Empty exactly when there are no games. |
| GenerateSlip.WriteGames | go-api/api_generate_slip.go:237-243 | The builder loop appends the header and one line per game. |
| GenerateSlip.ResolveFilters | go-api/api_generate_slip.go:208-225 | The legs count, model and trimmed sport the prompt uses. |
| GenerateSlip.BuildPromptFromFilters | go-api/api_generate_slip.go:206-267 | Time line, fixed instructions, games block, schema, then the model's filled template. |
| GenerateSlip.PromptRestrictsToGames | go-api/api_generate_slip.go:237-243 | Every selected game's restriction line is in the prompt. |
| Text.LinesInOrder | go-api/api_generate_slip.go:239-242 | The lines come in input order: each element's line sits between its predecessors' lines and its successors'. |
| ModelStats.NormalizeMode | go-api/api_model_stats.go:31-41 | SINGLE, SGP and SGP+ (trimmed, any case) give Single, SGP and SGP+. Anything else, empty included, gives ALL. |
| ModelStats.NormalizeModeIdempotent | go-api/api_model_stats.go:31-41 | Normalising a normalised mode changes nothing. |
| ModelStats.CopyRows | go-api/api_model_stats.go:50-62 | One response row per stored row, in order, fields copied. |
| ModelStats.HandleModelStats | go-api/api_model_stats.go:20-64 | No user key gives unauthorized, and no database gives an error, both without a query. A failed query is an error. Otherwise the user's rows for the normalised mode are copied. |
| Csv.ToCsv | web-frontend/src/app/shared/csv.ts:1-7 | Empty exactly when there are no rows. |
| Csv.CsvLines | web-frontend/src/app/shared/csv.ts:3-6 | Split at line breaks: the first row's keys joined by commas, then one line per row, in order. |
| Csv.CsvCells | web-frontend/src/app/shared/csv.ts:5 | Each line has one cell per column: the stringified value, with null or absent values as the stringified "". |
| Csv.CsvIgnoresLaterKeys | web-frontend/src/app/shared/csv.ts:3 | Keys that only later rows have change nothing. |
| ErrorUtil.FirstString | web-frontend/src/app/shared/error.util.ts:5-11 | The first string among the candidates, or None exactly when there is no string. |
| ErrorUtil.MessageIsFirstString | web-frontend/src/app/shared/error.util.ts:1-18 | A falsy error gives the fixed text. Otherwise the message is the first string among `e`, `e.error`, `e.message` and `err.message` (`e` is `err.error ?? err`), then the stringification, then the fixed fallback. |
| ErrorUtil.ServerTextWins | web-frontend/src/app/shared/error.util.ts:5-7 | A string `error` body is shown verbatim. |
| ErrorUtil.NestedErrorBeatsMessage | web-frontend/src/app/shared/error.util.ts:5-11 | A nested `{error}` body beats the response's own message. |

### Specification functions

These functions model source code directly and have no row of their own. Their properties are stated by the members named beside them. `SgpRules` also ensures that its text is the one for the mode's `BetTypeOf` class.

- `ErrorUtil.ExtractErrorMessage` (web-frontend/src/app/shared/error.util.ts:1-18): see `MessageIsFirstString`, `ServerTextWins` and `NestedErrorBeatsMessage`.
- `GenerateSlip.SgpRules` (go-api/api_generate_slip.go:354-365): see `BetTypeOf` and `SgpRulesIgnoresCase`.
- `GenerateSlip.PayoutGuidance` (go-api/api_generate_slip.go:368-395): see `PayoutClauses`, `BoostLine` and `RangeLine`.
- `GenerateSlip.PromptForModel` (go-api/api_generate_slip.go:269-351): see `PromptEmbeds`, `TemplateOfAliases` and `TemplateOfDefault`.
- `GenerateSlip.PromptText` (go-api/api_generate_slip.go:206-267): see `BuildPromptFromFilters` and `PromptRestrictsToGames`.
- `Demo.Aggregate` (go-api/demo.go:89-111): see `AggregateBets`, `AggregateIsTallied` and `AggregateWellFormed`.
- `Games.SortByStart` (go-api/api_games.go:210-217): see `SortGames`, `SortByStartSorted`, `SortByStartPermutes`, `SortByStartStable` and `SortByStartDistinct`.
- `GeneratorService.Title` (web-frontend/src/app/shared/generator.service.ts:116-118): see `SlipOk`, which `GenerateSlip` and `Generate` establish.
- `PastBets.Stamped` (go-api/past_bets.go:132-135): see `StampedDate` and `PastBetStore.Save`.
- `PastBets.GradeBet` (go-api/past_bets.go:250-252): see `GradeTouchesOneBet` and `PastBetStore.Grade`.

## Left out

**Outside the model**
- HTTP, database and network plumbing is not modelled:
  - request decoding and JSON writing;
  - GORM queries, `trimPastBetsGorm` and the DB branches of the handlers;
  - PastBets.UpdateUserModelStat and StatsUpsert.UpsertUserModelStat return the new row: the error of the final `db.Create`/`db.Save` (past_bets.go:345-347, stats_upsert.go:63) is not modelled;
  - the ESPN HTTP loop and the OpenAI call;
  - `main.go`.
- **Parameters in place of effects.**
  - A database lookup, the games fetch and the stats query are parameters.
  - Each ESPN day is a `DayResult` value (request failed, bad status, decode failed, or a scoreboard).
- **Parameters in place of the time library.**
  - `parseESPNTime` becomes `parse`; `t.Format(time.RFC3339)` becomes `rfc3339`.
  - The label format is `display`; the current time is a given string.
  - The window end is not checked, as in the source. The day dates are not modelled.
- **Randomness.**
  - `newID` is a `freshId` function.
  - `Math.random()` is a sequence `draw` of numbers in [0, 1), and each draw consumes the next offset.
- **The float formatting functions are parameters:**
  - `combineAmerican` (`combine`);
  - `prettyNumber` (`pretty`);
  - the `%.0f` formatting (`fmt0`).
- **Idealised numbers.** The model uses exact integers and reals where the source has IEEE doubles:
  - Units and ROI are exact reals, so rounding and NaN units are not modelled.
  - GeneratorService.Generate and GeneratorService.LegsCount take `legs` and `slips` as integers. The source types them `number`, so the source's behaviour on a NaN or fractional legs count (no legs and the title "xNaN") is not modelled.
  - BetGenerator odds, stake and day offsets are exact integers and reals. `String(v)` is modelled as plain decimal, so the exponent form JavaScript writes for \|v\| ≥ 10²¹ (for example "+1e+21") is not modelled.
- **Strings.**
  - JavaScript numbers have no NaN inside `Finite`.
  - `Number()` is modelled on decimal text only: exponent, hex (`0x`), binary (`0b`) and octal (`0o`) forms read as NaN, where JavaScript reads them as numbers.
  - Trimming and case mapping are ASCII-only; Go and JavaScript also fold non-ASCII letters and spaces.
- **Fixed prompt prose.** It is a `Wording` parameter: the fixed instructions, the schema, the payout wording and each template's text around the legs count. What the model pins down is:
  - which template is chosen;
  - the order of the parts;
  - the clauses that are selected;
  - the game lines.
- **Odds catalogs.** The player and market catalogs of the demo generator are parameters, with the source's fallback lists as constants.
- **Angular machinery is not modelled:**
  - signals, RxJS subscriptions and the async `loadGames` response (`LoadGames` returns the request it would make);
  - `groupedGames` (its day groups are an input);
  - `canGenerate`, `boostInvalid`, the AI-slip save and discard;
  - UI-only helpers.
- `extractErrorMessage` covers null, undefined, booleans, numbers, strings and objects; functions, symbols and bigints are not modelled.

**Weaker or different from the source**
- RandomOdds: the `do … while (Math.abs(v) < 100)` loop is modelled as its single pass. `normalizeAmericanOdds` never returns a value inside (−100, 100), so the loop condition is always false after the first pass and the loop body never repeats.
- PastBets.UnitsForOutcome: the stake is fixed at 1.0, the value every caller passes.
- GeneratorService.Generate: the order of the slips is that of the loop, but the contract states their number and shape, not which draws went into which slip.
- GeneratorService.GenerateSlip: the leg odds of a Single slip come from `randomLeg` (100..600) and are not overwritten, as in the source.
- BetGenerator.BetGeneratorComponent.constructor: the component starts in Single mode with 2 legs, as the source's initial signals do. The legs rule holds only after `setMode` or `onLegsInput`, so `Valid()` allows 1 to 12 legs.
- **Odds snapping in the dead zone.** The wizard snaps every value in the dead zone by its sign, not toward the direction of change: 0..95 becomes +100 and −100..−5 becomes −105. `BetGenerator.SnapOdds` follows the code. The demo generator's `normalizeAmericanOdds` maps (−100, 0) to −100 instead, and `GeneratorService.NormalizeAmericanOdds` follows that code.
