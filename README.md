# Ban/pick draft engine — a Dafny model

This project models the ban/pick draft engine of a two-player tournament tool. The
tool is a Vue/Pinia web app. The model has four parts.

- **Sequence generator** (`bp_rules.dfy`, module `BpRules`). There are four fixed
  templates: ban ×4, pick ×6, ban ×6, pick ×4. They are written in terms of the
  road-2 and road-4 lanes. `GetBPSequence` substitutes the players who hold those
  lanes. The proofs cover four things: the stage lengths, the player and action of
  every step, the count of every step, and 5 bans plus 5 picks per player.
- **Eligibility rules** (`validators.dfy`, module `Validators`). These are `canBan`,
  `canPick` (three reasons, checked in a fixed order), `validatePosition`, the
  match-end tests and the bonus-item test. They are functions of a value-level
  `GameView`.
- **Catalog helpers** (`custom_plants.dfy`, module `CustomPlants`). These are the
  field validator for a user-defined plant, and the two synchronous lookups over the
  built-in plants and the in-memory cache.
- **Draft state machine**, in two files.
  - `draft.dfy` (module `Draft`) gives the store's saved state as a `MatchState`
    value. Every action is a function from the old state to the new one. The getters
    and the guarantees of each action are lemmas.
  - `store.dfy` (module `Store`) is the store itself: class `GameStore`. Its fields
    are the eight saved fields and its methods update them in place. The source's
    loops in `updateCurrentStep`, `moveToNextStep` and `updatePlantUsage` are kept.
    Every method is proved to produce exactly the state its `Draft` function
    computes. Every action except `loadFromLocalStorage`, which takes in whatever was
    saved, also keeps a valid cursor valid (`Valid`). The helper methods that make up
    `moveToNextStep` and `confirmSelection` leave that proof to the action that calls
    them.
- **A whole draft** (`draft_walk.dfy`, module `DraftWalk`). From the start of a round
  with both lanes held, ordinary selections confirmed one per step follow the
  generated sequence. Each choice lands in the list of the player and action named
  by its step. After twenty confirmations the draft is positioning, with five bans
  and five picks for each player.

`common.dfy` (module `Common`) holds the shared vocabulary: `Option`, the two player
keys, the per-player records and the usage ledger. The ledger's string key
`"${player}_${plantId}"` is modelled as a pair. Its player prefix is always
`player1_` or `player2_`, so the pair loses nothing.

Some behaviours are modelled as the code has them, even where a reader might expect
otherwise:

- A ban is confirmed without calling `canBan`. Lemma `UncheckedBanCanRepeat` shows
  that a repeated ban then enters the lists.
- Picking the bonus item while its window is open re-opens the window, because the
  bonus test comes first.
- At the last step `moveToNextStep` does not move `step`. It only switches to
  positioning.
- `startRound` sets `'banning'` even when the sequence is empty.
- `selectRoad` changes only the loser's road. A loser who takes the winner's road
  leaves both players on one lane. The next round then has no steps at all
  (`SelectRoadSharedLane`).

The doc comment of `availablePlants` (src/store/gameStore.js:87-91) does not cover
a pick step with no acting player. There the getter throws, because it spreads
`picks[null]`, and the model returns `None`.

## Model

| member | source | states |
|---|---|---|
| BpRules.CountOrOne | src/utils/bpRules.js:68 | A missing or zero count becomes exactly 1. A given non-zero count is kept. |
| BpRules.ConvertTemplate | src/utils/bpRules.js:63-70 | The stage has the template's length. Entry i is template entry i with the lane replaced by that lane's player. |
| BpRules.GetBPSequence | src/utils/bpRules.js:57-78 | Always four stages. Four empty stages when either lane holder is missing. |
| BpRules.NoLaneNoSteps | src/utils/bpRules.js:58-61 | With a lane holder missing, the sequence has 0 steps. |
| BpRules.GetStageStepCount | src/utils/bpRules.js:84-86 | The stage's length, or 0 for a missing stage. |
| BpRules.StageAt | src/utils/bpRules.js:84-86 | JavaScript indexing of the sequence, undefined outside it. With `GetStageStepCount`, `BpRules.StageStepCounts` gives 4, 6, 6, 4 and 0 for any other index. |
| BpRules.GetTotalSteps | src/utils/bpRules.js:92-94 | The sum of the stage lengths. It equals the length of the flattened order (`BpRules.Flatten`) and grows by each stage's length (`BpRules.TotalStepsSnoc`). |
| BpRules.TotalStepsZero | src/utils/bpRules.js:92-94 | The total is 0 exactly when every stage is empty. |
| BpRules.StageStepCounts | src/utils/bpRules.js:84-86 | Stages 1..4 have 4, 6, 6 and 4 steps. An index outside the sequence gives 0. |
| BpRules.SequenceShape | src/utils/bpRules.js:8-41 | Stage lengths are 4, 6, 6, 4. `getTotalSteps` is 20, and so is the flattened length. |
| BpRules.SequenceWrittenOut | src/utils/bpRules.js:8-41 | The generated sequence equals the four templates written out with the two players. |
| BpRules.StepsFollowTemplates | src/utils/bpRules.js:63-70 | Every step's player is the road-2 player where the template says road 2, else the road-4 player. Its action is the template's. Its count is 1. |
| BpRules.TemplateCounts | src/utils/bpRules.js:8-41 | Every template step's count is absent or 1. |
| BpRules.StageActions | src/utils/bpRules.js:8-41 | Every step's player is one of the two arguments. Stages 1 and 3 only ban; stages 2 and 4 only pick. |
| BpRules.StageOpeners | src/utils/bpRules.js:8-41 | The first step is a road-2 ban. Stages 3 and 4 open with the road-4 player. |
| BpRules.FivePerPlayer | src/utils/bpRules.js:8-41 | With distinct players, each has exactly 5 bans and 5 picks in the flattened sequence. |
| BpRules.Flatten | src/store/gameStore.js:269-277 | The flattened walking order has `getTotalSteps` entries. |
| BpRules.FlattenAt | src/store/gameStore.js:269-277 | Walking stage by stage, step j of stage i is entry (steps before stage i) + j of the flattened order. |
| BpRules.StageIndex | src/store/gameStore.js:371-378 | For a step below the total, the returned index is a stage whose range of steps holds it. |
| BpRules.InStageUnique | src/store/gameStore.js:371-378 | A step lies in exactly one stage, so the stage the loop finds is that stage. |
| CustomPlants.FindIndex | src/data/customPlants.js:60 | The first entry with the id, or -1 when there is none. |
| CustomPlants.FindById | src/data/customPlants.js:60 | `find` by id: the entry at `FindIndex`, or none. Over a concatenation, the first part's match wins (`CustomPlants.FindByIdAppend`). |
| CustomPlants.GetAllPlantsSync | src/data/customPlants.js:46-52 | Built-ins alone before the cache is loaded. After that, the built-ins followed by the cache, in order. |
| CustomPlants.GetPlantByIdSync | src/data/customPlants.js:58-66 | Built-ins first, then the cache only once loaded, else null. `CustomPlants.LookupAgreesWithList` proves it is a first-match search of the visible list. |
| CustomPlants.LookupAgreesWithList | src/data/customPlants.js:58-66 | The lookup equals a first-match search of the visible list, so a built-in shadows a cached plant. The result carries the id. It is null exactly when no visible plant has the id. |
| CustomPlants.ValidatePlant | src/data/customPlants.js:397-430 | The error list is the checks' errors in field order. `valid` holds exactly when that list is empty. |
| CustomPlants.PlantErrorsExact | src/data/customPlants.js:400-424 | Each error appears exactly when its own field fails its check: id, name, description, missing type, invalid type, image. |
| CustomPlants.PlantErrorsBounded | src/data/customPlants.js:412-424 | "Missing type" and "invalid type" never both occur, so there are at most 5 errors. |
| CustomPlants.PlantErrorsExamples | src/data/customPlants.js:397-430 | A well-formed record gives no errors. Single or combined failures give exactly their errors, in order. |
| Validators.IsBanned | src/utils/validators.js:12-14 | Holds exactly when the id is in the global bans or in the given round bans. |
| Validators.IsPicked | src/utils/validators.js:22-24 | Holds exactly when the id is in either pick list. |
| Validators.CheckUsageLimit | src/utils/validators.js:33-37 | True exactly when the ledger count is below the limit. With no ledger entry, true exactly for a positive limit. |
| Validators.CanPickOpponentPlant | src/utils/validators.js:47-50 | True exactly when the opponent's pick list does not hold the id. |
| Validators.CanBan | src/utils/validators.js:106-129 | Allowed exactly when the id is in none of the global bans and the two round-ban lists. Any refusal carries the ban reason. |
| Validators.CanBanIgnoresPicksAndUsage | src/utils/validators.js:106-129 | The verdict does not depend on the picks or the ledger. |
| Validators.CanPick | src/utils/validators.js:138-182 | Allowed exactly when the id is not banned, the opponent has not picked it, and own picks plus history are below 2. |
| Validators.CanPickBannedFirst | src/utils/validators.js:148-154 | A banned id is refused with the ban reason, whatever the picks and the usage. |
| Validators.CanPickOpponentExclusion | src/utils/validators.js:156-164 | An id in the opponent's picks is refused, with that reason unless it is banned. This agrees with `canPickOpponentPlant`. |
| Validators.CanPickUsageCap | src/utils/validators.js:166-177 | Otherwise, a total of 2 or more is refused with the usage reason carrying that total. The three reason texts are pairwise different. |
| Validators.CanPickAllowedStaysWithinCap | src/utils/validators.js:138-182 | An allowed pick means: not banned, not held by the opponent, and own count plus history at most 1. After appending it, the total is at most 2. |
| Validators.HistoryAtCapRefused | src/utils/validators.js:33-36 | A plant whose history alone fails `checkUsageLimit` is refused by `canPick`. |
| Validators.ValidatePosition | src/utils/validators.js:58-84 | The errors are the failed checks in the order road, empty, too many. `valid` holds exactly when there is none. |
| Validators.PositionErrors | src/utils/validators.js:58-84 | At most 2 errors; "no plants" and "too many plants" never both occur. `Validators.PositionErrorsExact` gives each error's condition. |
| Validators.PositionValidIff | src/utils/validators.js:58-84 | Valid exactly for road 2 or 4 with 1 to 5 plants. |
| Validators.PositionErrorsExact | src/utils/validators.js:58-84 | Each condition adds its error exactly when violated. There are at most 2 errors, and the road error comes first. |
| Validators.MatchEndFacts | src/utils/validators.js:190-199 | `isGameOver` is a threshold on either score, 4 by default. The 3:3 tie only arises while the match is not over. |
| Validators.IsGameOver | src/utils/validators.js:190-192 | Either score at the threshold, 4 by default, as `Validators.MatchEndFacts` states. |
| Validators.IsGrandFinal | src/utils/validators.js:197-199 | The 3:3 tie. `Validators.MatchEndFacts` proves it is never game over at the default threshold. |
| Validators.IsPumpkin | src/utils/validators.js:207-222 | The id 'pumpkin' always qualifies. Without a list, nothing else does. |
| Validators.IsPumpkinByName | src/utils/validators.js:213-219 | With a list, another id qualifies exactly when its first entry in the list is named 南瓜头. An absent id never qualifies. |
| Draft.RoadHolder | src/store/gameStore.js:72-85 | Player 1 if it holds the road, else player 2 if it does, else none. The holder really is on that road. |
| Draft.GetPlantUsageCount | src/store/gameStore.js:142-145 | The ledger entry, or 0 when there is none. |
| Draft.AvailablePlants | src/store/gameStore.js:92-130 | In a ban step: exactly the catalog plants `canBan` allows. Otherwise: exactly those `canPick` allows the acting player. Undefined (the getter throws) with no acting player. Catalog order and duplicates are kept (`Draft.FilterByIdAppend`, `Draft.FilterByIdCounts`). |
| Draft.FilterByIdAppend | src/store/gameStore.js:101-103 | `filter` of a concatenation is the two filtered parts concatenated, so catalog order is kept. |
| Draft.FilterByIdCounts | src/store/gameStore.js:101-103 | An entry that passes is kept as many times as it occurs. One that fails is dropped. |
| Draft.AvailablePlantInstances | src/store/gameStore.js:166-182 | In increasing order, exactly the indices of the player's picks of the plant that no placed entry of that player uses. |
| Draft.StartRound | src/store/gameStore.js:221-256 | A fresh round on the lane holders' sequence, first step located, status 'banning'. Its guarantees are `Draft.StartRoundEffect`. |
| Draft.InitGame | src/store/gameStore.js:187-207 | A new match and round 1. Its guarantees are `Draft.InitGameEffect`. |
| Draft.StartRoundEffect | src/store/gameStore.js:221-256 | Round n at stage 1, step 0. Empty bans, picks and formations; no selection and no window. Status 'banning' and a valid cursor. Players, scores, first player, bans, ledger and winner stay. With both lanes held: a road-2 ban, 20 steps. Else: no acting player and no steps. |
| Draft.InitGameEffect | src/store/gameStore.js:187-207 | Scores 0, the given ids, the given roads with 0 stored as no road, the given bans, an empty ledger, first player set and winner untouched. Round 1 is under way at stage 1, step 0, with no bans or picks. With roads 2 and 4 the road-2 player acts first. |
| Draft.LocateStep | src/store/gameStore.js:261-292 | The entry at `step` of the flattened order becomes the acting player, action and pick count; past the end, 'positioning'. `Store.GameStore.UpdateCurrentStep` reaches it with the source's loops. |
| Draft.LocateKeepsCursorValid | src/store/gameStore.js:261-292 | On a valid cursor, locating the step leaves the round as it is, so the cursor stays valid. |
| Draft.Advance | src/store/gameStore.js:357-386 | One step forward or, at the last step, 'positioning'. Its guarantees are `Draft.AdvanceEffect` and `Draft.AdvanceKeepsCursorValid`. |
| Draft.AdvanceEffect | src/store/gameStore.js:357-386 | Before the last step: one step forward, the stage holding it, its player and action, 'banning'. At the last step: only the status becomes 'positioning'. Nothing else changes. |
| Draft.AdvanceKeepsCursorValid | src/store/gameStore.js:357-386 | The cursor stays valid, so `0 <= step < total` while the sequence is non-empty. |
| Draft.Confirm | src/store/gameStore.js:297-352 | `confirmSelection` on the state. Its cases are the `Draft.Confirm*` lemmas below; it keeps the usage cap and cursor validity. |
| Draft.ConfirmNotice | src/store/gameStore.js:297-352 | The "select a plant first" alert without a selection, the `canPick` reason for a refused pick, else nothing. `Draft.ConfirmWithoutSelection` and `Draft.ConfirmRefusedPick` tie it to `Draft.Confirm`. |
| Draft.AfterPick | src/store/gameStore.js:329-350 | The pumpkin grant, the window countdown or a plain advance. Its guarantees are `Draft.AfterPickEffect` and the three pick lemmas. |
| Draft.ConfirmWithoutSelection | src/store/gameStore.js:298-301 | No selection: nothing changes and the alert is reported. |
| Draft.ConfirmRefusedPick | src/store/gameStore.js:318-322 | A pick `canPick` refuses changes nothing, not even the selection. The reason is reported. |
| Draft.ConfirmBan | src/store/gameStore.js:307-314 | The id is appended to the acting player's bans without a check. The selection is cleared, picks are untouched, and the cursor advances once. |
| Draft.AfterPickEffect | src/store/gameStore.js:329-350 | What follows an accepted pick keeps the lists, the ledger and the players, and keeps the cursor valid. |
| Draft.ConfirmBonusPick | src/store/gameStore.js:325-336 | The bonus item is appended and the window {player, 1} is opened or re-opened. Step, stage and status stay. The bans, the opponent's picks, the ledger and the players stay too. |
| Draft.ConfirmClosesWindow | src/store/gameStore.js:337-345 | The window player's next non-bonus pick is appended. It closes the window and advances exactly once. The bans, the opponent's picks, the ledger and the players stay. |
| Draft.ConfirmPlainPick | src/store/gameStore.js:346-350 | Any other accepted pick is appended, keeps the window and advances exactly once. |
| Draft.ConfirmKeepsUsageCap | src/store/gameStore.js:316-350 | Every player stays within 2 uses, this round plus history, of every plant they picked. |
| Draft.ConfirmKeepsCursorValid | src/store/gameStore.js:297-352 | Confirming keeps the cursor valid. |
| Draft.ConfirmBanKeepsBansDistinct | src/store/gameStore.js:307-314 | The ban lists stay free of repeats when the banned id passed `canBan`. |
| Draft.UncheckedBanCanRepeat | src/store/gameStore.js:307-314 | Confirming a ban of an id already in the global bans or either round-ban list leaves a repeat in the ban lists. |
| Draft.SetPosition | src/store/gameStore.js:391-407 | `setPosition` on the state. Its guarantees are `Draft.SetPositionEffect`. |
| Draft.FinishRound | src/store/gameStore.js:412-418 | Status 'result', no winner, round complete: the body is the three assignments of src/store/gameStore.js:414-417, and `Store.GameStore.FinishRound` equals it. |
| Draft.SetPositionEffect | src/store/gameStore.js:391-407 | An invalid formation changes nothing. A valid one is stored with the player's own road. The other player's formation and every other field of the state stay the same. |
| Draft.FoldUsageCounts | src/store/gameStore.js:470-473 | Folding one pick list adds each occurrence of a plant to the picker's entry. |
| Draft.UpdatePlantUsage | src/store/gameStore.js:466-480 | Player 1's picks folded in, then player 2's. `Draft.UpdatePlantUsageCounts` gives every resulting entry. |
| Draft.UpdatePlantUsageCounts | src/store/gameStore.js:466-480 | Each ledger entry grows by the occurrences in that player's picks, uncapped. |
| Draft.SetRoundWinner | src/store/gameStore.js:423-445 | `setRoundWinner` on the state. Its guarantees are `Draft.SetRoundWinnerEffect`. |
| Draft.SetRoundWinnerEffect | src/store/gameStore.js:423-445 | The winner's score grows by 1. The rest of the winner's record, the other player's whole record and the first player stay. The ledger grows by the round's picks. 'finished' comes exactly when `isGameOver` or `isGrandFinal` holds (or it already was); otherwise the status stays. |
| Draft.SelectRoad | src/store/gameStore.js:450-461 | `selectRoad` on the state. Its guarantees are `Draft.SelectRoadEffect` and `Draft.SelectRoadSharedLane`. |
| Draft.SelectRoadEffect | src/store/gameStore.js:450-461 | The loser's road is the chosen one and the rest of the loser's record stays. The winner's record, the ledger, the global bans, the first player and the round winner are untouched. Round `roundNumber + 1` starts at step 0. |
| Draft.SelectRoadSharedLane | src/store/gameStore.js:451-455 | Taking the winner's road gives a round with no steps and no acting player. Taking the other road gives the full 20-step round. |
| Draft.FirstFilled | src/store/gameStore.js:576 | The first non-null entry, or none when all entries are null. |
| Draft.FindPickFrom | src/store/gameStore.js:584-586 | The first matching pick at or after the offset, or -1. |
| Draft.MigratePlants | src/store/gameStore.js:570-601 | The length is kept. A list not in the legacy shape is unchanged. Otherwise each entry is upgraded with the intended source index (see Findings). |
| Draft.MigratePlantsAsWritten | src/store/gameStore.js:578-593 | The same upgrade with the source index as the code computes it. |
| Draft.NthPick | src/store/gameStore.js:581-586 | The index found holds the plant and lies at or after the offset, or -1. |
| Draft.NthPickExact | src/store/gameStore.js:581-586 | An index is found exactly when more than `n` copies lie at or after the offset. Exactly `n` copies then lie between the offset and it, so it is copy number `n`. |
| Draft.NthPickIncreasing | src/store/gameStore.js:581-586 | When a later occurrence exists, every earlier one exists and lies before it. |
| Draft.LegacyBeforeGrows | src/store/gameStore.js:583 | An equal bare id earlier in the list raises the count of copies before a later position. |
| Draft.MigrateAsWrittenSharesIndex | src/store/gameStore.js:581-586 | As written, with picks `b, a, a`, two bare `a` get the same source index 1. The intended upgrade gives 1 and 2. |
| Draft.MigrateIndicesDistinct | src/store/gameStore.js:581-586 | With the intended upgrade, two bare copies of a plant whose picks exist get different picks of that plant, in order. |
| Draft.MigratePlantsShape | src/store/gameStore.js:578-593 | Nulls stay null. Every bare id becomes a structured entry for the same plant, whose non-zero source index is a matching pick. No bare id remains. |
| Draft.MigratePlantsIdempotent | src/store/gameStore.js:576-577 | Migrating twice is migrating once. |
| Draft.MigrateWithoutLegacy | src/store/gameStore.js:576-577 | A list without bare ids is unchanged. |
| Draft.LoadAfterSave | src/store/gameStore.js:518-542 | Without legacy entries, migration returns the saved state itself. Migration is idempotent. The migrated state equals the saved one except for the formations, so the status and the cursor's validity are kept. |
| Draft.MigratePositions | src/store/gameStore.js:570-601 | Both players' formation lists upgraded. Its guarantees are `Draft.LoadAfterSave`. |
| Store.GameStore.constructor | src/store/gameStore.js:8-66 | The initial state. |
| Store.GameStore.ResetGame | src/store/gameStore.js:493-496 | Back to the initial state. |
| Store.GameStore.InitGame | src/store/gameStore.js:187-207 | The new state is `Draft.InitGame` of the old one, with a valid cursor. |
| Store.GameStore.StartRound | src/store/gameStore.js:221-256 | The new state is `Draft.StartRound` of the old one, with a valid cursor. |
| Store.GameStore.UpdateCurrentStep | src/store/gameStore.js:261-292 | The nested stage/step loops find the entry at `step` of the flattened sequence (`Draft.LocateStep`). A valid cursor stays valid. |
| Store.GameStore.MoveToNextStep | src/store/gameStore.js:357-386 | The summing loop and the stage-finding loop give `Draft.Advance` of the old state. A valid cursor stays valid. |
| Store.GameStore.MoveCursor | src/store/gameStore.js:357-386 | The body of `moveToNextStep`: `Draft.Advance` of the old state. |
| Store.GameStore.SumStageLengths | src/store/gameStore.js:360-364 | The summing loop returns the total number of steps of the sequence. |
| Store.GameStore.FindStage | src/store/gameStore.js:370-379 | For a step inside the sequence, the loop returns the index of the one stage that holds it. |
| Store.GameStore.ConfirmSelection | src/store/gameStore.js:297-352 | The new state is `Draft.Confirm` of the old one. The notice is `Draft.ConfirmNotice`. A valid cursor stays valid. |
| Store.GameStore.BanBranch | src/store/gameStore.js:307-314 | A ban appends the plant without any check, clears the selection and advances: `Draft.Confirm` of the old state. |
| Store.GameStore.PickBranch | src/store/gameStore.js:316-350 | A refused pick changes nothing and returns the reason. An accepted one gives `Draft.Confirm` of the old state. |
| Store.GameStore.FollowAcceptedPick | src/store/gameStore.js:329-350 | After the append, the pumpkin grant, the bonus-window countdown or the plain advance give `Draft.AfterPick` of the old state. |
| Store.GameStore.SetPosition | src/store/gameStore.js:391-407 | Returns the validator's errors. The new state is `Draft.SetPosition` of the old one. |
| Store.GameStore.FinishRound | src/store/gameStore.js:412-418 | Status 'result', no winner, round complete. Nothing else changes. |
| Store.GameStore.SetRoundWinner | src/store/gameStore.js:423-445 | The new state is `Draft.SetRoundWinner` of the old one. |
| Store.GameStore.SelectRoad | src/store/gameStore.js:450-461 | The new state is `Draft.SelectRoad` of the old one, with a valid cursor. |
| Store.GameStore.UpdatePlantUsage | src/store/gameStore.js:466-480 | The two loops leave the ledger at `Draft.UpdatePlantUsage` of the old ledger and picks. Nothing else changes, so a valid cursor stays valid. |
| Store.GameStore.MigrateLegacyPositions | src/store/gameStore.js:570-601 | Both formations upgraded as `Draft.MigratePositions` says. |
| Store.GameStore.LoadFromLocalStorage | src/store/gameStore.js:518-542 | Loads exactly when a record was saved. The state becomes the record with its formations upgraded; otherwise nothing changes. |
| Store.SaveThenLoad | src/store/gameStore.js:501-542 | Loading what one store saved into another gives back the saved state, when the store holds no legacy entries. |
| DraftWalk.AssignedCount | src/utils/bpRules.js:8-41 | The choices made at one player's steps of one action number exactly those steps among the first k. |
| DraftWalk.ConfirmIsAdvance | src/store/gameStore.js:297-386 | An ordinary confirmation on a valid cursor with no window appends the choice for the step's player and action, then advances once. |
| DraftWalk.ConfirmStep | src/store/gameStore.js:297-386 | That confirmation puts the choice in the step's list and clears the selection. It moves to the next step with a valid cursor, or to 'positioning' after the last. Players, bans of the match, ledger, first player, winner, round number, formations and round-complete flag stay. |
| DraftWalk.StartRoundOpens | src/store/gameStore.js:221-256 | `startRound` with both lanes held opens a 20-step round at step 0 with empty lists. |
| DraftWalk.WalkedStart | src/store/gameStore.js:221-256 | An open round is the start of a walk. |
| DraftWalk.WalkedStep | src/store/gameStore.js:297-386 | One more ordinary confirmation extends the walk description by one step. |
| DraftWalk.WalkInvariant | src/store/gameStore.js:297-386 | After k ≤ 20 ordinary confirmations from an open round: each player's bans and picks are the choices at that player's ban and pick steps. Step k with a valid cursor while k < 20; 'positioning' at step 19 after 20. |
| DraftWalk.WalkCounts | src/store/gameStore.js:297-386 | After k ordinary confirmations from `startRound`, each player's ban and pick counts equal that player's steps among the first k. |
| DraftWalk.DraftWalkComplete | src/store/gameStore.js:297-386 | Twenty ordinary confirmations from `startRound` end in 'positioning' with 5 bans and 5 picks per player. |

## Findings

| source | as written | input that shows it | evidently intended | confidence | as-written member | corrected member |
|---|---|---|---|---|---|---|
| src/store/gameStore.js:581-586 | A bare id with c equal bare ids before it takes the first matching pick at an index of at least c | picks `b, a, a`, formation `a, a`: both entries get source index 1, and pick 2 is never placed | the c-th bare copy takes the c-th pick of that plant (the comment says duplicates are accounted for), so copies get distinct picks | medium, not executed | Draft.MigrateAsWrittenSharesIndex | Draft.MigrateIndicesDistinct |

`Draft.MigratePlantsAsWritten` and `Draft.MigrateSlotAsWritten` model the code as
written. `Draft.MigratePlants` uses the intended index (`Draft.NthPick`), and so do
`Draft.MigratePositions` and the store's `MigrateLegacyPositions` and
`LoadFromLocalStorage`.

## Left out

- Storage I/O is not modelled. `saveToLocalStorage` is `GameStore.Snapshot`, the
  eight fields it writes. `loadFromLocalStorage` takes the parsed record, or None
  when nothing was saved. JSON parsing, its failure path and the `|| null` defaults
  of two loaded fields are not modelled. `resetGame` is modelled without removing
  the saved copy.
- `setRole` is not modelled. It only writes a storage key and a UI field outside the
  saved state.
- `randomBanPlants` uses a random shuffle, so it is not modelled. `initGame` takes
  the five global bans as a parameter.
- Instance ids are not modelled. They come from `generatePlantInstanceId`, which
  reads the clock. Placed entries keep the plant id and the source index, and
  `Draft.AvailablePlantInstances` returns the source indices only.
- The drag state and `setDragState`/`clearDragState` are UI-only and not saved, so
  they are not modelled.
- The `currentStageName` getter and `STAGE_NAMES` are display text, so they are not
  modelled.
- `validatePumpkin` is a stub that always accepts, so it is not modelled.
- Alerts and console output are not modelled as output. The two alerts of
  `confirmSelection` are its returned `Notice`, and the `setPosition` alert is its
  returned error list. The grand-final alert is not modelled; only its status
  change is.
- The asynchronous IndexedDB code of the catalog is not modelled: `initializeCache`,
  `updateCache`, `openDB`, the add/update/delete/load functions, `getPlantById`,
  `getAllPlants`, the image helpers and the Blob/base64 converters. The cache appears
  as a given `CacheState`.
- Plant images are not modelled. `validatePlant` sees them only as fields that are
  truthy or not.
- Draft.Confirm: states with an action but no acting player are left unchanged, and
  the notice is `Done`. In the source, a ban in such a state throws at
  `bans[null].push`. A pick first goes through `canPick` with a null player. If that
  refuses (a banned id, say), the source alerts the reason where the model reports
  `Done`. Otherwise the source throws at `picks[null]`. No modelled action produces
  such a state.
- DraftWalk.WalkInvariant: a walk is proved for ordinary choices only. The bonus item
  and `canPick` refusals are covered one confirmation at a time by the `Draft.Confirm*`
  lemmas, not across a whole draft.
- Selecting a plant is done by the UI components, which assign
  `currentRound.selectedPlant`. They are not modelled; `DraftWalk.Select` is that
  one assignment.
- Draft.MigratePlants: in a legacy list, an entry that is already structured is
  kept as it is. The source would wrap that object as a plant id.
- Draft.SetRoundWinner: the winner argument is one of the two player keys. The
  source also accepts any other value, which scores nobody.
- Draft.SelectRoad, Store.GameStore.SelectRoad: the loser argument is one of the two
  player keys. The source also accepts any other value, which sets no road and
  still starts round `roundNumber + 1`.
- Store.GameStore.ConfirmSelection: the usage-cap invariant is stated and proved
  on the `Draft.Confirm` function (`Draft.ConfirmKeepsUsageCap`), not repeated on
  the method.
- Integers are unbounded. The scores, steps and ledger counts in the source are
  JavaScript numbers that never get near their precision limit.
