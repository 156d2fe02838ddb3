# Wiezen scorekeeper — a verified model

This project models the core of a scorekeeper for Wiezen. Wiezen is a Flemish trick-taking card game for four players. The model covers:

- the fixed catalog of contracts;
- the round scorer, which turns a contract, its attackers, the tricks they won and the doubling flag into signed base points and one delta per player;
- the round-entry form: picking attackers, the trick counter, the contract and pass switches, and building the round record;
- the game state: starting, committing rounds, dealer rotation, the "next round doubled after a pass" flag, finishing, un-finishing and resetting;
- the cumulative-score series that the statistics chart draws;
- the setup screen that creates the four players.

Modules follow the source files:

| module | models |
|---|---|
| `Types` | `types.ts`, plus small sequence helpers |
| `Text` | the two JavaScript string operations used: `trim` and decimal rendering of a number |
| `Constants` | `constants.ts` (`CONTRACT_OPTIONS`) |
| `Scoring` | `calculateScores` from `components/RoundInput.tsx`, as pure functions |
| `RoundInput` | the state and handlers of `components/RoundInput.tsx`, as the class `RoundInputForm` |
| `App` | the `App.tsx` state machine (class `Game`) and the chart data |
| `GameSetup` | `components/GameSetup.tsx` (class `Setup`, `CreatePlayers`) |

Main properties proved:

- A real contract's base points are its stake, won when the contract is made and lost otherwise. The stake is never zero. For the trick-taking contracts, more tricks never score less.
- The scorer accepts a round exactly when its attacker count matches the contract's category. It then gives every seated player a delta and nobody else. A lone attacker gets three times the base points, each of two attackers the base points, and each defender loses the base points.
- The deltas of every accepted round sum to zero over the four seats.
- Doubling doubles the base points and every delta exactly once.
- The submit button is enabled exactly when the scorer accepts the form. A submitted round has the shape that the game state expects.
- The game state keeps these invariants:
  - the dealer is the number of committed rounds mod 4;
  - rounds are numbered 1, 2, … in order;
  - the doubling flag is set exactly after a Pass round;
  - each score is its opening score plus the sum of its deltas.
  - Hence the chart's last point equals the scores of a game started from setup, and the sum of the scores never changes.
- Setup creates player ids that are pairwise distinct. Each id parses back to its seat.

## Model

| member | source | states |
|---|---|---|
| Types.Delta | App.tsx:65 | a round's delta for a player: the stored value, or 0 when the round has no entry for that player |
| Types.Without | components/RoundInput.tsx:36 | removing an attacker keeps exactly the other ids, never lengthens the list and keeps it duplicate-free |
| Types.WithoutLength | components/RoundInput.tsx:36 | removing a picked attacker from a duplicate-free list shortens it by exactly one |
| Types.WithoutAbsent | components/RoundInput.tsx:36 | filtering out an id that is not present changes nothing |
| Types.Ids | components/RoundInput.tsx:131 | the seating-order id list has one entry per player, the i-th being the i-th player's id |
| Text.TrimStart | components/GameSetup.tsx:23 | the result is a suffix of the input; everything dropped is whitespace; it does not start with whitespace |
| Text.TrimEnd | components/GameSetup.tsx:23 | the result is a prefix of the input; everything dropped is whitespace; it does not end with whitespace |
| Text.Trim | components/GameSetup.tsx:23 | the trimmed name is a middle slice of the input; everything dropped before and after it is whitespace; it neither starts nor ends with whitespace |
| Text.TrimEmptyIffBlank | components/GameSetup.tsx:23 | a name trims to empty exactly when every character of it is whitespace |
| Text.NatToString | components/GameSetup.tsx:22 | the rendered number is a non-empty digit string whose decimal value is the number, one digit exactly below 10, with no leading zero |
| Text.NatToStringInjective | components/GameSetup.tsx:22 | different numbers render as different strings |
| Constants.FindIn | components/RoundInput.tsx:23 | `find` returns an entry exactly when one of that kind exists, and then the first such entry |
| Constants.ContractOptions | constants.ts:3-16 | the nine catalog entries, in order, with caption, target, min, max and category as listed |
| Constants.Find | constants.ts:3-16 | lookup by kind as a table; `FindIsFirstMatch` proves it equals `find` over the catalog |
| Constants.FindIsFirstMatch | constants.ts:3-16 | catalog lookup by kind is what `CONTRACT_OPTIONS.find` returns; it finds an entry for every kind except Pass, and the entry has the requested kind |
| Constants.FindInAt | constants.ts:3-16 | `find` stops at the first entry of the kind |
| Constants.Seats | components/RoundInput.tsx:108-109 | a team contract is played by two attackers, a solo contract by one |
| Constants.CatalogOnePerKind | constants.ts:3-16 | no catalog entry is Pass and no kind is listed twice |
| Constants.CatalogCategories | constants.ts:5-15 | exactly Normal and Troel are team contracts |
| Constants.CatalogBounds | constants.ts:5-15 | each entry satisfies 0 <= min <= target <= max <= 13 |
| Constants.CatalogTargets | constants.ts:5-15 | the targets are 8, 8, 5, 1, 9, 0, 0, 13 and 13, as listed |
| Scoring.ContractPoints | components/RoundInput.tsx:56-96 | the contract switch as written, with the win test `tricks >= target`; its meaning is stated by `ContractPointsAreSignedStake` |
| Scoring.Made | components/RoundInput.tsx:56-96 | reference definition: when each contract counts as made (at least its target for the trick-taking ones, an exact count for Miserie, Piccolo and the solos) |
| Scoring.Stake | components/RoundInput.tsx:56-96 | reference definition: the unsigned stake of each contract by trick count, against which the switch is proved |
| Scoring.ContractPointsAreSignedStake | components/RoundInput.tsx:56-96 | for every trick count, a real contract scores its positive stake when made and minus that stake otherwise |
| Scoring.SignedStakeAtTarget | components/RoundInput.tsx:57-96 | the same, for a catalog entry whose target is the contract's target |
| Scoring.MoreTricksNeverScoreLess | components/RoundInput.tsx:56-96 | for Alone, Normal, Troel, Abondance and both solos, more tricks never score less |
| Scoring.Doubled | components/RoundInput.tsx:99-101 | a doubled round multiplies the base points by two once; its effect on every delta is `DoublingAppliedOnce` |
| Scoring.Distribute | components/RoundInput.tsx:111-118 | the distribution as written; its shape and zero sum are `DistributionShape` and `ZeroSum` |
| Scoring.Defenders | components/RoundInput.tsx:104 | the defenders are exactly the seated players who are not attacking |
| Scoring.CalculateScores | components/RoundInput.tsx:47-121 | a pass round scores nothing; any other round is accepted exactly when the contract is in the catalog and the attacker count matches its category; then the doubled contract points are distributed |
| Scoring.DistributionShape | components/RoundInput.tsx:111-118 | an accepted round gives a delta to every seated player and nobody else: a lone attacker 3x the base points, each of two attackers 1x, each defender -1x |
| Scoring.DistributeShape | components/RoundInput.tsx:111-118 | the same for the distribution step on its own |
| Scoring.SoloShape | components/RoundInput.tsx:111-114 | one attacker: 3x the base points for the attacker, -1x for each other seat |
| Scoring.TeamShape | components/RoundInput.tsx:115-118 | several attackers: 1x each, -1x for each other seat |
| Scoring.CountIn | components/RoundInput.tsx:104 | the number of seats that attack never exceeds the number of seats |
| Scoring.CountInSameMembers | components/RoundInput.tsx:104 | the attacking-seat count depends only on which ids attack |
| Scoring.CountInChosen | components/RoundInput.tsx:104 | with distinct seated attackers, the attacking-seat count is the attacker count |
| Scoring.CountInNone | components/RoundInput.tsx:104 | with no attackers, no seat attacks |
| Scoring.CountInAddOne | components/RoundInput.tsx:104 | adding a new seated attacker adds one attacking seat |
| Scoring.SumOverSplit | components/RoundInput.tsx:111-118 | a two-valued delta map sums to count x attacker value + (seats - count) x defender value |
| Scoring.ZeroSum | components/RoundInput.tsx:47-121 | the deltas of every accepted round, the pass round included, sum to zero over the four seats |
| Scoring.DistributeZeroSum | components/RoundInput.tsx:111-118 | 3x - 3x = 0 for one attacker and 2x - 2x = 0 for two |
| Scoring.DoublingAppliedOnce | components/RoundInput.tsx:99-101 | a doubled round is accepted exactly when the plain one is, with twice the base points and every delta doubled |
| Scoring.NormalTenTricks | components/RoundInput.tsx:65-70 | Normal with ten tricks: attackers +4, defenders -4 |
| Scoring.TroelThirteen | components/RoundInput.tsx:71-75 | Troel with all thirteen tricks pays 20 |
| Scoring.TroelThirteenDoubled | components/RoundInput.tsx:99-101 | the same Troel in a doubled round pays 40 |
| Scoring.AbondanceWinAndLoss | components/RoundInput.tsx:76-80 | Abondance pays 8 with eleven tricks and costs 4 with eight |
| Scoring.SoloMade | components/RoundInput.tsx:90-92 | a made Solo: attacker +75, each defender -25 |
| Scoring.TeamContractNeedsTwo | components/RoundInput.tsx:108 | a team contract with one attacker is rejected |
| RoundInput.RoundInputForm.constructor | components/RoundInput.tsx:15-18 | the form opens on Normal, with no attackers, the counter at 8 and passing off, satisfying the form invariant |
| RoundInput.RoundInputForm.TogglePlayer | components/RoundInput.tsx:30-45 | ignored in a pass round; a picked player is dropped; an unpicked one is added while the side has room; a new solo pick replaces the old one; the attacker invariant is kept |
| RoundInput.RoundInputForm.ContractChanged | components/RoundInput.tsx:21-28 | outside a pass round, the counter goes to the contract's target and the attackers are cleared |
| RoundInput.RoundInputForm.SelectContract | components/RoundInput.tsx:150 | selects the contract and turns passing off; the counter and attackers reset only when that changed the contract or the pass switch |
| RoundInput.RoundInputForm.TogglePass | components/RoundInput.tsx:194 | flips passing; turning it off resets the counter and the attackers for the selected contract |
| RoundInput.RoundInputForm.DecrementTricks | components/RoundInput.tsx:262 | the counter goes down by one but never below 0 |
| RoundInput.RoundInputForm.IncrementTricks | components/RoundInput.tsx:275 | the counter goes up by one but never above 13 |
| RoundInput.RoundInputForm.IsValid | components/RoundInput.tsx:143-145 | the submit button is enabled exactly when the scorer accepts the form |
| RoundInput.RoundInputForm.Submit | components/RoundInput.tsx:123-141 | a round is produced exactly when the form is valid; a pass round is stored as Pass with nothing scored and not doubled; other rounds keep the form's contract, attackers and tricks, store positive absolute base points, and the stored deltas are exactly the scorer's distribution, which sums to zero |
| App.InitialState | App.tsx:14-21 | no players, no rounds, dealer 0, not started, not finished, not doubled |
| App.Total | App.tsx:133-136 | a player's running total: the sum of their deltas over the rounds, a missing key counting 0; `TotalSnoc` and `ChartRows` state it |
| App.TotalSnoc | App.tsx:134-136 | appending a round adds its delta to each running total |
| App.Scores | App.tsx:44-53 | the opening scores are the seated players' scores in order |
| App.ScoreRound | App.tsx:63-66 | every player keeps id and name and gains exactly the round's delta (0 when absent) |
| App.ScoreRoundSum | App.tsx:63-66 | scoring a round raises the score sum by the round's delta sum |
| App.TotalsOverSnoc | App.tsx:55-78 | appending a round adds its delta sum to the sum of running totals |
| App.TotalsOverBalanced | App.tsx:55-78 | if every round is zero-sum, so is the whole history |
| App.TotalsOverEmpty | App.tsx:44-53 | with no rounds, all running totals are zero |
| App.BalancedSnoc | App.tsx:70 | appending a zero-sum round to a zero-sum history keeps it zero-sum |
| App.ScoreRoundTracks | App.tsx:63-66 | scoring a round keeps each score equal to its opening score plus its running total |
| App.ScoresSplit | App.tsx:63-66 | the score sum is the opening sum plus the sum of running totals |
| App.CommitKeepsConsistent | App.tsx:55-78 | a commit keeps the game invariant: dealer = rounds mod 4, rounds numbered in order, doubling exactly after a Pass, scores = opening + totals |
| App.Game.constructor | App.tsx:14-21 | the app starts in the initial state, satisfying the invariant |
| App.Game.StartGame | App.tsx:44-53 | seats the given players with no rounds, dealer 0, started, not finished, not doubled |
| App.Game.CompleteRound | App.tsx:55-78 | numbers the round, appends it, adds its deltas to the scores, moves the dealer on mod 4, doubles the next round exactly after a Pass, and keeps the invariant and zero-sum history |
| App.Game.FinishGame | App.tsx:94-97 | only the finished flag changes, to true |
| App.Game.Reopen | App.tsx:103 | only the finished flag changes, to false |
| App.Game.Reset | App.tsx:80-92 | a confirmed reset returns to the initial state; an unconfirmed one changes nothing |
| App.Game.ResetFromGameOver | App.tsx:104-116 | the game-over reset returns to the initial state without confirmation |
| App.Game.Chart | App.tsx:130-140 | one point per round, with each seat's running total after that round; the last point is each score less its opening score |
| App.Game.ScoresConserved | App.tsx:55-78 | with zero-sum rounds, the score sum stays the opening sum |
| App.ChartRows | App.tsx:130-140 | the triple loop yields, for round i and seat k, the sum of seat k's deltas over rounds 0..i |
| App.ChartPoint | App.tsx:131-138 | a chart point always carries the x key "name" |
| App.ChartPointHasName | App.tsx:137 | every player's name is a key of the point |
| App.ChartPointValue | App.tsx:137 | a player whose name no later player repeats is charted with their own running total |
| App.ChartPointX | App.tsx:131 | the x value survives unless a player is called "name" |
| App.ChartPointMergesSameNames | App.tsx:137 | two players with the same name share one key, and looking up the first finds the second's total |
| App.PlayRound | App.tsx:55-78 | a form submission commits a round exactly when the form is valid; otherwise the game is untouched; the committed round is doubled exactly when the game's flag was set and it is not a pass; the flag afterwards says whether it was a pass; the scores gain exactly the deltas the scorer computed for the form |
| GameSetup.PlayerIdFor | components/GameSetup.tsx:22 | `p-<seat>-<clock>`; `SeatOfPlayerId` proves the seat parses back out of it |
| GameSetup.LeadingDigits | components/GameSetup.tsx:22 | the leading digit run is a prefix made of digits |
| GameSetup.LeadingDigitsOf | components/GameSetup.tsx:22 | digits followed by a non-digit read back as exactly those digits |
| GameSetup.SeatOfPlayerId | components/GameSetup.tsx:22 | a player id parses back to its seat |
| GameSetup.PlayerIdsDiffer | components/GameSetup.tsx:22 | players in different seats get different ids, whatever the clock reads |
| GameSetup.DisplayName | components/GameSetup.tsx:23 | the shown name is never empty, and is the trimmed name when that is non-empty |
| GameSetup.DisplayNameBlank | components/GameSetup.tsx:23 | an all-whitespace name shows "Speler n"; any other name shows its non-empty trimmed form |
| GameSetup.CreatePlayers | components/GameSetup.tsx:19-26 | one player per seat with score 0, the display name and an id from the seat and that seat's clock reading; the ids are pairwise distinct |
| GameSetup.Setup.constructor | components/GameSetup.tsx:11 | the seats start as Noord, Oost, Zuid, West |
| GameSetup.Setup.ChangeName | components/GameSetup.tsx:13-17 | only the edited seat's name changes |
| GameSetup.Setup.Submit | components/GameSetup.tsx:19-26 | the game starts with four players with distinct ids, zero opening scores and no rounds |

## Left out

- Persistence in `localStorage` is left out: the JSON snapshot, its load on mount and its removal on reset are I/O.
- The AI assistant, the rules screen, the scoreboard, the game-over screen and all rendering are left out, including the chart's initial zero point and its lines. Of the chart, only the data computation is modelled.
- Modal visibility flags are left out: the round-entry overlay, statistics and rules. So is the cancel button, which only closes the form.
- The unused `ScoreConfig` interface and the colour `THEME` are left out.
- `confirm()` is a parameter of `App.Game.Reset`.
- `Date.now()` is read once per seat at setup and twice per round submission. The readings are parameters: `clock`, `idTime` and `stampTime`.
- App.Game.CompleteRound: the source writes the round number into the caller's round object before storing it. The model stores an updated copy, so the aliasing is not captured.
- App.Game.StartGame: this follows the code, which accepts any player list and keeps the given scores. A designed "exactly four players, scores reset to 0" check is absent from the code. The four-player and zero-score facts are proved for the setup path, `GameSetup.Setup.Submit`.
- App.Game.CompleteRound: this follows the code, which commits a round even while the game is marked finished. The intended "no commits while finished" rule is not enforced by the code, so it is not modelled.
- App.Game.FinishGame: this follows the code, which sets the flag in any state. The intended "only while in progress" rule exists only because the button is shown only then.
- The catalog's `min`/`max` are data only. The trick counter is bounded by 0 and 13, not by them.
- `dealerIndex` is passed to the form but never used there, so it is not a form field.
- `result[p.id] || 0` also maps a stored `NaN` to 0. Deltas here are integers, so only the missing-key case is modelled.

## Findings

| source | as written | input that shows it | evidently intended | confidence | as-written member | corrected member |
|---|---|---|---|---|---|---|
| App.tsx:137 | each chart point stores a player's running total under the player's display name, so players who share a name share one series and the earlier player's total is overwritten | setup names "Jan", "Jan", "Zuid", "West"; after a round where seat 0 has +5 and seat 1 has -5, the point holds "Jan" = -5 only | one series per seated player | medium, not executed | App.ChartPointMergesSameNames | App.ChartRows |
