# RPG text adventure — a Dafny model of its game logic

The game is a Next.js text adventure. A story endpoint asks a language model
for the next turn and sanitises the JSON it gets back. Two game pages apply
each turn to the player's state:

- the main page, which keeps its state in a persisted store;
- a debug page, which keeps its state in local component state.

A combat component runs dice-based fights. Two small libraries hold the race
and class trait tables and translate the SRD race and class lists.

This project models that logic in Dafny:

| file | models |
|---|---|
| `prelude.dfy`, `js_text.dfy` | The JavaScript behaviour the code relies on: `trim` with the ECMAScript white-space set, `join`, `slice`, number-to-string and ASCII `toLowerCase`. |
| `payload.dfy` | Untrusted JSON values, JavaScript truthiness and the `typeof` filters that both sanitisers use. |
| `turn_rules.dfy` | The rules both pages share: the enemy level derived from the danger tier, and walking the buff list once to route `hp`/`energy` and merge the rest. |
| `store.dfy` | A class whose fields are the store's state and whose methods are its setters. |
| `story_api.dfy` | The endpoint's character budgets, the history trimming loop, the rebuild plan for an over-long prompt, the `{…}` extraction and the response sanitiser with its catch-all fallback. |
| `main_page.dfy` | The main page's client sanitiser and the `callStory`, rest, restart, start, combat-end and pending-combat handlers, as specification functions on a `Screen` (store plus page state), with a `GamePage` class whose methods are proved equal to them. |
| `debug_page.dfy` | The debug page's turn, start, combat-end and restart handlers, the same way. |
| `combat.dfy` | Tuning and stat arithmetic as functions. The `Encounter` class models one mounted combat component, with its attack, counter-attack and refocus steps. |
| `traits.dfy` | The trait tables, their lookups and `formatTraitBonuses`. |
| `srd.dfy` | `translateList` and the SRD list endpoints once their response is in. |

Inputs the code receives from outside become parameters:

- dice rolls: an integer in `[1, sides]`;
- the `fetch` outcome;
- the text the language model generates;
- `JSON.parse`, as a function from text to a `Result`.

Stale closures are modelled explicitly. React handlers read the values captured
when they were created, so the main page's turn callback takes `seenHp` and
`seenEnergy`, and the combat counter-turn guard takes the HP captured at the
click.

Source and specification disagreements are resolved in favour of the code:

- The server's `choices` filter is dropped in combat. The client keeps the choices and falls back to `["전투 준비"]`.
- The debug page's `hp` buffs move HP unclamped, and `energy` goes into the buff map.
- A restart does not reset `pendingCombat` (and, on the debug page, `loading`).

## Model

| member | source | states |
|---|---|---|
| Prelude.Clamp | pages/index.tsx:227 | `Math.min(120, Math.max(0, x))`: the result is in range, equals `x` inside it and the nearer bound outside |
| JsText.TrimStart | pages/index.tsx:97 | removes exactly the leading white space: the result is a suffix, every removed character is white space and the first kept one is not |
| JsText.TrimEnd | pages/index.tsx:97 | removes exactly the trailing white space, symmetrically |
| JsText.TrimEmptyIffBlank | pages/index.tsx:97-101 | `s.trim()` is empty exactly when `s` is all white space |
| JsText.TrimHasNoOuterSpace | pages/index.tsx:97 | a non-empty trimmed string starts and ends with a non-space |
| JsText.JoinLength | pages/api/story.ts:63-77 | `join(sep).length` is the parts' lengths plus one separator between each pair, which is what `limitHistory` accumulates |
| JsText.JoinEmpty | lib/traits.ts:136 | a join is empty exactly when there are no parts or a single empty one |
| JsText.Prefix | pages/index.tsx:234 | `slice(0, n)`: the first `min(n, length)` characters |
| JsText.NatToString | pages/index.tsx:164-167 | decimal digits, non-empty, no leading zero except for 0, and the digits read back as `n` (`DigitsValue`) |
| JsText.NatToStringInjective | pages/index.tsx:164-167 | different numbers render as different strings, so the status in the message is the status |
| JsText.IntToString | lib/traits.ts:135 | a minus sign exactly for a negative amount, then digits that read back as its magnitude; a non-negative amount is digits that read back as itself |
| JsText.LowerChar | lib/srd.ts:37 | an ASCII capital maps to the lower-case letter 32 code points on; every other character is unchanged |
| JsText.ToLower | lib/srd.ts:37 | `toLowerCase` character by character, same length |
| JsText.ToLowerIdempotent | lib/srd.ts:37 | the lower-cased name has no ASCII capital left, and lower-casing it again changes nothing |
| Payload.FilterChoices | pages/index.tsx:98-103 | a choice is in the result exactly when it is a non-blank string item, and the result is no longer than the input; order and repeats are fixed by the next three rows |
| Payload.FilterChoicesSnoc | pages/index.tsx:98-103 | one more item adds its string at the end when it is a non-blank string, nothing otherwise |
| Payload.FilterChoicesAppend | pages/index.tsx:98-103 | filtering a concatenation is concatenating the filtered parts, so order and repeats are kept |
| Payload.FilterChoicesOne | pages/index.tsx:98-103 | one item gives its string when it is a non-blank string, nothing otherwise |
| Payload.AsBuff | pages/index.tsx:105-112 | an item is a buff exactly when it is an object with a string `target` and a numeric `amount` |
| Payload.FilterBuffs | pages/api/story.ts:195-200 | a buff is in the result exactly when some item `AsBuff` accepts gives it; order and repeats are fixed by the next three rows |
| Payload.FilterBuffsSnoc | pages/api/story.ts:195-200 | one more item adds its buff at the end when `AsBuff` accepts it, nothing otherwise |
| Payload.FilterBuffsAppend | pages/api/story.ts:195-200 | filtering a concatenation is concatenating the filtered parts, so two equal buffs stay two |
| Payload.FilterBuffsOne | pages/api/story.ts:195-200 | one item gives its buff when `AsBuff` accepts it, nothing otherwise |
| TurnRules.EnemyLevelFor | pages/index.tsx:190-207 | `low` gives the player's level, `medium` one more, `high` two more, any other tier the payload's level |
| TurnRules.TierLevelsOrdered | pages/index.tsx:194-206 | named tiers are strictly ordered within two levels of the player; only an unnamed tier lets the payload's level through |
| TurnRules.SumForAppend | pages/index.tsx:214-222 | the bonus sum over two buff lists is the sum of their sums |
| TurnRules.SumForUntargeted | pages/index.tsx:214-222 | a target no buff names sums to 0 |
| TurnRules.MergeAt | pages/index.tsx:213-222 | after the walk, each unrouted key holds its previous value (0 when absent) plus its buffs' sum, and a routed key is untouched |
| TurnRules.MergeKeys | pages/index.tsx:213-222 | a key is in the merged map exactly when it was before or an unrouted buff names it |
| TurnRules.MergeUntargeted | pages/index.tsx:213-222 | a key no buff names keeps its presence and value |
| TurnRules.RouteBuffs | pages/index.tsx:210-222 | the `forEach` loop: the `hp` sum, the `energy` sum and the merged map, proved against `SumFor`/`Merge` |
| StoryStoreModel.StoryStore.constructor | stores/useStoryStore.ts:31-47 | the initial state: empty history, no error, HP 100, level 1, four zero buffs |
| StoryStoreModel.StoryStore.SetDangerLevel | stores/useStoryStore.ts:48 | sets only the tier |
| StoryStoreModel.StoryStore.SetStory | stores/useStoryStore.ts:49 | sets only the story |
| StoryStoreModel.StoryStore.SetChoices | stores/useStoryStore.ts:50 | sets only the choices |
| StoryStoreModel.StoryStore.AddHistory | stores/useStoryStore.ts:52-53 | appends one line and changes nothing else |
| StoryStoreModel.StoryStore.SetChoice | stores/useStoryStore.ts:54 | sets only the choice |
| StoryStoreModel.StoryStore.SetLoading | stores/useStoryStore.ts:55 | sets only the loading flag |
| StoryStoreModel.StoryStore.SetError | stores/useStoryStore.ts:56 | sets only the error |
| StoryStoreModel.StoryStore.SetPlayerHp | stores/useStoryStore.ts:59 | sets only HP |
| StoryStoreModel.StoryStore.SetPlayerLevel | stores/useStoryStore.ts:60 | sets only the level |
| StoryStoreModel.StoryStore.SetBuffs | stores/useStoryStore.ts:61 | replaces only the buff map |
| StoryStoreModel.StoryStore.ResetProgress | pages/index.tsx:292-302 | the merged `setState` of a restart: history, error, loading, HP, level and buffs, nothing else |
| StoryApi.TruncateTail | pages/api/story.ts:42-43 | the last `min(length, max)` characters, the whole text when it fits |
| StoryApi.TrimmedBackground | pages/api/story.ts:79-81 | empty for a missing or blank background, else the trimmed text's last 800 characters |
| StoryApi.LimitHistory | pages/api/story.ts:63-77 | the result is the longest suffix of the history whose `"\n"`-joined length fits the budget (`IsLongestFit`) |
| StoryApi.DropOldestShortens | pages/api/story.ts:69 | dropping the oldest entry never lengthens the joined history |
| StoryApi.SuffixLengthMonotone | pages/api/story.ts:63-77 | keeping more older entries never shortens the joined history |
| StoryApi.LongestFitIsLongest | pages/api/story.ts:67-70 | every suffix longer than the trimmed history overflows the budget |
| StoryApi.LongestFitUnique | pages/api/story.ts:63-77 | the trimmed history is determined by the history and the budget |
| StoryApi.LongestFitMonotone | pages/api/story.ts:162-171 | a larger budget never keeps fewer entries |
| StoryApi.BuildBase | pages/api/story.ts:83-99 | the trimmed history at the limit, and the note exactly when entries were left out |
| StoryApi.Relimit | pages/api/story.ts:162 | `max(400, limit - over - 200)`: at least 400, and exactly one of the two |
| StoryApi.PlanPrompt | pages/api/story.ts:156-175 | the builds made: first at 1800; a rebuild only after an over-4000 prompt, at the lowered limit; at most three; the sent prompt fits unless it is the third (`IsPlan`) |
| StoryApi.Rebuild | pages/api/story.ts:162-165 | one rebuild at the lowered limit, within [400, 1800] |
| StoryApi.RetryLowersLimit | pages/api/story.ts:162-170 | a rebuild's limit is at the 400 floor or more than 200 below the previous one |
| StoryApi.PlanKeepsLessHistory | pages/api/story.ts:156-175 | each rebuild keeps at most as many history entries as the build before |
| StoryApi.FirstIndexOf | pages/api/story.ts:179 | the first position of a character, none exactly when it is absent |
| StoryApi.LastIndexOf | pages/api/story.ts:179 | the last position of a character, none exactly when it is absent |
| StoryApi.BracePairBounds | pages/api/story.ts:179 | a `{` before a `}` puts the first `{` before the last `}` |
| StoryApi.ExtractJson | pages/api/story.ts:179-180 | the greedy match: present exactly when some `}` follows a `{`, spanning the first `{` to the last `}` |
| StoryApi.SafeStory | pages/api/story.ts:184-187 | the story itself when it is a non-blank string, otherwise the fixed message; never blank |
| StoryApi.SafeChoices | pages/api/story.ts:189-193 | none in combat; otherwise a choice is kept exactly when it is a non-blank string item, and the result is `FilterChoices` of the array, in order with repeats |
| StoryApi.SafeBuffs | pages/api/story.ts:195-200 | a buff is kept exactly when some entry has its string target and numeric amount, and the result is `FilterBuffs` of the array, in order with repeats |
| StoryApi.Sanitize | pages/api/story.ts:184-212 | a `null` payload throws; otherwise every field defaulted as the handler does (tier `low`, level 1, no error), the choices and buffs as `SafeChoices`/`SafeBuffs` give them, and every valid buff kept |
| StoryApi.Respond | pages/api/story.ts:177-225 | always status 200; no error exactly when generation succeeded, a `{…}` was found and parsed to a non-null value, then the sanitised body; every failure gives the fallback carrying its message |
| StoryApi.FailureIsPlayable | pages/api/story.ts:213-225 | an error response is a playable turn: two choices, no combat, tier `low`, level 1, no buffs |
| StoryApi.StoryNeverBlank | pages/api/story.ts:184-187 | every response has a non-blank story |
| MainPage.FiniteBuffs | pages/index.tsx:105-113 | a buff is kept exactly when its entry has a finite amount (the code keeps every numeric amount, `NaN` and infinities included; the finite test is the model's, see Left out); order and repeats are fixed by the next three rows |
| MainPage.FiniteBuffsSnoc | pages/index.tsx:105-113 | one more entry adds its buff at the end when its amount is finite, nothing otherwise; the finite test is the model's |
| MainPage.FiniteBuffsAppend | pages/index.tsx:105-113 | filtering a concatenation is concatenating the filtered parts, for the model's finite test |
| MainPage.FiniteBuffsOne | pages/index.tsx:105-113 | one entry gives its buff when its amount is finite, nothing otherwise; the finite test is the model's |
| MainPage.ClientStory | pages/index.tsx:97 | the trimmed story when non-blank, otherwise the fixed message; never blank |
| MainPage.ClientChoices | pages/index.tsx:98-103 | a choice is kept exactly when it is a non-blank string item, kept in combat too; the result is `FilterChoices` of the array, in order with repeats |
| MainPage.ClientBuffs | pages/index.tsx:105-113 | a buff is kept exactly when an entry has its string target and a finite numeric amount (the code also keeps `NaN` and infinite amounts; the finite test is the model's); the result is `FilterBuffs` then `FiniteBuffs` of the array, in order with repeats |
| MainPage.ClientSanitize | pages/index.tsx:96-129 | `sanitizeResponse`, field by field: a non-blank story, the filtered choices and buffs, `Boolean(isCombat)`, the tier or `""`, a finite enemy level or the player's level, a string error |
| MainPage.BlankStoryMessageNotBlank | pages/index.tsx:118 | the replacement story is not blank |
| MainPage.UnreadablePayloadFields | pages/index.tsx:150-162 | the parse-failure object has a story, one choice and tier `low`, and no buffs, error, combat flag or enemy level |
| MainPage.ParseFallbackContents | pages/index.tsx:150-162 | an unparsable body becomes one "continue" choice, tier `low`, the player's level, no buffs |
| MainPage.UnreadableStoryIsTrimmed | pages/index.tsx:155 | the parse-failure story survives trimming |
| MainPage.NextChoices | pages/index.tsx:175-180 | the payload's choices if any, else `["전투 준비"]` in combat, else none; empty exactly when neither |
| MainPage.SummaryLine | pages/index.tsx:234-236 | the first 200 characters after the prefix, with `...` exactly when cut; bounded length |
| MainPage.FailureMessage | pages/index.tsx:164-167 | the body's error when non-empty, else one naming the status; never empty |
| MainPage.FailedTurnOnlyRecordsError | pages/index.tsx:164-171 | a failed turn changes only the error and loading flag, and always leaves an error message |
| MainPage.SuccessfulTurnHistory | pages/index.tsx:233-236 | a successful turn appends exactly the choice line and the summary line, and shows a non-blank story |
| MainPage.SuccessfulTurnBuffs | pages/index.tsx:209-231 | HP moves only for a non-zero `hp` sum, from the captured HP; energy only for a non-zero `energy` sum, to the captured energy plus the sum clamped to [0, 120]; other targets are added to the map; the map's `hp` and `energy` are untouched |
| MainPage.SuccessfulTurnCombat | pages/index.tsx:181-207 | a turn never starts combat directly: it sets the pending flag with a notice, always leaves a choice, and sets the tier's enemy level |
| MainPage.RestRecovers | pages/index.tsx:306-313 | a rest caps HP and energy at 120, appends one line, keeps a non-blank story, and leaves buffs and combat alone |
| MainPage.BlockedRestIsNoop | pages/index.tsx:306 | resting while loading, pending combat or in combat changes nothing |
| MainPage.RestRecoveryLostToHpBonus | pages/index.tsx:305-315 | with a non-zero `hp` bonus, the rest's turn sets HP from the pre-rest value, so the recovery is lost |
| MainPage.RestRecoveryKeptWithFreshValues | pages/index.tsx:305-315 | with values read after the rest, the bonus lands on top of the recovered HP |
| MainPage.RestartIsIdempotent | pages/index.tsx:278-303 | restarting twice is restarting once: empty history, HP 100, pending combat untouched |
| MainPage.StartAsWrittenNeverStarts | pages/index.tsx:246-255 | the start handler as written leaves a fresh game unstarted and the store unchanged |
| MainPage.StartBeginsGame | pages/index.tsx:246-255 | the intended start always starts the game, appends the start line after the old history and keeps the background |
| MainPage.CombatFollowsTurn | pages/index.tsx:268-275 | after the pending-combat timer, combat is on exactly when the turn asked for it |
| MainPage.VictoryLevelsUp | pages/index.tsx:498 | a victory sets the level one above the rendered level and changes nothing else; a second call from the same render does not raise it again |
| MainPage.GamePage.constructor | pages/index.tsx:65-94 | a page with full energy, no combat and enemy level 1 |
| MainPage.GamePage.Show | pages/index.tsx:169-207 | the story part of a turn equals `ShowBody` on the old screen |
| MainPage.GamePage.Route | pages/index.tsx:209-231 | the buff part of a turn equals `ApplyBuffs` |
| MainPage.GamePage.Record | pages/index.tsx:233-236 | the history part of a turn equals `RecordTurn` |
| MainPage.GamePage.CallStoryFrom | pages/index.tsx:132-243 | `callStory` with the captured HP and energy equals `TurnResult` |
| MainPage.GamePage.CallStory | pages/index.tsx:132-243 | `callStory` on the current values equals `TurnResult` |
| MainPage.GamePage.Rest | pages/index.tsx:305-314 | the recovery step equals `RestResult` and reports whether it was allowed |
| MainPage.GamePage.HandleRest | pages/index.tsx:305-315 | `handleRest` equals `HandleRestResult`: the rest, then a turn created before it |
| MainPage.GamePage.Restart | pages/index.tsx:278-303 | `handleRestart` equals `RestartResult` |
| MainPage.GamePage.RestartStore | pages/index.tsx:279-302 | the store setters and the merged `setState` leave the store as `RestartResult` says |
| MainPage.GamePage.Start | pages/index.tsx:246-255 | the intended `handleStart` equals `StartResult` |
| MainPage.GamePage.BeginPendingCombat | pages/index.tsx:268-275 | the timer firing equals `BeginCombat` |
| MainPage.GamePage.Victory | pages/index.tsx:498 | `onVictory` equals `VictoryResult` on the captured level |
| MainPage.GamePage.HandleCombatEnd | pages/index.tsx:258-266 | a defeat only ends the game; a victory clears both combat flags and runs a turn with an empty choice |
| DebugPage.StartKeepsBackground | pages/test.tsx:128-134 | starting marks the page started, keeps the background and extends the history |
| DebugPage.CombatEndOutcomes | pages/test.tsx:137-144 | a defeat changes only the two flags; after a victory, combat is off, the game is not over, and combat is pending only if the next payload asks |
| DebugPage.ErrorStopsTurn | pages/test.tsx:72 | a payload with an error records only that error |
| DebugPage.FailureOnlyRecordsError | pages/test.tsx:119-124 | a failed request changes only the error and loading flag; a `null` body reports reading `error` of null |
| DebugPage.DebugTurnBuffs | pages/test.tsx:104-115 | HP moves by the unclamped `hp` sum; every other target, `energy` included, is added to the map |
| DebugPage.DebugTurnRecords | pages/test.tsx:75-118 | a successful turn appends the choice and the whole story, shows the choices unfiltered, and defers combat |
| DebugPage.AppliedExtendsHistory | pages/test.tsx:118 | applying a body keeps the background and appends the choice line and the story line |
| DebugPage.RestartRestoresInitial | pages/test.tsx:147-161 | restarting an idle page gives the initial page; restarting twice is restarting once |
| DebugPage.VictoriesAccumulate | pages/test.tsx:269 | a victory adds one level and changes nothing else; two victories add two |
| DebugPage.DebugGamePage.constructor | pages/test.tsx:26-56 | the initial page |
| DebugPage.DebugGamePage.Show | pages/test.tsx:75-101 | the story part of a turn |
| DebugPage.DebugGamePage.ApplyBuffs | pages/test.tsx:104-115 | the buff loop, proved equal to `SumFor`/`Merge` |
| DebugPage.DebugGamePage.Apply | pages/test.tsx:75-118 | a turn without an error equals `Applied` |
| DebugPage.DebugGamePage.CallStory | pages/test.tsx:59-125 | `callStory` equals `DebugTurn` |
| DebugPage.DebugGamePage.Start | pages/test.tsx:128-134 | `handleStart` equals `DebugStart` |
| DebugPage.DebugGamePage.HandleCombatEnd | pages/test.tsx:137-144 | `handleCombatEnd` equals `DebugCombatEnd` |
| DebugPage.DebugGamePage.Victory | pages/test.tsx:269 | `onVictory` equals `DebugVictory` |
| DebugPage.DebugGamePage.Restart | pages/test.tsx:147-161 | `handleRestart` equals `DebugRestart` |
| Combat.TierTuning | components/CombatComponent.tsx:51-57 | one of the table's three rows; any tier other than `low` or `high` gets the medium row |
| Combat.EnemyMaxHp | components/CombatComponent.tsx:46-49 | an enemy of non-negative level has at least the base 20 HP |
| Combat.EnemyMaxHpPerLevel | components/CombatComponent.tsx:46-49 | level 0 has the base 20 HP and each level adds 5 |
| Combat.AbilityScore | components/CombatComponent.tsx:63-65 | `10 + level × factor` plus the buff, 0 when the buff is absent |
| Combat.AbilityScoresPerLevel | components/CombatComponent.tsx:63-65 | `Strength`, `Dexterity` and `Constitution` rise by 2, 1 and 3 per level and start at 10 |
| Combat.EnemyAC | components/CombatComponent.tsx:51-61 | the tier's AC plus `floor(level / 2)` |
| Combat.EnemyAttackBonus | components/CombatComponent.tsx:51-61 | the tier's attack bonus plus the same level bonus `floor(level / 2)` that AC gets |
| Combat.EnemyDamageDie | components/CombatComponent.tsx:51-61 | the tier's damage die, at least d6 |
| Combat.StrMod | components/CombatComponent.tsx:63-67 | `floor((strength - 10) / 2)`, also for negative values |
| Combat.ConMod | components/CombatComponent.tsx:63-67 | `floor((constitution - 10) / 4)`, also for negative values |
| Combat.PlayerDamage | components/CombatComponent.tsx:84 | at least 1, otherwise the roll plus the modifier |
| Combat.EnemyDamage | components/CombatComponent.tsx:98-111 | at least 1, otherwise the roll minus the modifier |
| Combat.TierTableOrdered | components/CombatComponent.tsx:51-57 | the three tiers as tabulated and ordered; an unknown or empty tier is medium |
| Combat.DamageAtLeastOne | components/CombatComponent.tsx:84 | both damage formulas deal at least one point for any level and buffs |
| Combat.LevelScaling | components/CombatComponent.tsx:51-61 | two enemy levels add exactly one to AC and to the attack bonus |
| Combat.Encounter.constructor | components/CombatComponent.tsx:39-44 | the enemy starts at `20 + 5 × level` HP, not rolling, nothing fired |
| Combat.Encounter.ChangeEnemyLevel | components/CombatComponent.tsx:46-49 | a new level resets enemy HP; nothing else changes |
| Combat.Encounter.PlayerAttack | components/CombatComponent.tsx:75-96 | under 10 energy: a notice and nothing else; otherwise spend 10, hit exactly when `d20 + 5 >= AC`, deal the damage, fire victory then end on a kill |
| Combat.Encounter.EnemyAttack | components/CombatComponent.tsx:98-111 | wound exactly when `d20 + attack bonus >= 15`, deal the damage, fire a defeat at 0 HP or below |
| Combat.Encounter.ClickAttack | components/CombatComponent.tsx:113-117 | takes the rolling lock unless it is held |
| Combat.Encounter.ResolveAttack | components/CombatComponent.tsx:118-119 | the attack, then the lock is released |
| Combat.Encounter.CounterAttack | components/CombatComponent.tsx:120-123 | the enemy strikes exactly when the guard's HP values are both positive |
| Combat.Encounter.Refocus | components/CombatComponent.tsx:127-132 | unless rolling: energy up by 18, capped at 120, with a notice |
| Combat.Encounter.AttackRound | components/CombatComponent.tsx:113-125 | a whole click as written: a held lock changes nothing; otherwise the attack's energy cost or low-energy notice, the hit and its damage, then the counter-turn exactly when the pre-click HP values were positive, with its wound condition and damage; the callbacks fired in order |
| Combat.Encounter.AttackRoundChecked | components/CombatComponent.tsx:113-125 | the same click with the guard reading post-attack HP: a held lock changes nothing, energy, notice, hit, damage and counter-turn as in `AttackRound`, and one round fires at most one end of the fight |
| Combat.Encounter.RefocusRound | components/CombatComponent.tsx:127-137 | a held lock changes nothing; otherwise +18 energy capped at 120 with the refocus notice, then the counter-turn under the pre-click guard with its wound condition and damage, and a defeat fired at 0 HP or below |
| Combat.MaxRollsKillInOneAttack | __tests__/CombatComponent.test.tsx:17-51 | with the dice at their maximum, enemy level 0, player level 10 and strength buff 20, the first attack hits for 28, leaves the enemy at -8 and fires `onVictory` then `onEnd` with a victory |
| Traits.Target.Key | lib/traits.ts:1-6 | each target is written `hp`, `energy`, `strength`, `dexterity` or `constitution`, and each name belongs to exactly one target |
| Traits.KeyInjective | lib/traits.ts:1-6 | different targets have different names |
| Traits.GetRaceTrait | lib/traits.ts:125-127 | a trait exactly for the nine race labels, the table's entry |
| Traits.GetClassTrait | lib/traits.ts:129-131 | a trait exactly for the twelve class labels, the table's entry |
| Traits.RaceTableKeys | lib/traits.ts:14-60 | the race table has exactly the nine distinct labels |
| Traits.ClassTableKeys | lib/traits.ts:62-123 | the class table has exactly the twelve distinct labels |
| Traits.RaceTraitsWellFormed | lib/traits.ts:14-60 | every race trait raises each stat at most once, by a positive amount |
| Traits.ClassTraitsWellFormed | lib/traits.ts:62-123 | every class trait raises each stat at most once, by a positive amount |
| Traits.BonusTexts | lib/traits.ts:135 | one `key +value` part per bonus, in order |
| Traits.FormatTraitBonuses | lib/traits.ts:133-137 | `""` exactly for no trait or no bonuses, otherwise the parts joined by `", "` |
| Traits.FormatSingleBonus | lib/traits.ts:135-136 | a single bonus is formatted without a separator |
| Traits.GnomeBonusText | lib/traits.ts:14-60 | the gnome trait formats as `energy +12` |
| Srd.Translate | lib/srd.ts:36-37 | the slug's label, else the lower-cased name's label, else the name; always the name or a table label |
| Srd.TranslateList | lib/srd.ts:36-37 | one output per item, in order, each the item's own translation |
| Srd.TranslateListPointwise | lib/srd.ts:36-37 | items with the same slug and name translate alike |
| Srd.TranslateListAppend | lib/srd.ts:36-37 | translating a concatenation is concatenating the translations |
| Srd.TranslationsHaveTraits | lib/srd.ts:9-34 | every race and class label has a trait |
| Srd.TranslatedRaceHasTrait | lib/srd.ts:9-19 | a translated race is its own name or has a race trait |
| Srd.TranslatedClassHasTrait | lib/srd.ts:21-34 | a translated class is its own name or has a class trait |
| Srd.GetList | lib/srd.ts:39-55 | a non-OK status throws naming it; otherwise the items translated in order |
| Srd.RaceListHasTraits | lib/srd.ts:39-46 | every offered race is an untranslated name or has a race trait |
| Srd.ClassListHasTraits | lib/srd.ts:48-55 | every offered class is an untranslated name or has a class trait |
| Srd.NameFallback | lib/srd.ts:37 | `Elf` with no slug is found through its lower-cased name |
| Srd.UnknownKeepsName | lib/srd.ts:37 | an item neither table knows keeps its name |

## Left out

- Network, the language-model call, `fetch`, `res.json()` and `JSON.parse`: these are inputs (`FetchOutcome`, `DebugFetch`, `generated`, `parse`).
- The prompt text: its fixed parts are the length `overhead`. The request bodies the pages send are not modelled.
- Regular expressions: only the one greedy `/\{[\s\S]*\}/` pattern is modelled (`ExtractJson`).
- Timers (`setTimeout`): each delayed step is a separate method, run in order.
- Rendering, styling, fonts, logging, and the `persist` middleware's `localStorage`.
- Persistence across reloads is not part of this model.
- Numbers are integers or non-finite; fractional amounts and levels are not modelled. `toLowerCase` is modelled for ASCII only.
- Object prototype keys (a buff target such as `constructor`) are not modelled; map lookups see only own keys.
- The page's energy, race and class live in the page state (`PageState`). The store does not define them; the Findings row below says what that does.
- Outside the start handler, the model follows the intended behaviour: the `setEnergy(...)` calls in a turn, in a rest and in a restart are modelled as writes to the page's energy, not as the calls that throw.
- The character-creation form, the `loadOptions` effect and the race/class API routes are not part of this model.
- `MainPage.ClientSanitize`, `MainPage.ClientBuffs`, `MainPage.FiniteBuffs`, `MainPage.FiniteBuffsSnoc`, `MainPage.FiniteBuffsAppend`, `MainPage.FiniteBuffsOne`: drop a buff whose amount is `NaN` or infinite. The code keeps it, but the endpoint never sends one, since JSON has no such numbers.
- `MainPage.GamePage.Start`: the store's `race`/`className` writes have no store field to land in.
- `MainPage.ClientSanitize`: keeps `raw.error` only when it is a string. The code passes any value through, so a numeric `error` would be shown as its JavaScript string; JavaScript stringification of arbitrary values is not modelled.
- `JsText.Prefix`, `MainPage.SummaryLine`, `StoryApi.TruncateTail`, `StoryApi.TrimmedBackground`, `StoryApi.LimitHistory` and the 1800/4000 budgets: lengths count Unicode scalar values. JavaScript counts UTF-16 code units, so a character outside the Basic Multilingual Plane (an emoji) counts 2 in the code and 1 here, and a slice that splits a surrogate pair cannot be represented.
- `MainPage.GamePage.HandleCombatEnd`: the turn after a victory reads the store's current level. In the code it runs from the same render as `onVictory`, so the turn uses the level from before the victory.
- `DebugPage.DebugGamePage.HandleCombatEnd`: the same, on the debug page: after `DebugVictory`, the model's turn uses the raised level, while the code's `callStory` takes `base = playerLevel` (pages/test.tsx:86) from the render that ran `onVictory`, the level from before the victory.
- `Combat.MaxRollsKillInOneAttack`: supplies energy 100. The component test (__tests__/CombatComponent.test.tsx:27-35) passes no `energy` and no `setEnergy`, so as written its click calls the missing `setEnergy` at components/CombatComponent.tsx:80 and throws before any roll; `onVictory` is never called and the rolling lock is never released.
- `Combat.Encounter.PlayerAttack`, `Combat.Encounter.Refocus`: the model's encounter always has an energy value and a setter. The debug page mounts the component without `energy` or `setEnergy` (pages/test.tsx:262-271), so there every attack throws at components/CombatComponent.tsx:80 and every refocus at line 130; the debug page's combat is modelled as if the main page's energy props were passed.
- `Combat.Encounter.AttackRound`: the dice are parameters rather than `Math.random`, so no distribution is modelled.

## Findings

| source | as written | input that shows it | evidently intended | confidence | as-written member | corrected member |
|---|---|---|---|---|---|---|
| components/CombatComponent.tsx:113-125 | the enemy's counter-turn guard reads the HP captured at the click, so an enemy killed by the attack still strikes back | player HP 1, enemy level 0, player level 10, strength buff 20, dice 20/8/20/8: a 28-point hit kills the enemy, the counter deals 1, and `onEnd` fires victory then defeat | a dead enemy does not strike back, so a round ends the fight at most once | not executed | Combat.KillingBlowStillCountered (on Combat.Encounter.AttackRound) | Combat.Encounter.AttackRoundChecked |
| pages/index.tsx:305-315 | once the store supplies `setEnergy` (the page-energy assumption under Left out), the rest's turn applies `hp`/`energy` bonuses to the HP and energy read before the rest. With the store as it stands, `setEnergy` at line 310 throws before the turn is sent, so HP ends at the recovered value with no rest line and no turn | HP 50, no loading or combat, the turn carries an `hp` buff of +5: HP ends at 55 instead of 63 (energy alike) | bonuses land on the recovered values | not executed | MainPage.RestRecoveryLostToHpBonus | MainPage.RestRecoveryKeptWithFreshValues |
| pages/index.tsx:246-255 | the page reads `setRace`, `setClassName`, `setEnergy` and `energy` from a store that defines none of them, so `handleStart` throws right after setting the background | a fresh page, any name and race, start pressed: no start line, no turn, the game stays on the creation screen | the store holds and sets race, class and energy | not executed | MainPage.StartAsWrittenNeverStarts | MainPage.StartBeginsGame |
