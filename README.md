# EcoLife Quest: the state updates of its four game components

This Dafny project models the state logic of a React eco-habit game. The logic sits in four components:

- **Personal tracker** (`PersonalTracker`). A list of daily actions and the user's aggregate statistics. Completing an open action marks it done and raises its streak by one. Its impact is added to the statistics, and only the eco score is capped, at 100. A 7-day streak records an achievement. A periodic reset clears every completion flag.
- **Challenge engine** (`Challenges`). Challenges have a progress and a target. Setting a challenge's progress completes it once it reaches the target, and completing it pays its reward: points, a badge (appended without deduplication) or an unlock. A simulated tick advances one open challenge. The time left to a deadline is broken down into days and hours, or hours and minutes.
- **City decisions** (`City`). An option of the current decision is refused when the budget is short. Otherwise its cost is paid and every statistic it names moves by its delta, clamped to [0, 100]. Then a canned feedback text is shown and three threshold achievements are checked, each added once. The budget grows by 50 per accrual tick. A colour classifier that bands a statistic is defined, but the component's rendering never calls it.
- **Tips panel** (`EcoTips`). Toggling favourite tip ids, the category filter, the favourites view, and picking the featured tip.

Component state that the source updates through setters is a class: `Tracker`, `ChallengeBoard`, `CityGame`. A list `map` or `forEach` that writes state is a method with a loop. Each such method is proved equal to a recursive function over prefixes of the list: `CompleteRun`, `ProgressRun`, `ApplyImpact`. The lemmas then state the component's promises about those functions. The tips panel only replaces lists wholesale, so it is modelled with functions alone.

Timers, `Math.random` and the clock are parameters. The tick methods take the drawn index, the increment and the "fire" decision. `FormatTimeRemaining` takes the deadline and the current instant in milliseconds. `GetRandomTip` takes the drawn index. The personal statistics are `real`s, since the source's deltas such as 0.1 are decimal. The only comparison on them, the eco-score cap at PersonalEcoTracker.tsx:115, reads a sum of whole numbers, which doubles hold exactly. City statistics, costs, challenge progress and points are integers.

In four places the code is simpler than the game's wording suggests, and the model follows the code:
- the streak is an unconditional `+1` with no date comparison;
- the streak achievement is appended without deduplication;
- challenge badges are appended without deduplication;
- nothing is persisted.

## Model

| member | source | states |
|---|---|---|
| `PersonalTracker.AddImpact` | src/components/PersonalEcoTracker.tsx:109-118 | CO2 and money grow by exactly the impact. Each percentage field grows by its optional delta, or by 0 when the delta is absent, with no clamping. The eco score becomes min(100, old + delta), so it is never above 100. |
| `PersonalTracker.MarkDone` | src/components/PersonalEcoTracker.tsx:101-106 | An open action with the asked id becomes completed, with its streak raised by exactly 1. Any other action is returned unchanged. Only the completion flag and the streak change; every other field, the description included, is kept. The result is never open for that id. |
| `PersonalTracker.MarkAll` | src/components/PersonalEcoTracker.tsx:100-130 | The new list has the same length, and element j is the callback applied to old element j. |
| `PersonalTracker.CompleteRunActions` | src/components/PersonalEcoTracker.tsx:100-130 | The list that `completeAction` produces is exactly the per-action `map`, so length and order are preserved. |
| `PersonalTracker.CompleteRunNoMatch` | src/components/PersonalEcoTracker.tsx:101-129 | With an unknown id, or when every action with that id is already completed, the list, statistics, achievements and feedback are all unchanged. |
| `PersonalTracker.CompleteRunOneMatch` | src/components/PersonalEcoTracker.tsx:101-125 | When exactly one action is open with the id, the statistics receive its impact once. One achievement is appended iff its new streak is 7, and the feedback quotes its CO2 and money. |
| `PersonalTracker.CompleteActionEffect` | src/components/PersonalEcoTracker.tsx:99-130 | With unique ids, completing the open action at index k does the following. That action becomes completed with streak + 1, and every other action is unchanged. The statistics become `AddImpact` of its impact. The achievements grow by one entry exactly when the new streak is 7. |
| `PersonalTracker.CompleteTwiceIsOnce` | src/components/PersonalEcoTracker.tsx:101-106 | A second `completeAction` with the same id changes nothing, so completion is idempotent. |
| `PersonalTracker.CompleteRunEcoCap` | src/components/PersonalEcoTracker.tsx:115 | An eco score that starts at or below 100 stays at or below 100. |
| `PersonalTracker.ClearCompleted` | src/components/PersonalEcoTracker.tsx:135-140 | After the reset every action is open. Length, ids, streaks, impacts and every other field are kept. |
| `PersonalTracker.ClearCompletedIdempotent` | src/components/PersonalEcoTracker.tsx:135-140 | Resetting twice gives the same list as resetting once. |
| `PersonalTracker.CompletedCount` | src/components/PersonalEcoTracker.tsx:196-197 | `completedToday` is the length of the completed-filter, and it is at most `totalActions`. |
| `PersonalTracker.CompletedCountAfterReset` | src/components/PersonalEcoTracker.tsx:196 | After a reset, `completedToday` is 0. |
| `PersonalTracker.CompletedCountAfterComplete` | src/components/PersonalEcoTracker.tsx:101-106 | Completing the single open action with the id raises `completedToday` by exactly 1. |
| `PersonalTracker.FirstActionScenario` | src/components/PersonalEcoTracker.tsx:38-118 | From the seeded state, completing action "1" takes the eco score from 28 to 31, CO2 saved from 12 to 12.1 and plastic reduction from 25 to 30. That action's streak becomes 1 and no achievement is added. |
| `PersonalTracker.Tracker.constructor` | src/components/PersonalEcoTracker.tsx:38-97 | The seeded statistics and the five seeded actions, with no achievements and no feedback. |
| `PersonalTracker.Tracker.CompleteAction` | src/components/PersonalEcoTracker.tsx:99-133 | The new list, statistics, achievements and feedback are `CompleteRun` of the old state: the `map` with its state writes applied in order. |
| `PersonalTracker.Tracker.ResetDailyActions` | src/components/PersonalEcoTracker.tsx:135-140 | The list becomes `ClearCompleted` of the old list. Statistics, achievements and feedback are unchanged. |
| `Challenges.ApplyReward` | src/components/ChallengeSystem.tsx:93-99 | A points reward adds its value to the points. A badge reward appends the badge, even if it is already held. An unlock changes neither points nor badges. |
| `Challenges.Progressed` | src/components/ChallengeSystem.tsx:81-88 | The matching challenge takes the new progress, even when it is already completed. It is completed afterwards iff it was completed before or the progress reaches its target, so completion never reverts. A challenge with another id is unchanged. |
| `Challenges.ProgressAll` | src/components/ChallengeSystem.tsx:80-90 | The new list has the same length, and element j is the callback applied to old element j. |
| `Challenges.ProgressRunChallenges` | src/components/ChallengeSystem.tsx:79-91 | The list that `updateChallengeProgress` produces is exactly the per-challenge `map`. |
| `Challenges.ProgressRunNoReward` | src/components/ChallengeSystem.tsx:83-86 | When the update completes no challenge, points and badges are unchanged. |
| `Challenges.ProgressRunOneReward` | src/components/ChallengeSystem.tsx:83-86 | When the update completes exactly one challenge, its reward is paid exactly once. |
| `Challenges.UpdateProgressEffect` | src/components/ChallengeSystem.tsx:79-99 | With unique ids, updating challenge k does the following. It takes the new progress and is completed iff it was completed or the progress is at least its target. The other challenges are unchanged. The reward is paid iff this update completed the challenge, and otherwise points and badges are unchanged. |
| `Challenges.CompletionIsMonotone` | src/components/ChallengeSystem.tsx:83-84 | A completed challenge stays completed after any update. |
| `Challenges.RewardAtMostOnce` | src/components/ChallengeSystem.tsx:83-85 | Once an update has reached the target, any later update, with any progress, leaves points and badges unchanged. |
| `Challenges.TickProgress` | src/components/ChallengeSystem.tsx:138-139 | The ticked progress is min(target, progress + increment): never above the target, and strictly higher than a progress below the target unless it hits the target. |
| `Challenges.TickEffect` | src/components/ChallengeSystem.tsx:136-139 | A tick on an open challenge leaves its progress at most its target. Starting from at most the target, the progress either strictly rises or the challenge is completed. |
| `Challenges.ActiveChallenges` | src/components/ChallengeSystem.tsx:178 | The active view holds exactly the list's open challenges. |
| `Challenges.CompletedChallenges` | src/components/ChallengeSystem.tsx:282 | The completed view holds exactly the list's completed challenges. |
| `Challenges.ChallengeViewsAppend` | src/components/ChallengeSystem.tsx:178-282 | Both views distribute over concatenation of the list, so each keeps the challenges in list order. |
| `Challenges.ActiveAndCompletedPartition` | src/components/ChallengeSystem.tsx:178-282 | The two views partition the list: their lengths add up to its length, and their multisets add up to its multiset. |
| `Challenges.FormatTimeRemaining` | src/components/ChallengeSystem.tsx:119-131 | With no deadline the result is empty. Beyond 24 whole hours the result is days ≥ 1 and hours in [0, 24), with days·24 + hours equal to the whole hours left. Otherwise it is the whole hours left and, for a deadline not yet passed, minutes in [0, 60) with hours·60 + minutes equal to the whole minutes left. For a passed deadline the minutes are in [-60, 0]. |
| `Challenges.RecyclingRewardScenario` | src/components/ChallengeSystem.tsx:39-50 | Setting the seeded recycling challenge to 80 completes it. Its 500 points are paid once, so 750 becomes 1250, and the badges are unchanged. |
| `Challenges.ChallengeBoard.constructor` | src/components/ChallengeSystem.tsx:26-77 | The four seeded challenges, 750 points and the two starting badges. |
| `Challenges.ChallengeBoard.UpdateChallengeProgress` | src/components/ChallengeSystem.tsx:79-91 | The new list, points and badges are `ProgressRun` of the old state. |
| `Challenges.ChallengeBoard.HandleChallengeCompletion` | src/components/ChallengeSystem.tsx:93-99 | Points and badges become `ApplyReward` of the challenge's reward. |
| `Challenges.ChallengeBoard.SimulateTick` | src/components/ChallengeSystem.tsx:134-141 | When the tick fires on an open challenge, it is `updateChallengeProgress` with min(target, progress + increment). Otherwise nothing changes. |
| `City.Clamp` | src/components/CityManagement.tsx:155 | The result is in [0, 100]. A value already in range is kept, below 0 gives 0, and above 100 gives 100. |
| `City.ApplyImpactEffect` | src/components/CityManagement.tsx:151-158 | Each statistic the option names becomes clamp(old + delta). Every statistic it does not name, population included, keeps its value. |
| `City.ApplyImpactKeepsRange` | src/components/CityManagement.tsx:151-158 | If every percentage statistic is in [0, 100] before the impact, each one is still in [0, 100] after it. |
| `City.GenerateFeedbackAsWritten` | src/components/CityManagement.tsx:118-137 | The lookup as written throws exactly for a category missing from the feedback table. |
| `City.EnergyFeedbackThrows` | src/components/CityManagement.tsx:137 | For an energy decision the lookup as written throws, whatever the option. |
| `City.GenerateFeedback` | src/components/CityManagement.tsx:118-137 | A known category with an option index below 3 gives its canned text. Energy, or an index of 3 or more, gives "Décision prise !". Wherever the lookup as written returns, the result agrees with it. |
| `City.CheckAchievements` | src/components/CityManagement.tsx:174-189 | The old achievements are kept as a prefix. "Ville Verte" is present iff it was already present or eco score ≥ 70. Likewise "Zéro Plastique" for plastic usage ≤ 30, and "Air Pur" for pollution ≤ 20. Only these three texts are ever added, and only when absent. The new entries follow that order: "Ville Verte", then "Zéro Plastique", then "Air Pur". |
| `City.CheckAchievementsNoDuplicates` | src/components/CityManagement.tsx:174-189 | A duplicate-free achievement list stays duplicate-free. |
| `City.GetStatColor` | src/components/CityManagement.tsx:202-207 | The value, or 100 − value when reversed, is banded: ≥ 70 gives green, 40 to 69 earth, below 40 red. The three bands are disjoint and cover every value. |
| `City.StatColorMonotone` | src/components/CityManagement.tsx:202-207 | A larger value never gets a worse colour, and reversal turns that order around. |
| `City.SeededOptionsWellFormed` | src/components/CityManagement.tsx:46-116 | Every seeded option names each statistic at most once and has a non-negative cost. |
| `City.CityGame.constructor` | src/components/CityManagement.tsx:31-44 | The seeded statistics and a budget of 1000 from the initial state, and the first decision on offer, which the mount effect at CityManagement.tsx:192 sets, with no feedback and no achievements. |
| `City.CityGame.HandleDecision` | src/components/CityManagement.tsx:140-172 | With no decision on offer, nothing changes. If the budget is below the cost, only the feedback changes, to "Budget insuffisant pour cette action !". Otherwise the budget drops by exactly the cost and the statistics become `ApplyImpact` of the option. The feedback is set and the achievements are checked against the pre-decision statistics. A non-negative budget stays non-negative, since an accepted option never costs more than the budget. |
| `City.CityGame.NextDecision` | src/components/CityManagement.tsx:167-171 | The drawn decision goes on offer and the feedback clears. Nothing else changes. |
| `City.CityGame.AccrueBudget` | src/components/CityManagement.tsx:195-197 | The budget grows by exactly 50, and nothing else changes. |
| `EcoTips.RemoveAll` | src/components/EcoTipsPanel.tsx:154 | Every occurrence of the id is removed and every other id's membership is kept. A duplicate-free list stays duplicate-free. |
| `EcoTips.ToggleFavorite` | src/components/EcoTipsPanel.tsx:151-157 | The toggled id's membership flips, every other id's membership is kept, and a duplicate-free list stays duplicate-free. An id that was not a favourite is appended at the end. |
| `EcoTips.ToggleTwice` | src/components/EcoTipsPanel.tsx:151-157 | Toggling the same id twice restores every id's membership. Starting from a list without the id, it restores the very same list. |
| `EcoTips.RemoveAppended` | src/components/EcoTipsPanel.tsx:152-155 | Removing an id that was only appended gives back the original list. |
| `EcoTips.InCategory` | src/components/EcoTipsPanel.tsx:172 | The result holds exactly the catalog tips of the category. |
| `EcoTips.FilteredTips` | src/components/EcoTipsPanel.tsx:170-172 | "all" gives the whole catalog. Any other selection gives the tips of that category. |
| `EcoTips.InCategoryAppend` | src/components/EcoTipsPanel.tsx:170-172 | The category filter distributes over concatenation, so catalog order is kept. |
| `EcoTips.TipPool` | src/components/EcoTipsPanel.tsx:115-119 | A category that is given, non-empty and not "all" yields the same category filter as the tab view, `InCategory`, so exactly the tips of that category in catalog order. Otherwise the pool is the whole catalog. |
| `EcoTips.GetRandomTip` | src/components/EcoTipsPanel.tsx:115-121 | A tip is returned iff the index is inside the pool, and it is `pool[index]`. It is a catalog tip, of the requested category when one applies. |
| `EcoTips.NoTipForEmptyCategory` | src/components/EcoTipsPanel.tsx:120 | When the filtered pool is empty, every index yields no tip (`undefined`). |
| `EcoTips.FavoriteTips` | src/components/EcoTipsPanel.tsx:332 | The favourites view holds exactly the catalog tips whose id is a favourite. A catalog without duplicate tips gives a view without duplicates. |
| `EcoTips.FavoriteTipsAppend` | src/components/EcoTipsPanel.tsx:332 | The view distributes over concatenation of the catalog, so the favourites are listed in catalog order whatever order they were toggled in. |
| `EcoTips.ToggleShowsInFavorites` | src/components/EcoTipsPanel.tsx:151-157 | Toggling a catalog tip's id flips whether that tip is in the favourites view. |
| `EcoTips.TransportFilterScenario` | src/components/EcoTipsPanel.tsx:23-172 | The "transport" selection shows exactly the carpooling tip, and "all" shows all eight tips. |

## Findings

| source | as written | input that shows it | evidently intended | confidence | as-written member | corrected member |
|---|---|---|---|---|---|---|
| src/components/CityManagement.tsx:137 | The feedback table has entries for plastic, transport and waste only. The category's table is indexed by the option before the `\|\|` fallback applies, so for 'energy' it indexes `undefined` and throws a TypeError. | a decision whose category is 'energy', with any option index | fall back to "Décision prise !" for a category without canned texts, as the `\|\|` does for a missing option | high; not executed (no seeded decision has the energy category, so the crash is latent) | `City.GenerateFeedbackAsWritten` (shown by `City.EnergyFeedbackThrows`) | `City.GenerateFeedback`, used by `City.CityGame.HandleDecision` |

## Left out

- Rendering: JSX, icons, CSS class pickers, image URLs, progress-bar percentages, `toFixed`/`toLocaleString`/`Math.round`. All of this is presentation.
- Feedback text with numbers: `PersonalTracker.Feedback` and `Challenges.TimeLeft` keep the numbers that the source's template strings interpolate, not the formatted text, because JavaScript number-to-string conversion is not modelled.
- Timers: `setInterval`/`setTimeout` scheduling and clean-up, and the feedback-clearing timeouts. Each tick body is a method called explicitly (`SimulateTick`, `ResetDailyActions`, `AccrueBudget`, `NextDecision`).
- The tips panel's `currentTip` and `selectedCategory` cells: `currentTip` is set from `getRandomTip()` over the whole catalog on mount and on each category change (EcoTipsPanel.tsx:160, which is `GetRandomTip(tips, None, i)`), from `getRandomTip(selectedCategory)` by the 15-second interval and the "new tip" button (lines 164 and 257), and straight from a clicked card of the filtered list (line 281). `selectedCategory` is set by the category buttons (line 190), read by `FilteredTips` (line 170) and passed to `getRandomTip` (lines 164 and 257). Each of these is a plain assignment of a value the modelled functions compute, so no state object is modelled for them.
- `PersonalTracker.StreakAchievement` and `PersonalTracker.InitialActions`: PersonalEcoTracker.tsx stores its French text mis-encoded ("é" appears as "√©", "É" as "√â", "è" as "√®"), so its seeded titles and its streak achievement text read, for instance, "Utiliser ma gourde r√©utilisable" and "… d'affil√©e !". The model uses the intended letters. No logic compares these strings; only the presentation-only icon lookup does.
- Tip descriptions: they are display text and are dropped from the catalog.
- React semantics: batching, stale closures other than the one `HandleDecision` models, and StrictMode's double invocation of state updaters. Updates are modelled as running once, in order.
- `PersonalTracker.AddImpact`: sums exactly. The source adds IEEE doubles, and the rounding of the CO2, money and percentage sums is not modelled (from the seed, completing actions 1, 2 and 5 gives 13.2 here where doubles give 13.200000000000001).
- `Challenges.FormatTimeRemaining`: uses exact integer division. The source's floating-point division and `Math.floor` agree with it while the millisecond difference stays below 2^52 in magnitude.
- `Challenges.ChallengeBoard.SimulateTick`: requires the drawn index to lie inside a non-empty list. On an empty list the source reads a field of `undefined` and throws, and that crash is not modelled.
- `Challenges.TickEffect`: is stated for lists with unique ids, as in the seeded catalog. With duplicate ids every matching challenge is updated, which `ProgressRun` still models.
- `City.CityGame.HandleDecision`: requires the option index to lie inside the decision's options. An index past the end makes the source throw on `option.cost`, and that crash is not modelled.
- `PersonalTracker.CompleteActionEffect`: is stated for lists with unique ids, as in the seeded catalog. `CompleteRun` also models duplicate ids: every matching open action is completed in turn.
- src/pages/Index.tsx is not part of this model. It is a tab shell with no state logic.
- Date-based streaks and persistence are not part of this model, because the code has neither.
