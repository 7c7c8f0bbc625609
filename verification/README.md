# Cookie clicker engine, modelled in Dafny

This project models the game-state engine of an incremental "cookie clicker"
game. The engine exists in two variants, and the model covers both.

- `javascript.js` (module `FrenzyGame`) has:
  - a currency counter;
  - eight producers and six upgrades;
  - two unlocks, `builder` and `rich`, written into the code;
  - a free-form theme name;
  - the golden-cookie "frenzy", a multiplier on the whole production rate that lasts for a set time.
- `main.js` (module `ThemedGame`) has:
  - a lifetime total next to the currency;
  - five upgrades;
  - five unlocks defined as a data table, checked after every click, purchase and tick;
  - themes that can only be chosen once their unlock has been granted.

The module `Entities` holds what both variants share:
- producer and upgrade records, and the geometric cost curves (factor 1.15 for producers, 1.6 for upgrades);
- the left-fold sums and products behind click value and production rate (the multiplier folds are written as a product of one factor per upgrade, where an upgrade of another kind contributes the factor 1; the source skips it, which gives the same product);
- lookup by id, which behaves like `Array.prototype.find`;
- the `serialize`/`load` entry lists, and the merge that `load` performs.

Each variant has two parts:
- A value type `State` with one function per operation. These functions are the specification, and the lemmas are proved about them.
- A class `Game` whose fields are updated in place, like the source's object. Each of its methods is proved to leave `Model()` equal to the function applied to the old state.

Currency is a `real`. Counts and levels are `nat`.

Two facts about the code shape the model:
- Neither variant clamps a negative `deltaSeconds` in `update`: a negative interval takes cookies away.
- In `javascript.js`, `update` neither keeps a lifetime total nor re-checks unlocks, and `click` does not re-check unlocks either.

## Model

| member | source | states |
|---|---|---|
| Entities.ProducerCost | main.js:12-14 | the producer price is floor(baseCost·1.15^count): the largest integer not above that product |
| Entities.UpgradeCost | javascript.js:18-20 | the upgrade price is floor(baseCost·1.6^level): the largest integer not above that product |
| Entities.PowMonotone | main.js:12-14 | a growth factor of at least 1 raised to a higher power is no smaller |
| Entities.ProducerCostMonotone | javascript.js:33-35 | the price of a producer never falls as its count rises, and is never negative |
| Entities.UpgradeCostMonotone | main.js:28-30 | the price of an upgrade never falls as its level rises, and is never negative |
| Entities.NoLevelsNoEffect | main.js:99-123 | while no upgrade has a level, the click bonus is 0 and every producer multiplier and the global multiplier are 1 |
| Entities.NoLevelsRawProduction | main.js:125-131 | while no upgrade has a level, the production sum is the plain sum of rate·count |
| Entities.NoCountsNoTotal | main.js:133-135 | the total producer count is 0 exactly when every count is 0 |
| Entities.CountUpTotal | main.js:133-135 | one more unit of any producer raises the total producer count by exactly one |
| Entities.ClickBonusLevelUp | main.js:99-105 | one more level of an upgrade adds its amount to the click bonus if it is a flat click upgrade, and nothing otherwise |
| Entities.ProducerFactorLevelUp | main.js:107-114 | one more level scales an upgrade's factor for a producer by the upgrade's own factor when it targets that producer, and by 1 otherwise |
| Entities.GlobalFactorLevelUp | main.js:116-123 | one more level scales an upgrade's global factor by its own factor when it is a global upgrade, and by 1 otherwise |
| Entities.FactorProductLevelUp | main.js:107-123 | when one more level of one upgrade scales that upgrade's own factor by c, the product of the factors over all upgrades is scaled by c |
| Entities.ProducerMultiplierLevelUp | main.js:107-114 | one more level multiplies a producer's multiplier by the upgrade's factor exactly when the upgrade targets that producer |
| Entities.GlobalMultiplierLevelUp | main.js:116-123 | one more level multiplies the global multiplier by the factor of a global upgrade, and leaves it unchanged otherwise |
| Entities.NoDupAppend | main.js:241-250 | appending a duplicate-free list of new ids to a duplicate-free list keeps it duplicate-free |
| Entities.IndexOf | main.js:148 | lookup by id finds an index exactly when the id is present, and it finds the first index holding that id |
| Entities.IndexOfNoDup | javascript.js:115 | in a table without duplicate ids, looking up the id at position k finds k |
| Entities.ApplyCount | main.js:209-212 | one saved producer entry sets the count of the first producer with that id to the coerced value; an unknown id changes nothing; the table is otherwise unchanged |
| Entities.ApplyLevel | main.js:213-216 | one saved upgrade entry sets the level of the first upgrade with that id to the coerced value; an unknown id changes nothing; the table is otherwise unchanged |
| Entities.ApplyCountsSameTable | javascript.js:194-197 | loading any producer entries changes only counts: ids, costs and rates stay |
| Entities.ApplyLevelsSameTable | javascript.js:190-193 | loading any upgrade entries changes only levels: ids, costs and effects stay |
| Entities.SameProducersTransfer | javascript.js:56-65 | two producer lists that both match the built-in table differ only in counts and share its ids |
| Entities.SameUpgradesTransfer | javascript.js:48-55 | two upgrade lists that both match the built-in table differ only in levels and share its ids |
| Entities.CountsRoundTrip | main.js:194-212 | applying the serialized counts of a table to any copy of the same table yields exactly the serialized table |
| Entities.LevelsRoundTrip | main.js:194-216 | applying the serialized levels of a table to any copy of the same table yields exactly the serialized table |
| Entities.ProducerCatalogIds | main.js:76-85 | the eight built-in producer ids are distinct |
| Entities.ProducerCatalog | main.js:76-85 | the built-in producer table, row by row as in the source (id, base cost, rate; the same eight rows as javascript.js:56-65) |
| Entities.AmountOrZero | main.js:207 | the `Number(x) or 0` coercion for a saved amount: NaN becomes 0 and a number is kept |
| Entities.CountOrZero | main.js:211 | the `Number(x) or 0` coercion for a saved count or level: NaN becomes 0 and a number is kept |
| Entities.ClickBonus | main.js:99-105 | the left fold adding level·amount of every flat click upgrade; NoLevelsNoEffect and ClickBonusLevelUp state its properties |
| Entities.ProducerMultiplier | main.js:107-114 | the left fold multiplying factor^level of every upgrade aimed at the producer; ProducerMultiplierLevelUp states how it changes |
| Entities.UpgradeGlobalMultiplier | main.js:116-123 | the left fold multiplying factor^level of every global upgrade; GlobalMultiplierLevelUp states how it changes |
| Entities.BaseProduction | main.js:125-130 | the left fold adding rate·multiplier·count over the producers; NoLevelsRawProduction relates it to the plain sum |
| Entities.TotalProducerCount | main.js:133-135 | the left fold adding every count; NoCountsNoTotal and CountUpTotal state its properties |
| Entities.ApplyCounts | main.js:209-212 | the producer merge loop as a fold of ApplyCount over the saved entries; ApplyCountsSameTable and CountsRoundTrip state its properties |
| Entities.ApplyLevels | main.js:213-216 | the upgrade merge loop as a fold of ApplyLevel over the saved entries; ApplyLevelsSameTable and LevelsRoundTrip state its properties |
| Entities.Dedupe | main.js:217-219 | `Array.from(new Set(xs))` has no duplicates and the same members as xs, and equals xs when xs has none |
| Entities.DedupeOrder | main.js:217-219 | the de-duplicated list keeps the order in which the elements first occur in xs, as iteration over a `Set` does |
| FrenzyGame.UpgradeCatalogIds | javascript.js:48-55 | the six built-in upgrade ids are distinct |
| FrenzyGame.UpgradeCatalog | javascript.js:48-55 | the built-in upgrade table, row by row as in the source (id, base cost, kind, amount or factor, target) |
| FrenzyGame.ClickValue | javascript.js:72-78 | the base click value 1 plus the click bonus; RatesWithoutUpgrades and UpgradePurchaseEffect state its properties |
| FrenzyGame.GlobalMultiplier | javascript.js:80-86 | the upgrades' global factor times the frenzy factor while a frenzy is marked active; GlobalMultiplierScaled and FrenzyOverwrites state its properties |
| FrenzyGame.CookiesPerSecond | javascript.js:98-104 | the base production times the global multiplier; RatesWithoutUpgrades and AdvanceGain state its properties |
| FrenzyGame.RatesWithoutUpgrades | javascript.js:72-104 | before any upgrade is bought the click value is 1, the global multiplier is the frenzy factor alone, and the rate is the plain sum of rate·count times that factor |
| FrenzyGame.Clicked | javascript.js:106-108 | a click adds the click value to the cookies and changes nothing else |
| FrenzyGame.CanAfford | javascript.js:110-112 | a purchase is affordable when the cookies are at least the price |
| FrenzyGame.Advanced | javascript.js:136-141 | an update resets an expired frenzy and then adds rate·delta; AdvanceGain and AdvanceAdditive state its properties |
| FrenzyGame.FrenzyTriggered | javascript.js:143-145 | a frenzy becomes active until now + duration, the global multiplier becomes the upgrades' factor times the new multiplier, and nothing else changes |
| FrenzyGame.ThemeSet | javascript.js:147-149 | the theme becomes the given name, unchecked, and nothing else changes |
| FrenzyGame.SnapshotOf | javascript.js:177-185 | serialize records the cookies, the levels and counts by id, the theme and the unlocks; RoundTrip states that load gives them back |
| FrenzyGame.WithUnlocks | javascript.js:151-156 | checkUnlocks only appends, and only `builder` and `rich`, each at most once; `builder` is present afterwards iff it was before or at least 10 producers are owned; `rich` is present iff it was before or at least 100000 cookies are held |
| FrenzyGame.WithUnlocksNoDup | javascript.js:151-156 | checkUnlocks never introduces a duplicate unlock |
| FrenzyGame.UpgradePurchase | javascript.js:114-123 | an unknown id fails and changes nothing; otherwise the purchase succeeds iff the cookies cover the price of the first upgrade with that id; on success the price is deducted (cookies stay non-negative), that upgrade gains exactly one level, producers, theme and frenzy are unchanged and the unlocks are what checkUnlocks makes of the new state; on failure nothing changes |
| FrenzyGame.ProducerPurchase | javascript.js:125-134 | the same all-or-nothing purchase for producers: one more unit of the first producer with that id, at its current price, followed by checkUnlocks |
| FrenzyGame.UpgradePurchaseEffect | javascript.js:72-104 | after a successful upgrade purchase the click value grows by the upgrade's amount, the global multiplier by its factor, and the target producer's multiplier by its factor, each only for the matching kind |
| FrenzyGame.LevelUpEffect | javascript.js:72-96 | one more level of upgrade i has exactly the effect of that upgrade's kind on click value, global multiplier and producer multipliers |
| FrenzyGame.GlobalMultiplierScaled | javascript.js:80-86 | with the frenzy unchanged, scaling the upgrades' global factor by c scales the whole global multiplier by c |
| FrenzyGame.AdvanceGain | javascript.js:136-141 | an update adds production·delta, where the frenzy multiplier counts iff the frenzy is active and not yet expired; an expired frenzy is reset; nothing else changes |
| FrenzyGame.AdvanceAdditive | javascript.js:136-141 | two updates at the same instant equal one update over the summed interval |
| FrenzyGame.FrenzyOverwrites | javascript.js:143-145 | a new frenzy replaces the running one instead of stacking, and while active it multiplies the upgrades' global factor by its own multiplier |
| FrenzyGame.Restored | javascript.js:187-200 | loading nothing changes nothing; otherwise the cookies become the coerced saved value, the tables keep their shape, and the frenzy is kept |
| FrenzyGame.RoundTrip | javascript.js:177-200 | loading a serialized state into any game with the built-in tables restores cookies, all counts and levels, and the unlocks; it restores the theme when that is non-empty; the frenzy stays the loading game's own |
| FrenzyGame.StepKeepsTables | javascript.js:106-200 | every operation keeps the built-in producer and upgrade tables, changing only counts and levels |
| FrenzyGame.ProducerPurchaseKeepsTables | javascript.js:125-134 | buying a producer keeps both built-in tables |
| FrenzyGame.UpgradePurchaseKeepsTables | javascript.js:114-123 | buying an upgrade keeps both built-in tables |
| FrenzyGame.RestoredKeepsTables | javascript.js:187-200 | loading any snapshot keeps both built-in tables |
| FrenzyGame.RunKeepsTables | javascript.js:106-200 | every sequence of operations keeps the built-in tables |
| FrenzyGame.UnlocksOnlyGrow | javascript.js:151-156 | across any sequence of operations without a load, the earlier unlock list stays a prefix of the later one |
| FrenzyGame.ReachableRoundTrip | javascript.js:177-200 | for every state reachable from a new game, save followed by load into a new game gives it back, except that the frenzy is not saved |
| FrenzyGame.Game.constructor | javascript.js:43-70 | a new game has 0 cookies, the built-in tables at count and level 0, no unlocks, the theme "dark" and no frenzy |
| FrenzyGame.Game.GetProducerMultiplier | javascript.js:88-96 | the loop's product equals the fold over all upgrades: the product of factor^level over the producer upgrades aimed at that producer |
| FrenzyGame.Game.Click | javascript.js:106-108 | the cookies grow by the click value and nothing else changes |
| FrenzyGame.Game.BuyUpgrade | javascript.js:114-123 | returns and performs exactly UpgradePurchase |
| FrenzyGame.Game.BuyProducer | javascript.js:125-134 | returns and performs exactly ProducerPurchase |
| FrenzyGame.Game.Update | javascript.js:136-141 | performs Advanced at the given time |
| FrenzyGame.Game.TriggerFrenzy | javascript.js:143-145 | starts a frenzy with the given multiplier that ends msDuration after `now` |
| FrenzyGame.Game.SetTheme | javascript.js:147-149 | stores any theme name |
| FrenzyGame.Game.CheckUnlocks | javascript.js:151-156 | performs WithUnlocks |
| FrenzyGame.Game.LoadLevels | javascript.js:190-193 | the loop sets each saved level on the first upgrade with that id, which is ApplyLevels, and changes no other field |
| FrenzyGame.Game.LoadCounts | javascript.js:194-197 | the loop sets each saved count on the first producer with that id, which is ApplyCounts, and changes no other field |
| FrenzyGame.Game.Load | javascript.js:187-200 | the two merge loops and the field updates perform Restored |
| ThemedGame.UpgradeCatalogIds | main.js:87-93 | the five built-in upgrade ids are distinct |
| ThemedGame.UpgradeCatalog | main.js:87-93 | the built-in upgrade table, row by row as in the source (id, base cost, kind, amount or factor, target) |
| ThemedGame.UnlockDefinitionIds | main.js:40-74 | the five unlock definition ids are distinct |
| ThemedGame.UnlockDefinitions | main.js:40-74 | the five unlock definitions with their thresholds: 100 and 1000 lifetime cookies, a click value of 10, 25 producers, 5 farms |
| ThemedGame.Holds | main.js:40-74 | the condition of a definition, evaluated on a state; a missing producer makes a count condition false |
| ThemedGame.Themes | main.js:299-338 | the three themes and the unlock each needs, without their CSS variables |
| ThemedGame.ClickValue | main.js:99-105 | the base click value 1 plus the click bonus; CpsWithoutUpgrades states it is 1 before any upgrade |
| ThemedGame.Cps | main.js:125-131 | the base production times the global multiplier; CpsWithoutUpgrades states its value before any upgrade |
| ThemedGame.CanAfford | main.js:143-145 | a purchase is affordable when the cookies are at least the price |
| ThemedGame.GetTheme | main.js:286-288 | a theme is found exactly when its id is one of classic, midnight and forest, and the one found has that id |
| ThemedGame.IsThemeUnlocked | main.js:229-233 | classic is always available; midnight iff `unlock_theme_midnight` is granted; forest iff `unlock_theme_forest` is granted; an unknown theme never is |
| ThemedGame.ThemeUnlockedMonotone | main.js:229-233 | a theme that is available stays available when unlocks are added |
| ThemedGame.CpsWithoutUpgrades | main.js:99-131 | before any upgrade is bought, the click value is 1, every multiplier is 1 and the production rate is the plain sum of rate·count |
| ThemedGame.Granted | main.js:241-250 | the unlock loop only appends to the list it started from |
| ThemedGame.PendingSpec | main.js:241-250 | the ids to grant are exactly the not-yet-granted definitions whose condition holds, none of them already granted, and they are distinct when the definition ids are |
| ThemedGame.PendingComplete | main.js:241-250 | every satisfied definition not yet granted is pending, and nothing granted is |
| ThemedGame.PendingSound | main.js:241-250 | every pending id belongs to a definition whose condition holds |
| ThemedGame.PendingNoDup | main.js:241-250 | distinct definition ids give distinct pending ids |
| ThemedGame.GrantedIsPending | main.js:241-250 | the loop over the definitions appends exactly the pending ids, in definition order |
| ThemedGame.NothingPending | main.js:241-250 | nothing is pending once every definition whose condition holds has been granted |
| ThemedGame.SettledHasNothingPending | main.js:241-250 | nothing is pending in a settled state, i.e. one where every satisfied definition is granted |
| ThemedGame.WithUnlocks | main.js:241-250 | checkUnlocks changes only the unlock list, and only appends to it |
| ThemedGame.CheckUnlocksSettles | main.js:241-250 | checkUnlocks appends exactly the pending ids, leaves every satisfied definition granted, and keeps a duplicate-free list duplicate-free |
| ThemedGame.CheckUnlocksIdempotent | main.js:241-250 | a second checkUnlocks right after the first grants nothing and changes nothing |
| ThemedGame.Clicked | main.js:137-141 | a click adds the click value to both cookies and the lifetime total, leaves tables and theme alone, and then runs checkUnlocks, so the unlocks only grow |
| ThemedGame.ProducerPurchase | main.js:147-156 | an unknown id fails and changes nothing; otherwise the purchase succeeds iff the cookies cover the current price; on success the price is deducted (cookies stay non-negative), that producer gains one unit, the lifetime total, upgrades and theme are unchanged, and the unlocks are what checkUnlocks makes of the new state; on failure nothing changes |
| ThemedGame.UpgradePurchase | main.js:158-167 | the same all-or-nothing purchase for upgrades: one more level at its current price, followed by checkUnlocks |
| ThemedGame.Advanced | main.js:169-174 | an update adds production·delta to the cookies and the same amount to the lifetime total; tables and theme stay, and then checkUnlocks runs |
| ThemedGame.AdvanceAdditive | main.js:169-174 | two updates accrue the same cookies and lifetime total as one update over the summed interval |
| ThemedGame.AccrueAdditive | main.js:169-174 | at a fixed rate, accruing over a and then over b gives the same cookies and lifetime total as accruing over a + b |
| ThemedGame.ThemeSet | main.js:235-239 | setTheme succeeds iff the theme is unlocked, and then changes only the theme; otherwise nothing changes |
| ThemedGame.TotalOrCookies | main.js:208 | a missing, non-numeric or zero saved lifetime total falls back to the cookies; any other number is kept |
| ThemedGame.Merged | main.js:205-222 | the merge step of load coerces the cookies, falls back to them for the lifetime total, keeps the tables' shape, yields a duplicate-free unlock list when one was saved and keeps the old one otherwise, and takes the saved theme exactly when it names a known theme |
| ThemedGame.Restored | main.js:205-227 | loading nothing changes nothing; otherwise the state is the merged one with the unlocks checkUnlocks gives it, and the theme is the merged theme if unlocked and classic otherwise, so it is always unlocked |
| ThemedGame.SnapshotOf | main.js:194-203 | serialize records cookies, lifetime total, theme, unlocks, and the counts and levels by id; RoundTrip states what load makes of it |
| ThemedGame.RestoredSettles | main.js:217-226 | after a load nothing is pending, and the unlocks are duplicate-free when a list was saved or the old one was |
| ThemedGame.RoundTrip | main.js:194-227 | loading a serialized reachable-shaped state restores it, except that a zero lifetime total comes back as the cookies (after which further unlocks may be granted); with a non-zero total the state comes back unchanged |
| ThemedGame.FreshInvariant | main.js:34-97 | a new game satisfies the invariant: built-in tables, no duplicate unlocks, nothing pending, theme unlocked |
| ThemedGame.StepKeepsInvariant | main.js:137-250 | every operation preserves the invariant |
| ThemedGame.UnlockCheckKeepsInvariant | main.js:241-250 | checkUnlocks on a state with the built-in tables, no duplicate unlock and an unlocked theme yields a state that satisfies the invariant |
| ThemedGame.ProducerPurchaseKeepsInvariant | main.js:147-156 | buying a producer preserves the invariant |
| ThemedGame.UpgradePurchaseKeepsInvariant | main.js:158-167 | buying an upgrade preserves the invariant |
| ThemedGame.RestoredKeepsInvariant | main.js:205-227 | loading any snapshot preserves the invariant |
| ThemedGame.RunKeepsInvariant | main.js:137-250 | every state reachable from a new game satisfies the invariant |
| ThemedGame.UnlocksOnlyGrow | main.js:241-250 | across any sequence of operations without a load, the earlier unlock list stays a prefix of the later one |
| ThemedGame.ReachableRoundTrip | main.js:194-227 | for every reachable state with a non-zero lifetime total, save followed by load into a new game gives the state back unchanged |
| ThemedGame.Game.constructor | main.js:34-97 | a new game has no currency, the built-in tables at count and level 0, no unlocks and the classic theme |
| ThemedGame.Game.Click | main.js:137-141 | performs Clicked |
| ThemedGame.Game.BuyProducer | main.js:147-156 | returns and performs exactly ProducerPurchase |
| ThemedGame.Game.BuyUpgrade | main.js:158-167 | returns and performs exactly UpgradePurchase |
| ThemedGame.Game.Update | main.js:169-174 | performs Advanced |
| ThemedGame.Game.SetTheme | main.js:235-239 | returns and performs exactly ThemeSet |
| ThemedGame.Game.CheckUnlocks | main.js:241-250 | the loop performs WithUnlocks, and reports a change iff some definition was pending |
| ThemedGame.Game.LoadCounts | main.js:209-212 | the loop sets each saved count on the first producer with that id, which is ApplyCounts, and changes no other field |
| ThemedGame.Game.LoadLevels | main.js:213-216 | the loop sets each saved level on the first upgrade with that id, which is ApplyLevels, and changes no other field |
| ThemedGame.Game.Load | main.js:205-227 | the two merge loops, the de-duplication, the theme choice, the unlock check and the fallback to classic perform Restored |

## Left out

- The DOM, rendering, button wiring and number formatting are outside the engine.
- `localStorage`, JSON encoding and error handling on storage are left out. A snapshot is modelled as an already decoded record (`Snapshot`).
- The interval timer (`start`, `stop`) and `performance.now()` are left out. `javascript.js`'s `update` and `triggerFrenzy` take the current time as a parameter `now`.
- The random scheduling of golden cookies in the UI of `javascript.js` is left out. Only `triggerFrenzy` is modelled.
- CSS variables of the themes and `ThemeManager.apply` are left out. A theme is its id and its unlock id.
- Currency is an exact `real`. IEEE-754 rounding, overflow to infinity and NaN arising from arithmetic are not modelled. Prices can therefore differ from what the program charges. For example, `100 * 1.15` is 114.99999999999999 in double precision, so the second `p2` costs 114 in the program, but Entities.ProducerCost gives 115.
- Saved counts and levels are a natural number or NaN, so negative or fractional numbers in a snapshot are not modelled. `Number(x)` converts numeric strings, booleans and one-element arrays; `null`, `""` and `[]` give 0; other values give NaN. Both 0 and NaN then become 0 (for `totalCookies`, the cookies). A saved theme is a string or absent, so non-string theme values are not modelled. An absent `producers` or `upgrades` array is an empty sequence. An absent or non-array `unlocks` is `None` and keeps the current list (javascript.js:199, main.js:217).
- Entities.IndexOf: `find` compares with `===` on arbitrary values. The model compares strings only.
- FrenzyGame.Restored: `load` can throw, which the model does not capture. The loops at javascript.js:190 and javascript.js:194 throw a TypeError when `upgrades` or `producers` is truthy but not iterable, and when an entry is `null`. By then `cookies` has already been overwritten (javascript.js:189), so the game is left partly loaded. The caller at javascript.js:525 does not catch the error. The typed `Snapshot` and `Entry` records rule these inputs out.
- ThemedGame.Restored: `load` can throw in the same way, which the model does not capture. The loops at main.js:209 and main.js:213 throw on a non-iterable `producers` or `upgrades` and on a `null` entry, after `cookies` and `totalCookies` have been overwritten (main.js:207-208). The game is left partly loaded, and the caller at main.js:491 does not catch the error. The typed records rule these inputs out.
- FrenzyGame.Restored: `load` in `javascript.js` shares the saved unlock array with the game instead of copying it. The model works on values, so that aliasing is not captured.
- ThemedGame.AdvanceAdditive: it covers the currency only. The unlock lists may differ in order. When an interval is negative they may also differ in content, because `update` does not clamp it. For example, a new game with one `p2` gains `unlock_theme_midnight` from an update of 1000 seconds followed by one of -950 seconds, but not from a single update of 50 seconds.
- FrenzyGame.RoundTrip: the frenzy is not part of the snapshot, so a running frenzy is lost on reload.
