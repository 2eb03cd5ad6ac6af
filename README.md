# Card-battler progression and economy, modelled in Dafny

This project models the player progression and economy of a browser card game. That state lives in the game controller object:
- the player's wallet: health, mana, gold, level and experience, with the health and mana maxima;
- the card collection: owned cards and the equipped deck, capped at 20 cards;
- unlocked levels, item counts, achievements and lifetime stats;
- the operations that change all of these: rewards after a battle, buying cards and items, equipping and unequipping, using items, unlocking achievements and starting a new game;
- the controller's event registry.

The model also covers the bookkeeping the interface manager keeps outside the DOM:
- the deck screen's equip toggle;
- the shop purchase and the stat effects of shop items;
- the toast-notification queue;
- the element cache.

Modules:
- `Optional`: an `Option` type for JavaScript's `null`/`undefined` results.
- `Sequences`: the array operations the game uses. `IndexOf` is `indexOf`, `RemoveAt` is `splice(i, 1)`. `NoDup` and `SubsetOf` state duplicate-freedom and inclusion.
- `Progression`: the entities of the game state (`Player`, `Progress`, `Stats`, `Attributes`) and the catalog of cards, items, levels and achievements. Each controller operation is also written as a rule on values; its contract says when the operation is rejected, what changes when it succeeds, and that the invariant `Wf` is preserved. Lemmas relate several calls.
- `Controller`: the `GameController` class. Its fields are updated in place. Each progression method is proved equal to its `Progression` rule and keeps `Valid()`. The event registry and the new-game reset are specified directly.
- `UiRules`: the interface manager's rules on values: toggle, shop, item effects, the toast queue with its FIFO theorem, and the element cache.
- `Ui`: the `UIManager` class. Its methods update its own toast queue and cache, and the game controller's state, in place.

`Wf` is the invariant all operations keep:
- gold ≥ 0, level ≥ 1 and experience ≥ 0;
- health ≤ maxHealth and mana ≤ maxMana;
- the owned, equipped, unlocked-level and achievement lists have no duplicates;
- every equipped card is owned, and at most 20 cards are equipped;
- no item count is negative.

`Progression.ReachableStatesAreWf` proves that `Wf` holds in every state reachable from a new game by the seven progression operations of the controller. `UiRules.SessionStatesAreWf` extends this to sessions that also start new games, toggle owned cards on the deck screen and buy in the shop. A toggle of a card that is not owned can break `Wf`: the toggle does not check ownership, and the deck screen offers owned cards only.

## Model

| member | source | states |
|---|---|---|
| `Sequences.IndexOf` | GameController.js:523-524 | the result is -1 exactly when the card is absent; otherwise it is the position of the card's first occurrence |
| `Sequences.RemoveAt` | GameController.js:530 | `splice(i, 1)` removes exactly one element (the multiset loses one copy) and keeps the others in order; a duplicate-free list stays duplicate-free and no longer contains the removed id |
| `Progression.LevelUp` | GameController.js:382-389 | a level-up happens only when experience ≥ level × 100. It raises the level by 1, takes level × 100 from experience (which stays ≥ 0) and adds 10 to maxHealth and 1 to maxMana. Otherwise the player is unchanged |
| `Progression.AddMissing` | GameController.js:405-416 | the owned cards are kept as a prefix. Every card appended after them is a reward card not owned before. The result holds exactly the owned cards and the reward cards, and stays duplicate-free |
| `Progression.AddMissingKeepsRewardOrder` | GameController.js:407-416 | the appended cards follow the order of their first occurrence in the reward list |
| `Progression.UnlockNext` | GameController.js:397-398 | the next level is in the result exactly when it was unlocked already or it exists (id < levelsCount); nothing else is added and no duplicate appears |
| `Progression.GiveRewards` | GameController.js:370-425 | the reward gold is added to both gold and totalGoldEarned, and the reward experience to experience. There is at most one level-up. Level id+1 is unlocked only when id < levelsCount. The reward cards join the owned cards; the deck, achievements and items are unchanged. `Wf` is preserved |
| `Progression.BuyCard` | GameController.js:430-472 | returns false with nothing changed for an unknown card, an owned card or gold < price. Otherwise gold drops by exactly the price, the card is appended, and it then occurs exactly once. `Wf` is preserved |
| `Progression.EquipCard` | GameController.js:477-515 | rejects, with no change, a card that is not owned, already equipped, or that would exceed 20. Otherwise the card is appended. `Wf` is preserved (the deck stays owned, duplicate-free and at most 20 cards) |
| `Progression.UnequipCard` | GameController.js:521-547 | returns false with no change when the card is absent. Otherwise it removes exactly one occurrence, the first, and changes nothing else. The card is then no longer in the deck |
| `Progression.UseItem` | GameController.js:552-605 | rejected with nothing consumed when the item is unknown, its count is missing or ≤ 0, or its type is unknown. On success exactly one is consumed. `heal` sets health to min(maxHealth, health + value); `maxHealthUp` and `maxManaUp` raise the current value and its maximum by the same amount. `Wf` is preserved |
| `Progression.BuyItem` | GameController.js:610-653 | rejected with no change when the item is unknown or gold < price. Otherwise gold drops by exactly the price and the item's count rises by 1 (from 0 when absent), with all other counts unchanged |
| `Progression.UnlockAchievement` | GameController.js:659-690 | the intended behaviour: returns false with no change for an unlocked or unknown id. Otherwise the id is appended once and the call reports success. `Wf` is preserved |
| `Progression.UnlockAchievementAsWritten` | GameController.js:671-688 | the code as written: the state changes exactly as under the intended rule, but the result is always false |
| `Progression.UnlockAchievementReportsFailureOnSuccess` | GameController.js:678-688 | on a new game with a known achievement, the intended rule succeeds while the code as written reports failure, even though the achievement is recorded |
| `Progression.UnlockAchievementIdempotent` | GameController.js:661-664 | unlocking twice: the second call returns false and changes nothing |
| `Progression.BuyCardTwiceRejected` | GameController.js:439-443 | a second purchase of a card just bought is rejected and does not charge again |
| `Progression.EquipThenUnequip` | GameController.js:479-530 | equipping a card and then unequipping it restores the state exactly |
| `Progression.RewardsLevelUpAtMostOnce` | GameController.js:382-389 | a reward raises the level by 0 or 1 whatever the experience; surplus experience is carried over and stays ≥ 0 |
| `Progression.ReachableStatesAreWf` | GameController.js:23-82 | starting from the initial state, any sequence of the seven progression operations keeps `Wf` |
| `UiRules.SessionStatesAreWf` | UIManager.js:926-1139 | starting from a new game, any sequence of controller operations, deck toggles of owned cards, shop purchases and new games keeps `Wf` |
| `Controller.Register` | GameController.js:217-227 | the added callback is dispatched after those registered before it for the same event; other events are unaffected |
| `Controller.GameController.constructor` | GameController.js:91-117 | the initial state: main menu, player 100/100 health, 3/3 mana, 0 gold, level 1, 0 experience, level 1 unlocked, empty collections and listeners; it satisfies `Valid()` |
| `Controller.GameController.AddEventListener` | GameController.js:217-227 | appends the callback to the event's list, creating the list when absent |
| `Controller.GameController.TriggerEvent` | GameController.js:232-241 | calls exactly the callbacks registered for the event, in registration order, each with the given data; none when the event has no list |
| `Controller.GameController.StartNewGame` | GameController.js:293-331 | resets the player, piles and battle flags to their initial values, keeps the progress and opens the level-select screen |
| `Controller.GameController.GiveRewards` | GameController.js:370-425 | the in-place update, including the loop over reward cards, equals `Progression.GiveRewards`; `Valid()` is kept |
| `Controller.GameController.AddRewardCards` | GameController.js:407-418 | the in-place loop leaves the owned cards equal to `Progression.AddMissing` of the reward cards, and the rest of the progress unchanged |
| `Controller.GameController.BuyCard` | GameController.js:430-472 | the result and the new state equal `Progression.BuyCard`; `Valid()` is kept |
| `Controller.GameController.EquipCard` | GameController.js:477-515 | the result and the new state equal `Progression.EquipCard`; `Valid()` is kept |
| `Controller.GameController.UnequipCard` | GameController.js:521-547 | the result and the new state equal `Progression.UnequipCard`; `Valid()` is kept |
| `Controller.GameController.UseItem` | GameController.js:552-605 | the result and the new state equal `Progression.UseItem`; `Valid()` is kept |
| `Controller.GameController.BuyItem` | GameController.js:610-653 | the result and the new state equal `Progression.BuyItem`; `Valid()` is kept |
| `Controller.GameController.UnlockAchievement` | GameController.js:659-690 | the result and the new state equal the intended `Progression.UnlockAchievement`; `Valid()` is kept |
| `UiRules.ToggleEquip` | UIManager.js:926-947 | an equipped card loses its first occurrence only. An unequipped card is appended only when fewer than 20 cards are equipped; at 20 the deck is unchanged. The toggle never adds any other card, and it keeps the deck duplicate-free and at most 20 cards |
| `UiRules.ToggleKeepsWf` | UIManager.js:870-947 | for a card the deck screen lists, which is always owned, the toggle keeps the whole-state invariant `Wf` |
| `UiRules.ApplyItemEffect` | UIManager.js:1146-1187 | does nothing without an effect or for an unknown type. `maxHealth`/`maxMana` raise the current value and its maximum by the same amount. Each attribute case changes only its named attribute. Gold, level and experience are untouched |
| `UiRules.BuyShopItem` | UIManager.js:1102-1139 | nothing happens when gold < price. Otherwise exactly the price is deducted. A card offer adds the card only if it is not owned, so the collection stays duplicate-free. An item offer applies its effect. Except for a card added by a card offer, the progress is left exactly as it was, and `Wf` is preserved |
| `UiRules.ShopChargesForOwnedCard` | UIManager.js:1110-1118 | a card offer that is already owned is still charged, and the collection is unchanged |
| `UiRules.ShowNextToast` | UIManager.js:1217-1227 | on an empty queue the flag is cleared. Otherwise the flag is set and exactly the front toast is removed and shown |
| `UiRules.ShowToast` | UIManager.js:1194-1211 | an empty message changes nothing. Otherwise the toast is queued at the back. A toast is shown by the call exactly when the message is non-empty and nothing was showing. "Not showing ⇒ queue empty" is preserved |
| `UiRules.StepKeepsOrder` | UIManager.js:1194-1227 | for one request or one finished toast, the toast shown followed by the new queue is the old queue followed by the toast requested |
| `UiRules.ToastsAreFifo` | UIManager.js:1194-1260 | over any sequence of requests and finished toasts, the toasts displayed followed by those waiting are the initial queue followed by the non-empty requests, in request order |
| `UiRules.ToastWfIsInvariant` | UIManager.js:1205-1227 | "not showing ⇒ queue empty" holds after any sequence of requests and finished toasts |
| `UiRules.GetElement` | UIManager.js:1481-1501 | a cached id is answered from the cache without a lookup. Otherwise the document is asked, and only a found element is cached. Existing entries are never replaced |
| `UiRules.CachedElementIsStable` | UIManager.js:1484-1486 | once an id has been found, every later call returns the same element whatever the document holds, and leaves the cache unchanged |
| `Ui.UIManager.constructor` | UIManager.js:31-40 | empty toast queue, no toast showing, empty element cache |
| `Ui.UIManager.ShowToast` | UIManager.js:1194-1211 | the queue, the flag and the toast shown equal `UiRules.ShowToast`; the toast invariant is kept |
| `Ui.UIManager.ShowNextToast` | UIManager.js:1217-1227 | the queue, the flag and the toast shown equal `UiRules.ShowNextToast`; the toast invariant holds afterwards |
| `Ui.UIManager.ToggleCardEquip` | UIManager.js:926-962 | the deck changes as `UiRules.ToggleEquip` says and the matching toast is queued. The controller's `Valid()` is kept for an owned card |
| `Ui.UIManager.BuyShopItem` | UIManager.js:1102-1139 | gold, collection, stats and attributes change as `UiRules.BuyShopItem` says, and the matching toast is queued (none for an offer of another type). The controller's `Valid()` is kept |
| `Ui.UIManager.ApplyItemEffect` | UIManager.js:1146-1187 | the player and the attributes change as `UiRules.ApplyItemEffect` says |
| `Ui.UIManager.GetElement` | UIManager.js:1481-1501 | the cache and the returned element equal `UiRules.GetElement` |

## Left out

- The battle engine: `playCard`, `endTurn`, `startBattle` and the card, battle, effect, player and enemy managers. The controller calls them, but their code is not part of this model. The piles and battle flags appear only as the values `StartNewGame` resets, and the `activeEffects` list is not modelled.
- Sounds, saving, logging and animations triggered by the game controller: these are side effects on other objects and do not feed back into the modelled state.
- The toasts the game controller requests (level-up, unlocks, purchases, errors): each goes into the interface manager's toast queue, but the model's controller methods do not make these requests. `UiRules.ToastsAreFifo` still covers any sequence of requests, whoever makes them.
- Initialising and loading the game: `init`, `loadGame` and `resetGame` depend on the save store, which is not modelled.
  - `loadGame` reads gold from `stats.totalGoldEarned` and level from a `stats.level` field that the stats never hold.
  - `resetGame` copies the initial state only shallowly, so the nested progress lists are shared with it and are not really reset. The model keeps its state as values and does not reproduce this aliasing.
- Settings: the settings merge and the volume settings use floating point and are not modelled. `showScreen` is modelled only as the screen `StartNewGame` selects.
- The handlers registered in `_setupEventListeners` and what a callback does when `TriggerEvent` calls it. Callbacks are opaque handles.
- Exception paths. A foreign call that throws part-way leaves a partly updated state, such as gold already deducted before saving. `_showNextToast`'s catch also clears the flag. The model covers normal returns only.
- Timers and the DOM: toast display timing, modals, rendering and listener wiring. A finished toast is an explicit call of `ShowNextToast`. The element lookup is the `dom` parameter. `_processToastQueue` duplicates `_showNextToast` and is not modelled separately.
- `UiRules.ApplyItemEffect`: the `heal` effect calls the player manager's `heal`, which is not part of this model, so it changes nothing here.
- Catalog values are integers, and reward gold and experience are non-negative. The source does not check them, but a negative reward would break gold ≥ 0 and experience ≥ 0.
- Number semantics: JavaScript numbers are modelled as unbounded integers; floating point and `NaN` are not modelled. A message is "empty" only when it is the empty string, not `null` or `undefined`.
- script.js: a separate real-time chase minigame (pointer steering, enemy spawning, an end video). It does not touch the controller or the interface manager and is not part of this model.
- Controller.GameController.AddEventListener: the registry is a plain JavaScript object, so an event named like an `Object.prototype` member (`toString`, `constructor`, …) finds the inherited value. No list is created, the `push` throws, and the error is caught, so the callback is never registered. The model's registry is a map with no inherited keys and registers it. Event names are assumed not to be such names.
- UiRules.GetElement: the element cache is a plain JavaScript object, so an id such as `constructor` is answered with the inherited value without asking the document. The model asks `dom`. Element ids are assumed not to be `Object.prototype` member names.
- Progression.UseItem and Progression.BuyItem: the item counts are a plain JavaScript object, so an item id that names an `Object.prototype` member reads an inherited value instead of "no count". The model's counts are a map with no inherited keys. Item ids are assumed not to be such names.
- Controller.GameController.UnlockAchievement: returns the intended result, true on a successful unlock. The code as written reports false there; see "## Findings".

## Findings

| source | as written | input that shows it | evidently intended | confidence | as-written member | corrected member |
|---|---|---|---|---|---|---|
| GameController.js:678 | after recording the achievement, `unlockAchievement` calls `uiManager.showAchievementUnlocked`, which the interface manager (UIManager.js) does not define. The call throws, the catch at 686-688 returns false, and `saveGame` at 681 is skipped, while the achievement stays recorded in memory | a new game, with `"firstWin"` in the achievement catalog, then `unlockAchievement("firstWin")` | the unlock is reported as a success (true), as line 684 returns | high, not executed | `Progression.UnlockAchievementAsWritten`, `Progression.UnlockAchievementReportsFailureOnSuccess` | `Progression.UnlockAchievement` |
