# Idle clicker: store, progression and shop, in Dafny

This project models the sequential core of a small browser idle-clicker game
and proves properties of that model. The core has three parts.

- **The server's in-memory entity store** (`MemStorage`). It holds players
  and upgrades in two maps. Each map has its own id counter, which starts at 1
  and is post-incremented on every insertion. Updates are a shallow object
  spread `{ ...old, ...data }`. The request logger's line shortening is
  modelled beside it.
- **The client's game state** (`useGameState`). Its state is the current
  player plus the time of the last accepted click. Three guarded transitions
  change it: a click (200 ms cooldown, needs energy), the energy-regeneration
  tick (capped at 100) and buying an item from a fixed price table. A rejected
  transition changes nothing.
- **The shop screen.** A static catalog of sections, categories and items.
  Its purchase handler compares the balance with the price before it hands
  the item id to the game state.

Files and modules:

- `schema.dfy`, module `Schema`: the `Player` and `Upgrade` records. Partial
  updates are records of optional fields (`PlayerPatch`, `UpgradePatch`).
  `MergePlayer` and `MergeUpgrade` are the spread, specified by two facts: the
  result carries every key the patch sends, and it differs from the old record
  only on those keys. These two facts determine the merge.
- `storage.dfy`, module `Storage`: class `MemStorage`. The players are a
  `map<int, Player>`. The upgrades are a `map<int, Upgrade>` plus the sequence
  of their keys in insertion order, which is the order a JavaScript `Map`
  iterates in. There are two counters. Failing updates return a `Result` whose
  error carries the source's message.
- `request_log.dfy`, module `RequestLog`: the 80-character log-line cut.
- `game_state.dfy`, module `GameState`: the transitions as functions on a
  `Session` value (`AfterClick`, `AfterTick`, `AfterBuy`). Class `GameStore`
  holds the two stored fields, and its methods update them in place under
  contracts that tie them to those functions. Lemmas cover any run of events.
- `shop.dfy`, module `Shop`: the catalog constant, the purchase guard, the
  disabled-button condition, and lemmas that link the catalog to the game
  state's price table.

Clock readings are parameters: the server's `new Date()` at player creation
and the client's `Date.now()` at a click. Timestamps are plain integers.

Four behaviours of the code are worth stating:

- Listing a player's upgrades returns them in insertion order, the iteration
  order of the map (dist/index.js:44). It is not an unordered set.
- A click is ignored while no player is loaded, as well as during the cooldown
  and at zero energy (src/lib/game-state.ts:67-72).
- A player update may carry `id`. The stored record's `id` field then changes,
  but the record stays under its old map key (dist/index.js:39-40). The store
  invariant therefore does not tie a record's `id` to its key.
- The upgrade-creation route hands the request body to the store without
  validating it (dist/index.js:123-126). Routes are not part of this model.

## Model

| member | source | states |
|---|---|---|
| `Schema.MergePlayer` | dist/index.js:39 | The updated player has every value the update sends; every key the update does not send keeps its old value |
| `Schema.MergePlayerUnique` | dist/index.js:39 | Any record with both of those properties is the merged record, so the two facts fully specify the shallow merge |
| `Schema.MergePlayerExtremes` | dist/index.js:39 | An empty update leaves the player as it was; an update that sends every key replaces it with exactly those values |
| `Schema.MergePlayerCompose` | dist/index.js:36-41 | Two successive updates equal one update with the combined keys, the later update winning; sending the same update twice is the same as once |
| `Schema.MergeUpgrade` | dist/index.js:60 | The updated upgrade has every value the update sends, and only keys the update sends change |
| `Schema.MergeUpgradeUnique` | dist/index.js:60 | Those two properties determine the merged upgrade |
| `Schema.MergeUpgradeEmpty` | dist/index.js:60 | An empty update leaves the upgrade unchanged |
| `Storage.InOrder` | dist/index.js:44 | `Array.from(this.upgrades.values())`: one value per key of the insertion order, so the list is exactly as long as the order |
| `Storage.OfPlayer` | dist/index.js:44 | The `playerId ===` filter: never longer than its input, and every element it keeps belongs to the player |
| `Storage.InOrderAt` | dist/index.js:44 | The i-th listed value is the value stored under the i-th key of the iteration order |
| `Storage.OfPlayerMembers` | dist/index.js:44 | The player filter keeps exactly the upgrades whose `playerId` matches |
| `Storage.OfPlayerAppend` | dist/index.js:44 | The filter preserves order: filtering a concatenation concatenates the filtered parts |
| `Storage.OfPlayerSnoc` | dist/index.js:44 | Appending one upgrade to the list adds it to the filtered list exactly when its `playerId` matches |
| `Storage.FilterValues` | dist/index.js:44 | The loop over the map's values in iteration order returns the filter of the ordered values |
| `Storage.MemStorage.constructor` | dist/index.js:9-16 | A new store has no players, no upgrades, and both counters at 1 |
| `Storage.MemStorage.GetPlayer` | dist/index.js:17-19 | The result is present exactly when the id is stored, and it is then the stored record; there is no error case |
| `Storage.MemStorage.CreatePlayer` | dist/index.js:20-35 | Id is the counter before the call, is fresh, and the counter goes up by 1; coins 0, clicks 0, energy 100, click power 1, auto-click power 0 and refill time `now` win over caller values; only the username is kept; upgrades untouched |
| `Storage.MemStorage.UpdatePlayer` | dist/index.js:36-42 | Absent id: "Player not found", nothing changes; present id: the record under that key becomes the merge; other players, upgrades and counters unchanged |
| `Storage.MemStorage.GetUpgrades` | dist/index.js:43-45 | Returns the filter of the stored upgrades in insertion order: every result belongs to the player and is stored, every stored upgrade of the player is returned; changes nothing |
| `Storage.MemStorage.UpgradesOfPlayerListed` | dist/index.js:43-45 | Filtering the iteration order loses no stored upgrade of the player and adds nothing else |
| `Storage.MemStorage.AddUpgrade` | dist/index.js:46-56 | Id is the upgrade counter before the call, is fresh, and only that counter goes up; level is 1 when absent and the given level otherwise; the upgrade joins the end of the iteration order; players untouched |
| `Storage.MemStorage.UpdateUpgrade` | dist/index.js:57-63 | Absent id: "Upgrade not found", nothing changes; present id: the record becomes the merge and keeps its place in the order |
| `Storage.FirstPlayerAndUpgrade` | dist/index.js:20-56 | On a fresh store the first player gets id 1 with 0 coins, energy 100 and 0 clicks; the first upgrade gets id 1 and level 1; listing the player's upgrades gives exactly that upgrade |
| `Storage.SameUsernameTwice` | dist/index.js:20-35 | Two creations with the same username both succeed, under different ids, and both records are stored |
| `RequestLog.TruncateLogLine` | dist/index.js:251-253 | A line of at most 80 characters is unchanged; a longer one becomes its first 79 characters plus an ellipsis; the result never exceeds 80 |
| `RequestLog.TruncateLogLineIdempotent` | dist/index.js:251-253 | Shortening an already shortened line changes nothing |
| `GameState.PricesPositive` | src/lib/game-state.ts:14-30 | Every price in the table `GameState.ShopPrices` (the twelve ids and prices of `SHOP_ITEMS`) is positive |
| `GameState.AfterClick` | src/lib/game-state.ts:62-83 | The session changes exactly when the cooldown has passed, a player exists and energy is positive; energy stays in [0, 100], coins and clicks non-negative; the last-click time never decreases |
| `GameState.ClickWithinCooldownDropped` | src/lib/game-state.ts:62-70 | A click less than 200 ms after an accepted click has no effect |
| `GameState.AfterTick` | src/lib/game-state.ts:45-55 | The session changes exactly when a player exists with energy below 100; energy then rises by 1 and stays at most 100; only energy changes, and the last-click time never does |
| `GameState.AfterBuy` | src/lib/game-state.ts:85-109 | The session changes exactly when a player exists, the id is in the table and coins cover the price; coins then drop by exactly the price and stay non-negative; nothing else changes |
| `GameState.RunKeepsInRange` | src/lib/game-state.ts:45-105 | After any sequence of clicks, ticks and purchases, energy is in [0, 100] and coins and clicks are non-negative |
| `GameState.RunKeepsIdentity` | src/lib/game-state.ts:45-105 | No sequence of events removes the player or changes its id, username, refill time or powers; clicks and the last-click time never decrease |
| `GameState.SpacedClicksAllCount` | src/lib/game-state.ts:62-83 | N clicks at least 200 ms apart with energy for all are all accepted: coins and clicks rise by exactly N, energy falls by N, the last-click time is the last click's |
| `GameState.TicksRefillEnergy` | src/lib/game-state.ts:45-55 | From any energy in [0, 100], enough ticks bring it to exactly 100 and change nothing else |
| `GameState.GameStore.constructor` | src/lib/game-state.ts:34-36 | The store starts with no player and last-click time 0 |
| `GameState.GameStore.ReceivePlayer` | src/lib/game-state.ts:40-42 | Stores the player returned by the server; the last-click time is kept |
| `GameState.GameStore.Click` | src/lib/game-state.ts:62-83 | The new fields are `AfterClick` of the old ones; a rejected click changes neither field; an accepted one adds 1 coin and 1 click, takes 1 energy and records `now` |
| `GameState.GameStore.Tick` | src/lib/game-state.ts:45-55 | The new fields are `AfterTick` of the old ones; without a player or at full energy nothing changes, otherwise energy becomes min(100, energy + 1) |
| `GameState.GameStore.BuyItem` | src/lib/game-state.ts:85-109 | The new fields are `AfterBuy` of the old ones; an unknown id, no player or too few coins change nothing; otherwise only coins drop by the price |
| `GameState.LookupAsWritten` | src/lib/game-state.ts:89-93 | Indexing the price-table object finds an own item exactly for the table's ids, at their price, and an inherited member exactly for the `Object.prototype` keys |
| `GameState.CoinsAfterBuyAsWritten` | src/lib/game-state.ts:89-105 | The balance after buying as written: NaN exactly for an inherited `Object.prototype` key that is not a table id; otherwise a number that only changes when a table item is bought, and then drops by its price without going below 0 |
| `GameState.InheritedKeyCorruptsCoins` | src/lib/game-state.ts:89-105 | As written, buying "toString" leaves the balance as NaN (see Findings) |
| `GameState.AfterBuyCorrectsInheritedKeys` | src/lib/game-state.ts:85-105 | Off the inherited keys, the code as written and `AfterBuy` give the same balance; on those keys `AfterBuy` changes nothing |
| `Shop.CategoryItemsListed` | src/components/game/shop.tsx:110-115 | An item is listed for a run of categories exactly when one of them holds it |
| `Shop.AllItemsListed` | src/components/game/shop.tsx:106-115 | An item is listed in the catalog exactly when some category of some section holds it |
| `Shop.CatalogItems` | src/components/game/shop.tsx:7-65 | The catalog constant `Shop.Catalog` (three sections of two categories of two items, names and descriptions as shown) lists twelve items, two per category, in display order |
| `Shop.CatalogIdsDistinct` | src/components/game/shop.tsx:14-61 | No two catalog items share an id |
| `Shop.CatalogPricesInTable` | src/components/game/shop.tsx:14-61 | Every catalog item's id is in the game state's price table at the displayed price |
| `Shop.TableIdsInCatalog` | src/lib/game-state.ts:14-30 | Every id of the price table is sold in the catalog |
| `Shop.HandleBuyItem` | src/components/game/shop.tsx:73-87 | Refuses exactly when coins are below the price, reporting a strictly positive shortfall that makes up the price; otherwise hands on the item's own id |
| `Shop.BuyButtonDisabled` | src/components/game/shop.tsx:126 | The `disabled` condition of an item's buy button: the balance is below the item's price (a predicate; its link to the handler is `Shop.DisabledIffRefused`) |
| `Shop.DisabledIffRefused` | src/components/game/shop.tsx:126 | The buy button is disabled exactly when the handler would refuse |
| `Shop.ShopAgreesWithGameState` | src/components/game/shop.tsx:73-87 | For a catalog item, a refused purchase leaves the game state unchanged; a handed-on one passes the game state's check and deducts exactly the displayed price |

## Findings

| source | as written | input that shows it | evidently intended | confidence | as-written member | corrected member |
|---|---|---|---|---|---|---|
| src/lib/game-state.ts:89-105 | `SHOP_ITEMS[itemId]` also finds the members that the object literal inherits from `Object.prototype`. Such a member passes `!item`, has no `price`, `coins < undefined` is false, and `coins - undefined` stores NaN as the balance | `buyItem("toString")` with any player | Only the table's own entries are items; any other id is "Item not found" and changes nothing | medium; not executed | `GameState.InheritedKeyCorruptsCoins` (over `GameState.CoinsAfterBuyAsWritten`) | `GameState.AfterBuyCorrectsInheritedKeys` (over `GameState.AfterBuy`, which `GameState.GameStore.BuyItem` uses) |

## Left out

- HTTP routes, request validation and the error middleware (dist/index.js:101-129, 259-266) are framework plumbing. They also hold an inconsistency: a GET of an absent player answers 404, while the PATCH route does not catch the store's "Player not found" error; whether that rejected promise reaches the generic 500 handler at dist/index.js:261-266 depends on the framework version, which the source does not show.
- The development server, static file serving, the rest of the logging middleware and the time formatting of `log` (dist/index.js:131-249, 254) are I/O and tooling.
- The Drizzle table and zod insert-schema declarations (dist/index.js:67-98) are foreign-library code. Only their field names and types are used.
- `initializePlayer`'s network request and the `setInterval` scheduling (src/lib/game-state.ts:38-60) are I/O and timers. Only the interval body (`Tick`) and the storing of the returned player (`ReceivePlayer`) are modelled.
- React rendering, tabs, cards, toasts, toast texts and `console` output are UI and side effects. The shortfall that the insufficient-funds toast shows is modelled as a number.
- `async`/`await` on the store methods is dropped: nothing in them waits on I/O, so each call runs to completion as one step.
- Patch values of the wrong JSON type, `null` or `undefined`, and keys outside the record's schema, are not modelled: every patch field is either absent or a value of the field's type. The same holds for the untyped upgrade body handed to `addUpgrade`, where an absent level covers both a missing and a `null` level (`??`).
- JavaScript numbers are modelled as unbounded integers. Floating point, and precision loss beyond 2^53, are left out.
- `RequestLog.TruncateLogLine`: counts Unicode characters, whereas JavaScript's `length` and `slice` count UTF-16 code units. A line holding characters outside the Basic Multilingual Plane can be cut at a different point, or inside a surrogate pair, in the source.
- `Storage.MemStorage.CreatePlayer`: requires the insert record to carry a username, as its TypeScript type `InsertPlayer` does. A record without one, which would give a player with no username key, is not modelled.
- `GameState.GameStore.BuyItem`: uses the corrected own-key lookup (see Findings), so it does not reproduce the NaN balance that inherited keys produce as written.
