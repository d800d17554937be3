# Wish-list slice and active-platform service, in Dafny

This project models two pieces of the client-side state layer of an inventory
manager for a video game:

- **The wish-list slice** (`src/app/wishlists/reducer.ts`), module
  `WishListsReducer` in `wishlists_reducer.dfy`. The reducer `wishLists` is a
  total function from a state and an action to a new state. It handles
  `loadWishLists`, `clearWishLists` and every other action. Two selectors
  derive facts from the slice: whether wish lists are enabled, and the rolls
  grouped by item hash. The loader `loadWishListAndInfoFromIndexedDB` decides
  whether a stored record is taken and how a record is migrated; that decision
  is a pure function of the two reads of the `loaded` flag and of the record.
  The record the saver writes is modelled too, so that saving and restoring
  can be stated as a round trip.
- **The active-platform service** (`src/scripts/services/dimPlatformService.factory.js`),
  module `DimPlatformService` in `platform_service.dfy`. The closure variables
  `_platforms` and `_active` are the fields of the class `PlatformService`.
  The sync service's `platformType` key is a ghost field that `setActive`
  keeps up to date. The answer of the sync service is a parameter of
  `getActivePlatform`. The selection rule is the pure function `ChooseActive`;
  `setActive`, `reportBadPlatform` and the last step of `getPlatforms` are
  methods that change the fields.

`wrappers.dfy` holds the `Option` type that stands for JavaScript's
`undefined` and `null`.

Modelling choices:

- A `Date` is a `Timestamp` (milliseconds as an `int`). Item hashes are `int`s too, like the JavaScript numbers they stand for. The time `new Date()` reads is the parameter `now`.
- The reducer's `state` parameter is an `Option`. `None` is Redux's `undefined`, for which the reducer starts from `initialState`.
- Entries of `wishListRolls` are `Option<WishListRoll>`, because the selector drops falsy entries with `filter(Boolean)`.
- `src/app/wishlists/types.ts` is not part of this model. A roll carries its `itemHash` and its recommended perks; only `itemHash` is read here.
- The stored `wishListRolls` field is either an array or `NotAnArray`. `NotAnArray` covers a missing field and the old storage format.
- `_.groupBy`, `_.find` and `Array.filter` are specified by their results. For `groupBy`: a reference filter per group. For `find`: the first index that matches. For each `filter`: what remains, how many entries remain, and that the order is kept.
- Platforms are values, so `p !== platform` becomes value inequality.
- The sync service's `data && data.platformType` is truthy only when the type is present and not `0`.
- `_active` being `null` or `undefined` are both `None`.

## Model

| member | source | states |
|---|---|---|
| `WishListsReducer.WishLists` | src/app/wishlists/reducer.ts:46-72 | `loaded` becomes true exactly on a load and is never reset; `lastFetched` is empty exactly after a clear, or after another action on a state that had none |
| `WishListsReducer.InitialStateIsEmpty` | src/app/wishlists/reducer.ts:40-44 | the initial state is not loaded, has no rolls, no title or description, no fetch time, is not enabled and has no groups |
| `WishListsReducer.LoadInstallsPayload` | src/app/wishlists/reducer.ts:51-57 | after a load the slice is loaded, holds the payload's list exactly, its `lastFetched` is the payload's or else `now`, and it is enabled iff the payload has rolls |
| `WishListsReducer.ClearEmptiesList` | src/app/wishlists/reducer.ts:58-67 | after a clear the list is empty with no title or description, `lastFetched` is gone, `loaded` is unchanged, wish lists are disabled and there are no groups |
| `WishListsReducer.ClearIsIdempotent` | src/app/wishlists/reducer.ts:58-67 | clearing twice gives the same state as clearing once |
| `WishListsReducer.OtherActionIsIdentity` | src/app/wishlists/reducer.ts:69-70 | any other action returns the state unchanged, and applying it twice equals applying it once |
| `WishListsReducer.WishListsEnabled` | src/app/wishlists/reducer.ts:23-24 | any present roll makes wish lists enabled, and a disabled slice has no groups; with `LoadInstallsPayload`, `ClearEmptiesList` and `GroupsImplyEnabled` it is enabled iff the list has an entry, never right after a clear |
| `WishListsReducer.NonNullRolls` | src/app/wishlists/reducer.ts:20 | the filtered list holds exactly the present rolls, and its length is the input's length minus the number of missing entries |
| `WishListsReducer.NonNullRollsKeepsOrder` | src/app/wishlists/reducer.ts:20 | filtering distributes over concatenation, so the present rolls keep their order |
| `WishListsReducer.RollsWithHash` | src/app/wishlists/reducer.ts:19-21 | the reference group of a hash holds exactly the rolls with that hash |
| `WishListsReducer.GroupByHash` | src/app/wishlists/reducer.ts:19-21 | a key is present iff some roll has that hash; a present key's group equals the reference group; an absent key's reference group is empty |
| `WishListsReducer.WishListsByHash` | src/app/wishlists/reducer.ts:19-21 | every group is non-empty, and every roll in group `k` has `itemHash == k` and is a present entry of the slice |
| `WishListsReducer.GroupSizesSum` | src/app/wishlists/reducer.ts:20 | the group sizes add up to the number of rolls grouped |
| `WishListsReducer.WishListsByHashSizes` | src/app/wishlists/reducer.ts:19-21 | the selector's group sizes add up to the number of entries of the slice that are not missing |
| `WishListsReducer.GroupsImplyEnabled` | src/app/wishlists/reducer.ts:19-24 | if the selector finds any group, wish lists are enabled |
| `WishListsReducer.RestoreStepFor` | src/app/wishlists/reducer.ts:88-117 | the loader stops iff the slice was loaded before or after the read; otherwise it loads iff the stored rolls are an array, with exactly those rolls, the stored `lastFetched`, and no title or description |
| `WishListsReducer.SavedRecord` | src/app/wishlists/reducer.ts:74-86 | a record is written iff the slice is loaded |
| `WishListsReducer.SaveThenRestore` | src/app/wishlists/reducer.ts:74-113 | saving a loaded slice and restoring it into an unloaded one gives a loaded slice with the same rolls and the same groups, the saved fetch time (or `now`), and no title or description |
| `DimPlatformService.HasId` | src/scripts/services/dimPlatformService.factory.js:52 | true iff some platform has the given id |
| `DimPlatformService.FindByType` | src/scripts/services/dimPlatformService.factory.js:55-57 | the index of the first platform of the type, or none when no platform has it |
| `DimPlatformService.ChooseActive` | src/scripts/services/dimPlatformService.factory.js:46-64 | nothing iff the list is empty; the current platform when its id is listed (the current value, not the list's entry); else the first platform of the remembered type; else the first platform; so the result is always the current platform or a listed one |
| `DimPlatformService.ChooseActiveIsStable` | src/scripts/services/dimPlatformService.factory.js:46-64 | choosing again with the chosen platform as the current one returns the same platform, whatever the sync service answers the second time |
| `DimPlatformService.Without` | src/scripts/services/dimPlatformService.factory.js:89 | what remains is never longer, and holds exactly the platforms other than the reported one |
| `DimPlatformService.WithoutCounts` | src/scripts/services/dimPlatformService.factory.js:89 | every occurrence of the reported platform is removed and every other entry is kept, as multisets and as a length |
| `DimPlatformService.WithoutKeepsOrder` | src/scripts/services/dimPlatformService.factory.js:89 | filtering distributes over concatenation, so the remaining platforms keep their order |
| `DimPlatformService.WithoutDistinct` | src/scripts/services/dimPlatformService.factory.js:88-91 | in a list without repeats, removing a listed platform removes exactly one entry, so a list of two or more keeps at least one |
| `DimPlatformService.PlatformService.constructor` | src/scripts/services/dimPlatformService.factory.js:8-9 | a new service has no platforms and no active platform |
| `DimPlatformService.PlatformService.GetActive` | src/scripts/services/dimPlatformService.factory.js:66-68 | returns the active platform; `SetActive`'s contract says it returns the platform last set, and `ReportBadPlatform`'s says it returns the new first platform |
| `DimPlatformService.PlatformService.GetActivePlatform` | src/scripts/services/dimPlatformService.factory.js:46-64 | on the service's own state the choice is nothing iff there are no platforms, else the current platform or a listed one |
| `DimPlatformService.PlatformService.SetActive` | src/scripts/services/dimPlatformService.factory.js:66-82 | afterwards `getActive` returns the given platform; the stored type is that platform's type, or is removed for `null`; the platform list is unchanged |
| `DimPlatformService.PlatformService.ReportBadPlatform` | src/scripts/services/dimPlatformService.factory.js:85-96 | with at most one platform it throws the given error and changes nothing; otherwise the list loses every copy of the platform, and the new first platform becomes active and is stored; if nothing remains, `setActive(undefined)` fails with a TypeError |
| `DimPlatformService.PlatformService.GetPlatforms` | src/scripts/services/dimPlatformService.factory.js:23-44 | the list is replaced by the accounts of the first Bungie account, or by nothing when there is none; then the choice rule on the new list and the old active platform is set, and the list is returned |
| `DimPlatformService.RefetchKeepsActive` | src/scripts/services/dimPlatformService.factory.js:23-77 | fetching twice with the same account answers leaves the active platform where the first fetch put it, whatever the sync service answers the second time (in the source, the type the first `setActive` wrote), and the stored type is that platform's |

## Left out

- The IndexedDB reads and writes (`idb-keyval` `get`/`set`) and the `observeStore` subscription are left out. The stored record is an input of `RestoreStepFor`, and `SavedRecord` is the record the saver would write.
- `dispatch` itself and the wish-list refresh are left out. `RestoreStepFor` returns the load action to dispatch. Its `Proceed` result stands for "the thunk goes on and asks for a refresh".
- The `fetchWishList` and `getInventoryWishListRolls` modules, `storesSelector` and `inventoryWishListsSelector` are not part of this model.
- The memoisation done by `reselect` is not modelled, because it does not change the values the selectors return.
- Promise chaining and the interleaving of `async` steps are left out. The two reads of `loaded` around the store read are two parameters of `RestoreStepFor`.
- `getPlatforms` runs its requests first: `BungieAccountService`, `DestinyAccountService` and `SyncService.get`. Their answers are parameters of `GetPlatforms`.
- `$state.go('login')` and the `$rootScope.$broadcast` events are framework side effects and are left out.
- Writing to `SyncService` is a ghost field. The model does not tie that field to the `data` later read back, because the sync service's code is not part of this model.
- `src/app/accounts/actions.ts` only declares action creators. Its actions reach the wish-list reducer as `OtherAction`.
- Object identity is not modelled. Two equal platform records are treated as the same platform by `Without`.
- `WishListsEnabled` and `WishListsByHash` assume `wishListRolls` is always an array. The model has no `?.` case for a missing one. In the source a missing list reads as disabled, and as no groups, because `_.groupBy(undefined)` is `{}`. The reducer only ever installs payloads whose rolls are an array, and the loader checks `Array.isArray` before loading.
