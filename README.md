# Koalageddon Unlocker: hook lifecycle, Steam hook selection, Uplay R2 product lists

A Dafny model of the decision and bookkeeping logic at the core of the
Unlocker DLL. The model has four modules:

- **`Types`** (`types.dfy`) holds the values shared by all platforms:
  - addresses and module handles (0 is NULL);
  - an `Option` type;
  - the insert-on-read behaviour of `std::map::operator[]` (`EnsureKey`, `EnsureKeys`).
- **`Platform`** (`platform.dfy`) models `BasePlatform`.
  - A platform owns the list of PolyHook hook objects it installed into a third-party module.
  - It installs hooks at a known address with a Detour, or by export name through the fallback chain Detour → IAT → EAT.
  - Each attempt creates the function's slot in the process-wide trampoline map. A successful attempt fills that slot.
  - At shutdown, it destroys every hook (which unhooks it) when the module is still loaded. Otherwise it releases every hook untouched.
  - What the platform does to the host process is recorded as a ghost trace of events (`Attempt`, `Unhook`, `Release`).
- **`Steam`** (`steam_client.dfy`) models `SteamClient`.
  - The process-name guard.
  - Fetching the pattern file and caching it, then reading the cache back.
  - The fatal error when no patterns are available.
  - Choosing which steamclient functions to hook from the configuration flags, in a fixed order.
  - For each chosen function: scanning the module image for its pattern, and detouring the function only when the scan found an address.
  - `BasePlatform::init` is modelled here as `Steam.SteamClient.Init`, because the Steam platform is the one whose `platformInit` is part of this model.
- **`UplayR2`** (`uplay_r2.dfy`) models the Uplay R2 hooks.
  - `UPC_Init` builds the product vector: the game's app, then every configured DLC, then every configured item.
  - `UPC_ProductListGet` copies that vector into a fresh product list and forwards the call to the original with a callback container.
  - `ProductListGetCallback` runs the "missing products" filter on the legitimate list. It then frees that list through the original free, calls the game's callback, and deletes the container.
  - Also modelled: `UPC_ProductListFree` and `productTypeToString`.

The primitives below this logic are oracles, passed in as function-typed fields of `Platform.Host`, `Steam.SteamHost` and `UplayR2.Originals`:
- `GetModuleHandle` and `GetProcAddress`;
- PolyHook's `hook()` and the trampoline it writes back;
- the HTTP fetch, the file write and the JSON parse;
- the pattern scanner;
- the original UPC functions.

Three facts about the code that the model keeps as they are:
- `shutdown` walks the hook list front to back (BasePlatform.cpp:53 and 61).
- `shutdown` never resets `initialized` (BasePlatform.cpp:42-69), so a second shutdown does nothing only because the list is already empty.
- No count of failed installs is kept; a failed install only leaves the list as it was.

## Model

| member | source | states |
|---|---|---|
| Types.EnsureKey | Unlocker/src/platforms/BasePlatform.cpp:80 | `trampolineMap[funcName]` adds the key if it is missing, with the default value, and leaves every existing entry as it was |
| Types.EnsureKeysSpec | Unlocker/src/platforms/steam_client/SteamClient.cpp:64 | reading `patterns[name]` for a sequence of names adds exactly those names, keeps every existing value and gives every new name the empty pattern |
| Platform.BasePlatform.FromHandle | Unlocker/src/platforms/BasePlatform.cpp:17-25 | a platform built from a handle keeps that handle, is not initialised and has no hooks |
| Platform.BasePlatform.FromName | Unlocker/src/platforms/BasePlatform.cpp:27-39 | a platform built from a DLL name holds the handle GetModuleHandle returns, NULL when the module is not loaded |
| Steam.SteamClient.Init | Unlocker/src/platforms/BasePlatform.cpp:4-15 | with `initialized` set or a NULL handle, nothing changes and platformInit does not run; otherwise platformInit runs and then `initialized` is true; platformInit runs at most once per object |
| Platform.BasePlatform.Shutdown | Unlocker/src/platforms/BasePlatform.cpp:42-69 | on an uninitialised platform nothing changes; otherwise every hook, in list order, is unhooked if the module is loaded or released if not, the list ends empty, and `initialized` stays as it was |
| Platform.ShutdownTwice | Unlocker/src/platforms/BasePlatform.cpp:42-66 | a second shutdown adds no event: the two calls together do exactly what the first does |
| Platform.TeardownInListOrder | Unlocker/src/platforms/BasePlatform.cpp:51-65 | the i-th shutdown event concerns the i-th hook of the list, as an unhook when the module is loaded and as a release when it is not |
| Platform.UnloadedTeardownNeverUnhooks | Unlocker/src/platforms/BasePlatform.cpp:58-65 | with the module unloaded, every shutdown event is a release and no hook is unhooked |
| Platform.BasePlatform.TryHook | Unlocker/src/platforms/BasePlatform.cpp:80-97 | one attempt creates the trampoline slot, leaves the new hook at the end of the list exactly when its hook() succeeds, and keeps the earlier hooks |
| Platform.BasePlatform.InstallDetourHookAt | Unlocker/src/platforms/BasePlatform.cpp:71-98 | exactly one Detour attempt at the given address, with no other strategy; the list grows by that hook on success and is unchanged on failure |
| Platform.BasePlatform.InstallDetourHook | Unlocker/src/platforms/BasePlatform.cpp:101-136 | when GetProcAddress fails, nothing is attempted and the hook state is unchanged; otherwise the attempts are those of the chain Detour → IAT → EAT at the resolved address |
| Platform.BasePlatform.InstallIatHook | Unlocker/src/platforms/BasePlatform.cpp:139-157 | the attempts are IAT, then EAT if IAT fails |
| Platform.BasePlatform.InstallEatHook | Unlocker/src/platforms/BasePlatform.cpp:159-176 | exactly one EAT attempt, with no fallback |
| Platform.ChainAddsAtMostOne | Unlocker/src/platforms/BasePlatform.cpp:114-175 | walking a fallback chain adds at most one hook to the list |
| Platform.AttemptsFollowChain | Unlocker/src/platforms/BasePlatform.cpp:114-175 | strategies are tried strictly in chain order, and every strategy before the last one tried failed |
| Platform.ChainInstallsFirstSuccess | Unlocker/src/platforms/BasePlatform.cpp:114-175 | the hook kept is the one of the first strategy that succeeds, and no later strategy is tried |
| Platform.ChainInstallsNothingIffAllFail | Unlocker/src/platforms/BasePlatform.cpp:114-175 | no hook is kept exactly when every strategy fails, and then every strategy was tried |
| Platform.ExportAfterDetourAndImportFail | Unlocker/src/platforms/BasePlatform.cpp:121-170 | when Detour and IAT fail and EAT succeeds, all three are tried in order and the EAT hook is kept |
| Steam.FetchAndCachePatterns | Unlocker/src/platforms/steam_client/SteamClient.cpp:8-33 | the result is true exactly when the status is 200 and the cache write succeeds; the cache holds the fetched text exactly then, and keeps its old text otherwise |
| Steam.SteamClient.ReadCachedPatterns | Unlocker/src/platforms/steam_client/SteamClient.cpp:36-58 | the patterns are cleared first; an empty cache leaves them empty; otherwise they are the parsed map, or stay empty when parsing fails |
| Steam.SelectionFollowsFlags | Unlocker/src/platforms/steam_client/SteamClient.cpp:93-101 | the two shared-library functions come first and are hooked exactly when unlock_shared_library is set; the three DLC functions are hooked exactly when unlock_dlc is set and replicate is not; nothing else is hooked |
| Steam.SteamClient.InstallHook | Unlocker/src/platforms/steam_client/SteamClient.cpp:60-84 | the function's pattern slot exists afterwards; a Detour is attempted at the scanned address only when the scan found one; on a NULL scan the hooks list is unchanged |
| Steam.SteamClient.InstallEach | Unlocker/src/platforms/steam_client/SteamClient.cpp:93-101 | a group of HOOK calls makes the attempts of installHook for each name, in order, and inserts each name's pattern slot |
| Steam.SteamClient.InstallHooks | Unlocker/src/platforms/steam_client/SteamClient.cpp:86-102 | the attempts are those of installHook for the selected functions in the selected order, scanned with the patterns read before the call |
| Steam.ScanHooksAtFoundAddresses | Unlocker/src/platforms/steam_client/SteamClient.cpp:76-83 | every hook kept by installHook is a Detour of one of the requested functions, at the non-NULL address the scanner found for it, to that function's replacement, and its hook() succeeded |
| Steam.ScanAttemptsEnsureKey | Unlocker/src/platforms/steam_client/SteamClient.cpp:64 | the empty patterns that `patterns[funcName]` inserts do not change any later scan |
| Steam.SteamClient.PlatformInit | Unlocker/src/platforms/steam_client/SteamClient.cpp:104-125 | outside the Steam process nothing changes; inside it, the fetch runs and then the cache is read (so a failed fetch still uses the old cache); with patterns the selected hooks are installed, and without them a fatal error is raised and no hook is attempted |
| UplayR2.ProductTypeToString | Unlocker/src/platforms/uplay_r2/uplay_r2_hooks.cpp:15-28 | App, DLC and Item map to their names, each name belongs to exactly that enumerator, and every other value maps to "Unexpected Type" |
| UplayR2.Tagged | Unlocker/src/platforms/uplay_r2/uplay_r2_hooks.cpp:35-43 | every id becomes one product of the given type, in order |
| UplayR2.InitProductsLayout | Unlocker/src/platforms/uplay_r2/uplay_r2_hooks.cpp:34-43 | UPC_Init appends 1 + \|dlcs\| + \|items\| products: the app first, then each DLC in config order, then each item in config order, with no de-duplication |
| UplayR2.InitProductsAppids | Unlocker/src/platforms/uplay_r2/uplay_r2_hooks.cpp:34-43 | the ids of the appended products are the app id followed by the configured DLC and item ids, unchanged |
| UplayR2.Globals.Init | Unlocker/src/platforms/uplay_r2/uplay_r2_hooks.cpp:30-48 | the products are the old ones followed by the UPC_Init products, the original UPC_Init is called once, and its result is returned |
| UplayR2.Globals.ProductListGet | Unlocker/src/platforms/uplay_r2/uplay_r2_hooks.cpp:147-176 | a fresh list whose length is the number of products and whose i-th element is the i-th product; the products are unchanged; the original is called with a fresh container holding the caller's context, callback and data, and with ProductListGetCallback as the callback |
| UplayR2.CollectMissingProducts | Unlocker/src/platforms/uplay_r2/uplay_r2_hooks.cpp:76-108 | the loop collects exactly the filtered products of the legitimate list, in list order |
| UplayR2.MissingProductsMembers | Unlocker/src/platforms/uplay_r2/uplay_r2_hooks.cpp:105-107 | a product is reported exactly when it is in the list, its id is in neither config list, and it is not the app |
| UplayR2.MissingProductsAppend | Unlocker/src/platforms/uplay_r2/uplay_r2_hooks.cpp:78-108 | the filter keeps list order: the report for a concatenation is the concatenation of the reports |
| UplayR2.NothingMissing | Unlocker/src/platforms/uplay_r2/uplay_r2_hooks.cpp:105-110 | a list whose every product passes the test yields an empty report, so no warning is logged |
| UplayR2.InitProductsNeverMissing | Unlocker/src/platforms/uplay_r2/uplay_r2_hooks.cpp:105-107 | none of the products UPC_Init adds with the same config would be reported missing |
| UplayR2.Globals.ProductListGetCallback | Unlocker/src/platforms/uplay_r2/uplay_r2_hooks.cpp:67-142 | the missing products are reported; then the legitimate list is freed through the original free with the container's context, the game's callback is called with arg1 and its own data, and the container is deleted, in that order |
| UplayR2.Globals.ProductListFree | Unlocker/src/platforms/uplay_r2/uplay_r2_hooks.cpp:50-65 | a null list deletes nothing; otherwise each of the `length` elements is deleted in index order, then the array, then the list; the result is always 0 |
| UplayR2.DeletedProducts | Unlocker/src/platforms/uplay_r2/uplay_r2_hooks.cpp:55-58 | the element deletions are one per index below `length`, in index order |

## Left out

- Logging and the `std::chrono` timing of the pattern scan, with its floating-point milliseconds, are not modelled. They do not affect state.
- `PatternMatcher::scanInternal` is an uninterpreted oracle from (module base, image size, pattern) to an address, where NULL means not found. Its matching is not part of this model.
- `getModuleInfo` appears only through its result, as fixed `moduleBase` and `moduleSize` fields. Its function-local `static` cache is therefore implicit.
- `getModuleVersion` is only logged, so it is not modelled.
- `GetModuleBaseName` is not modelled: the module name is a constructor parameter.
- `getPlatformName`, `getModuleName` and `getPlatformHooks` are virtual accessors that return constants or the list. `getModuleName()` is the `platformModule` field.
- PolyHook's `hook()` is an oracle on the hook's construction arguments, and so is the trampoline value it writes back. `unHook()` on destruction is an `Unhook` event, and `release()` is a `Release` event.
- Platform.BasePlatform.FromHandle, Platform.BasePlatform.FromName: `initialized` starts false, `hooks` empty and `handle` NULL by the member defaults of BasePlatform.h, which the model assumes; that header is not part of this model, and the `init` guard depends on these defaults.
- UplayR2.ProductType: the numeric values of the UPC::ProductType enumerators are not modelled. `Other(raw)` stands only for values that are none of App, DLC and Item; `raw` is never one of their values.
- Platform.BasePlatform.Shutdown: the memory that `release()` leaks is not modelled.
- `fetch`, `writeFileContents`, `readFileContents` and `json::parse` are modelled by their outcomes only. The HTTP error code and message are only logged.
- Steam.SteamClient.ReadCachedPatterns: a failed parse is taken to leave `patterns` empty. Whatever `get_to` may have filled before throwing is not modelled.
- Steam.FetchAndCachePatterns: a failed write is taken to leave the cache file's text unchanged. A partly written file is not modelled.
- `BasePlatform::init` calls a virtual `platformInit`. The only override in this model is the Steam one, so `init` is modelled once, as `Steam.SteamClient.Init`.
- The Uplay R2 platform class (`UplayR2.cpp`) and its `platformInit` are not part of this model.
- The replacement functions of the Steam hooks (`steam_client_hooks`) are not part of this model. They appear only as the `replacement` address for each name.
- `stringsAreEqual` and `getCurrentProcessName` are oracles. Case-insensitive comparison is not modelled.
- `UpdateChecker.cpp` is network I/O on a detached thread, so it is not part of this model.
- `hook_util.cpp` only instantiates the disassembler, so it is not part of this model.
- `new`, `delete` and ownership are not modelled as memory. Deletions are `Effect` events, and a freed list stays readable in the model.
- The `Product` fields `mystery1`, `mystery2`, `always_0` and `always_3` are not modelled, because the hooks only log them.
- ProductListGetCallback's local type switch (with "Unknown" for other values) is not modelled, because it only feeds the log.
- The original UPC functions reached through `GET_ORIGINAL_FUNC` are oracles in `UplayR2.Originals`. The original `UPC_ProductListGet` fills the container's `legitProductList` later, and that is not modelled.
- UplayR2.Globals.ProductListGetCallback: it requires the legitimate list to be present and well formed, because the source dereferences both without a check.
- UplayR2.Globals.ProductListGet: it requires fewer than 2^32 products. Beyond that, the `unsigned int` loop index wraps and the loop never ends, and the `uint32_t` length would be truncated.
- The hooks run on the game's threads; concurrency is not modelled.
