# Localization sync store, modelled in Dafny

This project models the client-side localization store of
`react-native-global-translator`: a single store that caches translated
strings and currency data for the current language, keeps them in sync with
a versioned server, survives app restarts through persisted state, and
switches language on request. It also models the lookup `t` that the
`useLocalization` hook hands to the application.

The store (`src/store.js`) is modelled in module `Store` twice over:

- as value-level transition functions `AfterInit`, `AfterSync`,
  `AfterSetLanguage` and `AfterRehydrate`, each from the old `State` (and,
  for the syncing actions, the server's answers) to the new state and the
  list of requests issued; their contracts carry what each action promises;
- as the class `LocalizationStore`, whose fields are the store's fields and
  whose methods `Init`, `FetchAndSync`, `SetLanguage` and `Rehydrate` update
  them step by step as the JavaScript does (`status := Loading`, then the
  awaited requests, then one commit of the cache), each proved to end in the
  state the corresponding function describes.

Each awaited request of `fetchAndSync` is answered from a `Remote` value the
caller supplies: `versions` (`None` = GET /sync throws), `translations`
keyed by language (a missing language = GET /translations throws) and
`currencies` (`None` = GET /currencies throws). What `configureApiClient`
stores in the shared HTTP client is the field `apiClient`. Persistence is
the projection `Partialize`, the merge `Restore`, and a `Rehydration`
outcome given to the rehydration step: a stored snapshot was restored,
nothing was stored, or loading failed.

Module `StoreProperties` runs arbitrary sequences of actions, including
restarts that rebuild the store from its saved snapshot (optionally
configured by `init` before storage answers), and proves by induction that
no run stops in `loading`, that the cached strings are always empty or
strings the server published for the current language, that non-empty
strings always come with a positive version, and that `isRTL` follows the
language unless the language is switched to the empty string. Module `Index` models
`src/index.js`.

The model follows the code; these lemmas exhibit its less obvious behaviours:

- the version gate is only "server translation version > local version";
  an empty cache is not refetched (`EmptyCacheIsNotRefetched`);
- a failed rehydration is only logged and starts no sync (`AfterRehydrate`);
- versions are not monotone across actions: `setLanguage` resets the
  translation version to 0 (`TranslationVersionCanDecrease`) and a commit
  overwrites the currency version with whatever the server reports
  (`CurrencyVersionCanDecrease`);
- the store starts with `currentLang = "en"`, so `init`'s
  `defaultLanguage` is used only when the language is the empty string
  (`DefaultLanguageIgnoredOnFirstLaunch`), and `init` then does not
  recompute `isRTL` (`InitCanLeaveRtlStale`).

## Model

| member | source | states |
|---|---|---|
| `Store.AfterInit` | src/store.js:23-38 | missing or empty apiUrl/apiKey sets only status to error and leaves the client as it was; otherwise configures the client with both, sets shouldFetchCurrencies from the flag (default false), keeps a non-empty currentLang or takes defaultLanguage (default "en"), and changes nothing else |
| `Store.AfterSync` | src/store.js:40-83 | always ends ready or error with language and configuration untouched; no language: error and no request; requests follow versions, translations for currentLang, then currencies only if enabled, stopping at the first failure; content is requested iff the server translation version is greater; ready iff every request made succeeded; without a completed fetch only status changes; a completed fetch replaces translations, replaces currencies only when enabled, takes both server versions and strictly raises the translation version |
| `Store.AfterSetLanguage` | src/store.js:85-101 | no-op when the language is current or a sync is loading; otherwise sets the language and isRTL from the right-to-left list, and the cache afterwards is empty or exactly the strings fetched for the new language; content is fetched iff the server translation version is positive; currencies are kept unless a fetch completes; on error the strings are empty and the version 0 |
| `Store.Partialize` | src/store.js:107-114 | the persisted snapshot holds every persisted field of the state: merging a state's own snapshot back into it changes nothing |
| `Store.Restore` | src/store.js:103-106 | the persistence middleware's merge of a stored snapshot: it sets the six persisted fields to the snapshot's values and keeps status, shouldFetchCurrencies and the client |
| `Store.AfterRehydrate` | src/store.js:117-125 | a failed load changes nothing and issues no request; otherwise one sync runs, reading the restored language and version, fetching iff the server version exceeds the restored one, and on error leaving the restored snapshot intact |
| `Store.LocalizationStore.constructor` | src/store.js:12-20 | the store starts idle, empty, in "en", left to right, versions 0, currencies off, client unconfigured |
| `Store.LocalizationStore.Init` | src/store.js:23-38 | updates the fields to exactly the state AfterInit gives |
| `Store.LocalizationStore.FetchAndSync` | src/store.js:40-83 | sets loading, issues the requests in order, returns early on each failure with status error, and commits the cache once; ends in AfterSync's state with AfterSync's requests |
| `Store.LocalizationStore.SetLanguage` | src/store.js:85-101 | guarded reset of language, strings, version and isRTL, then the sync; ends in AfterSetLanguage's state and requests |
| `Store.LocalizationStore.Rehydrate` | src/store.js:107-125 | restores the snapshot fields, then syncs unless loading failed; ends in AfterRehydrate's state and requests |
| `StoreProperties.StepSettles` | src/store.js:50-82 | one action started outside loading ends outside loading |
| `StoreProperties.RunSettles` | src/store.js:50-82 | in this run-to-completion model, any run of actions from a settled state ends outside loading, so the loading guard of setLanguage never fires between actions; in the source it does fire for a switch arriving while a sync is awaiting, since neither setLanguage nor the rehydration callback awaits fetchAndSync |
| `StoreProperties.StepBelongsToLanguage` | src/store.js:68-74 | one action keeps the cached strings empty or one of the versions the server published for currentLang |
| `StoreProperties.RunBelongsToLanguage` | src/store.js:57-101 | over any run of inits, syncs, switches and restarts, whatever the server publishes per language over time, the cache never holds strings published for another language |
| `StoreProperties.InitialBelongsToLanguage` | src/store.js:14-16 | the initial state satisfies that invariant |
| `StoreProperties.StepBackedByVersion` | src/store.js:57-74 | one action keeps the version non-negative and non-empty strings paired with a positive version |
| `StoreProperties.RunBackedByVersion` | src/store.js:57-101 | over any run, non-empty cached strings always come with a positive translation version |
| `StoreProperties.StepRtlFollowsLanguage` | src/store.js:92-97 | one action other than a switch to "" keeps a non-empty currentLang and isRTL equal to its membership in the right-to-left list |
| `StoreProperties.RunRtlFollowsLanguage` | src/store.js:92-97 | over any run without a switch to "", including inits with a right-to-left default and restarts, isRTL follows the language |
| `StoreProperties.InitCanLeaveRtlStale` | src/store.js:33-37 | switching to "" and then init with default "ar" yields language "ar" with isRTL false |
| `StoreProperties.EmptyCacheIsNotRefetched` | src/store.js:57 | with an empty cache and a server version not above the local one, a sync requests only the versions and only sets status to ready |
| `StoreProperties.SyncTwiceIsStable` | src/store.js:57-77 | after a sync that ends ready, a second sync against the same answers requests only the versions and changes nothing |
| `StoreProperties.TranslationVersionCanDecrease` | src/store.js:97 | a language switch whose sync fails lowers the translation version from 5 to 0 |
| `StoreProperties.CurrencyVersionCanDecrease` | src/store.js:72 | a commit lowers the currency version when the server reports an older one |
| `StoreProperties.DefaultLanguageIgnoredOnFirstLaunch` | src/store.js:36 | init on the initial state always leaves the language "en", whatever the default language |
| `StoreProperties.RtlLanguagesAre` | src/store.js:7 | a language counts as right to left exactly when it is one of ar, ur, he, fa, yi |
| `StoreProperties.RestoreThenPartialize` | src/store.js:107-114 | projecting a store after a merge gives back exactly the merged snapshot |
| `StoreProperties.SnapshotRoundTrip` | src/store.js:107-114 | restoring the snapshot of a state into any store gives back its six persisted fields |
| `StoreProperties.SnapshotExcludesSession` | src/store.js:107-114 | the snapshot does not depend on status, shouldFetchCurrencies or the client |
| `Index.Translate` | src/index.js:28-30 | returns the cached string when present and non-empty, otherwise the key verbatim; only ever the key or that key's string, and never "" for a non-empty key |
| `Index.LookupSurvivesFailedSync` | src/index.js:29 | a sync that ends in error leaves every lookup's answer unchanged |
| `Index.InitLocalization` | src/index.js:11-13 | forwards the configuration to the store's init unchanged |

## Left out

- HTTP transport (src/api.js): axios, headers, URL building and JSON parsing are not modelled; `configureApiClient` is the `apiClient` field and each request is answered from a `Remote` value.
- Zustand's `create`/`persist` machinery, `createJSONStorage`, AsyncStorage and the storage key: persistence is the projection `Partialize` and the merge `Restore`; saving after every update is assumed by the restart action of `StoreProperties`.
- The React hook `useLocalization` (src/index.js:19-21, 32): UI subscription; only its lookup `t` is modelled, on the cached strings passed in.
- `console.error` logging: output with no effect on the state.
- Concurrency: each action runs to completion; re-entrant `fetchAndSync` calls during an await and interleaved `setLanguage` calls are not modelled, so `loading` is visible only inside `FetchAndSync`.
- JavaScript values outside the declared types are not modelled: versions are integers, strings and maps only. In the source a /sync body without `translation_version` does not throw (the comparison is false, so the sync ends ready without fetching), and a null translations body would be committed as is; neither case is expressible here.
- `init` called with no argument at all (a destructuring TypeError in JavaScript) is not modelled: `Config` always exists.
- Translate: keys naming inherited object properties (such as "toString") are treated as absent; in JavaScript the lookup on a plain object would return the inherited member.
