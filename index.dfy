/**
 * The consumer entry points of src/index.js: `initLocalization`, which hands
 * its configuration to the store, and the lookup `t` the hook returns.
 */
module Index {
  import opened Api
  import opened Store

  /**
   * `t(key)`: the cached string, or the key itself when the key is missing or
   * its string is empty (the `||` fallback treats "" as missing).
   */
  function Translate(translations: TranslationMap, key: string): (r: string)
    ensures key in translations && translations[key] != "" ==> r == translations[key]
    ensures key !in translations ==> r == key
    ensures key in translations && translations[key] == "" ==> r == key
    // it only ever answers with the key or that key's string, and never with "" for a non-empty key
    ensures r == key || (key in translations && r == translations[key])
    ensures key != "" ==> r != ""
  {
    if key in translations && translations[key] != "" then translations[key] else key
  }

  /** A failed sync keeps the strings, so every lookup answers as before it. */
  lemma LookupSurvivesFailedSync(s: State, remote: Remote, key: string)
    requires AfterSync(s, remote).state.status == Error
    ensures Translate(AfterSync(s, remote).state.translations, key) == Translate(s.translations, key)
  {
  }

  method InitLocalization(store: LocalizationStore, config: Config)
    modifies store
    ensures store.Get() == AfterInit(old(store.Get()), config)
  {
    store.Init(config);
  }
}
