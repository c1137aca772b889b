/**
 * The localization store of src/store.js: one state record, the three actions
 * `init`, `fetchAndSync` and `setLanguage`, the persisted projection and the
 * rehydration callback.
 *
 * Each action is given twice: as a function from the old state (and what the
 * server answers) to the new state, whose contract states what the action
 * promises, and as a method of the class `LocalizationStore`, which updates
 * the fields step by step as the source does and is proved to end in the
 * state that function describes.
 */
module Store {
  import opened Wrappers
  import opened Api

  /** The lifecycle phase kept in `status`. */
  datatype Status = Idle | Loading | Ready | Error

  /** The whole store: the six persisted fields, the session fields, and the client configuration. */
  datatype State = State(
    status: Status,
    translations: TranslationMap,
    currencies: CurrencyMap,
    currentLang: string,
    isRTL: bool,
    translationVersion: int,
    currencyVersion: int,
    shouldFetchCurrencies: bool,
    apiClient: Option<ApiConfig>)

  /** The languages written right to left. */
  const RTL_LANGUAGES: seq<string> := ["ar", "ur", "he", "fa", "yi"]

  predicate IsRtl(lang: string) {
    lang in RTL_LANGUAGES
  }

  /** The state the store is created with, before configuration or rehydration. */
  function InitialState(): State {
    State(Idle, map[], map[], "en", false, 0, 0, false, None)
  }

  /** The four cached fields a sync may replace. */
  predicate SameCache(a: State, b: State) {
    && a.translations == b.translations
    && a.currencies == b.currencies
    && a.translationVersion == b.translationVersion
    && a.currencyVersion == b.currencyVersion
  }

  // ---------------------------------------------------------------------------
  // init

  /** The argument of `init`; `None` is a key the caller left out. */
  datatype Config = Config(
    apiUrl: Option<string>,
    apiKey: Option<string>,
    defaultLanguage: Option<string>,
    fetchCurrencies: Option<bool>)

  /** JavaScript truthiness of an optional string: present and not the empty string. */
  predicate Truthy(v: Option<string>) {
    v.Some? && v.value != ""
  }

  predicate ValidConfig(c: Config) {
    Truthy(c.apiUrl) && Truthy(c.apiKey)
  }

  /** `defaultLanguage = 'en'`: the default applies only to a missing key. */
  function DefaultLanguage(c: Config): string {
    c.defaultLanguage.GetOr("en")
  }

  /** `fetchCurrencies: enableCurrencies = false`. */
  function FetchCurrenciesFlag(c: Config): bool {
    c.fetchCurrencies.GetOr(false)
  }

  /** The state after `init(c)`. */
  function AfterInit(s: State, c: Config): (r: State)
    ensures !ValidConfig(c) ==> r == s.(status := Error)
    ensures ValidConfig(c) ==>
      && r.apiClient == Some(ApiConfig(c.apiUrl.value, c.apiKey.value))
      && r.shouldFetchCurrencies == FetchCurrenciesFlag(c)
      && (s.currentLang != "" ==> r.currentLang == s.currentLang)
      && (s.currentLang == "" ==> r.currentLang == DefaultLanguage(c))
      && r.status == s.status
      && r.isRTL == s.isRTL
      && SameCache(r, s)
  {
    if !Truthy(c.apiUrl) || !Truthy(c.apiKey) then
      s.(status := Error)
    else
      s.(apiClient := Some(ApiConfig(c.apiUrl.value, c.apiKey.value)),
         shouldFetchCurrencies := FetchCurrenciesFlag(c),
         currentLang := if s.currentLang != "" then s.currentLang else DefaultLanguage(c))
  }

  // ---------------------------------------------------------------------------
  // fetchAndSync

  /** The state a sync ends in, and the requests it issued, in order. */
  datatype SyncResult = SyncResult(state: State, requests: seq<Request>)

  /** The requests of a sync that passes the version gate and fetches everything it may. */
  function FullPlan(s: State): seq<Request> {
    [SyncVersions, GetTranslations(s.currentLang)] + (if s.shouldFetchCurrencies then [GetCurrencies] else [])
  }

  /** The version gate opens: a language is set, the versions arrived, and the server's translations are newer. */
  predicate GateOpen(s: State, remote: Remote) {
    && s.currentLang != ""
    && remote.versions.Some?
    && remote.versions.value.translationVersion > s.translationVersion
  }

  /** Every content request after the gate succeeds. */
  predicate FetchSucceeds(s: State, remote: Remote) {
    && s.currentLang in remote.translations
    && (s.shouldFetchCurrencies ==> remote.currencies.Some?)
  }

  /** `t` is what the single commit of a successful fetch leaves behind. */
  predicate Committed(s: State, remote: Remote, t: State)
    requires remote.versions.Some? && FetchSucceeds(s, remote)
  {
    && t.translations == remote.translations[s.currentLang]
    && t.currencies == (if s.shouldFetchCurrencies then remote.currencies.value else s.currencies)
    && t.translationVersion == remote.versions.value.translationVersion
    && t.currencyVersion == remote.versions.value.currencyVersion
    && t.translationVersion > s.translationVersion
  }

  /** The outcome of `fetchAndSync()` run to completion against the answers in `remote`. */
  function AfterSync(s: State, remote: Remote): (r: SyncResult)
    // it always settles, and it touches neither the language nor the configuration
    ensures r.state.status == Ready || r.state.status == Error
    ensures r.state.currentLang == s.currentLang && r.state.isRTL == s.isRTL
    ensures r.state.shouldFetchCurrencies == s.shouldFetchCurrencies && r.state.apiClient == s.apiClient
    // no language: error, and no request at all
    ensures s.currentLang == "" ==> r.state == s.(status := Error) && r.requests == []
    // the requests follow the plan, the versions first, and stop at the first failure
    ensures r.requests <= FullPlan(s)
    ensures r.requests == [] <==> s.currentLang == ""
    ensures GetTranslations(s.currentLang) in r.requests <==> GateOpen(s, remote)
    ensures GetCurrencies in r.requests <==>
      GateOpen(s, remote) && s.currentLang in remote.translations && s.shouldFetchCurrencies
    // ready exactly when every request it made succeeded
    ensures r.state.status == Ready <==>
      s.currentLang != "" && remote.versions.Some? && (GateOpen(s, remote) ==> FetchSucceeds(s, remote))
    // without a completed fetch only the status changes
    ensures !(GateOpen(s, remote) && FetchSucceeds(s, remote)) ==> r.state == s.(status := r.state.status)
    ensures GateOpen(s, remote) && FetchSucceeds(s, remote) ==> Committed(s, remote, r.state)
    ensures r.state.translationVersion >= s.translationVersion
  {
    if s.currentLang == "" then
      SyncResult(s.(status := Error), [])
    else
      var lang := s.currentLang;
      match remote.versions
      case None => SyncResult(s.(status := Error), [SyncVersions])
      case Some(server) =>
        if !(server.translationVersion > s.translationVersion) then
          SyncResult(s.(status := Ready), [SyncVersions])
        else if lang !in remote.translations then
          SyncResult(s.(status := Error), [SyncVersions, GetTranslations(lang)])
        else if s.shouldFetchCurrencies && remote.currencies.None? then
          SyncResult(s.(status := Error), FullPlan(s))
        else
          var newCurrencies := if s.shouldFetchCurrencies then remote.currencies.value else s.currencies;
          SyncResult(
            s.(translations := remote.translations[lang],
               currencies := newCurrencies,
               translationVersion := server.translationVersion,
               currencyVersion := server.currencyVersion,
               status := Ready),
            FullPlan(s))
  }

  // ---------------------------------------------------------------------------
  // setLanguage

  /** `setLanguage` returns at once when the language is already current or a sync is in flight. */
  predicate SwitchIgnored(s: State, lang: string) {
    s.currentLang == lang || s.status == Loading
  }

  /** The single update `setLanguage` makes before it starts the sync. */
  function Switched(s: State, lang: string): State {
    s.(currentLang := lang, translations := map[], translationVersion := 0, isRTL := IsRtl(lang))
  }

  /** The outcome of `setLanguage(lang)`, including the sync it starts. */
  function AfterSetLanguage(s: State, lang: string, remote: Remote): (r: SyncResult)
    ensures SwitchIgnored(s, lang) ==> r.state == s && r.requests == []
    ensures !SwitchIgnored(s, lang) ==>
      && r.state.currentLang == lang
      && r.state.isRTL == IsRtl(lang)
      && (r.state.status == Ready || r.state.status == Error)
      && r.state.shouldFetchCurrencies == s.shouldFetchCurrencies
      && r.state.apiClient == s.apiClient
    // currencies are left alone unless the sync completes a fetch
    ensures !SwitchIgnored(s, lang) && !(GateOpen(Switched(s, lang), remote) && FetchSucceeds(Switched(s, lang), remote)) ==>
      r.state.currencies == s.currencies && r.state.currencyVersion == s.currencyVersion
    // the cache never holds the previous language's strings: it is empty or what was fetched for `lang`
    ensures !SwitchIgnored(s, lang) ==>
      r.state.translations == map[] ||
      (lang in remote.translations && r.state.translations == remote.translations[lang])
    // the reset version makes the sync fetch exactly when the server's version is positive
    ensures !SwitchIgnored(s, lang) ==>
      (GetTranslations(lang) in r.requests <==>
        lang != "" && remote.versions.Some? && remote.versions.value.translationVersion > 0)
    ensures !SwitchIgnored(s, lang) && r.state.translations != map[] ==> r.state.translationVersion > 0
    // a sync that completes its fetch ends ready with exactly the strings and versions it fetched
    ensures !SwitchIgnored(s, lang) && GateOpen(Switched(s, lang), remote) && FetchSucceeds(Switched(s, lang), remote) ==>
      r.state.status == Ready && Committed(Switched(s, lang), remote, r.state)
    ensures !SwitchIgnored(s, lang) && r.state.status == Error ==>
      r.state.translations == map[] && r.state.translationVersion == 0
  {
    if SwitchIgnored(s, lang) then SyncResult(s, [])
    else AfterSync(Switched(s, lang), remote)
  }

  // ---------------------------------------------------------------------------
  // persistence

  /** What `partialize` hands to storage: the six cached fields. */
  datatype Snapshot = Snapshot(
    translations: TranslationMap,
    currencies: CurrencyMap,
    currentLang: string,
    isRTL: bool,
    translationVersion: int,
    currencyVersion: int)

  function Partialize(s: State): (snap: Snapshot)
    // the snapshot holds everything that is persisted: merging it back changes nothing
    ensures Restore(s, snap) == s
  {
    Snapshot(s.translations, s.currencies, s.currentLang, s.isRTL, s.translationVersion, s.currencyVersion)
  }

  /** Merging a stored snapshot into the in-memory state: it overwrites the six persisted fields and no other. */
  function Restore(s: State, snap: Snapshot): (r: State)
    ensures r.translations == snap.translations && r.currencies == snap.currencies
    ensures r.currentLang == snap.currentLang && r.isRTL == snap.isRTL
    ensures r.translationVersion == snap.translationVersion && r.currencyVersion == snap.currencyVersion
    ensures r.status == s.status && r.shouldFetchCurrencies == s.shouldFetchCurrencies && r.apiClient == s.apiClient
  {
    s.(translations := snap.translations,
       currencies := snap.currencies,
       currentLang := snap.currentLang,
       isRTL := snap.isRTL,
       translationVersion := snap.translationVersion,
       currencyVersion := snap.currencyVersion)
  }

  /** How loading the persisted state ended, as reported to the rehydration callback. */
  datatype Rehydration =
    | Restored(snapshot: Snapshot)  // a stored value was merged in
    | NothingStored                 // storage held nothing: callback(state, undefined)
    | Failed                        // reading or parsing failed: callback(undefined, error)

  /** The state after startup restore and the callback it triggers. */
  function AfterRehydrate(s: State, outcome: Rehydration, remote: Remote): (r: SyncResult)
    // a failed restore is only logged: nothing changes and nothing is requested
    ensures outcome.Failed? ==> r.state == s && r.requests == []
    // otherwise one sync runs, and it reads the restored language and version
    ensures outcome.Restored? ==>
      && r.state.currentLang == outcome.snapshot.currentLang
      && r.state.isRTL == outcome.snapshot.isRTL
      && (r.state.status == Ready || r.state.status == Error)
      && (r.requests == [] <==> outcome.snapshot.currentLang == "")
      && (GetTranslations(outcome.snapshot.currentLang) in r.requests <==>
            outcome.snapshot.currentLang != "" && remote.versions.Some? &&
            remote.versions.value.translationVersion > outcome.snapshot.translationVersion)
      && (r.state.status == Error ==> Partialize(r.state) == outcome.snapshot)
    ensures outcome.NothingStored? ==>
      && (r.state.status == Ready || r.state.status == Error)
      && (r.requests == [] <==> s.currentLang == "")
      && (GetTranslations(s.currentLang) in r.requests <==> GateOpen(s, remote))
    ensures r.state.shouldFetchCurrencies == s.shouldFetchCurrencies && r.state.apiClient == s.apiClient
  {
    match outcome
    case Failed => SyncResult(s, [])
    case NothingStored => AfterSync(s, remote)
    case Restored(snap) => AfterSync(Restore(s, snap), remote)
  }

  // ---------------------------------------------------------------------------
  // the store object

  /** The store instance: its fields are updated in place by the actions. */
  class LocalizationStore {
    var status: Status
    var translations: TranslationMap
    var currencies: CurrencyMap
    var currentLang: string
    var isRTL: bool
    var translationVersion: int
    var currencyVersion: int
    var shouldFetchCurrencies: bool
    var apiClient: Option<ApiConfig>

    /** The store's current state, as `get()` returns it. */
    function Get(): State
      reads this
    {
      State(status, translations, currencies, currentLang, isRTL,
            translationVersion, currencyVersion, shouldFetchCurrencies, apiClient)
    }

    constructor ()
      ensures Get() == InitialState()
    {
      status := Idle;
      translations := map[];
      currencies := map[];
      currentLang := "en";
      isRTL := false;
      translationVersion := 0;
      currencyVersion := 0;
      shouldFetchCurrencies := false;
      apiClient := None;
    }

    method Init(config: Config)
      modifies this
      ensures Get() == AfterInit(old(Get()), config)
    {
      if !Truthy(config.apiUrl) || !Truthy(config.apiKey) {
        status := Error;
        return;
      }
      apiClient := Some(ApiConfig(config.apiUrl.value, config.apiKey.value));
      shouldFetchCurrencies := FetchCurrenciesFlag(config);
      currentLang := if currentLang != "" then currentLang else DefaultLanguage(config);
    }

    /** Returns the requests it issued; each awaited request is answered from `remote`. */
    method FetchAndSync(remote: Remote) returns (requests: seq<Request>)
      modifies this
      ensures Get() == AfterSync(old(Get()), remote).state
      ensures requests == AfterSync(old(Get()), remote).requests
    {
      var lang, localVersion, withCurrencies := currentLang, translationVersion, shouldFetchCurrencies;
      if lang == "" {
        status := Error;
        return [];
      }
      status := Loading;

      requests := [SyncVersions];
      if remote.versions.None? {
        status := Error;
        return;
      }
      var server := remote.versions.value;

      if server.translationVersion > localVersion {
        requests := requests + [GetTranslations(lang)];
        if lang !in remote.translations {
          status := Error;
          return;
        }
        var newTranslations := remote.translations[lang];

        var newCurrencies := currencies;
        if withCurrencies {
          requests := requests + [GetCurrencies];
          if remote.currencies.None? {
            status := Error;
            return;
          }
          newCurrencies := remote.currencies.value;
        }

        // the only write of the cache
        translations, currencies := newTranslations, newCurrencies;
        translationVersion, currencyVersion := server.translationVersion, server.currencyVersion;
        status := Ready;
      } else {
        status := Ready;
      }
    }

    method SetLanguage(lang: string, remote: Remote) returns (requests: seq<Request>)
      modifies this
      ensures Get() == AfterSetLanguage(old(Get()), lang, remote).state
      ensures requests == AfterSetLanguage(old(Get()), lang, remote).requests
    {
      if currentLang == lang || status == Loading {
        return [];
      }
      currentLang, translations, translationVersion, isRTL := lang, map[], 0, IsRtl(lang);
      requests := FetchAndSync(remote);
    }

    /** Startup: the persisted state is merged in, then the callback starts the first sync unless loading failed. */
    method Rehydrate(outcome: Rehydration, remote: Remote) returns (requests: seq<Request>)
      modifies this
      ensures Get() == AfterRehydrate(old(Get()), outcome, remote).state
      ensures requests == AfterRehydrate(old(Get()), outcome, remote).requests
    {
      match outcome {
        case Failed =>
          requests := [];
        case NothingStored =>
          requests := FetchAndSync(remote);
        case Restored(snap) =>
          translations, currencies := snap.translations, snap.currencies;
          currentLang, isRTL := snap.currentLang, snap.isRTL;
          translationVersion, currencyVersion := snap.translationVersion, snap.currencyVersion;
          requests := FetchAndSync(remote);
      }
    }
  }
}
