/**
 * Properties of the store over whole runs: any sequence of actions, each run
 * to completion, including app restarts that rebuild the store from what
 * persistence saved. Also single-call facts about the less obvious
 * behaviours of the actions.
 */
module StoreProperties {
  import opened Wrappers
  import opened Api
  import opened Store

  /** One action of the application, with what the server answers during it. */
  datatype Action =
    | InitAction(config: Config)
    | SyncAction(remote: Remote)
    | SetLanguageAction(lang: string, remote: Remote)
      /** The process ends and starts again from the defaults, optionally configured by
          `initLocalization` before storage answers; persistence saved the snapshot of the
          state reached so far, and loading it succeeds or fails. */
    | RestartAction(startupConfig: Option<Config>, loaded: bool, remote: Remote)

  function Step(s: State, a: Action): State {
    match a
    case InitAction(c) => AfterInit(s, c)
    case SyncAction(remote) => AfterSync(s, remote).state
    case SetLanguageAction(lang, remote) => AfterSetLanguage(s, lang, remote).state
    case RestartAction(config, loaded, remote) =>
      var booted := if config.Some? then AfterInit(InitialState(), config.value) else InitialState();
      AfterRehydrate(booted, if loaded then Restored(Partialize(s)) else Failed, remote).state
  }

  function Run(s: State, actions: seq<Action>): State
    decreases |actions|
  {
    if actions == [] then s else Run(Step(s, actions[0]), actions[1..])
  }

  // ---------------------------------------------------------------------------
  // `loading` is never seen between actions

  lemma StepSettles(s: State, a: Action)
    requires s.status != Loading
    ensures Step(s, a).status != Loading
  {
  }

  /** Every action runs to completion, so a run that starts settled never stops in `loading`. */
  lemma {:induction false} RunSettles(s: State, actions: seq<Action>)
    requires s.status != Loading
    ensures Run(s, actions).status != Loading
    decreases |actions|
  {
    if actions != [] {
      StepSettles(s, actions[0]);
      RunSettles(Step(s, actions[0]), actions[1..]);
    }
  }

  // ---------------------------------------------------------------------------
  // the cache belongs to the current language

  /** Every answer the server gives for a language is one of that language's published versions of its strings. */
  predicate Serves(remote: Remote, catalogue: map<string, set<TranslationMap>>) {
    forall lang :: lang in remote.translations ==>
      lang in catalogue && remote.translations[lang] in catalogue[lang]
  }

  predicate ActionServes(a: Action, catalogue: map<string, set<TranslationMap>>) {
    match a
    case InitAction(_) => true
    case SyncAction(remote) => Serves(remote, catalogue)
    case SetLanguageAction(_, remote) => Serves(remote, catalogue)
    case RestartAction(_, _, remote) => Serves(remote, catalogue)
  }

  /** The cached strings are empty or one of the published versions of the strings for `currentLang`. */
  predicate BelongsToLanguage(s: State, catalogue: map<string, set<TranslationMap>>) {
    && (s.currentLang == "" ==> s.translations == map[])
    && (s.translations == map[] ||
        (s.currentLang in catalogue && s.translations in catalogue[s.currentLang]))
  }

  lemma StepBelongsToLanguage(s: State, a: Action, catalogue: map<string, set<TranslationMap>>)
    requires BelongsToLanguage(s, catalogue) && ActionServes(a, catalogue)
    ensures BelongsToLanguage(Step(s, a), catalogue)
  {
  }

  /**
   * Whatever the server publishes for each language over time, and whatever
   * sequence of inits, syncs, language switches and restarts runs, the cache
   * never holds strings published for a language other than the current one.
   */
  lemma {:induction false} RunBelongsToLanguage(s: State, actions: seq<Action>, catalogue: map<string, set<TranslationMap>>)
    requires BelongsToLanguage(s, catalogue)
    requires forall a :: a in actions ==> ActionServes(a, catalogue)
    ensures BelongsToLanguage(Run(s, actions), catalogue)
    decreases |actions|
  {
    if actions != [] {
      StepBelongsToLanguage(s, actions[0], catalogue);
      assert forall a :: a in actions[1..] ==> a in actions;
      RunBelongsToLanguage(Step(s, actions[0]), actions[1..], catalogue);
    }
  }

  lemma InitialBelongsToLanguage(catalogue: map<string, set<TranslationMap>>)
    ensures BelongsToLanguage(InitialState(), catalogue)
  {
  }

  // ---------------------------------------------------------------------------
  // non-empty strings were always fetched

  /** The version is never negative, and non-empty strings come with a positive version. */
  predicate BackedByVersion(s: State) {
    && s.translationVersion >= 0
    && (s.translations != map[] ==> s.translationVersion > 0)
  }

  lemma StepBackedByVersion(s: State, a: Action)
    requires BackedByVersion(s)
    ensures BackedByVersion(Step(s, a))
  {
  }

  lemma {:induction false} RunBackedByVersion(s: State, actions: seq<Action>)
    requires BackedByVersion(s)
    ensures BackedByVersion(Run(s, actions))
    decreases |actions|
  {
    if actions != [] {
      StepBackedByVersion(s, actions[0]);
      RunBackedByVersion(Step(s, actions[0]), actions[1..]);
    }
  }

  // ---------------------------------------------------------------------------
  // isRTL follows the language, unless the language is switched to ""

  /** A language is set and `isRTL` says whether it is written right to left. */
  predicate RtlFollowsLanguage(s: State) {
    s.currentLang != "" && s.isRTL == IsRtl(s.currentLang)
  }

  /** Only a switch to "" can clear the language, after which init may set one without recomputing `isRTL`. */
  predicate KeepsLanguage(a: Action) {
    !(a.SetLanguageAction? && a.lang == "")
  }

  lemma StepRtlFollowsLanguage(s: State, a: Action)
    requires RtlFollowsLanguage(s) && KeepsLanguage(a)
    ensures RtlFollowsLanguage(Step(s, a))
  {
  }

  lemma {:induction false} RunRtlFollowsLanguage(s: State, actions: seq<Action>)
    requires RtlFollowsLanguage(s)
    requires forall a :: a in actions ==> KeepsLanguage(a)
    ensures RtlFollowsLanguage(Run(s, actions))
    decreases |actions|
  {
    if actions != [] {
      StepRtlFollowsLanguage(s, actions[0]);
      assert forall a :: a in actions[1..] ==> a in actions;
      RunRtlFollowsLanguage(Step(s, actions[0]), actions[1..]);
    }
  }

  /** The exception is real: switching to "" and then calling init with default "ar" leaves isRTL false. */
  lemma InitCanLeaveRtlStale()
    ensures var remote := Remote(None, map[], None);
            var cleared := Run(InitialState(), [SetLanguageAction("", remote)]);
            var config := Config(Some("https://host"), Some("key"), Some("ar"), None);
            var r := AfterInit(cleared, config);
            r.currentLang == "ar" && !r.isRTL
  {
  }

  // ---------------------------------------------------------------------------
  // single-call facts

  /** A sync does not refetch an empty cache: the version gate alone decides. */
  lemma EmptyCacheIsNotRefetched(s: State, remote: Remote)
    requires s.currentLang != "" && s.translations == map[]
    requires remote.versions.Some? && remote.versions.value.translationVersion <= s.translationVersion
    ensures AfterSync(s, remote).requests == [SyncVersions]
    ensures AfterSync(s, remote).state == s.(status := Ready)
  {
  }

  /** A second sync against unchanged server answers fetches nothing and keeps the state. */
  lemma SyncTwiceIsStable(s: State, remote: Remote)
    requires AfterSync(s, remote).state.status == Ready
    ensures var first := AfterSync(s, remote).state;
            && AfterSync(first, remote).state == first
            && AfterSync(first, remote).requests == [SyncVersions]
  {
  }

  /** A language switch resets the version, so the translation version can go down across actions; it only rises within a sync. */
  lemma TranslationVersionCanDecrease()
    ensures var s := InitialState().(status := Ready, translationVersion := 5);
            AfterSetLanguage(s, "fr", Remote(None, map[], None)).state.translationVersion < s.translationVersion
  {
  }

  /** The currency version is overwritten with the server's value even when it is older. */
  lemma CurrencyVersionCanDecrease()
    ensures var s := InitialState().(currencyVersion := 7);
            var remote := Remote(Some(Versions(1, 2)), map["en" := map["hello" := "Hello"]], None);
            AfterSync(s, remote).state.currencyVersion < s.currencyVersion
  {
  }

  /** On first launch `currentLang` is already "en", so init's default language is never used. */
  lemma DefaultLanguageIgnoredOnFirstLaunch(c: Config)
    ensures AfterInit(InitialState(), c).currentLang == "en"
  {
  }

  /** The right-to-left list holds exactly these five codes. */
  lemma RtlLanguagesAre(lang: string)
    ensures IsRtl(lang) <==> lang == "ar" || lang == "ur" || lang == "he" || lang == "fa" || lang == "yi"
  {
  }

  /** Restoring the snapshot of a state into a fresh store gives back the six persisted fields. */
  lemma SnapshotRoundTrip(s: State, start: State)
    ensures var r := Restore(start, Partialize(s));
            && r.translations == s.translations && r.currencies == s.currencies
            && r.currentLang == s.currentLang && r.isRTL == s.isRTL
            && r.translationVersion == s.translationVersion && r.currencyVersion == s.currencyVersion
  {
  }

  /** Projecting a restored store gives back exactly the snapshot that was merged in. */
  lemma RestoreThenPartialize(s: State, snap: Snapshot)
    ensures Partialize(Restore(s, snap)) == snap
  {
  }

  /** The snapshot does not depend on the session fields. */
  lemma SnapshotExcludesSession(s: State, status: Status, flag: bool, client: Option<ApiConfig>)
    ensures Partialize(s.(status := status, shouldFetchCurrencies := flag, apiClient := client)) == Partialize(s)
  {
  }
}
