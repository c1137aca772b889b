/**
 * The vocabulary of the HTTP layer as the store sees it: what configuring the
 * shared client records, the three GET endpoints a sync may call, and what the
 * server answers during one sync. The transport itself (axios, headers, JSON
 * parsing) is not modelled; each awaited call becomes an answer the caller of
 * a sync supplies.
 */
module Api {
  import opened Wrappers

  /** Translation strings by dotted key. */
  type TranslationMap = map<string, string>

  /** One currency's metadata, field name to text; the store never looks inside it. */
  type CurrencyInfo = map<string, string>

  /** Currency metadata by currency code. */
  type CurrencyMap = map<string, CurrencyInfo>

  /** What `configureApiClient` leaves in the shared client: the base URL and the X-API-KEY header. */
  datatype ApiConfig = ApiConfig(baseUrl: string, apiKey: string)

  /** One remote request a sync issues. */
  datatype Request =
    | SyncVersions                   // GET /sync
    | GetTranslations(lang: string)  // GET /translations?lang=<lang>
    | GetCurrencies                  // GET /currencies

  /** The body of GET /sync: `translation_version` and `currency_version`. */
  datatype Versions = Versions(translationVersion: int, currencyVersion: int)

  /**
   * What the server answers to each request of one sync. `None` for the
   * versions or the currencies, or a language missing from `translations`,
   * means that awaited request throws.
   */
  datatype Remote = Remote(
    versions: Option<Versions>,
    translations: map<string, TranslationMap>,
    currencies: Option<CurrencyMap>)
}
