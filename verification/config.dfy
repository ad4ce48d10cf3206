/**
 * `core/config.py`: the settings the rest of the model reads, the derived
 * URL and environment properties, and the three field validators.
 */
module Config {
  import opened Wrappers
  import opened Text

  /** The detector's weights for the citation, claim and consistency components. */
  datatype Weights = Weights(citation: real, llm: real, consistency: real)

  /** The settings fields with logic attached to them. */
  datatype Settings = Settings(
    openAiApiKey: string,
    databaseUrl: string,
    redisUrl: string,
    celeryBrokerUrl: string,
    celeryResultBackendUrl: string,
    pineconeApiKey: string,
    sectionParserLimit: nat,
    weights: Weights,
    environment: string)

  const DefaultWeights: Weights := Weights(0.4, 0.4, 0.2)
  const DefaultSectionParserLimit: nat := 5000
  const DefaultEnvironment: string := "development"

  const SyncScheme: string := "postgresql://"
  const AsyncScheme: string := "postgresql+asyncpg://"

  /** `database_url_async_path` */
  function DatabaseUrlAsync(url: string): (r: string)
    ensures url == "" ==> r == ""
    ensures StartsWith(url, SyncScheme) ==> r == AsyncScheme + url[|SyncScheme|..]
    ensures !StartsWith(url, SyncScheme) ==> r == url
  {
    if url == "" then ""
    else if StartsWith(url, SyncScheme) then AsyncScheme + url[|SyncScheme|..]
    else url
  }

  /** Rewriting an already rewritten URL changes nothing. */
  lemma DatabaseUrlAsyncIdempotent(url: string)
    ensures DatabaseUrlAsync(DatabaseUrlAsync(url)) == DatabaseUrlAsync(url)
  {
    var r := DatabaseUrlAsync(url);
    if StartsWith(url, SyncScheme) {
      assert r[10] == '+' && SyncScheme[10] == ':';
      assert !StartsWith(r, SyncScheme);
    }
  }

  /** `self.CELERY_BROKER_URL or self.REDIS_URL` */
  function CeleryBrokerUrl(s: Settings): (r: string)
    ensures s.celeryBrokerUrl != "" ==> r == s.celeryBrokerUrl
    ensures s.celeryBrokerUrl == "" ==> r == s.redisUrl
  {
    if s.celeryBrokerUrl != "" then s.celeryBrokerUrl else s.redisUrl
  }

  /** `self.CELERY_RESULT_BACKEND_URL or self.REDIS_URL` */
  function CeleryResultBackendUrl(s: Settings): (r: string)
    ensures s.celeryResultBackendUrl != "" ==> r == s.celeryResultBackendUrl
    ensures s.celeryResultBackendUrl == "" ==> r == s.redisUrl
  {
    if s.celeryResultBackendUrl != "" then s.celeryResultBackendUrl else s.redisUrl
  }

  predicate IsProduction(s: Settings) {
    Lower(s.environment) == "production"
  }

  predicate IsDevelopment(s: Settings) {
    Lower(s.environment) == "development"
  }

  /** The comparison ignores ASCII case, and no environment is both. */
  lemma EnvironmentPredicates(s: Settings)
    ensures !(IsProduction(s) && IsDevelopment(s))
    ensures s.environment == "PRODUCTION" ==> IsProduction(s)
    ensures s.environment == DefaultEnvironment ==> IsDevelopment(s)
  {
    if s.environment == "PRODUCTION" {
      assert Lower(s.environment) == "production";
    }
    if s.environment == DefaultEnvironment {
      assert Lower(s.environment) == "development";
    }
  }

  /** Two environments that differ only in ASCII letter case select the same predicates. */
  lemma EnvironmentCaseInsensitive(s: Settings, t: Settings)
    requires Lower(s.environment) == Lower(t.environment)
    ensures IsProduction(s) <==> IsProduction(t)
    ensures IsDevelopment(s) <==> IsDevelopment(t)
  {
  }

  /** `validate_openai_key`: the value unchanged, or the ValueError message. */
  function ValidateOpenAiKey(v: string): (r: Result<string, string>)
    ensures r.Ok? <==> v != "" && StartsWith(v, "sk-") && |v| >= 20
    ensures r.Ok? ==> r.value == v
  {
    if v == "" then Err("OpenAI API key is required")
    else if !StartsWith(v, "sk-") then Err("OpenAI API key must start with 'sk-'")
    else if |v| < 20 then Err("OpenAI API key must be at least 20 characters long")
    else Ok(v)
  }

  /** `validate_database_url`: empty is accepted (database features off). */
  function ValidateDatabaseUrl(v: string): (r: Result<string, string>)
    ensures r.Ok? <==> v == "" || StartsWith(v, SyncScheme) || StartsWith(v, AsyncScheme)
    ensures r.Ok? ==> r.value == v
  {
    if v == "" then Ok(v)
    else if !(StartsWith(v, SyncScheme) || StartsWith(v, AsyncScheme)) then
      Err("DATABASE_URL must start with 'postgresql://' or 'postgresql+asyncpg://'")
    else Ok(v)
  }

  /** `validate_pinecone_key`: empty is accepted (vector store features off). */
  function ValidatePineconeKey(v: string): (r: Result<string, string>)
    ensures r.Ok? <==> v == "" || |v| >= 20
    ensures r.Ok? ==> r.value == v
  {
    if v == "" then Ok(v)
    else if |v| < 20 then Err("PINECONE_API_KEY appears to be invalid (too short)")
    else Ok(v)
  }

  /** A URL the database validator accepts comes out of the rewrite with the async scheme, or empty. */
  lemma AcceptedDatabaseUrlBecomesAsync(v: string)
    requires ValidateDatabaseUrl(v).Ok?
    ensures DatabaseUrlAsync(v) == "" || StartsWith(DatabaseUrlAsync(v), AsyncScheme)
  {
    if StartsWith(v, SyncScheme) {
      var r := DatabaseUrlAsync(v);
      assert r[..|AsyncScheme|] == AsyncScheme;
    }
  }
}
