/**
 * Application settings (app/config/settings.py) as a plain record, and the derived
 * PostgreSQL connection URL.
 */
module Config {
  import opened Wrappers
  import opened Text

  /** The declared fields of `Settings`, with the defaults of the unset ones. */
  datatype Settings = Settings(
    environment: string,
    debug: bool,
    baseUrl: string,
    port: int,
    twilioAccountSid: string,
    twilioAuthToken: string,
    twilioPhoneNumber: Option<string>,
    openaiApiKey: string,
    openaiModel: string,
    deepgramApiKey: string,
    elevenlabsApiKey: string,
    elevenlabsVoiceId: string,
    vocodeApiKey: Option<string>,
    redisUrl: Option<string>,
    redisPassword: Option<string>,
    postgresHost: Option<string>,
    postgresPort: int,
    postgresDb: Option<string>,
    postgresUser: Option<string>,
    postgresPassword: Option<string>,
    initialMessage: string,
    systemPrompt: string,
    logLevel: string)

  const DefaultPostgresPort := 5432
  const PostgresScheme := "postgresql+asyncpg://"

  const DefaultInitialMessage := "Ciao! Sono il tuo assistente vocale. Come posso aiutarti?"
  const DefaultSystemPrompt :=
    "Sei un assistente vocale italiano cortese e professionale.\n"
    + "Rispondi in modo conciso e naturale. \n"
    + "Se non sai rispondere a qualcosa, sii onesto e chiedi se puoi aiutare in altro modo.\n"
    + "Mantieni sempre un tono amichevole ma professionale."

  /**
   * `Settings(...)` given only the six fields that have no default: every other field
   * takes its declared default, so every optional field is `None` and there is no
   * PostgreSQL URL.
   */
  function WithDefaults(baseUrl: string, twilioAccountSid: string, twilioAuthToken: string,
                        openaiApiKey: string, deepgramApiKey: string, elevenlabsApiKey: string): (s: Settings)
    ensures s.environment == "development" && !s.debug && s.port == 8080 && s.openaiModel == "gpt-4"
    ensures s.postgresPort == DefaultPostgresPort && s.logLevel == "INFO"
    ensures s.elevenlabsVoiceId == "21m00Tcm4TlvDq8ikWAM"
    ensures s.initialMessage == DefaultInitialMessage && s.systemPrompt == DefaultSystemPrompt
    ensures s.baseUrl == baseUrl && s.twilioAccountSid == twilioAccountSid && s.twilioAuthToken == twilioAuthToken
    ensures s.openaiApiKey == openaiApiKey && s.deepgramApiKey == deepgramApiKey
    ensures s.elevenlabsApiKey == elevenlabsApiKey
    ensures s.twilioPhoneNumber == None && s.vocodeApiKey == None && s.redisUrl == None && s.redisPassword == None
    ensures s.postgresHost == None && s.postgresDb == None && s.postgresUser == None && s.postgresPassword == None
    ensures PostgresUrl(s) == None
  {
    Settings(
      environment := "development", debug := false, baseUrl := baseUrl, port := 8080,
      twilioAccountSid := twilioAccountSid, twilioAuthToken := twilioAuthToken, twilioPhoneNumber := None,
      openaiApiKey := openaiApiKey, openaiModel := "gpt-4",
      deepgramApiKey := deepgramApiKey,
      elevenlabsApiKey := elevenlabsApiKey, elevenlabsVoiceId := "21m00Tcm4TlvDq8ikWAM",
      vocodeApiKey := None, redisUrl := None, redisPassword := None,
      postgresHost := None, postgresPort := DefaultPostgresPort, postgresDb := None,
      postgresUser := None, postgresPassword := None,
      initialMessage := DefaultInitialMessage, systemPrompt := DefaultSystemPrompt, logLevel := "INFO")
  }

  /** Python truthiness of an optional string: present and non-empty. */
  predicate Truthy(o: Option<string>)
    ensures Truthy(o) <==> o != None && o != Some("")
  {
    o.Some? && o.value != ""
  }

  /** The four database fields `postgres_url` tests with `all([...])`. */
  predicate HasPostgresFields(s: Settings)
    ensures HasPostgresFields(s) <==>
      forall o :: o in [s.postgresHost, s.postgresDb, s.postgresUser, s.postgresPassword] ==> Truthy(o)
  {
    Truthy(s.postgresHost) && Truthy(s.postgresDb) && Truthy(s.postgresUser) && Truthy(s.postgresPassword)
  }

  /** The URL text for given components. */
  function PostgresUrlOf(user: string, password: string, host: string, port: int, db: string): string {
    PostgresScheme + user + ":" + password + "@" + host + ":" + IntToString(port) + "/" + db
  }

  /** `Settings.postgres_url`: a URL exactly when host, database, user and password are all non-empty. */
  function PostgresUrl(s: Settings): (r: Option<string>)
    ensures r.Some? <==> HasPostgresFields(s)
    ensures r.Some? ==> |r.value| > |PostgresScheme| && r.value[..|PostgresScheme|] == PostgresScheme
  {
    if HasPostgresFields(s) then
      Some(PostgresUrlOf(s.postgresUser.value, s.postgresPassword.value, s.postgresHost.value,
                         s.postgresPort, s.postgresDb.value))
    else None
  }

  /** Any one of the four database fields missing or empty leaves the URL out. */
  lemma PostgresUrlNeedsEveryField(s: Settings)
    ensures !Truthy(s.postgresHost) ==> PostgresUrl(s) == None
    ensures !Truthy(s.postgresDb) ==> PostgresUrl(s) == None
    ensures !Truthy(s.postgresUser) ==> PostgresUrl(s) == None
    ensures !Truthy(s.postgresPassword) ==> PostgresUrl(s) == None
  {
  }

  /** With the port left at its default, the URL ends in ":5432/" followed by the database name. */
  lemma PostgresUrlDefaultPort(s: Settings)
    requires HasPostgresFields(s) && s.postgresPort == DefaultPostgresPort
    ensures var url := PostgresUrl(s).value;
      var tail := ":5432/" + s.postgresDb.value;
      |url| >= |tail| && url[|url| - |tail|..] == tail
  {
  }

  /** The components read back from a URL: user, password, host, port and database. */
  datatype PostgresParts = PostgresParts(user: string, password: string, host: string, port: nat, db: string)

  /** Splits `s` at `sep` into exactly two fields, if it has exactly one `sep`. */
  function SplitTwo(sep: char, s: string): Option<(string, string)> {
    var f := Split(sep, s);
    if |f| == 2 then Some((f[0], f[1])) else None
  }

  /**
   * An independent reading of a URL of the shape `postgres_url` writes: the scheme, then
   * `user:password@host:port/db`, each separator appearing once.
   */
  function ParsePostgresUrl(url: string): Option<PostgresParts> {
    if |url| < |PostgresScheme| || url[..|PostgresScheme|] != PostgresScheme then None
    else
      match SplitTwo('@', url[|PostgresScheme|..])
      case None => None
      case Some((cred, loc)) =>
        match (SplitTwo(':', cred), SplitTwo('/', loc))
        case (Some((user, password)), Some((hostPort, db))) =>
          (match SplitTwo(':', hostPort)
           case Some((host, portText)) =>
             if IsDigits(portText) then Some(PostgresParts(user, password, host, DigitsValue(portText), db))
             else None
           case None => None)
        case _ => None
  }

  /** Splitting `a + [sep] + b` where neither side holds `sep` gives the two sides. */
  lemma SplitTwoOf(sep: char, a: string, b: string)
    requires sep !in a && sep !in b
    ensures SplitTwo(sep, a + [sep] + b) == Some((a, b))
  {
    SplitAtSeparator(sep, a, b);
    SplitWithoutSeparator(sep, b);
  }

  /**
   * The URL reads back to the settings' components, as long as no component contains a
   * separator it would have to be escaped from (`postgres_url` escapes nothing) and the
   * port is not negative.
   */
  lemma ParsePostgresUrlRoundTrip(s: Settings)
    requires HasPostgresFields(s) && s.postgresPort >= 0
    requires ':' !in s.postgresUser.value && '@' !in s.postgresUser.value
    requires ':' !in s.postgresPassword.value && '@' !in s.postgresPassword.value
    requires ':' !in s.postgresHost.value && '@' !in s.postgresHost.value && '/' !in s.postgresHost.value
    requires '@' !in s.postgresDb.value && '/' !in s.postgresDb.value
    ensures ParsePostgresUrl(PostgresUrl(s).value)
         == Some(PostgresParts(s.postgresUser.value, s.postgresPassword.value, s.postgresHost.value,
                               s.postgresPort, s.postgresDb.value))
  {
    var user, password, host, db := s.postgresUser.value, s.postgresPassword.value, s.postgresHost.value, s.postgresDb.value;
    var portText := NatToString(s.postgresPort);
    assert IntToString(s.postgresPort) == portText;
    assert forall i :: 0 <= i < |portText| ==> IsAsciiDigit(portText[i]);
    assert ':' !in portText && '@' !in portText && '/' !in portText;
    var cred := user + [':'] + password;
    var hostPort := host + [':'] + portText;
    var loc := hostPort + ['/'] + db;
    var url := PostgresUrl(s).value;
    assert url == PostgresScheme + (cred + ['@'] + loc);
    assert url[|PostgresScheme|..] == cred + ['@'] + loc;
    SplitTwoOf('@', cred, loc);
    SplitTwoOf(':', user, password);
    SplitTwoOf('/', hostPort, db);
    SplitTwoOf(':', host, portText);
    DigitsValueOfNatToString(s.postgresPort);
  }
}
