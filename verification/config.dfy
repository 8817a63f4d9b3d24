/**
  The configuration of config/config.go: the defaults `Get` applies to the
  environment and the required fields `Validate` checks.

  The environment is a function from variable names to values (`os.Getenv`
  answers "" for an unset variable); `.env` loading is not modelled.
  `strconv.ParseFloat` is abstract; `strconv.ParseInt` is described by its
  three outcomes.
 */
module Config {
  import opened Wrap

  const MaxInt64: int := 0x7fff_ffff_ffff_ffff
  const MinInt64: int := -0x8000_0000_0000_0000

  const DefaultSwapPriceThreshold: real := 25.0
  const DefaultAlertMentionUsername: string := "xdefrag"

  datatype Config = Config(
    postgresDsn: string,
    telegramToken: string,
    address: string,
    seed: string,
    reportToChatId: int,
    reportToMessageThreadId: int,
    swapPriceThreshold: real,
    alertMentionUsername: string)

  datatype ConfigError = PostgresDsnRequired | StellarAddressRequired | StellarSeedRequired

  /** `Validate`: the first missing required field, in the order DSN, address, seed. */
  function Validate(c: Config): (r: Option<ConfigError>)
    ensures r.None? <==> c.postgresDsn != "" && c.address != "" && c.seed != ""
    ensures c.postgresDsn == "" ==> r == Some(PostgresDsnRequired)
    ensures c.postgresDsn != "" && c.address == "" ==> r == Some(StellarAddressRequired)
    ensures c.postgresDsn != "" && c.address != "" && c.seed == "" ==> r == Some(StellarSeedRequired)
  {
    if c.postgresDsn == "" then Some(PostgresDsnRequired)
    else if c.address == "" then Some(StellarAddressRequired)
    else if c.seed == "" then Some(StellarSeedRequired)
    else None
  }

  /** `Validate` looks at the three required fields only. */
  lemma ValidateIgnoresOptionalFields(c: Config, token: string, chat: int, thread: int, threshold: real, user: string)
    ensures Validate(c) == Validate(c.(telegramToken := token, reportToChatId := chat,
      reportToMessageThreadId := thread, swapPriceThreshold := threshold, alertMentionUsername := user))
  {
  }

  /** What `strconv.ParseInt(s, 10, 64)` reports: a value, a syntax error, or a value out of the int64 range. */
  datatype IntParse = IntValue(value: int) | IntSyntaxError | IntOutOfRange(negative: bool)

  /** The value `ParseInt` returns with its error ignored: 0 on a syntax error, the nearest bound when out of range. */
  function ParsedInt64(p: IntParse): (v: int)
    requires p.IntValue? ==> MinInt64 <= p.value <= MaxInt64
    ensures MinInt64 <= v <= MaxInt64
    ensures p.IntSyntaxError? ==> v == 0
    ensures p.IntValue? ==> v == p.value
  {
    match p
    case IntValue(n) => n
    case IntSyntaxError => 0
    case IntOutOfRange(negative) => if negative then MinInt64 else MaxInt64
  }

  /** A well-behaved `ParseInt`: every value it reports fits in 64 bits. */
  ghost predicate Int64Parser(parseInt: string -> IntParse)
  {
    forall s :: parseInt(s).IntValue? ==> MinInt64 <= parseInt(s).value <= MaxInt64
  }

  /** The price threshold: the parsed value, or 25.0 when it is unparseable or 0. */
  function SwapPriceThreshold(parsed: Option<real>): (t: real)
    ensures t != 0.0
    ensures parsed.Some? && parsed.value != 0.0 ==> t == parsed.value
    ensures parsed.None? || parsed == Some(0.0) ==> t == DefaultSwapPriceThreshold
  {
    var v := parsed.GetOr(0.0);
    if v == 0.0 then DefaultSwapPriceThreshold else v
  }

  /** The username to mention: the variable, or "xdefrag" when it is empty or unset. */
  function AlertMentionUsername(value: string): (u: string)
    ensures u != ""
    ensures value != "" ==> u == value
    ensures value == "" ==> u == DefaultAlertMentionUsername
  {
    if value == "" then DefaultAlertMentionUsername else value
  }

  /** `Get`: the configuration read from the environment, with the defaults applied. */
  function Get(env: string -> string, parseInt: string -> IntParse, parseFloat: string -> Option<real>): (c: Config)
    requires Int64Parser(parseInt)
    ensures c.postgresDsn == env("POSTGRES_DSN") && c.telegramToken == env("TELEGRAM_TOKEN")
    ensures c.address == env("STELLAR_ADDRESS") && c.seed == env("STELLAR_SEED")
    ensures parseInt(env("REPORT_TO_CHAT_ID")).IntSyntaxError? ==> c.reportToChatId == 0
    ensures parseInt(env("REPORT_TO_MESSAGE_THREAD_ID")).IntSyntaxError? ==> c.reportToMessageThreadId == 0
    ensures parseInt(env("REPORT_TO_CHAT_ID")).IntValue? ==> c.reportToChatId == parseInt(env("REPORT_TO_CHAT_ID")).value
    ensures parseInt(env("REPORT_TO_MESSAGE_THREAD_ID")).IntValue? ==>
      c.reportToMessageThreadId == parseInt(env("REPORT_TO_MESSAGE_THREAD_ID")).value
    ensures MinInt64 <= c.reportToChatId <= MaxInt64 && MinInt64 <= c.reportToMessageThreadId <= MaxInt64
    ensures c.swapPriceThreshold != 0.0 && c.alertMentionUsername != ""
    ensures parseFloat(env("SWAP_PRICE_THRESHOLD")).None? || parseFloat(env("SWAP_PRICE_THRESHOLD")) == Some(0.0) ==>
      c.swapPriceThreshold == DefaultSwapPriceThreshold
    ensures parseFloat(env("SWAP_PRICE_THRESHOLD")).Some? && parseFloat(env("SWAP_PRICE_THRESHOLD")) != Some(0.0) ==>
      c.swapPriceThreshold == parseFloat(env("SWAP_PRICE_THRESHOLD")).value
    ensures env("ALERT_MENTION_USERNAME") == "" ==> c.alertMentionUsername == DefaultAlertMentionUsername
    ensures env("ALERT_MENTION_USERNAME") != "" ==> c.alertMentionUsername == env("ALERT_MENTION_USERNAME")
  {
    Config(
      postgresDsn := env("POSTGRES_DSN"),
      telegramToken := env("TELEGRAM_TOKEN"),
      address := env("STELLAR_ADDRESS"),
      seed := env("STELLAR_SEED"),
      reportToChatId := ParsedInt64(parseInt(env("REPORT_TO_CHAT_ID"))),
      reportToMessageThreadId := ParsedInt64(parseInt(env("REPORT_TO_MESSAGE_THREAD_ID"))),
      swapPriceThreshold := SwapPriceThreshold(parseFloat(env("SWAP_PRICE_THRESHOLD"))),
      alertMentionUsername := AlertMentionUsername(env("ALERT_MENTION_USERNAME")))
  }

  /**
    A configuration read from the environment is valid exactly when
    POSTGRES_DSN, STELLAR_ADDRESS and STELLAR_SEED are set and non-empty,
    whatever the optional variables hold.
   */
  lemma GetThenValidate(env: string -> string, parseInt: string -> IntParse, parseFloat: string -> Option<real>)
    requires Int64Parser(parseInt)
    ensures Validate(Get(env, parseInt, parseFloat)).None? <==>
      env("POSTGRES_DSN") != "" && env("STELLAR_ADDRESS") != "" && env("STELLAR_SEED") != ""
  {
  }
}
