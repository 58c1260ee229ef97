/**
 * The bot's configuration (internal/config/cofig.go): the settings record,
 * the price tables, the traffic-limit getters, the environment readers and
 * the step-by-step loading of the record from the environment.
 *
 * The environment is a map from variable name to value; an unset variable
 * reads as "" (os.Getenv). A Go panic during loading is an `Err` carrying
 * the name of the offending variable.
 */
module Settings {
  import opened Wrappers
  import Text

  datatype Config = Config(
    telegramToken: string,
    price1: int, price3: int, price6: int, price12: int,
    starsPrice1: int, starsPrice3: int, starsPrice6: int, starsPrice12: int,
    remnawaveUrl: string, remnawaveToken: string, remnawaveMode: string,
    databaseUrl: string,
    cryptoPayUrl: string, cryptoPayToken: string,
    botUrl: string,
    yookasaUrl: string, yookasaShopId: string, yookasaSecretKey: string, yookasaEmail: string,
    trafficLimit: int, trialTrafficLimit: int,
    feedbackUrl: string, channelUrl: string, serverStatusUrl: string, supportUrl: string, tosUrl: string,
    isYookasaEnabled: bool, isCryptoEnabled: bool, isTelegramStarsEnabled: bool,
    adminTelegramId: int,
    trialDays: int,
    inboundUuids: set<string>,
    referralDays: int,
    miniApp: string,
    enableAutoPayment: bool,
    healthCheckPort: int,
    tributeWebhookUrl: string, tributeApiKey: string, tributePaymentUrl: string,
    isWebAppLinkEnabled: bool,
    xApiKey: string)

  /** The zero value of the settings record, before anything is loaded. */
  function Blank(): Config
  {
    Config("", 0, 0, 0, 0, 0, 0, 0, 0, "", "", "", "", "", "", "", "", "", "", "", 0, 0,
           "", "", "", "", "", false, false, false, 0, 0, {}, 0, "", false, 0, "", "", "", false, "")
  }

  const BytesInGigabyte: int := 1073741824

  /** The price of a subscription of `month` months: 1, 3, 6 and 12 have their own price, anything else costs the 1-month price. */
  function Price(c: Config, month: int): (p: int)
    ensures month == 3 ==> p == c.price3
    ensures month == 6 ==> p == c.price6
    ensures month == 12 ==> p == c.price12
    ensures month !in {3, 6, 12} ==> p == c.price1
  {
    match month
    case 1 => c.price1
    case 3 => c.price3
    case 6 => c.price6
    case 12 => c.price12
    case _ => c.price1
  }

  /** The same table over the Telegram Stars prices. */
  function StarsPrice(c: Config, month: int): (p: int)
    ensures month == 3 ==> p == c.starsPrice3
    ensures month == 6 ==> p == c.starsPrice6
    ensures month == 12 ==> p == c.starsPrice12
    ensures month !in {3, 6, 12} ==> p == c.starsPrice1
  {
    match month
    case 1 => c.starsPrice1
    case 3 => c.starsPrice3
    case 6 => c.starsPrice6
    case 12 => c.starsPrice12
    case _ => c.starsPrice1
  }

  /** Paid-subscription traffic limit in bytes. */
  function TrafficLimit(c: Config): int
  {
    c.trafficLimit * BytesInGigabyte
  }

  /** Trial traffic limit in bytes. */
  function TrialTrafficLimit(c: Config): int
  {
    c.trialTrafficLimit * BytesInGigabyte
  }

  /** Both limits are configured in binary gigabytes: one configured unit is 2^30 bytes, and the limits scale linearly. */
  lemma LimitsAreGibibytes(c: Config, d: Config)
    ensures TrafficLimit(c) == c.trafficLimit * 1024 * 1024 * 1024
    ensures TrialTrafficLimit(c) == c.trialTrafficLimit * 1024 * 1024 * 1024
    ensures TrafficLimit(c) + TrafficLimit(d) == TrafficLimit(c.(trafficLimit := c.trafficLimit + d.trafficLimit))
    ensures c.trafficLimit < d.trafficLimit ==> TrafficLimit(c) < TrafficLimit(d)
  {
  }

  function Getenv(env: map<string, string>, key: string): string
  {
    if key in env then env[key] else ""
  }

  /** envBool: true exactly when the variable is the text "true". */
  function EnvBool(env: map<string, string>, key: string): (b: bool)
    ensures b <==> key in env && env[key] == "true"
  {
    Getenv(env, key) == "true"
  }

  /** envIntDefault: the default for an unset or empty variable, the parsed integer otherwise, a panic on anything else. */
  function EnvIntDefault(env: map<string, string>, key: string, def: int): (r: Result<int, string>)
    ensures Getenv(env, key) == "" ==> r == Ok(def)
    ensures Getenv(env, key) != "" && Text.ParseInt(Getenv(env, key)).Some? ==> r == Ok(Text.ParseInt(Getenv(env, key)).value)
    ensures Getenv(env, key) != "" && Text.ParseInt(Getenv(env, key)).None? ==> r == Err(key)
  {
    var v := Getenv(env, key);
    if v == "" then Ok(def)
    else match Text.ParseInt(v)
      case Some(i) => Ok(i)
      case None => Err(key)
  }

  /** envIntDefault reads back any integer written into the variable, and any default survives an unset variable. */
  lemma EnvIntDefaultReadsWrittenInt(env: map<string, string>, key: string, i: int, def: int)
    ensures EnvIntDefault(env[key := Text.IntToString(i)], key, def) == Ok(i)
    ensures key !in env ==> EnvIntDefault(env, key, def) == Ok(def)
  {
    Text.ParseIntRoundTrip(i);
    Text.NatToStringIsDecimal(if i < 0 then -i else i);
  }

  function MustEnv(env: map<string, string>, key: string): Result<string, string>
  {
    var v := Getenv(env, key);
    if v == "" then Err(key) else Ok(v)
  }

  function MustEnvInt(env: map<string, string>, key: string): Result<int, string>
  {
    var v :- MustEnv(env, key);
    match Text.ParseInt(v)
    case Some(i) => Ok(i)
    case None => Err(key)
  }

  /** REMNAWAVE_MODE: "remote" when unset, otherwise it must be "remote" or "local". */
  function RemnawaveMode(env: map<string, string>): (r: Result<string, string>)
  {
    var v := Getenv(env, "REMNAWAVE_MODE");
    if v == "" then Ok("remote")
    else if v != "remote" && v != "local" then Err("REMNAWAVE_MODE")
    else Ok(v)
  }

  lemma RemnawaveModeRule(env: map<string, string>)
    ensures RemnawaveMode(env).Ok? ==> RemnawaveMode(env).value in {"remote", "local"}
    ensures Getenv(env, "REMNAWAVE_MODE") == "" ==> RemnawaveMode(env) == Ok("remote")
    ensures RemnawaveMode(env).Err? <==> Getenv(env, "REMNAWAVE_MODE") !in {"", "remote", "local"}
  {
  }

  /** INBOUND_UUIDS: a comma-separated list, each piece parsed as a UUID (a panic on the first that is not one). */
  function ParseUuids(pieces: seq<string>, parseUuid: string -> Option<string>): Result<set<string>, string>
  {
    if pieces == [] then Ok({})
    else
      var before :- ParseUuids(pieces[..|pieces| - 1], parseUuid);
      match parseUuid(pieces[|pieces| - 1])
      case Some(u) => Ok(before + {u})
      case None => Err("INBOUND_UUIDS")
  }

  /** One piece that is not a UUID makes the whole list fail. */
  lemma {:induction false} ParseUuidsFailsFromPrefix(pieces: seq<string>, i: nat, parseUuid: string -> Option<string>)
    requires i <= |pieces| && ParseUuids(pieces[..i], parseUuid).Err?
    ensures ParseUuids(pieces, parseUuid) == Err("INBOUND_UUIDS")
    decreases |pieces| - i
  {
    if i == |pieces| {
      assert pieces[..i] == pieces;
      ParseUuidsErrIsInbound(pieces, parseUuid);
    } else {
      assert pieces[..i + 1][..i] == pieces[..i];
      ParseUuidsFailsFromPrefix(pieces, i + 1, parseUuid);
    }
  }

  lemma {:induction false} ParseUuidsErrIsInbound(pieces: seq<string>, parseUuid: string -> Option<string>)
    ensures ParseUuids(pieces, parseUuid).Err? ==> ParseUuids(pieces, parseUuid) == Err("INBOUND_UUIDS")
  {
    if pieces != [] {
      ParseUuidsErrIsInbound(pieces[..|pieces| - 1], parseUuid);
    }
  }

  function InboundUuids(env: map<string, string>, parseUuid: string -> Option<string>): Result<set<string>, string>
  {
    var v := Getenv(env, "INBOUND_UUIDS");
    if v == "" then Ok({}) else ParseUuids(Text.Split(v, ','), parseUuid)
  }

  /**
   * The settings record InitConfig leaves behind when started from `c`:
   * every variable is read in the source's order, in six stages; the settings
   * that are only read when a feature is enabled keep their previous value otherwise.
   */
  function Load(c: Config, env: map<string, string>, parseUuid: string -> Option<string>): Result<Config, string>
  {
    var c1 :- Identity(c, env);
    var c2 :- Prices(c1, env);
    var c3 :- Panel(c2, env);
    var c4 :- Gateways(c3, env);
    var c5 :- Limits(c4, env, parseUuid);
    TributeSettings(c5, env)
  }

  /** Admin id, bot token, web-app settings, trial settings, health-check port, auto-payment flag. */
  function Identity(c: Config, env: map<string, string>): Result<Config, string>
  {
    var admin := Text.ParseInt(Getenv(env, "ADMIN_TELEGRAM_ID"));
    if admin.None? then Err("ADMIN_TELEGRAM_ID") else
    var token :- MustEnv(env, "TELEGRAM_TOKEN");
    var trialTraffic :- MustEnvInt(env, "TRIAL_TRAFFIC_LIMIT");
    var port :- EnvIntDefault(env, "HEALTH_CHECK_PORT", 8080);
    var trialDays :- MustEnvInt(env, "TRIAL_DAYS");
    Ok(c.(adminTelegramId := admin.value, telegramToken := token,
          xApiKey := Getenv(env, "X_API_KEY"),
          isWebAppLinkEnabled := Getenv(env, "IS_WEB_APP_LINK") == "true",
          miniApp := Getenv(env, "MINI_APP_URL"),
          trialTrafficLimit := trialTraffic, healthCheckPort := port, trialDays := trialDays,
          enableAutoPayment := EnvBool(env, "ENABLE_AUTO_PAYMENT")))
  }

  /** The four regular prices, the Stars flag and, when Stars are enabled, the Stars prices. */
  function Prices(c: Config, env: map<string, string>): Result<Config, string>
  {
    var p1 :- MustEnvInt(env, "PRICE_1");
    var p3 :- MustEnvInt(env, "PRICE_3");
    var p6 :- MustEnvInt(env, "PRICE_6");
    var p12 :- MustEnvInt(env, "PRICE_12");
    StarsPrices(c.(price1 := p1, price3 := p3, price6 := p6, price12 := p12,
                   isTelegramStarsEnabled := EnvBool(env, "TELEGRAM_STARS_ENABLED")), env)
  }

  /** With Stars enabled, every Stars price defaults to the regular price of the same duration. */
  function StarsPrices(c: Config, env: map<string, string>): Result<Config, string>
  {
    if !c.isTelegramStarsEnabled then Ok(c) else
    var s1 :- EnvIntDefault(env, "STARS_PRICE_1", c.price1);
    var s3 :- EnvIntDefault(env, "STARS_PRICE_3", c.price3);
    var s6 :- EnvIntDefault(env, "STARS_PRICE_6", c.price6);
    var s12 :- EnvIntDefault(env, "STARS_PRICE_12", c.price12);
    Ok(c.(starsPrice1 := s1, starsPrice3 := s3, starsPrice6 := s6, starsPrice12 := s12))
  }

  /** The panel's URL, mode and token, and the database URL. */
  function Panel(c: Config, env: map<string, string>): Result<Config, string>
  {
    var url :- MustEnv(env, "REMNAWAVE_URL");
    var mode :- RemnawaveMode(env);
    var rtoken :- MustEnv(env, "REMNAWAVE_TOKEN");
    var db :- MustEnv(env, "DATABASE_URL");
    Ok(c.(remnawaveUrl := url, remnawaveMode := mode, remnawaveToken := rtoken, databaseUrl := db))
  }

  /** The CryptoPay and YooKassa flags, each followed by its mandatory settings when enabled. */
  function Gateways(c: Config, env: map<string, string>): Result<Config, string>
  {
    var c1 :- CryptoSettings(c.(isCryptoEnabled := EnvBool(env, "CRYPTO_PAY_ENABLED")), env);
    YookasaSettings(c1.(isYookasaEnabled := EnvBool(env, "YOOKASA_ENABLED")), env)
  }

  function CryptoSettings(c: Config, env: map<string, string>): Result<Config, string>
  {
    if !c.isCryptoEnabled then Ok(c) else
    var u :- MustEnv(env, "CRYPTO_PAY_URL");
    var t :- MustEnv(env, "CRYPTO_PAY_TOKEN");
    Ok(c.(cryptoPayUrl := u, cryptoPayToken := t))
  }

  function YookasaSettings(c: Config, env: map<string, string>): Result<Config, string>
  {
    if !c.isYookasaEnabled then Ok(c) else
    var u :- MustEnv(env, "YOOKASA_URL");
    var shop :- MustEnv(env, "YOOKASA_SHOP_ID");
    var key :- MustEnv(env, "YOOKASA_SECRET_KEY");
    var email :- MustEnv(env, "YOOKASA_EMAIL");
    Ok(c.(yookasaUrl := u, yookasaShopId := shop, yookasaSecretKey := key, yookasaEmail := email))
  }

  /** Traffic limit, referral bonus days, informational links, inbound filter and the Tribute webhook URL. */
  function Limits(c: Config, env: map<string, string>, parseUuid: string -> Option<string>): Result<Config, string>
  {
    var traffic :- MustEnvInt(env, "TRAFFIC_LIMIT");
    var referral :- MustEnvInt(env, "REFERRAL_DAYS");
    var inbounds :- InboundUuids(env, parseUuid);
    Ok(c.(trafficLimit := traffic, referralDays := referral,
          serverStatusUrl := Getenv(env, "SERVER_STATUS_URL"), supportUrl := Getenv(env, "SUPPORT_URL"),
          feedbackUrl := Getenv(env, "FEEDBACK_URL"), channelUrl := Getenv(env, "CHANNEL_URL"),
          tosUrl := Getenv(env, "TOS_URL"), inboundUuids := inbounds,
          tributeWebhookUrl := Getenv(env, "TRIBUTE_WEBHOOK_URL")))
  }

  function TributeSettings(c: Config, env: map<string, string>): Result<Config, string>
  {
    if c.tributeWebhookUrl == "" then Ok(c) else
    var k :- MustEnv(env, "TRIBUTE_API_KEY");
    var u :- MustEnv(env, "TRIBUTE_PAYMENT_URL");
    Ok(c.(tributeApiKey := k, tributePaymentUrl := u))
  }

  /** The prices stage: regular prices are the parsed variables; with Stars enabled an unset Stars price is the regular price. */
  lemma PricesRule(c: Config, env: map<string, string>)
    requires Prices(c, env).Ok?
    ensures var n := Prices(c, env).value;
      && Text.ParseInt(Getenv(env, "PRICE_1")) == Some(n.price1)
      && Text.ParseInt(Getenv(env, "PRICE_3")) == Some(n.price3)
      && Text.ParseInt(Getenv(env, "PRICE_6")) == Some(n.price6)
      && Text.ParseInt(Getenv(env, "PRICE_12")) == Some(n.price12)
      && n.isTelegramStarsEnabled == (Getenv(env, "TELEGRAM_STARS_ENABLED") == "true")
      && (n.isTelegramStarsEnabled && Getenv(env, "STARS_PRICE_1") == "" ==> n.starsPrice1 == n.price1)
      && (n.isTelegramStarsEnabled && Getenv(env, "STARS_PRICE_3") == "" ==> n.starsPrice3 == n.price3)
      && (n.isTelegramStarsEnabled && Getenv(env, "STARS_PRICE_6") == "" ==> n.starsPrice6 == n.price6)
      && (n.isTelegramStarsEnabled && Getenv(env, "STARS_PRICE_12") == "" ==> n.starsPrice12 == n.price12)
      && (!n.isTelegramStarsEnabled ==> n.starsPrice1 == c.starsPrice1 && n.starsPrice3 == c.starsPrice3
                                        && n.starsPrice6 == c.starsPrice6 && n.starsPrice12 == c.starsPrice12)
  {
  }

  /** A successful load runs the panel in "remote" or "local" mode, "remote" when the variable is unset. */
  lemma LoadModeRule(c: Config, env: map<string, string>, parseUuid: string -> Option<string>)
    requires Load(c, env, parseUuid).Ok?
    ensures Load(c, env, parseUuid).value.remnawaveMode in {"remote", "local"}
    ensures Getenv(env, "REMNAWAVE_MODE") == "" ==> Load(c, env, parseUuid).value.remnawaveMode == "remote"
  {
    var c1 := Identity(c, env).value;
    var c2 := Prices(c1, env).value;
    var c3 := Panel(c2, env).value;
    var c4 := Gateways(c3, env).value;
    var c5 := Limits(c4, env, parseUuid).value;
    assert Load(c, env, parseUuid) == TributeSettings(c5, env);
    PanelSetsMode(c2, env);
    RemnawaveModeRule(env);
    LaterStagesKeepMode(c3, env, parseUuid);
    LaterStagesKeepMode(c4, env, parseUuid);
    LaterStagesKeepMode(c5, env, parseUuid);
  }

  lemma PanelSetsMode(c: Config, env: map<string, string>)
    requires Panel(c, env).Ok?
    ensures Panel(c, env).value.remnawaveMode == RemnawaveMode(env).value
  {
  }

  lemma LaterStagesKeepMode(c: Config, env: map<string, string>, parseUuid: string -> Option<string>)
    ensures Gateways(c, env).Ok? ==> Gateways(c, env).value.remnawaveMode == c.remnawaveMode
    ensures Limits(c, env, parseUuid).Ok? ==> Limits(c, env, parseUuid).value.remnawaveMode == c.remnawaveMode
    ensures TributeSettings(c, env).Ok? ==> TributeSettings(c, env).value.remnawaveMode == c.remnawaveMode
  {
    GatewaysKeepMode(c, env);
    LimitsKeepMode(c, env, parseUuid);
  }

  lemma GatewaysKeepMode(c: Config, env: map<string, string>)
    ensures Gateways(c, env).Ok? ==> Gateways(c, env).value.remnawaveMode == c.remnawaveMode
  {
    var d := c.(isCryptoEnabled := EnvBool(env, "CRYPTO_PAY_ENABLED"));
    if CryptoSettings(d, env).Ok? {
      var c1 := CryptoSettings(d, env).value;
      assert c1.remnawaveMode == c.remnawaveMode;
      var e := c1.(isYookasaEnabled := EnvBool(env, "YOOKASA_ENABLED"));
      assert YookasaSettings(e, env).Ok? ==> YookasaSettings(e, env).value.remnawaveMode == c.remnawaveMode;
    }
  }

  lemma LimitsKeepMode(c: Config, env: map<string, string>, parseUuid: string -> Option<string>)
    ensures Limits(c, env, parseUuid).Ok? ==> Limits(c, env, parseUuid).value.remnawaveMode == c.remnawaveMode
  {
  }

  /** A REMNAWAVE_MODE other than "remote" or "local" aborts loading. */
  lemma BadModeAborts(c: Config, env: map<string, string>, parseUuid: string -> Option<string>)
    requires Getenv(env, "REMNAWAVE_MODE") !in {"", "remote", "local"}
    ensures Load(c, env, parseUuid).Err?
  {
  }

  /** The process-wide settings (the global `conf`). */
  class Settings {
    var conf: Config

    constructor ()
      ensures conf == Blank()
    {
      conf := Blank();
    }

    function BotURL(): string
      reads this
    {
      conf.botUrl
    }

    method SetBotURL(url: string)
      modifies this
      ensures conf == old(conf).(botUrl := url)
      ensures BotURL() == url
    {
      conf := conf.(botUrl := url);
    }

    /**
     * InitConfig: reads the variables one after another into `conf`.
     * On `Err(key)` the process would have panicked on variable `key`.
     */
    method InitConfig(env: map<string, string>, parseUuid: string -> Option<string>) returns (r: Result<(), string>)
      modifies this
      ensures r.Ok? <==> Load(old(conf), env, parseUuid).Ok?
      ensures r.Ok? ==> conf == Load(old(conf), env, parseUuid).value
      ensures r.Err? ==> r.error == Load(old(conf), env, parseUuid).error
    {
      r := ReadIdentity(env);
      if r.Err? { return; }
      r := ReadPrices(env);
      if r.Err? { return; }
      r := ReadPanel(env);
      if r.Err? { return; }
      r := ReadGateways(env);
      if r.Err? { return; }
      r := ReadLimits(env, parseUuid);
      if r.Err? { return; }
      r := ReadTribute(env);
    }

    method ReadIdentity(env: map<string, string>) returns (r: Result<(), string>)
      modifies this
      ensures r.Ok? <==> Identity(old(conf), env).Ok?
      ensures r.Ok? ==> conf == Identity(old(conf), env).value
      ensures r.Err? ==> r.error == Identity(old(conf), env).error
    {
      var admin := Text.ParseInt(Getenv(env, "ADMIN_TELEGRAM_ID"));
      if admin.None? {
        return Err("ADMIN_TELEGRAM_ID");
      }
      conf := conf.(adminTelegramId := admin.value);
      var token :- MustEnv(env, "TELEGRAM_TOKEN");
      conf := conf.(telegramToken := token);
      conf := conf.(xApiKey := Getenv(env, "X_API_KEY"));
      conf := conf.(isWebAppLinkEnabled := Getenv(env, "IS_WEB_APP_LINK") == "true");
      conf := conf.(miniApp := Getenv(env, "MINI_APP_URL"));
      var trialTraffic :- MustEnvInt(env, "TRIAL_TRAFFIC_LIMIT");
      conf := conf.(trialTrafficLimit := trialTraffic);
      var port :- EnvIntDefault(env, "HEALTH_CHECK_PORT", 8080);
      conf := conf.(healthCheckPort := port);
      var trialDays :- MustEnvInt(env, "TRIAL_DAYS");
      conf := conf.(trialDays := trialDays);
      conf := conf.(enableAutoPayment := EnvBool(env, "ENABLE_AUTO_PAYMENT"));
      r := Ok(());
    }

    method ReadPrices(env: map<string, string>) returns (r: Result<(), string>)
      modifies this
      ensures r.Ok? <==> Prices(old(conf), env).Ok?
      ensures r.Ok? ==> conf == Prices(old(conf), env).value
      ensures r.Err? ==> r.error == Prices(old(conf), env).error
    {
      var p1 :- MustEnvInt(env, "PRICE_1");
      conf := conf.(price1 := p1);
      var p3 :- MustEnvInt(env, "PRICE_3");
      conf := conf.(price3 := p3);
      var p6 :- MustEnvInt(env, "PRICE_6");
      conf := conf.(price6 := p6);
      var p12 :- MustEnvInt(env, "PRICE_12");
      conf := conf.(price12 := p12);
      conf := conf.(isTelegramStarsEnabled := EnvBool(env, "TELEGRAM_STARS_ENABLED"));
      r := ReadStarsPrices(env);
    }

    method ReadStarsPrices(env: map<string, string>) returns (r: Result<(), string>)
      modifies this
      ensures r.Ok? <==> StarsPrices(old(conf), env).Ok?
      ensures r.Ok? ==> conf == StarsPrices(old(conf), env).value
      ensures r.Err? ==> r.error == StarsPrices(old(conf), env).error
    {
      if conf.isTelegramStarsEnabled {
        var s1 :- EnvIntDefault(env, "STARS_PRICE_1", conf.price1);
        conf := conf.(starsPrice1 := s1);
        var s3 :- EnvIntDefault(env, "STARS_PRICE_3", conf.price3);
        conf := conf.(starsPrice3 := s3);
        var s6 :- EnvIntDefault(env, "STARS_PRICE_6", conf.price6);
        conf := conf.(starsPrice6 := s6);
        var s12 :- EnvIntDefault(env, "STARS_PRICE_12", conf.price12);
        conf := conf.(starsPrice12 := s12);
      }
      r := Ok(());
    }

    method ReadPanel(env: map<string, string>) returns (r: Result<(), string>)
      modifies this
      ensures r.Ok? <==> Panel(old(conf), env).Ok?
      ensures r.Ok? ==> conf == Panel(old(conf), env).value
      ensures r.Err? ==> r.error == Panel(old(conf), env).error
    {
      var url :- MustEnv(env, "REMNAWAVE_URL");
      conf := conf.(remnawaveUrl := url);
      var mode :- RemnawaveMode(env);
      conf := conf.(remnawaveMode := mode);
      var rtoken :- MustEnv(env, "REMNAWAVE_TOKEN");
      conf := conf.(remnawaveToken := rtoken);
      var db :- MustEnv(env, "DATABASE_URL");
      conf := conf.(databaseUrl := db);
      r := Ok(());
    }

    method ReadGateways(env: map<string, string>) returns (r: Result<(), string>)
      modifies this
      ensures r.Ok? <==> Gateways(old(conf), env).Ok?
      ensures r.Ok? ==> conf == Gateways(old(conf), env).value
      ensures r.Err? ==> r.error == Gateways(old(conf), env).error
    {
      conf := conf.(isCryptoEnabled := EnvBool(env, "CRYPTO_PAY_ENABLED"));
      r := ReadCryptoPay(env);
      if r.Err? {
        return;
      }
      conf := conf.(isYookasaEnabled := EnvBool(env, "YOOKASA_ENABLED"));
      r := ReadYookasa(env);
    }

    method ReadCryptoPay(env: map<string, string>) returns (r: Result<(), string>)
      modifies this
      ensures r.Ok? <==> CryptoSettings(old(conf), env).Ok?
      ensures r.Ok? ==> conf == CryptoSettings(old(conf), env).value
      ensures r.Err? ==> r.error == CryptoSettings(old(conf), env).error
    {
      if conf.isCryptoEnabled {
        var u :- MustEnv(env, "CRYPTO_PAY_URL");
        conf := conf.(cryptoPayUrl := u);
        var t :- MustEnv(env, "CRYPTO_PAY_TOKEN");
        conf := conf.(cryptoPayToken := t);
      }
      r := Ok(());
    }

    method ReadYookasa(env: map<string, string>) returns (r: Result<(), string>)
      modifies this
      ensures r.Ok? <==> YookasaSettings(old(conf), env).Ok?
      ensures r.Ok? ==> conf == YookasaSettings(old(conf), env).value
      ensures r.Err? ==> r.error == YookasaSettings(old(conf), env).error
    {
      if conf.isYookasaEnabled {
        var u :- MustEnv(env, "YOOKASA_URL");
        conf := conf.(yookasaUrl := u);
        var shop :- MustEnv(env, "YOOKASA_SHOP_ID");
        conf := conf.(yookasaShopId := shop);
        var key :- MustEnv(env, "YOOKASA_SECRET_KEY");
        conf := conf.(yookasaSecretKey := key);
        var email :- MustEnv(env, "YOOKASA_EMAIL");
        conf := conf.(yookasaEmail := email);
      }
      r := Ok(());
    }

    method ReadLimits(env: map<string, string>, parseUuid: string -> Option<string>) returns (r: Result<(), string>)
      modifies this
      ensures r.Ok? <==> Limits(old(conf), env, parseUuid).Ok?
      ensures r.Ok? ==> conf == Limits(old(conf), env, parseUuid).value
      ensures r.Err? ==> r.error == Limits(old(conf), env, parseUuid).error
    {
      var traffic :- MustEnvInt(env, "TRAFFIC_LIMIT");
      conf := conf.(trafficLimit := traffic);
      var referral :- MustEnvInt(env, "REFERRAL_DAYS");
      conf := conf.(referralDays := referral);
      conf := conf.(serverStatusUrl := Getenv(env, "SERVER_STATUS_URL"));
      conf := conf.(supportUrl := Getenv(env, "SUPPORT_URL"));
      conf := conf.(feedbackUrl := Getenv(env, "FEEDBACK_URL"));
      conf := conf.(channelUrl := Getenv(env, "CHANNEL_URL"));
      conf := conf.(tosUrl := Getenv(env, "TOS_URL"));
      var inbounds :- ReadInboundUuids(env, parseUuid);
      conf := conf.(inboundUuids := inbounds);
      conf := conf.(tributeWebhookUrl := Getenv(env, "TRIBUTE_WEBHOOK_URL"));
      r := Ok(());
    }

    method ReadTribute(env: map<string, string>) returns (r: Result<(), string>)
      modifies this
      ensures r.Ok? <==> TributeSettings(old(conf), env).Ok?
      ensures r.Ok? ==> conf == TributeSettings(old(conf), env).value
      ensures r.Err? ==> r.error == TributeSettings(old(conf), env).error
    {
      if conf.tributeWebhookUrl != "" {
        var k :- MustEnv(env, "TRIBUTE_API_KEY");
        conf := conf.(tributeApiKey := k);
        var u :- MustEnv(env, "TRIBUTE_PAYMENT_URL");
        conf := conf.(tributePaymentUrl := u);
      }
      r := Ok(());
    }
  }

  /** The INBOUND_UUIDS loop: split at commas and parse each piece into the set, panicking on the first bad piece. */
  method ReadInboundUuids(env: map<string, string>, parseUuid: string -> Option<string>) returns (r: Result<set<string>, string>)
    ensures r == InboundUuids(env, parseUuid)
  {
    var v := Getenv(env, "INBOUND_UUIDS");
    if v == "" {
      return Ok({});
    }
    var pieces := Text.Split(v, ',');
    var uuids: set<string> := {};
    var i := 0;
    while i < |pieces|
      invariant 0 <= i <= |pieces|
      invariant ParseUuids(pieces[..i], parseUuid) == Ok(uuids)
    {
      assert pieces[..i + 1][..i] == pieces[..i];
      var u := parseUuid(pieces[i]);
      if u.None? {
        ParseUuidsFailsFromPrefix(pieces, i + 1, parseUuid);
        return Err("INBOUND_UUIDS");
      }
      uuids := uuids + {u.value};
      i := i + 1;
    }
    assert pieces[..i] == pieces;
    r := Ok(uuids);
  }
}
