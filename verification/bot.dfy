/** The bot's decisions around the external calls: startup
    (`TwitterBot.__init__`, twitter_bot.py:30-33 and 63-82), one
    generate-then-post round (`create_and_post_tweet`, twitter_bot.py:154-166)
    and the optional post at startup (`run_scheduler`, twitter_bot.py:176-178).
    The platform client is reduced to two booleans: whether the connection
    check `get_me()` succeeds, and the result of `post_to_twitter`
    (twitter_bot.py:142-152). */
module Bot {
  import opened Wrappers
  import opened Json
  import opened Text
  import opened Config
  import opened Generation

  /** How one generate-then-post round ended. `Posted` and `PostFailed`
      carry the text handed to `post_to_twitter`, and tell apart its `True`
      and `False` results. */
  datatype TweetOutcome =
    | GenerationFailed
    | Posted(text: string)
    | PostFailed(text: string)

  /** The five values handed to the platform client's constructor. */
  datatype TwitterCredentials = TwitterCredentials(
    bearerToken: Json,
    consumerKey: Json,
    consumerSecret: Json,
    accessToken: Json,
    accessTokenSecret: Json)

  /** A started bot: its validated configuration and client credentials. */
  datatype TwitterBot = TwitterBot(config: map<string, Json>, credentials: TwitterCredentials)

  /** Why startup fails; each propagates out of `main` as a crash.
      `CredentialsUnreadable` is the `TypeError` of reading
      `self.config['twitter_bearer_token']` (twitter_bot.py:67) when the
      configuration that passed validation is a list or a string. */
  datatype StartupError =
    | ConfigRejected(reason: ConfigError)
    | CredentialsUnreadable
    | ConnectionFailed

  /** Python's truthiness of `Optional[str]`: `None` and "" are false. */
  predicate IsTruthy(statement: Option<string>)
  {
    statement.Some? && Truthy(JString(statement.value))
  }

  /** `create_and_post_tweet`: a post is attempted exactly when the generated
      statement is present and non-empty, and the attempted text is that
      statement; the round counts as posted exactly when that attempt also
      succeeds. */
  function CreateAndPostTweet(statement: Option<string>, postSucceeds: bool): (o: TweetOutcome)
    ensures o.GenerationFailed? <==> statement.None? || statement.value == ""
    ensures o.Posted? <==> IsTruthy(statement) && postSucceeds
    ensures !o.GenerationFailed? ==> statement == Some(o.text)
  {
    if IsTruthy(statement) then
      if postSucceeds then Posted(statement.value) else PostFailed(statement.value)
    else GenerationFailed
  }

  /** The arguments `setup_twitter_api` hands to the client constructor
      (twitter_bot.py:66-71): each credential comes from the configuration
      entry of the same name. Validation guarantees the entries exist. */
  function Credentials(fields: map<string, Json>): (c: TwitterCredentials)
    requires HasRequiredKeys(fields)
    ensures "twitter_bearer_token" in fields && c.bearerToken == fields["twitter_bearer_token"]
    ensures "twitter_consumer_key" in fields && c.consumerKey == fields["twitter_consumer_key"]
    ensures "twitter_consumer_secret" in fields && c.consumerSecret == fields["twitter_consumer_secret"]
    ensures "twitter_access_token" in fields && c.accessToken == fields["twitter_access_token"]
    ensures "twitter_access_token_secret" in fields
            && c.accessTokenSecret == fields["twitter_access_token_secret"]
  {
    // RequiredKeys[1..6] are the five platform keys, in constructor order.
    TwitterCredentials(
      fields[RequiredKeys[1]],
      fields[RequiredKeys[2]],
      fields[RequiredKeys[3]],
      fields[RequiredKeys[4]],
      fields[RequiredKeys[5]])
  }

  /** `TwitterBot()`: `load_config` as written, then the client setup and its
      connection check. A rejected configuration is reported with the
      validator's error before anything else is tried; a list or string that
      passed validation fails at the first credential lookup; a started bot
      holds the configuration object, with every required key, and the
      credentials read from it. */
  function Launch(config: Json, connected: bool): (r: Result<TwitterBot, StartupError>)
    ensures ValidateAsWritten(config).Failure? ==>
              r == Failure(ConfigRejected(ValidateAsWritten(config).error))
    ensures ValidateAsWritten(config).Success? && !config.JObject? ==>
              r == Failure(CredentialsUnreadable)
    ensures r == Failure(ConnectionFailed) <==> ValidateAsWritten(config).Success? && config.JObject? && !connected
    ensures ValidateAsWritten(config).Success? && config.JObject? && connected ==> r.Success?
    ensures r.Success? ==>
              connected && config == JObject(r.value.config) && HasRequiredKeys(r.value.config)
              && r.value.credentials == Credentials(r.value.config)
  {
    match ValidateAsWritten(config)
    case Failure(e) => Failure(ConfigRejected(e))
    case Success(_) =>
      if !config.JObject? then Failure(CredentialsUnreadable)
      else if !connected then Failure(ConnectionFailed)
      else Success(TwitterBot(config.fields, Credentials(config.fields)))
  }

  /** Startup succeeds exactly when the corrected validator accepts the
      configuration and the connection check succeeds; on a JSON object a
      rejection carries the corrected validator's error. So the validation
      gap of the code as written never lets a bad configuration start. */
  lemma LaunchSucceedsIffValid(config: Json, connected: bool)
    ensures Launch(config, connected).Success? <==> Validate(config).Success? && connected
    ensures config.JObject? && Validate(config).Failure? ==>
              Launch(config, connected) == Failure(ConfigRejected(Validate(config).error))
  {
  }

  /** What non-object configurations do at startup: an empty list fails on
      the first required key, a number on the `in` test itself, and a list of
      the six key names passes validation only to fail at the first
      credential lookup. */
  lemma LaunchNonObjectErrors(connected: bool)
    ensures Launch(JArray([]), connected) == Failure(ConfigRejected(MissingKey("openrouter_api_key")))
    ensures Launch(JNumber(5.0), connected) == Failure(ConfigRejected(NotIterable))
    ensures Launch(JArray(KeyNameList()), connected) == Failure(CredentialsUnreadable)
  {
    AsWrittenAcceptsKeyList();
  }

  /** The post `run_scheduler` makes before entering its loop: a full round
      when `post_on_startup` is truthy, nothing otherwise. */
  function StartupPost(bot: TwitterBot, resp: Response, postSucceeds: bool): (o: Option<TweetOutcome>)
    ensures o.Some? <==> PostOnStartup(bot.config)
    ensures PostOnStartupKey !in bot.config ==> o.None?
    ensures o.Some? ==> o.value == CreateAndPostTweet(GenerateStatement(resp), postSucceeds)
  {
    if PostOnStartup(bot.config) then
      Some(CreateAndPostTweet(GenerateStatement(resp), postSucceeds))
    else None
  }

  /** Every text the bot hands to `post_to_twitter` has between 1 and 280
      characters (as Python's `len` counts them) and no leading or trailing
      whitespace. */
  lemma PostedTextFits(resp: Response, postSucceeds: bool)
    ensures var o := CreateAndPostTweet(GenerateStatement(resp), postSucceeds);
            !o.GenerationFailed? ==> 1 <= |o.text| <= MaxTweetLength && IsStripped(o.text)
  {
  }

  /** A round attempts a post exactly when the generator answered 200 with
      string content that is not entirely whitespace. */
  lemma PostAttemptedIff(resp: Response, postSucceeds: bool)
    ensures var o := CreateAndPostTweet(GenerateStatement(resp), postSucceeds);
            !o.GenerationFailed? <==>
              resp.Received? && resp.status == StatusOk && resp.body.Some?
              && ExtractContent(resp.body.value).Some?
              && !AllSpace(ExtractContent(resp.body.value).value)
  {
  }
}
