# twittwebot — a Dafny model of the posting bot's decision logic

`twitter_bot.py` is a small bot that, every 24 hours, asks a text generator
(OpenRouter) for a short statement and posts it to Twitter. Almost all of it
is I/O. This project models the pure logic that sits between those calls and
proves properties about it:

- **Statement clean-up** (`generate_random_statement`). The generator's reply
  is turned into an optional statement. Anything other than HTTP 200 with
  string content at `choices[0].message.content` gives `None`. Otherwise the
  content is passed through Python's `str.strip()` and then cut to the
  280-character limit: its first 277 characters plus `"..."`.
- **Configuration validation** (`load_config`). Six credential keys are
  checked in a fixed order. The first missing one raises a `ValueError`
  naming it, and otherwise the configuration is returned unchanged.
- **Posting decision** (`create_and_post_tweet`, `run_scheduler`). A post is
  attempted only when the statement is truthy, meaning neither `None` nor
  `""`. An initial post at startup happens only when `post_on_startup` is
  truthy, and the default is false.
- **Startup** (`TwitterBot.__init__`). The configuration is validated, the
  client is built from five credential entries, and its connection check
  runs. Any failure stops the process.

Modules: `Wrappers` (Option/Result), `Json` (parsed JSON values and Python
truthiness), `Text` (strip and truncate), `Config` (validation and the
startup option), `Generation` (HTTP response to statement) and `Bot`
(startup and the generate-then-post round).

External calls are replaced by parameters. The HTTP response is a
`Generation.Response` value: a transport error, or a status code with an
optional parsed body. The platform client is reduced to two booleans: whether
`get_me()` succeeds, and the `True`/`False` result of `post_to_twitter`.

## Model

| member | source | states |
|---|---|---|
| Text.Truncate | twitter_bot.py:128-130 | The result never exceeds 280 characters. A statement of at most 280 is returned unchanged. A longer one becomes its first 277 characters followed by "...", which is exactly 280 characters. |
| Text.TruncateIdempotent | twitter_bot.py:129-130 | Truncating an already truncated statement leaves it unchanged. |
| Text.TruncateEmptyIff | twitter_bot.py:129-130 | Truncation yields "" exactly when given "". |
| Text.TruncatePreservesStripped | twitter_bot.py:126-130 | Truncating a stripped statement keeps it free of leading and trailing whitespace. |
| Text.StripLeft | twitter_bot.py:126 | The left half of `strip()`: the result is a suffix of the input, everything dropped is whitespace, and the result does not start with whitespace. |
| Text.StripRight | twitter_bot.py:126 | The right half of `strip()`: the result is a prefix of the input, everything dropped is whitespace, and the result does not end with whitespace. |
| Text.StripLeftSkipsSpace | twitter_bot.py:126 | Left-stripping a whitespace run placed before a string that does not start with whitespace returns exactly that string. |
| Text.StripRightSkipsSpace | twitter_bot.py:126 | Right-stripping a whitespace run placed after a string that does not end with whitespace returns exactly that string. |
| Text.Strip | twitter_bot.py:126 | The result is a slice of the input with no leading or trailing whitespace, and only whitespace around it in the input. |
| Text.StripUnique | twitter_bot.py:126 | For whitespace `a` and `b` and a stripped `m`, `strip(a + m + b) == m`. Together with the contract of Strip, this fixes the result uniquely. |
| Text.StripIdempotent | twitter_bot.py:126 | Stripping twice is the same as stripping once. |
| Text.StripEmptyIff | twitter_bot.py:126 | `strip()` yields "" exactly when the input is all whitespace. |
| Config.FirstMissing | twitter_bot.py:51-53 | The check loop stops at the first key not present. Every earlier key is present, and the position is the list length when all keys are present. |
| Config.ValidateAsWritten | twitter_bot.py:42-55 | As written: a number, boolean or null raises a TypeError. Any other value passes exactly when Python's `in` finds all six keys, and the value is then returned unchanged. Otherwise the error names the first key, in list order, that `in` does not find. |
| Config.Validate | twitter_bot.py:42-55 | Corrected validator. A non-object is rejected. An object passes exactly when all six keys are present, and the same map is returned. Otherwise the error names the first missing key in list order. |
| Config.ExtraKeysNeverFail | twitter_bot.py:51-55 | Adding entries to a passing configuration never makes it fail, and the enlarged map comes back unchanged. |
| Config.ReportedKeyIsFirstMissing | twitter_bot.py:51-53 | When key i is missing and all earlier keys are present, the error names key i, whatever else is missing. |
| Config.AsWrittenAgreesOnObjects | twitter_bot.py:51-53 | On JSON objects, the as-written and corrected validators agree on success, on the reported key and on the returned configuration. |
| Config.AsWrittenAcceptsKeyList | twitter_bot.py:51-53 | A JSON list of the six key names passes the as-written check. The corrected validator rejects it. |
| Config.PostOnStartup | twitter_bot.py:176 | An absent `post_on_startup` means no startup post. A present one requests the post exactly when its value is truthy in Python's sense. |
| Config.PostOnStartupValues | twitter_bot.py:176 | `true` and `false` are taken at face value. The string "false" still requests a post. Removing the key disables the post. |
| Generation.ExtractContent | twitter_bot.py:125-126 | A body that is not an object, or that has no "choices" field, gives None. |
| Generation.ExtractCompletionBody | twitter_bot.py:125-126 | Any body whose first choice has string content gives that content back, whatever other fields or choices it carries. |
| Generation.ExtractContentShape | twitter_bot.py:125-126 | Content is found only in such a body. Every other shape raises in Python and is caught, giving None. |
| Generation.GenerateStatement | twitter_bot.py:124-140 | A transport error, a non-200 status or a body without string content gives None. Otherwise the result is the stripped content after truncation. It is at most 280 characters and has no surrounding whitespace. |
| Bot.CreateAndPostTweet | twitter_bot.py:154-166 | A post is attempted exactly when the statement is present and non-empty, with that statement as its text. The round counts as posted exactly when that attempt succeeds. |
| Bot.Credentials | twitter_bot.py:66-71 | Each of the five client arguments is the configuration entry of the same name. |
| Bot.Launch | twitter_bot.py:30-82 | A configuration the as-written validator rejects is reported with that validator's error. A list or string that passes fails at the first credential lookup. A valid object fails only when the connection check fails. A started bot holds the configuration object with every required key, and the credentials read from it. |
| Bot.LaunchSucceedsIffValid | twitter_bot.py:30-82 | Startup succeeds exactly when the corrected validator accepts the configuration and the connection check succeeds. For an object, a rejection carries the corrected validator's error. |
| Bot.LaunchNonObjectErrors | twitter_bot.py:51-67 | `[]` fails naming `openrouter_api_key`. `5` fails with the `in` TypeError. A list of the six names passes validation and then fails at the credential lookup. |
| Bot.StartupPost | twitter_bot.py:175-178 | A startup round happens exactly when `post_on_startup` is truthy, and never when the option is absent. |
| Bot.PostedTextFits | twitter_bot.py:158-160 | Every text handed to `post_to_twitter` is 1 to 280 characters long and has no leading or trailing whitespace. |
| Bot.PostAttemptedIff | twitter_bot.py:124-160 | A round attempts a post exactly when the generator answered 200 with string content that is not entirely whitespace. |

## Left out

- Reading `config.json` and `json.load` (twitter_bot.py:37-39, 56-61): file I/O and parsing. The model starts from the parsed value, and the error handlers only log and re-raise.
- Building the tweepy client and calling `get_me` / `create_tweet` (twitter_bot.py:63-82, 142-152): foreign network calls. `get_me` is one success boolean. `post_to_twitter` is its `True`/`False` result, which is also `False` when `create_tweet` succeeded but reading `response.data['id']` (line 147) raised. In that case the round is recorded as `PostFailed` although the tweet went out. The tweet id itself is not modelled.
- The text of the `ValueError` (`"Missing required configuration key: "` plus the key, line 53) is not modelled; `Config.MissingKey` carries the key it names. The text of Python's `TypeError` messages is not modelled either.
- The OpenRouter request (twitter_bot.py:88-122): network I/O. This covers the random prompt choice, the model name, `max_tokens`, `temperature` and the 30-second timeout. A timeout or connection error is the `TransportError` response.
- The `schedule` loop, `time.sleep` and the 24-hour interval (twitter_bot.py:168-183), and `main`'s interrupt handling (twitter_bot.py:185-194): runtime plumbing with an infinite loop. Only the startup post decision is modelled.
- Logging throughout, including the log lines that tell success from failure in `create_and_post_tweet`. `Bot.TweetOutcome` records which of them would be written.
- test_popular_posts.py: it reads `config.json` and checks by reflection that methods exist, so it has no logic to model.
- The popular-post engagement engine is not modelled. test_popular_posts.py:47 looks for methods (`get_popular_posts`, `interact_with_post`, ...) that twitter_bot.py does not define.
- JSON numbers are reals; `NaN` and `Infinity` (which Python's `json` accepts, and which are truthy) are not represented.
- Characters are Unicode scalar values, as Python counts them with `len`. Lone surrogates, which Python strings can hold, are not represented.
- Generation.ExtractContent: its own contract only says that non-objects and bodies without "choices" give None. The full characterisation is in the lemmas ExtractCompletionBody and ExtractContentShape.

## Findings

| source | as written | input that shows it | evidently intended | confidence | as-written member | corrected member |
|---|---|---|---|---|---|---|
| twitter_bot.py:51-53 | `key not in config` is applied to whatever top-level value `json.load` returned. On a list it tests elements, and on a string it tests substrings. | a config file holding the JSON list `["openrouter_api_key", "twitter_bearer_token", "twitter_consumer_key", "twitter_consumer_secret", "twitter_access_token", "twitter_access_token_secret"]` passes validation, and `setup_twitter_api` then fails with a TypeError instead of the missing-key error | only a JSON object whose keys include all six names passes | not executed; high (Python `in` semantics) | Config.AsWrittenAcceptsKeyList | Config.Validate |
