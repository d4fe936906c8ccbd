/** Validation of the loaded configuration (twitter_bot.py:35-55) and the
    `post_on_startup` option (twitter_bot.py:176). Reading the file and
    `json.load` are not modelled: validation starts from the parsed value. */
module Config {
  import opened Wrappers
  import opened Json

  /** The credential keys every configuration must carry, in the order they
      are checked. */
  const RequiredKeys: seq<string> := [
    "openrouter_api_key",
    "twitter_bearer_token",
    "twitter_consumer_key",
    "twitter_consumer_secret",
    "twitter_access_token",
    "twitter_access_token_secret"
  ]

  /** The option that requests a post right after startup. */
  const PostOnStartupKey: string := "post_on_startup"

  /** Why a configuration is rejected. `MissingKey` is the `ValueError` of
      twitter_bot.py:53; `NotIterable` is the `TypeError` Python raises when
      `in` is applied to a number, boolean or null; `NotAnObject` is the
      corrected validator's rejection of any top-level value that is not a
      JSON object. */
  datatype ConfigError = MissingKey(key: string) | NotIterable | NotAnObject

  /** The position of the first key of `keys` that `present` rejects, or
      `|keys|` when every key is present: the `for key in required_keys`
      loop of twitter_bot.py:51-53. */
  function FirstMissing(keys: seq<string>, present: string -> bool): (i: nat)
    ensures i <= |keys|
    ensures forall j :: 0 <= j < i ==> present(keys[j])
    ensures i < |keys| ==> !present(keys[i])
  {
    if |keys| == 0 then 0
    else if !present(keys[0]) then 0
    else 1 + FirstMissing(keys[1..], present)
  }

  /** A map holding every required key. */
  predicate HasRequiredKeys(fields: map<string, Json>)
  {
    forall j :: 0 <= j < |RequiredKeys| ==> RequiredKeys[j] in fields
  }

  /** `key` is the first required key, in list order, that `fields`
      lacks. */
  predicate IsFirstMissingKey(key: string, fields: map<string, Json>)
  {
    exists i :: 0 <= i < |RequiredKeys| && RequiredKeys[i] == key
                && key !in fields
                && forall j :: 0 <= j < i ==> RequiredKeys[j] in fields
  }

  /** Python's `needle in s` for strings: a substring test ("" is in every
      string). */
  predicate IsSubstring(needle: string, s: string)
  {
    exists i :: 0 <= i <= |s| && needle <= s[i..]
  }

  /** The values Python's `in` operator accepts on the right. */
  predicate Iterable(v: Json)
  {
    v.JString? || v.JArray? || v.JObject?
  }

  /** Python's `key in v` for a parsed JSON value: a key test on a dict,
      element equality on a list, a substring test on a string. */
  predicate PyIn(key: string, v: Json)
    requires Iterable(v)
  {
    match v
    case JString(s) => IsSubstring(key, s)
    case JArray(items) => JString(key) in items
    case JObject(fields) => key in fields
  }

  /** `load_config` after parsing, as written: every required key is checked
      with `in` against whatever top-level value the file held, and the
      value is returned unchanged when all pass. Otherwise the error names
      the first key, in list order, that `in` does not find. */
  function ValidateAsWritten(config: Json): (r: Result<Json, ConfigError>)
    ensures !Iterable(config) ==> r == Failure(NotIterable)
    ensures Iterable(config) ==>
              (r.Success? <==> forall j :: 0 <= j < |RequiredKeys| ==> PyIn(RequiredKeys[j], config))
    ensures r.Success? ==> r.value == config
    ensures Iterable(config) && r.Failure? ==>
              r.error.MissingKey?
              && exists i :: 0 <= i < |RequiredKeys| && RequiredKeys[i] == r.error.key
                             && !PyIn(RequiredKeys[i], config)
                             && forall j :: 0 <= j < i ==> PyIn(RequiredKeys[j], config)
  {
    if !Iterable(config) then Failure(NotIterable)
    else
      var i := FirstMissing(RequiredKeys, k => PyIn(k, config));
      if i < |RequiredKeys| then Failure(MissingKey(RequiredKeys[i])) else Success(config)
  }

  /** `load_config` after parsing, with the top-level value required to be
      a JSON object (the corrected validator; see README "Findings").
      It succeeds exactly when all six keys are present, returns the map
      unchanged, and otherwise names the first missing key in list order. */
  function Validate(config: Json): (r: Result<map<string, Json>, ConfigError>)
    ensures !config.JObject? ==> r == Failure(NotAnObject)
    ensures config.JObject? ==> (r.Success? <==> HasRequiredKeys(config.fields))
    ensures r.Success? ==> config == JObject(r.value)
    ensures config.JObject? && r.Failure? ==>
              r.error.MissingKey? && IsFirstMissingKey(r.error.key, config.fields)
  {
    match config
    case JObject(fields) =>
      var i := FirstMissing(RequiredKeys, k => k in fields);
      if i < |RequiredKeys| then Failure(MissingKey(RequiredKeys[i])) else Success(fields)
    case _ => Failure(NotAnObject)
  }

  /** Extra keys never cause a failure: a configuration that passes still
      passes with more entries added (and keeps passing with any values). */
  lemma ExtraKeysNeverFail(fields: map<string, Json>, more: map<string, Json>)
    requires Validate(JObject(fields)).Success?
    requires fields.Keys <= more.Keys
    ensures Validate(JObject(more)) == Success(more)
  {
  }

  /** Only the first missing key is reported: whatever else is missing after
      it, and whatever the values are, the error is the same. */
  lemma ReportedKeyIsFirstMissing(fields: map<string, Json>, i: nat)
    requires i < |RequiredKeys|
    requires RequiredKeys[i] !in fields
    requires forall j :: 0 <= j < i ==> RequiredKeys[j] in fields
    ensures Validate(JObject(fields)) == Failure(MissingKey(RequiredKeys[i]))
  {
  }

  /** On JSON objects the code as written and the corrected validator agree:
      same success, same reported key, same returned configuration. */
  lemma AsWrittenAgreesOnObjects(fields: map<string, Json>)
    ensures ValidateAsWritten(JObject(fields)).Success? <==> Validate(JObject(fields)).Success?
    ensures ValidateAsWritten(JObject(fields)).Failure? ==>
              ValidateAsWritten(JObject(fields)).error == Validate(JObject(fields)).error
    ensures ValidateAsWritten(JObject(fields)).Success? ==>
              ValidateAsWritten(JObject(fields)).value == JObject(Validate(JObject(fields)).value)
  {
  }

  /** The discrepancy: a JSON list of the six key names (no credentials at
      all) passes the validation as written, because `in` on a list tests
      element membership; the corrected validator rejects it. */
  lemma AsWrittenAcceptsKeyList()
    ensures ValidateAsWritten(JArray(KeyNameList())).Success?
    ensures Validate(JArray(KeyNameList())) == Failure(NotAnObject)
  {
    var config := JArray(KeyNameList());
    forall j | 0 <= j < |RequiredKeys|
      ensures PyIn(RequiredKeys[j], config)
    {
      assert KeyNameList()[j] == JString(RequiredKeys[j]);
    }
  }

  /** The six key names as a JSON list of strings. */
  function KeyNameList(): seq<Json>
  {
    seq(|RequiredKeys|, j requires 0 <= j < |RequiredKeys| => JString(RequiredKeys[j]))
  }

  /** `config.get('post_on_startup', False)` read for truthiness: an absent
      option means no startup post; a present one posts exactly when its
      value is truthy in Python's sense. */
  function PostOnStartup(fields: map<string, Json>): (post: bool)
    ensures PostOnStartupKey !in fields ==> !post
    ensures PostOnStartupKey in fields ==> (post <==> Truthy(fields[PostOnStartupKey]))
  {
    Truthy(Get(fields, PostOnStartupKey, JBool(false)))
  }

  /** A boolean option is taken at face value; the string "false", being a
      non-empty string, still requests a startup post. */
  lemma PostOnStartupValues(fields: map<string, Json>, b: bool)
    ensures PostOnStartup(fields[PostOnStartupKey := JBool(b)]) == b
    ensures PostOnStartup(fields[PostOnStartupKey := JString("false")])
    ensures !PostOnStartup(fields - {PostOnStartupKey})
  {
  }
}
