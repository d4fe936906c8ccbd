/** Turning the text generator's HTTP response into an optional statement
    (`generate_random_statement`, twitter_bot.py:84-140). The request itself,
    the random prompt choice and the model parameters are not modelled: the
    response enters as a parameter. */
module Generation {
  import opened Wrappers
  import opened Json
  import opened Text

  /** What `requests.post(...)` produced. `TransportError` stands for a raised
      exception (connection failure, the 30-second timeout). A `Received`
      body is `None` when `response.json()` would raise. */
  datatype Response =
    | TransportError
    | Received(status: int, body: Option<Json>)

  /** The HTTP status that counts as success. */
  const StatusOk: int := 200

  /** `result['choices'][0]['message']['content']`, followed by the `strip()`
      that only a string has. Every other shape makes Python raise (a missing
      key, an empty list, an index or key into the wrong type, `strip` on a
      non-string), which the surrounding `except` turns into `None`. */
  function ExtractContent(body: Json): (r: Option<string>)
    ensures !body.JObject? ==> r.None?
    ensures body.JObject? && "choices" !in body.fields ==> r.None?
  {
    if !body.JObject? || "choices" !in body.fields then None
    else
      var choices := body.fields["choices"];
      if !choices.JArray? || |choices.items| == 0 then None
      else
        var choice := choices.items[0];
        if !choice.JObject? || "message" !in choice.fields then None
        else
          var message := choice.fields["message"];
          if !message.JObject? || "content" !in message.fields then None
          else
            var content := message.fields["content"];
            if content.JString? then Some(content.s) else None
  }

  /** A chat-completion body carrying `content` as the first choice's message,
      with any other fields around it. */
  function CompletionBody(content: string, top: map<string, Json>, choice: map<string, Json>,
                          message: map<string, Json>, others: seq<Json>): Json
  {
    var msg := JObject(message["content" := JString(content)]);
    var first := JObject(choice["message" := msg]);
    JObject(top["choices" := JArray([first] + others)])
  }

  /** Extraction reads back the content of any well-shaped completion body,
      whatever extra fields or further choices it carries. */
  lemma ExtractCompletionBody(content: string, top: map<string, Json>, choice: map<string, Json>,
                              message: map<string, Json>, others: seq<Json>)
    ensures ExtractContent(CompletionBody(content, top, choice, message, others)) == Some(content)
  {
  }

  /** Extraction finds content only in a well-shaped completion body: any body
      it accepts is, up to its other fields, the one `CompletionBody` builds. */
  lemma ExtractContentShape(body: Json, content: string)
    requires ExtractContent(body) == Some(content)
    ensures exists top, choice, message, others ::
              body == CompletionBody(content, top, choice, message, others)
  {
    var top := body.fields;
    var choices := top["choices"].items;
    var choice := choices[0].fields;
    var message := choice["message"].fields;
    assert message["content" := JString(content)] == message;
    assert choice["message" := JObject(message)] == choice;
    assert [choices[0]] + choices[1..] == choices;
    assert top["choices" := JArray(choices)] == top;
    assert body == CompletionBody(content, top, choice, message, choices[1..]);
  }

  /** The statement `generate_random_statement` returns: `None` on a
      transport error, on any status other than 200 and on a body without
      string content; otherwise the stripped content cut to the limit, which
      is never longer than 280 characters and has no surrounding
      whitespace. */
  function GenerateStatement(resp: Response): (r: Option<string>)
    ensures resp.TransportError? ==> r.None?
    ensures resp.Received? && resp.status != StatusOk ==> r.None?
    ensures r.Some? <==> resp.Received? && resp.status == StatusOk && resp.body.Some?
                         && ExtractContent(resp.body.value).Some?
    ensures r.Some? ==> r.value == Truncate(Strip(ExtractContent(resp.body.value).value))
    ensures r.Some? ==> |r.value| <= MaxTweetLength && IsStripped(r.value)
  {
    match resp
    case TransportError => None
    case Received(status, body) =>
      if status != StatusOk then None
      else if body.None? then None
      else match ExtractContent(body.value)
        case None => None
        case Some(content) =>
          var statement := Strip(content);
          TruncatePreservesStripped(statement);
          Some(Truncate(statement))
  }
}
