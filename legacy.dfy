/**
 * The older single-route relay of app.py: one fixed model, one instruction
 * template, extraction by walking `candidates[0].content.parts[0].text`
 * inside a `try` that catches KeyError and IndexError only, and the found
 * value returned exactly as received. The upstream call and its `.json()`
 * sit outside the `try`, so their failures escape the handler.
 */
module LegacyRelay {
  import opened Json
  import opened Wrappers
  import opened PyOps
  import opened Gemini
  import Relay
  import Templates

  /** The only model this relay ever calls. */
  const LegacyModel := "gemini-1.5-flash-latest"

  /** The text before the prompt; nothing follows it. */
  const Preamble := "Rewrite this prompt to be more effective for AI assistance:\n\n"

  /** The route's single response key. */
  const ResponseKey := "improved_prompt"

  /** The sentence served when the path is missing. */
  const Fallback := "Sorry, could not improve prompt."

  /** The text part: the preamble, then the prompt, spliced in once. */
  function LegacyInstruction(prompt: string): (t: string)
    ensures |t| == |Preamble| + |prompt|
    ensures t[..|Preamble|] == Preamble
    ensures t[|Preamble|..] == prompt
  {
    Preamble + prompt
  }

  /** The request body; an absent prompt counts as the empty string. */
  function LegacyPayload(prompt: Option<string>): (p: Payload)
    ensures |p.contents| == 1
    ensures p.contents[0].role == Some("user")
    ensures p.contents[0].parts == [Text(LegacyInstruction(prompt.GetOr("")))]
  {
    Payload([Content(Some("user"), [Text(LegacyInstruction(prompt.GetOr("")))])])
  }

  /** The POST the handler issues: the URL names the fixed model whatever
      the prompt, and the body reads back as the payload. */
  function LegacyPrepare(prompt: Option<string>, apiKey: string): (c: Call)
    ensures c.url == EndpointUrl(LegacyModel, apiKey)
    ensures DecodePayload(c.body) == Some(LegacyPayload(prompt))
  {
    var p := LegacyPayload(prompt);
    PayloadRoundTrip(p);
    Call(EndpointUrl(LegacyModel, apiKey), PayloadJson(p))
  }

  /**
   * The walk down `candidates`, its first element, `content`, `parts`, its
   * first element and `text`, with Python's subscript semantics at each
   * step. There are no guards, so a missing key is KeyError, an empty list
   * IndexError, and a value of the wrong type TypeError (or KeyError for
   * `[0]` on a dict).
   */
  function LegacyExtract(result: Json): (r: Py<Json>)
    ensures Relay.PathText(result).Some? ==> r == Ok(JStr(Relay.PathText(result).value))
    ensures Relay.WellShaped(result) && Relay.PathText(result).None? ==> r == Raise(KeyError) || r == Raise(IndexError)
  {
    var candidates :- GetItem(result, "candidates");
    var candidate :- GetFirst(candidates);
    var content :- GetItem(candidate, "content");
    var parts :- GetItem(content, "parts");
    var first :- GetFirst(parts);
    GetItem(first, "text")
  }

  /** The JSON response: the value under the one key, passed through whatever
      JSON type it has. */
  function LegacyReply(value: Json): (j: Json)
    ensures j.JObj? && j.fields.Keys == {ResponseKey} && j.fields[ResponseKey] == value
  {
    JObj(map[ResponseKey := value])
  }

  /** What the route answers once the upstream call has returned `up`. */
  function LegacyRespond(up: Upstream): (out: Outcome)
    // a response always has exactly the one key
    ensures out.Served? ==> out.response.JObj? && out.response.fields.Keys == {ResponseKey}
    // transport failure is not caught
    ensures up == TransportFailure ==> out == Unhandled
    // a text at the documented path: that text, verbatim
    ensures up.Body? && Relay.PathText(up.reply).Some? ==>
      out == Served(LegacyReply(JStr(Relay.PathText(up.reply).value)))
    // a documented reply without the text: the fallback
    ensures up.Body? && Relay.WellShaped(up.reply) && Relay.PathText(up.reply).None? ==>
      out == Served(LegacyReply(JStr(Fallback)))
  {
    match up
    case TransportFailure => Unhandled
    case Body(result) =>
      match LegacyExtract(result)
      case Ok(v) => Served(LegacyReply(v))
      case Raise(e) => if Relay.Caught(e) then Served(LegacyReply(JStr(Fallback))) else Unhandled
  }

  /** One request to the legacy route; `send` is the network. */
  function LegacyHandle(prompt: Option<string>, apiKey: string, send: Call -> Upstream): (out: Outcome)
    // a response always has exactly the one key
    ensures out.Served? ==> out.response.JObj? && out.response.fields.Keys == {ResponseKey}
    // transport failure is not caught
    ensures send(LegacyPrepare(prompt, apiKey)) == TransportFailure ==> out == Unhandled
    // a text at the documented path: that text, verbatim
    ensures var up := send(LegacyPrepare(prompt, apiKey));
      up.Body? && Relay.PathText(up.reply).Some? ==>
      out == Served(LegacyReply(JStr(Relay.PathText(up.reply).value)))
    // a documented reply without the text: the fallback
    ensures var up := send(LegacyPrepare(prompt, apiKey));
      up.Body? && Relay.WellShaped(up.reply) && Relay.PathText(up.reply).None? ==>
      out == Served(LegacyReply(JStr(Fallback)))
  {
    LegacyRespond(send(LegacyPrepare(prompt, apiKey)))
  }

  // ---------------------------------------------------------------------------
  // The legacy route next to /rewrite of the newer relay

  /** Same key and same fallback sentence as the newer /rewrite route. */
  lemma SameKeyAndFallbackAsRewrite()
    ensures ResponseKey == Relay.ResponseKey(Templates.Rewrite)
    ensures Fallback == Relay.Fallback(Templates.Rewrite)
  {
  }

  /** The model never depends on the prompt, and is neither model of the
      newer relay. */
  lemma ModelIsFixed(p1: Option<string>, p2: Option<string>, apiKey: string)
    ensures LegacyPrepare(p1, apiKey).url == LegacyPrepare(p2, apiKey).url
    ensures LegacyPrepare(p1, apiKey).url != EndpointUrl(Relay.MultimodalModel, apiKey)
    ensures LegacyPrepare(p1, apiKey).url != EndpointUrl(Relay.TextModel, apiKey)
  {
    if LegacyPrepare(p1, apiKey).url == EndpointUrl(Relay.MultimodalModel, apiKey) {
      EndpointUrlInjective(LegacyModel, apiKey, Relay.MultimodalModel, apiKey);
    }
    if LegacyPrepare(p1, apiKey).url == EndpointUrl(Relay.TextModel, apiKey) {
      EndpointUrlInjective(LegacyModel, apiKey, Relay.TextModel, apiKey);
    }
  }

  /** The upstream text is served as received: the reply that the newer
      /rewrite route cleans to one line keeps its newline and double space. */
  lemma KeepsWhitespace()
    ensures LegacyRespond(Body(Relay.TextReply("Write\na  detailed poem")))
         == Served(LegacyReply(JStr("Write\na  detailed poem")))
    ensures Relay.Respond(Templates.Rewrite, Body(Relay.TextReply("Write\na  detailed poem")))
         == Served(Relay.Reply(Templates.Rewrite, "Write a detailed poem"))
  {
    Relay.RewriteSample();
  }

  /** A `text` of another JSON type is passed to the client unchanged,
      where the newer relay fails on `.replace`. */
  lemma PassesNonStringText()
    ensures LegacyRespond(Body(Relay.OnePart(JObj(map["text" := JNum(7)])))) == Served(LegacyReply(JNum(7)))
    ensures Relay.Respond(Templates.Rewrite, Body(Relay.OnePart(JObj(map["text" := JNum(7)])))) == Unhandled
  {
    var part := JObj(map["text" := JNum(7)]);
    var parts := JObj(map["parts" := JArr([part])]);
    var cand := JObj(map["content" := parts]);
    assert Relay.OnePart(part).fields["candidates"] == JArr([cand]);
    assert LegacyExtract(Relay.OnePart(part)) == Ok(JNum(7));
    Relay.NonStringTextEscapes(Templates.Rewrite);
  }

  /** An empty candidate list raises IndexError, which is caught. */
  lemma EmptyCandidatesFallBack()
    ensures LegacyRespond(Body(JObj(map["candidates" := JArr([])]))) == Served(LegacyReply(JStr(Fallback)))
  {
    assert LegacyExtract(JObj(map["candidates" := JArr([])])) == Raise(IndexError);
  }

  /** A top-level list makes the first subscript raise TypeError, which
      escapes the handler. */
  lemma ListReplyEscapes()
    ensures LegacyRespond(Body(JArr([]))) == Unhandled
  {
    assert LegacyExtract(JArr([])) == Raise(TypeError);
  }
}
