/**
 * The four relay routes of api/app.py (/rewrite, /concise, /detailed,
 * /math) as one pipeline parameterised by the intent: pick the model by
 * modality, build the payload, post it, pull
 * `candidates[0].content.parts[0].text` out of the reply, clean it, and fall
 * back to the intent's fixed sentence when anything is missing or the call
 * fails.
 */
module Relay {
  import opened Json
  import opened Wrappers
  import opened PyOps
  import opened Gemini
  import opened Whitespace
  import opened Templates

  const MultimodalModel := "gemini-2.5-flash-preview-05-20"
  const TextModel := "gemma-3-27b-it"

  /** An uploaded `image` file: its MIME type and its raw bytes. */
  datatype Upload = Upload(mimeType: string, bytes: seq<bv8>)

  /** An inbound request: a multipart form with an `image` file, or (when
      there is no image) a JSON body. In both, `prompt` may be absent. */
  datatype Request = Request(prompt: Option<string>, image: Option<Upload>)

  function ModalityOf(req: Request): Modality {
    if req.image.Some? then WithImage else TextOnly
  }

  /** The prompt of the form or of the JSON body; an absent one counts as the
      empty string. */
  function PromptOf(req: Request): string {
    req.prompt.GetOr("")
  }

  /** The model is chosen by modality alone. */
  function ModelFor(req: Request): (model: string)
    ensures model == MultimodalModel <==> req.image.Some?
    ensures model == TextModel <==> req.image.None?
    ensures ':' !in model
  {
    if req.image.Some? then MultimodalModel else TextModel
  }

  /** The request body. `encode` stands for `base64.b64encode(...).decode('utf-8')`. */
  function BuildPayload(intent: Intent, req: Request, encode: seq<bv8> -> string): (p: Payload)
    ensures |p.contents| == 1
    ensures p.contents[0].role == (if req.image.Some? then None else Some("user"))
    ensures |p.contents[0].parts| == (if req.image.Some? then 2 else 1)
    ensures p.contents[0].parts[0] == Text(Instruction(intent, ModalityOf(req), PromptOf(req)))
    ensures req.image.Some? ==>
      p.contents[0].parts[1] == InlineData(req.image.value.mimeType, encode(req.image.value.bytes))
  {
    var text := Text(Instruction(intent, ModalityOf(req), PromptOf(req)));
    match req.image
    case Some(img) => Payload([Content(None, [text, InlineData(img.mimeType, encode(img.bytes))])])
    case None => Payload([Content(Some("user"), [text])])
  }

  /** The POST the handler issues. */
  function Prepare(intent: Intent, req: Request, apiKey: string, encode: seq<bv8> -> string): (c: Call)
    ensures c.url == EndpointUrl(ModelFor(req), apiKey)
    ensures DecodePayload(c.body) == Some(BuildPayload(intent, req, encode))
  {
    var p := BuildPayload(intent, req, encode);
    PayloadRoundTrip(p);
    Call(EndpointUrl(ModelFor(req), apiKey), PayloadJson(p))
  }

  /** The single key of each route's JSON response: `improved_prompt` for
      /rewrite, and a name ending in `_reply` for the other three. */
  function ResponseKey(intent: Intent): (k: string)
    ensures k == "improved_prompt" <==> intent == Rewrite
    ensures intent != Rewrite ==> |k| > 6 && k[|k| - 6..] == "_reply"
  {
    match intent
    case Rewrite => "improved_prompt"
    case Concise => "concise_reply"
    case Detailed => "detailed_reply"
    case Math => "math_reply"
  }

  /** The sentence each route answers with when it has no reply: an apology
      that starts "Sorry, could not " and ends with a full stop. */
  function Fallback(intent: Intent): (f: string)
    ensures |f| > 17 && f[..17] == "Sorry, could not " && f[|f| - 1] == '.'
  {
    match intent
    case Rewrite => "Sorry, could not improve prompt."
    case Concise => "Sorry, could not generate a concise reply."
    case Detailed => "Sorry, could not generate a detailed reply."
    case Math => "Sorry, could not generate a math-focused prompt."
  }

  /** The JSON response: the value under the route's one key. */
  function Reply(intent: Intent, value: string): (j: Json)
    ensures j.JObj? && j.fields.Keys == {ResponseKey(intent)} && j.fields[ResponseKey(intent)] == JStr(value)
  {
    JObj(map[ResponseKey(intent) := JStr(value)])
  }

  // ---------------------------------------------------------------------------
  // Reading the upstream reply

  /** Reference: the text at `candidates[0].content.parts[0].text` when every
      step of that path has the documented type and is present. */
  function PathText(j: Json): Option<string> {
    if j.JObj? && "candidates" in j.fields then
      var cands := j.fields["candidates"];
      if cands.JArr? && cands.items != [] && cands.items[0].JObj? && "content" in cands.items[0].fields then
        var content := cands.items[0].fields["content"];
        if content.JObj? && "parts" in content.fields then
          var parts := content.fields["parts"];
          if parts.JArr? && parts.items != [] && parts.items[0].JObj? && "text" in parts.items[0].fields
             && parts.items[0].fields["text"].JStr?
          then Some(parts.items[0].fields["text"].s)
          else None
        else None
      else None
    else None
  }

  /** The documented reply shape, where any key may be missing and any list
      may be empty, but nothing present has another type. */
  predicate WellShaped(j: Json) {
    && j.JObj?
    && ("candidates" in j.fields ==>
      var cands := j.fields["candidates"];
      && cands.JArr?
      && (cands.items != [] ==>
        && cands.items[0].JObj?
        && ("content" in cands.items[0].fields ==>
          var content := cands.items[0].fields["content"];
          && content.JObj?
          && ("parts" in content.fields ==>
            var parts := content.fields["parts"];
            && parts.JArr?
            && (parts.items != [] ==>
              && parts.items[0].JObj?
              && ("text" in parts.items[0].fields ==> parts.items[0].fields["text"].JStr?))))))
  }

  /**
   * The extraction inside the handlers' `try` block, with Python's own
   * semantics for each `in`, `len` and subscript: Ok(Some(text)) when the
   * text was found and is a str, Ok(None) when a guard was false (the
   * fallback stays), Raise(e) when an operation raised. The length guards
   * come before every `[0]`, so IndexError never arises; a part without
   * `text` raises KeyError.
   */
  function Extract(result: Json): (r: Py<Option<string>>)
    ensures r == Ok(PathText(result)) || r.Raise?
    ensures PathText(result).Some? ==> r == Ok(PathText(result))
    ensures WellShaped(result) ==> r == Ok(PathText(result)) || r == Raise(KeyError)
    ensures r != Raise(IndexError)
  {
    var hasCandidates :- Contains(result, "candidates");
    if !hasCandidates then Ok(None) else
    var candidates :- GetItem(result, "candidates");
    var n :- Len(candidates);
    if n == 0 then Ok(None) else
    var candidate :- GetFirst(candidates);
    var hasContent :- Contains(candidate, "content");
    if !hasContent then Ok(None) else
    var content :- GetItem(candidate, "content");
    var hasParts :- Contains(content, "parts");
    if !hasParts then Ok(None) else
    var parts :- GetItem(content, "parts");
    var m :- Len(parts);
    if m == 0 then Ok(None) else
    var first :- GetFirst(parts);
    var text :- GetItem(first, "text");
    // `.replace` exists on str only
    if text.JStr? then Ok(Some(text.s)) else Raise(AttributeError)
  }

  /** The `except (KeyError, IndexError, RequestException)` clause. */
  predicate Caught(e: PyError) {
    e == KeyError || e == IndexError
  }

  /** What the route answers once the upstream call has returned `up`. */
  function Respond(intent: Intent, up: Upstream): (out: Outcome)
    // a response always has exactly the intent's key, holding a string
    ensures out.Served? ==>
      && out.response.JObj?
      && out.response.fields.Keys == {ResponseKey(intent)}
      && out.response.fields[ResponseKey(intent)].JStr?
    // transport failure: the fallback, verbatim
    ensures up == TransportFailure ==> out == Served(Reply(intent, Fallback(intent)))
    // a text at the documented path: that text, cleaned
    ensures up.Body? && PathText(up.reply).Some? ==>
      out == Served(Reply(intent, Normalize(PathText(up.reply).value)))
    // a documented reply without the text: the fallback
    ensures up.Body? && WellShaped(up.reply) && PathText(up.reply).None? ==>
      out == Served(Reply(intent, Fallback(intent)))
    // only a reply of another shape can make the handler raise
    ensures out.Unhandled? ==> up.Body? && !WellShaped(up.reply)
  {
    match up
    case TransportFailure => Served(Reply(intent, Fallback(intent)))
    case Body(result) =>
      match Extract(result)
      case Ok(Some(text)) => Served(Reply(intent, Normalize(text)))
      case Ok(None) => Served(Reply(intent, Fallback(intent)))
      case Raise(e) => if Caught(e) then Served(Reply(intent, Fallback(intent))) else Unhandled
  }

  /**
   * One request to one route. `send` is the network: it maps the call the
   * handler issues to what `requests.post(...).json()` produced.
   */
  function Handle(intent: Intent, req: Request, apiKey: string, encode: seq<bv8> -> string,
                  send: Call -> Upstream): (out: Outcome)
    // a response always has exactly the intent's key, holding a string
    ensures out.Served? ==>
      && out.response.JObj?
      && out.response.fields.Keys == {ResponseKey(intent)}
      && out.response.fields[ResponseKey(intent)].JStr?
    // transport failure: the fallback, verbatim
    ensures send(Prepare(intent, req, apiKey, encode)) == TransportFailure ==>
      out == Served(Reply(intent, Fallback(intent)))
    // a text at the documented path: that text, cleaned
    ensures var up := send(Prepare(intent, req, apiKey, encode));
      up.Body? && PathText(up.reply).Some? ==>
      out == Served(Reply(intent, Normalize(PathText(up.reply).value)))
    // a documented reply without the text: the fallback
    ensures var up := send(Prepare(intent, req, apiKey, encode));
      up.Body? && WellShaped(up.reply) && PathText(up.reply).None? ==>
      out == Served(Reply(intent, Fallback(intent)))
    // only a reply of another shape can make the handler raise
    ensures out.Unhandled? ==>
      var up := send(Prepare(intent, req, apiKey, encode));
      up.Body? && !WellShaped(up.reply)
  {
    Respond(intent, send(Prepare(intent, req, apiKey, encode)))
  }

  // ---------------------------------------------------------------------------
  // Properties across intents

  /** The model, and so the URL, depend on the modality and not on the intent. */
  lemma ModelIndependentOfIntent(i1: Intent, i2: Intent, req: Request, apiKey: string, encode: seq<bv8> -> string)
    ensures Prepare(i1, req, apiKey, encode).url == Prepare(i2, req, apiKey, encode).url
  {
  }

  /** The URL names the multimodal model exactly when an image was uploaded. */
  lemma UrlNamesModel(intent: Intent, req: Request, apiKey: string, encode: seq<bv8> -> string)
    ensures Prepare(intent, req, apiKey, encode).url == EndpointUrl(MultimodalModel, apiKey) <==> req.image.Some?
    ensures Prepare(intent, req, apiKey, encode).url == EndpointUrl(TextModel, apiKey) <==> req.image.None?
  {
    var url := Prepare(intent, req, apiKey, encode).url;
    if url == EndpointUrl(MultimodalModel, apiKey) {
      EndpointUrlInjective(ModelFor(req), apiKey, MultimodalModel, apiKey);
    }
    if url == EndpointUrl(TextModel, apiKey) {
      EndpointUrlInjective(ModelFor(req), apiKey, TextModel, apiKey);
    }
  }

  /** The four routes answer under four different keys. */
  lemma ResponseKeysDistinct(i1: Intent, i2: Intent)
    ensures ResponseKey(i1) == ResponseKey(i2) <==> i1 == i2
  {
  }

  /** The four fallback sentences are different. */
  lemma FallbacksDistinct(i1: Intent, i2: Intent)
    ensures Fallback(i1) == Fallback(i2) <==> i1 == i2
  {
  }

  /** The same upstream text reaches each route's client under that route's
      own key, so no two routes answer alike. */
  lemma RoutesAnswerDifferently(i1: Intent, i2: Intent, up: Upstream)
    requires i1 != i2
    ensures Respond(i1, up) != Respond(i2, up) || Respond(i1, up).Unhandled?
  {
    ResponseKeysDistinct(i1, i2);
    var r1, r2 := Respond(i1, up), Respond(i2, up);
    if r1.Served? && r2.Served? {
      assert ResponseKey(i1) in r1.response.fields.Keys;
      assert ResponseKey(i1) !in r2.response.fields.Keys;
    }
  }

  /** The client cannot tell a transport failure from a reply without text. */
  lemma FailuresLookAlike(intent: Intent, result: Json)
    requires WellShaped(result) && PathText(result).None?
    ensures Respond(intent, Body(result)) == Respond(intent, TransportFailure)
  {
  }

  // ---------------------------------------------------------------------------
  // Replies the upstream may give

  /** `{}`, `{"candidates": []}` and a candidate without `content` all fall back. */
  lemma EmptyRepliesFallBack(intent: Intent)
    ensures Respond(intent, Body(JObj(map[]))) == Served(Reply(intent, Fallback(intent)))
    ensures Respond(intent, Body(JObj(map["candidates" := JArr([])]))) == Served(Reply(intent, Fallback(intent)))
    ensures Respond(intent, Body(JObj(map["candidates" := JArr([JObj(map[])])]))) == Served(Reply(intent, Fallback(intent)))
  {
    assert WellShaped(JObj(map["candidates" := JArr([JObj(map[])])]));
  }

  /** The reply with one candidate whose content has the one part `part`. */
  function OnePart(part: Json): Json {
    JObj(map["candidates" := JArr([JObj(map["content" := JObj(map["parts" := JArr([part])])])])])
  }

  /** Extraction from a one-part reply comes down to the part's `text`. */
  lemma ExtractOnePart(part: Json)
    requires part.JObj?
    ensures "text" !in part.fields ==> Extract(OnePart(part)) == Raise(KeyError)
    ensures "text" in part.fields && !part.fields["text"].JStr? ==> Extract(OnePart(part)) == Raise(AttributeError)
  {
    ExtractToPart(part);
  }

  /** A part that is not a dict makes `["text"]` raise TypeError, which
      escapes the handler. */
  lemma NonDictPartEscapes(intent: Intent)
    ensures Respond(intent, Body(OnePart(JNum(1)))) == Unhandled
    ensures Respond(intent, Body(OnePart(JStr("text")))) == Unhandled
  {
    ExtractToPart(JNum(1));
    ExtractToPart(JStr("text"));
  }

  /** Every guard on the way down to the one part passes, and the part's
      `["text"]` decides. */
  lemma ExtractToPart(part: Json)
    ensures Extract(OnePart(part)) ==
      match GetItem(part, "text")
      case Raise(e) => Raise(e)
      case Ok(text) => if text.JStr? then Ok(Some(text.s)) else Raise(AttributeError)
  {
    var parts := JObj(map["parts" := JArr([part])]);
    var cand := JObj(map["content" := parts]);
    var cands := JArr([cand]);
    assert OnePart(part).fields["candidates"] == cands;
    assert GetFirst(cands) == Ok(cand);
    assert GetItem(cand, "content") == Ok(parts);
    assert GetItem(parts, "parts") == Ok(JArr([part]));
    assert GetFirst(JArr([part])) == Ok(part);
  }

  /** A part without `text` raises KeyError inside the `try`, which is caught. */
  lemma MissingTextFallsBack(intent: Intent)
    ensures Respond(intent, Body(OnePart(JObj(map["inlineData" := JNull]))))
         == Served(Reply(intent, Fallback(intent)))
  {
    ExtractOnePart(JObj(map["inlineData" := JNull]));
  }

  /** A `text` that is not a str makes `.replace` raise AttributeError, which
      no `except` clause names: the route fails instead of falling back. */
  lemma NonStringTextEscapes(intent: Intent)
    ensures Respond(intent, Body(OnePart(JObj(map["text" := JNum(7)])))) == Unhandled
  {
    ExtractOnePart(JObj(map["text" := JNum(7)]));
  }

  /** A top-level list answers `in` by membership, so a list without the
      string "candidates" falls back; a dict where the candidate list belongs
      makes `[0]` raise KeyError, which is caught. */
  lemma OtherShapesFallBack(intent: Intent)
    ensures Respond(intent, Body(JArr([]))) == Served(Reply(intent, Fallback(intent)))
    ensures Respond(intent, Body(JObj(map["candidates" := JObj(map[])])))
         == Served(Reply(intent, Fallback(intent)))
    ensures Respond(intent, Body(JObj(map["candidates" := JObj(map["x" := JNull])])))
         == Served(Reply(intent, Fallback(intent)))
  {
    assert Extract(JArr([])) == Ok(None);
    assert Extract(JObj(map["candidates" := JObj(map[])])) == Ok(None);
    assert Extract(JObj(map["candidates" := JObj(map["x" := JNull])])) == Raise(KeyError);
  }

  /** A list that holds the string "candidates" gets past `in` and meets a
      str subscript, and a reply that is not a container fails at `in`: both
      raise TypeError, which escapes the handler. */
  lemma OtherShapesEscape(intent: Intent)
    ensures Respond(intent, Body(JArr([JStr("candidates")]))) == Unhandled
    ensures Respond(intent, Body(JNull)) == Unhandled
    ensures Respond(intent, Body(JObj(map["candidates" := JArr([JObj(map["content" := JNull])])]))) == Unhandled
  {
    var cand := JObj(map["content" := JNull]);
    assert GetFirst(JArr([cand])) == Ok(cand);
    assert Extract(JObj(map["candidates" := JArr([cand])])) == Raise(TypeError);
    assert Extract(JArr([JStr("candidates")])) == Raise(TypeError);
    assert Extract(JNull) == Raise(TypeError);
  }

  /** The reply of a successful call: one candidate whose one part is `text`. */
  function TextReply(text: string): (j: Json)
    ensures WellShaped(j) && PathText(j) == Some(text)
  {
    JObj(map["candidates" := JArr([JObj(map["content" := JObj(map["parts" := JArr([JObj(map["text" := JStr(text)])])])])])])
  }

  /** A reply with a newline and a double space reaches the client as one
      clean line. */
  lemma RewriteSample()
    ensures Respond(Rewrite, Body(TextReply("Write\na  detailed poem")))
         == Served(Reply(Rewrite, "Write a detailed poem"))
  {
    NormalizeSample();
  }

  // ---------------------------------------------------------------------------
  // What the client receives

  /** Whatever a route serves, other than its fallback sentence, has the
      normal form: one line, single spaces, no surrounding whitespace, and the
      non-whitespace characters of the upstream text. */
  lemma ServedIsNormal(intent: Intent, result: Json)
    requires Respond(intent, Body(result)).Served?
    ensures var value := Respond(intent, Body(result)).response.fields[ResponseKey(intent)].s;
      value != Fallback(intent) ==>
        && IsNormal(value)
        && Extract(result).Ok?
        && Extract(result).value.Some?
        && NonSpaces(value) == NonSpaces(Extract(result).value.value)
  {
  }
}
