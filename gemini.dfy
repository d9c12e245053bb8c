/**
 * The wire format of the upstream `generateContent` call: the request body
 * (`contents` → `parts` → text or `inlineData`), its JSON encoding with a
 * decoder that reads it back, the endpoint URL, and the abstract result of
 * the network call.
 */
module Gemini {
  import opened Json
  import opened Wrappers

  /** One entry of a `parts` list. */
  datatype Part =
    | Text(text: string)
    | InlineData(mimeType: string, data: string)

  /** One entry of `contents`; the `role` key is present only when role is Some. */
  datatype Content = Content(role: Option<string>, parts: seq<Part>)

  /** The whole request body. */
  datatype Payload = Payload(contents: seq<Content>)

  // ---------------------------------------------------------------------------
  // Encoding (the dict literals the handlers build)

  function PartJson(p: Part): Json {
    match p
    case Text(t) => JObj(map["text" := JStr(t)])
    case InlineData(m, d) => JObj(map["inlineData" := JObj(map["mimeType" := JStr(m), "data" := JStr(d)])])
  }

  function PartsJson(ps: seq<Part>): (js: seq<Json>)
    ensures |js| == |ps|
  {
    if ps == [] then [] else [PartJson(ps[0])] + PartsJson(ps[1..])
  }

  function ContentJson(c: Content): Json {
    match c.role
    case None => JObj(map["parts" := JArr(PartsJson(c.parts))])
    case Some(r) => JObj(map["role" := JStr(r), "parts" := JArr(PartsJson(c.parts))])
  }

  function ContentsJson(cs: seq<Content>): (js: seq<Json>)
    ensures |js| == |cs|
  {
    if cs == [] then [] else [ContentJson(cs[0])] + ContentsJson(cs[1..])
  }

  /** The request body: one key, `contents`, holding one entry per content. */
  function PayloadJson(p: Payload): (j: Json)
    ensures j.JObj? && j.fields.Keys == {"contents"}
    ensures j.fields["contents"].JArr? && |j.fields["contents"].items| == |p.contents|
  {
    JObj(map["contents" := JArr(ContentsJson(p.contents))])
  }

  // ---------------------------------------------------------------------------
  // Decoding (how the upstream reads a request body)

  function DecodePart(j: Json): Option<Part> {
    match j
    case JObj(m) =>
      if m.Keys == {"text"} && m["text"].JStr? then Some(Text(m["text"].s))
      else if m.Keys == {"inlineData"} && m["inlineData"].JObj? then
        var d := m["inlineData"].fields;
        if d.Keys == {"mimeType", "data"} && d["mimeType"].JStr? && d["data"].JStr?
        then Some(InlineData(d["mimeType"].s, d["data"].s))
        else None
      else None
    case _ => None
  }

  function DecodeParts(js: seq<Json>): Option<seq<Part>> {
    if js == [] then Some([])
    else match (DecodePart(js[0]), DecodeParts(js[1..]))
      case (Some(p), Some(ps)) => Some([p] + ps)
      case _ => None
  }

  function DecodeContent(j: Json): Option<Content> {
    if !j.JObj? || "parts" !in j.fields || !j.fields["parts"].JArr? then None
    else
      var m := j.fields;
      var role :=
        if m.Keys == {"parts"} then Some(None)
        else if m.Keys == {"role", "parts"} && m["role"].JStr? then Some(Some(m["role"].s))
        else None;
      match (role, DecodeParts(m["parts"].items))
      case (Some(r), Some(ps)) => Some(Content(r, ps))
      case _ => None
  }

  function DecodeContents(js: seq<Json>): Option<seq<Content>> {
    if js == [] then Some([])
    else match (DecodeContent(js[0]), DecodeContents(js[1..]))
      case (Some(c), Some(cs)) => Some([c] + cs)
      case _ => None
  }

  function DecodePayload(j: Json): Option<Payload> {
    match j
    case JObj(m) =>
      if m.Keys == {"contents"} && m["contents"].JArr? then
        match DecodeContents(m["contents"].items)
        case Some(cs) => Some(Payload(cs))
        case None => None
      else None
    case _ => None
  }

  /** The JSON body the handlers send is read back as the payload they built. */
  lemma PayloadRoundTrip(p: Payload)
    ensures DecodePayload(PayloadJson(p)) == Some(p)
  {
    ContentsRoundTrip(p.contents);
  }

  lemma {:induction false} ContentsRoundTrip(cs: seq<Content>)
    ensures DecodeContents(ContentsJson(cs)) == Some(cs)
  {
    if cs != [] {
      ContentRoundTrip(cs[0]);
      ContentsRoundTrip(cs[1..]);
      assert ContentsJson(cs)[1..] == ContentsJson(cs[1..]);
      assert [cs[0]] + cs[1..] == cs;
    }
  }

  lemma ContentRoundTrip(c: Content)
    ensures DecodeContent(ContentJson(c)) == Some(c)
  {
    PartsRoundTrip(c.parts);
    match c.role
    case None =>
      assert map["parts" := JArr(PartsJson(c.parts))].Keys == {"parts"};
    case Some(r) =>
      assert map["role" := JStr(r), "parts" := JArr(PartsJson(c.parts))].Keys == {"role", "parts"};
  }

  lemma {:induction false} PartsRoundTrip(ps: seq<Part>)
    ensures DecodeParts(PartsJson(ps)) == Some(ps)
  {
    if ps != [] {
      PartRoundTrip(ps[0]);
      PartsRoundTrip(ps[1..]);
      assert PartsJson(ps)[1..] == PartsJson(ps[1..]);
      assert [ps[0]] + ps[1..] == ps;
    }
  }

  lemma PartRoundTrip(p: Part)
    ensures DecodePart(PartJson(p)) == Some(p)
  {
    match p
    case Text(t) =>
      assert map["text" := JStr(t)].Keys == {"text"};
    case InlineData(m, d) =>
      assert map["inlineData" := JObj(map["mimeType" := JStr(m), "data" := JStr(d)])].Keys == {"inlineData"};
      assert map["mimeType" := JStr(m), "data" := JStr(d)].Keys == {"mimeType", "data"};
  }

  // ---------------------------------------------------------------------------
  // The endpoint

  const ApiBase := "https://generativelanguage.googleapis.com/v1beta/models/"
  const Method := ":generateContent?key="

  /** `{base}/models/{model}:generateContent?key={key}` */
  function EndpointUrl(model: string, apiKey: string): string {
    ApiBase + model + Method + apiKey
  }

  /** For model names without ':' (all the relay uses), the URL names exactly
      one model and one key. */
  lemma EndpointUrlInjective(m1: string, k1: string, m2: string, k2: string)
    requires ':' !in m1 && ':' !in m2
    requires EndpointUrl(m1, k1) == EndpointUrl(m2, k2)
    ensures m1 == m2 && k1 == k2
  {
    var u1, u2 := EndpointUrl(m1, k1), EndpointUrl(m2, k2);
    var b := |ApiBase|;
    if |m1| < |m2| {
      UrlCharAfterModel(m1, k1, m2, k2);
      assert false;
    } else if |m2| < |m1| {
      UrlCharAfterModel(m2, k2, m1, k1);
      assert false;
    }
    assert m1 == u1[b..b + |m1|] == u2[b..b + |m2|] == m2;
    assert k1 == u1[b + |m1| + |Method|..] == u2[b + |m2| + |Method|..] == k2;
  }

  /** Where the shorter model name ends, its URL has ':' and the other URL a
      character of the longer name. */
  lemma UrlCharAfterModel(m1: string, k1: string, m2: string, k2: string)
    requires |m1| < |m2|
    ensures EndpointUrl(m1, k1)[|ApiBase| + |m1|] == ':'
    ensures EndpointUrl(m2, k2)[|ApiBase| + |m1|] == m2[|m1|]
  {
  }

  /** The request a handler issues: POST url with this JSON body. */
  datatype Call = Call(url: string, body: Json)

  /** What came back from `requests.post(...).json()`: a decoded body, or a
      raised transport-level exception (connection failure, timeout, or a
      body that is not JSON). */
  datatype Upstream = TransportFailure | Body(reply: Json)

  /** What the Flask route produces: a JSON response, or an exception that
      escaped the handler (Flask turns it into an HTTP 500 error page). */
  datatype Outcome = Served(response: Json) | Unhandled
}
