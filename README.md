# Promptly relay and content script — a Dafny model

Promptly rewrites a user's prompt for an AI assistant. A browser extension
sends the prompt, and optionally an image, to a small Flask relay. The relay
forwards an instruction built around the prompt to the Gemini
`generateContent` endpoint, pulls the first candidate's text out of the
reply, cleans it to one line and returns it under a route-specific key.
When no text comes back, the route returns a fixed fallback sentence. The
extension's content script then puts the returned text in place of the
selection in the focused text field.

This project models three parts of that system:

- **The four relay routes of `api/app.py`**: `/rewrite`, `/concise`,
  `/detailed` and `/math`. They are modelled as one pipeline parameterised by
  the `Intent`. The pipeline covers:
  - model choice by modality;
  - payload construction, with a JSON encoding and a decoder that reads it
    back;
  - the instruction templates, kept verbatim as prefix and suffix around the
    prompt;
  - the extraction of `candidates[0].content.parts[0].text`, with Python's own
    semantics for `in`, `len` and subscripts, so each exception is a value;
  - the whitespace normaliser;
  - the `except` clause, and the JSON response.

  The network is a parameter `send: Call -> Upstream`. A handler's result is
  either `Served(json)` or `Unhandled`. `Unhandled` is an exception that
  escapes the handler, which Flask answers with an error page.
- **The older single-route relay of `app.py`**. It uses one fixed model and one
  template. Extraction is a chain of subscripts inside a `try` that catches
  KeyError and IndexError only. The found value is returned verbatim, and the
  upstream call sits outside the `try`.
- **The content script `content.js`**, as classes:
  - the focused `Element`, with its value and selection;
  - the `Page`, holding the `loadingBadge` reference, the badges attached to
    the document, the scheduled fade-out callbacks and the alerts shown.

  The methods cover:
  - the duplicate-badge guard;
  - the deferred badge removal;
  - the INPUT/TEXTAREA splice with its caret update;
  - the message dispatch.

Modules and files:

| file | module | contents |
|---|---|---|
| wrappers.dfy | Wrappers | `Option` |
| json.dfy | Json | decoded JSON values |
| pyops.dfy | PyOps | Python's `in`, `len`, `x[key]` and `x[0]` on JSON, with the exceptions they raise |
| whitespace.dfy | Whitespace | the normaliser; a split-and-join reference definition; the proofs |
| gemini.dfy | Gemini | the request body, its encoding and decoding, the endpoint URL, and the upstream/outcome types |
| templates.dfy | Templates | the eight instruction templates |
| relay.dfy | Relay | the routes of `api/app.py` |
| legacy.dfy | LegacyRelay | the route of `app.py` |
| content.dfy | ContentScript | the content script |

## Model

| member | source | states |
|---|---|---|
| `PyOps.Contains` | api/app.py:92-94 | `key in x`: dict membership for a dict; TypeError exactly for None, numbers and booleans |
| `PyOps.Len` | api/app.py:92-94 | `len(x)`: the list length for a list; TypeError exactly for None, numbers and booleans |
| `PyOps.GetItem` | api/app.py:93-95 | `x[key]` succeeds exactly on a dict holding the key, with that key's value; KeyError exactly for a dict without it |
| `PyOps.GetFirst` | app.py:29 | `x[0]`: the head of a non-empty list; IndexError exactly for an empty list or str; KeyError for a dict |
| `Whitespace.ReplaceNewlines` | api/app.py:98 | `replace("\n", " ")`: same length, each newline becomes a space and every other character stays |
| `Whitespace.TrimStart` | api/app.py:98 | the left half of `strip()`: a suffix of the input; the dropped part is all whitespace; the result is empty or starts with non-whitespace |
| `Whitespace.TrimEnd` | api/app.py:98 | the right half of `strip()`: a prefix of the input; the dropped part is all whitespace; the result is empty or ends with non-whitespace |
| `Whitespace.Normalize` | api/app.py:98-99 | the cleaned reply contains no newline; has no leading or trailing whitespace; has no two whitespace characters in a row; has no whitespace but ' '; and keeps the input's non-whitespace characters in order |
| `Whitespace.NormalizeIsJoinOfWords` | api/app.py:98-99 | the normaliser equals the reference `" ".join(s.split())` on every input |
| `Whitespace.WordsOfNormalize` | api/app.py:98-99 | cleaning keeps the sequence of whitespace-separated words |
| `Whitespace.NormalizeIdempotent` | api/app.py:98-99 | cleaning twice equals cleaning once |
| `Whitespace.NormalizeFixesNormal` | api/app.py:98-99 | a text already in the normal form is left unchanged |
| `Whitespace.NormalizeIsNormal` | api/app.py:98-99 | the output has the normal form (single ' ' separators, no surrounding whitespace) |
| `Whitespace.NormalizeKeepsNonSpaces` | api/app.py:98-99 | the non-whitespace characters survive unchanged and in order |
| `Whitespace.NormalizeSample` | api/app.py:98-99 | "Write\na  detailed poem" becomes "Write a detailed poem" |
| `Whitespace.StripKeepsWords` | api/app.py:98 | `strip()` keeps the words of the text, leaves neither leading nor trailing whitespace, and leaves a text without either unchanged |
| `Whitespace.CollapseSpacesAreBlank` | api/app.py:99 | every whitespace character the `\s+` substitution leaves is a ' ' |
| `Whitespace.CollapseNoDoubleSpace` | api/app.py:99 | the substitution never leaves two whitespace characters in a row |
| `Whitespace.CollapseEnds` | api/app.py:99 | the substitution keeps a non-empty text non-empty, and keeps whether it starts, and whether it ends, with whitespace |
| `Whitespace.WordsOfCollapse` | api/app.py:99 | the substitution keeps the sequence of whitespace-separated words |
| `Gemini.PayloadJson` | api/app.py:50-76 | the request body is a dict with the single key `contents`, holding a list with one entry per content |
| `Gemini.PayloadRoundTrip` | api/app.py:50-76 | the JSON body sent upstream decodes back to the payload that was built |
| `Gemini.EndpointUrlInjective` | api/app.py:80 | for model names without ':', the URL determines the model and the key |
| `Templates.Suffix` | api/app.py:54-303 | the text after the prompt is empty for the text-only /rewrite instruction and for no other |
| `Templates.Instruction` | api/app.py:54-303 | the text part is the template's prefix, then the prompt exactly once, then the suffix; the prompt can be cut back out at known offsets |
| `Templates.InstructionInjective` | api/app.py:54-303 | different prompts give different instruction texts |
| `Templates.ForbidsFormattingExceptRewriteTextOnly` | api/app.py:54-303 | every instruction contains the no-formatting clause after the prompt except the text-only /rewrite one, whose text after the prompt is empty |
| `Templates.DetailedIgnoresModality` | api/app.py:208-228 | the text-only /detailed instruction is word for word the multimodal one, including the mention of an attached image |
| `Templates.MathPassesThroughNonMath` | api/app.py:283-303 | both /math instructions end by asking for a non-mathematical prompt to be returned as is |
| `Relay.ModelFor` | api/app.py:37-67 | the multimodal model exactly when an image is uploaded, the text model exactly when none is; neither name contains ':' |
| `Relay.BuildPayload` | api/app.py:50-76 | one `contents` entry; no role with an image, role "user" without one; parts are the instruction text, then (with an image only) `inlineData` carrying the file's MIME type and encoded bytes; a missing prompt counts as "" |
| `Relay.Prepare` | api/app.py:78-84 | the POST goes to the URL of the chosen model with the given key, and its body decodes to the built payload |
| `Relay.ResponseKey` | api/app.py:106-328 | /rewrite answers under `improved_prompt` and no other route does; the other three keys end in `_reply` |
| `Relay.Fallback` | api/app.py:34-263 | each fallback is an apology starting "Sorry, could not " and ending with a full stop |
| `Relay.Extract` | api/app.py:91-99 | the guarded path walk returns the text at `candidates[0].content.parts[0].text` whenever it is a string there; for a reply of the documented shape it returns that text, or nothing, or KeyError (part without `text`); it never raises IndexError |
| `Relay.Reply` | api/app.py:106 | the `jsonify` argument of each route: a dict with exactly the route's key, holding the value as a string |
| `Relay.Respond` | api/app.py:83-106 | given what the upstream call returned: the response has exactly the route's key, holding a string; transport failure gives the fallback verbatim; a text at the path gives that text cleaned; a documented reply without text gives the fallback; only a reply of another shape can make the route fail |
| `Relay.Handle` | api/app.py:34-106 | the response has exactly the route's key, holding a string; transport failure gives the fallback verbatim; a text at the path gives that text cleaned; a documented reply without text gives the fallback; only a reply of another shape can make the route fail |
| `Relay.ModelIndependentOfIntent` | api/app.py:117-122 | the four routes post to the same URL for the same request |
| `Relay.UrlNamesModel` | api/app.py:80 | the URL names the multimodal model exactly when an image was uploaded, and the text model exactly when not |
| `Relay.ResponseKeysDistinct` | api/app.py:106-328 | the four routes answer under four different keys |
| `Relay.FallbacksDistinct` | api/app.py:34-263 | the four fallback sentences are pairwise different |
| `Relay.RoutesAnswerDifferently` | api/app.py:106-328 | the same upstream reply never gives two routes the same served response |
| `Relay.FailuresLookAlike` | api/app.py:92-104 | a documented reply without text and a transport failure give the client the same response |
| `Relay.EmptyRepliesFallBack` | api/app.py:92-94 | `{}`, `{"candidates": []}` and a candidate without `content` all give the fallback |
| `Relay.MissingTextFallsBack` | api/app.py:95-100 | a first part without `text` raises KeyError inside the `try`, and the route answers with its fallback |
| `Relay.NonStringTextEscapes` | api/app.py:95-100 | a numeric `text` makes `.replace` raise AttributeError, which no `except` names, so the route fails |
| `Relay.ExtractOnePart` | api/app.py:92-100 | for a reply with one candidate and one part, a part without `text` gives KeyError and a `text` that is not a string gives AttributeError |
| `Relay.OtherShapesFallBack` | api/app.py:92-94 | a top-level list without the string "candidates", a non-empty dict in place of the candidate list (KeyError, caught) and an empty one (length test fails) all give the fallback |
| `Relay.OtherShapesEscape` | api/app.py:92-95 | a top-level list holding the string "candidates", a `null` reply and a `null` content all raise TypeError, which escapes the route |
| `Relay.ExtractToPart` | api/app.py:92-99 | for a reply with one candidate and one part, every guard passes and the outcome is that of the part's `["text"]` followed by `.replace` |
| `Relay.NonDictPartEscapes` | api/app.py:95-100 | a first part that is a number or a string makes `["text"]` raise TypeError, which escapes the route |
| `Relay.RewriteSample` | api/app.py:95-99 | /rewrite answers "Write a detailed poem" for the upstream text "Write\na  detailed poem" |
| `Relay.ServedIsNormal` | api/app.py:95-106 | a served value other than the fallback has the normal form and the non-whitespace characters of the extracted text |
| `LegacyRelay.LegacyInstruction` | app.py:21 | the text part is the fixed preamble followed by the prompt, which can be cut back out |
| `LegacyRelay.LegacyPayload` | app.py:14-23 | one `contents` entry with role "user" and a single text part; a missing prompt counts as "" |
| `LegacyRelay.LegacyPrepare` | app.py:16-25 | the URL always names `gemini-1.5-flash-latest`, and the body decodes to the payload |
| `LegacyRelay.LegacyExtract` | app.py:28-29 | the unguarded subscript chain yields the text whenever it is a string at the path; for a documented reply without the text it raises KeyError or IndexError |
| `LegacyRelay.LegacyReply` | app.py:33 | the `jsonify` argument: a dict with exactly the key `improved_prompt`, holding the found value of whatever JSON type |
| `LegacyRelay.LegacyRespond` | app.py:25-33 | given what the upstream call returned: the response has the single key `improved_prompt`; transport failure is not caught; a text at the path is returned verbatim; a documented reply without the text gives the fallback |
| `LegacyRelay.LegacyHandle` | app.py:25-33 | the response has the single key `improved_prompt`; transport failure is not caught; a text at the path is returned verbatim; a documented reply without the text gives the fallback |
| `LegacyRelay.SameKeyAndFallbackAsRewrite` | app.py:31-33 | the key and fallback sentence are those of the newer /rewrite route |
| `LegacyRelay.ModelIsFixed` | app.py:9-16 | the URL does not depend on the prompt, and names neither model of the newer relay |
| `LegacyRelay.KeepsWhitespace` | app.py:29-33 | the reply that /rewrite of the newer relay cleans to one line is served verbatim here |
| `LegacyRelay.PassesNonStringText` | app.py:29-33 | a numeric `text` is passed to the client unchanged, where the newer relay fails |
| `LegacyRelay.EmptyCandidatesFallBack` | app.py:28-31 | an empty candidate list raises IndexError, which is caught, so the route answers with the fallback |
| `LegacyRelay.ListReplyEscapes` | app.py:26-30 | a top-level list makes the first subscript raise TypeError, which escapes the handler |
| `ContentScript.Splice` | content.js:74-78 | the new value keeps everything before `start`, holds the replacement next, then everything from `end`; its length is the old length, less the selection, plus the replacement's |
| `ContentScript.SpliceUndo` | content.js:78 | splicing the old selection back over the inserted text restores the original value |
| `ContentScript.SpliceInserts` | content.js:78 | with an empty selection the replacement is a pure insertion: the old value is what surrounds it |
| `ContentScript.SpliceDeletes` | content.js:78 | with an empty replacement the selection is deleted and the rest kept |
| `ContentScript.Page.ReplaceSelectedText` | content.js:66-80 | exactly INPUT and TEXTAREA take the splice path; the value becomes the splice and both selection ends move to `start` plus the replacement's length; other elements are left unchanged |
| `ContentScript.Page.ShowLoadingIndicator` | content.js:19-23 | a badge is held and exactly one is attached afterwards; a held badge blocks a second one |
| `ContentScript.Page.RemoveLoadingIndicator` | content.js:52-55 | a held badge gets one fade-out callback scheduled and stays attached until it runs |
| `ContentScript.Page.FadeOutElapsed` | content.js:55-60 | when a fade-out callback runs, whatever badge is held is detached and released |
| `ContentScript.Page.OnMessage` | content.js:3-15 | "loading" shows the badge; "replace_text" schedules the removal, then splices; "error" schedules the removal, then records the alert; any other action changes nothing |
| `ContentScript.LoadingDuringFadeOut` | content.js:19-60 | a "loading" that arrives while the badge fades out is swallowed, and no badge is left once the fade-out ends |
| `ContentScript.ReplaceInInput` | content.js:3-15 | a "replace_text" with "XY" on an INPUT holding "hello" with [1, 3) selected leaves "hXYlo", the caret at 3, and the element an INPUT |

Helpers without a row of their own: `Gemini.EndpointUrl` (api/app.py:80)
is stated by `Gemini.EndpointUrlInjective`, `Relay.Prepare` and
`Relay.UrlNamesModel`; `Relay.Caught` (the `except` clause, api/app.py:100)
by `Relay.Respond` and the lemmas on replies of other shapes.

## Behaviour of the code worth knowing

- The text-only /rewrite instruction (api/app.py:74) has nothing after the
  prompt. Every other instruction contains, after the prompt, the clause
  asking for plain text without special characters (api/app.py:54, 134, 154,
  208, 228, 283, 303). The two /math instructions (api/app.py:283, 303) end
  with a further sentence asking for a non-mathematical prompt to be returned
  as is.
- Only the /rewrite and /concise instructions ask for a single sentence
  without newlines (api/app.py:54, 74, 134, 154). The /detailed and /math
  instructions (api/app.py:208, 228, 283, 303) do not mention newlines or
  line breaks. The relay turns every reply into one line in any case
  (api/app.py:98-99).
- Extraction in api/app.py (lines 92-99) is guarded by `in` and `len`, but
  the guards do not check types. The outcomes for other reply shapes are:
  - a top-level reply or a candidate that is a list is searched by
    membership, so without the string "candidates" (or "content") in it the
    route falls back;
  - a non-empty dict where a list is expected passes the length test, and
    its `[0]` raises KeyError, which is caught, so the route falls back; an
    empty dict fails the length test, and the route falls back too;
  - a list holding the key string, or a string containing it, reaches a
    string subscript and raises TypeError;
  - a reply, a candidate or a `content` that is a number, a boolean or
    `null` raises TypeError at `in` (api/app.py:92-94);
  - a first part that is not a dict raises TypeError at `["text"]`, which no
    `in` guards (api/app.py:95);
  - a `text` that is not a string raises AttributeError at `.replace`.

  The `except` clause (api/app.py:100) names KeyError, IndexError and
  `RequestException` only. So the last four cases escape, and the route
  fails with an error page. `Relay.Respond` states that only replies outside
  the documented shape can do this.
- The text-only /detailed instruction (api/app.py:228) asks the model to use
  an attached image, but none is sent.
- In app.py the upstream call (lines 25-26) sits outside the `try`, so a
  transport failure escapes. Only KeyError and IndexError are caught
  (line 30), and the value found is returned as it is, of whatever JSON type.

## Left out

- Flask application setup, routing, CORS and `load_dotenv` are outside the
  model. The API key read from the environment is an opaque string parameter.
- The network is outside the model. `requests.post(...)` and `.json()` are the
  parameter `send`, which returns a decoded body or `TransportFailure`. In
  api/app.py, a body that is not JSON is treated as a transport failure, as
  `requests` 2.27 and later raise a `RequestException` subclass for it. The
  `Content-Type` header is not modelled.
- The debug `print`s (api/app.py:85-88) are logging only, and are not
  modelled.
- `base64.b64encode(...).decode('utf-8')` is the parameter `encode`. Reading
  the uploaded file and its MIME type are the fields of `Upload`.
- `Relay.Request` carries the prompt as a string or as absent. A non-string
  JSON prompt, which Python would format into the template with `str()`, is
  not modelled. Nor is `request.json` being `None`, which makes `data.get`
  raise.
- JSON numbers are integers. Floating-point values in an upstream reply are
  not modelled. They take the same paths as integers.
- The hard-coded fallback API key of app.py is a secret and does not appear
  in the model.
- `ContentScript`:
  - the badge's styles and text are not modelled;
  - the 10 ms fade-in timer is not modelled;
  - the opacity changes are not modelled;
  - the contenteditable branch using the Range API (content.js:80-98) leaves
    the element unchanged in the model;
  - `dispatchEvent` (content.js:103) is not modelled;
  - `alert` is modelled as a list of messages shown.
- `ContentScript.Page.ReplaceSelectedText` assumes the focused element is a
  real element with a selection inside its value. Input types whose
  `selectionStart` is `null` are not modelled. Neither is a missing
  `text`/`message` field in a message.
- Positions in `ContentScript` count characters, whereas JavaScript counts
  UTF-16 code units. The two differ for characters outside the Basic
  Multilingual Plane.
- popup.js and background.js are not part of this model. They are thin UI
  and `fetch` glue around the relay.
- `Templates.ForbidsFormattingExceptRewriteTextOnly` only speaks of the
  no-formatting clause after the prompt. The wording of the prefixes about
  bullets and newlines is kept verbatim but not stated as a property.
- `Templates.Prefix` has no contract of its own. Its eight texts are
  verbatim literals of 223 to 363 characters, and proving anything about
  their characters, even their length, is beyond the proof budget. They
  reach the rest of the model through `Templates.Instruction`.
- `Whitespace.Strip` and `Whitespace.Collapse` have no contracts of their
  own. Their properties are lemmas: `StripKeepsWords` for the first, and the
  `Collapse…` lemmas and `WordsOfCollapse` for the second.
- No lemma states that the fallback sentences themselves have the normal
  form. Proving this character by character for each literal was too
  costly. So `Relay.ServedIsNormal` speaks only of values other than the
  fallback.
