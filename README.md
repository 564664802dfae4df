# AI Shield decision pipeline in Dafny

This project models the request-classification gateway of AI Shield. It decides whether
a user's chat message goes to a tool-using language model and with which tools, or
whether it is blocked. Two parts are modelled:

- **The chat route** (`app/api/chat/route.ts`, `POST`). It dispatches on `mode`:
  - `guardrail` relies on a system prompt and a `BLOCK:` marker in the model's output.
  - `chaos` gives the model every tool.
  - `shield`, the default, runs a scoring-service confidence through fixed thresholds
    (0.85 and 0.2), asks the dual agents when the score is inconclusive or scoring
    failed, then resolves the tool policy (`ALLOW_ALL`, `RESTRICTED`, `SHUTDOWN`) into
    allowed and restricted tools before asking the model.
- **The scoring service** (`api/predict/index.py`, `handler.do_POST`). It parses the
  request and refuses when the model artifacts are missing. It dampens scores above 0.5
  to 0.35 for messages containing one of nine benign keywords, then thresholds at 0.5.

Files:

- `wrappers.dfy`: `Option`.
- `text.dfy`: the string operations both files use. These are substring search
  (JavaScript `indexOf`/`replace`, Python `in`), JavaScript `trim` and ASCII `lower`.
- `tools.dfy`: the tool registry and policy resolution. A reference definition
  (`Permits`) decides tool by tool, and lemmas show the route's filters agree with it.
- `predict.dfy`: `do_POST` as a total function. The classifier is an input function
  `infer`.
- `chat_route.dfy`: `POST` as a method with the route's own locals (`mlVerdict`,
  `mlConfidence`, `toolPolicy`, `dualAgentTriggered`, ...) and early returns. The
  collaborators are inputs:
  - the scoring call's outcome, as `Option<real>`;
  - the outcome of `runDualAgents`, as `Option<AgentResult>`;
  - `getChatResponse`, as an oracle `chat`.

  The method returns the reply and the log of external calls it made.
- `screening.dfy`: how the route reads the scoring service's reply. It shows that the
  two sets of thresholds fit together.

## Model

| member | source | states |
|---|---|---|
| `ChatRoute.Post` | app/api/chat/route.ts:8-193 | A blocked decision has no response. An unblocked one carries the answer of the last call, a chat call given exactly the reported `allowedTools`, and `restrictedTools` is the registry minus them. Guardrail makes one tool-less chat call; the `BLOCK:` prefix decides, the trimmed rest is the reason, otherwise the output is the response. Chaos makes one chat call with every tool in registry order, is never blocked, reports `ALLOW_ALL` and confidence 0, and calls neither scoring nor agents. Shield scores first and reports the confidence, or 0 if scoring failed. MALICIOUS blocks with no further call. SAFE skips the agents under `ALLOW_ALL`. UNCERTAIN or failed scoring calls the agents, whose verdict and policy replace the score's. An agent MALICIOUS blocks with their summary, policy and transcript and no chat call. Otherwise their policy picks the tools and their summary is the reason. Every branch's reply is stated as a whole record, so fields the route leaves out (chaos's `restrictedTools`, the guardrail block's `response`) stay absent and the fixed texts are pinned: the guardrail block's analysis, the ML block's analysis with `usingGroq` false, and the SAFE branch's first-layer analysis with an empty transcript. An unblocked shield reply reports `allowedTools` and `restrictedTools`. An agent or chat exception, or a body `req.json()` rejects or that is `null`, gives the generic 500 |
| `ChatRoute.Dispatch` | app/api/chat/route.ts:10-15 | A missing mode is `shield`. Only the exact strings `guardrail` and `chaos` select those branches; every other value takes the shield path |
| `ChatRoute.Classify` | app/api/chat/route.ts:102-108 | MALICIOUS iff score >= 0.85, SAFE iff score <= 0.2, UNCERTAIN iff strictly between; each boundary belongs to the adjacent verdict |
| `ChatRoute.BlockReason` | app/api/chat/route.ts:23-26 | For an output starting with `BLOCK:`, replacing the first `BLOCK:` and trimming yields exactly the text after the marker without surrounding white space |
| `ChatRoute.BareMarkerGivesEmptyReason` | app/api/chat/route.ts:23-30 | An output that is the marker followed only by white space is blocked with an empty reason |
| `Tools.PolicyPartition` | app/api/chat/route.ts:164-179 | For every policy label and a registry with unique keys: `allowedTools` lists the tools the label permits in registry order, and `restrictedTools` lists the ones it denies. The two are disjoint, their union is the registry, their sizes add up to the registry's, and a tool is allowed iff the label permits it |
| `Tools.PolicyLabels` | app/api/chat/route.ts:164-169 | `SHUTDOWN` allows nothing and restricts the whole registry. `RESTRICTED` allows a tool iff its risk level is `LOW`. Any other label allows the whole registry and restricts nothing |
| `Tools.AllowedIsPermitted` | app/api/chat/route.ts:164-169 | The route's `allowedTools` computation equals the registry-ordered list of tools the label permits |
| `Tools.RestrictedIsDenied` | app/api/chat/route.ts:179 | With unique keys, filtering the registry keys by "not allowed" gives exactly the registry-ordered list of tools the label denies |
| `Tools.Names` | app/api/chat/route.ts:46 | `Object.keys` lists every tool name, one per entry, in registry order |
| `Tools.Exclude` | app/api/chat/route.ts:179 | `filter(t => !allowed.includes(t))` keeps exactly the names not in `allowed` |
| `Text.IndexFrom` | api/predict/index.py:62 | Finds the first occurrence of a pattern at or after a position, or reports that none exists |
| `Text.ContainsIffOccurs` | api/predict/index.py:62 | Python's `kw in text` holds iff the keyword occurs somewhere in the text |
| `Text.ReplacePrefix` | app/api/chat/route.ts:26 | When a string starts with the pattern, `replace(pattern, "")` removes exactly that prefix |
| `Text.TrimIsCore` | app/api/chat/route.ts:26 | `trim` returns the unique middle slice that neither starts nor ends with white space, with only white space around it |
| `Text.Lower` | api/predict/index.py:62 | Lower-casing keeps the length and maps each ASCII capital to its small letter, leaving every other character alone |
| `Predict.AnyInIff` | api/predict/index.py:62 | `any(kw in text for kw in keywords)` holds iff some keyword of the list occurs in the text |
| `Predict.Dampen` | api/predict/index.py:61-64 | Dampening never raises a score and never touches a score <= 0.5. A benign-keyword score above 0.5 becomes exactly 0.35, and any changed score was such a score |
| `Predict.Assess` | api/predict/index.py:66-72 | The reported `confidence_score` is the dampened probability. `is_malicious` holds iff it is >= 0.5, and `verdict` is `MALICIOUS` iff `is_malicious`, else `SAFE` |
| `Predict.HandlePost` | api/predict/index.py:29-83 | Invalid JSON gives 400 `Invalid JSON`. A JSON value that is not an object gives no reply. Missing model or vectorizer gives 503 `Model not loaded`, checked after parsing. A classifier exception gives 500 with its text. Otherwise 200 with the assessment of the message, where a missing `message` is the empty string |
| `Predict.KeywordMessageVerdict` | api/predict/index.py:63-66 | A message with a benign keyword is flagged iff the classifier's probability is exactly 0.5 |
| `Predict.DampeningOnlyClears` | api/predict/index.py:60-66 | A flagged message had probability >= 0.5, and a message without benign keywords is flagged iff its probability is >= 0.5 |
| `Predict.KeywordMatchIgnoresCase` | api/predict/index.py:61-62 | Any stretch of the message that lower-cases to a benign keyword triggers dampening of scores above 0.5 |
| `Screening.ScoreOnlyFromSuccess` | app/api/chat/route.ts:93-95 | For every request body the service can receive, the route takes a score exactly from a 200 reply, and that score is the dampened probability of the message. The 400, 503 and 500 replies and a missing reply give no score |
| `Screening.ServiceFailureIsUncertain` | app/api/chat/route.ts:83-112 | The route gets no score exactly when the service lacks its artifacts or the classifier raises, so the route goes to the agents. Otherwise the score is the dampened probability |
| `Screening.BenignKeywordNeverScreenedOut` | api/predict/index.py:61-64 | A benign-keyword message is never blocked by the route's first layer, and a dampened one (0.35) is always sent to the agents |
| `Screening.ThresholdsAgree` | app/api/chat/route.ts:102-108 | Whatever the route blocks at once, the service flagged; whatever the service flagged, the route never classifies as SAFE |

## Left out

- HTTP and transport. This covers `fetch` to `ML_SERVICE_URL`, `NextResponse.json`,
  reading `Content-Length` and the body, writing headers, `do_GET` and all
  `console`/`print` logging. The scoring call is an `Option<real>` and a route reply is
  `Json` (status 200) or `ServerError`.
- The collaborators. `getChatResponse` and `runDualAgents` are oracles or input values,
  and the tool registry is an input sequence. Their code is not part of this model.
- Prompt texts. The guardrail system prompt and the maintenance framing are recorded
  only as a `Framing` tag on the chat call.
- Model loading and inference. `load_artifacts`, `joblib`, the vectorizer and
  `predict_proba` are not modelled: whether the model and vectorizer are loaded is given
  as two booleans, and the probability comes from the input function `infer`.
- Floating point. Scores are `real`s, and only the threshold comparisons are modelled.
- Text.Lower: only ASCII letters are lower-cased, whereas Python lower-cases all of
  Unicode. A keyword can only match through ASCII letters, so this matters only for
  characters that lower-case to ASCII, such as the Kelvin sign.
- Non-string values. A `message` or `mode` that is present but not a string is not
  modelled. In the route, `mode: null` takes the shield path like any other unrecognised
  value. In the service, a non-string message makes the vectorizer or `lower()` raise,
  giving 500.
- Screening.RouteScore: an ok reply whose `confidence_score` is not a number is read as a
  failed call (UNCERTAIN, confidence 0). The route instead compares the raw value, and
  JavaScript coerces it: `null`, `false`, `""` or `[]` count as 0 and give SAFE, so the
  agents are skipped and every tool is allowed; `true` and numeric strings such as
  `"0.9"` are thresholded as numbers and can give MALICIOUS; only a missing field or a
  value that is not number-like becomes NaN and gives UNCERTAIN. The raw value is what
  the route reports as `mlConfidence`, and a missing field leaves it out of the reply.
  The scoring service always sends a number.
- Tools.Names: JavaScript lists integer-like keys first. Registry order is taken to be
  insertion order, which holds for tool names that are not numbers.
- ChatRoute.Post: a JSON body that is not an object (`42`, `"x"`, `true`, `[]`) or an
  object without a `message` key is not modelled. The route destructures such a body
  without error and runs the chosen path with `message` undefined; `ChatRequest.message`
  is always a string.
- Predict.HandlePost: a body that is not valid UTF-8 is not modelled. There `json.loads`
  raises `UnicodeDecodeError`, which is not a `JSONDecodeError`, so it escapes `do_POST`
  and no reply is written instead of the 400.
- Timeouts and cancellation are absent from the route, so they are absent here too.

## Behaviour worth knowing

These are things the route does, and the model states them:

- An exception from `runDualAgents` is not caught locally. It becomes the generic 500
  `Internal Server Error`, not a conservative block (`ChatRoute.Post`).
- A guardrail output of just `BLOCK:` and white space is blocked with an empty reason
  (`ChatRoute.BareMarkerGivesEmptyReason`). An agent verdict of `MALICIOUS` with an
  empty summary is likewise blocked with an empty reason.
- An unknown mode takes the shield path (`ChatRoute.Dispatch`).
- An unknown policy label allows every tool and restricts none (`Tools.PolicyLabels`).
