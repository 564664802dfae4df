/** The scoring service of api/predict/index.py (`handler.do_POST`): parse the
    request, refuse when the artifacts are not loaded, take the classifier's
    probability, dampen it for messages with benign keywords and threshold it
    at 0.5. The classifier itself is an input: `infer` stands for
    `vectorizer.transform` followed by `model.predict_proba`. */
module Predict {
  import opened Wrappers
  import Text

  /** Words whose presence (after lower-casing) marks a message as likely benign. */
  const BenignKeywords: seq<string> :=
    ["catalog", "price", "how much", "policy", "handbook", "oil", "item", "where", "guide"]

  /** The score a dampened message is given. */
  const DAMPENED_SCORE: real := 0.35

  /** Scores at or above this are malicious; dampening applies strictly above it. */
  const THRESHOLD: real := 0.5

  /** `any(kw in text for kw in keywords)`. */
  predicate AnyIn(keywords: seq<string>, text: string) {
    keywords != [] && (Text.Contains(text, keywords[0]) || AnyIn(keywords[1..], text))
  }

  lemma {:induction false} AnyInIff(keywords: seq<string>, text: string)
    ensures AnyIn(keywords, text) <==> exists k :: k in keywords && Text.Contains(text, k)
  {
    if keywords != [] {
      AnyInIff(keywords[1..], text);
      assert forall k :: k in keywords <==> k == keywords[0] || k in keywords[1..];
    }
  }

  /** The dampening condition: some benign keyword occurs in the lower-cased message. */
  predicate HasBenignKeyword(message: string) {
    AnyIn(BenignKeywords, Text.Lower(message))
  }

  /** Heuristic dampening: a benign-keyword message scored above 0.5 is given
      0.35; every other score is kept. */
  function Dampen(message: string, probability: real): (r: real)
    ensures r <= probability
    ensures probability <= THRESHOLD ==> r == probability
    ensures HasBenignKeyword(message) && probability > THRESHOLD ==> r == DAMPENED_SCORE
    ensures r != probability ==> HasBenignKeyword(message) && r == DAMPENED_SCORE
  {
    if HasBenignKeyword(message) && probability > THRESHOLD then DAMPENED_SCORE else probability
  }

  /** The JSON payload of a reply. */
  datatype Payload =
    | Error(error: string)
    | Scored(isMalicious: bool, confidenceScore: real, verdict: string)

  /** What the handler writes back: a status and a payload, or nothing at all
      when an exception escapes `do_POST`. */
  datatype PredictReply = Reply(status: nat, payload: Payload) | NoReply

  /** The request body as `json.loads` sees it. */
  datatype RequestBody =
    | InvalidJson                              // json.loads raises JSONDecodeError
    | NotAnObject                              // valid JSON without a `get` method
    | JsonObject(message: Option<string>)      // the "message" key, if present

  /** The outcome of vectorizing the message and asking the model for the
      probability of the malicious class. */
  datatype Inference = Probability(p: real) | Raised(text: string)

  /** The successful branch: dampen, then threshold at 0.5. */
  function Assess(message: string, probability: real): (r: Payload)
    ensures r.Scored?
    ensures r.confidenceScore == Dampen(message, probability)
    ensures r.isMalicious <==> r.confidenceScore >= THRESHOLD
    ensures r.verdict == "MALICIOUS" <==> r.isMalicious
    ensures r.verdict == "MALICIOUS" || r.verdict == "SAFE"
  {
    var score := Dampen(message, probability);
    var prediction := if score >= THRESHOLD then 1 else 0;
    Scored(prediction == 1, score, if prediction == 1 then "MALICIOUS" else "SAFE")
  }

  /** `handler.do_POST`, with the loaded artifacts and the classifier as inputs. */
  function HandlePost(body: RequestBody, modelLoaded: bool, vectorizerLoaded: bool,
                      infer: string -> Inference): (r: PredictReply)
    ensures r.NoReply? <==> body.NotAnObject?
    ensures body.InvalidJson? <==> r == Reply(400, Error("Invalid JSON"))
    ensures r == Reply(503, Error("Model not loaded")) <==>
              body.JsonObject? && !(modelLoaded && vectorizerLoaded)
    ensures r.Reply? && r.status == 500 <==>
              body.JsonObject? && modelLoaded && vectorizerLoaded
              && infer(body.message.GetOr("")).Raised?
    ensures r.Reply? && r.status == 500 ==> r.payload == Error(infer(body.message.GetOr("")).text)
    ensures r.Reply? && r.status == 200 <==>
              body.JsonObject? && modelLoaded && vectorizerLoaded
              && infer(body.message.GetOr("")).Probability?
    ensures r.Reply? && r.status == 200 ==>
              var message := body.message.GetOr("");
              r.payload == Assess(message, infer(message).p)
  {
    match body
    case InvalidJson => Reply(400, Error("Invalid JSON"))
    case NotAnObject => NoReply
    case JsonObject(field) =>
      var message := field.GetOr("");
      if !modelLoaded || !vectorizerLoaded then Reply(503, Error("Model not loaded"))
      else match infer(message)
        case Raised(text) => Reply(500, Error(text))
        case Probability(p) => Reply(200, Assess(message, p))
  }

  /** A message with a benign keyword is flagged only when the classifier
      gives exactly 0.5: above that it is dampened to 0.35, below it is safe. */
  lemma KeywordMessageVerdict(message: string, probability: real)
    requires HasBenignKeyword(message)
    ensures Assess(message, probability).isMalicious <==> probability == THRESHOLD
  {
  }

  /** Dampening only ever lowers a verdict: a flagged message was scored at
      least 0.5 by the classifier, and a message without benign keywords is
      flagged exactly when it was. */
  lemma DampeningOnlyClears(message: string, probability: real)
    ensures Assess(message, probability).isMalicious ==> probability >= THRESHOLD
    ensures !HasBenignKeyword(message) ==>
              (Assess(message, probability).isMalicious <==> probability >= THRESHOLD)
  {
  }

  /** Matching ignores ASCII case: a message is dampened when any stretch of
      it lower-cases to a benign keyword ("PRICE", "Where", ...). */
  lemma {:induction false} KeywordMatchIgnoresCase(message: string, k: string, j: nat)
    requires k in BenignKeywords
    requires j + |k| <= |message| && Text.Lower(message[j..j + |k|]) == k
    ensures HasBenignKeyword(message)
    ensures forall p :: p > THRESHOLD ==> Dampen(message, p) == DAMPENED_SCORE
  {
    var lowered := Text.Lower(message);
    assert lowered[j..j + |k|] == Text.Lower(message[j..j + |k|]);
    assert Text.OccursAt(lowered, k, j);
    Text.ContainsIffOccurs(lowered, k);
    AnyInIff(BenignKeywords, lowered);
  }
}
