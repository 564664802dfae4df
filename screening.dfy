/** How the route's first layer (app/api/chat/route.ts) reads the scoring
    service's reply (api/predict/index.py). The route posts `{ message }`, so
    the service always sees a JSON object whose "message" is the message. */
module Screening {
  import opened Wrappers
  import Predict
  import ChatRoute

  /** The score the route takes from a reply: the confidence of an ok (2xx)
      reply; nothing when the status is not ok or no reply came back. */
  function RouteScore(reply: Predict.PredictReply): Option<real> {
    if reply.Reply? && 200 <= reply.status < 300 && reply.payload.Scored?
    then Some(reply.payload.confidenceScore)
    else None
  }

  /** The service's reply to the route's request. */
  function ServiceReply(message: string, modelLoaded: bool, vectorizerLoaded: bool,
                        infer: string -> Predict.Inference): Predict.PredictReply {
    Predict.HandlePost(Predict.JsonObject(Some(message)), modelLoaded, vectorizerLoaded, infer)
  }

  /** Whatever body the service is sent, the route takes a score exactly from
      its 200 replies, and that score is the dampened probability; the 400,
      503 and 500 replies and a missing reply give none. */
  lemma ScoreOnlyFromSuccess(body: Predict.RequestBody, modelLoaded: bool, vectorizerLoaded: bool,
                             infer: string -> Predict.Inference)
    ensures var reply := Predict.HandlePost(body, modelLoaded, vectorizerLoaded, infer);
            var score := RouteScore(reply);
            && (score.Some? <==> reply.Reply? && reply.status == 200)
            && (reply.Reply? && reply.status in {400, 500, 503} ==> score.None?)
            && (reply.NoReply? ==> score.None?)
            && (score.Some? ==>
                  var message := body.message.GetOr("");
                  score.value == Predict.Dampen(message, infer(message).p))
  {
  }

  /** Missing artifacts and classifier exceptions reach the route as a failed
      scoring call, which the route sends to the agents rather than
      treating as safe. */
  lemma ServiceFailureIsUncertain(message: string, modelLoaded: bool, vectorizerLoaded: bool,
                                  infer: string -> Predict.Inference)
    ensures var score := RouteScore(ServiceReply(message, modelLoaded, vectorizerLoaded, infer));
            && (score.None? <==> !(modelLoaded && vectorizerLoaded) || infer(message).Raised?)
            && (score.Some? ==> score.value == Predict.Dampen(message, infer(message).p))
  {
  }

  /** A message with a benign keyword is never blocked by the first layer:
      its final score is either the classifier's (at most 0.5) or the
      dampened 0.35, both below 0.85; and once dampened it lands in the band
      the agents adjudicate. */
  lemma BenignKeywordNeverScreenedOut(message: string, infer: string -> Predict.Inference)
    requires Predict.HasBenignKeyword(message)
    ensures var score := RouteScore(ServiceReply(message, true, true, infer));
            && (score.Some? ==> ChatRoute.Classify(score.value) != ChatRoute.MALICIOUS)
            && (score.Some? && infer(message).p > Predict.THRESHOLD ==>
                  ChatRoute.Classify(score.value) == ChatRoute.UNCERTAIN)
  {
  }

  /** The two thresholds agree where they overlap: whatever the route blocks
      at once the service flagged, and whatever the service flagged the route
      does not wave through as safe. */
  lemma ThresholdsAgree(message: string, probability: real)
    ensures var payload := Predict.Assess(message, probability);
            && (ChatRoute.Classify(payload.confidenceScore) == ChatRoute.MALICIOUS ==> payload.isMalicious)
            && (payload.isMalicious ==> ChatRoute.Classify(payload.confidenceScore) != ChatRoute.SAFE)
  {
  }
}
