/** The per-request decision pipeline of app/api/chat/route.ts (`POST`).

    The external collaborators are inputs: `ml` is the outcome of the call to
    the scoring service (None when the fetch throws, the status is not ok or
    the body cannot be read), `agents` the outcome of `runDualAgents` (None
    when it throws) and `chat` stands for `getChatResponse` (None when it
    throws). `Post` also returns the log of the external calls it made, so
    that which services were consulted, and with which tool list, can be
    stated. */
module ChatRoute {
  import opened Wrappers
  import opened Tools
  import Text

  // ---------------------------------------------------------------------
  // Mode dispatch
  // ---------------------------------------------------------------------

  datatype Mode = Shield | Guardrail | Chaos

  /** The branch `POST` takes for the request's `mode` field (None when the
      field is absent, which defaults to "shield"). */
  function Dispatch(mode: Option<string>): (m: Mode)
    ensures m == Guardrail <==> mode == Some("guardrail")
    ensures m == Chaos <==> mode == Some("chaos")
    ensures mode.None? ==> m == Shield
  {
    var name := mode.GetOr("shield");
    if name == "guardrail" then Guardrail
    else if name == "chaos" then Chaos
    else Shield
  }

  // ---------------------------------------------------------------------
  // Layer 1: confidence thresholds
  // ---------------------------------------------------------------------

  datatype Verdict = SAFE | UNCERTAIN | MALICIOUS

  const MALICIOUS_AT: real := 0.85
  const SAFE_AT: real := 0.2

  /** The coarse verdict for a scoring-service confidence: high scores are
      blocked at once, low ones skip the agents, the band between goes to
      the agents. Both boundaries belong to the adjacent verdict. */
  function Classify(score: real): (v: Verdict)
    ensures v == MALICIOUS <==> score >= MALICIOUS_AT
    ensures v == SAFE <==> score <= SAFE_AT
    ensures v == UNCERTAIN <==> SAFE_AT < score < MALICIOUS_AT
  {
    if score >= MALICIOUS_AT then MALICIOUS
    else if score <= SAFE_AT then SAFE
    else UNCERTAIN
  }

  // ---------------------------------------------------------------------
  // Guardrail refusal marker
  // ---------------------------------------------------------------------

  const BLOCK_MARKER := "BLOCK:"

  /** `output.replace("BLOCK:", "").trim()`: for an output that starts with
      the marker, what follows the marker without surrounding white space. */
  function BlockReason(output: string): (reason: string)
    ensures BLOCK_MARKER <= output ==> reason == Text.Trim(output[|BLOCK_MARKER|..])
  {
    var removed := Text.ReplaceFirst(output, BLOCK_MARKER, "");
    assert BLOCK_MARKER <= output ==> removed == output[|BLOCK_MARKER|..] by {
      if BLOCK_MARKER <= output {
        Text.ReplacePrefix(output, BLOCK_MARKER);
      }
    }
    Text.Trim(removed)
  }

  /** A model output that is just the marker and white space is a block
      whose reason is empty. */
  lemma BareMarkerGivesEmptyReason(padding: string)
    requires forall i :: 0 <= i < |padding| ==> Text.IsSpace(padding[i])
    ensures BLOCK_MARKER <= BLOCK_MARKER + padding
    ensures BlockReason(BLOCK_MARKER + padding) == ""
  {
  }

  // ---------------------------------------------------------------------
  // Requests, collaborators and replies
  // ---------------------------------------------------------------------

  /** The parsed request body: `{ message, mode }`. */
  datatype ChatRequest = ChatRequest(message: string, mode: Option<string>)

  /** One entry of the agents' transcript. */
  datatype DialogueEntry = DialogueEntry(role: string, content: string)

  /** What `runDualAgents` resolves to. */
  datatype AgentResult =
    AgentResult(verdict: string, analysis: string, policy: string,
                dialogue: seq<DialogueEntry>, summary: string)

  /** Which instruction accompanies a `getChatResponse` call: the guardrail
      system prompt wrapped around the message, the maintenance framing passed
      as third argument, or none. The prompt texts are not modelled. */
  datatype Framing = GuardrailPrompt | MaintenancePrompt | NoPrompt

  /** The arguments of one `getChatResponse` call. */
  datatype ChatCall = ChatCall(framing: Framing, message: string, tools: seq<string>)

  /** One call `POST` makes to a collaborator. */
  datatype ExternalCall =
    | Scoring(message: string)        // fetch to the scoring service
    | Adjudication(message: string)   // runDualAgents(message)
    | Chat(call: ChatCall)            // getChatResponse(...)

  /** The JSON object `POST` answers with; absent fields are None. */
  datatype Decision = Decision(
    blocked: bool,
    reason: string,
    mode: string,
    usingGroq: bool,
    analysis: Option<string>,
    response: Option<string>,
    policy: Option<string>,
    toolPolicy: Option<string>,
    allowedTools: Option<seq<string>>,
    restrictedTools: Option<seq<string>>,
    agentAnalysis: Option<string>,
    mlConfidence: Option<real>,
    dualAgentTriggered: Option<bool>,
    agentDialogue: Option<seq<DialogueEntry>>)

  /** A 200 reply carrying a decision, or the generic error reply. */
  datatype Reply = Json(decision: Decision) | ServerError(status: nat, error: string)

  /** What every exception escaping the pipeline becomes. */
  function InternalError(): Reply {
    ServerError(500, "Internal Server Error")
  }

  /** A decision with only the fields every reply has. */
  function Base(blocked: bool, reason: string, mode: string, usingGroq: bool): Decision {
    Decision(blocked, reason, mode, usingGroq, None, None, None, None, None, None, None, None, None, None)
  }

  const GUARDRAIL_BLOCK_ANALYSIS := "Blocked by standard system prompt guardrail."
  const GUARDRAIL_REASON := "Handled by regular system prompt."
  const CHAOS_REASON := "CHAOS MODE: Security disabled."
  const ML_BLOCK_REASON := "Malicious intent detected during initial screening."
  const ML_BLOCK_ANALYSIS := "Keyword/Vector patterns matched known attacks."
  const ML_LAYER_ANALYSIS := "Processed by Rule-Based/ML Layer"
  const VERIFIED_REASON := "Prompt verified by security layer."

  // ---------------------------------------------------------------------
  // The pipeline
  // ---------------------------------------------------------------------

  /** `POST`. `request` is None when `req.json()` rejects the body or yields `null`. */
  method Post(request: Option<ChatRequest>, registry: seq<Tool>, ml: Option<real>,
              agents: Option<AgentResult>, chat: ChatCall -> Option<string>)
    returns (reply: Reply, calls: seq<ExternalCall>)
    // A body `req.json()` rejects is the generic error, with nothing called.
    ensures request.None? ==> reply == InternalError() && calls == []
    // A blocked decision never carries a response.
    ensures reply.Json? && reply.decision.blocked ==> reply.decision.response.None?
    // An unblocked decision carries the answer of the last call, which was to
    // the chat model, and that call was given exactly the reported tools.
    ensures reply.Json? && !reply.decision.blocked ==>
              && |calls| > 0 && calls[|calls| - 1].Chat?
              && reply.decision.response == chat(calls[|calls| - 1].call)
              && reply.decision.response.Some?
    ensures reply.Json? && reply.decision.allowedTools.Some? ==>
              && |calls| > 0 && calls[|calls| - 1].Chat?
              && calls[|calls| - 1].call.tools == reply.decision.allowedTools.value
    // Every reported tool list splits the registry.
    ensures reply.Json? && reply.decision.restrictedTools.Some? ==>
              && reply.decision.allowedTools.Some?
              && reply.decision.restrictedTools.value
                   == RestrictedTools(registry, reply.decision.allowedTools.value)
    // Guardrail: one chat call with the system prompt and no tools; the
    // marker decides, and the rest of the output is the reason or the answer.
    ensures request.Some? && Dispatch(request.value.mode) == Guardrail ==>
              var call := ChatCall(GuardrailPrompt, request.value.message, []);
              && calls == [Chat(call)]
              && (chat(call).None? ==> reply == InternalError())
              && (chat(call).Some? ==>
                    var output := chat(call).value;
                    && (BLOCK_MARKER <= output ==>
                          reply == Json(Base(true, Text.Trim(output[|BLOCK_MARKER|..]), "guardrail", true)
                                          .(analysis := Some(GUARDRAIL_BLOCK_ANALYSIS))))
                    && (!(BLOCK_MARKER <= output) ==>
                          reply == Json(Base(false, GUARDRAIL_REASON, "guardrail", true)
                                          .(response := Some(output)))))
    // Chaos: one chat call with every tool in registry order; never blocked,
    // no scoring and no agents, and no restricted tools reported.
    ensures request.Some? && Dispatch(request.value.mode) == Chaos ==>
              var call := ChatCall(MaintenancePrompt, request.value.message, Names(registry));
              && calls == [Chat(call)]
              && (chat(call).None? ==> reply == InternalError())
              && (chat(call).Some? ==>
                    reply == Json(Base(false, CHAOS_REASON, "chaos", true)
                                    .(response := chat(call), toolPolicy := Some(ALLOW_ALL),
                                      allowedTools := Some(Names(registry)), mlConfidence := Some(0.0))))
    // Shield: the scoring service is consulted first; its confidence, or 0
    // when it failed, is reported.
    ensures request.Some? && Dispatch(request.value.mode) == Shield ==>
              && |calls| > 0 && calls[0] == Scoring(request.value.message)
              && (reply.Json? ==> reply.decision.mode == "shield"
                                  && reply.decision.mlConfidence == Some(ml.GetOr(0.0)))
    // Shield, MALICIOUS score: blocked at once without the chat model; no
    // agents and no chat call.
    ensures request.Some? && Dispatch(request.value.mode) == Shield
            && ml.Some? && Classify(ml.value) == MALICIOUS ==>
              && calls == [Scoring(request.value.message)]
              && reply == Json(Base(true, ML_BLOCK_REASON, "shield", false)
                                 .(analysis := Some(ML_BLOCK_ANALYSIS), mlConfidence := Some(ml.value),
                                   dualAgentTriggered := Some(false)))
    // Shield, SAFE score: no agents; every tool is allowed and the analysis
    // is the first layer's.
    ensures request.Some? && Dispatch(request.value.mode) == Shield
            && ml.Some? && Classify(ml.value) == SAFE ==>
              var call := ChatCall(NoPrompt, request.value.message, Names(registry));
              && calls == [Scoring(request.value.message), Chat(call)]
              && (chat(call).None? ==> reply == InternalError())
              && (chat(call).Some? ==>
                    reply == Json(Base(false, VERIFIED_REASON, "shield", true)
                                    .(toolPolicy := Some(ALLOW_ALL), allowedTools := Some(Names(registry)),
                                      restrictedTools := Some(RestrictedTools(registry, Names(registry))),
                                      response := chat(call), agentAnalysis := Some(ML_LAYER_ANALYSIS),
                                      dualAgentTriggered := Some(false), mlConfidence := Some(ml.value),
                                      agentDialogue := Some([]))))
    // Shield, UNCERTAIN score or failed scoring: the agents are consulted and
    // their verdict and policy replace the score's; if they throw, the
    // generic error.
    ensures request.Some? && Dispatch(request.value.mode) == Shield
            && (ml.None? || Classify(ml.value) == UNCERTAIN) ==>
              var message := request.value.message;
              && |calls| >= 2 && calls[..2] == [Scoring(message), Adjudication(message)]
              && (agents.None? ==> reply == InternalError() && |calls| == 2)
    // ... the agents find it malicious: blocked with their summary, policy
    // and transcript, and no chat call.
    ensures request.Some? && Dispatch(request.value.mode) == Shield
            && (ml.None? || Classify(ml.value) == UNCERTAIN)
            && agents.Some? && agents.value.verdict == "MALICIOUS" ==>
              var result := agents.value;
              && |calls| == 2
              && reply == Json(Base(true, result.summary, "shield", true)
                                 .(analysis := Some(result.analysis), policy := Some(result.policy),
                                   mlConfidence := Some(ml.GetOr(0.0)), dualAgentTriggered := Some(true),
                                   agentDialogue := Some(result.dialogue)))
    // ... otherwise: their policy picks the tools and their summary is the reason.
    ensures request.Some? && Dispatch(request.value.mode) == Shield
            && (ml.None? || Classify(ml.value) == UNCERTAIN)
            && agents.Some? && agents.value.verdict != "MALICIOUS" ==>
              var result := agents.value;
              var allowed := AllowedTools(result.policy, registry);
              var call := ChatCall(NoPrompt, request.value.message, allowed);
              && calls == [Scoring(request.value.message), Adjudication(request.value.message), Chat(call)]
              && (chat(call).None? ==> reply == InternalError())
              && (chat(call).Some? ==>
                    reply == Json(Base(false, result.summary, "shield", true)
                                    .(toolPolicy := Some(result.policy), allowedTools := Some(allowed),
                                      restrictedTools := Some(RestrictedTools(registry, allowed)),
                                      response := chat(call), agentAnalysis := Some(result.analysis),
                                      dualAgentTriggered := Some(true), mlConfidence := Some(ml.GetOr(0.0)),
                                      agentDialogue := Some(result.dialogue))))
  {
    calls := [];
    if request.None? {
      reply := InternalError();
      return;
    }
    var message := request.value.message;
    var mode := request.value.mode.GetOr("shield");

    // Mode: regular guardrail (system prompt only)
    if mode == "guardrail" {
      var call := ChatCall(GuardrailPrompt, message, []);
      calls := calls + [Chat(call)];
      var response := chat(call);
      if response.None? {
        reply := InternalError();
        return;
      }
      if BLOCK_MARKER <= response.value {
        reply := Json(Base(true, BlockReason(response.value), "guardrail", true)
                        .(analysis := Some(GUARDRAIL_BLOCK_ANALYSIS)));
        return;
      }
      reply := Json(Base(false, GUARDRAIL_REASON, "guardrail", true).(response := response));
      return;
    }

    // Mode: chaos (no guardrails, every tool)
    if mode == "chaos" {
      var allTools := Names(registry);
      var call := ChatCall(MaintenancePrompt, message, allTools);
      calls := calls + [Chat(call)];
      var response := chat(call);
      if response.None? {
        reply := InternalError();
        return;
      }
      reply := Json(Base(false, CHAOS_REASON, "chaos", true)
                      .(response := response, toolPolicy := Some(ALLOW_ALL),
                        allowedTools := Some(allTools), mlConfidence := Some(0.0)));
      return;
    }

    // Mode: shield. Layer 1, the scoring service.
    var mlVerdict := UNCERTAIN;
    var mlConfidence: real := 0.0;
    calls := calls + [Scoring(message)];
    if ml.Some? {
      mlConfidence := ml.value;
      mlVerdict := Classify(mlConfidence);
    }
    if mlVerdict == MALICIOUS {
      reply := Json(Base(true, ML_BLOCK_REASON, "shield", false)
                      .(analysis := Some(ML_BLOCK_ANALYSIS), mlConfidence := Some(mlConfidence),
                        dualAgentTriggered := Some(false)));
      return;
    }

    // Layer 2, the dual agents, only when layer 1 is inconclusive.
    var agentAnalysis := ML_LAYER_ANALYSIS;
    var toolPolicy := ALLOW_ALL;
    var dualAgentTriggered := false;
    var agentDialogue: seq<DialogueEntry> := [];
    var agentSummary := "";
    if mlVerdict == UNCERTAIN {
      dualAgentTriggered := true;
      calls := calls + [Adjudication(message)];
      if agents.None? {
        reply := InternalError();
        return;
      }
      var finalVerdict := agents.value.verdict;
      agentAnalysis := agents.value.analysis;
      toolPolicy := agents.value.policy;
      agentDialogue := agents.value.dialogue;
      agentSummary := agents.value.summary;
      if finalVerdict == "MALICIOUS" {
        reply := Json(Base(true, agentSummary, "shield", true)
                        .(analysis := Some(agentAnalysis), policy := Some(toolPolicy),
                          mlConfidence := Some(mlConfidence), dualAgentTriggered := Some(true),
                          agentDialogue := Some(agentDialogue)));
        return;
      }
    }

    // Execution with the tools the policy allows.
    var allowedTools := AllowedTools(toolPolicy, registry);
    var call := ChatCall(NoPrompt, message, allowedTools);
    calls := calls + [Chat(call)];
    var realResponse := chat(call);
    if realResponse.None? {
      reply := InternalError();
      return;
    }
    reply := Json(Base(false, if dualAgentTriggered then agentSummary else VERIFIED_REASON, "shield", true)
                    .(toolPolicy := Some(toolPolicy), allowedTools := Some(allowedTools),
                      restrictedTools := Some(RestrictedTools(registry, allowedTools)),
                      response := realResponse, agentAnalysis := Some(agentAnalysis),
                      dualAgentTriggered := Some(dualAgentTriggered),
                      mlConfidence := Some(mlConfidence), agentDialogue := Some(agentDialogue)));
  }
}
