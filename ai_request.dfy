// The request and response records exchanged with the AI model providers
// (domain/model/AIRequest and AIResponse). Values of the untyped metadata
// maps are kept as the strings their toString gives.
module AIRequests {
  import opened Wrappers

  /** One conversation message: its role ("user", "assistant", "system") and text. */
  datatype Message = Message(role: string, content: string)

  /** An AI request. Fields Java leaves null are None; `temperature` is the
      double it carries, as an exact decimal. */
  datatype AIRequest = AIRequest(
    userId: Option<string>,
    sessionId: Option<string>,
    maxTokens: Option<int>,
    temperature: Option<real>,
    novelId: Option<string>,
    sceneId: Option<string>,
    model: Option<string>,
    enableContext: Option<bool>,
    prompt: Option<string>,
    metadata: map<string, string>,
    messages: seq<Message>)

  /** A freshly constructed request: every field at its declared default. */
  const NewRequest: AIRequest :=
    AIRequest(None, None, Some(1000), Some(0.7), None, None, None, Some(true), None, map[], [])

  /** An AI response; the token usage starts at 0 + 0. */
  datatype AIResponse = AIResponse(
    id: string,
    model: string,
    content: string,
    promptTokens: int,
    completionTokens: int,
    createdAt: int,
    finishReason: Option<string>,
    usedContext: seq<string>)

  /** The contents of some messages, in order. */
  function Contents(ms: seq<Message>): (r: seq<string>)
    ensures |r| == |ms|
    ensures forall i :: 0 <= i < |ms| ==> r[i] == ms[i].content
  {
    if ms == [] then [] else Contents(ms[..|ms| - 1]) + [ms[|ms| - 1].content]
  }
}
