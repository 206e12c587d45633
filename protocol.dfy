/**
 * The control-channel protocol: inbound events as parsed from JSON (with a
 * constructor for a message that does not parse), their classification by
 * `type`, and the two outbound events the client sends.
 */
module Protocol {
  import opened Wrappers
  import opened Usage
  import opened CallSettings

  const FunctionCallDoneType := "response.function_call_arguments.done"
  const AssistantTranscriptType := "response.audio_transcript.done"
  const ResponseDoneType := "response.done"
  const UserTranscriptType := "conversation.item.input_audio_transcription.completed"

  /** Name of the one tool the client offers; calling it asks to end the call. */
  const EndCallTool := "end_call"

  /** The `response` member of a `response.done` event. */
  datatype ResponseBody = ResponseBody(usage: Option<Block>)

  /**
   * One inbound control-channel message. `Malformed` stands for a message whose
   * JSON does not parse or whose value is not an object with a `type`.
   */
  datatype Inbound =
    | Malformed
    | Event(eventType: string, name: Option<string>, transcript: Option<string>, response: Option<ResponseBody>)

  /** The cases of the dispatcher's `switch (event.type)`. */
  datatype Kind = FunctionCallDone | AssistantTranscript | ResponseCompleted | UserTranscript | Ignored

  function KindOf(eventType: string): (k: Kind)
    ensures k == FunctionCallDone <==> eventType == FunctionCallDoneType
    ensures k == AssistantTranscript <==> eventType == AssistantTranscriptType
    ensures k == ResponseCompleted <==> eventType == ResponseDoneType
    ensures k == UserTranscript <==> eventType == UserTranscriptType
  {
    if eventType == FunctionCallDoneType then FunctionCallDone
    else if eventType == AssistantTranscriptType then AssistantTranscript
    else if eventType == ResponseDoneType then ResponseCompleted
    else if eventType == UserTranscriptType then UserTranscript
    else Ignored
  }

  /** The kind of a message; a malformed one is dropped like an unrecognised one. */
  function MessageKind(m: Inbound): Kind {
    if m.Malformed? then Ignored else KindOf(m.eventType)
  }

  /** The message is the function call of the end-call tool. */
  predicate RequestsEndCall(m: Inbound) {
    MessageKind(m) == FunctionCallDone && m.name == Some(EndCallTool)
  }

  /** `if (event.transcript)`: a transcript is shown only when present and non-empty. */
  function ShownTranscript(t: Option<string>): (r: Option<string>)
    ensures r.Some? <==> t.Some? && t.value != ""
    ensures r.Some? ==> r == t
  {
    if t.Some? && t.value != "" then t else None
  }

  /** The usage block of a `response.done` event, when both `response` and `usage` are present. */
  function ResponseUsage(m: Inbound): Option<Block>
    requires m.Event?
  {
    if m.response.Some? then m.response.value.usage else None
  }

  /** A tool declaration of `session.update`. */
  datatype Tool = Tool(toolType: string, name: string, description: string)

  /** The outbound events, as the objects passed to `JSON.stringify`. */
  datatype OutEvent =
    | SessionUpdate(instructions: string, voice: string, transcriptionModel: string, tools: seq<Tool>, toolChoice: string)
    | ResponseCreate(modalities: seq<string>, instructions: string)

  const EndCallDescription :=
    "End the conversation and disconnect the call. Use this when the user says goodbye or asking to end the call."

  const GreetingOpen := "「"
  const GreetingClose := "」と元気に挨拶してください。"

  /** The `session.update` event `updateSession` sends for the given settings. */
  function SessionUpdateEvent(s: Settings): (e: OutEvent)
    ensures e.SessionUpdate?
    ensures e.instructions == s.instructions && e.voice == s.voice
    ensures |e.tools| == 1 && e.tools[0].name == EndCallTool && e.tools[0].toolType == "function"
    ensures e.toolChoice == "auto"
  {
    SessionUpdate(s.instructions, s.voice, "whisper-1", [Tool("function", EndCallTool, EndCallDescription)], "auto")
  }

  /** The `response.create` greeting request sent 500 ms after a `session.update`. */
  function GreetingRequest(s: Settings): OutEvent {
    ResponseCreate(["audio", "text"], GreetingOpen + EffectiveGreeting(s) + GreetingClose)
  }

  /** Recovers the greeting text quoted in a greeting request's instructions. */
  function QuotedGreeting(instructions: string): Option<string> {
    var n := |instructions|;
    if n >= |GreetingOpen| + |GreetingClose|
       && instructions[..|GreetingOpen|] == GreetingOpen
       && instructions[n - |GreetingClose|..] == GreetingClose
    then Some(instructions[|GreetingOpen|..n - |GreetingClose|])
    else None
  }

  /** The greeting request carries exactly the effective greeting, quoted, and asks for audio and text. */
  lemma GreetingRequestQuotesGreeting(s: Settings)
    ensures GreetingRequest(s).modalities == ["audio", "text"]
    ensures QuotedGreeting(GreetingRequest(s).instructions) == Some(EffectiveGreeting(s))
  {
    var g := EffectiveGreeting(s);
    var i := GreetingOpen + g + GreetingClose;
    assert i[..|GreetingOpen|] == GreetingOpen;
    assert i[|i| - |GreetingClose|..] == GreetingClose;
    assert i[|GreetingOpen|..|i| - |GreetingClose|] == g;
  }

  /**
   * The tool that `session.update` announces is the one the dispatcher acts on:
   * a call of any announced tool is a request to end the call.
   */
  lemma AnnouncedToolEndsCall(s: Settings, t: Tool, m: Inbound)
    requires t in SessionUpdateEvent(s).tools
    requires m.Event? && m.eventType == FunctionCallDoneType && m.name == Some(t.name)
    ensures RequestsEndCall(m)
  {
  }
}
