/** Chat requests and responses (pkg/types/chat.go). */
module Chat {
  import opened Wrappers
  import opened Common
  import opened Metadata
  import opened Messages

  /**
   * A Go `interface{}` field that the library fills with a string (ToolChoice,
   * FunctionCall): nil, a string, or a value of some other type, not modelled further.
   */
  datatype Dynamic = Nil | Str(s: string) | OtherValue

  datatype FunctionDefinition = FunctionDefinition(name: string, description: string, strict: bool)

  datatype ToolDefinition = ToolDefinition(toolType: ToolType, definition: FunctionDefinition)

  /** ResponseFormat; its JSON schema payload is not modelled. */
  datatype ResponseFormat = ResponseFormat(formatType: string)

  /** Floating-point request parameters are stored, never computed with. */
  type Float = real

  datatype Choice = Choice(
    index: int,
    message: Option<Message>,
    delta: Option<Message>,
    finishReason: FinishReason)

  datatype ChatResponse = ChatResponse(
    id: string,
    objectType: string,
    created: int,
    model: string,
    choices: seq<Choice>,
    usage: Option<UsageCounts>,
    systemFingerprint: string)
  {
    /** GetFirstMessage: nil without choices, otherwise the first choice's (possibly nil) message. */
    function GetFirstMessage(): (m: Option<Message>)
      ensures |choices| == 0 ==> m.None?
      ensures |choices| > 0 ==> m == choices[0].message
    {
      if |choices| > 0 then choices[0].message else None
    }

    /** GetFirstContent: the first message's content rendered, or "" when there is no message or no content. */
    function GetFirstContent(): (s: string)
      ensures GetFirstMessage().None? || GetFirstMessage().value.content.None? ==> s == ""
      ensures GetFirstMessage().Some? && GetFirstMessage().value.content.Some?
              ==> s == ContentString(GetFirstMessage().value.content.value)
    {
      var msg := GetFirstMessage();
      if msg.Some? && msg.value.content.Some? then ContentString(msg.value.content.value) else ""
    }

    /** HasToolCalls: whether the first message has tool calls -- exactly when GetToolCalls is non-empty. */
    function HasToolCalls(): (b: bool)
      ensures b <==> |GetToolCalls()| > 0
    {
      var msg := GetFirstMessage();
      if msg.Some? then |msg.value.toolCalls| > 0 else false
    }

    /** GetToolCalls: the first message's tool calls; none without a first message. */
    function GetToolCalls(): (calls: seq<ToolCall>)
      ensures GetFirstMessage().None? ==> calls == []
      ensures GetFirstMessage().Some? ==> calls == GetFirstMessage().value.toolCalls
    {
      var msg := GetFirstMessage();
      if msg.Some? then msg.value.toolCalls else []
    }
  }

  /** Every field of a chat request the model keeps (request metadata is not modelled). */
  datatype RequestFields = RequestFields(
    model: string,
    messages: seq<Message>,
    temperature: Option<Float>,
    maxTokens: int,
    topP: Option<Float>,
    topK: int,
    n: int,
    stream: bool,
    stop: seq<string>,
    presencePenalty: Option<Float>,
    frequencyPenalty: Option<Float>,
    logitBias: map<string, Float>,
    user: string,
    tools: seq<ToolDefinition>,
    toolChoice: Dynamic,
    functions: seq<FunctionDefinition>,
    functionCall: Dynamic,
    responseFormat: Option<ResponseFormat>,
    seed: Option<int>,
    logProbs: bool,
    topLogProbs: int)

  /** The state NewChatRequest produces: model and messages, every other field at its zero value. */
  function InitialFields(model: string, messages: seq<Message>): RequestFields {
    RequestFields(model, messages, None, 0, None, 0, 0, false, [], None, None, map[], "",
                  [], Nil, [], Nil, None, None, false, 0)
  }

  /** A chat request; its fluent setters update it in place and return the receiver. */
  class ChatRequest {
    var model: string
    var messages: seq<Message>
    var temperature: Option<Float>
    var maxTokens: int
    var topP: Option<Float>
    var topK: int
    var n: int
    var stream: bool
    var stop: seq<string>
    var presencePenalty: Option<Float>
    var frequencyPenalty: Option<Float>
    var logitBias: map<string, Float>
    var user: string
    var tools: seq<ToolDefinition>
    var toolChoice: Dynamic
    var functions: seq<FunctionDefinition>
    var functionCall: Dynamic
    var responseFormat: Option<ResponseFormat>
    var seed: Option<int>
    var logProbs: bool
    var topLogProbs: int

    /** The whole state of the request. */
    function Fields(): RequestFields
      reads this
    {
      RequestFields(model, messages, temperature, maxTokens, topP, topK, n, stream, stop,
                    presencePenalty, frequencyPenalty, logitBias, user, tools, toolChoice,
                    functions, functionCall, responseFormat, seed, logProbs, topLogProbs)
    }

    /** NewChatRequest: only the model and the messages are set. */
    constructor (model: string, messages: seq<Message>)
      ensures Fields() == InitialFields(model, messages)
    {
      this.model := model;
      this.messages := messages;
      temperature := None;
      maxTokens := 0;
      topP := None;
      topK := 0;
      n := 0;
      stream := false;
      stop := [];
      presencePenalty := None;
      frequencyPenalty := None;
      logitBias := map[];
      user := "";
      tools := [];
      toolChoice := Nil;
      functions := [];
      functionCall := Nil;
      responseFormat := None;
      seed := None;
      logProbs := false;
      topLogProbs := 0;
    }

    /** WithTemperature. */
    method WithTemperature(temp: Float) returns (r: ChatRequest)
      modifies this
      ensures r == this
      ensures Fields() == old(Fields()).(temperature := Some(temp))
    {
      temperature := Some(temp);
      r := this;
    }

    /** WithMaxTokens. */
    method WithMaxTokens(maxTokens: int) returns (r: ChatRequest)
      modifies this
      ensures r == this
      ensures Fields() == old(Fields()).(maxTokens := maxTokens)
    {
      this.maxTokens := maxTokens;
      r := this;
    }

    /** WithStream. */
    method WithStream(stream: bool) returns (r: ChatRequest)
      modifies this
      ensures r == this
      ensures Fields() == old(Fields()).(stream := stream)
    {
      this.stream := stream;
      r := this;
    }

    /** WithTools. */
    method WithTools(tools: seq<ToolDefinition>) returns (r: ChatRequest)
      modifies this
      ensures r == this
      ensures Fields() == old(Fields()).(tools := tools)
    {
      this.tools := tools;
      r := this;
    }

    /** WithToolChoice: the choice is stored as its string. */
    method WithToolChoice(choice: ToolChoice) returns (r: ChatRequest)
      modifies this
      ensures r == this
      ensures Fields() == old(Fields()).(toolChoice := Str(ToolChoiceString(choice)))
    {
      toolChoice := Str(ToolChoiceString(choice));
      r := this;
    }

    /** WithResponseFormat; None stands for a nil format. */
    method WithResponseFormat(format: Option<ResponseFormat>) returns (r: ChatRequest)
      modifies this
      ensures r == this
      ensures Fields() == old(Fields()).(responseFormat := format)
    {
      responseFormat := format;
      r := this;
    }

    /** AddMessage: appends the message after the existing ones. */
    method AddMessage(message: Message) returns (r: ChatRequest)
      modifies this
      ensures r == this
      ensures Fields() == old(Fields()).(messages := old(messages) + [message])
      ensures |messages| == |old(messages)| + 1 && messages[..|old(messages)|] == old(messages)
      ensures messages[|messages| - 1] == message
    {
      messages := messages + [message];
      r := this;
    }
  }
}
