/** The server-side `handler` (financechatbot/app/pages/chat.ts:6-57): checks the
    method, defaults the model name, synthesises the system message and relays
    the conversation to the inference endpoint. The endpoint's outcome and
    `JSON.stringify` are supplied by the caller. */
module ChatHandler {
  import opened Types

  /** The fields of the JSON body; `None` stands for a field that is absent. */
  datatype RequestBody = RequestBody(
    messages: Option<seq<ChatMessage>>,
    model: Option<string>,
    fileData: Option<seq<Transaction>>)

  datatype HttpRequest = HttpRequest(httpMethod: string, body: RequestBody)

  /** The JSON bodies the handler can send. */
  datatype ResponseBody =
    | MessageBody(message: string)
    | ErrorBody(error: string)
    | Relayed(data: ChatResponse)

  datatype Response = Response(status: int, body: ResponseBody)

  /** The body posted to the inference endpoint. */
  datatype UpstreamRequest = UpstreamRequest(
    model: string,
    messages: seq<ChatMessage>,
    maxTokens: int,
    temperature: real,
    topP: real,
    topK: int,
    repetitionPenalty: real,
    stop: seq<string>)

  const DefaultModel: string := "meta-llama/Llama-2-70b-chat-hf"
  const BasePrompt: string := "You are a helpful financial assistant."
  const DataLead: string := " Analyze this financial data: "
  const DataTail: string := ". \n      Provide spending insights, identify trends, and offer savings recommendations. \n      Format your response with clear sections."

  const NotAllowed: Response := Response(405, MessageBody("Method not allowed"))
  const Failure: Response := Response(500, ErrorBody("Error processing your request"))

  /** The destructuring default `model = DefaultModel`. */
  function ModelName(model: Option<string>): (name: string)
    ensures model.Some? ==> name == model.value
    ensures model.None? ==> name == DefaultModel
  {
    match model
    case Some(m) => m
    case None => DefaultModel
  }

  /** The system message content: the base instruction, extended with the
      serialised data when the request carries any. */
  function SystemPrompt(fileData: Option<seq<Transaction>>, serialize: seq<Transaction> -> string): (content: string)
    ensures |content| >= |BasePrompt| && content[..|BasePrompt|] == BasePrompt
    ensures content == BasePrompt <==> fileData.None?
    ensures fileData.Some? ==>
              var start := |BasePrompt| + |DataLead|;
              var data := serialize(fileData.value);
              && |content| == start + |data| + |DataTail|
              && content[|BasePrompt|..start] == DataLead
              && content[start..start + |data|] == data
              && content[start + |data|..] == DataTail
  {
    match fileData
    case None => BasePrompt
    case Some(d) =>
      var content := BasePrompt + DataLead + serialize(d) + DataTail;
      assert content[..|BasePrompt|] == BasePrompt;
      content
  }

  /** `[systemMessage, ...messages.filter(m => m.role !== 'system')]` */
  function Forwarded(system: ChatMessage, messages: seq<ChatMessage>): (r: seq<ChatMessage>)
    requires system.role == System
    ensures |r| > 0 && r[0] == system
    ensures forall i :: 1 <= i < |r| ==> r[i].role != System
    ensures r[1..] == WithoutSystem(messages)
  {
    var r := [system] + WithoutSystem(messages);
    WithoutSystemMembers(messages);
    assert forall i :: 1 <= i < |r| ==> r[i] in WithoutSystem(messages);
    r
  }

  /** The forwarded list holds exactly one system message. */
  lemma {:induction false} OneSystemMessage(system: ChatMessage, messages: seq<ChatMessage>)
    requires system.role == System
    ensures |set i | 0 <= i < |Forwarded(system, messages)| && Forwarded(system, messages)[i].role == System| == 1
  {
    var r := Forwarded(system, messages);
    assert (set i | 0 <= i < |r| && r[i].role == System) == {0};
  }

  method Handle(req: HttpRequest, upstream: Result<ChatResponse>, serialize: seq<Transaction> -> string)
    returns (sent: Option<UpstreamRequest>, response: Response)
    ensures req.httpMethod != "POST" ==> sent.None? && response == NotAllowed
    ensures req.httpMethod == "POST" && req.body.messages.None? ==> sent.None? && response == Failure
    ensures req.httpMethod == "POST" && req.body.messages.Some? ==>
              && sent.Some?
              && sent.value.model == ModelName(req.body.model)
              && sent.value.messages == Forwarded(ChatMessage(System, SystemPrompt(req.body.fileData, serialize), None), req.body.messages.value)
              && sent.value.maxTokens == 2048 && sent.value.temperature == 0.5 && sent.value.topP == 0.7
              && sent.value.topK == 50 && sent.value.repetitionPenalty == 1.0
              && sent.value.stop == ["</s>", "[/INST]"]
              && response == (if upstream.Ok? then Response(200, Relayed(upstream.value)) else Failure)
  {
    if req.httpMethod != "POST" {
      return None, NotAllowed;
    }
    var model := ModelName(req.body.model);
    var systemMessage := ChatMessage(System, BasePrompt, None);
    if req.body.fileData.Some? {
      systemMessage := systemMessage.(content := systemMessage.content + DataLead + serialize(req.body.fileData.value) + DataTail);
    }
    if req.body.messages.None? {
      // `messages.filter` throws; the error is caught and answered with 500.
      return None, Failure;
    }
    var outgoing := Forwarded(systemMessage, req.body.messages.value);
    sent := Some(UpstreamRequest(model, outgoing, 2048, 0.5, 0.7, 50, 1.0, ["</s>", "[/INST]"]));
    match upstream {
      case Ok(data) => response := Response(200, Relayed(data));
      case Err => response := Failure;
    }
  }
}
