/** The chat-completions client `ChatGPTHelper` (src/ChatGPTHelper.php): its
    conversation log and generation settings, the payloads it builds, the way
    it classifies what the transport brings back, and its response accessors.
    The transport itself is a parameter `server`: a function from the request
    sent to what came back over the wire. A `Failure(message)` outcome stands
    for the PHP exception with that message. */
module Helper {
  import opened Wrappers
  import opened Assoc
  import opened Json
  import opened Strings

  // ---------------------------------------------------------------- messages

  datatype Role = System | User | Assistant

  datatype Message = Message(role: Role, content: string)

  function RoleName(r: Role): string {
    match r
    case System => "system"
    case User => "user"
    case Assistant => "assistant"
  }

  /** `['role' => ..., 'content' => ...]`. */
  function MessageJson(m: Message): Json {
    JObj([("role", JStr(RoleName(m.role))), ("content", JStr(m.content))])
  }

  /** The `messages` list of a payload. */
  function MessagesJson(ms: seq<Message>): Json {
    JList(seq(|ms|, i requires 0 <= i < |ms| => MessageJson(ms[i])))
  }

  // -------------------------------------------------------- conversation log

  /** `array_filter($log, fn($m) => $m['role'] !== 'system')`, renumbered. */
  function WithoutSystem(log: seq<Message>): seq<Message> {
    if log == [] then []
    else (if log[0].role == System then [] else [log[0]]) + WithoutSystem(log[1..])
  }

  function SystemCount(log: seq<Message>): nat {
    if log == [] then 0
    else (if log[0].role == System then 1 else 0) + SystemCount(log[1..])
  }

  /** The shape the log has after `setSystemPrompt`: no system message except
      possibly the first. */
  predicate SystemFirst(log: seq<Message>) {
    forall i :: 0 < i < |log| ==> log[i].role != System
  }

  /** The log after `setSystemPrompt(prompt)`: every system message removed,
      then the new one put at the front. */
  function ReplaceSystemPrompt(log: seq<Message>, prompt: string): seq<Message> {
    [Message(System, prompt)] + WithoutSystem(log)
  }

  /** The log after `conversation(message)` whose request had `outcome`: the
      user turn always stays, and the reply follows only when the response
      carries `choices[0].message`. */
  function AfterTurn(log: seq<Message>, message: string, outcome: Result<Response, string>): seq<Message> {
    log + [Message(User, message)]
      + (if outcome.Success? && outcome.value.reply.Some? then [outcome.value.reply.value] else [])
  }

  /** Filtering removes exactly the system messages and keeps every other
      message as often as it occurred. */
  lemma {:induction false} WithoutSystemCounts(log: seq<Message>, m: Message)
    ensures multiset(WithoutSystem(log))[m] == if m.role == System then 0 else multiset(log)[m]
  {
    if log != [] {
      WithoutSystemCounts(log[1..], m);
      assert log == [log[0]] + log[1..];
    }
  }

  /** Filtering leaves no system message, and filtering again changes nothing. */
  lemma {:induction false} WithoutSystemClean(log: seq<Message>)
    ensures SystemCount(WithoutSystem(log)) == 0
    ensures WithoutSystem(WithoutSystem(log)) == WithoutSystem(log)
  {
    if log != [] {
      WithoutSystemClean(log[1..]);
      var head := if log[0].role == System then [] else [log[0]];
      var w := WithoutSystem(log[1..]);
      assert WithoutSystem(log) == head + w;
      SystemCountAppend(head, w);
      WithoutSystemAppend(head, w);
    }
  }

  lemma {:induction false} SystemCountAppend(a: seq<Message>, b: seq<Message>)
    ensures SystemCount(a + b) == SystemCount(a) + SystemCount(b)
  {
    if a == [] {
      assert a + b == b;
    } else {
      assert (a + b)[0] == a[0] && (a + b)[1..] == a[1..] + b;
      SystemCountAppend(a[1..], b);
    }
  }

  lemma {:induction false} WithoutSystemAppend(a: seq<Message>, b: seq<Message>)
    ensures WithoutSystem(a + b) == WithoutSystem(a) + WithoutSystem(b)
  {
    if a == [] {
      assert a + b == b;
    } else {
      var head := if a[0].role == System then [] else [a[0]];
      assert (a + b)[0] == a[0] && (a + b)[1..] == a[1..] + b;
      WithoutSystemAppend(a[1..], b);
      calc {
        WithoutSystem(a + b);
        head + WithoutSystem(a[1..] + b);
        head + (WithoutSystem(a[1..]) + WithoutSystem(b));
        (head + WithoutSystem(a[1..])) + WithoutSystem(b);
      }
    }
  }

  /** "At most one system message, and if there is one it comes first" is
      what `SystemFirst` says. */
  lemma {:induction false} SystemFirstIff(log: seq<Message>)
    ensures SystemFirst(log) <==>
      SystemCount(log) <= 1 && (SystemCount(log) == 1 ==> log[0].role == System)
  {
    if log != [] {
      NoSystemIff(log[1..]);
      forall i | 0 < i < |log| ensures log[i] == log[1..][i - 1] { }
    }
  }

  lemma {:induction false} NoSystemIff(log: seq<Message>)
    ensures SystemCount(log) == 0 <==> forall i :: 0 <= i < |log| ==> log[i].role != System
  {
    if log != [] {
      NoSystemIff(log[1..]);
      forall i | 0 < i < |log| ensures log[i] == log[1..][i - 1] { }
    }
  }

  /** After `setSystemPrompt(p)` the prompt is first, it is the only system
      message, and the other messages are those of before, in their order. */
  lemma ReplaceSystemPromptShape(log: seq<Message>, p: string)
    ensures ReplaceSystemPrompt(log, p)[0] == Message(System, p)
    ensures SystemCount(ReplaceSystemPrompt(log, p)) == 1
    ensures SystemFirst(ReplaceSystemPrompt(log, p))
    ensures WithoutSystem(ReplaceSystemPrompt(log, p)) == WithoutSystem(log)
  {
    var r := ReplaceSystemPrompt(log, p);
    WithoutSystemClean(log);
    assert r[1..] == WithoutSystem(log);
    NoSystemIff(WithoutSystem(log));
    forall i | 0 < i < |r| ensures r[i].role != System {
      assert r[i] == WithoutSystem(log)[i - 1];
    }
  }

  /** Setting the system prompt twice is the same as setting it once with the
      second prompt. */
  lemma ReplaceSystemPromptTwice(log: seq<Message>, p: string, q: string)
    ensures ReplaceSystemPrompt(ReplaceSystemPrompt(log, p), q) == ReplaceSystemPrompt(log, q)
  {
    ReplaceSystemPromptShape(log, p);
  }

  /** A turn never removes or reorders what was logged: the user turn goes
      at the old end, the reply (if any) after it. The log keeps its shape
      when it had it and the reply is not itself a system message. */
  lemma AfterTurnKeepsShape(log: seq<Message>, message: string, outcome: Result<Response, string>)
    ensures SystemFirst(log)
         && (outcome.Success? && outcome.value.reply.Some? ==> outcome.value.reply.value.role != System)
        ==> SystemFirst(AfterTurn(log, message, outcome))
    ensures |log| > 0 ==> AfterTurn(log, message, outcome)[0] == log[0]
    ensures AfterTurn(log, message, outcome)[..|log|] == log
    ensures AfterTurn(log, message, outcome)[|log|] == Message(User, message)
    ensures |AfterTurn(log, message, outcome)|
         == |log| + if outcome.Success? && outcome.value.reply.Some? then 2 else 1
  {
  }

  // ---------------------------------------------------------------- payloads

  /** A PHP array with string keys, ready for `json_encode`. */
  type Payload = seq<(string, Json)>

  /** The keys of the base chat payload, in order. */
  const ChatKeys: seq<string> := ["model", "messages", "max_tokens", "temperature"]

  /** `['model' => ..., 'messages' => ..., 'max_tokens' => ..., 'temperature' => ...]`. */
  function ChatBase(model: string, maxTokens: int, temperature: real, messages: seq<Message>): Payload {
    [("model", JStr(model)), ("messages", MessagesJson(messages)),
     ("max_tokens", JInt(maxTokens)), ("temperature", JNum(temperature))]
  }

  /** `array_merge(<the base chat payload>, $options)`. */
  function ChatPayload(model: string, maxTokens: int, temperature: real, messages: seq<Message>, options: Payload): Payload {
    Merge(ChatBase(model, maxTokens, temperature, messages), options)
  }

  /** The chat payload's keys are the four settings, in order, followed by
      the options' new keys in their order; no key appears twice. */
  lemma ChatPayloadKeys(model: string, maxTokens: int, temperature: real, messages: seq<Message>, options: Payload)
    requires DistinctKeys(options)
    ensures DistinctKeys(ChatPayload(model, maxTokens, temperature, messages, options))
    ensures Keys(ChatPayload(model, maxTokens, temperature, messages, options)) == ChatKeys + Unseen(ChatKeys, Keys(options))
  {
    var base := ChatBase(model, maxTokens, temperature, messages);
    LiteralKeys(base, ChatKeys);
    BaseMerge(base, ChatKeys, options);
  }

  /** Each of the four settings is the client's own unless an option of the
      same key overrides it. */
  lemma ChatPayloadSettings(model: string, maxTokens: int, temperature: real, messages: seq<Message>, options: Payload)
    requires DistinctKeys(options)
    ensures var p := ChatPayload(model, maxTokens, temperature, messages, options);
      && Lookup(p, "model") == (if "model" in Keys(options) then Lookup(options, "model") else Some(JStr(model)))
      && Lookup(p, "messages") == (if "messages" in Keys(options) then Lookup(options, "messages") else Some(MessagesJson(messages)))
      && Lookup(p, "max_tokens") == (if "max_tokens" in Keys(options) then Lookup(options, "max_tokens") else Some(JInt(maxTokens)))
      && Lookup(p, "temperature") == (if "temperature" in Keys(options) then Lookup(options, "temperature") else Some(JNum(temperature)))
  {
    var base := ChatBase(model, maxTokens, temperature, messages);
    LiteralKeys(base, ChatKeys);
    BaseMergeKey(base, 0, options, "model", JStr(model));
    BaseMergeKey(base, 1, options, "messages", MessagesJson(messages));
    BaseMergeKey(base, 2, options, "max_tokens", JInt(maxTokens));
    BaseMergeKey(base, 3, options, "temperature", JNum(temperature));
  }

  /** Every other option is carried into the chat payload unchanged. */
  lemma ChatPayloadOptions(model: string, maxTokens: int, temperature: real, messages: seq<Message>, options: Payload, k: string)
    requires DistinctKeys(options) && k !in ChatKeys
    ensures Lookup(ChatPayload(model, maxTokens, temperature, messages, options), k) == Lookup(options, k)
  {
    var base := ChatBase(model, maxTokens, temperature, messages);
    LiteralKeys(base, ChatKeys);
    BaseMerge(base, ChatKeys, options);
  }

  const ImageKeys: seq<string> := ["prompt", "n", "size"]

  function ImageBase(prompt: string): Payload {
    [("prompt", JStr(prompt)), ("n", JInt(1)), ("size", JStr("1024x1024"))]
  }

  /** `array_merge(['prompt' => ..., 'n' => 1, 'size' => '1024x1024'], $options)`. */
  function ImagePayload(prompt: string, options: Payload): Payload {
    Merge(ImageBase(prompt), options)
  }

  /** The image payload's keys are `prompt`, `n` and `size`, followed by the
      options' new keys in their order; no key appears twice. */
  lemma ImagePayloadKeys(prompt: string, options: Payload)
    requires DistinctKeys(options)
    ensures DistinctKeys(ImagePayload(prompt, options))
    ensures Keys(ImagePayload(prompt, options)) == ImageKeys + Unseen(ImageKeys, Keys(options))
  {
    var base := ImageBase(prompt);
    LiteralKeys(base, ImageKeys);
    BaseMerge(base, ImageKeys, options);
  }

  /** The image payload asks for one 1024x1024 image of the prompt unless an
      option says otherwise. */
  lemma ImagePayloadSettings(prompt: string, options: Payload)
    requires DistinctKeys(options)
    ensures var p := ImagePayload(prompt, options);
      && Lookup(p, "prompt") == (if "prompt" in Keys(options) then Lookup(options, "prompt") else Some(JStr(prompt)))
      && Lookup(p, "n") == (if "n" in Keys(options) then Lookup(options, "n") else Some(JInt(1)))
      && Lookup(p, "size") == (if "size" in Keys(options) then Lookup(options, "size") else Some(JStr("1024x1024")))
  {
    var base := ImageBase(prompt);
    LiteralKeys(base, ImageKeys);
    BaseMergeKey(base, 0, options, "prompt", JStr(prompt));
    BaseMergeKey(base, 1, options, "n", JInt(1));
    BaseMergeKey(base, 2, options, "size", JStr("1024x1024"));
  }

  /** Every other option is carried into the image payload unchanged. */
  lemma ImagePayloadOptions(prompt: string, options: Payload, k: string)
    requires DistinctKeys(options) && k !in ImageKeys
    ensures Lookup(ImagePayload(prompt, options), k) == Lookup(options, k)
  {
    var base := ImageBase(prompt);
    LiteralKeys(base, ImageKeys);
    BaseMerge(base, ImageKeys, options);
  }

  /** What the payload builders need to know about merging options over a
      base array whose keys are `keys`. */
  lemma BaseMerge(base: Payload, keys: seq<string>, options: Payload)
    requires DistinctKeys(options) && DistinctKeys(base) && Keys(base) == keys
    ensures DistinctKeys(Merge(base, options))
    ensures Keys(Merge(base, options)) == keys + Unseen(keys, Keys(options))
    ensures forall k :: k !in keys ==> Lookup(Merge(base, options), k) == Lookup(options, k)
  {
    MergeDistinct(base, options);
    MergeKeys(base, options);
    forall k | k !in keys ensures Lookup(Merge(base, options), k) == Lookup(options, k) {
      MergeLookup(base, options, k);
    }
  }

  /** A key of the base array keeps its base value unless an option sets it. */
  lemma BaseMergeKey(base: Payload, i: nat, options: Payload, k: string, v: Json)
    requires DistinctKeys(options) && DistinctKeys(base)
    requires i < |base| && base[i] == (k, v)
    ensures Lookup(Merge(base, options), k) == if k in Keys(options) then Lookup(options, k) else Some(v)
  {
    LookupAt(base, i);
    MergeLookup(base, options, k);
  }

  // ------------------------------------------------- requests and responses

  const BaseUrl := "https://api.openai.com/v1"

  datatype HttpMethod = Post | Get

  /** What `makeRequest` hands to curl: the URL, the method, the header lines
      and the payload sent as the body, if any. */
  datatype Request = Request(url: string, verb: HttpMethod, headers: seq<string>, body: Option<Payload>)

  function DefaultHeaders(apiKey: string): seq<string> {
    ["Content-Type: application/json", "Authorization: Bearer " + apiKey]
  }

  /** The request `makeRequest($endpoint, $data, $method)` sends: a body only
      for a POST with a non-empty payload. */
  function BuildRequest(headers: seq<string>, endpoint: string, data: Payload, verb: HttpMethod): (q: Request)
    ensures q.url == BaseUrl + endpoint && q.verb == verb && q.headers == headers
    ensures q.body.Some? <==> verb == Post && data != []
    ensures q.body.Some? ==> q.body.value == data
  {
    Request(BaseUrl + endpoint, verb, headers, if verb == Post && data != [] then Some(data) else None)
  }

  /** A decoded response body, read defensively: `choices[0].message`,
      `usage` and `error.message`, each of which may be missing. */
  datatype Response = Response(
    reply: Option<Message>,
    usage: Option<seq<(string, int)>>,
    errorMessage: Option<string>)

  /** What curl brings back: `curl_error`, the HTTP status code and the
      decoded body. */
  datatype Exchange = Exchange(transportError: string, status: nat, body: Response)

  /** PHP's truth value of a string: only "" and "0" are false. */
  predicate Truthy(s: string) {
    s != "" && s != "0"
  }

  const ApiErrorPrefix := "OpenAI API Error ("

  /** The end of `makeRequest`: a transport error wins, then any status other
      than 200 is an API error, and otherwise the decoded body is returned. */
  function RequestOutcome(x: Exchange): (r: Result<Response, string>)
    ensures Truthy(x.transportError) ==> r == Failure("cURL Error: " + x.transportError)
    ensures !Truthy(x.transportError) && x.status != 200 ==>
      r == Failure(ApiErrorPrefix + Decimal(x.status) + "): " + x.body.errorMessage.GetOr("Unknown API error"))
    ensures r.Success? <==> !Truthy(x.transportError) && x.status == 200
    ensures r.Success? ==> r.value == x.body
  {
    if Truthy(x.transportError) then Failure("cURL Error: " + x.transportError)
    else if x.status != 200 then
      Failure(ApiErrorPrefix + Decimal(x.status) + "): " + x.body.errorMessage.GetOr("Unknown API error"))
    else Success(x.body)
  }

  /** The message of an API error names the status code, which can be read
      back from it. */
  lemma ApiErrorNamesStatus(x: Exchange)
    requires !Truthy(x.transportError) && x.status != 200
    ensures var msg := RequestOutcome(x).error;
      var digits := msg[|ApiErrorPrefix|..|ApiErrorPrefix| + |Decimal(x.status)|];
      msg[..|ApiErrorPrefix|] == ApiErrorPrefix && IsDigits(digits) && DecimalValue(digits) == x.status
  {
    var msg := RequestOutcome(x).error;
    var d := Decimal(x.status);
    assert msg == ApiErrorPrefix + d + ("): " + x.body.errorMessage.GetOr("Unknown API error"));
    assert msg[|ApiErrorPrefix|..|ApiErrorPrefix| + |d|] == d;
    DecimalRoundTrip(x.status);
  }

  /** `getResponseText`: `choices[0].message.content`, or "" when absent. */
  function GetResponseText(r: Response): (text: string)
    ensures r.reply.Some? ==> text == r.reply.value.content
    ensures r.reply.None? ==> text == ""
  {
    match r.reply
    case Some(m) => m.content
    case None => ""
  }

  /** `getUsage`: the `usage` array, or the empty array when absent. */
  function GetUsage(r: Response): (u: seq<(string, int)>)
    ensures r.usage.Some? ==> u == r.usage.value
    ensures r.usage.None? ==> u == []
  {
    match r.usage
    case Some(u) => u
    case None => []
  }

  /** `getUsage($response)['total_tokens'] ?? 0`. */
  function TokensUsed(r: Response): (n: int)
    ensures "total_tokens" !in Keys(GetUsage(r)) ==> n == 0
    ensures "total_tokens" in Keys(GetUsage(r)) ==> ("total_tokens", n) in GetUsage(r)
  {
    Lookup(GetUsage(r), "total_tokens").GetOr(0)
  }

  /** `estimateTokens`: `(int) ceil(strlen($text) / 4)`. */
  function EstimateTokens(text: string): (n: nat)
    ensures 4 * n - 4 < ByteLength(text) <= 4 * n
    ensures n == 0 <==> text == []
  {
    (ByteLength(text) + 3) / 4
  }

  /** A text with more bytes never gets a smaller estimate. */
  lemma EstimateTokensMonotone(s: string, t: string)
    requires ByteLength(s) <= ByteLength(t)
    ensures EstimateTokens(s) <= EstimateTokens(t)
  {
  }

  /** Appending text never lowers the estimate, and appending four bytes or
      more raises it. */
  lemma EstimateTokensAppend(s: string, t: string)
    ensures EstimateTokens(s) <= EstimateTokens(s + t)
    ensures ByteLength(t) >= 4 ==> EstimateTokens(s) < EstimateTokens(s + t)
  {
    ByteLengthAppend(s, t);
  }

  /** `max(0.0, min(2.0, $t))`. */
  function Clamp(t: real): (c: real)
    ensures 0.0 <= c <= 2.0
    ensures 0.0 <= t <= 2.0 ==> c == t
    ensures t < 0.0 ==> c == 0.0
    ensures t > 2.0 ==> c == 2.0
  {
    var m := if t < 2.0 then t else 2.0;
    if m > 0.0 then m else 0.0
  }

  // ------------------------------------------------------------- the client

  const DefaultModel := "gpt-3.5-turbo"
  const DefaultMaxTokens := 1000
  const DefaultTemperature := 0.7

  class ChatGPTHelper {
    const apiKey: string
    const defaultHeaders: seq<string>
    var model: string
    var maxTokens: int
    var temperature: real
    var conversation: seq<Message>

    constructor(apiKey: string)
      ensures this.apiKey == apiKey && defaultHeaders == DefaultHeaders(apiKey)
      ensures model == DefaultModel && maxTokens == DefaultMaxTokens && temperature == DefaultTemperature
      ensures conversation == []
    {
      this.apiKey := apiKey;
      defaultHeaders := DefaultHeaders(apiKey);
      model := DefaultModel;
      maxTokens := DefaultMaxTokens;
      temperature := DefaultTemperature;
      conversation := [];
    }

    method SetModel(model: string) returns (self: ChatGPTHelper)
      modifies this`model
      ensures self == this
      ensures this.model == model
    {
      self := this;
      this.model := model;
    }

    /** No bound is enforced on the token limit. */
    method SetMaxTokens(maxTokens: int) returns (self: ChatGPTHelper)
      modifies this`maxTokens
      ensures self == this
      ensures this.maxTokens == maxTokens
    {
      self := this;
      this.maxTokens := maxTokens;
    }

    method SetTemperature(temperature: real) returns (self: ChatGPTHelper)
      modifies this`temperature
      ensures self == this
      ensures this.temperature == Clamp(temperature)
      ensures 0.0 <= this.temperature <= 2.0
    {
      self := this;
      this.temperature := Clamp(temperature);
    }

    /** `makeRequest`: the request is built and sent, and what comes back
        is classified. */
    method MakeRequest(endpoint: string, data: Payload, verb: HttpMethod, server: Request -> Exchange)
      returns (sent: Request, outcome: Result<Response, string>)
      ensures sent == BuildRequest(defaultHeaders, endpoint, data, verb)
      ensures outcome == RequestOutcome(server(sent))
    {
      sent := BuildRequest(defaultHeaders, endpoint, data, verb);
      var exchange := server(sent);
      outcome := RequestOutcome(exchange);
    }

    method SendChatRequest(messages: seq<Message>, options: Payload, server: Request -> Exchange)
      returns (sent: Request, outcome: Result<Response, string>)
      ensures sent == BuildRequest(defaultHeaders, "/chat/completions",
        ChatPayload(model, maxTokens, temperature, messages, options), Post)
      ensures outcome == RequestOutcome(server(sent))
    {
      sent, outcome := MakeRequest("/chat/completions",
        ChatPayload(model, maxTokens, temperature, messages, options), Post, server);
    }

    /** A one-off request with the single message `{user, message}`; the
        conversation log is neither sent nor changed. */
    method Chat(message: string, options: Payload, server: Request -> Exchange)
      returns (sent: Request, outcome: Result<Response, string>)
      ensures sent == BuildRequest(defaultHeaders, "/chat/completions",
        ChatPayload(model, maxTokens, temperature, [Message(User, message)], options), Post)
      ensures outcome == RequestOutcome(server(sent))
    {
      sent, outcome := SendChatRequest([Message(User, message)], options, server);
    }

    /** The user turn is logged before the request and stays there whatever
        happens; the reply is logged only when the response carries one. */
    method Conversation(message: string, options: Payload, server: Request -> Exchange)
      returns (sent: Request, outcome: Result<Response, string>)
      modifies this`conversation
      ensures sent == BuildRequest(defaultHeaders, "/chat/completions",
        ChatPayload(model, maxTokens, temperature, old(conversation) + [Message(User, message)], options), Post)
      ensures outcome == RequestOutcome(server(sent))
      ensures conversation == AfterTurn(old(conversation), message, outcome)
    {
      conversation := conversation + [Message(User, message)];
      sent, outcome := SendChatRequest(conversation, options, server);
      if outcome.Success? && outcome.value.reply.Some? {
        conversation := conversation + [outcome.value.reply.value];
      }
    }

    method SetSystemPrompt(prompt: string) returns (self: ChatGPTHelper)
      modifies this`conversation
      ensures self == this
      ensures conversation == ReplaceSystemPrompt(old(conversation), prompt)
      ensures conversation[0] == Message(System, prompt) && SystemFirst(conversation)
      ensures WithoutSystem(conversation) == WithoutSystem(old(conversation))
    {
      self := this;
      conversation := WithoutSystem(conversation);
      conversation := [Message(System, prompt)] + conversation;
      ReplaceSystemPromptShape(old(conversation), prompt);
    }

    method ClearConversation() returns (self: ChatGPTHelper)
      modifies this`conversation
      ensures self == this
      ensures conversation == []
    {
      self := this;
      conversation := [];
    }

    /** The log, as a value: the caller cannot change the client's copy. */
    method GetConversation() returns (log: seq<Message>)
      ensures log == conversation
    {
      log := conversation;
    }

    /** `complete`: the same payload as `chat` with the prompt as the single
        user message. */
    method Complete(prompt: string, options: Payload, server: Request -> Exchange)
      returns (sent: Request, outcome: Result<Response, string>)
      ensures sent == BuildRequest(defaultHeaders, "/chat/completions",
        ChatPayload(model, maxTokens, temperature, [Message(User, prompt)], options), Post)
      ensures outcome == RequestOutcome(server(sent))
    {
      sent, outcome := MakeRequest("/chat/completions",
        ChatPayload(model, maxTokens, temperature, [Message(User, prompt)], options), Post, server);
    }

    method GenerateImage(prompt: string, options: Payload, server: Request -> Exchange)
      returns (sent: Request, outcome: Result<Response, string>)
      ensures sent == BuildRequest(defaultHeaders, "/images/generations", ImagePayload(prompt, options), Post)
      ensures outcome == RequestOutcome(server(sent))
    {
      sent, outcome := MakeRequest("/images/generations", ImagePayload(prompt, options), Post, server);
    }

    /** `getModels`: a GET without a body. */
    method GetModels(server: Request -> Exchange) returns (sent: Request, outcome: Result<Response, string>)
      ensures sent == Request(BaseUrl + "/models", Get, defaultHeaders, None)
      ensures outcome == RequestOutcome(server(sent))
    {
      sent, outcome := MakeRequest("/models", [], Get, server);
    }
  }

  /** A turn whose exchange succeeded with a reply logs the user turn and
      then that reply. */
  lemma AnsweredTurn(log: seq<Message>, message: string, x: Exchange)
    requires !Truthy(x.transportError) && x.status == 200 && x.body.reply.Some?
    ensures AfterTurn(log, message, RequestOutcome(x)) == log + [Message(User, message), x.body.reply.value]
  {
  }

  /** A fresh client given a system prompt and then two turns that both get
      a reply holds five messages: the prompt, then each user turn followed
      by its reply, and each request carried the whole log up to its turn. */
  method TwoTurnConversation(apiKey: string, prompt: string, first: string, second: string, server: Request -> Exchange)
    returns (log: seq<Message>, sent1: Request, sent2: Request)
    requires forall q :: !Truthy(server(q).transportError) && server(q).status == 200 && server(q).body.reply.Some?
    ensures |log| == 5
    ensures log[0] == Message(System, prompt) && log[1] == Message(User, first) && log[3] == Message(User, second)
    ensures sent1 == BuildRequest(DefaultHeaders(apiKey), "/chat/completions",
      ChatPayload(DefaultModel, DefaultMaxTokens, DefaultTemperature, log[..2], []), Post)
    ensures sent2 == BuildRequest(DefaultHeaders(apiKey), "/chat/completions",
      ChatPayload(DefaultModel, DefaultMaxTokens, DefaultTemperature, log[..4], []), Post)
    ensures log[2] == server(sent1).body.reply.value && log[4] == server(sent2).body.reply.value
  {
    var client := new ChatGPTHelper(apiKey);
    var _ := client.SetSystemPrompt(prompt);
    var log0 := client.conversation;
    assert log0 == [Message(System, prompt)];
    var outcome1, outcome2;
    sent1, outcome1 := client.Conversation(first, [], server);
    var log1 := client.conversation;
    AnsweredTurn(log0, first, server(sent1));
    sent2, outcome2 := client.Conversation(second, [], server);
    log := client.GetConversation();
    AnsweredTurn(log1, second, server(sent2));
    assert log[..2] == log0 + [Message(User, first)];
    assert log[..4] == log1 + [Message(User, second)];
  }
}
