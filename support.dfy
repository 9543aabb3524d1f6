/** The customer-support bot (examples/support-bot.php): a chat client primed
    with a system prompt that carries the company's knowledge base, ticket
    handling inside one running conversation, keyword-based escalation, a
    conversation summary and a reset back to the primed state. */
module Support {
  import opened Wrappers
  import opened Assoc
  import opened Json
  import opened Strings
  import opened Helper

  const Company := "TechCorp Solutions"

  /** The knowledge base, as the nested PHP array `json_encode` receives. */
  const KnowledgeBase: Json := JObj([
    ("company", JStr(Company)),
    ("products", JObj([
      ("CloudHost Pro", JStr("Premium web hosting with 99.9% uptime")),
      ("DataSync", JStr("Real-time data synchronization service")),
      ("SecureVault", JStr("Encrypted cloud storage solution"))])),
    ("support_hours", JStr("Monday-Friday 9 AM - 6 PM EST")),
    ("escalation_email", JStr("escalate@techcorp.com")),
    ("common_issues", JObj([
      ("login", JStr("Reset password at /forgot-password or contact support")),
      ("billing", JStr("View invoices in account dashboard or email billing@techcorp.com")),
      ("downtime", JStr("Check status page at status.techcorp.com"))]))])

  const IntroLead := "You are a helpful customer support assistant for "
  /** The first line ends in a space before the blank line. */
  const IntroTail := ". \n\nYour knowledge base:\n"
  const Guidelines := "\n\nGuidelines:\n1. Be friendly, professional, and empathetic\n2. Use the knowledge base to answer questions accurately\n3. If you don't know something, admit it and offer to escalate\n4. Always try to solve the customer's problem\n5. Keep responses concise but helpful\n6. Ask clarifying questions when needed"

  /** The system prompt for `company` with the rendered knowledge base: the
      introduction naming the company, the knowledge verbatim, and the six
      guidelines last. */
  function SystemPrompt(company: string, knowledge: string): (p: string)
    ensures var n := |IntroLead| + |company| + |IntroTail|;
      && |p| == n + |knowledge| + |Guidelines|
      && p[..|IntroLead|] == IntroLead
      && p[|IntroLead|..|IntroLead| + |company|] == company
      && p[|IntroLead| + |company|..n] == IntroTail
      && p[n..n + |knowledge|] == knowledge
      && p[n + |knowledge|..] == Guidelines
  {
    var head := IntroLead + company + IntroTail;
    Concat3(IntroLead, company, IntroTail);
    Concat3(head, knowledge, Guidelines);
    head + knowledge + Guidelines
  }

  const EscalationKeywords: seq<string> :=
    ["escalate", "supervisor", "manager", "complex", "technical team", "specialist"]

  /** `text` contains one of `keywords`. */
  predicate MentionsAny(text: string, keywords: seq<string>) {
    exists j :: 0 <= j < |keywords| && Contains(text, keywords[j])
  }

  /** The reply text, lower-cased, mentions one of the escalation keywords. */
  predicate Escalates(text: string) {
    MentionsAny(AsciiLower(text), EscalationKeywords)
  }

  /** The order in which the keywords are tried does not matter. */
  lemma MentionsAnyOrder(text: string, k1: seq<string>, k2: seq<string>)
    requires multiset(k1) == multiset(k2)
    ensures MentionsAny(text, k1) <==> MentionsAny(text, k2)
  {
    if MentionsAny(text, k1) {
      var j :| 0 <= j < |k1| && Contains(text, k1[j]);
      assert k1[j] in multiset(k2);
      var i :| 0 <= i < |k2| && k2[i] == k1[j];
    }
    if MentionsAny(text, k2) {
      var j :| 0 <= j < |k2| && Contains(text, k2[j]);
      assert k2[j] in multiset(k1);
      var i :| 0 <= i < |k1| && k1[i] == k2[j];
    }
  }

  /** Escalation does not depend on letter case. */
  lemma EscalatesIgnoresCase(text: string)
    ensures Escalates(AsciiLower(text)) <==> Escalates(text)
  {
    AsciiLowerIdempotent(text);
  }

  /** A reply that mentions a keyword, in any mix of upper and lower case,
      is escalated. */
  lemma EscalatesWhenMentioned(text: string, j: nat, at: nat)
    requires j < |EscalationKeywords| && at + |EscalationKeywords[j]| <= |text|
    requires AsciiLower(text[at..at + |EscalationKeywords[j]|]) == EscalationKeywords[j]
    ensures Escalates(text)
  {
    var k := EscalationKeywords[j];
    assert AsciiLower(text)[at..at + |k|] == AsciiLower(text[at..at + |k|]);
    assert OccursAt(AsciiLower(text), k, at);
  }

  /** A reply without text is never escalated. */
  lemma EmptyReplyNotEscalated()
    ensures !Escalates("")
  {
    assert AsciiLower("") == "";
    forall j | 0 <= j < |EscalationKeywords| ensures !Contains("", EscalationKeywords[j]) {
      assert |EscalationKeywords[j]| > 0;
    }
  }

  const CustomerInfoLabel := "Customer Info: "
  const CustomerMessageLabel := "\n\nCustomer Message: "

  /** The message `handleTicket` logs: the customer's own words when no
      customer information is given, and otherwise the encoded information
      followed by the words, which end the message unchanged. */
  function ContextualMessage(message: string, info: Payload, encode: Encoder): (m: string)
    ensures info == [] ==> m == message
    ensures info != [] ==>
      var e := encode(JObj(info), false);
      var n := |CustomerInfoLabel| + |e|;
      && |m| == n + |CustomerMessageLabel| + |message|
      && m[..|CustomerInfoLabel|] == CustomerInfoLabel
      && m[|CustomerInfoLabel|..n] == e
      && m[n..n + |CustomerMessageLabel|] == CustomerMessageLabel
      && m[n + |CustomerMessageLabel|..] == message
  {
    if info == [] then message
    else
      var e := encode(JObj(info), false);
      Concat3(CustomerInfoLabel + e, CustomerMessageLabel, message);
      Concat3(CustomerInfoLabel, e, CustomerMessageLabel);
      CustomerInfoLabel + e + CustomerMessageLabel + message
  }

  const FallbackResponse := "I'm experiencing technical difficulties. Please email support@techcorp.com or try again later."

  /** What `handleTicket` returns. */
  datatype Ticket =
    | Answered(response: string, tokensUsed: int, needsEscalation: bool)
    | Unanswered(error: string, fallbackResponse: string)

  /** The ticket result for the outcome of the conversation turn. */
  function TicketOf(outcome: Result<Response, string>): (t: Ticket)
    ensures t.Answered? <==> outcome.Success?
    ensures outcome.Success? ==>
      t == Answered(GetResponseText(outcome.value), TokensUsed(outcome.value), Escalates(GetResponseText(outcome.value)))
    ensures outcome.Failure? ==> t == Unanswered(outcome.error, FallbackResponse)
  {
    match outcome
    case Success(r) => Answered(GetResponseText(r), TokensUsed(r), Escalates(GetResponseText(r)))
    case Failure(e) => Unanswered(e, FallbackResponse)
  }

  /** `array_filter($history, fn($msg) => $msg['role'] === 'user')`. */
  function UserMessages(log: seq<Message>): seq<Message> {
    if log == [] then []
    else (if log[0].role == User then [log[0]] else []) + UserMessages(log[1..])
  }

  /** The filter is empty exactly when no message of the log is the user's. */
  lemma {:induction false} UserMessagesEmpty(log: seq<Message>)
    ensures UserMessages(log) == [] <==> forall i :: 0 <= i < |log| ==> log[i].role != User
  {
    if log != [] {
      UserMessagesEmpty(log[1..]);
      forall i | 0 < i < |log| ensures log[i] == log[1..][i - 1] { }
    }
  }

  /** A log holding only the system prompt has no user message yet. */
  lemma PrimedLogHasNoUserMessage(prompt: string)
    ensures UserMessages([Message(System, prompt)]) == []
  {
    assert [Message(System, prompt)][1..] == [];
  }

  const SummaryInstruction := "Summarize this customer support conversation in 2-3 sentences, focusing on the main issue and resolution status:\n\n"
  const NoConversation := "No conversation yet."
  const SummaryUnavailable := "Unable to generate conversation summary."

  /** The summary the bot gives for the outcome of its summary request. */
  function SummaryOf(outcome: Result<Response, string>): (s: string)
    ensures outcome.Success? ==> s == GetResponseText(outcome.value)
    ensures outcome.Failure? ==> s == SummaryUnavailable
  {
    match outcome
    case Success(r) => GetResponseText(r)
    case Failure(_) => SummaryUnavailable
  }

  class SupportBot {
    const chatGPT: ChatGPTHelper
    /** `json_encode`, which lies outside the model. */
    const encode: Encoder

    /** A new client primed with the system prompt and the support settings. */
    constructor(apiKey: string, encode: Encoder)
      ensures fresh(chatGPT) && chatGPT.defaultHeaders == DefaultHeaders(apiKey)
      ensures this.encode == encode
      ensures chatGPT.conversation == [Message(System, SystemPrompt(Company, encode(KnowledgeBase, true)))]
      ensures chatGPT.temperature == 0.3 && chatGPT.maxTokens == 300 && chatGPT.model == DefaultModel
    {
      chatGPT := new ChatGPTHelper(apiKey);
      this.encode := encode;
      new;
      SetupSystemPrompt();
    }

    /** `setupSystemPrompt`: the system prompt is replaced, then the
        temperature is lowered to 0.3 and the token limit set to 300. */
    method SetupSystemPrompt()
      modifies chatGPT`conversation, chatGPT`temperature, chatGPT`maxTokens
      ensures chatGPT.conversation
           == ReplaceSystemPrompt(old(chatGPT.conversation), SystemPrompt(Company, encode(KnowledgeBase, true)))
      ensures chatGPT.temperature == 0.3 && chatGPT.maxTokens == 300
    {
      var knowledge := encode(KnowledgeBase, true);
      var _ := chatGPT.SetSystemPrompt(SystemPrompt(Company, knowledge));
      var _ := chatGPT.SetTemperature(0.3);
      var _ := chatGPT.SetMaxTokens(300);
      assert chatGPT.temperature == 0.3;
    }

    /** `detectEscalation`: the keywords are tried in turn and the first
        one found in the lower-cased reply ends the search. */
    method DetectEscalation(response: Response) returns (escalate: bool)
      ensures escalate <==> Escalates(GetResponseText(response))
    {
      var text := AsciiLower(GetResponseText(response));
      for i := 0 to |EscalationKeywords|
        invariant forall j :: 0 <= j < i ==> !Contains(text, EscalationKeywords[j])
      {
        if Contains(text, EscalationKeywords[i]) {
          return true;
        }
      }
      return false;
    }

    /** `handleTicket`: the contextual message is a turn of the running
        conversation, so the user turn stays logged even when the request
        fails, and a failure gives the fallback answer. */
    method HandleTicket(message: string, info: Payload, server: Request -> Exchange)
      returns (sent: Request, ticket: Ticket)
      modifies chatGPT`conversation
      ensures var text := ContextualMessage(message, info, encode);
        && sent == BuildRequest(chatGPT.defaultHeaders, "/chat/completions",
             ChatPayload(chatGPT.model, chatGPT.maxTokens, chatGPT.temperature,
               old(chatGPT.conversation) + [Message(User, text)], []), Post)
        && chatGPT.conversation == AfterTurn(old(chatGPT.conversation), text, RequestOutcome(server(sent)))
        && ticket == TicketOf(RequestOutcome(server(sent)))
    {
      var text := ContextualMessage(message, info, encode);
      var outcome;
      sent, outcome := chatGPT.Conversation(text, [], server);
      match outcome {
        case Success(r) =>
          var escalate := DetectEscalation(r);
          ticket := Answered(GetResponseText(r), TokensUsed(r), escalate);
        case Failure(e) =>
          ticket := Unanswered(e, FallbackResponse);
      }
    }

    /** `getConversationSummary`: without a user message there is nothing
        to summarize and nothing is sent; otherwise the whole log, rendered
        as pretty-printed JSON, is summarized by a one-off request that
        leaves the log as it is. */
    method GetConversationSummary(server: Request -> Exchange) returns (sent: Option<Request>, summary: string)
      ensures UserMessages(chatGPT.conversation) == [] ==> sent == None && summary == NoConversation
      ensures UserMessages(chatGPT.conversation) != [] ==>
        var prompt := SummaryInstruction + encode(MessagesJson(chatGPT.conversation), true);
        && sent == Some(BuildRequest(chatGPT.defaultHeaders, "/chat/completions",
             ChatPayload(chatGPT.model, chatGPT.maxTokens, chatGPT.temperature, [Message(User, prompt)], []), Post))
        && summary == SummaryOf(RequestOutcome(server(sent.value)))
    {
      var history := chatGPT.GetConversation();
      if UserMessages(history) == [] {
        return None, NoConversation;
      }
      var prompt := SummaryInstruction + encode(MessagesJson(history), true);
      var request, outcome := chatGPT.Chat(prompt, [], server);
      sent := Some(request);
      summary := SummaryOf(outcome);
    }

    /** `resetConversation`: the log is cleared and the bot primed again, so
        only the system prompt remains. */
    method ResetConversation()
      modifies chatGPT`conversation, chatGPT`temperature, chatGPT`maxTokens
      ensures chatGPT.conversation == [Message(System, SystemPrompt(Company, encode(KnowledgeBase, true)))]
      ensures chatGPT.temperature == 0.3 && chatGPT.maxTokens == 300
    {
      var _ := chatGPT.ClearConversation();
      SetupSystemPrompt();
      assert WithoutSystem([]) == [];
    }
  }
}
