/** The template-driven content generator (examples/content-generator.php):
    a fixed table of prompt templates with default parameters, the
    placeholder filling of `buildPrompt`, and `generateContent`, which fills a
    template and sends it through the chat client with fixed settings. */
module Content {
  import opened Wrappers
  import opened Assoc
  import opened Strings
  import opened Helper

  /** Template parameters: a PHP array of string keys and string values. */
  type Params = seq<(string, string)>

  datatype Template = Template(prompt: string, defaults: Params)

  const BlogPostTemplate := "Write a {tone} blog post about '{topic}' for {audience}. Include an engaging title, introduction, {sections} main sections, and conclusion. Target length: {word_count} words."
  const ProductDescriptionTemplate := "Write a compelling product description for '{product_name}'. Highlight {key_features} key features, target {audience}, and include a call-to-action. Tone: {tone}. Length: {word_count} words."
  const SocialMediaTemplate := "Create {platform} posts about '{topic}'. Generate {count} variations with {tone} tone. Include relevant hashtags and call-to-action where appropriate."
  const EmailCampaignTemplate := "Write an email for '{campaign_type}' campaign. Subject: '{subject}'. Target audience: {audience}. Tone: {tone}. Include personalization placeholders and clear CTA."
  const PressReleaseTemplate := "Write a press release about '{announcement}' for {company}. Include headline, dateline, body with quotes, and boilerplate. Follow AP style. Target length: {word_count} words."

  const BlogPost := Template(BlogPostTemplate,
    [("tone", "professional"), ("audience", "general readers"), ("sections", "3-4"), ("word_count", "800-1000")])
  const ProductDescription := Template(ProductDescriptionTemplate,
    [("tone", "persuasive"), ("audience", "potential customers"), ("key_features", "3-5"), ("word_count", "150-200")])
  const SocialMedia := Template(SocialMediaTemplate,
    [("platform", "LinkedIn"), ("count", "3"), ("tone", "engaging")])
  const EmailCampaign := Template(EmailCampaignTemplate,
    [("campaign_type", "newsletter"), ("audience", "subscribers"), ("tone", "friendly")])
  const PressRelease := Template(PressReleaseTemplate,
    [("company", "our company"), ("word_count", "400-500")])

  /** The five templates, in the order they are declared. */
  const TemplateTable: seq<(string, Template)> :=
    [("blog_post", BlogPost), ("product_description", ProductDescription), ("social_media", SocialMedia),
     ("email_campaign", EmailCampaign), ("press_release", PressRelease)]

  const ContentTypes: seq<string> :=
    ["blog_post", "product_description", "social_media", "email_campaign", "press_release"]

  /** The table is a PHP array keyed by the five content types, in order. */
  lemma TemplateTableKeys()
    ensures Keys(TemplateTable) == ContentTypes && DistinctKeys(TemplateTable)
  {
    LiteralKeys(TemplateTable, ContentTypes);
  }

  /** `'{' . $key . '}'`. */
  function Placeholder(key: string): (p: string)
    ensures |p| == |key| + 2 && p[0] == '{' && p[|p| - 1] == '}' && p[1..|p| - 1] == key
  {
    "{" + key + "}"
  }

  /** What `buildPrompt` computes: each parameter's placeholder replaced by
      its value, one parameter after the other in the array's order, so a
      later replacement also sees the text an earlier one brought in. */
  function Fill(t: string, params: Params): string
    decreases |params|
  {
    if params == [] then t
    else Fill(ReplaceAll(t, Placeholder(params[0].0), params[0].1), params[1..])
  }

  /** Filling with two arrays in turn is filling with their concatenation. */
  lemma {:induction false} FillAppend(t: string, a: Params, b: Params)
    ensures Fill(t, a + b) == Fill(Fill(t, a), b)
    decreases |a|
  {
    if a == [] {
      assert a + b == b;
    } else {
      assert (a + b)[0] == a[0] && (a + b)[1..] == a[1..] + b;
      FillAppend(ReplaceAll(t, Placeholder(a[0].0), a[0].1), a[1..], b);
    }
  }

  /** A text holding none of the parameters' placeholders comes back as it
      is: a placeholder without a parameter is left in the prompt. */
  lemma {:induction false} FillAbsent(t: string, params: Params)
    requires forall i :: 0 <= i < |params| ==> !Contains(t, Placeholder(params[i].0))
    ensures Fill(t, params) == t
    decreases |params|
  {
    if params != [] {
      ReplaceAllAbsent(t, Placeholder(params[0].0), params[0].1);
      assert forall i :: 0 <= i < |params[1..]| ==> params[1..][i] == params[i + 1];
      FillAbsent(t, params[1..]);
    }
  }

  /** A parameter whose value is its own placeholder changes nothing. */
  lemma FillIdentity(t: string, key: string, rest: Params)
    ensures Fill(t, [(key, Placeholder(key))] + rest) == Fill(t, rest)
  {
    var ps := [(key, Placeholder(key))] + rest;
    ReplaceAllSelf(t, Placeholder(key));
    assert ps[1..] == rest;
  }

  /** What `generateContent` returns once the template is found. */
  datatype Generation =
    | Generated(content: string, contentType: string, parameters: Params, tokensUsed: int)
    | GenerationFailed(error: string, contentType: string)

  /** The result array for the outcome of the chat request: the reply text
      and token count on success, the exception's message otherwise. */
  function GenerationOf(outcome: Result<Response, string>, contentType: string, params: Params): (g: Generation)
    ensures g.contentType == contentType
    ensures g.Generated? <==> outcome.Success?
    ensures outcome.Success? ==>
      g == Generated(GetResponseText(outcome.value), contentType, params, TokensUsed(outcome.value))
    ensures outcome.Failure? ==> g.error == outcome.error
  {
    match outcome
    case Success(r) => Generated(GetResponseText(r), contentType, params, TokensUsed(r))
    case Failure(e) => GenerationFailed(e, contentType)
  }

  const UnknownTypePrefix := "Unknown content type: "

  class ContentGenerator {
    const chatGPT: ChatGPTHelper
    const templates: seq<(string, Template)> := TemplateTable

    constructor(apiKey: string)
      ensures fresh(chatGPT) && chatGPT.apiKey == apiKey && chatGPT.defaultHeaders == DefaultHeaders(apiKey)
      ensures chatGPT.model == DefaultModel && chatGPT.maxTokens == DefaultMaxTokens
      ensures chatGPT.temperature == DefaultTemperature && chatGPT.conversation == []
    {
      chatGPT := new ChatGPTHelper(apiKey);
    }

    /** `getAvailableTypes`: the template keys in declaration order. */
    function AvailableTypes(): (types: seq<string>)
      ensures types == ContentTypes
    {
      TemplateTableKeys();
      Keys(templates)
    }

    /** `getTemplateInfo`: the template of a known type, nothing otherwise. */
    function TemplateInfo(contentType: string): (r: Option<Template>)
      ensures r.Some? <==> contentType in ContentTypes
      ensures r.Some? ==> (contentType, r.value) in TemplateTable
    {
      TemplateTableKeys();
      Lookup(templates, contentType)
    }

    /** `buildPrompt`: the loop over the parameters, replacing one
        placeholder at a time. */
    method BuildPrompt(template: string, params: Params) returns (prompt: string)
      ensures prompt == Fill(template, params)
    {
      prompt := template;
      for i := 0 to |params|
        invariant Fill(prompt, params[i..]) == Fill(template, params)
      {
        assert params[i..][1..] == params[i + 1..];
        prompt := ReplaceAll(prompt, Placeholder(params[i].0), params[i].1);
      }
    }

    /** `generateContent`. An unknown type is rejected before anything
        changes or is sent. Otherwise the caller's parameters are merged over
        the template's defaults, the client's settings are fixed and the
        filled prompt goes out as a one-off chat; a failed request becomes a
        `GenerationFailed` result instead of an exception. */
    method GenerateContent(contentType: string, params: Params, server: Request -> Exchange)
      returns (sent: Option<Request>, result: Result<Generation, string>)
      modifies chatGPT`temperature, chatGPT`maxTokens, chatGPT`model
      ensures Lookup(templates, contentType).None? ==>
        result == Failure(UnknownTypePrefix + contentType) && sent == None && unchanged(chatGPT)
      ensures Lookup(templates, contentType).Some? ==>
        var t := Lookup(templates, contentType).value;
        var prompt := Fill(t.prompt, Merge(t.defaults, params));
        && chatGPT.temperature == 0.8 && chatGPT.maxTokens == 1500 && chatGPT.model == "gpt-3.5-turbo"
        && sent == Some(BuildRequest(chatGPT.defaultHeaders, "/chat/completions",
             ChatPayload(chatGPT.model, chatGPT.maxTokens, chatGPT.temperature, [Message(User, prompt)], []), Post))
        && result == Success(GenerationOf(RequestOutcome(server(sent.value)), contentType, params))
    {
      var info := Lookup(templates, contentType);
      if info.None? {
        return None, Failure(UnknownTypePrefix + contentType);
      }
      var t := info.value;
      var prompt := BuildPrompt(t.prompt, Merge(t.defaults, params));
      var _ := chatGPT.SetTemperature(0.8);
      var _ := chatGPT.SetMaxTokens(1500);
      var _ := chatGPT.SetModel("gpt-3.5-turbo");
      assert chatGPT.temperature == 0.8;
      var request, outcome := chatGPT.Chat(prompt, [], server);
      sent := Some(request);
      result := Success(GenerationOf(outcome, contentType, params));
    }
  }
}
