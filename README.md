# php-chatgpt-helper, modelled in Dafny

This project models the in-memory part of `ChatGPTHelper`, a small PHP client for the OpenAI chat-completions API, together with the two example classes built on it. It proves properties of that model.

- **The client** (`Helper`, helper.dfy). It models:
  - the conversation log, a sequence of `{role, content}` messages, and the three generation settings (model, token limit and temperature) that the setters change in place;
  - `chat`, `conversation`, `complete`, `generateImage` and `getModels`;
  - the request payload, built by `array_merge` of the base fields with the caller's options;
  - the classification at the end of `makeRequest`: a transport error, an API error or the decoded body;
  - the accessors `getResponseText` and `getUsage`, and the `estimateTokens` heuristic.
- **The content generator** (`Content`, content.dfy). It models:
  - the fixed table of five prompt templates, which `getAvailableTypes` and `getTemplateInfo` read;
  - `buildPrompt`, a loop of `{key}` to value replacements;
  - `generateContent`. It rejects an unknown type, merges the caller's parameters over the defaults, fixes the settings and sends the filled prompt.
- **The support bot** (`Support`, support.dfy). It models:
  - the system prompt, which embeds the knowledge base;
  - `handleTicket` with its contextual message;
  - the keyword escalation detector;
  - the conversation summary with its empty-history guard;
  - `resetConversation`.

Shared modules:
- `Assoc` (assoc.dfy) models PHP arrays with string keys as ordered association lists, with `array_merge`. A key keeps its first position and takes the later value.
- `Strings` (strings.dfy) models `strlen` as UTF-8 byte length, `strtolower` (ASCII only, as in PHP 8), `strpos` as containment, `str_replace` as a left-to-right, non-overlapping replacement, and the decimal rendering of a status code.
- `Json` (json.dfy) holds the values handed to `json_encode`.
- `Wrappers` (wrappers.dfy) holds `Option` and `Result`.

The network is a parameter. Every method that sends a request takes a function `server: Request -> Exchange`. It maps the request sent to what came back: the curl error string, the HTTP status and the decoded body. The method returns the request it built, so its contract can say exactly what was sent. `json_encode` is also a parameter (`Encoder`), about which nothing is assumed.

A PHP exception thrown by `makeRequest` becomes a `Failure(message)` outcome with the exception's message. The examples' `try`/`catch` blocks then turn that outcome into their failure results.

Some details of the code are easy to miss:
- Any status other than exactly 200 is an API error, 201 and 204 included.
- `setMaxTokens` stores any integer, zero and negatives included.
- The options are merged over all four base fields of the chat payload, so they may override `messages` too.
- `if ($error)` is PHP truthiness. A transport error of `"0"` is therefore ignored like an empty one (`Helper.Truthy`).

## Model

| member | source | states |
|---|---|---|
| Helper.ChatGPTHelper.constructor | src/ChatGPTHelper.php:7-22 | a new client has model `gpt-3.5-turbo`, token limit 1000, temperature 0.7, an empty log, and the JSON content type and bearer-token headers |
| Helper.ChatGPTHelper.SetModel | src/ChatGPTHelper.php:27-31 | the model becomes the given name and nothing else changes; the client itself is returned, for chaining |
| Helper.ChatGPTHelper.SetMaxTokens | src/ChatGPTHelper.php:36-40 | the token limit becomes the given integer, unchecked, and nothing else changes; the client itself is returned, for chaining |
| Helper.ChatGPTHelper.SetTemperature | src/ChatGPTHelper.php:45-49 | the stored temperature is the clamped value, which always lies in [0, 2]; the call has no precondition; the client itself is returned, for chaining |
| Helper.Clamp | src/ChatGPTHelper.php:47 | `max(0, min(2, t))`: always in [0, 2], equal to `t` inside the range, 0 below it and 2 above it |
| Helper.ChatGPTHelper.Chat | src/ChatGPTHelper.php:54-61 | the chat payload for the message list `[{user, message}]` and the current settings, merged with the options, so an option of the same key (`messages` included) overrides a base field; the log is not in the frame, so it is unchanged |
| Helper.AfterTurn | src/ChatGPTHelper.php:66-77 | definition: the log plus `{user, message}`, plus the reply only when the outcome is a body with `choices[0].message`; its properties are `AfterTurnKeepsShape` and `AnsweredTurn` |
| Helper.ChatGPTHelper.Conversation | src/ChatGPTHelper.php:66-77 | the request carries the chat payload for the old log plus `{user, message}` and the current settings, merged with the options, so an option of the same key (`messages` included) overrides a base field; afterwards the log is that, plus the reply exactly when the outcome is a body with `choices[0].message`, so a failed request leaves the user turn logged |
| Helper.AfterTurnKeepsShape | src/ChatGPTHelper.php:66-77 | for every log and every outcome, a turn never removes or reorders logged messages, appends the user turn at the old end and grows the log by one or two; a log with no system message after index 0 keeps that shape when the reply is not a system message |
| Helper.AnsweredTurn | src/ChatGPTHelper.php:68-74 | a successful exchange that has a reply logs the user turn and then exactly that reply |
| Helper.TwoTurnConversation | src/ChatGPTHelper.php:66-93 | a system prompt and two answered turns give five entries: prompt, user, reply, user, reply; each request carried the whole log up to its own user turn |
| Helper.WithoutSystem | src/ChatGPTHelper.php:85-87 | definition: the log with every system message dropped and the rest kept in order and renumbered; its properties are `WithoutSystemCounts`, `WithoutSystemClean` and `WithoutSystemAppend` |
| Helper.ReplaceSystemPrompt | src/ChatGPTHelper.php:82-93 | definition: `{system, prompt}` followed by the filtered log; its properties are `ReplaceSystemPromptShape` and `ReplaceSystemPromptTwice` |
| Helper.ChatGPTHelper.SetSystemPrompt | src/ChatGPTHelper.php:82-93 | the new log is the old one with every system message removed and `{system, prompt}` put at index 0; it is the only system message; the client itself is returned, for chaining |
| Helper.ReplaceSystemPromptShape | src/ChatGPTHelper.php:82-93 | after replacement, index 0 is the new prompt, exactly one system message exists, and the non-system messages are the old ones in their old order |
| Helper.ReplaceSystemPromptTwice | src/ChatGPTHelper.php:82-93 | setting the prompt twice equals setting it once to the second prompt |
| Helper.SystemFirstIff | src/ChatGPTHelper.php:82-93 | "no system message after index 0" is equivalent to "at most one system message, and if one, it is first" |
| Helper.WithoutSystemCounts | src/ChatGPTHelper.php:85-87 | the filter keeps each non-system message as many times as it occurred and drops every system message |
| Helper.WithoutSystemClean | src/ChatGPTHelper.php:85-87 | the filtered log has no system message, and filtering it again changes nothing |
| Helper.WithoutSystemAppend | src/ChatGPTHelper.php:85-87 | filtering distributes over concatenation, so relative order is kept |
| Helper.ChatGPTHelper.ClearConversation | src/ChatGPTHelper.php:98-102 | the log becomes empty, whatever it held, system prompt included; the client itself is returned, for chaining |
| Helper.ChatGPTHelper.GetConversation | src/ChatGPTHelper.php:107-110 | returns the log as a value |
| Helper.ChatGPTHelper.Complete | src/ChatGPTHelper.php:115-125 | sends the chat payload with the prompt as the only user message, merged with the options |
| Helper.ChatGPTHelper.GenerateImage | src/ChatGPTHelper.php:130-139 | sends the image payload to `/images/generations` |
| Helper.ImagePayload | src/ChatGPTHelper.php:132-136 | definition: `array_merge` of `prompt`, `n` = 1 and `size` = `1024x1024` with the options; its properties are `ImagePayloadKeys`, `ImagePayloadSettings` and `ImagePayloadOptions` |
| Helper.ImagePayloadKeys | src/ChatGPTHelper.php:132-136 | the keys are `prompt`, `n`, `size`, then the options' new keys in their order; no key appears twice |
| Helper.ImagePayloadSettings | src/ChatGPTHelper.php:132-136 | `prompt` is the prompt, `n` is 1 and `size` is `1024x1024`, unless an option of the same key overrides it |
| Helper.ImagePayloadOptions | src/ChatGPTHelper.php:132-136 | every other option key is carried into the payload with its value |
| Helper.ChatGPTHelper.GetModels | src/ChatGPTHelper.php:144-147 | a GET to `/models` without a body |
| Helper.EstimateTokens | src/ChatGPTHelper.php:152-156 | the estimate `n` is the least integer with `4n >= strlen(text)`; it is 0 exactly for the empty text |
| Helper.EstimateTokensMonotone | src/ChatGPTHelper.php:152-156 | a text with at least as many bytes never gets a smaller estimate |
| Helper.EstimateTokensAppend | src/ChatGPTHelper.php:152-156 | appending never lowers the estimate, and appending four or more bytes raises it |
| Helper.ChatGPTHelper.SendChatRequest | src/ChatGPTHelper.php:161-171 | sends the chat payload for the current settings and the given messages to `/chat/completions` |
| Helper.ChatPayload | src/ChatGPTHelper.php:163-168 | definition: `array_merge` of `model`, `messages`, `max_tokens` and `temperature` with the options, as also built at lines 117-122; its properties are `ChatPayloadKeys`, `ChatPayloadSettings` and `ChatPayloadOptions` |
| Helper.ChatPayloadKeys | src/ChatGPTHelper.php:163-168 | the keys are `model`, `messages`, `max_tokens`, `temperature`, then the options' new keys in their order; no key appears twice |
| Helper.ChatPayloadSettings | src/ChatGPTHelper.php:163-168 | each of the four base keys holds the client's current setting, or the given messages, unless an option of the same key overrides it |
| Helper.ChatPayloadOptions | src/ChatGPTHelper.php:163-168 | every other option key is carried into the payload with its value |
| Helper.BuildRequest | src/ChatGPTHelper.php:176-191 | the URL is the base URL plus the endpoint; a body is sent exactly for a POST with a non-empty payload, and it is that payload |
| Helper.ChatGPTHelper.MakeRequest | src/ChatGPTHelper.php:176-210 | sends the built request and returns the classification of what came back |
| Helper.Truthy | src/ChatGPTHelper.php:198 | definition: PHP's truth value of a string, false exactly for `""` and `"0"` |
| Helper.RequestOutcome | src/ChatGPTHelper.php:198-209 | a truthy transport error gives `cURL Error: <err>` whatever the status; otherwise any status but 200 gives `OpenAI API Error (<status>): <error.message or Unknown API error>`; the outcome is a success exactly when neither applies, and then it is the decoded body |
| Helper.ApiErrorNamesStatus | src/ChatGPTHelper.php:204-207 | the API error message starts with its prefix followed by decimal digits that read back as the status code |
| Helper.GetResponseText | src/ChatGPTHelper.php:215-218 | the reply's content when `choices[0].message` is present, `""` otherwise |
| Helper.GetUsage | src/ChatGPTHelper.php:223-226 | the `usage` array when present, the empty array otherwise |
| Helper.TokensUsed | examples/content-generator.php:87 | 0 when the usage has no `total_tokens`, otherwise the value stored there |
| Assoc.Lookup | examples/content-generator.php:240 | a value is found exactly when the key is among the array's keys, and it is stored under that key |
| Assoc.Merge | examples/content-generator.php:72 | definition: `array_merge` on string keys, each entry of the second array put in turn, an existing key keeping its position and taking the new value; its properties are `MergeLookup`, `MergeKeys` and `MergeDistinct` |
| Assoc.MergeLookup | examples/content-generator.php:72 | after `array_merge(a, b)`, a key of `b` holds `b`'s value and every other key holds `a`'s |
| Assoc.MergeKeys | examples/content-generator.php:72 | after `array_merge(a, b)`, the keys are `a`'s in place, then `b`'s keys missing from `a`, in `b`'s order |
| Assoc.MergeDistinct | examples/content-generator.php:72 | merging never creates a duplicate key |
| Strings.ByteLength | src/ChatGPTHelper.php:155 | `strlen` lies between the number of characters and four times it |
| Strings.ByteLengthAppend | src/ChatGPTHelper.php:155 | `strlen` is additive over concatenation |
| Strings.ReplaceAll | examples/content-generator.php:216 | definition: `str_replace` of one pattern, scanning left to right and replacing non-overlapping occurrences, the empty pattern replacing nothing; its properties are `ReplaceAllAbsent`, `ReplaceAllSelf` and `ReplaceAllLength` |
| Strings.Contains | examples/support-bot.php:94 | definition: `strpos($s, $pat) !== false`, the pattern occurring at some position of the text |
| Strings.ReplaceAllAbsent | examples/content-generator.php:216 | `str_replace` with a pattern that does not occur returns the subject unchanged |
| Strings.ReplaceAllSelf | examples/content-generator.php:216 | replacing a pattern by itself changes nothing |
| Strings.OccurrencesZero | examples/content-generator.php:216 | for a non-empty pattern, `str_replace` makes no replacement exactly when the pattern does not occur in the subject |
| Strings.ReplaceAllLength | examples/content-generator.php:216 | each replaced occurrence changes the length by the difference of the lengths |
| Strings.AsciiLower | examples/support-bot.php:90 | same length; each character is lowered when it is an ASCII capital and kept otherwise |
| Strings.AsciiLowerIdempotent | examples/support-bot.php:90 | lowering twice equals lowering once, and no ASCII capital remains |
| Strings.DecimalRoundTrip | src/ChatGPTHelper.php:206 | the decimal rendering of the status code reads back as the same number |
| Content.TemplateTableKeys | examples/content-generator.php:20-62 | the template table is keyed by exactly `blog_post`, `product_description`, `social_media`, `email_campaign`, `press_release`, in that order, each once |
| Content.ContentGenerator.constructor | examples/content-generator.php:12-16 | a fresh client with the default settings and the template table |
| Content.ContentGenerator.AvailableTypes | examples/content-generator.php:233-236 | the five type names, in declaration order |
| Content.ContentGenerator.TemplateInfo | examples/content-generator.php:238-241 | a template exactly for the five known types, and it is that type's entry of the table; nothing otherwise |
| Content.ContentGenerator.BuildPrompt | examples/content-generator.php:212-219 | the loop's result is the template with each parameter's `{key}` replaced in turn, in the array's order |
| Content.Fill | examples/content-generator.php:212-219 | definition: each parameter's `{key}` replaced by its value with `str_replace`, one parameter after the other in array order; `BuildPrompt` is proved equal to it, and its properties are `FillAppend`, `FillAbsent` and `FillIdentity` |
| Content.FillAppend | examples/content-generator.php:212-219 | filling with two arrays one after the other equals filling with their concatenation |
| Content.FillAbsent | examples/content-generator.php:212-219 | a prompt that contains none of the parameters' placeholders comes back unchanged; with no parameters it comes back unchanged |
| Content.FillIdentity | examples/content-generator.php:212-219 | a parameter whose value is its own placeholder has no effect |
| Content.Placeholder | examples/content-generator.php:216 | the placeholder is the key between `{` and `}` |
| Content.GenerationOf | examples/content-generator.php:79-97 | a successful request gives the reply text, the caller's parameters and the total token count (0 when absent); a failure gives the exception's message; both carry the type |
| Content.ContentGenerator.GenerateContent | examples/content-generator.php:65-98 | an unknown type fails with `Unknown content type: <type>` with no change and no request; otherwise the settings become 0.8, 1500 and `gpt-3.5-turbo`, and the request is a one-off chat whose prompt is the template filled with the caller's parameters merged over the defaults |
| Support.SystemPrompt | examples/support-bot.php:42-53 | the prompt is the introduction naming the company, then the rendered knowledge base verbatim, then the six guidelines |
| Support.SupportBot.constructor | examples/support-bot.php:12-17 | the log is exactly `[{system, prompt}]`, with temperature 0.3, token limit 300 and the default model |
| Support.SupportBot.SetupSystemPrompt | examples/support-bot.php:38-58 | the system prompt is replaced as by `setSystemPrompt`; temperature 0.3 and token limit 300 |
| Support.Escalates | examples/support-bot.php:88-100 | definition: the lower-cased reply text contains one of the six escalation keywords; `DetectEscalation` is proved equal to it, and its properties are `MentionsAnyOrder`, `EscalatesIgnoresCase`, `EscalatesWhenMentioned` and `EmptyReplyNotEscalated` |
| Support.SupportBot.DetectEscalation | examples/support-bot.php:88-100 | the loop's answer is true exactly when the lowered reply text contains one of the six keywords |
| Support.MentionsAnyOrder | examples/support-bot.php:91-97 | reordering the keyword list does not change the answer |
| Support.EscalatesIgnoresCase | examples/support-bot.php:90 | escalation does not depend on the reply's letter case |
| Support.EscalatesWhenMentioned | examples/support-bot.php:88-100 | a reply holding a keyword in any mix of upper and lower case is escalated |
| Support.EmptyReplyNotEscalated | examples/support-bot.php:88-100 | an empty reply text, as for an absent reply, is never escalated |
| Support.ContextualMessage | examples/support-bot.php:63-67 | with no customer info the message is sent unchanged; otherwise it is `Customer Info: `, the encoded info, the separator, and then the original message, which ends it |
| Support.TicketOf | examples/support-bot.php:69-85 | a success gives the reply text, the token count (0 when absent) and the escalation flag; a failure gives the exception's message and the fixed fallback text |
| Support.SupportBot.HandleTicket | examples/support-bot.php:60-86 | the contextual message is one turn of the running conversation, as `conversation` does it, and the result is built from that turn's outcome |
| Support.UserMessages | examples/support-bot.php:105 | definition: the log's user-role messages, in order; its properties are `UserMessagesEmpty` and `PrimedLogHasNoUserMessage` |
| Support.UserMessagesEmpty | examples/support-bot.php:105-107 | the user-role filter is empty exactly when no logged message has the user role |
| Support.PrimedLogHasNoUserMessage | examples/support-bot.php:104-109 | a log that holds only the system prompt, as after construction or reset, has no user message |
| Support.SummaryOf | examples/support-bot.php:114-119 | the reply text on success and `Unable to generate conversation summary.` on failure |
| Support.SupportBot.GetConversationSummary | examples/support-bot.php:102-120 | without a user message it answers `No conversation yet.` and sends nothing; otherwise it sends one one-off chat, with the instruction and the pretty-printed log, and leaves the log alone |
| Support.SupportBot.ResetConversation | examples/support-bot.php:122-126 | after a reset the log is exactly `[{system, prompt}]`, with temperature 0.3 and token limit 300 |

## Left out

- The curl transport (src/ChatGPTHelper.php:180-196). It is the `server` parameter. The 30-second timeout and the `CURLOPT_RETURNTRANSFER` option are not modelled.
- `json_encode` and `json_decode`. The encoder is an uninterpreted parameter. The decoded body is what `server` returns, read as `choices[0].message`, `usage` and `error.message`. Other shapes of a decoded body are not represented.
- A status-200 response whose body does not decode to an array (PHP raises a `TypeError` from `makeRequest`'s return type). It is not representable here: a decoded body is always a `Response`.
- Helper.GetResponseText: a reply message whose `content` is missing or null is not represented. Every reply carries a role and text content. Roles other than system, user and assistant are not represented either.
- Helper.ChatGPTHelper.SetMaxTokens: PHP's 64-bit integer range is not modelled; the token limit is an unbounded integer.
- Helper.EstimateTokens: strings are sequences of Unicode scalar values and `strlen` is their UTF-8 byte length. PHP byte strings that are not valid UTF-8 are not represented.
- Integer keys in the PHP arrays. `array_merge` renumbers a list's integer keys. Payloads, options, template parameters and customer info have only string keys here. The "no key twice" requirement on the `Assoc` lemmas stands for PHP's own array invariant. A key spelled as a decimal integer (`"5"`, `"-3"`, but not `"05"`) is an integer key in PHP and falls under this line: `array_merge` would renumber it and `buildPrompt` would replace the placeholder of its new index, where the model treats it as a string.
- Content.ContentGenerator.BuildPrompt: parameter values are strings. PHP's conversion of a non-string value inside `str_replace` is not modelled.
- Floating-point arithmetic. Temperatures are exact reals, so the clamp is exact and NaN is not represented. `estimateCost` (examples/content-generator.php:221-231) and the `estimated_cost` field are left out.
- `generateMultipleVariations`, because of its random temperature and `usleep` pacing. `generateContentSeries`, because of its PCRE title extraction. `optimizeForSEO` is also left out. These are examples/content-generator.php:100-210.
- The demo blocks (examples/content-generator.php:245-345, examples/support-bot.php:130-184) and examples/basic-chat.php. They are console output only.
- The parts of `generateContent` and `handleTicket` results that only echo a constant `success` flag. The result datatypes distinguish the two cases instead.
