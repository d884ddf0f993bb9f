# Anthropic-to-OpenAI proxy: translation core

This project models the translation engine of a proxy. The proxy accepts Anthropic
Messages API requests and forwards them through litellm to OpenAI-compatible or Gemini
back ends. It models the following parts, and proves their properties in Dafny:

- **Model names and channels.** The `model` validator maps `haiku`/`sonnet` names to
  the configured small and big models. It adds a provider prefix and detects and
  removes the CFP flags `-textonly`, `-cfp` and `-text` (`ModelNames`). The channel
  configuration (`ProviderConfig`) is loaded from an explicit environment, and
  `model:channel` is split off. The Gemini URL rule and the upstream endpoint are
  chosen per request (`Providers`).
- **Request translation.** `convert_anthropic_to_litellm` covers the system prompt,
  the folding of `tool_result` blocks into text, the `max_tokens` cap, and the mapping
  of tools and `tool_choice` (`RequestTranslation`). It uses Gemini's schema pruning
  (`GeminiSchema`) and the tool-result normaliser (`ToolResults`). The flattening pass
  that `create_message` runs over the message list for OpenAI models is modelled in
  place over an array (`OpenAiFlatten`).
- **Response translation.** `convert_litellm_to_anthropic` covers content blocks,
  usage, the stop reason and the fallback response built when validation fails
  (`ResponseTranslation`).
- **Streaming.** `handle_streaming` turns the upstream chunk stream into Anthropic
  server-sent events. `Streaming` specifies it as step functions over a state record,
  and proves the event protocol and block-index discipline about them.
  `StreamHandler` holds the handler's loops as methods, each proved to compute its
  step function.
- **The CFP text protocol ("chat function protocol").** It lets text-only models call
  tools through `<cfp>{…}</cfp>` blocks in their text. `CfpCodec` covers the encoder
  and the block scanner. `CfpAdapter` covers the system prompt for tools, the
  rewriting of messages and requests, the parsing of a reply into text or tool calls,
  and the in-place update of a completion object.

JSON values are a `Json` datatype whose objects keep their fields in insertion order,
as Python dicts do. `json.dumps`, `json.loads`, `json_repair.loads`, `parse_block` and
Python's `str()` of a value are opaque functions carried in a `Codec` value. Uuid-based
ids are parameters: a `nat -> string` generator, or an explicit id. A Python exception
that the code does not catch, such as `str + list` when a `text` field holds a list,
becomes the `Err` case of a `Result`.

Where the code and its own comments or documentation disagree, the model follows the
code:

- `tool.dict()` always has a `description` key, so a missing description reaches the
  OpenAI tool as `None`, not `""`.
- The CFP rewrite of `tool_calls` to `tool_use` turns the final stop reason into
  `end_turn` (see Findings).
- In the direct streaming path, a chunk that carries `tool_calls` sets the finish
  reason to `tool_use`. The message therefore ends on that chunk, and argument
  fragments in later chunks are never read (`Streaming.ToolChunkEndsMessage`,
  `Streaming.StreamIgnoresRest`).
- `encode` writes an error under `err`, but `parse_cfp_response` reads `error`, so
  every CFP error reply reads `[CFP error] Unknown error`.
- `normalize_model_name` removes one suffix only. `x-text-cfp` becomes `x-text`, so
  applying it twice gives a different result.
- When the upstream stream ends without a finish reason, the closing events hold no
  `content_block_stop`, so open text or tool blocks stay open. In direct mode such
  a stream holds no `content_block_stop` at all (`Streaming.InterruptedLeavesTextOpen`).
- A CFP `result` event after a call opens the text block at index 0 while the call's
  block also has index 0 (`Streaming.CfpTextAfterCallSharesIndex`).
- On the default channel, the provider-specific API key chosen earlier is overwritten
  by `API_KEY` (or `<KEY>`) before the call (`Providers.Route`).
- `validate_model_token_count` (`server.py:294-374`) is the same code as
  `validate_model_field`, apart from its log text, so `ModelNames.ValidateModel`
  models both.

## Model

| member | source | states |
|---|---|---|
| ModelNames.LoadModelConfig | server.py:86-91 | the stored `PREFERRED_PROVIDER` holds no upper-case ASCII letter, and a missing one is `openai`; missing `BIG_MODEL` and `SMALL_MODEL` are `gpt-4.1` and `gpt-4.1-mini` |
| ModelNames.PreferredIgnoresCase | server.py:86 | `PREFERRED_PROVIDER` is read without regard to case: its upper-cased spelling gives the same configuration |
| ModelNames.StripProvider | server.py:209-216 | at most one of `anthropic/`, `openai/`, `gemini/` is removed, checked in that order; the result is a suffix of the input; a name without a prefix is unchanged |
| ModelNames.PreferredPrefix | server.py:227-232 | `gemini/` exactly for `google` or `gemini`, `anthropic/` exactly for `anthropic`, otherwise `openai/` |
| ModelNames.Prefixed | server.py:224-232 | a configured alias that already has a provider prefix is used as-is, otherwise the preferred prefix is added; the result always has a prefix and ends with the alias |
| ModelNames.PreferredPrefixed | server.py:254-261 | the preferred prefix followed by the name |
| ModelNames.MapModel | server.py:218-261 | a `haiku` name (case-insensitive, checked first) maps to the small model, a `sonnet` name to the big model, an already-prefixed name passes unchanged, any other name gets the preferred prefix; the result always has a provider prefix |
| ModelNames.ValidateModel | server.py:201-281 | the CFP flag holds iff `-textonly`, `-cfp` or `-text` occurs in the mapped name; without the flag the name is the mapped name, with it the three flags are removed in order; the original name is kept |
| ModelNames.RemoveFlagsShortens | server.py:270-273 | removing the flags from a name that contains one makes it strictly shorter |
| ModelNames.FlagRemovalShortens | server.py:268-273 | a flagged mapped name loses at least one character |
| CfpAdapter.FirstSuffix | cfp_adapter.py:22-24 | the first suffix in list order that the name ends with, and no earlier one matches; `None` iff no suffix matches |
| CfpAdapter.ShouldUseCfp | cfp_adapter.py:13-27 | true iff the name ends with `-textonly`, `-cfp` or `-text`; false for the empty name |
| CfpAdapter.NormalizeModelName | cfp_adapter.py:30-42 | the result is a prefix of the input; it is strictly shorter iff `should_use_cfp` holds, and then the input is the result plus the first matching suffix; otherwise the input is returned unchanged |
| Providers.EnvGet | server.py:1208-1209 | an environment lookup returns a value bound to the name, and `None` only when the name is unbound |
| Providers.ChannelName | server.py:1222 | `CHANNEL_<name>_BASE_URL` gives `<name>` lower-cased, as Python's `[8:-9]` slice does, and `""` for a name too short to hold one |
| Providers.AddChannel | server.py:1220-1233 | a channel variable with a non-empty value adds or replaces the provider of its lower-cased name, with the channel key falling back to `API_KEY`; any other entry leaves the map as it was; no provider is ever removed |
| Providers.AddChannelsKeeps | server.py:1220-1233 | loading channels keeps every provider already present, and keeps every provider stored under its own name |
| Providers.AddChannelsContains | server.py:1220-1233 | every channel variable with a non-empty value gives a provider of its name |
| Providers.AddChannelsLast | server.py:1220-1233 | the last variable for a channel name decides its provider |
| Providers.ProviderConfig.constructor | server.py:1200-1203 | the providers are those loaded from the environment, and the configuration is valid: a `default` provider, each provider under its own name |
| Providers.ProviderConfig.LoadConfig | server.py:1205-1234 | the loop sets `default` from `BASE_URL` and `API_KEY`, then adds every channel in environment order; the new map is `Loaded(env, old providers)` and a valid map stays valid |
| Providers.LoadedValid | server.py:1205-1234 | the loaded configuration has a `default` provider, a provider for every loadable channel, and every provider under its own name |
| Providers.ProviderConfig.ParseModelAndChannel | server.py:1236-1249 | with a `:`, the name splits at the first `:`, and the lower-cased channel chooses its provider or falls back to `default`; without one, the name comes back unchanged with `default`; the model part never contains `:` |
| Providers.GeminiModelUrl | server.py:1307-1311 | a base containing `/v1` gets `/models/<model>`, any other base gets `/v1beta/models/<model>`; the URL starts with the base |
| Providers.Route | server.py:1300-1491 | a named channel gives its own key and base URL, and exactly the Gemini model URL for `gemini/` models; the default channel uses `BASE_URL`, then `API_BASE`, then the OpenAI URL, with the Gemini model URL for any model that starts with `gemini`, and `API_KEY` (or `<KEY>`) whatever the model; a `gemini/` URL always ends in `/models/<model>` |
| Providers.GeminiPrefixByChannel | server.py:1306-1486 | `gemini-pro` gets the Gemini model URL on the default channel, which tests for `gemini`, but keeps the base URL on a named channel, which tests for `gemini/` |
| GeminiSchema.CleanSchema | server.py:125-145 | cleaning fails iff some visited node has a list or dict `format`; otherwise no dict at any depth, lists included, has `additionalProperties` or `default`, a string node keeps `format` only when it is `enum` or `date-time`, and (`Retains`) at every depth each dict keeps exactly its surviving keys with their values cleaned in turn, each list keeps its length with every item cleaned, and scalars are unchanged |
| GeminiSchema.CleanFields | server.py:139-141 | a key is present in the result iff it was present and survives the pops; each value left is schema-clean and is the old value cleaned key by key at every depth (`Retains`) |
| GeminiSchema.CleanItems | server.py:142-144 | the list keeps its length and each item, in order, is schema-clean and is the old item cleaned key by key at every depth (`Retains`) |
| GeminiSchema.CleanedFormatOk | server.py:132-137 | after the pops, a string node's remaining `format` is `enum` or `date-time` |
| GeminiSchema.NestedPropertyKept | server.py:139-141 | cleaning `{"properties": {"a": {"type": "string"}}}` succeeds and keeps the nested property `a` |
| GeminiSchema.CleanToolSchema | server.py:630-634 | a tool schema that does not raise cleans to a dict without `additionalProperties` or `default`, and every other key is present in it iff it was present in the input |
| ToolResults.ItemLine | server.py:422-439 | each list item gives one line ending in a newline; an item fails iff it is a dict whose `text` is not a string |
| ToolResults.ParseToolResultContent | server.py:412-454 | the loop accumulates the `ToolResultContent` value: `None` becomes `No content provided`, a string is returned as-is, a list becomes its stripped lines, a text dict its text, any other dict its JSON |
| ToolResults.ToolResultErrors | server.py:412-454 | the normaliser fails iff the content is a list with a dict item whose `text` is not a string |
| ToolResults.ToolResultOfStrings | server.py:420-440 | a list of strings without surrounding whitespace becomes the strings joined by newlines |
| RequestTranslation.SystemMessages | server.py:464-481 | at most one leading system message: the string system as-is, or the text blocks each followed by a blank line and then stripped |
| RequestTranslation.SystemMessageShape | server.py:464-481 | a system message appears iff the string is non-empty or the list has a text block; its content is the string, or the `"\n\n"`-join of the texts, stripped |
| RequestTranslation.FoldResult | server.py:504-538 | the loop over a tool result's list content computes the folded text; a string is kept, a dict gives its text or JSON, anything else its `str()` |
| RequestTranslation.FoldedToolResult | server.py:540-541 | each folded `tool_result` contributes `Tool result for <id>:\n` followed by its text and a newline |
| RequestTranslation.ConvertMessageBlocks | server.py:484-586 | computes `ConvertMessage`: a string content is kept, a user message with a `tool_result` becomes one string message, any other block list becomes its converted parts |
| RequestTranslation.AnyToolResult | server.py:490 | true exactly when some block is a `tool_result` |
| RequestTranslation.FoldBlocks | server.py:492-544 | the loop computes `FoldedText`: the blocks' texts concatenated and stripped, or the first block whose text cannot be built raises |
| RequestTranslation.ConvertParts | server.py:547-586 | the loop converts every block into its part, in order |
| RequestTranslation.ConvertMessageShape | server.py:484-585 | the role is kept; a string content is copied; a user message with a `tool_result` gets string content; any other block message gets its parts; conversion fails only for a user message with tool results whose text folding fails |
| RequestTranslation.ConvertMessages | server.py:484-585 | the message loop gives each message's conversion in order, or the first failure |
| RequestTranslation.MaxTokens | server.py:588-591 | for `openai/` and `gemini/` models, `min(max_tokens, 16384)`; for any other model, `max_tokens` unchanged |
| RequestTranslation.ToolChoice | server.py:650-669 | `any` gives `"any"`; `tool` with a `name` gives the function dict naming it; everything else, `auto` included, gives `"auto"` |
| RequestTranslation.ConvertTools | server.py:613-647 | the tool loop gives each tool's entry in order, or the first failure |
| RequestTranslation.ToolEntryShape | server.py:630-644 | a tool becomes `{"type": "function", "function": {name, description, parameters}}`; a missing description passes as `None`; Gemini parameters are cleaned and others are passed unchanged; the entry fails iff a Gemini schema raises |
| RequestTranslation.ConvertAnthropicToLitellm | server.py:456-671 | the whole conversion computes `LitellmRequest` |
| RequestTranslation.RequestMessages | server.py:461-585 | the output messages are the optional system message, then exactly one converted message per input message, in order |
| RequestTranslation.RequestMaxTokens | server.py:588-598 | the request's `max_tokens` is capped at 16384 exactly for `openai/` and `gemini/` models |
| RequestTranslation.RequestOptionalFields | server.py:603-669 | `stop`, `top_p` and `top_k` are present only when truthy; `tool_choice` is present iff one was given, and is then the mapped choice |
| RequestTranslation.RequestTools | server.py:613-647 | `tools` is present iff the request has tools; the tools map one-to-one, in order, to their OpenAI entries |
| RequestTranslation.RequestErrors | server.py:456-671 | the conversion fails iff some message's conversion fails or some tool's schema cleaning raises |
| OpenAiFlatten.StrippedOrPlaceholder | server.py:1441-1444 | the stripped text, or `...` when it is blank; never empty |
| OpenAiFlatten.FlattenOne | server.py:1340-1453 | one message's flattening: a list of only tool results becomes `Tool Result:` text, other list content becomes text, a `None` content becomes `...`, and keys other than `role`, `content`, `name`, `tool_call_id` and `tool_calls` are removed except on the tool-results-only branch, which keeps every key |
| OpenAiFlatten.RemoveUnsupported | server.py:1449-1453 | the key-deletion loop keeps exactly the keys `role`, `content`, `name`, `tool_call_id` and `tool_calls`, in order |
| OpenAiFlatten.FirstPassInPlace | server.py:1336-1453 | the array holds every flattened message when no message fails; otherwise the earlier messages are flattened, the failing one and later ones are untouched, and the result reports the failure |
| OpenAiFlatten.FirstPassPrefix | server.py:1336-1453 | the first `i` flattened messages are the flattenings of the first `i` inputs, one each |
| OpenAiFlatten.FinalPassInPlace | server.py:1456-1467 | the final loop turns a remaining list content into `Content as JSON: …` and a `None` content into `...` |
| OpenAiFlatten.FlattenForOpenAI | server.py:1332-1467 | both passes over the array: the flattened list, or on failure the state the first pass leaves |
| OpenAiFlatten.FirstPassReads | server.py:1340-1453 | a flattened message keeps every allowed key other than `content`; a list or `None` content becomes non-empty text; other content is kept; keys outside the allowed five survive only on the tool-result-only branch |
| OpenAiFlatten.FlattenKeepsRole | server.py:1332-1467 | flattening keeps each message's role |
| OpenAiFlatten.FlattenedContent | server.py:1332-1467 | the flattened list has one message per input, each with content that is neither a list nor `None`, and with the input's role |
| OpenAiFlatten.FinalCheckOnlyFills | server.py:1456-1467 | after the first pass, the final check can only fill a missing content with `...` |
| ResponseTranslation.CleanModel | server.py:679-683 | at most one `anthropic/` or `openai/` prefix is removed; the result is a suffix of the model |
| ResponseTranslation.TextBlocks | server.py:728-730 | a text block exactly when the content is a non-empty string |
| ResponseTranslation.AppendToolUses | server.py:733-755 | the CFP loop appends one `tool_use` block per call, in order |
| ResponseTranslation.BuildToolUsageText | server.py:786-808 | the loop builds the `Tool usage:` text, one entry per call |
| ResponseTranslation.BuildContent | server.py:725-812 | the content built by the conversion's branches and loops is `ResponseContent` |
| ResponseTranslation.ToolUsePath | server.py:733-785 | on the CFP path or for a Claude model, the content is the text block (if any) followed by one `tool_use` block per call, in backend order, with parsed arguments |
| ResponseTranslation.TextPath | server.py:786-812 | for any other model with calls, the content is one text block: the message text followed by the tool-usage text |
| ResponseTranslation.NoCallsContent | server.py:725-837 | without calls, the content is the text block, or a single empty text block when there is none |
| ResponseTranslation.RawArguments | server.py:740-744 | arguments that are not JSON become `{"raw": arguments}` |
| ResponseTranslation.ValidateBlock | server.py:839-851 | a block validates iff it is text, or a `tool_use` block with a string id and name and a dict input |
| ResponseTranslation.InvalidBlock | server.py:839-869 | one invalid block sends the whole response to the error fallback |
| ResponseTranslation.MapFinishAsWritten | server.py:824-833 | `max_tokens` iff the finish is `length`, `tool_use` iff it is `tool_calls`, and `end_turn` iff it is neither (including `tool_use` and a missing finish) |
| ResponseTranslation.CfpToolCallsEndTurn | server.py:753-755 | as written, a CFP reply with calls that finishes with `tool_calls` stops with `end_turn` |
| ResponseTranslation.MapFinish | server.py:824-833 | the corrected mapping: `tool_use` iff the finish is `tool_calls` or `tool_use`; otherwise the same as the mapping as written |
| ResponseTranslation.StopReasonToolUse | server.py:753-833 | with the corrected mapping, the stop reason is `tool_use` iff the upstream finished with `tool_calls`; it differs from the mapping as written exactly on the CFP path with calls |
| ResponseTranslation.FinalContent | server.py:835-837 | the content is never empty; a non-empty content is kept |
| ResponseTranslation.Respond | server.py:839-869 | when every block and both token counts validate, the response carries the upstream id, counts, stop reason and the blocks in order; otherwise it is the error fallback with `end_turn`, zero usage and one `Error converting response: ` text block |
| ResponseTranslation.AnthropicResponse | server.py:690-855 | on a valid response, the stop reason is `tool_use` iff the first choice finished with `tool_calls` and is not a CFP reply with calls, and `max_tokens` iff it finished with `length`; otherwise `end_turn` |
| ResponseTranslation.ConvertLitellmToAnthropic | server.py:673-869 | the conversion of a completion object computes `AnthropicResponse`, with the stop-reason mapping as written |
| ResponseTranslation.ResponseShape | server.py:673-869 | content is never empty, the model is the request's, the stop reason is `end_turn`, `max_tokens` or `tool_use`, and a valid response keeps the id, counts and block count, while an invalid one is the single-block fallback with zero usage |
| CfpCodec.OrEmpty | cfp_codec.py:27-31 | a falsy `args`, `result` or `err` becomes `{}`; a truthy one is kept |
| CfpCodec.EncodeDoc | cfp_codec.py:24-33 | the doc is built iff the role is `call`, `result` or `error`; it starts with `v`, `role`, `id`, then holds `name` and `args` for a call, `result` for a result, or `err` for an error |
| CfpCodec.Encode | cfp_codec.py:14-36 | succeeds iff the role is valid, and is then `<cfp>` + the compact dump of the doc + `</cfp>` |
| CfpCodec.MatchAt | cfp_codec.py:40-44 | a match starts at an open tag; its capture is non-empty and is a slice of the text that ends before the closing tag |
| CfpCodec.MatchAtTrimmed | cfp_codec.py:40 | a capture longer than one character neither starts nor ends with whitespace |
| CfpCodec.FindAllShape | cfp_codec.py:40-44 | the captures are non-empty, in left-to-right order, and do not overlap, each at its own tag pair |
| CfpCodec.NoBlocksWithoutOpenTag | cfp_codec.py:43-44 | text without `<cfp>` has no blocks |
| CfpCodec.WrappedPayloadRoundTrip | cfp_codec.py:35-44 | a payload without surrounding whitespace and without `</cfp>`, wrapped in tags, is scanned back as exactly that payload |
| CfpCodec.EncodeThenExtract | cfp_codec.py:14-44 | scanning an encoded block whose payload is a `{…}` dump without `</cfp>` gives back exactly that payload |
| CfpAdapter.ToolEntryLines | cfp_adapter.py:59-70 | four lines per tool: `**name**`, `Description: …`, `Parameters: …` and a blank line; fails iff the tool (or its `function`) is not a dict with a `name`; what each line holds is stated by `CfpAdapter.ToolEntryContents` |
| CfpAdapter.ToolEntryContents | cfp_adapter.py:60-68 | a named tool's first line is its `name` in bold, its description line holds its `description` or nothing when it has none, and its parameters line is the indented non-ASCII dump of `parameters`, else of `input_schema`, else of `{}` |
| CfpAdapter.BuildToolsPrompt | cfp_adapter.py:53-72 | the loop computes the tools prompt |
| CfpAdapter.PromptShape | cfp_adapter.py:53-72 | the prompt starts with `Available functions:\n`, followed by the four lines of each tool in input order |
| CfpAdapter.Iterate | cfp_adapter.py:82-84 | a list is iterated in order; iterating a dict or a string is possible, anything else fails |
| CfpAdapter.RoleOf | cfp_adapter.py:107 | `m["role"]` fails unless the message is a dict with a `role` |
| CfpAdapter.Texts | cfp_adapter.py:102 | the `"\n\n"` join fails unless every part is a string |
| CfpAdapter.CfpBlock | cfp_adapter.py:127-128 | a block is wrapped in `<cfp>` and `</cfp>` |
| CfpAdapter.LoadsJson | cfp_adapter.py:125 | `json.loads` succeeds iff it is given a string that parses |
| CfpAdapter.CfpMessage | cfp_adapter.py:106-144 | a system message gives no output, any other message gives exactly one, never with role `system` |
| CfpAdapter.GatherSystemContents | cfp_adapter.py:82-84 | the first loop gathers the system contents in order |
| CfpAdapter.ConvertNonSystem | cfp_adapter.py:106-146 | the second loop gives each non-system message's conversion in order, or the first failure |
| CfpAdapter.BuildSystemMessage | cfp_adapter.py:87-103 | the combined system message: the system contents, then the tools prompt when tools are given, then the stripped guide |
| CfpAdapter.BuildCfpMessages | cfp_adapter.py:75-146 | the whole message rewrite computes `CfpMessages` |
| CfpAdapter.ConvertedShape | cfp_adapter.py:106-146 | one output message per non-system input, none of them a system message |
| CfpAdapter.SystemMessageShape | cfp_adapter.py:87-103 | the combined message has role `system` and string content that ends with the guide |
| CfpAdapter.CfpMessagesShape | cfp_adapter.py:75-146 | the output has one more message than there are non-system inputs; element 0 is its only system message, and its content ends with the guide |
| CfpAdapter.AdaptedModel | cfp_adapter.py:153-165 | a string model is normalised; the call fails only for a truthy model that is not a string |
| CfpAdapter.AdaptRequestForCfp | cfp_adapter.py:149-168 | `(req, False)` unchanged when CFP is off or tools are missing or empty; otherwise the flag is `True` |
| CfpAdapter.AdaptedRequestKeys | cfp_adapter.py:160-168 | the adapted request has no `tools`, a `None` `tool_choice`, the normalised model and the CFP messages; every other key is the caller's |
| CfpAdapter.CfpRequestKeys | cfp_adapter.py:162-167 | the copy-then-update leaves every key other than the four it writes as it was |
| CfpAdapter.Scan | cfp_adapter.py:180-204 | exactly one of text and calls is present; calls found are never empty and extend the calls gathered before |
| CfpAdapter.ParseCfpResponse | cfp_adapter.py:171-207 | the parse computes `CfpReply`: the stripped text when there are no blocks, else the scan of the blocks |
| CfpAdapter.ScanBlocks | cfp_adapter.py:179-205 | the block loop computes `Scan` over the blocks' outcomes: the first `result` or `error` block's text, a parse failure's stripped text, or the call list, or the stripped text when no block gave a call |
| CfpAdapter.ScanAllCalls | cfp_adapter.py:180-204 | when no block stops the scan, the calls are the call blocks in order, or the stripped text when there are none |
| CfpAdapter.ScanStops | cfp_adapter.py:185-207 | the first `result`, `error` or unparsable block decides the reply as text, and earlier calls are discarded |
| CfpAdapter.PlainTextReply | cfp_adapter.py:176-178 | text without `<cfp>` gives its stripped self and no calls |
| CfpAdapter.EncodedCallReply | cfp_adapter.py:171-204 | an encoded `call` block that parses back gives exactly one tool call, with the same id and name and the arguments dumped |
| CfpAdapter.CallDocOutcome | cfp_adapter.py:183-194 | a call doc becomes a tool call with its id, name and dumped arguments |
| CfpAdapter.CallFields | cfp_adapter.py:185-194 | a doc with role `call` is a call block whatever its other keys |
| CfpAdapter.AdaptedChoiceShape | cfp_adapter.py:217-227 | either calls were found, and then content is `None`, the calls are set and the finish is `tool_calls`; or the content is replaced by plain text and the calls and finish are kept; text without `<cfp>` keeps only its stripped self |
| CfpAdapter.AdaptResponseFromCfp | cfp_adapter.py:210-229 | identity when CFP is unused; otherwise the first choice becomes its adapted choice and `_from_cfp` is set when calls were found; id and usage stay unchanged; an empty choice list is the `IndexError` outcome |
| Streaming.StopReasonCases | server.py:1157-1163 | `max_tokens` iff the finish is `length`; otherwise `tool_use` iff the finish is `tool_calls`, or a CFP call was seen, or a direct tool is in progress; `end_turn` in every other case |
| Streaming.ToolPos | server.py:971 | finds the in-progress entry for a tool index, or reports that there is none |
| Streaming.UpdateTool | server.py:971-984 | a new index adds one entry, other entries are unchanged, and every entry stays started |
| Streaming.UpdateToolEntry | server.py:971-988 | after a delta the tool's entry exists and is started, and its arguments are the earlier ones followed by the fragment |
| Streaming.UpdateToolHas | server.py:971-977 | after a delta, exactly the earlier indices and the delta's index are in progress |
| Streaming.ToolDeltaEventsOrder | server.py:986-1001 | the first delta of a tool closes an open text block and then opens the tool block at `index + (1 if text started)`; a non-empty fragment is forwarded verbatim as the last event; a later delta with no fragment emits nothing |
| Streaming.ToolDeltaEventsCount | server.py:986-996 | a delta opens a tool block exactly when it is a function call whose tool has not started |
| Streaming.ToolDeltaHas | server.py:965-977 | a function-call delta adds its index to the tools in progress; other deltas add nothing |
| Streaming.ToolDeltaStarts | server.py:959-1001 | one delta emits one block start for its index if that tool is new, and none for any other index |
| Streaming.ToolDeltasHas | server.py:959-1001 | after a chunk's tool calls, an index is in progress iff it was before or some function call of the chunk has it |
| Streaming.ToolStartsOnce | server.py:959-1001 | over the chunk's tool calls, each index gets exactly one `content_block_start` when it is new, and none otherwise |
| Streaming.ToolDeltasAdvances | server.py:959-1001 | the tool-call loop keeps the block-lifecycle invariant and leaves the text-started flag and the finish reason as they were |
| Streaming.CallPos | server.py:1049-1060 | finds the active CFP call with an id, or reports that there is none |
| Streaming.PutCallHolds | server.py:1031-1037 | recording a call keeps call ids unique, and the id then finds the new record |
| Streaming.RemoveCallForgets | server.py:1067 | deleting a call keeps ids unique, forgets that id and shrinks the table by one |
| Streaming.CfpEventAdvances | server.py:1014-1090 | each CFP parser event keeps the block-lifecycle invariant |
| Streaming.CfpEventUnique | server.py:1014-1090 | each CFP event keeps the active call ids unique |
| Streaming.CompletedCallForgotten | server.py:1044-1067 | after a call completes, a later argument delta or completion for its id emits nothing |
| Streaming.CfpEventsUnique | server.py:1014-1090 | a chunk's CFP events keep the active call ids unique |
| Streaming.CfpEventsAdvances | server.py:1014-1090 | a chunk's CFP events keep the block-lifecycle invariant |
| Streaming.CfpTextAfterCallSharesIndex | server.py:1015-1090 | a CFP call followed by a result opens the text block at index 0 although the call's block already has index 0 |
| Streaming.ToolStopsCover | server.py:1120-1123 | the finish stops every started tool block at its index plus the text offset |
| Streaming.CallStopsCover | server.py:1125-1127 | the finish stops every active CFP call's block |
| Streaming.ToolStopsCount | server.py:1120-1123 | the tool stops open nothing and send no message event |
| Streaming.CallStopsCount | server.py:1125-1127 | the call stops open nothing and send no message event |
| Streaming.PlainStepAdvances | server.py:1129-1140 | the plain-text step keeps the invariant and changes neither the finish reason, the tools, the token count nor the CFP flag |
| Streaming.CloseTextAdvances | server.py:1152-1155 | the text close keeps the invariant, and afterwards sent text is closed |
| Streaming.FinishBodyAdvances | server.py:1116-1155 | the finish body keeps the invariant, the finish reason, the tools and the usage, and closes sent text |
| Streaming.FinishEnds | server.py:1116-1170 | the finish ends the message: its last three events are `message_delta` with the computed stop reason and output tokens, then `message_stop` and `[DONE]`, and the stop is marked sent |
| Streaming.FinishCloses | server.py:1119-1155 | the finish emits a stop for every started tool block and every active CFP call, and leaves no sent text open |
| Streaming.FinishNoToolStarts | server.py:1116-1170 | the finish opens no tool block |
| Streaming.DirectFinishText | server.py:1129-1130 | on the direct path the finish never starts the text block |
| Streaming.Received | server.py:926-939 | a chunk's usage replaces the output tokens and its choice replaces the finish reason; nothing else changes |
| Streaming.CfpChunkAdvances | server.py:1007-1103 | a CFP text chunk keeps the block-lifecycle invariant, whether the parser returns events or raises |
| Streaming.ChunkBodyAdvances | server.py:958-1114 | each of the three chunk branches keeps the block-lifecycle invariant |
| Streaming.ChunkShape | server.py:925-1170 | a chunk either keeps the stream open and the invariant, or ends the message |
| Streaming.RunShapes | server.py:925-1174 | over any chunk sequence, the body opens the text block at most once and holds no message event before the end |
| Streaming.RunAfterStop | server.py:1116-1170 | once the stop is sent, later chunks change nothing |
| Streaming.StreamProtocol | server.py:872-1197 | every stream starts with `message_start` and holds exactly one `message_start`, one `message_delta` and one `message_stop`; it ends with `message_delta`, `message_stop`, `[DONE]`; the text block opens at most once |
| Streaming.StreamIgnoresRest | server.py:1116-1170 | once a chunk sends the stop, neither later chunks nor a later upstream failure change the stream |
| Streaming.ToolChunkBody | server.py:958-1005 | a direct chunk with tool calls runs the tool loop and sets the finish reason to `tool_use`, so the finish follows |
| Streaming.ToolChunkStep | server.py:958-1170 | a direct chunk with tool calls is the tool loop followed by the finish on the same chunk |
| Streaming.ToolChunkEndsMessage | server.py:1004-1170 | a direct chunk with tool calls ends the message without opening the text block, with stop reason `tool_use` when it carries a function call |
| Streaming.ToolChunkStarts | server.py:958-1170 | over the whole chunk, each upstream tool index gets exactly one `content_block_start` at `index + offset` when it is new, and none otherwise |
| Streaming.InterruptedLeavesTextOpen | server.py:1176-1189 | a stream whose chunks never reach the finish branch is `message_start`, the chunks' events, and `message_delta`, `message_stop`, `[DONE]` (with `error` when the upstream raised), with no `content_block_stop` among the closing events; its text block is opened iff text was sent; in direct mode the text is never closed and the whole stream holds no `content_block_stop` |
| StreamHandler.ApplyToolDeltas | server.py:959-1001 | the loop over a chunk's tool calls computes `ToolDeltas` |
| StreamHandler.ApplyCfpEvents | server.py:1014-1090 | the loop over the parser's events computes `CfpEvents` |
| StreamHandler.CloseToolBlocks | server.py:1120-1123 | the loop over the tools in progress emits `ToolStops` |
| StreamHandler.CloseCallBlocks | server.py:1125-1127 | the loop over the active calls emits `CallStops` |
| StreamHandler.PlainReply | server.py:1133-1134 | the plain text is `parse_cfp_response`'s first result |
| StreamHandler.SendPlainText | server.py:1129-1140 | the CFP plain-text branch of the finish computes `PlainStep` |
| StreamHandler.FinishMessage | server.py:1116-1170 | the finish branch computes `FinishStream` |
| StreamHandler.ProcessChunk | server.py:926-1170 | one iteration of the chunk loop computes `ChunkStep` |
| StreamHandler.RunChunks | server.py:925-1174 | the chunk loop, left when the stop is sent, computes `Run` |
| StreamHandler.HandleStreaming | server.py:872-1197 | the generator's output is `Stream`: `message_start`, the body, then the closing events of an upstream error or of the last finish reason when no chunk sent the stop |

## Left out

- HTTP, FastAPI, uvicorn, `StreamingResponse`, middleware and the endpoint glue of `create_message` outside its flattening and URL blocks are not modelled: they are transport.
- litellm's `completion`, `acompletion` and `token_counter` are not modelled: they are network calls, and their results are inputs (`ModelResponse`, the chunk sequence).
- Environment and `.env` reading are not modelled. The environment is an explicit list of name/value pairs (`Providers.Env`), and the model configuration is a value (`ModelNames.ModelConfig`).
- `json.dumps`, `json.loads`, `json_repair.loads`, `parse_block` and `str()` are abstract (`Json.Codec`), because their text formats lie outside the core. Properties that need them to round-trip take that as an explicit hypothesis (`CfpAdapter.EncodedCallReply`).
- Uuid-based ids (`new_call_id`, `msg_…`, `toolu_…`) are nondeterministic. They are parameters: an id generator, or an explicit fallback id.
- `CFPStreamParser` is imported but is not part of this model. Each chunk carries the events the parser returned for its text, with `None` when the parser raised.
- The SSE text of each event (`event: …\ndata: …`) is not modelled, because an event is its datatype value.
- Logging, the DEBUG file append in the stream loop and the log formatters are not modelled.
- The streaming handler's variables that nothing reads are not modelled: `current_tool_call`, `tool_content`, `input_tokens`, `last_tool_index`, `cfp_buffer`, `cfp_text_sent`, `cfp_text_accumulated`.
- The `clean_cfp_text` fallback at server.py:1141-1150 is unreachable, because `parse_cfp_response` catches every exception; `clean_cfp_text` is not part of this model either.
- The per-chunk `except … continue` at server.py:1172-1174 is not modelled: with the parser's failure already an input, no modelled step raises.
- StreamHandler.FinishMessage: sets the stop-sent flag after emitting the finish events, while the source sets it first; nothing reads the flag in between.
- The outer `except` of `handle_streaming` is modelled only as an upstream failure after the given chunks (`upstreamFails`); a failure in the middle of the chunks is the same as ending the chunk list there.
- Pydantic coercion and the object-versus-dict duck typing of responses (server.py:690-723) are not modelled: one canonical datatype stands for each shape. A `None` token count fails validation.
- ResponseTranslation.ConvertLitellmToAnthropic: does not model a usage object or dict that lacks `prompt_tokens` or `completion_tokens`, which the source counts as 0 (server.py:815-821); `UsageInfo` holds each count or `None`, and a litellm `Usage` object always has both fields.
- Text.Lower, Text.Upper: fold case on ASCII letters only, where Python's `str.lower()` and `str.upper()` fold all of Unicode (`"HAI\u212AU".lower()` is `"haiku"`, through the Kelvin sign); so `ModelNames.MapModel`, `ModelNames.LoadModelConfig`, `Providers.ChannelName` and `Providers.ProviderConfig.ParseModelAndChannel` differ from the source on names with non-ASCII letters.
- `temperature`, `top_p` and `top_k` are floats or opaque values: they pass through as `Json` and only their truthiness is used.
- GeminiSchema.CleanSchema: models the cleaning on values; the in-place `pop` and reassignment change the caller's schema (which `tool.dict()` copies), and that aliasing is not captured.
- RequestTranslation.ConvertAnthropicToLitellm: builds the message and tool lists as values returned by loops; the order in which Python builds the dict's keys is kept, but the `hasattr` checks for objects without a `type` are not modelled (every block has one).
- The async generator is modelled as a finite chunk sequence processed in order.

## Findings

| source | as written | input that shows it | evidently intended | confidence | as-written member | corrected member |
|---|---|---|---|---|---|---|
| server.py:753-755, 824-833 | the CFP path rewrites `finish_reason` `tool_calls` to `tool_use`, and the stop-reason mapping then sends `tool_use` to the default `end_turn` | a CFP reply with one call, whose adapted choice finishes with `tool_calls` | stop reason `tool_use`, as the comment on the rewrite says | not executed | ResponseTranslation.CfpToolCallsEndTurn | ResponseTranslation.StopReasonToolUse |
