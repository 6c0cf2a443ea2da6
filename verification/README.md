# A verified model of the AI resource-sharing gateway

One machine of a team (the leader) shares upstream AI accounts with the others (the members). This
project models the leader's request path, the state machines around it, the member's local copy of
its policy, and the modular runtime that starts it all, and proves what these parts promise
together.

`dafny verify dfyconfig.toml` checks everything. Paths below are relative to the root of the
repository.

## What is modelled

- `Runtime`, `Config`: the dependency-ordered boot. `Sorter` is the depth-first search with its
  three mutable collections; `Boot` applies the modules in the order found. `Config` is the deep
  merge of JSON settings.
- `Json`, `Numbers`, `JsonText`, `Text`: JSON values, an encoder and a decoder with the decoder's
  nesting limit of 128, lines and trimming. The encoder and the decoder are proved against each other.
  How the JSON library spells a 64-bit float and reads a float literal is left open
  (`Numbers.LIBRARY`, an arbitrary one of its type); all that is asked of it is that it reads what it
  prints as the same float.
- `OpenAiSse`: the OpenAI reply printed as an event stream, and the parser that puts such a stream
  together again.
- `Fields`, `AnthropicFields`: reading JSON by field names, and what translated requests and replies say
  at their fields, against what was said before.
- `Anthropic`, `AnthropicSse`: the translation of requests and replies between the two APIs, the
  Anthropic event stream, and a strict client that follows the line protocol of section 9.2.6 of the
  HTML Living Standard and builds the message from deltas alone.
- `Rules`, `Registry`, `Health`, `Quota`, `Usage`: a requested name becomes tiered candidates, a
  candidate becomes a backend, polls decide which backends are in service, calls are admitted
  against a quota and metered.
- `Dispatch`: the two chat endpoints that put these together. What a request finds at each attempt is
  a parameter that may change from attempt to attempt, so every interleaving with other requests,
  polls and replacements is covered.
- `Auth`: sessions, bans, the two files behind them, restart.
- `Strategy`, `Fingerprint`: the policy summary that the leader hands out, the copy a member keeps, and
  the 64-bit version number.
- `Sequences`, `Sorting`, `Wrappers`: shared helpers (concatenation of mapped sequences, a stable
  sort, Option and Result).

Where the code changes things step by step the model does too: a class with the fields of the
struct, methods that reassign them, loops with invariants, each proved equal to a function of the old
state. The properties of whole runs are proved about those functions.

## What the proofs found

Each of these has a lemma that shows it, and mostly one that says exactly when it happens.

- A declared default with a dotted key overwrites what the base configuration says at that path
  (`Config.DottedDefaultOverwrites`; exactly when: `Config.DefaultKeepsBase` for one default,
  `Config.DefaultsKeepLeaf` for a list of them and any path).
- A turn that carries tool results together with text or tool uses separates the `tool` messages from
  the calls they answer (`Anthropic.ToolMessagesFollowCalls`).
- An empty reply that is echoed back leaves no message; tool arguments that the library does not read as
  JSON come back as a JSON string (`Anthropic.EchoReturnsReply`, `Anthropic.EchoedCallKeeps`).
- The assembler keeps the last finish reason of a stream; the comment beside it says the first
  (`OpenAiSse.AbsorbAllClosed`).
- A listed model is not routed at all exactly if the last backend that lists it has failed out, although
  another one in service may list it too (`Registry.ListedUnroutableExactly`; a run in which this
  happens: `Registry.ServiceableButUnroutable`).
- The catalogue lists a model twice exactly if a healthy and a degraded backend offer it and another
  model on offer is listed between the two (`Registry.CatalogueRepeatsExactly`; such a catalogue:
  `Registry.CatalogueMayRepeat`).
- A probe that was under way when its backend was deleted leaves a state behind exactly if the backend
  is an executor preset (`Health.LateProbe`).
- A session is still good for `verify` in the second in which it expires, but not for `issue` or for a
  restart, so two tokens of a member can verify in that second (`Auth.TwoTokensDoVerify`,
  `Auth.TwoTokensExactly`, `Auth.RestartShows`).
- A rule set whose name is the empty string is dispatched like no rule at all: it ends with 400 or 500
  and not with 502 (`Dispatch.EmptyNameIsNoRule`, `Dispatch.ChatStatus`).

## Model

| member | source | states |
|---|---|---|
| Runtime.Sorter.Visit | crates/runtime/src/runtime.rs:164-190 | the recursive visit, terminating on the wanted names neither visited nor being visited; it extends the order with everything the name requires; an error is backed by a closed walk through the open calls |
| Runtime.TopoSort | crates/runtime/src/runtime.rs:158-195 | succeeds exactly if the requirements among the wanted modules have no cycle; the order holds each wanted module once and after all it requires; a reported cycle is real; a list already in order comes back unchanged |
| Runtime.OrderRefutesCycles | crates/runtime/src/runtime.rs:158-195 | a topological order rules out every closed walk, so success and cycles exclude each other |
| Runtime.Boot | crates/runtime/src/runtime.rs:99-154 | which of four failures a boot ends with and which it names (the first missing module, a module on a cycle, ...); otherwise it attempts a topological order and ends as the attempts say |
| Runtime.ApplyAll | crates/runtime/src/runtime.rs:127-153 | the booted are the successful attempts, the skipped the failed ones with their reasons, and the first failure of a required module ends the boot with its error |
| Runtime.BootAccountsForAll | crates/runtime/src/runtime.rs:127-153 | at every point each attempted module is listed exactly once, as booted or as skipped |
| Runtime.SkippedAreOptional | crates/runtime/src/runtime.rs:141-149 | in a boot that goes through, every failed module is optional |
| Runtime.AttemptsExactly | crates/runtime/src/runtime.rs:127-153 | a module is among the booted exactly if its attempt, given its name, its settings and the modules attempted before it, succeeded; among the failed, with the reason, exactly if it failed with it |
| Runtime.ModuleConfigExactly | crates/runtime/src/runtime.rs:198-203 | a module's own override wins wherever it says something and its default stands wherever the override leaves it alone; with no override of its own, the default |
| Runtime.CustomWants | crates/runtime/src/runtime.rs:101-113 | a custom role wants the names in its list of modules, in order, and is an error without a list |
| Runtime.BootedAfterRequirements | crates/runtime/src/runtime.rs:127-153 | a booted module comes after each wanted module it requires, or that one was attempted and failed |
| Config.DeepMerge | crates/runtime/src/config.rs:52-66 | the merge loop computes the recursive merge |
| Config.MergedLeaf | crates/runtime/src/config.rs:52-66 | a plain value stands at a path of the result exactly if the override puts it there, or the target has it and the override neither touches nor hides the path |
| Config.MergeIdempotent | crates/runtime/src/config.rs:52-66 | merging the same override again changes nothing, at any depth |
| Config.MergeUnit | crates/runtime/src/config.rs:52-66 | the empty object is a unit on both sides |
| Config.MergeAssociative | crates/runtime/src/config.rs:52-66 | three layers may be grouped either way exactly if nothing blocks: nowhere does the middle one put a plain value between two objects of which the upper does not by itself replace the lower |
| Config.Merge | crates/runtime/src/config.rs:40-49 | the defaults loop, then the merge |
| Config.SetPathEffect | crates/runtime/src/config.rs:69-88 | a dotted write acts at its own path only, exactly if its parent is an object |
| Config.DefaultKeepsBase | crates/runtime/src/config.rs:40-49 | a default leaves what the base says exactly if its key has no dot, or the whole key stands at the top, or both agree |
| Config.DefaultsKeepLeaf | crates/runtime/src/config.rs:40-49 | a whole list of defaults leaves a plain value of the base in place all the way through exactly if none of them has a dotted key that leads to it or above it, is absent at the top as a whole key, and says something else |
| Config.DottedDefaultOverwrites | crates/runtime/src/config.rs:40-49 | an input for which a default replaces a value of the base |
| JsonText.RoundTrip | crates/lan-share/src/api.rs:1331-1341 | printed JSON is read back as the same value exactly if it nests within the decoder's limit |
| JsonText.LiteralsAreRead | crates/lan-share/src/api.rs:1168-1172 | a number literal is read as a 64-bit integer if it is one, else as a float; it is no JSON only if the library finds it too large |
| JsonText.PrintOneLine | crates/lan-share/src/api.rs:1331-1341 | printed JSON has no line break, whatever the strings in it, so a frame is one line |
| JsonText.ParsedReparses | crates/lan-share/src/backend.rs:341-391 | a value that was read can be printed and read again |
| JsonText.OneUnitReads | crates/lan-share/src/backend.rs:352-353 | any character of the basic plane may be escaped by its code |
| JsonText.TwoUnitsRead | crates/lan-share/src/backend.rs:352-353 | any other character by its two surrogates |
| JsonText.LoneSurrogateFails | crates/lan-share/src/backend.rs:352-353 | a surrogate on its own is no JSON |
| JsonText.SpaceAround | crates/lan-share/src/backend.rs:352-353 | white space around a printed value makes no difference |
| JsonText.AtMostExactly | crates/lan-share/src/registry.rs:177-181 | the order of names is that of a dictionary |
| Text.TrimExactly | crates/lan-share/src/backend.rs:351-353 | trimming takes white space off both ends, all of it and nothing else |
| Text.LinesFirstReturn | crates/lan-share/src/backend.rs:350-351 | a line may also end in a carriage return and a line feed |
| Text.JoinSplits | crates/lan-share/src/api.rs:1013 | parts joined by a separator that is in none of them can be told apart again |
| OpenAiSse.PrintStream | crates/lan-share/src/api.rs:1323-1407 | the printing loop emits role, text, one chunk per tool call, finish with usage, and the end mark |
| OpenAiSse.ReplyFields | crates/lan-share/src/api.rs:1128-1150 | at which fields a reply's text, calls, finish reason, id, model, time and token counts are read, and what is taken for a missing one |
| OpenAiSse.ChunksHold | crates/lan-share/src/api.rs:1331-1404 | every chunk carries the reply's id, model and time; the first gives the role, the last the finish reason and the usage, and no other a finish reason |
| OpenAiSse.StreamShowsCalls | crates/lan-share/src/api.rs:1363-1388 | a client that collects the tool calls of the printed lines gets, in order, exactly one per call of the reply, with its index (or 0), id, name and arguments |
| OpenAiSse.Assemble | crates/lan-share/src/backend.rs:341-391 | the line loop computes the assembly of the text, or an error for a line that is not JSON |
| OpenAiSse.ChunkFields | crates/lan-share/src/backend.rs:355-368 | at which fields of a chunk text, finish reason and usage are read; an empty reason and a null usage do not count |
| OpenAiSse.AssembledFields | crates/lan-share/src/backend.rs:373-390 | at which fields of the assembled reply each part stands; the reasoning is there exactly if there is any |
| OpenAiSse.AbsorbAllClosed | crates/lan-share/src/backend.rs:341-391 | after any chunks: the first id, model and time, all text joined, the last finish reason, the last usage |
| OpenAiSse.PrintedStreamAssembles | crates/lan-share/src/api.rs:1323-1407 | for every reply, assembling its printed stream gives its normal form |
| OpenAiSse.NormalizedFields | crates/lan-share/src/backend.rs:341-391 | the normal form has the reply's own text, id, model, time and token counts at their fields |
| OpenAiSse.NormalizedIsNormal | crates/lan-share/src/backend.rs:341-391 | the normal form is idempotent, and a reply is unchanged exactly if it is a text-only reply in normal form |
| OpenAiSse.PlainUnchanged | crates/lan-share/src/backend.rs:341-391 | every text-only reply with consistent usage survives printing and parsing unchanged |
| OpenAiSse.RechunkingIsInvisible | crates/lan-share/src/backend.rs:352-376 | cutting the content or the reasoning into any pieces, anywhere in a stream, never changes the message |
| Anthropic.BuildBlocks | crates/lan-share/src/api.rs:1153-1190 | the loop that builds the content blocks and the stop reason |
| Anthropic.ToAnthropic | crates/lan-share/src/api.rs:1153-1207 | the translation of a reply |
| Anthropic.ToOpenAi | crates/lan-share/src/api.rs:1002-1125 | the translation of a request |
| Anthropic.TranslateTurn | crates/lan-share/src/api.rs:1039-1109 | one pass over the blocks sorts them into text, calls and results |
| Anthropic.ToolTrafficKept | crates/lan-share/src/api.rs:1039-1109 | for every conversation the ids of all tool uses become those of all tool calls, and the ids of all tool results those of all tool messages, in order |
| Anthropic.ToolMessagesFollowCalls | crates/lan-share/src/api.rs:1039-1109 | if result turns directly follow the turn they answer, every run of tool messages directly follows the message with its calls exactly if no result turn carries text or other tool uses |
| Anthropic.EchoReturnsReply | crates/lan-share/src/api.rs:1153-1207 | a reply echoed back as an assistant turn returns as one message with the same text and the same calls in order; an empty one as no message |
| Anthropic.EchoedCallsAt | crates/lan-share/src/api.rs:1039-1108 | the i-th call of the echo is the echo of the i-th call |
| Anthropic.EchoedCallKeeps | crates/lan-share/src/api.rs:1163-1176 | an echoed call keeps id and name, and keeps the value of its arguments, floats included, exactly if the library reads them as JSON |
| AnthropicFields.ConversationKept | crates/lan-share/src/api.rs:1032-1109 | for every request, field by field: the system text comes first; each text turn keeps role and text; each block turn has its texts on a line each and its tool uses with id, name and printed input; each tool result becomes a message with its text and call id; the reasoning field is there exactly for assistant block turns to a deepseek model |
| AnthropicFields.RequestKept | crates/lan-share/src/api.rs:1003-1030 | model, token limit (4096 if missing) and the tools with a name, each with description and schema; no list if there are none |
| AnthropicFields.ReplyKept | crates/lan-share/src/api.rs:1153-1190 | field by field: the reply's text in a first block, if any, then each call as a tool use with id, name and arguments read as JSON if they can be; an empty text block for nothing |
| AnthropicFields.ReplyEndKept | crates/lan-share/src/api.rs:1179-1207 | model, input and output tokens, and "tool_use", "max_tokens" or "end_turn" for the finish reasons "tool_calls", "length" and any other |
| AnthropicFields.EchoKept | crates/lan-share/src/api.rs:1039-1108 | a conversation that ends with a translated reply sent back: upstream hears the reply's text and calls again from the assistant, in one message; nothing of an empty reply |
| AnthropicSse.PrintEvents | crates/lan-share/src/api.rs:1210-1304 | the printing loops emit the event list of a reply |
| AnthropicSse.BlockEventsHold | crates/lan-share/src/api.rs:1250-1290 | all events of a block carry its index, and the first the whole block |
| AnthropicSse.EventsTyped | crates/lan-share/src/api.rs:1210-1304 | the data of every event names the event again |
| AnthropicSse.TextCarriesEvents | crates/lan-share/src/api.rs:1210-1304 | a client that follows the line protocol reads exactly the printed events, in order |
| AnthropicSse.ReplayGivesReply | crates/lan-share/src/api.rs:1210-1304 | replaying the deltas, block by block with contiguous indices in one message frame, gives exactly the non-streaming reply: blocks, stop reason, token counts |
| AnthropicSse.StreamRefinesReply | crates/lan-share/src/api.rs:1210-1304 | the same from the printed text, with any number of tool calls |
| Rules.ChosenRule | crates/lan-share/src/rules.rs:176-181 | the rule used is the first for "*", else the first for the requested name, else the first of least order; none only if there are none |
| Rules.TierIsStableAscending | crates/lan-share/src/rules.rs:190-202 | the tier holds exactly the candidates that fit, ascending by limit, equal limits in their given order |
| Rules.TierEndsUnlimited | crates/lan-share/src/rules.rs:194-195 | candidates without a limit come last |
| Rules.TierMonotone | crates/lan-share/src/rules.rs:190-202 | a larger prompt only cuts off the front of the tier |
| Rules.ResolutionMonotone | crates/lan-share/src/rules.rs:173-218 | the models tried for a larger prompt are the end of those tried for a smaller one, fallbacks included |
| Rules.ResolvedExactly | crates/lan-share/src/rules.rs:173-218 | what a hit resolves to, from the rule alone: "fixed" the named candidates in the given order; any other strategy those of a list that holds exactly the fitting candidates, ascending by limit and stable; then the named fallbacks; under the rule set's own name, and None exactly if nothing is left |
| Rules.EstimateTokens | crates/lan-share/src/rules.rs:223-226 | a quarter of the characters, rounded down, but at least one |
| Rules.RuleResolver.Resolve | crates/lan-share/src/rules.rs:173-218 | the loops compute the resolution |
| Rules.RuleResolver.Load | crates/lan-share/src/rules.rs:129-135 | loading replaces everything |
| Rules.RuleResolver.Upsert | crates/lan-share/src/rules.rs:138-140 | adds one rule set or replaces that of its name, and no other |
| Rules.RuleResolver.Remove | crates/lan-share/src/rules.rs:143-145 | removes one rule set and says whether it was there |
| Rules.IndexedByName | crates/lan-share/src/rules.rs:129-135 | a rule set is found under its own name, and it is the last one loaded with that name |
| Registry.IndexIsScan | crates/lan-share/src/registry.rs:71-105 | the three indices answer as a scan of the backend list would: the last that lists the model, has the name, claims the prefix |
| Registry.IndexedNamesResolve | crates/lan-share/src/registry.rs:71-105 | every name in an index is that of a registered backend |
| Registry.ExactHitListsModel | crates/lan-share/src/registry.rs:123-132 | with distinct names, an exact hit leads to the last backend that lists the model |
| Registry.RouteExactly | crates/lan-share/src/registry.rs:123-162 | which backend a model is routed to, from the backend list and for every health: the last that lists it unless removed; if none lists it, the last claimant of the longest prefix with one in service; if there is none, the only backend if in service |
| Registry.LongestExists | crates/lan-share/src/registry.rs:134-152 | if any claimant is in service, one of the longest prefix is |
| Registry.BackendRegistry.Register | crates/lan-share/src/registry.rs:71-86 | one backend more, all three indices updated |
| Registry.BackendRegistry.ReplaceAll | crates/lan-share/src/registry.rs:89-105 | the indices of the new list, as registering one after the other would build them; the health is kept |
| Registry.BackendRegistry.AttachHealth | crates/lan-share/src/registry.rs:62-64 | the first health monitor attached stays |
| Registry.BackendRegistry.Route | crates/lan-share/src/registry.rs:123-162 | the route does not depend on the order in which the prefixes are visited |
| Registry.LongestIsUnique | crates/lan-share/src/registry.rs:134-152 | no two longest prefixes of one model exist, so the tie-break by rank decides nothing |
| Registry.RouteAvoidsRemoved | crates/lan-share/src/registry.rs:109-162 | a route leads to a registered backend that is not removed |
| Registry.RemovedExactHitIsFinal | crates/lan-share/src/registry.rs:126-132 | for a model that is listed, there is no route exactly if the backend in the index is removed |
| Registry.ListedUnroutableExactly | crates/lan-share/src/registry.rs:126-132 | over every run, with distinct names, a listed model has no route exactly if the last backend of the list that lists it has failed out |
| Registry.ServiceableButUnroutable | crates/lan-share/src/registry.rs:126-132 | a run of an edit and one failed probe after which a model has no route although a backend in service lists it |
| Registry.RemovedIffFailedOut | crates/lan-share/src/health.rs:61-78 | over every run of polls, edits, deletions and replacements a backend is removed exactly if its unbroken failures reached the threshold |
| Registry.RunsAvoidFailed | crates/lan-share/src/registry.rs:123-184 | over every such run neither the router nor the catalogue yields a backend that failed out, whatever the backends were replaced with |
| Registry.BackendRegistry.ModelsCatalog | crates/lan-share/src/registry.rs:165-184 | the catalogue for some order of the backends |
| Registry.CatalogueHoldsOffers | crates/lan-share/src/registry.rs:165-184 | for every order: only offers of backends in service, and every offered model |
| Registry.CatalogueByRank | crates/lan-share/src/registry.rs:177-182 | healthy backends first, and within one rank no model twice |
| Registry.CatalogueRepeatsExactly | crates/lan-share/src/registry.rs:177-182 | for every order of the backends, a model is listed twice exactly if a healthy and a degraded backend offer it and another model is listed between: offered by a healthy backend and after it by name, or by a degraded one and before it |
| Registry.CatalogueMayRepeat | crates/lan-share/src/registry.rs:177-182 | a catalogue that lists a model twice |
| Health.HealthMonitor.FinishPoll | crates/lan-share/src/health.rs:216-226 | the end of a probe: dropped if polling is off by now, counted otherwise |
| Health.HealthMonitor.SetConfig | crates/lan-share/src/health.rs:140-142 | stores the settings and leaves the states |
| Health.HealthMonitor.Remove | crates/lan-share/src/health.rs:145-148 | forgets state and settings of one backend |
| Health.HealthMonitor.EditPolling | crates/lan-share/src/api.rs:803-811 | an edit stores the settings and starts the state over |
| Health.StateExplained | crates/lan-share/src/health.rs:61-78 | over every interleaving of begun and finished probes, edits, deletions and replacements, a state exists exactly if there is a history since it was last cleared, and level, count, latency and error follow from that history: its unbroken failures against the thresholds of the last, its last success, its last result |
| Health.SuccessReadmits | crates/lan-share/src/health.rs:62-66 | one success puts a polled backend back in service |
| Health.LateProbe | crates/lan-share/src/health.rs:216-226 | a probe that outlives its backend leaves a state exactly if the backend was an executor preset |
| Usage.UsageService.Record | crates/lan-share/src/usage.rs:81-105 | adds one call to the member's counters and to one entry of each split, and nothing else |
| Usage.UsageService.RecordRule | crates/lan-share/src/usage.rs:109-121 | adds to one rule set's entry, unless its name is empty |
| Usage.UsageService.All | crates/lan-share/src/usage.rs:124-129 | the bill, for some order of the members |
| Usage.UsageService.ExportCsv | crates/lan-share/src/usage.rs:137-146 | the header, and one row per member in the order of the bill |
| Usage.CountersAreSums | crates/lan-share/src/usage.rs:81-121 | over every run every counter is the sum of what was recorded for it |
| Usage.EntriesAreSums | crates/lan-share/src/usage.rs:81-121 | over every run prompt and completion tokens, each provider's, each model's and each rule set's entry are the sums of what was recorded for just that; no entry has an empty label |
| Usage.TotalIsSumOfParts | crates/lan-share/src/usage.rs:81-105 | with labels that are not empty, a member's total is the sum over its providers and the sum over its models |
| Usage.RuleTokensWithinTotal | crates/lan-share/src/api.rs:212-217 | over every interleaving of calls and their rule records, the rule tokens and what is still to be recorded never exceed the total |
| Usage.GrandTotalIsAllCosts | crates/lan-share/src/usage.rs:81-121 | the totals of all members add up to the cost of all calls |
| Usage.BillIsDescending | crates/lan-share/src/usage.rs:124-146 | the bill lists every member once, each total at least the next, with the same sum |
| Usage.CsvRowFields | crates/lan-share/src/usage.rs:139-144 | a row splits into name, prompt, completion and total tokens and calls |
| Quota.QuotaService.Set | crates/lan-share/src/quota.rs:53-62 | stores the limit, or lifts it for 0, for one member |
| Quota.OvershootBounded | crates/lan-share/src/api.rs:157-217 | over every interleaving, used tokens plus `c` per request in flight stay within the limit less one plus `k` times `c` |
| Quota.NeverPastBound | crates/lan-share/src/api.rs:157-217 | so the total of a member with limit `l` never passes `l - 1 + k * c`; one request at a time is `k = 1` |
| Quota.BoundIsReached | crates/lan-share/src/api.rs:157-217 | the bound is the best possible for every limit, `k` and cost |
| Dispatch.PrepareUpstream | crates/lan-share/src/api.rs:1309-1319 | what is sent upstream |
| Dispatch.UpstreamKeepsTheRest | crates/lan-share/src/api.rs:1309-1319 | upstream never streams; every field but the two about streaming, the model among them, is sent as it came |
| Dispatch.TryCandidates | crates/lan-share/src/api.rs:186-241 | the fallback loop computes the search and keeps the error of the last attempt; the log of upstream calls grows by exactly those of the candidates tried, in order, and none after the first success |
| Dispatch.ChatTriesPrefix | crates/lan-share/src/api.rs:186-241 | a request tries a prefix of its candidates, which ends with the first success if there is one, and asks the upstreams of that prefix and no others |
| Dispatch.UntriedDoNotMatter | crates/lan-share/src/api.rs:186-241 | answer, charge and upstream calls do not depend on what later candidates would have done |
| Dispatch.FirstSuccess | crates/lan-share/src/api.rs:186-241 | the search reaches a candidate exactly if it routes and succeeds and all before it were given up; it is exhausted exactly if all were |
| Dispatch.TryExactly | crates/lan-share/src/api.rs:189-240 | an attempt succeeds exactly if the model routes and that backend replies, and fails in the chat exactly if that backend reports the error |
| Dispatch.AskedAreRouted | crates/lan-share/src/api.rs:189-210 | the upstreams asked are, for each model tried that routes, its backend, with the body to forward |
| Dispatch.ChatPlanExactly | crates/lan-share/src/api.rs:169-186 | without a hit the requested model itself is tried; on a hit what the rule resolves to, and of that only the first for a stream |
| Dispatch.ChatStatus | crates/lan-share/src/api.rs:148-250 | 200 exactly if some candidate is the first to succeed; 502 exactly if a rule was hit and all its candidates failed; 500 and 400 only without a rule, and exactly when |
| Dispatch.EmptyNameIsNoRule | crates/lan-share/src/api.rs:171-250 | a rule set named "" with two candidates: 400 if nobody serves the first, 500 if both fail |
| Dispatch.RefusalsExactly | crates/lan-share/src/api.rs:153-168 | who is let in, from the history of the auth service and the meter: the first check that fails decides, in the order sharing, token, quota, policy |
| Dispatch.UnauthorizedExactly | crates/lan-share/src/api.rs:154-155 | 401 exactly if the token is good for no session of the history |
| Dispatch.FailedHolds | crates/lan-share/src/api.rs:196-250 | 400 names the requested model, 500 and 502 the rule set and the error of the last candidate |
| Dispatch.ChatCharges | crates/lan-share/src/api.rs:210-217 | the store is written exactly for an answer of 200, and then for the first successful candidate, which is the one named in the answer |
| Dispatch.ChargedOnce | crates/lan-share/src/api.rs:212-217 | a success adds the reply's tokens and one call to that member, the same tokens to the rule set if there is one, and nothing to others |
| Dispatch.CallHolds | crates/lan-share/src/api.rs:207-213 | recorded are the member, the backend's label, the candidate and the reply's own token counts |
| Dispatch.ServedHolds | crates/lan-share/src/api.rs:210-236 | the answer names the rule set and the candidate and holds the reply itself unless it is streamed; one call is recorded, and the rule set's share of the same cost if there is one |
| Dispatch.ChatIsArriveThenEnd | crates/lan-share/src/api.rs:157-217 | a chat is an arrival and one end of the quota's runs: same check, and on whatever store it ends the same totals for everybody |
| Dispatch.StreamTriesOne | crates/lan-share/src/api.rs:182-186 | a streaming request depends on its first attempt alone |
| Dispatch.StreamedChatAssembles | crates/lan-share/src/api.rs:223-229 | a streaming client assembles the normal form of what the first successful upstream replied |
| Dispatch.ServedByWorkingBackend | crates/lan-share/src/api.rs:189-208 | whatever runs in between, no request is served by a backend that had failed out when it was tried |
| Dispatch.Gateway.ChatCompletions | crates/lan-share/src/api.rs:148-250 | the handler over the mutable services answers, meters and calls upstreams as specified |
| Dispatch.Gateway.AnswerMessages | crates/lan-share/src/api.rs:254-326 | the same for the other endpoint |
| Dispatch.Gateway.AdmitRequest | crates/lan-share/src/api.rs:153-161 | the checks in front of both endpoints |
| Dispatch.MessagesIsOneAttempt | crates/lan-share/src/api.rs:280-325 | the other endpoint is a chat that tries one model and treats a rule's model like any other: same admission, same call recorded, never 502 |
| Dispatch.MessagesPlanExactly | crates/lan-share/src/api.rs:278-288 | tried is the first model that the rule resolves to, or the requested one |
| Dispatch.MessagesIsAttempted | crates/lan-share/src/api.rs:278-300 | past the checks the answer is that of one attempt with the translated request |
| Dispatch.AttemptedHolds | crates/lan-share/src/api.rs:289-325 | what is answered, recorded and asked for each outcome of the one attempt; the reply is translated unless streamed |
| Dispatch.MessagesRefusals | crates/lan-share/src/api.rs:259-277 | the same refusals, then 400 for a body that is no JSON, then 403; nothing recorded, nobody asked |
| Dispatch.StreamedMessageIsPlain | crates/lan-share/src/api.rs:310-322 | streaming or not, its client receives the same message |
| Auth.AuthService.constructor | crates/lan-share/src/auth.rs:69-81 | the bans of the one file and the unexpired sessions of the other, if there are these files |
| Auth.AuthService.LoadSessions | crates/lan-share/src/auth.rs:206-219 | every unexpired session of the file under its token, and no other |
| Auth.AuthService.Issue | crates/lan-share/src/auth.rs:91-114 | reuses a live session before it looks at bans; otherwise refuses or adds one session and writes the sessions file |
| Auth.AuthService.Rotate | crates/lan-share/src/auth.rs:117-124 | drops all sessions of the machine, even if it then refuses, and writes the sessions file |
| Auth.AuthService.VerifyToken | crates/lan-share/src/auth.rs:127-137 | refuses what is unknown, expired or banned |
| Auth.AuthService.LookupToken | crates/lan-share/src/auth.rs:142-149 | the same without bans |
| Auth.AuthService.RevokeMember | crates/lan-share/src/auth.rs:153-160 | bans the member, and the address if there is one; no session is touched; both files are written |
| Auth.AuthService.Unban | crates/lan-share/src/auth.rs:163-169 | lifts both and writes the bans file |
| Auth.AuthService.Restart | crates/lan-share/src/auth.rs:184-219 | a service started on files that reload has the bans and the unexpired sessions of the other |
| Auth.FilesReload | crates/lan-share/src/auth.rs:184-228 | after every run and at any later time the two files give back the bans and every session that has not expired by then |
| Auth.ReloadsLater | crates/lan-share/src/auth.rs:206-219 | files that reload now reload at any later time |
| Auth.AtMostOneLive | crates/lan-share/src/auth.rs:91-124 | over every run no member has two sessions that expire after the present second |
| Auth.SessionsExactly | crates/lan-share/src/auth.rs:91-124 | a session exists exactly if an event put it in place and every later event spared it |
| Auth.BansExactly | crates/lan-share/src/auth.rs:153-169 | a member is banned exactly if the last event that decides about it is a ban |
| Auth.AddressBansExactly | crates/lan-share/src/auth.rs:153-169 | an address is banned exactly if the last event that decides about it is a ban that names it |
| Auth.IssueExactly | crates/lan-share/src/auth.rs:91-114 | from the history alone: a machine with a live session gets it again; else a ban of the machine or of its address is an error and changes nothing; else exactly one new session, with that machine as member, name and expiry as asked and set up |
| Auth.RotateExactly | crates/lan-share/src/auth.rs:117-124 | the machine's sessions go and all others stay; a ban of the machine or of its address is an error; else there is a new one |
| Auth.NothingNewFromBannedAddress | crates/lan-share/src/auth.rs:100-102 | nothing from a banned address adds a token, under any machine name |
| Auth.VerifiesExactly | crates/lan-share/src/auth.rs:127-137 | what `verify` says, from the history alone, both ways |
| Auth.IssueAnswersTheSame | crates/lan-share/src/auth.rs:91-98 | until its session expires a machine is given the same token, whatever else happens but a rotation of its own |
| Auth.RotatedOutForEver | crates/lan-share/src/auth.rs:117-124 | a token that was rotated out never verifies again, at any time, whatever follows |
| Auth.NothingNewWhileBanned | crates/lan-share/src/auth.rs:86-102 | while a member is banned none of its tokens verifies and it gets no new one |
| Auth.TwoTokensOnlyAtExpiry | crates/lan-share/src/auth.rs:94-132 | two tokens of one member verify together only in a second in which one of them expires |
| Auth.TwoTokensExactly | crates/lan-share/src/auth.rs:94-132 | two tokens of a member that is not banned verify together exactly if two of its sessions are in place, one expiring in this second and the other not before |
| Auth.TwoTokensDoVerify | crates/lan-share/src/auth.rs:94-132 | and in such a second they do |
| Auth.RestartIsInvisible | crates/lan-share/src/auth.rs:184-228 | with both files, a restart anywhere in a run changes, at the end, neither the bans nor any session that expires later |
| Auth.AlikeAnswers | crates/lan-share/src/auth.rs:91-149 | two such states may answer the same to `issue`, and to `verify` and `lookup` but for a token that expires in this second |
| Auth.RestartShows | crates/lan-share/src/auth.rs:127-219 | a restart changes an answer of `verify` exactly for an unbanned token that expires in the second of the restart and is used in it |
| Fingerprint.StrategyVersion | crates/lan-share/src/api.rs:494-509 | the hashing loops compute FNV-1a modulo 2^64 over rule names, limit and ban flag |
| Fingerprint.FedIsInjective | crates/lan-share/src/api.rs:502-507 | the bytes that are hashed determine names, limit and flag, since 0xff stands in no UTF-8 text (RFC 3629) |
| Fingerprint.OneByteNeverCollides | crates/lan-share/src/api.rs:495-501 | inputs of one length that differ in one byte never have the same hash |
| Fingerprint.BanChangesVersion | crates/lan-share/src/api.rs:494-509 | the ban flag alone always changes the version |
| Fingerprint.LimitByteChangesVersion | crates/lan-share/src/api.rs:494-509 | so does a limit that differs in one byte |
| Fingerprint.KnownHashes | crates/lan-share/src/api.rs:495-501 | the published test vectors of FNV-1a for no byte and for "a" |
| Fingerprint.LittleEndianReads | crates/lan-share/src/api.rs:506 | the limit is fed with its lowest byte first |
| Fingerprint.FedExample | crates/lan-share/src/api.rs:502-507 | the layout of names, end marks, limit and flag on an example |
| Strategy.StrategyCache.Set | crates/lan-client/src/strategy.rs:96-105 | replaces the copy in memory, and in the file if there is one |
| Strategy.StrategyCache.constructor | crates/lan-client/src/strategy.rs:79-89 | starts from the copy in the file |
| Strategy.FetchReadsOwnSummary | crates/lan-share/src/api.rs:521-543 | what a member fetches is its own summary, and a banned member that still has a token reads that it is banned |
| Strategy.SummaryHolds | crates/lan-share/src/api.rs:530-543 | the rule sets by name in order, the member's limit or 0, what it used, its ban, and the fingerprint of these |
| Strategy.StepExactly | crates/lan-share/src/api.rs:521-543 | a step of the leader takes away the ground of a refusal exactly if it lifts the ban, or lifts the quota or raises it above what is used |
| Strategy.StaleRefusalExactly | crates/lan-client/src/strategy.rs:58-67 | over every run since the fetch, a copy's refusal is borne out all the time exactly if no step lifts it |
| Strategy.RefusalIsSound | crates/lan-client/src/strategy.rs:58-67 | then a member whose cache refuses, on a copy of any age, is refused by the leader too, for every token it may have |
| Strategy.CopyNamesRuleSets | crates/lan-client/src/strategy.rs:107-115 | the cached names are those of the leader's rule sets at the fetch, each once; without a copy nothing is named or refused |
| Strategy.FreshCopyDecides | crates/lan-client/src/strategy.rs:58-67 | for a token that has not expired, a fresh copy refuses exactly what the leader refuses, for the same reason and with the same limit |
| Strategy.LiftedRefusalIsWrong | crates/lan-client/src/strategy.rs:58-67 | after a lifting step the copy refuses what the leader lets in |
| Strategy.BanShowsInVersion | crates/lan-share/src/api.rs:494-543 | two summaries that differ in the ban alone have different versions |

## Left out

- Floats: a float is its 64-bit pattern, and the library's spelling and reading of floats are not computed (see `Numbers.LIBRARY`). Whether the library reads back every float it prints exactly depends on how it is built; the model asks for it.
- Trees changed in place: `Config.DeepMerge` and `SetPath` work on JSON values and return the new tree; the aliasing of `&mut` references is not captured.
- Character encoding of JSON text and files: strings are sequences of Unicode scalar values; only the fingerprint goes down to bytes.
- JsonText.RoundTrip: the decoder's error messages and invalid UTF-8 are not modelled.
- Overflow of the token counters and of `now + ttl`: counters and times are natural numbers.
- `Dispatch.Reply` and `AnthropicSse.PrintEvents` ask for fewer than 2^64 content blocks in a reply, since block indices are JSON integers.
- Dispatch.RefusalsExactly: the extraction of request text and the keyword lists of the content policy are parameters, and so is the `Authorization` header, which arrives as an optional token.
- Dispatch.Gateway.ChatCompletions: the members list, the log and the response headers other than rule and upstream are not modelled, and neither is the panic of a response builder on a model or rule name that is no valid header value (`crates/lan-share/src/api.rs:219-235`, after the call was recorded); upstream calls are an oracle that answers with a JSON value or an error.
- Health.StateExplained: an edit or a deletion is one step, although the handlers take two locks in turn; when a poll is due is not modelled, any backend may be probed at any time; thresholds arrive as already parsed numbers (`crates/lan-share/src/api.rs:800-801` truncates them to 32 bits).
- Registry: a backend is its name, provider, usage label and models; how entries of the configuration file become backends is not modelled.
- Rules: loading from a file, with its byte-order mark and its two shapes, is not modelled.
- Auth: random tokens and the clock are parameters; tokens are assumed to be fresh and the clock not to go back in the lemmas about runs. Writing a file always succeeds, and a file is the set of what it holds.
- Quota.OvershootBounded: the limit is fixed during the run.
- Strategy.RefusalIsSound: the fetch itself is one step of the leader; a copy that arrives late is covered because the statement counts from that step.
- Vault, link encryption, tunnels, discovery, the web console, accounts and the command line: correctness there rests on libraries and sockets, or is plumbing.
- Keyword lists, member list, events, host and role registry: only simple members beside the cores above.
