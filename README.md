# kubectl-interact core, modelled in Dafny

kubectl-interact is a kubectl plugin that talks to a large language model
in a ReAct loop. The model answers with a fenced JSON block, and its
requested actions are shown to the user for approval before they run.
This project models four parts of it and proves properties about them.

- **The ReAct shim** (`shim.dfy`, `shim_properties.dfy`).
  - It pulls streamed chunks and collects their text until a complete fenced
    block has arrived.
  - It extracts the block between the first ```` ```json ```` and the last
    ```` ``` ````, deletes newlines, trims white space and decodes the result.
  - It yields one response, whose parts are the thought, the answer and at
    most one action.
  - JSON decoding is a parameter (`decode`).
- **The conversation loop** (`agent.dfy`, `agent_properties.dfy`).
  - `RunOneRound` sends the query, turns each reply's parts into text blocks
    and function calls, and asks the user to approve every call.
  - On "1" it invokes the tool; on "2" it records a refusal; on anything else
    it stops with an error.
  - It sends the observations back, for at most 20 iterations.
  - The model, the user's choices and the tool invocations are oracles
    indexed by how many came before. The run is recorded in a `Trace`: the
    blocks shown, what was sent, how many choices were awaited and which
    tools ran.
  - The alphabetical sort of function definitions in `Init` is modelled as a
    sorted permutation.
- **The document** (`ui.dfy`).
  - `Document` is a class. Its block sequence is replaced by a longer copy on
    every `AddBlock`.
  - Subscriptions are numbered from 1 and closed by forgetting their
    subscriber. Closed ones are pruned when a subscription is added.
  - Every change is fanned out to the live subscriptions in list order. The
    fan-out is recorded as a log of `DocumentChanged` calls.
- **The kubectl tools** (`tools.dfy`).
  - The two tool-catalogue generators: a flat parameter map, and the Ollama
    variant under an object schema.
  - `ExecuteCommand`, which strips "kubectl" from the call's name, sorts the
    decoded arguments into resource type, resource name and `--k=v` flags,
    and asks for confirmation for each matching command.
  - Go's map iteration order is a parameter (`order`).
  - `GeneratedNameKeepsSpace` and `GeneratedCallsRunNothing` prove that the
    name stripping leaves the leading space of "kubectl <cmd>". A call named
    after a generated tool therefore matches no kubectl command: nothing is
    asked and nothing runs. The model keeps this behaviour as written.

`gostrings.dfy` gives the Go string functions the core uses
(`strings.Index`, `LastIndex`, `ReplaceAll`, `TrimSpace`, `EqualFold`
against "y", and `<` on strings) the contracts Go documents for them.
`wrappers.dfy` holds `Option` and `Result`.

A stream whose text holds no complete fenced block is not a benign end:
unless the text is empty, the shim reports a parse error
(`ShimUnfencedTextIsAnError`).

## Model

| member | source | states |
|---|---|---|
| GoStrings.IndexSpec | pkg/agent/conversation.go:318 | `strings.Index` returns the first occurrence of the marker, and -1 exactly when there is none |
| GoStrings.LastIndexSpec | pkg/agent/conversation.go:319 | `strings.LastIndex` returns the last occurrence of the fence, and -1 exactly when there is none |
| GoStrings.ReplaceAllDeletesChar | pkg/agent/conversation.go:338 | deleting "\n" removes every newline and keeps every other character, in order |
| GoStrings.TrimSpaceSpec | pkg/agent/conversation.go:339 | `TrimSpace` returns a slice of its input with only white space outside it, and the result does not start or end with white space |
| GoStrings.TrimSpaceKeeps | pkg/agent/conversation.go:339 | trimming introduces no character that was not in the input |
| GoStrings.EqualFoldY | pkg/tools/tools.go:191 | the answer counts as yes exactly when it is one character that case-folds to "y" |
| GoStrings.LessIrreflexive | pkg/agent/conversation.go:91-93 | no name sorts before itself |
| GoStrings.LessTransitive | pkg/agent/conversation.go:91-93 | the name order used by the sort is transitive |
| GoStrings.LessTotal | pkg/agent/conversation.go:91-93 | of two distinct names, one sorts before the other |
| GoStrings.LessAsymmetric | pkg/agent/conversation.go:91-93 | two names never sort before each other |
| Shim.NoFenceInsideMarker | pkg/agent/conversation.go:316-320 | no fence starts strictly inside an occurrence of the json marker, so `first == last` only when the marker is the last fence |
| Shim.ExtractJSON | pkg/agent/conversation.go:315-326 | a block is found exactly when the marker occurs before the last fence; the slice is then in bounds; otherwise the block is empty |
| Shim.FoundIffFenceAfterMarker | pkg/agent/conversation.go:315-326 | a block is found exactly when some fence starts after the first marker |
| Shim.ExtractJSONSplits | pkg/agent/conversation.go:318-325 | a found block splits the input into text, marker, block, fence and text |
| Shim.ExtractWrapped | pkg/agent/conversation.go:315-326 | text, marker, body, fence and text without other backticks extract to exactly the body |
| Shim.Clean | pkg/agent/conversation.go:338-339 | the cleaned block is the block with every newline deleted, cut down to the slice that has only white space outside it; it has no newline and neither starts nor ends with white space |
| Shim.ParseReActResponse | pkg/agent/conversation.go:332-346 | missing block is the no-block error; otherwise the result is what the cleaned block decodes to, or the malformed-JSON error carrying the cleaned text |
| Shim.ParseWrapped | pkg/agent/conversation.go:332-346 | parsing a fenced reply yields what its cleaned body decodes to |
| Shim.AsText | pkg/agent/conversation.go:446-448 | a part's text is returned as is, and reported as a text exactly when it is non-empty |
| Shim.Parts | pkg/agent/conversation.go:427-439 | at most three parts, each either a non-empty text or an action |
| Shim.AsFunctionCalls | pkg/agent/conversation.go:450-467 | an action part gives exactly one call named after the action, with reason, command and modifies_resource as arguments and never "name"; a text part gives none |
| Shim.PartIsTextOrCall | pkg/agent/conversation.go:427-467 | every part of a parsed reply is exactly one of a non-empty text (`AsText` ok) or a function call (`AsFunctionCalls` ok) |
| Shim.AppendTexts | pkg/agent/conversation.go:377-385 | the parts loop succeeds exactly when every part is text, and then appends all texts in order |
| Shim.CandidateToShimCandidate | pkg/agent/conversation.go:361-405 | the streaming loop with its early break yields exactly the outcome `ShimResult` specifies, having consumed the items it reports |
| ShimProperties.ScanDrained | pkg/agent/conversation.go:364-390 | a scan that drains consumed only good items, at least one if any, and its buffer is everything they said |
| ShimProperties.ScanAborted | pkg/agent/conversation.go:364-384 | a scan that aborts does so on the last item it pulled, with that item's error, and every earlier item carried text |
| ShimProperties.ScanStopsWhenComplete | pkg/agent/conversation.go:387-389 | the scan stops before the end of the stream only on an error or with a complete buffer |
| ShimProperties.ScanStopsAtFirst | pkg/agent/conversation.go:387-389 | no shorter good prefix of what the scan consumed made the buffer complete |
| ShimProperties.ScanFailsAtFirstBad | pkg/agent/conversation.go:364-384 | the scan aborts at the first bad item when no earlier prefix completed the buffer |
| ShimProperties.BlockCompleteMonotone | pkg/agent/conversation.go:387 | appending text never destroys a complete block |
| ShimProperties.ShimStopsAtFirstBlock | pkg/agent/conversation.go:361-405 | the shim reads no item past the one that completed the first block, and stops early only on an error or a complete block |
| ShimProperties.ShimFailsAtFirstBadItem | pkg/agent/conversation.go:364-384 | an upstream error, a response without candidates or a non-text part, before any block completed, is the error the shim yields |
| ShimProperties.ShimSilentStreamYieldsNothing | pkg/agent/conversation.go:392-395 | a stream that said nothing yields the benign empty result, not an error |
| ShimProperties.ShimUnfencedTextIsAnError | pkg/agent/conversation.go:392-401 | non-empty text without a complete block yields the parse error for the whole buffer |
| ShimProperties.WrappedPrefixExtracts | pkg/agent/conversation.go:315-326 | a fenced reply, or any prefix of it that holds a complete block, extracts exactly the body |
| ShimProperties.ShimRoundTrip | pkg/agent/conversation.go:361-405 | however a fenced reply is chunked, the shim yields what its cleaned body decodes to, or the malformed error, after reading exactly up to the chunk that closes the fence |
| Agent.PartsRoundTrip | pkg/agent/conversation.go:427-467 | the texts of a response's parts are its thought then its answer, and its calls are none or the one call of its action |
| Agent.ProcessParts | pkg/agent/conversation.go:138-174 | one text block is shown, holding every text in order, only if some text arrived, and the calls are collected in order |
| Agent.HandleCallsInOrder | pkg/agent/conversation.go:182-233 | the call loop does exactly what `HandleCalls` specifies |
| Agent.RunRound | pkg/agent/conversation.go:121-240 | one iteration does exactly what `Round` specifies |
| Agent.RunOneRound | pkg/agent/conversation.go:115-247 | the whole loop does exactly what `Run` specifies |
| Agent.InsertByName | pkg/agent/conversation.go:91-93 | insertion adds exactly the one definition |
| Agent.SortByName | pkg/agent/conversation.go:91-93 | sorting is a permutation of the definitions |
| Agent.InsertKeepsSorted | pkg/agent/conversation.go:91-93 | inserting into a sorted list keeps it sorted by name |
| Agent.SortByNameSorts | pkg/agent/conversation.go:91-93 | the definitions come out sorted by name |
| AgentProperties.HandleCallSpec | pkg/agent/conversation.go:183-232 | one call only appends to the logs, awaits at most one choice, invokes a tool exactly when that choice was "1", and when it goes on leaves exactly one observation naming the call; a tool that cannot be built stops with the build error before anything is shown; a failed read stops with the read error; on "1" the observation is the output of that very invocation, and a failed invocation stops with its error, unretried |
| AgentProperties.ConfirmationOutcomes | pkg/agent/conversation.go:188-232 | each call first shows its request block and the options block offering "1" and "2"; "1" shows nothing more and, when the tool runs, records its output; "2" shows the skipped block, records a refusal and invokes nothing; end of input ends without error; a failed read returns the read error; any other choice shows the error block and returns the invalid-choice error |
| AgentProperties.CallsAnsweredInOrder | pkg/agent/conversation.go:182-233 | the calls are answered in emission order, one awaited choice and one observation each, and one invocation per "1" |
| AgentProperties.RespondSpec | pkg/agent/conversation.go:128-238 | handling a reply's parts goes on only with fresh pending content holding exactly one observation per call of this reply, in call order, and never ends with the max-iterations error |
| AgentProperties.RoundSpec | pkg/agent/conversation.go:121-240 | a round sends its pending content exactly once, invokes one tool per "1", and continues only with exactly the observations of this send's reply, one per call in order |
| AgentProperties.RoundWithoutActionEnds | pkg/agent/conversation.go:235-238 | a reply without an action, or no reply, ends the loop without error |
| AgentProperties.RoundsSpec | pkg/agent/conversation.go:121-246 | the remaining rounds send at most the remaining iterations, first the pending content and then, each time, exactly the observations of the previous reply's calls in order; giving up shows the error block last |
| AgentProperties.RoundsGiveUp | pkg/agent/conversation.go:121-246 | the remaining rounds end with the max-iterations error exactly when every one of them goes on to the next |
| AgentProperties.RoundInKeepsPromises | pkg/agent/conversation.go:121-240 | every round of the loop keeps the promises of RoundSpec, for any pending content and log |
| AgentProperties.RunSpec | pkg/agent/conversation.go:115-247 | at least one and at most 20 sends, the query first and after it exactly the observations of the previous reply's calls, one per call in order; tools run exactly once per "1"; the max-iterations error comes after 20 sends with its error block last |
| AgentProperties.GivesUpIffAllContinue | pkg/agent/conversation.go:121-247 | the loop ends with the max-iterations error exactly when all 20 rounds went on to the next |
| AgentProperties.NoApprovalNoInvocation | pkg/agent/conversation.go:198-223 | a user who never chooses "1" never has a tool invoked |
| Ui.Subscription.constructor | pkg/ui/model.go:93-97 | a new subscription belongs to its document and carries its id and subscriber |
| Ui.Subscription.Close | pkg/ui/model.go:79-84 | closing forgets only this subscription's subscriber (idempotent; nothing else changes) |
| Ui.Live | pkg/ui/model.go:99-105 | the survivors are exactly the live entries of the list |
| Ui.LiveAppend | pkg/ui/model.go:99-105 | pruning works entry by entry, so survivors keep their relative order |
| Ui.NoticesFollowLive | pkg/ui/model.go:116-122 | a fan-out makes one call per live subscription, in list order, and no other |
| Ui.FirstIndex | pkg/ui/model.go:45-54 | the first position holding the block, or -1 exactly when it is absent |
| Ui.AppendedBlockIsLast | pkg/ui/model.go:125-131 | a block appended to blocks that did not hold it is found at the last index |
| Ui.Prune | pkg/ui/model.go:99-105 | the filter loop keeps exactly the live entries, in order |
| Ui.LiveKeepsIdOrder | pkg/ui/model.go:99-105 | pruning keeps ids increasing along the list |
| Ui.LiveStaysOrdered | pkg/ui/model.go:99-107 | pruning a valid list keeps it owned by the document, below the next id and ordered |
| Ui.Document.constructor | pkg/ui/model.go:56-61 | a new document has no blocks and no subscriptions, and its first id is 1 |
| Ui.Document.Blocks | pkg/ui/model.go:34-39 | the current block sequence; since AddBlock installs a longer copy, an earlier result stays a prefix of later ones |
| Ui.Document.NumBlocks | pkg/ui/model.go:41-43 | the number of blocks |
| Ui.Document.IndexOf | pkg/ui/model.go:45-54 | the first index holding the block, or -1 exactly when it is absent |
| Ui.Document.AddSubscription | pkg/ui/model.go:86-109 | the new subscription takes the old next id, the next id grows by one, and the list becomes its live entries in order followed by the new one; ids stay increasing |
| Ui.Document.SendDocumentChanged | pkg/ui/model.go:111-123 | the calls made are exactly one per live subscription of the snapshot, in order; nothing else changes and the document stays valid |
| Ui.Document.AddBlock | pkg/ui/model.go:125-138 | the blocks become the old blocks plus the new one, the block is attached here, and exactly one fan-out is made; subscriptions and ids are untouched, so the document stays valid |
| Ui.BlockChanged | pkg/ui/model.go:140-146 | no effect on a nil document; otherwise one fan-out, the blocks unchanged and the document still valid |
| Tools.FlagPropertiesSpec | pkg/tools/tools.go:77-86 | the flag properties name exactly the flags, each described by the last flag visited under its name |
| Tools.ToolSpec | pkg/tools/tools.go:65-106 | each tool is a "function" named "kubectl <cmd>" whose parameters are the flags plus the two resource entries, which are strings and win over flags of the same name |
| Tools.OllamaToolSpec | pkg/tools/tools.go:108-151 | the Ollama tool has the same name and description, and parameters of type "object" whose properties are exactly the plain tool's parameters |
| Tools.VisitFlags | pkg/tools/tools.go:78-86 | visiting the flags fills in exactly the flag properties |
| Tools.GenerateKubectlCommandsAsTool | pkg/tools/tools.go:65-106 | one tool per command, in command order |
| Tools.GenerateKubectlCommandsAsToolOllama | pkg/tools/tools.go:108-151 | one Ollama tool per command, in command order |
| Tools.GeneratedNameKeepsSpace | pkg/tools/tools.go:154 | stripping "kubectl" from "kubectl <cmd>" leaves a leading space |
| Tools.FlagKeys | pkg/tools/tools.go:159-167 | the flag keys are exactly the visited keys other than resource_type and resource_name |
| Tools.FlagArgsSpec | pkg/tools/tools.go:159-167 | every non-resource key yields exactly one "--k=v", in visiting order, and the resource keys never become flags |
| Tools.CollectArgs | pkg/tools/tools.go:157-167 | the argument loop yields the string resource type and name (empty if absent or not a string) and the flag arguments |
| Tools.ExecuteSpec | pkg/tools/tools.go:168-206 | the output is always empty; at most one confirmation per command; an error is returned exactly when a confirmation read failed, that read is the last and every earlier one succeeded; without an error every command of the name was asked once; kubectl runs once per "y", always with the named command |
| Tools.NoMatchDoesNothing | pkg/tools/tools.go:169-172 | without a command of that name nothing is asked and nothing runs |
| Tools.ExecuteSingleMatch | pkg/tools/tools.go:168-206 | one matching command, confirmed, runs kubectl once with the command, the resource type and name if non-empty, then the flags |
| Tools.SingleMatchRuns | pkg/tools/tools.go:153-206 | the same for a whole call: command, resource type, resource name, then every flag |
| Tools.GeneratedCallsRunNothing | pkg/tools/tools.go:153-172 | a call named after a generated tool matches no kubectl command, so nothing is asked and nothing runs |
| Tools.ExecuteCommand | pkg/tools/tools.go:153-207 | the method does exactly what `ExecuteCommandSpec` specifies |

## Left out

- JSON decoding and encoding are parameters. The model leaves out the JSON grammar, the `toMap` round trip of an action (taken as its four tagged fields) and `toResult`.
- The text of observations and of blocks built with `fmt.Sprintf`/`%q`, the `PrettyPrint` of a tool call and the confirmation prompt's wording are not modelled. Observations record the call name and the tool output or refusal.
- The max-iterations block text is modelled without the `%!(EXTRA …)` suffix that the surplus `Sprintf` argument appends at run time.
- The retry decorator, the streaming transport, the network clients and the template prompt are left out, because they are I/O.
- `SetStreaming` and `AppendText` on the agent text block are left out. The model shows one text block holding all the texts; their rendering in the terminal UI is left out.
- The "no candidates" check in `RunOneRound` is not modelled: the shim's response always carries exactly one candidate.
- `ParseToolInvocation` and `InvokeTool` are oracles (`buildsTool`, `invoke`). The temporary work directory, `Close` and the kubeconfig are left out.
- The Document mutex and all concurrency are left out; every operation is one sequential step. The subscribers' own reaction to `DocumentChanged` is not part of this model, and the document's `streams` field is left out.
- Ui.Document.AddSubscription: ids are unbounded; the `uint64` wrap-around of `nextID` after 2^64 subscriptions is not modelled.
- Agent.SortByName: `sort.Slice` leaves the order of equal names unspecified; the model's insertion sort keeps them in input order, and its contract promises only a sorted permutation.
- The kubectl command tree is an abstract list of commands and flags. `exec.Command`, the terminal prompt and `InheritedFlags` are left out; a confirmed execution is recorded as the argument vector kubectl would start with.
- Tools.ExecuteCommand: the error of `json.Unmarshal` is ignored in the source and therefore not modelled. The decoded map is a parameter, and so is the order in which Go's map iteration visits it.
