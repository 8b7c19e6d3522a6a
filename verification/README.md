# Verified models of Base-Context

This directory holds Dafny models of eleven parts of the repository and proofs
of what they promise. `dafny verify dfyconfig.toml` checks all of them.

The models keep the form of the code. Code that changes things step by step is
a class or a method with loops, proved against a specification function, and
the properties are lemmas about that function or invariants the methods keep.
Concurrency is a state machine whose steps may come in any order.

- **Agent run** (`AgentMessages`, `UpdateLatch`, `ToolBatch`, `ToolExecution`,
  `MessageQueue`, `AgentSink`, `AgentTurns`, `AgentContext`, `AgentGrammar`,
  `AgentLoop`, `AgentRun`). The turn loop with its steering, follow-up and
  continuation polls, provider and preparation recovery, context adoption, and
  sequential and concurrent tool batches. A run is driven by a script of
  answers, one entry a turn: what the provider streams, what hooks and owners
  return, what the tools do and in which order, when messages are queued and
  when the signal aborts. Every run that ends is the run of some script. A run
  that returns has a trace that is the print of a sequence of turns;
  `AgentGrammar` reads such traces with an automaton of its own. Every turn
  after the first follows the one before it for a reason: tool results to
  answer, a recovered failure, steering, or, once no tool calls remain,
  follow-ups or a continuation. A finished run's payload is every finished
  message in order, in plain and in bounded runs. At every turn_end the working
  context is the Agent's transcript without the messages provider recovery
  dropped since the last adoption. Every batch that was queued is delivered
  whole, once and in order, or still waits.
- **Bounded output** (`InvocationOutput`). The byte ledger, the slots of
  messages captured more than once, refusals and refreshes.
- **Sidecar accounting** (`SidecarLog`, `SidecarChecker`, `SidecarReport`). A
  log specification written without reference to the checker, and the checker's
  equivalence with it.
- **Price ranges** (`PriceRange`). Conditional cost intervals over real numbers.
- **Owned install** (`OwnedInstall`). Any number of installers and rollbacks,
  their activation workers and crashes at any step, as a transition system over
  the disk, the lock and the reports.
- **Stdin buffer** (`StdinSequences`, `StdinBuffer`, `StdinChunking`). The
  escape-sequence splitter, paste mode and the duplicate-key register, with the
  exact condition under which chunk boundaries never show.
- **Span reader** (`JsonText`, `JsonDecoder`, `JsonSpans`, `JsonMembers`). JSON
  texts as trees that keep their whitespace (RFC 8259), the structural decoder,
  and the depth-counting scan that agrees with it on every text it decodes.
- **Codex client** (`CodexProtocol`, `CodexClient`). The reader and the prompt
  and compaction coroutines, step by step between awaits.
- **Base-Context client** (`LineReader`, `BaseProtocol`). Line splitting, event
  numbers, watermarks and the outcome of a prompt and of a compaction.
- **LaTeX renderer** (`Latex`, `LatexTree`, `LatexParser`). The parser as
  functions and as an object with a cursor, and a syntax tree whose printed text
  it reads back as the tree's denotation.
- **Fullscreen viewport** (`Fullscreen`, `FullscreenViewport`). The row-diff
  painter against a terminal whose rows may be unknown, and the scrolled window.

The main results, which the other members of the table serve:

- agent runs: `AgentRuns.AgentRun.RunLoop`, `AgentRuns.Continue`,
  `AgentGrammar.WholeRunIsAccepted`, `AgentContexts.ContextIsTranscript`,
  `AgentContexts.TurnEndTells`, `AgentLoops.AgentLoop.StreamAssistantResponse`,
  `ToolExecution.ExecuteToolCallsParallel`,
  `ToolExecution.ExecuteToolCallsSequential`, `UpdateLatches.LatchIsSound`;
- bounded output: `InvocationOutputs.InvocationOutput.Capture` and `Refresh`;
- sidecar and prices: `SidecarReporting.ApplyInstrumented`,
  `SidecarChecking.BlamedIffOutOfPlace`, `PriceRange.ObservationsAreBounded`;
- owned install: `OwnedInstall.AcceptancesAreLinear`, `CurrentIsUsable`,
  `RollbackTwiceRestores`, `ReportsAreTrue`;
- stdin: `StdinChunking.ChunkIndependence`, `AnyChunking`,
  `StdinSequences.ExtractIsExact`;
- span reader: `JsonSpans.SkipAgrees`, `JsonMembers.ValueAgrees`;
- clients: `CodexProtocols.NoCompletionIsLost`, `StoppedReaderStrandsNobody`,
  `CompactionsMatchExactly`, `BaseProtocols.AnsweredDrains`,
  `ChunkingDoesNotMatter`, `LateRequestsWait`;
- LaTeX: `LatexTree.RenderingIsCompositional`, `IndicesReadIffClosed`;
- fullscreen: `Fullscreen.PaintShowsExactly`, `DiffIsRepaint`,
  `FullscreenViewports.FullscreenViewport.ComposeFrame`.

Five claims needed a condition, and each is stated with it.

- Stdin output is independent of chunking if and only if every paste-start
  marker keeps the tail before it incomplete while it arrives; a marker on a
  sequence boundary always does, and Escape followed at once by a paste does not.
- A paint shows the whole frame if and only if since the last resize every row
  has been cleared or rewritten. A screen resized and resized back between two
  paints without a reset keeps exactly the skipped rows unrepaired.
- A root's index in LaTeX is read to its end if and only if its text holds no
  closing bracket, because the parser ends it at the first one: a root within a
  root's index is misread. Rendering is compositional for the other trees.
- A compaction is meant to return a compaction item with its matching turn. The
  two match if and only if the last item to arrive while it was waiting is of the
  turn of the last completed one; an item of a second turn breaks the match.
- The payload of a bounded run is the finished messages provided its policy
  copies faithfully and messages are not changed after they are finished.

Assumed of the environment, as the code's own contracts state it: a provider
stream sends at most one start event and only messages of the assistant's role,
event listeners do not fail, hooks do not change the working context, and a
bounded output's copies keep to the budget they are given.

## Model

| member | source | states |
|---|---|---|
| StdinSequences.FindEnd | packages/tui/src/stdin-buffer.ts:178-199 | the inner loop finds the shortest complete prefix of an escape, or runs past the end when there is none |
| StdinSequences.ExtractCompleteSequences | packages/tui/src/stdin-buffer.ts:171-207 | the outer loop cuts exactly the sequences and the remainder of `Extract` |
| StdinSequences.ExtractIsExact | packages/tui/src/stdin-buffer.ts:171-207 | the sequences and the remainder joined are the input; every sequence is a single character or the shortest complete prefix, and the remainder has no complete prefix |
| StdinSequences.TokenIsNextCut | packages/tui/src/stdin-buffer.ts:171-207 | whatever follows a sequence, the splitter cuts it at the same place |
| StdinSequences.TailIsFixed | packages/tui/src/stdin-buffer.ts:171-207 | extracting an incomplete tail again leaves it as it is |
| StdinSequences.TokenAlone | packages/tui/src/stdin-buffer.ts:171-207 | a sequence alone is extracted as itself |
| StdinSequences.ExtractResumes | packages/tui/src/stdin-buffer.ts:171-207 | extract(a+b) is the sequences of extract(a), then extract(remainder of a, followed by b) |
| StdinSequences.TokensRoundTrip | packages/tui/src/stdin-buffer.ts:171-207 | any list of sequences, concatenated, is split back into exactly that list |
| StdinSequences.ControlSequenceIsToken | packages/tui/src/stdin-buffer.ts:74-108 | a control sequence as section 5.4 of ECMA-48 writes it (parameter and intermediate bytes, then a final byte) is one sequence |
| StdinBuffers.IndexOf | packages/tui/src/stdin-buffer.ts:288-307 | the first occurrence of the pattern, and none only when there is none |
| StdinBuffers.StdinBuffer.EmitDataSequence | packages/tui/src/stdin-buffer.ts:340-349 | a character that repeats a pending Kitty report is swallowed once; anything else is emitted and sets the register |
| StdinBuffers.StdinBuffer.Process | packages/tui/src/stdin-buffer.ts:239-338 | one call has exactly the effect of `Step`: buffer, paste state, register, timer and emitted events |
| StdinBuffers.StdinBuffer.Flush | packages/tui/src/stdin-buffer.ts:351-365 | gives the incomplete buffer out once and forgets it and the register |
| StdinBuffers.StdinBuffer.Clear | packages/tui/src/stdin-buffer.ts:367-376 | forgets everything but the events already emitted |
| StdinBuffers.OutsideSettles | packages/tui/src/stdin-buffer.ts:239-338 | after ordinary input the buffer holds an incomplete tail or nothing, with the timer armed exactly for a tail |
| StdinBuffers.PasteSettles | packages/tui/src/stdin-buffer.ts:239-338 | inside a paste the buffer is empty and the end marker has not come |
| StdinBuffers.StepKeepsSettled | packages/tui/src/stdin-buffer.ts:239-338 | every call leaves the object in a settled state |
| StdinChunking.OutsideResumes | packages/tui/src/stdin-buffer.ts:239-338 | ordinary input cut anywhere at which no marker is broken resumes to the same state |
| StdinChunking.PasteResumes | packages/tui/src/stdin-buffer.ts:239-338 | a paste cut anywhere resumes to the same state |
| StdinChunking.ChunkIndependence | packages/tui/src/stdin-buffer.ts:239-338 | no cut of a stream ever shows, at any place, if and only if every paste-start marker it opens a paste with keeps the tail before it incomplete while it arrives |
| StdinChunking.SomeSplitShows | packages/tui/src/stdin-buffer.ts:239-338 | a stream with a marker that does not is emitted differently when it is cut at a place that can be named |
| StdinChunking.TwoChunks | packages/tui/src/stdin-buffer.ts:239-338 | two calls are one call on the concatenation: same events, same state |
| StdinChunking.AnyChunking | packages/tui/src/stdin-buffer.ts:239-338 | every split into nonempty chunks ends in the same state, with the same data and paste events, as one call |
| StdinChunking.MarkerOnBoundaryHolds | packages/tui/src/stdin-buffer.ts:239-338 | a paste-start marker on a sequence boundary is always such a marker |
| StdinChunking.BoundariesNeverShow | packages/tui/src/stdin-buffer.ts:239-338 | a stream all of whose paste-start markers lie on sequence boundaries gives the same events and ends in the same state however it is cut into nonempty chunks |
| StdinChunking.EscapeThenPaste | packages/tui/src/stdin-buffer.ts:239-338 | Escape followed at once by a paste is a stream whose output depends on its chunks |
| SidecarLog.ProcessesAreBracketed | benchmarks/python-realworld-30/benchlib.py:658-785 | in an orderly log each process has at most one opening and one closing record, the first and the last of its own |
| SidecarLog.OpenedIsClosedLater | benchmarks/python-realworld-30/benchlib.py:658-785 | in a finished log every operation, attempt and connection opened is closed later in the same process |
| SidecarLog.OpenedOnce | benchmarks/python-realworld-30/benchlib.py:658-785 | an operation is started once and an attempt admitted once |
| SidecarLog.OneOperationPerName | benchmarks/python-realworld-30/benchlib.py:658-785 | every record that names an operation belongs to the one started under that name, in its process and with its scope |
| SidecarLog.OneOperationPerAttempt | benchmarks/python-realworld-30/benchlib.py:658-785 | all records of one attempt name the same operation |
| SidecarLog.AttemptsAreSeparate | benchmarks/python-realworld-30/benchlib.py:658-785 | an operation's attempts belong to no operation started before it |
| SidecarLog.DeclaredIsCount | benchmarks/python-realworld-30/benchlib.py:779-781 | an operation's declared number of attempts is the number of its attempts |
| SidecarLog.CountsAddUp | benchmarks/python-realworld-30/benchlib.py:779-781 | over any number of operations the attempts are as many as were declared |
| SidecarLog.CallsAreDeclared | benchmarks/python-realworld-30/benchlib.py:643-645 | the number of admitted attempts is the sum of the declared physicalAttempts over all operations |
| SidecarChecking.BlamedIffOutOfPlace | benchmarks/python-realworld-30/benchlib.py:681-773 | with an exact book, a record adds a reason if and only if it may not follow the log before it |
| SidecarChecking.TracksGrows | benchmarks/python-realworld-30/benchlib.py:681-773 | reading a record in its place keeps the book exact: open scopes, scopes of operations, admissions, requests |
| SidecarChecking.OwnProcessTracks | benchmarks/python-realworld-30/benchlib.py:694-701 | the record's own process keeps exactly the scopes it has open |
| SidecarChecking.OperationsTrack | benchmarks/python-realworld-30/benchlib.py:718-740 | every operation keeps its record, its attempts, its settlement and its declared count |
| SidecarChecking.RequestsTrack | benchmarks/python-realworld-30/benchlib.py:741-757 | every request is its attempt's latest record under the operation that admitted it |
| SidecarReporting.SidecarChecker.Note | benchmarks/python-realworld-30/benchlib.py:690-773 | one record has exactly the faults and the effect the specification gives it |
| SidecarReporting.ReadLines | benchmarks/python-realworld-30/benchlib.py:681-773 | after the line loop there is no reason if and only if every line parsed and every record was in its place; then the book is exact |
| SidecarReporting.CloseProcesses | benchmarks/python-realworld-30/benchlib.py:774-778 | no reason is added if and only if every process has header and footer and nothing open |
| SidecarReporting.CloseOperations | benchmarks/python-realworld-30/benchlib.py:779-781 | no reason is added if and only if every operation is settled with the declared number of attempts |
| SidecarReporting.CloseBook | benchmarks/python-realworld-30/benchlib.py:774-782 | no reason is added if and only if nothing is missing at the end, nothing is unsettled and something was attempted |
| SidecarReporting.RequestsAreAttempts | benchmarks/python-realworld-30/benchlib.py:741-757 | the requests kept are exactly the admitted attempts |
| SidecarReporting.MainAreMain | benchmarks/python-realworld-30/benchlib.py:641-645 | a request counts as a main call exactly when its attempt was admitted under an operation started for the main purpose |
| SidecarReporting.OperationsAreStarted | benchmarks/python-realworld-30/benchlib.py:784 | the operations kept are exactly those started |
| SidecarReporting.SettledIffFinished | benchmarks/python-realworld-30/benchlib.py:774-782 | the tests at the end pass if and only if the log is finished and has attempts |
| SidecarReporting.ApplyInstrumented | benchmarks/python-realworld-30/benchlib.py:606-785 | the capture is complete if and only if the sidecar is the faultless log of a finished invocation without child sessions; then the call count is the admitted attempts and the sum of the declared ones, the main calls are the attempts of operations started for the main purpose, the auxiliary ones the rest, the invocations the operations started, and otherwise every total is withheld |
| PriceRange.CostIsReal | benchmarks/python-realworld-30/benchlib.py:433-436 | a cost that is known is quantity times rate, whatever a missing quantity with a zero rate really was |
| PriceRange.SplitBetween | benchmarks/python-realworld-30/benchlib.py:443-446 | any split of an amount between two rates costs between all of it at the lower and all at the higher |
| PriceRange.PricedIsTrue | benchmarks/python-realworld-30/benchlib.py:431-447 | for every nonnegative split of the input an observation allows, the real cost lies in its interval; a known total is the real cost; there are never both |
| PriceRange.BoundsAreReached | benchmarks/python-realworld-30/benchlib.py:443-446 | each end of the interval is the real cost of an allowed split |
| PriceRange.EstimateIsTrue | benchmarks/python-realworld-30/benchlib.py:403-458 | an observation is priced only by the profile that matches it, with long-input multipliers and stock evidence, and with every rate known; then the real cost is its known total or lies in its interval, never both |
| PriceRange.AggregateEstimates | benchmarks/python-realworld-30/benchlib.py:461-484 | one pass gives a group for exactly the keys that occur, each the sum of its own items |
| PriceRange.AbsentIsEmpty | benchmarks/python-realworld-30/benchlib.py:466-470 | a key that does not occur sums to an empty group |
| PriceRange.GroupBoundsRealCost | benchmarks/python-realworld-30/benchlib.py:461-484 | a group's known subtotal plus its summed range bounds what its priced observations really cost, and its counts tell whether all are unpriced |
| PriceRange.ObservationsAreBounded | benchmarks/python-realworld-30/benchlib.py:403-484 | for any observations and any split of each that it allows, a group's known subtotal plus its summed range bounds what its priced observations really cost at their rates |
| OwnedInstall.FireKeeps | packages/coding-agent/src/owned-install.ts:103-253 | every step of every installer, rollback, worker or crash keeps the invariant |
| OwnedInstall.RenameKeeps | packages/coding-agent/src/owned-install.ts:142-145 | the rename that publishes a selection extends the chain by a link to the selection it replaced |
| OwnedInstall.NewLink | packages/coding-agent/src/owned-install.ts:119-145 | the new entry replaces exactly the generation its worker expected, under the lock |
| OwnedInstall.WorkerKeepsChain | packages/coding-agent/src/owned-install.ts:113-148 | no other step of a worker touches the chain |
| OwnedInstall.InvAlways | packages/coding-agent/src/owned-install.ts:103-391 | the invariant holds after any interleaving of installs and rollbacks with crashes anywhere |
| OwnedInstall.AcceptancesAreLinear | packages/coding-agent/src/owned-install.ts:119-145 | accepted selections form one chain: each replaced exactly the generation it expected, its previous version is the replaced active one, and current.json is the chain's end |
| OwnedInstall.OneWinner | packages/coding-agent/src/owned-install.ts:49-57 | at most one contender per expected generation wins, and no operation is accepted twice |
| OwnedInstall.CurrentIsUsable | packages/coding-agent/src/owned-install.ts:126-145 | current.json never exists without its launchers, and its active version passed the preparation checks |
| OwnedInstall.RollbackTwiceRestores | packages/coding-agent/src/owned-install.ts:381-391 | two rollbacks accepted one after the other restore the selected pair of versions |
| OwnedInstall.ReportTrueNow | packages/coding-agent/src/owned-install.ts:189-253 | a reported acceptance was renamed into place by that operation, and a refused one was not |
| OwnedInstall.ReportsAreTrue | packages/coding-agent/src/owned-install.ts:149-253 | whatever happens later, a reported acceptance stays true and a refusal means the operation never takes effect |
| JsonDecoder.StringRoundTrip | benchmarks/python-realworld-30/native/collect_codex_usage.py:35 | a printed string, with any mix of plain characters, escapes and \u escapes, decodes to the text it denotes, surrogate pairs joined (RFC 8259 section 7) |
| JsonDecoder.NumberRoundTrip | benchmarks/python-realworld-30/native/collect_codex_usage.py:35 | a number (RFC 8259 section 6) is read whole wherever a separator or the end follows it |
| JsonDecoder.DecodeRoundTrip | benchmarks/python-realworld-30/native/collect_codex_usage.py:35 | a printed value decodes to what it denotes and ends at its last character, whatever follows it, except that a number must not run on (RFC 8259 sections 2 to 7) |
| JsonDecoder.ItemsRoundTrip | benchmarks/python-realworld-30/native/collect_codex_usage.py:35 | the printed elements of an array decode in order |
| JsonDecoder.MembersRoundTrip | benchmarks/python-realworld-30/native/collect_codex_usage.py:35 | the printed members of an object decode to the last value of every name |
| JsonDecoder.LoadsRoundTrip | benchmarks/python-realworld-30/native/collect_codex_usage.py:103-105 | loading a printed value with whitespace around it gives what it denotes |
| JsonSpans.FindNonSpace | benchmarks/python-realworld-30/native/collect_codex_usage.py:38-41 | the loop stops at the first character that is not whitespace in Python's sense |
| JsonSpans.SkipString | benchmarks/python-realworld-30/native/collect_codex_usage.py:44-53 | the loop stops just past the closing quote, over every escape, or reports that there is none |
| JsonSpans.SkipValue | benchmarks/python-realworld-30/native/collect_codex_usage.py:56-74 | the depth-counting loop ends where the specification of the scan ends |
| JsonSpans.Members | benchmarks/python-realworld-30/native/collect_codex_usage.py:77-100 | the loop collects exactly the spans of `MembersAt`, and fails exactly where it does |
| JsonSpans.StringEndAgrees | benchmarks/python-realworld-30/native/collect_codex_usage.py:44-53 | the string scan stops where the decoder stops |
| JsonSpans.DepthKept | benchmarks/python-realworld-30/native/collect_codex_usage.py:60-71 | inside any number of containers a whole decodable value leaves the depth as it was |
| JsonSpans.InsideKept | benchmarks/python-realworld-30/native/collect_codex_usage.py:60-71 | from just inside a container to just past its end the depth falls by one |
| JsonSpans.ItemsDepth | benchmarks/python-realworld-30/native/collect_codex_usage.py:60-71 | the elements of an array bring the depth back by one |
| JsonSpans.MembersDepth | benchmarks/python-realworld-30/native/collect_codex_usage.py:60-71 | the members of an object bring the depth back by one |
| JsonSpans.SkipAgrees | benchmarks/python-realworld-30/native/collect_codex_usage.py:56-74 | on any text: where the decoder reads a string or a container, or a scalar followed by a separator or the end, the scan stops exactly at the value's end |
| JsonSpans.SkipPrintedValue | benchmarks/python-realworld-30/native/collect_codex_usage.py:56-74 | for every JSON value printed with arbitrary legal whitespace the scan stops exactly at its end, whatever follows a string or a container |
| JsonMembers.WindowDecode | benchmarks/python-realworld-30/native/collect_codex_usage.py:103-105 | decoding the slice that holds a value gives the same value: the decoder reads nothing outside it |
| JsonMembers.LoadsSlice | benchmarks/python-realworld-30/native/collect_codex_usage.py:103-105 | loading the slice of a value gives the value |
| JsonMembers.SpaceAgrees | benchmarks/python-realworld-30/native/collect_codex_usage.py:38-41 | Python's wider whitespace makes no difference between the parts of decodable text |
| JsonMembers.MembersAgreeFrom | benchmarks/python-realworld-30/native/collect_codex_usage.py:83-99 | from any member on, the spans found are those of the members decoded |
| JsonMembers.MembersAgree | benchmarks/python-realworld-30/native/collect_codex_usage.py:77-100 | wherever the decoder reads an object, the span reader finds exactly its names, and each span is exactly the decoder's reading of the last value of that name |
| JsonMembers.ValueAgrees | benchmarks/python-realworld-30/native/collect_codex_usage.py:103-105 | reading a member by its span gives the member of the fully decoded object, and the default when it has none |
| JsonMembers.MembersOfPrinted | benchmarks/python-realworld-30/native/collect_codex_usage.py:77-105 | the same for every printed object, anywhere in a text and with any legal whitespace |
| AgentMessages.EndsOfPairs | packages/agent/src/agent-loop.ts:284-292 | messages sent whole, one after another, are finished in that order |
| UpdateLatches.UpdateLatch.FinishUpdatesIfReady | packages/agent/src/agent-loop.ts:1113-1117 | the promise is settled only when nothing is accepted any more and nothing pends, and only once |
| UpdateLatches.UpdateLatch.OnUpdate | packages/agent/src/agent-loop.ts:1133-1152 | a callback emits an update exactly when the latch accepts and the run is not aborted |
| UpdateLatches.UpdateLatch.SettleUpdate | packages/agent/src/agent-loop.ts:1118-1121 | one update settles; the first error is kept |
| UpdateLatches.UpdateLatch.StopUpdates | packages/agent/src/agent-loop.ts:1122-1125 | nothing is accepted after a stop |
| UpdateLatches.LatchIsSound | packages/agent/src/agent-loop.ts:1102-1125 | for every interleaving of callbacks, settlements and stops: settled exactly when accepting is over and nothing pends, pending is accepted minus settled, and the first error to settle wins |
| UpdateLatches.StopIsFinal | packages/agent/src/agent-loop.ts:1102-1125 | after a stop no update is accepted and a settled promise stays as it is |
| UpdateLatches.StepKeepsSound | packages/agent/src/agent-loop.ts:1102-1125 | every single operation keeps the latch sound |
| ToolBatches.StartTracks | packages/agent/src/agent-loop.ts:902-969 | a batch starts with no events of any call |
| ToolBatches.AnnounceKeeps | packages/agent/src/agent-loop.ts:912-945 | announcing a call keeps every call's events in order |
| ToolBatches.FireIsLocal | packages/agent/src/agent-loop.ts:1072-1270 | a step of one call changes that call only and adds at most one event, its own |
| ToolBatches.CallbackOk | packages/agent/src/agent-loop.ts:1133-1152 | a progress callback adds an update of its own call and only while its latch accepts |
| ToolBatches.PublishOk | packages/agent/src/agent-loop.ts:1240-1270 | a publication adds the call's end after its start and updates: the exchange carries the call's position, id, name and original input, and no executed input or update exactly when the call was not started |
| ToolBatches.FireKeeps | packages/agent/src/agent-loop.ts:1072-1270 | every step of every interleaving keeps, for every call, start before updates before end, and the latch's account of the updates |
| ToolBatches.EndedHasSettled | packages/agent/src/agent-loop.ts:1153-1182 | by a call's end every accepted update is one event before it, and absent abort every one has settled |
| ToolExecution.AnnounceOne | packages/agent/src/agent-loop.ts:912-931 | one call is announced and prepared, and published at once if it has its result |
| ToolExecution.AnnounceAll | packages/agent/src/agent-loop.ts:912-945 | calls are announced in source order; one whose result is known is published before the next; a rejected publication stops the batch |
| ToolExecution.Drive | packages/agent/src/agent-loop.ts:948-950 | running the steps sends on exactly the events they add |
| ToolExecution.EmitResults | packages/agent/src/agent-loop.ts:951-968 | results are sent in source order, rejected calls skipped; the batch terminates exactly when every result asks for it |
| ToolExecution.ExecuteToolCallsParallel | packages/agent/src/agent-loop.ts:902-969 | for every completion order, the batch settles exactly when every call ends, and then has for each call one start, one end and one result, all ends before the first result message, results and exchanges in source order; it asks the run to stop exactly when it has calls and every call's end event carries the request; it throws only when an owner rejects a call or a publication |
| ToolExecution.RunOne | packages/agent/src/agent-loop.ts:849-883 | one call of a sequential batch is announced, run and published; the events in between are all its own, from its start to its end, and say whether it asks to stop |
| ToolExecution.ExecuteToolCallsSequential | packages/agent/src/agent-loop.ts:836-900 | results are those of the first calls, each complete before the next starts, each what the call comes to by itself, and of all calls absent abort or refusal; the batch asks the run to stop exactly when it ran a call and every one of those it ran asks; it throws only when an owner rejects a call, and otherwise settles unless some call by itself never ends |
| ToolExecution.EndedIsWhole | packages/agent/src/agent-loop.ts:948-968 | once every call has ended, the events are one whole call for every source position, and every call's end asks to stop exactly when every published result does |
| ToolExecution.AcceptedRuns | packages/agent/src/agent-loop.ts:912-950 | where no owner rejects anything no call of a concurrent batch is abandoned: once every call is at rest, every call has ended |
| ToolExecution.FireAllAccepts | packages/agent/src/agent-loop.ts:1184-1270 | a call is abandoned only by an owner that rejects it, in every interleaving |
| ToolExecution.AloneIsSo | packages/agent/src/agent-loop.ts:849-883 | what a call comes to in turn is what it comes to by itself |
| ToolExecution.AbandonedWasRejected | packages/agent/src/agent-loop.ts:849-883 | a call in turn that is abandoned was rejected by its owner |
| ToolExecution.TurnTaken | packages/agent/src/agent-loop.ts:849-891 | one call more in turn keeps the rounds whole, the later calls untouched and the request to stop exact |
| ToolExecution.FireAllKeeps | packages/agent/src/agent-loop.ts:948-950 | no step takes back a publication or announces a call |
| ToolExecution.RestAll | packages/agent/src/agent-loop.ts:849-891 | while one call of a sequential batch runs, no other call adds an event |
| AgentSinks.Sink.Emit | packages/agent/src/agent-loop.ts:280-294 | the Agent reduces the event, then a bounded output captures a finished message; a bounded output that refused nothing holds the finished messages in order |
| AgentSinks.Sink.Capture | packages/agent/src/agent-loop.ts:289-292 | capturing keeps the output in step with the finished messages |
| AgentSinks.Sink.CheckRoom | packages/agent/src/agent-loop.ts:419-431 | room for more messages, or a refusal |
| AgentSinks.Sink.Refresh | packages/agent/src/agent-loop.ts:481-483 | a refresh changes nothing when copies are faithful and finished messages do not change |
| AgentTurns.EndsOfPart | packages/agent/src/agent-loop.ts:467-477 | a tool batch finishes exactly its results, in order |
| AgentTurns.EndsOfTurn | packages/agent/src/agent-loop.ts:406-591 | a turn finishes its injected messages, its assistant message and its results, in that order |
| AgentTurns.FilterUnmarks | packages/agent/src/agent-loop.ts:450-452 | filtering the context by identity is unmarking the message in the transcript |
| AgentTurns.ChainedNext | packages/agent/src/agent-loop.ts:410-591 | a turn is added to a chain of turns only for one of the reasons for which one turn follows another: results to answer, a recovered failure, or messages, where follow-ups and continuations wait until no tool calls remain |
| AgentGrammar.ReadTurn | packages/agent/src/agent-loop.ts:410-480 | a turn reads from between turns to between turns: injected messages, each whole; exactly one assistant message, the one turn_end carries, with all updates inside it; then tool events, for each exchange one whole call, all after the assistant message and each end before its result; then turn_end with the results as they were finished |
| AgentGrammar.ReadRounds | packages/agent/src/agent-loop.ts:849-891 | calls in turn leave their results behind and, for each, one whole call placed before its result |
| AgentGrammar.ReadConcurrent | packages/agent/src/agent-loop.ts:902-969 | concurrent calls leave all their events before all their results |
| AgentGrammar.WholeRunIsAccepted | packages/agent/src/agent-loop.ts:332-591 | the trace of every whole run is accepted and no proper prefix of it is: one agent_start, whole turns, exactly one agent_end, last |
| AgentGrammar.NothingAfterTheEnd | packages/agent/src/agent-loop.ts:332-591 | nothing may follow agent_end |
| AgentLoops.AgentLoop.constructor | packages/agent/src/agent-loop.ts:340-347 | starts with the Agent's transcript as its context |
| AgentLoops.AgentLoop.FinishAborted | packages/agent/src/agent-loop.ts:606-616 | an aborted response is finished with the calls and content last received, as an aborted message |
| AgentLoops.AgentLoop.Hear | packages/agent/src/agent-loop.ts:673-701 | the announced message ends the context and is replaced there by each later form; before the announcement nothing is shown |
| AgentLoops.AgentLoop.ReadStream | packages/agent/src/agent-loop.ts:664-738 | the message is the one `Says` reads off the stream: announced as first heard, updated by every later form up to the stream's end, finished by the provider's result or, once aborted, by what was received; it fails exactly when `Says` has none, and without an announcement a failure leaves no event |
| AgentLoops.HeardExactly | packages/agent/src/agent-loop.ts:673-701 | a stream announced once is heard from its announcement on: one form for every event after it, in order |
| AgentLoops.AgentLoop.RunResponse | packages/agent/src/agent-loop.ts:604-745 | a build is logged with its projection and its adoption whatever comes of them; only an adoption forgets what was dropped; absent abort a reply is what the attempt's stream says |
| AgentLoops.AgentLoop.Adopt | packages/agent/src/agent-loop.ts:623-626 | an adopted working set becomes the context and the Agent's transcript, nothing is dropped from it yet, and its owner sees it |
| AgentLoops.AgentLoop.Try | packages/agent/src/agent-loop.ts:747-774 | a projection is released exactly once, before any recovery is asked for |
| AgentLoops.AgentLoop.StreamAssistantResponse | packages/agent/src/agent-loop.ts:593-792 | at most three builds, each projection released exactly once before the recovery that follows it, nothing emitted by attempts that were recovered, and absent abort the reply is what the last attempt's stream says |
| AgentLoops.AgentLoop.EndRun | packages/agent/src/agent-loop.ts:282-287 | agent_end carries every finished message in order, in plain and in bounded runs, and the run's own array holds the same |
| AgentLoops.AgentLoop.Conclude | packages/agent/src/agent-loop.ts:297-327 | the array returned is the one gathered, which a bounded output filled, and the output is closed |
| AgentLoops.AgentLoop.Speak | packages/agent/src/agent-loop.ts:431-434 | one assistant message, of the assistant's role, is finished, collected and within the limits, and absent abort it is what one of the attempts said; or an error leaves the loop |
| AgentLoops.AgentLoop.CloseTurn | packages/agent/src/agent-loop.ts:480 | turn_end closes the turn's trace; the context and the transcript at it are recorded, and the context is the transcript without the messages of the turns that failed since the last adoption |
| AgentLoops.AgentLoop.DropFailure | packages/agent/src/agent-loop.ts:450-452 | recovery omits the failed message, wherever it is in the transcript now, from the context only |
| AgentLoops.AgentLoop.FailTurn | packages/agent/src/agent-loop.ts:436-457 | a failed message closes a turn without tools; the run goes on exactly when it was an error the provider owner recovers, and then the context is the old one without that message; otherwise it ends |
| AgentLoops.AgentLoop.RunTools | packages/agent/src/agent-loop.ts:459-477 | the batch is sequential exactly when the mode or one of the tools asks for it; its results are collected and appended to the context and the transcript alike; it throws only on a refusal or when an owner rejects |
| AgentLoops.AgentLoop.SettleTurn | packages/agent/src/agent-loop.ts:479-517 | turn_end, then the decisions: the loop goes on only without an abort, when the outcome proceeds and no stop is asked, and has more tool work exactly when the batch did not ask to stop |
| AgentLoops.AgentLoop.Decide | packages/agent/src/agent-loop.ts:484-517 | after turn_end the loop goes on only without an abort, when the outcome proceeds and no stop is asked; otherwise the run ends whole |
| AgentLoops.AgentLoop.RunTurn | packages/agent/src/agent-loop.ts:431-517 | one whole turn is added to the trace, or the run ends with agent_end, or an error leaves the loop; more tool work remains exactly when the turn ran calls that did not all ask to stop |
| AgentLoops.AgentLoop.ToolPhase | packages/agent/src/agent-loop.ts:458-478 | the tools of a message that did not fail are run and leave a turn of which only turn_end is missing, with tool work left exactly when the batch did not ask to stop |
| AgentLoops.ClosingTurn | packages/agent/src/agent-loop.ts:480 | the open turn and its turn_end make a whole turn of the trace |
| AgentContexts.ContextIsTranscript | packages/agent/src/agent-loop.ts:436-480 | at every turn_end the context is the transcript with exactly those messages left out that are, by identity, the failed message of an earlier turn since the last adoption, and were in the transcript then |
| AgentContexts.TurnEndTells | packages/agent/src/agent-loop.ts:418-480 | at every turn_end of a run the Agent's transcript is the one the run began with, every finished message added in order, and replaced by each adopted working set before the assistant's message of its turn |
| AgentContexts.TurnEndKeepsAll | packages/agent/src/agent-loop.ts:480 | a turn_end at which context and transcript agree joins the record of all of them |
| AgentContexts.AgreeNext | packages/agent/src/agent-loop.ts:422-424 | a message finished on both sides keeps context and transcript in agreement |
| AgentContexts.AgreeDropped | packages/agent/src/agent-loop.ts:450-452 | dropping a message from the context is dropping it from the transcript as it is then |
| AgentContexts.DropsAre | packages/agent/src/agent-loop.ts:448-454 | what is dropped is exactly the failed messages of the turns since the last adoption |
| AgentContexts.AdoptionNext | packages/agent/src/agent-loop.ts:623-626 | the last adoption is the latest response one of whose attempts adopted a working set |
| AgentRuns.AgentRun.PollQueue | packages/agent/src/agent-loop.ts:176-184 | unless the run is aborted, the poll is recorded with exactly what it hands over; it comes back empty only when the queue was empty or it is the one steering poll that is skipped; follow-ups are polled only right after steering was found empty at the end of the same turn, which left no tool calls |
| AgentRuns.AgentRun.Ask | packages/agent/src/agent-loop.ts:151-164 | every poll drains its queue once and is recorded with exactly what left the queue, so that all that was ever drained is what the recorded polls drained |
| AgentRuns.AgentRun.Inject | packages/agent/src/agent-loop.ts:418-429 | after the check for room the whole pending delivery becomes part of the open turn's opening |
| AgentRuns.AgentRun.SendAll | packages/agent/src/agent-loop.ts:421-427 | each message is one start and one end, collected and appended to context and transcript alike, up to the first refusal |
| AgentRuns.AgentRun.BeginTurn | packages/agent/src/agent-loop.ts:410-429 | a turn_start is sent except before the first turn, whose opening was sent already, and the turn begins with exactly the pending delivery, or with the owner's word, or with nothing |
| AgentRuns.AgentRun.OneTurn | packages/agent/src/agent-loop.ts:431-517 | one turn is added to the chain of turns, and what was drained stays accounted for; an error leaves the loop without a whole run |
| AgentRuns.AgentRun.End | packages/agent/src/agent-loop.ts:590 | agent_end between turns makes the run whole: nothing drained is left out of its turns |
| AgentRuns.AgentRun.EndedIsAccepted | packages/agent/src/agent-loop.ts:590 | the trace of a run that has ended is one whole run of the grammar |
| AgentRuns.AgentRun.OneRound | packages/agent/src/agent-loop.ts:410-533 | a round adds one turn; the next one may begin only if tool calls remain, a failure was recovered or steering was found, and otherwise the last poll found steering empty |
| AgentRuns.AgentRun.PlayTurn | packages/agent/src/agent-loop.ts:410-533 | a turn that failed and was recovered, left tool calls or was steered leads to another; one that did not has been followed by an empty steering poll |
| AgentRuns.AgentRun.SteeringPoll | packages/agent/src/agent-loop.ts:519-532 | steering that was found is delivered by the next turn even when a stop is asked; an empty poll ends the run, absent abort, only when a stop is asked |
| AgentRuns.AgentRun.TurnsWhilePending | packages/agent/src/agent-loop.ts:410-533 | the inner loop ends only with nothing pending, a last turn that did not fail and left no tool calls, and an empty steering poll last |
| AgentRuns.AgentRun.AfterTurns | packages/agent/src/agent-loop.ts:535-587 | follow-ups before continuations: a continuation is taken only with no follow-up queued; absent abort and a stop request, the run ends only when nothing is queued and the continuation owner has nothing |
| AgentRuns.AgentRun.AskContinuation | packages/agent/src/agent-loop.ts:550-587 | the owner goes on with its messages or on its word alone; otherwise the run ends |
| AgentRuns.AgentRun.RunLoop | packages/agent/src/agent-loop.ts:391-591 | a run that returns is whole: its trace is its turns between agent_start and agent_end and the grammar accepts it, its payload is all finished messages, every turn follows the one before it for a reason the code has, every recorded poll of follow-ups came right after an empty steering poll at the end of a turn without tool calls, the polls account for all that left the queues, and what was drained was all delivered unless aborted |
| AgentRuns.AgentRun.OuterRound | packages/agent/src/agent-loop.ts:406-588 | one round of the outer loop ends the run, or leaves messages or the owner's word for a next turn that follows the last |
| AgentRuns.AgentRun.SendOpening | packages/agent/src/agent-loop.ts:346-354 | agent_start, turn_start and the prompts, with the context holding all prompts from the start |
| AgentRuns.AgentRun.RunAgentLoop | packages/agent/src/agent-loop.ts:332-357 | a run with prompts, which are the first delivery of its first turn, is whole when it returns, and the array it returns is the payload of its agent_end |
| AgentRuns.AgentRun.RunAgentLoopContinue | packages/agent/src/agent-loop.ts:359-382 | a run on the context as it is; refused on an empty context or after an assistant message, whole when it returns, with the payload of its agent_end as the array it returns |
| MessageQueues.PendingMessageQueue.Enqueue | packages/agent/src/agent.ts:140-145 | a nonempty batch goes last |
| MessageQueues.PendingMessageQueue.HasItems | packages/agent/src/agent.ts:147-149 | true exactly while something accepted is undelivered |
| MessageQueues.PendingMessageQueue.Drain | packages/agent/src/agent.ts:151-164 | the oldest batch, or all of them, whole and in order, in both modes; empty exactly when nothing was queued |
| MessageQueues.PendingMessageQueue.Clear | packages/agent/src/agent.ts:166-168 | withdraws everything that still waits |
| MessageQueues.PendingMessageQueue.RemoveWhere | packages/agent/src/agent.ts:170-182 | a batch is withdrawn whole |
| MessageQueues.RemovalConserves | packages/agent/src/agent.ts:170-182 | what is taken out and what is left are together what was queued |
| MessageQueues.RetainedExactly | packages/agent/src/agent.ts:170-182 | a batch stays exactly when nothing in it is picked |
| AgentRuns.ChooseContinuation | packages/agent/src/agent.ts:459-510 | queued messages are run when there is no last message or it is the assistant's or a custom one; steering before follow-ups; only the queue that is run is drained |
| AgentRuns.Continue | packages/agent/src/agent.ts:459-510 | over a run that returns without an abort, every batch ever accepted was delivered in one turn, whole and in its queue's order, or still waits; every turn follows the one before it for a reason the code has, the grammar accepts the trace, and the array returned is the payload of agent_end |
| InvocationOutputs.SlotsPartition | packages/agent/src/invocation-output.ts:91-93 | every stored value has exactly one slot, its subject's, with its size; a subject's slots are in the order of capture |
| InvocationOutputs.SumResized | packages/agent/src/invocation-output.ts:103-107 | recharging all slots of a subject moves the byte sum by exactly the difference |
| InvocationOutputs.SlotsResized | packages/agent/src/invocation-output.ts:108-111 | and leaves every other subject's slots as they were |
| InvocationOutputs.WrittenIsReplaced | packages/agent/src/invocation-output.ts:108-111 | writing through the slots replaces exactly the subject's values |
| InvocationOutputs.FlooredBudget | packages/agent/src/invocation-output.ts:104-105 | the floored budget for one slot never lets all of them overrun |
| InvocationOutputs.CaptureBalances | packages/agent/src/invocation-output.ts:73-95 | a capture keeps the ledger exact and within the limits |
| InvocationOutputs.RefreshBalances | packages/agent/src/invocation-output.ts:98-113 | a refresh of one message held in many slots keeps the ledger exact and within the limits |
| InvocationOutputs.CaptureKeeps | packages/agent/src/invocation-output.ts:90-94 | a capture keeps the slots a partition of the values |
| InvocationOutputs.RefreshKeeps | packages/agent/src/invocation-output.ts:107-111 | a refresh keeps the slots a partition of the values |
| InvocationOutputs.InvocationOutput.constructor | packages/agent/src/invocation-output.ts:28-48 | two bytes for the brackets; a byte limit of one is refused at once |
| InvocationOutputs.InvocationOutput.Create | packages/agent/src/invocation-output.ts:32-40 | limits that are not safe integers of at least one are an error |
| InvocationOutputs.InvocationOutput.Refuse | packages/agent/src/invocation-output.ts:50-54 | only the first refusal is kept |
| InvocationOutputs.InvocationOutput.Snapshot | packages/agent/src/invocation-output.ts:56-65 | a copy that does not fit refuses for bytes, one that cannot be made for its encoding |
| InvocationOutputs.InvocationOutput.CheckRoom | packages/agent/src/invocation-output.ts:67-70 | refuses exactly when the messages would not fit |
| InvocationOutputs.InvocationOutput.Capture | packages/agent/src/invocation-output.ts:73-95 | stores one copy made within exactly the bytes left after the separator, or refuses - for the number of messages, for bytes, for the encoding, in that order - and leaves everything as it was; the ledger stays exact and within both limits |
| InvocationOutputs.InvocationOutput.Refresh | packages/agent/src/invocation-output.ts:98-113 | one copy, within the floored share of what is left once the subject's bytes are given back, replaces all values of the subject and recharges them; it is refused exactly when that copy is, with everything left as it was; frozen after a refusal |
| InvocationOutputs.InvocationOutput.Copy | packages/agent/src/invocation-output.ts:132-135 | the stored values, or the limit error |
| InvocationOutputs.InvocationOutput.Dispose | packages/agent/src/invocation-output.ts:124-129 | drops the values and slots and keeps the refusal |
| CodexProtocols.FailPendingKeeps | benchmarks/python-realworld-30/native/codex_protocol.py:310-319 | stopping the reader settles every waiter and keeps the invariant |
| CodexProtocols.ReceiveKeeps | benchmarks/python-realworld-30/native/codex_protocol.py:264-308 | every message from the server keeps it |
| CodexProtocols.CompletedKeeps | benchmarks/python-realworld-30/native/codex_protocol.py:299-308 | a completion is stored and settles the waiter of exactly its own turn |
| CodexProtocols.FinishCompactOk | benchmarks/python-realworld-30/native/codex_protocol.py:116-126 | the compaction waiter is settled as soon as its item and its turn's completion are both there |
| CodexProtocols.AnsweredKeeps | benchmarks/python-realworld-30/native/codex_protocol.py:183-187 | the resumption that learns the turn takes a completion that came early |
| CodexProtocols.DoKeeps | benchmarks/python-realworld-30/native/codex_protocol.py:96-319 | every step between two awaits keeps it |
| CodexProtocols.InvAlways | benchmarks/python-realworld-30/native/codex_protocol.py:96-319 | it holds after any steps in any order |
| CodexProtocols.PromptsReturnTheirOwn | benchmarks/python-realworld-30/native/codex_protocol.py:164-203 | a prompt returns only a completion that was received and has its own thread and turn id |
| CodexProtocols.NoCompletionIsLost | benchmarks/python-realworld-30/native/codex_protocol.py:164-212 | a prompt waiting for its turn goes on as soon as that turn's completion has been received, even if the reader has stopped since, and returns a completion of that turn |
| CodexProtocols.EarlyCompletionIsKept | benchmarks/python-realworld-30/native/codex_protocol.py:183-187 | the same when the completion came before the resumption that learns the turn, even if the reader has stopped since |
| CodexProtocols.StoppedReaderStrandsNobody | benchmarks/python-realworld-30/native/codex_protocol.py:310-319 | once the reader has stopped, whatever happens afterwards, no request, turn or compaction is left unsettled |
| CodexProtocols.CompactionsAreGenuine | benchmarks/python-realworld-30/native/codex_protocol.py:116-126 | a compaction succeeds only with a completion of its own thread that did not fail |
| CodexProtocols.CompactionsMatchExactly | benchmarks/python-realworld-30/native/codex_protocol.py:97-126 | a compaction returns the last completed item it saw with the completion of the last item's turn; so event and completion are of one turn if and only if the last item to arrive while it was waiting is of the turn of the last completed one |
| CodexProtocols.FollowsAlways | benchmarks/python-realworld-30/native/codex_protocol.py:288-294 | after any steps the event kept is the last completed item seen and the turn kept the last item's |
| CodexProtocols.OneTurnMatches | benchmarks/python-realworld-30/native/codex_protocol.py:97-126 | where the items of one turn only arrive, the event and the completion match |
| CodexProtocols.SecondItemMismatches | benchmarks/python-realworld-30/native/codex_protocol.py:97-126 | a completed item of turn 1, then an item of turn 2 that is only started, then the completion of turn 2: the compaction returns the item of turn 1 with the completion of turn 2 |
| CodexClients.CodexProtocol.FinishCompaction | benchmarks/python-realworld-30/native/codex_protocol.py:116-126 | settles the compaction waiter exactly when item and completion are there, or the completion failed |
| CodexClients.CodexProtocol.Receive | benchmarks/python-realworld-30/native/codex_protocol.py:264-308 | one message has exactly the effect of the specification; a server request stops the reader |
| CodexClients.CodexProtocol.FailAll | benchmarks/python-realworld-30/native/codex_protocol.py:310-319 | every waiter that is not settled is failed |
| CodexClients.CodexProtocol.ReadLoop | benchmarks/python-realworld-30/native/codex_protocol.py:321-340 | the lines of the output, however it was cut into chunks, are handled in order up to the first that is not JSON or is a server's request, blank ones skipped and what follows the last newline taken as a line; then every waiter is settled |
| CodexClients.CodexProtocol.HandleLines | benchmarks/python-realworld-30/native/codex_protocol.py:328-334 | the messages of the lines are handled in order up to the first line that cannot be |
| CodexClients.CodexProtocol.BeginPrompt | benchmarks/python-realworld-30/native/codex_protocol.py:169-182 | one prompt at a time, and none after the reader has stopped |
| CodexClients.CodexProtocol.PromptAccepted | benchmarks/python-realworld-30/native/codex_protocol.py:183-187 | the piece after the response: a stored completion is taken, otherwise the turn is awaited |
| CodexClients.CodexProtocol.PromptCompleted | benchmarks/python-realworld-30/native/codex_protocol.py:186-212 | the piece after the waiter was settled |
| LineReader.TakeLines | benchmarks/python-realworld-30/native/base_protocol.py:54-62 | the loop cuts exactly the complete lines off the buffer |
| LineReader.Find | benchmarks/python-realworld-30/native/base_protocol.py:54-62 | the first newline, or the length |
| LineReader.SplitIsExact | benchmarks/python-realworld-30/native/base_protocol.py:54-62 | the lines and the rest are exactly what came in, and contain no newline |
| LineReader.SplitResumes | benchmarks/python-realworld-30/native/base_protocol.py:54-62 | the leftover with the next chunk splits as the whole would |
| LineReader.ChunksDoNotMatter | benchmarks/python-realworld-30/native/base_protocol.py:54-62 | the lines of a stream do not depend on its chunks |
| BaseProtocols.DrainIsExact | benchmarks/python-realworld-30/native/base_protocol.py:143-148 | draining to an issued watermark takes exactly the events up to it: it never waits, never meets the reader's error and never goes beyond |
| BaseProtocols.HandleKeeps | benchmarks/python-realworld-30/native/base_protocol.py:59-68 | a line keeps the queue exactly the consecutive numbers after the consumed one |
| BaseProtocols.DoKeeps | benchmarks/python-realworld-30/native/base_protocol.py:49-80 | every step of reader and coroutines keeps it |
| BaseProtocols.InvAlways | benchmarks/python-realworld-30/native/base_protocol.py:49-80 | it holds after any run |
| BaseProtocols.AnsweredDrains | benchmarks/python-realworld-30/native/base_protocol.py:136-148 | after any run, a coroutine that was answered drains to its watermark and gets exactly the events in between |
| BaseProtocols.TwoChunksAreOne | benchmarks/python-realworld-30/native/base_protocol.py:49-80 | two chunks are one: the same events, numbers, answers and error |
| BaseProtocols.ChunkingDoesNotMatter | benchmarks/python-realworld-30/native/base_protocol.py:49-80 | what is delivered does not depend on how the output was cut into chunks |
| BaseProtocols.JudgeMeaning | benchmarks/python-realworld-30/native/base_protocol.py:149-176 | what the prompt loop has gathered about a stretch of events means what it says |
| BaseProtocols.CompletedExactly | benchmarks/python-realworld-30/native/base_protocol.py:149-181 | a prompt is completed if and only if its message was taken up, the last word after it is a stop without refusal, and no completion error came |
| BaseProtocols.CompactedExactly | benchmarks/python-realworld-30/native/base_protocol.py:119-123 | a compaction is done if and only if the last manual end in its stretch was not aborted and has a result |
| BaseProtocols.LoneCallSeesAll | benchmarks/python-realworld-30/native/base_protocol.py:108-150 | while one coroutine runs at a time, what it looks at is every event after its call up to the watermark |
| BaseProtocols.LateRequestsWait | benchmarks/python-realworld-30/native/base_protocol.py:75-94 | once the reader has ended, a future is waiting if and only if its request was made after the end and has not been cancelled |
| BaseProtocols.BaseContextProtocol.ReadChunk | benchmarks/python-realworld-30/native/base_protocol.py:54-68 | one chunk has the effect of its lines in order |
| BaseProtocols.BaseContextProtocol.DrainPrompt | benchmarks/python-realworld-30/native/base_protocol.py:143-176 | the drain loop consumes up to the watermark, raises nothing, and judges exactly the events that came after the call |
| BaseProtocols.BaseContextProtocol.DrainCompaction | benchmarks/python-realworld-30/native/base_protocol.py:112-120 | the drain loop of a compaction consumes up to the watermark, raises nothing, and keeps the last manual end that came after the call |
| BaseProtocols.BaseContextProtocol.Consume | benchmarks/python-realworld-30/native/base_protocol.py:114-118 | below the last number the next item of the queue is the next event, never the reader's error |
| Latex.ParseSequence | packages/tui/src/latex.ts:594-617 | the mutually recursive parser ends on every source, and never passes its end |
| Latex.ParseAtom | packages/tui/src/latex.ts:620-633 | an atom consumes something whenever something is left |
| Latex.ParseGroup | packages/tui/src/latex.ts:636-643 | a group consumes at least its brace |
| Latex.ParseCommand | packages/tui/src/latex.ts:682-798 | a command consumes at least its backslash |
| LatexTree.NameAt | packages/tui/src/latex.ts:694-698 | a command's name is read whole up to the character that ends it |
| LatexTree.CommandStep | packages/tui/src/latex.ts:703-797 | what a command comes to by the kind of its name |
| LatexTree.SequenceAt | packages/tui/src/latex.ts:594-617 | the text of any nodes, up to a closing brace or the end, is consumed exactly and rendered as they denote |
| LatexTree.GroupAt | packages/tui/src/latex.ts:636-643 | a braced argument is consumed exactly and rendered as its body denotes |
| LatexTree.AtomAt | packages/tui/src/latex.ts:620-633 | so is every atom: groups, escapes, words, delimiters that are characters, escapes or commands, and commands |
| LatexTree.CommandAt | packages/tui/src/latex.ts:682-798 | a command with braced arguments is its function applied to what they denote |
| LatexTree.BracketAt | packages/tui/src/latex.ts:646-657 | a root's index whose text holds no closing bracket is consumed exactly and rendered on its own |
| LatexTree.ScriptAt | packages/tui/src/latex.ts:671-679 | a braced script is consumed exactly and mapped or kept lossless |
| LatexTree.RenderingIsCompositional | packages/tui/src/latex.ts:580-819 | for every tree printed with braced arguments whose indices hold no closing bracket, parsing consumes exactly the text and returns the tree's denotation |
| LatexTree.SymbolAt | packages/tui/src/latex.ts:694-705 | a bare command without arguments is read whole before anything but a letter or a star |
| LatexTree.MarkAt | packages/tui/src/latex.ts:801-818 | a delimiter after left or right is read whole, be it a character, an escape or a command |
| LatexTree.IndexIsCut | packages/tui/src/latex.ts:646-657 | whatever an index holds, it is read up to its first closing bracket and rendered on its own |
| LatexTree.IndexReadExactly | packages/tui/src/latex.ts:646-657 | a printed index is read to its end if and only if its text holds no closing bracket; otherwise the parser stops inside it |
| LatexTree.IndicesReadIffClosed | packages/tui/src/latex.ts:646-657 | in a whole tree every index is read to its end if and only if none holds a closing bracket |
| LatexTree.NestedIndexIsMisread | packages/tui/src/latex.ts:646-657 | a root within a root's index is not rendered as what it denotes, whatever the tables |
| LatexParsers.MapScriptLoop | packages/tui/src/latex.ts:559-569 | maps every code point, or nothing at all |
| LatexParsers.StyleLoop | packages/tui/src/latex.ts:539-556 | styles every code point in order |
| LatexParsers.MissingPoint | packages/tui/src/latex.ts:563-565 | one character without a script form leaves the text without one |
| LatexParsers.LatexParser.Parse | packages/tui/src/latex.ts:589-591 | renders the whole source |
| LatexParsers.LatexParser.ParseSequence | packages/tui/src/latex.ts:594-617 | leaves the cursor where the specification ends and text mode as it was |
| LatexParsers.LatexParser.ParseAtom | packages/tui/src/latex.ts:620-633 | reads one atom to where the specification's atom ends, with its rendering, and text mode as it was |
| LatexParsers.LatexParser.ParseGroup | packages/tui/src/latex.ts:636-643 | reads to the closing brace or the end, as the specification does, and leaves text mode as it was |
| LatexParsers.LatexParser.ParseArgument | packages/tui/src/latex.ts:660-668 | skips spaces and reads one group or atom, nothing at the end of the source |
| LatexParsers.LatexParser.ParseScript | packages/tui/src/latex.ts:671-679 | reads a script's argument and maps all of it or keeps it after the marker, as the specification does |
| LatexParsers.LatexParser.ParseOptionalBracket | packages/tui/src/latex.ts:646-657 | an unclosed bracket is left unread; the text of a closed one is rendered by a parser of its own |
| LatexParsers.LatexParser.ParseCommand | packages/tui/src/latex.ts:682-798 | reads a command with the arguments its kind takes, to where the specification ends, with its rendering |
| LatexParsers.LatexParser.ParseDelimiter | packages/tui/src/latex.ts:801-818 | reads a command name, a point that shows nothing, or one character, past spaces |
| Fullscreen.ClippedDockHeight | packages/tui/src/fullscreen.ts:14-17 | the dock is cut only to leave the transcript its three rows |
| Fullscreen.RowsDone | packages/tui/src/fullscreen.ts:656-662 | after the row loop the rewritten rows show their lines and the others are untouched |
| Fullscreen.PaintShows | packages/tui/src/fullscreen.ts:640-672 | a row is right after a paint if and only if the screen was cleared, the row was rewritten, or it was right already |
| Fullscreen.PaintTrusted | packages/tui/src/fullscreen.ts:640-672 | a paint leaves every row right |
| Fullscreen.TrustedAlways | packages/tui/src/fullscreen.ts:640-672 | over any run the memory is what the screen shows, unless the screen was resized since |
| Fullscreen.PaintedScreenIsTheFrame | packages/tui/src/fullscreen.ts:640-672 | over any paints, resizes and resets in which every paint of a resized screen finds another size or a reset, every row shows its clamped line of the last frame, blank past its end |
| Fullscreen.RowShowsExactly | packages/tui/src/fullscreen.ts:640-677 | over any run at all, a row shows its line of the remembered frame if and only if some paint since the last resize has cleared the screen or rewritten the row |
| Fullscreen.PaintShowsExactly | packages/tui/src/fullscreen.ts:640-677 | a paint shows the whole frame if and only if since the last resize every row has been cleared or rewritten |
| Fullscreen.GuardedRewrites | packages/tui/src/fullscreen.ts:640-677 | where every paint of a resized screen finds another size or a reset, every row is rewritten, and the diffed paint is a repaint |
| Fullscreen.DiffIsRepaint | packages/tui/src/fullscreen.ts:640-677 | the diffed paint leaves the very screen a forced repaint leaves if and only if since the last resize every row has been cleared or rewritten |
| Fullscreen.ResizedBackIsNotNoticed | packages/tui/src/fullscreen.ts:652-658 | a screen resized and resized back between two paints without a reset keeps exactly the skipped rows unrepaired |
| FullscreenViewports.ScrollTop | packages/tui/src/fullscreen.ts:113-117 | following pins the window to the end, otherwise it stays, within the transcript |
| FullscreenViewports.FullscreenViewport.ComposeFrame | packages/tui/src/fullscreen.ts:99-132 | exactly `height` rows: the window's transcript rows, blanks after them, then the end of the dock; scrollTop is within its bounds |
| FullscreenViewports.FullscreenViewport.Paint | packages/tui/src/fullscreen.ts:640-672 | writes exactly the rows that differ and remembers the frame |
| FullscreenViewports.FullscreenViewport.Reset | packages/tui/src/fullscreen.ts:675-677 | forgets the frame |
| FullscreenViewports.FullscreenViewport.ScrollBy | packages/tui/src/fullscreen.ts:680-684 | moves within bounds; following resumes exactly at the bottom |
| FullscreenViewports.FullscreenViewport.ScrollToTop | packages/tui/src/fullscreen.ts:686-689 | to the first row |
| FullscreenViewports.FullscreenViewport.ScrollToBottom | packages/tui/src/fullscreen.ts:691-694 | to the last row, following |
| FullscreenViewports.PausedWindowStays | packages/tui/src/fullscreen.ts:99-132 | while following is paused, appended content moves neither the window nor its rows |
| FullscreenViewports.WindowIsFull | packages/tui/src/fullscreen.ts:99-132 | a window the transcript can fill shows no blank row |

## Left out

- AgentLoops.AgentLoop.ReadStream: a stream with a second start event is not modelled, because the provider contract excludes it; the code would announce a second message inside the first.
- AgentRuns.AgentRun.RunLoop: what is emitted when a run ends by throwing, including the refusal notice of a bounded run and the Agent's failure message.
- InvocationOutputs.InvocationOutput.Refresh: refreshes that a native update feed makes on its own between the loop's; the terminal settlement of that feed.
- ToolBatches.FireKeeps: tool lookup, argument validation and the hooks' effects are the environment's answers; details and usage of results are not kept apart from their content.
- OwnedInstall.InvAlways: npm, SQLite, file contents and process identity; the model keeps the exclusive lock, atomic renames, which files exist and which versions were prepared.
- StdinBuffers.StdinBuffer.Process: conversion of a single high byte and decoding of byte buffers; the timer is armed and cleared but time does not pass.
- JsonMembers.MembersAgree: nothing is claimed of texts the decoder rejects; the reader may still find members in them, such as after a trailing comma.
- JsonSpans.Members: names that are not strings are compared as written, so 1 and 1.0 are two keys; the decoder's limits on nesting and on the digits of an integer.
- CodexProtocols.CompactionsAreGenuine: does not say that the item belongs to the turn of the completion, because the code does not see to it; CompactionsMatchExactly says when it does.
- CodexProtocols.NoCompletionIsLost: waiting for the family to be idle, usage and error lists, and the contents of messages are not modelled.
- BaseProtocols.CompletedExactly: the error text, provider errors and message usage of a result.
- Latex.ParseSequence: names that JavaScript objects inherit, such as `constructor`, are not in the tables; the symbol tables themselves are a parameter, and the final collapsing of spaces and blank lines is not modelled.
- Fullscreen.PaintShows: cursor placement and synchronized-output marks; the width and slicing functions are parameters, of which only that a slice fits is assumed.
- FullscreenViewports.FullscreenViewport.ComposeFrame: selections are a function from line index and text to text; tables, frame selection and hyperlinks are not modelled.
- PriceRange.EstimateIsTrue: floating-point rounding; quantities and rates are real numbers.
- SidecarReporting.ApplyInstrumented: usage, prices and prompt samples of the report; only its capture flag, reasons and call counts.
- Session files, native request receipts and the other aggregates of benchlib.py.
- The event stream class, `agentLoop` and `agentLoopContinue`, which only wrap the two run functions.
- Provider adapters, message conversion, system prompts and keys, which are part of one answer that opens a stream or fails.
