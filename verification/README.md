# Verified model of the agent's routing, memory, structured output and tool layers

This project models four stateful parts of the agent and proves what they promise:

- **Model calls** (`CandidateHealth`, `Routing`, `Fallback`, `Retry`, `Truncation`, `ModelErrors`): the circuit breaker over candidates, credentials and models, the router's choice of a candidate, the fallback loop around it, the retry loop inside it, and the trimming of over-long prompts.
- **Session memory** (`TimelineStore`, `TimelineInvariants`, `TimelineOrder`, `TimelineRuns`, `RunRecords`, `RowSlices`, `Summaries`, `SummaryRuns`, `SessionStorage`, `RuntimeAdapter`, `Compression`): the session database with its shared sequence counter, the rolling summary behind a sliding window, the adapter that survives storage faults, and the chunking of texts to compress.
- **Structured output** (`JsonScanner`, `JsonGrammar`, `MarkdownFence`, `SchemaValidation`, `StructuredOutput`, `JsonRepair`): two bracket scanners, Markdown fences, the extraction of JSON from model chatter, the schema validator, and the repair loop.
- **Tools** (`ToolTables`, `ToolRegistry`, `ToolPolicy`, `ToolRuntime`): the registry's three maps, the ordered policy decision, and the pipeline that calls a handler.

Where the source updates something in place there is a class or a loop, proved against a function or a declarative predicate; the theorems are about those. Database transactions are functions on one `Store` value (`TimelineStore`); `SessionStorage` proves that the in-place versions, rollbacks included, compute them, and its session manager keeps a ghost log of what was committed, so that the theorems about whole runs hold of every manager object (`ManagerIsConsistent`, `ManagerSummarisesOnce`). Clocks, generated ids, provider replies, path checks, previews, handlers and storage faults are inputs: a result that mentions none of them holds for all of them. JSON text is printed from a concrete syntax tree that follows sections 2 to 7 of RFC 8259, with every choice of white space and string escapes. What an operation decides is moreover characterised in the fields of its inputs, apart from the helpers that it and its specification share: which messages a summary is about (`AreTheTalk`), when the fallback loop goes on (`EndsForGood`, `GoesOnOtherwise`), which candidates a failure shuts out (`CredentialFailureSpreads` and the lemmas after it), which candidate is selected (`SelectionIs`), which calls a policy lets through (`AllowedIff`, `Cleared`), and which values a schema accepts (`Conforms`).

Several promises hold only under a condition. Those are stated as equivalences, each beside an input at which the promise fails:

- the two scanners stop at the same place (`ScannersAgree`; `ScannersCanDiffer`), and the two extractors return the same (`ExtractorsAgree`, `ExtractorsAgreeOnPrinted`; `ExtractorsCanDiffer`);
- the analyzer returns a printed container (`AnalyzerFinds`; `ArrayOfObjectsLost`, `FenceHidesExamples`);
- a truncated call meets its token limit (`LimitsMet`; `TokenLimitMissed`);
- a key read back as a candidate gives the same key (`KeyingTwice`; `BlankSlugChanges`), and the router's two keys of a candidate agree (`AlignedIff`, `ReselectedIffMisaligned`, `BookedWhereReadIff`; `MisalignedRunRepeats`);
- timelines are strict (`TimelineOrdered`, `EventKeepsApart`; `TimelineMayTie`);
- runs have their question and, once completed, their answer (`StepAccountedIff`, `AccountedIffHonest`; `DishonestSteps`), and can be read back (`StepReadableIff`, `ReadableIffLegible`; `UntoldErrors`, `UntoldFailureIsForGood`);
- each message is summarised once (`InsertKeepsSources`, `UpdateKeepsSources`; `LateMessageLosesSources`, `ManualSummaryLosesSources`);
- more capabilities or less risk never refuse a tool call (`CapabilitiesMonotone`; `GrantRefusesDryRun`. `RiskMonotone`; `DisorderShows`).

## Model

| member | source | states |
|---|---|---|
| JsonScanner.MatchingJsonEnd | src/models/structured_output.py:149-176 | The stack loop returns the end that the bracket automaton reaches, or nothing when it breaks or runs out |
| JsonScanner.MatchEndIsFirstPair | src/models/structured_output.py:149-176 | The matcher stops at `e` iff `e` is the first position up to which the brackets outside strings form one complete pair of a Dyck word |
| JsonScanner.MatchHasNoShorterBalance | src/models/structured_output.py:165-174 | No shorter stretch from the same start is balanced |
| JsonScanner.MatchesSinglePairs | src/models/structured_output.py:165-174 | On bare bracket words the automaton accepts exactly the single complete pairs |
| JsonScanner.CountingJsonEnd | src/agent/analyzer/complexity_analyzer.py:469-494 | The depth-counter loop returns the end of its recursive specification |
| JsonScanner.CounterEndIsFirstBalance | src/agent/analyzer/complexity_analyzer.py:469-494 | The counter stops at `e` iff `e` is the first position after its opener up to which openers and closers of that kind outside strings are equal in number, however brackets nest |
| JsonScanner.Lockstep | src/agent/analyzer/complexity_analyzer.py:474-493 | While the matcher is alive the counter's depth is the number of its own closers on the stack; both end together |
| JsonScanner.ScannersAgree | src/agent/analyzer/complexity_analyzer.py:465-494 | Whenever the matcher succeeds the counter returns the same end; they differ exactly when the counter finds an end after the matcher met a wrong closer |
| JsonScanner.ScannersCanDiffer | src/agent/analyzer/complexity_analyzer.py:484-493 | A concrete text with mixed-up closers on which only the counter answers |
| JsonGrammar.PrintedIsNeutral | src/models/structured_output.py:153-175 | A printed value of any kind leaves the matcher's stack and mode as they were |
| JsonGrammar.ContainerRun | src/models/structured_output.py:153-175 | A printed container opens one pair, keeps it through its body, and closes it on its last character |
| JsonGrammar.MatcherSpansPrinted | src/models/structured_output.py:149-176 | Started on a printed container the matcher stops on its last character, whatever stands around it |
| MarkdownFence.FenceOf | src/models/structured_output.py:119-121 | What is written between two fences is what the pattern reads back, untagged and stripped, whatever surrounds them, if no fence starts earlier |
| MarkdownFence.TagIsJson | src/models/structured_output.py:119-121 | The tag that is dropped from a body is the word json in any mixture of cases, and nothing else is dropped |
| MarkdownFence.NoFence | src/agent/analyzer/complexity_analyzer.py:466-468 | The pattern finds nothing iff no backticks follow the first ones |
| StructuredOutput.FirstJsonText | src/models/structured_output.py:139-146 | Tries the first brace and the first bracket, nearest first, and returns the first stretch the matcher closes |
| StructuredOutput.ExtractorUndoesPrinter | src/models/structured_output.py:139-176 | Any printed container, behind bracket-free text and before any text, is extracted exactly |
| StructuredOutput.ExtractJsonPayload | src/agent/analyzer/complexity_analyzer.py:465-494 | The body of the first fence if there is one, else the text, is searched: the first brace, then the first bracket, each by the depth counter |
| StructuredOutput.AnalyzerFinds | src/agent/analyzer/complexity_analyzer.py:465-494 | On every text, a given printed container is returned iff it stands at the first opener of its kind in the text searched, an array moreover where the braces after the first are never equal in number |
| StructuredOutput.AnalyzerUndoesObjects | src/agent/analyzer/complexity_analyzer.py:465-494 | Printed objects are extracted exactly behind any brace-free text, in a text without a fence |
| StructuredOutput.AnalyzerOnArrays | src/agent/analyzer/complexity_analyzer.py:465-494 | In a text without a fence printed arrays are extracted exactly iff from the first brace of the whole text on, if any, opening and closing braces outside strings are never equal in number |
| StructuredOutput.ArrayOfObjectsLost | src/agent/analyzer/complexity_analyzer.py:469-494 | An array that starts with an object is never returned: behind brace-free text and without a fence that object is returned in its place |
| StructuredOutput.AnalyzerReadsFence | src/agent/analyzer/complexity_analyzer.py:466-494 | A container printed into the first fence is extracted whatever surrounds the fence |
| StructuredOutput.FenceHides | src/agent/analyzer/complexity_analyzer.py:466-468 | A fence without an opener in its body hides every container outside it |
| StructuredOutput.FenceHidesExamples | src/agent/analyzer/complexity_analyzer.py:466-468 | An array followed by a fenced remark and an object with a fence in a string, both of which are lost |
| StructuredOutput.ExtractorsAgree | src/models/structured_output.py:139-146 | On the text the analyzer searches, both extractors return the same iff their scans from the first brace and the first bracket coincide: a condition on four ends, each characterised by `MatchEndIsFirstPair` or `CounterEndIsFirstBalance` |
| StructuredOutput.ExtractorsAgreeOnPrinted | src/models/structured_output.py:139-146 | On a printed container behind bracket-free text and without a fence both return the same iff it is an object or the text's braces are never equal in number after the first |
| StructuredOutput.ExtractorsCanDiffer | src/agent/analyzer/complexity_analyzer.py:469-494 | On `[{"a":1}]` the parser's extractor returns the array, the analyzer's the object |
| StructuredOutput.DedupeCandidates | src/models/structured_output.py:128-136 | Keeps the first of every candidate text, in order |
| StructuredOutput.DistinctKeepsFirst | src/models/structured_output.py:128-136 | Dropping repeats never changes which candidate is accepted |
| StructuredOutput.ParseJsonOutput | src/models/structured_output.py:26-68 | The parse result in every mode and for every kind of content |
| StructuredOutput.StrictParse | src/models/structured_output.py:45-68 | In strict mode the stripped text loads as an object or an array and is taken whole, or is refused with the one complaint |
| StructuredOutput.LenientParse | src/models/structured_output.py:113-125 | In lenient mode the first of whole text, fence body and first JSON text that loads as an object or an array is taken, with its source |
| StructuredOutput.DataParse | src/models/structured_output.py:26-44 | Python data is taken iff it is a dict or a list |
| StructuredOutput.LoadFirst | src/models/structured_output.py:45-68 | The first candidate that loads as a container wins; otherwise all complaints are reported in order |
| StructuredOutput.LenientParseFindsEmbedded | src/models/structured_output.py:26-68 | Chatter around a printed container parses to what that container loads as, when neither the whole nor a fence loads |
| SchemaValidation.ValidateSchemaNode | src/models/structured_output.py:179-204 | Appends to the shared error list exactly the errors of the node, leaving earlier ones as a prefix |
| SchemaValidation.ValidateJsonSchema | src/models/structured_output.py:71-80 | Valid iff no error; without a schema everything is valid |
| SchemaValidation.NoErrorsIffConforms | src/models/structured_output.py:179-222 | The error list is empty iff the value satisfies a recursive conformance predicate over constructors and spelled-out values that shares no helper with the validator |
| SchemaValidation.TypeDecides | src/models/structured_output.py:207-222 | A schema that only names a type accepts exactly the values of that type, for each of the seven names; a boolean is neither number nor integer, and another name accepts all |
| SchemaValidation.PyEqMeans | src/models/structured_output.py:185-187 | The equality enum choices are compared by is equality once every number, true and false included, is spelled as a float, at any depth |
| SchemaValidation.ErrorsAreReal | src/models/structured_output.py:179-204 | Every error names a path that leads to a part of the value which violates the part of the schema it is held against |
| JsonRepair.GenerateJson | src/models/model_manager.py:413-538 | At most repair limit + 1 (at most six) calls; stops at the first settling reply and reports it |
| JsonRepair.RepairLimit | src/models/model_manager.py:1891-1898 | The number in 0..5 nearest to the one asked for explicitly or else configured, one when neither is given |
| JsonRepair.StopIsUnique | src/models/model_manager.py:457-538 | The replies determine the stopping call |
| JsonRepair.SucceedsIff | src/models/model_manager.py:457-538 | Success iff some parsed, conforming reply lies inside the budget with no failed call before it |
| CandidateHealth.KeyingTwice | src/models/router.py:31-42 | Keying a key again gives the same key iff the slug it was made from is not blank |
| CandidateHealth.CandidateHealthRegistry.IsAvailable | src/models/router.py:77-90 | Answers what the ghost history of calls says, at the clock readings it takes |
| CandidateHealth.CandidateHealthRegistry.RecordFailure | src/models/router.py:92-143 | Books the failure on the blamed scope only; the tables mirror the longer history |
| CandidateHealth.CandidateHealthRegistry.RecordSuccess | src/models/router.py:145-161 | Resets the related keys only; the tables mirror the longer history |
| CandidateHealth.BlankSlugChanges | src/models/router.py:31-42 | A blank slug whose key reads back as another key |
| CandidateHealth.EntryMeans | src/models/router.py:46-56 | Cooldown, circuit and failure count of an entry say of the history what they should |
| CandidateHealth.AvailableMeans | src/models/router.py:77-161 | Available iff no related key is cooling down or has an open circuit, both defined by the history alone |
| CandidateHealth.LatestCooldownDecides | src/models/router.py:92-143 | Under a nondecreasing clock a key cools down iff its latest unreset cooling failure's window is still open |
| CandidateHealth.LatestCircuitDecides | src/models/router.py:125-141 | Under a nondecreasing clock the circuit is open iff the streak since the last success reached the threshold and the window since its latest failure is still open |
| CandidateHealth.SuccessRestores | src/models/router.py:145-161 | A success makes its candidate available at once |
| CandidateHealth.FailureIsConfined | src/models/router.py:92-143 | A failure changes nothing for candidates that do not share the blamed key |
| CandidateHealth.CredentialFailureSpreads | src/models/router.py:103-114 | After AuthenticationFailed, PermissionDenied, MissingApiKey or QuotaExceeded a candidate is available iff it was before and it is not both of the same route, configuration and slug and within the credential's cooldown, whatever its model |
| CandidateHealth.CredentialStaysOut | src/models/router.py:103-161 | So it stays, whatever follows, until the cooldown ends or a call with that credential succeeds |
| CandidateHealth.ModelFailureSpreads | src/models/router.py:115-124 | After ModelNotFound the same holds for one route, configuration and model, whatever the slug |
| CandidateHealth.OtherFailuresStayPut | src/models/router.py:125-143 | Every other failure concerns candidates alike in all four fields only: for the cooldown after a passing error, for the open window once the streak reaches the threshold |
| CandidateHealth.StreakCounts | src/models/router.py:125-161 | The streak counts such failures of the very candidate since its last success |
| CandidateHealth.SuccessClears | src/models/router.py:145-161 | After a success a candidate is available iff whatever barred its own, its credential's and its model's entry is shared with the one that succeeded |
| Retry.GenerateWithRetry | src/models/model_manager.py:1462-1549 | Ends at the first success, the first failure not to be retried, or the last attempt; history and total wait match; the code after the loop is unreachable |
| Retry.EndIsUnique | src/models/model_manager.py:1470-1549 | The replies determine where the loop ends |
| Retry.MakePolicy | src/models/retry.py:31-39 | The clamped policy: retries kept inside 0..5 and cut to it outside, negative delays zero, a base beyond a positive cap cut to the cap, all else kept |
| Retry.PolicyFor | src/models/model_manager.py:1551-1565 | Every round's policy is clamped: the call's own retry limit, else the configured one, else none, and none without permission to retry; the delays are the given ones, negative ones zero, the base cut to a positive cap |
| Retry.DelaysGrow | src/models/retry.py:44-50 | Delays never shrink and a positive cap bounds them |
| Retry.DelayDoubles | src/models/retry.py:44-50 | The wait before retry i is base * 2^(i-1), cut to a positive cap |
| Retry.TotalWithinCaps | src/models/model_manager.py:1467-1471 | The whole wait over r retries is at most r caps |
| Retry.TotalWithinSeries | src/models/model_manager.py:1467-1471 | The whole wait over r retries is at most base * (2^r - 1) |
| Retry.RetryBudget | src/models/model_manager.py:1462-1549 | One retried call costs at most six invocations, five caps and 31 base delays |
| Routing.Choose | src/models/router.py:532-542 | The eligible candidate that comes first by priority, weight and name, and none iff none is eligible |
| Routing.FirstEnabledCandidate | src/models/router.py:491-542 | The method's filters and choice, with the clock readings its health checks take |
| Routing.FindContextLimits | src/models/router.py:586-608 | The loop over the metadata tables finds the limits, which are positive where present |
| Routing.Resolve | src/models/router.py:300-476 | The resolution for a call, step by step: candidate, configuration, credential slug, model, context limits and truncation, or the refusal |
| Routing.ResolutionShape | src/models/router.py:379-457 | A resolution keeps its choice, its limits are positive, and the truncation flag is what the size check against them says |
| Routing.ChoiceStable | src/models/router.py:532-542 | A choice survives any narrowing of the eligible candidates that keeps it |
| Routing.SelectedIsEnabled | src/models/router.py:498-516 | A selected candidate is configured, enabled and not excluded |
| Routing.SelectionIs | src/models/router.py:491-542 | Stated in fields: the selection takes a usable candidate than which none is better (lower priority number, then higher weight, then earlier name; the first of equals), and none iff none is usable, the call names a configuration or the route has no explicit candidates |
| Routing.ResolutionNames | src/models/router.py:312-375 | Where a resolution takes its configuration, credential slug, model and limits from, in order of precedence, the first enabled credential included |
| Routing.LimitsAre | src/models/router.py:586-608 | Each limit is the first positive number among those declared by configuration and provider and those in their metadata, the model's own first |
| Routing.AlignedIff | src/models/router.py:373-374 | When the key the router filters by equals the key the loop excludes |
| Routing.ReselectedIffMisaligned | src/models/router.py:498-531 | With its resolved key excluded, at a later time and with any longer history, the router picks the candidate again iff its two keys disagree and it passes the health filter, unless another one has come back |
| Routing.BookedWhereReadIff | src/models/model_manager.py:1275-1315 | A round's outcome is booked on the entry the health filter reads iff both keys name one model and the slug it was resolved with (the default if blank) is the candidate's own; with agreeing keys, iff the slug is not blank |
| Routing.MisbookedGoesUnseen | src/models/model_manager.py:1275-1315 | Otherwise the failures that strike a candidate never change its availability for the router |
| Fallback.ModelManager.Generate | src/models/model_manager.py:146-255 | The outcome is that of a run of rounds (`EndsForGood`, `GoesOnOtherwise`), each with its own resolution, trimmed messages and retry policy, that stops where the fallback rules say, with the matching fallback history and health bookings |
| Fallback.EndsForGood | src/models/model_manager.py:1317-1334 | At most one round if the call forbids fallback or names configuration, slug or model, or the route has no explicit candidates; no round follows a success, BlockedByPolicy, InvalidPrompt or UserCancelled |
| Fallback.GoesOnOtherwise | src/models/model_manager.py:209-255 | When none of these holds and the key was new, the loop stops iff no candidate can be resolved any more |
| Fallback.RoundsWithinLimits | src/models/model_manager.py:1230-1236 | Every round sends messages of the trimmed size: within the character limit always, within the token limit when it stands alone |
| Fallback.KeysWithinSet | src/models/model_manager.py:225-232 | While the loop goes on, every round has added a new key out of the configured ones |
| Fallback.RunIsBounded | src/models/model_manager.py:172-255 | At most one round more than distinct candidate keys, at most six invocations each |
| Fallback.AlignedRunNeverRepeats | src/models/model_manager.py:172-255 | With aligned keys no candidate key is tried twice, and no extra round is made |
| Fallback.RepeatEndsTheRun | src/models/model_manager.py:225-228 | A repeated key ends the run |
| Fallback.MisalignedRunRepeats | src/models/model_manager.py:225-228 | A concrete call without alignment whose two rounds try the same candidate key |
| Fallback.EarlierRoundsFailed | src/models/model_manager.py:1317-1334 | Every round before the last failed in a way that allows fallback |
| Truncation.ApplyTruncation | src/models/model_manager.py:1367-1420 | When trimming fires: messages are trimmed as messages, a bare prompt is replaced by its last characters; the dropped characters are counted; otherwise nothing changes |
| Truncation.TrimTail | src/models/model_manager.py:1387-1404 | The right-to-left loop keeps whole messages from the end and the tail of one |
| Truncation.KeepsExactlyASuffix | src/models/model_manager.py:1390-1412 | The kept contents concatenated are exactly the last budget characters of all contents |
| Truncation.SentIs | src/models/model_manager.py:1373-1386 | What is sent is cut to the character limit, else to four characters per token, zero standing for no limit |
| Truncation.KeepsOrder | src/models/model_manager.py:1390-1412 | Message order, roles and other fields are preserved; only the first kept content loses its head |
| Truncation.TailIsUnique | src/models/model_manager.py:1390-1412 | Only one trimming fits a budget |
| Truncation.LimitsMet | src/models/model_manager.py:1373-1386 | A character limit is always met, a token limit alone too; with both, the token limit is met iff the text or the character limit already fits it |
| Truncation.TokenLimitMissed | src/models/model_manager.py:1376-1378 | A concrete text over its token limit that is sent whole |
| Truncation.RefusedUnlessFits | src/models/router.py:397-457 | A call within every limit goes ahead as it is; any other is trimmed iff it allows truncation, and refused otherwise |
| Compression.SplitLargeChunks | src/models/compression.py:578-603 | The loop computes the split of every chunk, in order |
| Compression.PiecesKeepTheText | src/models/compression.py:590-602 | An oversized chunk becomes exactly ceil(n/limit) parts, each nonempty and at most the limit, numbered, whose texts join to the original |
| Compression.SplitKeepsTheText | src/models/compression.py:578-603 | Splitting loses and moves no character over all chunks |
| Compression.JoinedFromFront | src/models/compression.py:498-544 | The joined source has one blank line between any two texts and nowhere else |
| Compression.CeilDivIsCeiling | src/models/compression.py:590-602 | The number of parts is the least that suffices |
| Compression.CompressContext | src/models/compression.py:49-175 | The sequence of compressor calls and the result it leads to |
| Compression.FallbackFits | src/models/compression.py:498-544 | The rule fallback's text: prefix plus a prefix of the source, within the target |
| Compression.SucceedsIff | src/models/compression.py:49-175 | Succeeds iff the text is not blank and the fallback is allowed or no needed call is refused |
| TimelineInvariants.SlotIsFresh | src/memory/storage.py:315-338 | A reserved seq lies below the advanced counter; an allocated one is used by no message and no event of the session |
| TimelineInvariants.KeepsInsertMessage | src/memory/storage.py:685-765 | A stored message keeps every table invariant, in both allocation modes |
| TimelineInvariants.KeepsInsertEvent | src/memory/storage.py:897-990 | A stored event keeps every table invariant, in both allocation modes |
| TimelineInvariants.KeepsFailRun | src/memory/storage.py:871-895 | Failing a run, with whatever status the payload names, keeps every table invariant |
| TimelineInvariants.KeepsRunRecords | src/memory/storage.py:767-852 | So do inserting and replacing whole run records |
| TimelineInvariants.KeepsUpdateSummary | src/memory/session_manager.py:331-368 | A new summary extends its session's chain contiguously and leaves the others alone |
| TimelineInvariants.KeepsDeleteSession | src/memory/storage.py:679-683 | Cascading deletion keeps every table invariant |
| TimelineInvariants.CurrentIsLast | src/memory/storage.py:1050-1062 | The current summary is the last link of the session's chain |
| TimelineOrder.OrderedSorts | src/memory/storage.py:1180-1218 | Ordering by seq loses nothing and is strict iff the seqs are distinct |
| TimelineOrder.TimelineOrdered | src/memory/storage.py:1180-1244 | The merged timeline lists exactly the visible rows in seq order, strictly iff no visible message and event share a seq |
| TimelineOrder.MessageKeepsApart | src/memory/storage.py:694-752 | A new message keeps seqs unique across both tables iff its seq is allocated or no event has it |
| TimelineOrder.EventKeepsApart | src/memory/session_manager.py:239-242 | The same for events, whose seq a caller may supply |
| TimelineOrder.ReinsertIsNoop | src/memory/storage.py:694-696 | Storing the same message or event again changes no table and takes no seq |
| TimelineRuns.RunsKeepValid | src/memory/storage.py:315-1036 | After any sequence of transactions, failed ones included: ids and seqs unique per table, every row below its counter, summary chains contiguous from 1 |
| TimelineRuns.TimelineIsStrict | src/memory/storage.py:1180-1244 | When every seq is allocated, the merged timeline is strictly increasing after every run |
| TimelineRuns.TimelineMayTie | src/memory/session_manager.py:239-242 | A concrete run with a caller-supplied event seq whose timeline is not strict |
| RunRecords.StepAccountedIff | src/memory/session_manager.py:191-325 | With every run accounted for (its question stored and, if completed, its own assistant message), every run still is after a transaction iff that was honest: no failure says completed of a run without answer, no new run says completed, no whole record written lacks question or answer |
| RunRecords.AccountedIffHonest | src/memory/session_manager.py:191-325 | Every agent run is accounted for at every moment of a run of transactions iff each transaction was honest at its own moment |
| RunRecords.RunsStayAccounted | src/memory/session_manager.py:298-313 | So they are when no whole record is written and no payload or new run says completed |
| RunRecords.DishonestSteps | src/memory/session_manager.py:315-325 | After a user turn each of the four kinds of transaction can leave a completed run without an answer |
| RunRecords.StepReadableIff | src/memory/models.py:301-321 | With every run readable, every run still is after a transaction iff that wrote no unknown status and no blank error code or error text |
| RunRecords.ReadableIffLegible | src/memory/models.py:301-321 | Every agent run can be read back at every moment iff each transaction was legible at its own |
| RunRecords.StatusesReadBack | src/memory/models.py:42-46 | A status text is read as the status it names as it stands or up to case and white space, or not at all; a status is stored as the text it is read from |
| RowSlices.SplitAt | src/memory/storage.py:1118-1151 | Adjoining seq ranges of an ordered list make up the joined range |
| RowSlices.RecentIsRange | src/memory/storage.py:1082-1116 | The recent window is the range from its first seq on |
| Summaries.CandidatesAre | src/memory/summarizer.py:186-224 | Candidates are exactly the chat between the covered prefix and the recent window |
| Summaries.ChatIsPartitioned | src/memory/summarizer.py:186-224 | Covered prefix, candidates and window are the whole chat in order iff no summary reaches into the window |
| Summaries.AccountIsComplete | src/memory/summarizer.py:186-224 | Unless a summary reaches into the window, covered prefix, candidates and window hold exactly the completed user and assistant messages of the session, each once and in order, and the window the last of them, as many as configured |
| Summaries.CoveredOnce | src/memory/session_manager.py:341-368 | A seq lies in a summary iff it is between 1 and the covered end, then in exactly one; the covered end is below the counter |
| Summaries.UpdateShape | src/memory/session_manager.py:341-368 | A summary update appends one link and moves the covered end strictly forward |
| Summaries.UpdateKeepsSources | src/memory/session_manager.py:331-368 | An update keeps the account straight iff it was made of the chat between the old and the new boundary |
| Summaries.ExactlyOnce | src/memory/summarizer.py:186-224 | Messages behind summaries, candidates and window, in order and each once, are the completed messages of user and assistant; no message went into two summaries |
| Summaries.SummarizeKeepsSettled | src/memory/summarizer.py:55-184 | Every summarizer round succeeds on a live session and keeps the account straight |
| Summaries.GapBound | src/memory/session_manager.py:370-407 | After a round with a working model at most max(0, batch - 1, trigger - window) messages are neither summarised nor recent |
| SummaryRuns.InsertKeepsSources | src/memory/storage.py:685-752 | A new message keeps the account straight iff it is no completed chat message or lies after the covered prefix |
| SummaryRuns.InsertKeepsWindow | src/memory/storage.py:1082-1116 | Such a message also keeps every summary out of the recent window |
| SummaryRuns.ManualSummaryLosesSources | src/memory/session_manager.py:331-368 | A summary by hand over a user turn breaks the account |
| SummaryRuns.LateMessageLosesSources | src/memory/storage.py:685-752 | A question whose requested seq lies inside the covered prefix breaks an account that was straight |
| SummaryRuns.SummarisedExactlyOnce | src/memory/summarizer.py:55-224 | At every moment of every run with allocated message seqs and summaries by the summarizer only, every completed message of user and assistant, and no other, is once behind a summary, a candidate or in the window |
| SessionStorage.SessionRepository.ReserveNextTimelineSeq | src/memory/storage.py:315-338 | The seq handed out and the advanced counter |
| SessionStorage.SessionRepository.StoreMessage | src/memory/storage.py:685-765 | Commits what the transaction function computes or rolls everything back |
| SessionStorage.SessionRepository.StoreExecutionEvent | src/memory/storage.py:897-990 | The same for events, unique and foreign keys included |
| SessionStorage.SessionRepository.StoreUserTurn | src/memory/storage.py:433-581 | Session, message and run in one transaction, or nothing |
| SessionStorage.SessionRepository.InterruptRuns | src/memory/storage.py:1246-1261 | Marks exactly the open runs interrupted and counts them |
| SessionStorage.SessionManager.AppendMessage | src/memory/session_manager.py:154-189 | The run must be readable and the session's own before anything is stored; what is stored is logged |
| SessionStorage.SessionManager.AppendExecutionEvent | src/memory/session_manager.py:226-283 | The same for events, which are filed under the given run |
| SessionStorage.SessionManager.CreateRun | src/memory/session_manager.py:191-224 | A run for a stored user message of the session and a known status, stored under its normalised name, and no other |
| SessionStorage.SessionManager.CompleteRun | src/memory/session_manager.py:298-313 | Completes a readable run, and only with its own assistant message; writing the record back cannot fail |
| SessionStorage.SessionManager.FailRun | src/memory/session_manager.py:315-325 | Commits the failure of a readable run, whatever its status, and then returns iff the error has a text, no unknown status and no blank code; otherwise it raises although the record is stored |
| SessionStorage.FailureReadsBack | src/memory/session_manager.py:31-60 | The committed record can be read back iff the error, as coerced, has a text, no unknown status and no blank code |
| SessionStorage.FirstTextIs | src/memory/session_manager.py:38-50 | Of alternative texts in an error payload the first that is not empty counts |
| SessionStorage.UntoldErrors | src/memory/session_manager.py:31-60 | No error at all, an exception without text and a payload with nothing but a status have none |
| SessionStorage.UntoldFailureIsForGood | src/memory/session_manager.py:315-325 | After such an error the run stays stored and unreadable through every further transaction short of replacing its record or deleting its session |
| SessionStorage.UnreadableRefusesAll | src/memory/session_manager.py:154-325 | And an unreadable run can be neither completed nor failed, and takes no message and no event |
| SessionStorage.SessionManager.UpdateSummary | src/memory/session_manager.py:331-368 | Checks and insertion together store a summary over the next contiguous range or refuse the coverage |
| SessionStorage.SessionManager.MaybeAutoSummarize | src/memory/summarizer.py:55-184 | The reads, early exits and write of one summarizer round |
| SessionStorage.ManagerIsConsistent | src/memory/session_manager.py:63-407 | Whatever was done through a manager: consistent tables; runs accounted for at every moment iff every call was honest, and readable iff every call was legible; strict timelines when seqs were allocated |
| SessionStorage.ManagerSummarisesOnce | src/memory/session_manager.py:370-407 | And with automatic operation every chat message summarised exactly once |
| RuntimeAdapter.RuntimeMemoryAdapter.RecordEvent | src/memory/runtime_adapter.py:232-243 | One guarded call: nothing when persistence is lost, and a failure loses it |
| RuntimeAdapter.RuntimeMemoryAdapter.CompleteTurn | src/memory/runtime_adapter.py:252-361 | The guarded calls in order, stopping at the first failure; always reports success; the timeline is handed back iff asked for and nothing failed |
| RuntimeAdapter.RuntimeMemoryAdapter.FailTurn | src/memory/runtime_adapter.py:363-420 | The guarded calls in order; the run is reported with the error's status, as still running when storage or reading back fails midway, and as failed without persistence, where an error without text raises |
| RuntimeAdapter.LossIsFinal | src/memory/runtime_adapter.py:474-486 | After persistence is lost no sequence of calls regains it or touches a table |
| RuntimeAdapter.FlagSpeaksForAll | src/memory/runtime_adapter.py:232-420 | A kept flag means it was kept after every earlier call |
| RuntimeAdapter.CallKeepsValid | src/memory/runtime_adapter.py:232-420 | Wherever storage fails, before or after a commit, the tables stay consistent |
| RuntimeAdapter.CallKeepsSettled | src/memory/runtime_adapter.py:232-420 | And so does the exactly-once account of every session |
| RuntimeAdapter.CompletionIsHonest | src/memory/runtime_adapter.py:252-361 | A ready turn keeps its flag iff no storage call fails; a kept flag means the answer and the completion are stored |
| RuntimeAdapter.FailureIsHonest | src/memory/runtime_adapter.py:363-420 | A failed turn keeps its flag iff no storage call fails and its error has a text; without a storage fault the failure is stored either way |
| ToolTables.UniqueNamesAre | src/tools/registry.py:1118-1134 | The stripped names without repeats, refused iff one is blank |
| ToolTables.RegisteredIff | src/tools/registry.py:250-273 | Registration succeeds iff the name is new and every alias is nonblank, different from it and new |
| ToolTables.KeepsRegistered | src/tools/registry.py:250-282 | Registration keeps the three maps consistent |
| ToolTables.KeepsUnregistered | src/tools/registry.py:284-296 | Unregistration keeps the three maps consistent |
| ToolTables.KeepsAliased | src/tools/registry.py:298-313 | A new alias keeps the three maps consistent |
| ToolTables.RunsStayConsistent | src/tools/registry.py:242-352 | After any sequence of operations: aliases disjoint from names and leading to live tools, alias lists the exact inverse images, sources nonempty, disjoint and live |
| ToolTables.RunsTakeIn | src/tools/registry.py:250-313 | At the end of any sequence a new tool is taken in under its stripped name, and an alias for it leads to it |
| ToolTables.ResolvesByList | src/tools/registry.py:315-321 | A text resolves to a tool iff, stripped, it is the tool's name or in its alias list |
| ToolTables.UnregisterUndoes | src/tools/registry.py:250-296 | Unregistering a fresh tool by its name or any alias restores all maps |
| ToolTables.RemovesExactly | src/tools/registry.py:284-296 | Removing tools one by one, in any order, drops exactly them, their aliases and their source entries |
| ToolTables.RemovesOneSource | src/tools/registry.py:348-352 | Removing a source removes exactly its tools, their aliases and itself |
| ToolRegistry.UniqueStripped | src/tools/registry.py:1118-1127 | The loop computes the names of the specification, or nothing when one is blank |
| ToolRegistry.ToolRegistry.Register | src/tools/registry.py:250-282 | Rejected, nothing changes, the spec's aliases included; accepted, maps and spec are as specified |
| ToolRegistry.ToolRegistry.Unregister | src/tools/registry.py:284-296 | The in-place loops drop the tool from all maps, by name or alias |
| ToolRegistry.ToolRegistry.RegisterAlias | src/tools/registry.py:298-313 | The alias enters the map and the tool's own list, or nothing changes |
| PyText.SortedNames | src/tools/registry.py:348-349 | The names of a set in the order of strings, each once |
| PyText.StripPadded | src/tools/registry.py:1118-1127 | Stripping cuts off exactly the white space on both sides |
| PyText.NormalizeIgnores | src/models/router.py:31-42 | Normalised names ignore white space around them and the case of letters, and nothing else |
| ToolRegistry.ToolRegistry.RemoveDynamicSource | src/tools/registry.py:348-352 | Unregisters exactly the source's names, each once, in sorted order, and returns them |
| ToolRegistry.ToolRegistry.Get | src/tools/registry.py:323-325 | The live spec of the resolved name, or none iff nothing resolves |
| ToolPolicy.RiskFromMetadata | src/tools/policy.py:438-452 | The loop computes the risk of the arguments |
| ToolPolicy.MetadataRiskIsHighest | src/tools/policy.py:431-452 | It is the highest known level any argument maps to, and none iff none is known |
| ToolPolicy.MakeTable | src/tools/policy.py:145-160 | For each risk the action of the last entry whose words are known, else the built-in one; blocked always blocks |
| ToolPolicy.RiskIsHighestNamed | src/tools/policy.py:179-186 | The risk is the highest that tool, caller or an argument names; an unknown word of the first two counts as medium, silence of the caller as low |
| ToolPolicy.Decide | src/tools/policy.py:162-392 | The checks in their order, path loop included, reach the specified decision |
| ToolPolicy.AllowedIff | src/tools/policy.py:187-392 | The ordered decision allows exactly the calls that pass every hard block and only preview, or are authorised, fresh and confirmed where needed; confirmation stays pending only on dry runs |
| ToolPolicy.ScopeNeedsItsFlag | src/tools/policy.py:284-315 | Without a complete confirmation a real call is let through only if the flag of its scope is set, by the session, else the call, else the policy, else built in for reading; nothing else is missing once no other check speaks against it |
| ToolPolicy.RefusalNamesScope | src/tools/policy.py:310-315 | The code of a refusal for lack of permission, by kind of scope |
| ToolPolicy.CapabilitiesMonotone | src/tools/policy.py:284-331 | More capabilities never refuse a real call; the one dry-run exception is stated exactly |
| ToolPolicy.GrantRefusesDryRun | src/tools/policy.py:284-331 | A concrete dry run that is allowed without its capability and refused with it |
| ToolPolicy.RiskMonotone | src/tools/policy.py:179-262 | Under an order-preserving table a higher requested risk never allows a refused call |
| ToolPolicy.DisorderShows | src/tools/policy.py:145-160 | Every other table has a call that is refused at one risk and allowed at a higher one |
| ToolRuntime.ToolRuntime.Execute | src/tools/runtime.py:49-287 | The handler is called at most once, and iff runtime and tool are live, the name resolves, the arguments are valid, nothing fails before, and the real call is approved by both decisions; every other call ends at the first step that raises or fails; a call that either decision saw a reason to guard carries a ticket with the hash of the preview just built; and in fields (`Cleared`), no handler is called for a dry run, a blocked or disabled tool or scope, a path out of bounds, nor without confirmation for a risky tool or one whose scope's permission is not set |
| ToolRuntime.ToolRuntime.Proceed | src/tools/runtime.py:109-237 | The steps from the first decision to the handler, for a live tool with valid arguments |
| ToolRuntime.ApprovedMeans | src/tools/runtime.py:109-147 | On real calls the two decisions allow exactly the approved calls |
| ToolRuntime.ApprovedIsCleared | src/tools/policy.py:187-392 | What the two decisions approve is cleared, in terms of the fields of policy, tool and call |
| ToolRuntime.PlainCallIsApproved | src/tools/policy.py:327-347 | A real call of a plain tool of low risk, on open paths and with the permission of its scope, is approved without more |
| ToolRuntime.HandlerSafety | src/tools/runtime.py:109-147 | When both decisions let a real call through, nothing is left to confirm; if either saw high risk, a needed confirmation or a missing capability, the call carries a ticket for the preview just built |
| ToolRuntime.NoTicketNoCall | src/tools/policy.py:284-309 | Without a ticket no preview hash opens a guarded tool |

## Left out

- Provider clients, streaming (`stream_generate`), embeddings, health checks of providers, cost and trace records: input and output only.
- SQLite itself, threads and connections: every transaction is one atomic step.
- Timeouts and sleeping: the waits of the retry loop are added up, not waited for; a handler that times out is one of its outcomes.
- Logging, redaction, sanitizing, titles, display types, metadata and time stamps of stored rows.
- `begin_turn` and `record_events` of the adapter: the first makes the turn the model starts from, the second bypasses the availability guard.
- `json.loads` is an arbitrary function of the text; the model has the scanner, the printer and the value tree.
- Schema keywords other than those the validator reads, and the wording of all error messages.
- Lower-casing covers ASCII letters; the white space that stripping removes is modelled in full.
- Clock readings and delays are real numbers; rounding of floating-point arithmetic is not modelled.
- The insertion order of Python dictionaries.
- Path resolution and the content of path checks, previews, argument validation and command keyword lists: their results are inputs of the policy and the runtime.
- Parameter merging and configuration loading of the router: the resolved retry limit is an input of each round.
- `_build_chunks` of the summarizer and the model prompts of the compressor: whether compression yields a text is an input of a summarizer round.
- GapBound: assumes a new summary id, as the id generator provides.
- ToolRuntime.HandlerSafety: like the clause of `Execute` about tickets, assumes a nonempty preview hash, which a digest always is.
