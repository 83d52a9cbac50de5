# Pi Remote: a verified model

This project models the parts of Pi Remote that make promises over whole runs, and proves those promises.

* A durable scheduler for inline images, as a dependency graph (`InlineImageGraph`), as a protocol with accepts, awaits, stops,
  crashes, restarts and thread deletions (`InlineImageProtocol`), with what its runs do to the rows of a thread
  (`InlineImageHistory`), whose answers they show (`InlineImageAnswers`), runs that break a promise (`InlineImageRuns`), and as the
  supervisor's object (`InlineImageService`). `InlineImageAccepts` and `InlineImageEffects` say what each event does to what is
  stored, without the functions that compute it.
* Summarisation of a long text within a byte budget (`Utf16`, `BoundedSummary`).
* Repeating calendar events with edits and undo (`CalendarRecurrence`, `CalendarEdits`), and exactly which occurrences a range
  shows (`CalendarExpansions`).
* The streaming speech recogniser (`StreamingRecognition`).
* The rewriting of tool schemas, against a semantics of JSON Schema (`ToolSchema`), with the meaning of every keyword and the
  contents of every schema that is produced (`ToolSchemaMeaning`).
* Effect protocols: phone commands (`PhoneBroker`, `PhoneOutcomes`), prompt admission (`PromptAdmissions`, `PromptOutcomes`),
  folder-key custody (`KeyCustody`, `KeyOutcomes`) and shared rooms (`Rooms`, `RoomEffects`). The second module of each pair says
  which outcome has which cause.
* The scanner for image tags in a growing message (`InlineImageTags`), and the rules by which it moves (`InlineImageRules`).
* Printers and their parsers: message references (`UriText`, `MessageReferences`), API routes (`ApiRoutes`) and quoted replies
  (`JsonText`, `MessageReplies`).
* Closures over thread graphs (`StreamSessions`, `PeerDirectory`).

An object that updates its fields is a class, and each of its methods is tied to a function or a step relation on an immutable
state; the theorems are about that function or about every run of those steps. External things are parameters or events: a
provider, an owner or a socket may answer anything, a crash may come between any two steps. Where a promise is false, a lemma
gives the run or the input that breaks it, and another the condition under which it holds. `dafny verify dfyconfig.toml` checks
everything.

## Model

| member | source | states |
|---|---|---|
| InlineImageGraph.Visit | apps/remote/server/inline-images.ts:136-146 | the memoised search reports a cycle only with a chain of queued images that returns to its path, and the memo stays an order of the queued images although it is filled under differing paths |
| InlineImageGraph.MarkCycles | apps/remote/server/inline-images.ts:147-153 | the cycle pass marks only images from which a cycle of queued images is really reached, and leaves an acyclic rest |
| InlineImageGraph.Propagate | apps/remote/server/inline-images.ts:154-174 | the fixpoint ends with every remaining image having only defined, unfailed references and its exact waiting list |
| InlineImageGraph.Resolve | apps/remote/server/inline-images.ts:133-175 | both passes together: exactly the images no chain of which ends in a missing, failed or repeated image stay queued, with the reason of every failure |
| InlineImageGraph.AcyclicHasNoCycle | apps/remote/server/inline-images.ts:135-146 | an order of the queued images means that no chain of references returns to itself |
| InlineImageGraph.SurvivorsWereNotDoomed | apps/remote/server/inline-images.ts:154-174 | an image still queued after the fixpoint was not doomed before it |
| InlineImageGraph.ResolvedIsSettled | apps/remote/server/inline-images.ts:159-171 | after resolution every queued image has only defined, unfailed id references and `waitingFor` is exactly its incomplete ones |
| InlineImageGraph.ReferencesKeepOrder | apps/remote/server/inline-images.ts:137-171 | the references to ids, and the incomplete ones, are picked one by one in order: what starts with `/` is no id, and what is complete is not waited for |
| InlineImageGraph.SomethingIsReady | apps/remote/server/inline-images.ts:133-190 | no deadlock: with work queued and nothing generating, some image waits for nothing |
| InlineImageProtocol.InvStep | apps/remote/server/inline-images.ts:53-260 | every event of the protocol keeps the invariant: one attempt per key, true rows, exact index, counted slots, rows held by a recovery generating, requests as their rows had them |
| InlineImageEffects.ClaimEffect | apps/remote/server/inline-images.ts:187-204 | a claim takes one queued row that waits for nothing, within the cap, and makes it generating with a task of its own |
| InlineImageEffects.AttemptEffect | apps/remote/server/inline-images.ts:205-234 | an attempt makes a directory that was not there, reads a published image for each id reference, and calls once for a row that is there, with the prompt and references that it was claimed with |
| InlineImageEffects.PublishEffect | apps/remote/server/inline-images.ts:235-255 | the receipt of a job is the output it was published with, under its own key |
| InlineImageEffects.EndEffect | apps/remote/server/inline-images.ts:123-132 | a job ends with its published output or the error of the phase it reached, which only the running owner writes, and only on a row still generating |
| InlineImageEffects.ReadRowsEffect | apps/remote/server/inline-images.ts:81-83 | a start holds every generating row, and no other, as it was at one moment |
| InlineImageEffects.RecoverEffect | apps/remote/server/inline-images.ts:85-86 | the recovery writes the row that it read, complete with what was published for it or else failed as interrupted |
| InlineImageEffects.DurableStays | apps/remote/server/inline-images.ts:93-97 | stops, crashes and starts lose no row, directory or receipt; deleting a thread takes its rows and leaves its directories and receipts |
| InlineImageEffects.RowsHaveOneWriter | apps/remote/server/inline-images.ts:53-260 | a row that stays changes only by an accept or a resolution in its thread, by its own claim, by the end of its job in the hands of the running owner, or by its own recovery |
| InlineImageProtocol.ProviderCalledAtMostOnce | apps/remote/server/inline-images.ts:194-260 | over every run the provider is called at most once per session and image id, and a complete row shows what that call published |
| InlineImageAnswers.AnswersItsOwnIffClear | apps/remote/server/inline-images.ts:187-255 | in every continuation of this life of the thread a claimed image can only come to show the answer to its own prompt and references, exactly if at the claim no answer to another definition is published or on its way, and no running job may yet ask for one |
| InlineImageAnswers.NewKeyIsClear | apps/remote/server/inline-images.ts:192-210 | so it is if the key has no attempt directory yet and no unfinished job |
| InlineImageAnswers.SourcesStep | apps/remote/server/inline-images.ts:205-234 | every event keeps: while the supervisor runs, an unfinished job of a former life of a thread finds nothing to read for its references, and nobody works in the directory of a completed image |
| InlineImageProtocol.AnswersItsOwnPrompt | apps/remote/server/inline-images.ts:123-260 | a complete row shows the answer to its own prompt and references if its call was made in this life of the thread, and so always while no thread was deleted |
| InlineImageRuns.AnswersAnotherPrompt | apps/remote/server/inline-images.ts:123-129 | a run in which a thread is deleted and added again, and its new row completes with the answer to the old prompt |
| InlineImageProtocol.ClaimedOnlyWhenReferencesComplete | apps/remote/server/inline-images.ts:187-201 | an image is claimed only when all its id references are complete, with a path to read |
| InlineImageProtocol.ConcurrencyCap | apps/remote/server/inline-images.ts:187-201 | active jobs never exceed the concurrency; nor do running tasks, as long as no thread is deleted or no key is claimed again |
| InlineImageProtocol.ClaimKeepsCapIff | apps/remote/server/inline-images.ts:187-200 | a claim keeps the running tasks within the cap exactly if the free slots outnumber the running tasks that the active jobs do not count |
| InlineImageProtocol.ClaimCountsIffNotActive | apps/remote/server/inline-images.ts:192-200 | the active jobs go on counting every running task exactly if the claimed key was not active already |
| InlineImageRuns.ReusedThreadOverbooks | apps/remote/server/inline-images.ts:192-200 | a run with cap two in which a thread is deleted and added again, and three tasks run at once |
| InlineImageHistory.ThreadHistory | apps/remote/server/inline-images.ts:53-132 | between any two moments of one life of a thread no image is lost, first prompt and references never change, states only advance, final results are final, every change raises the version, if at the earlier moment no recovery held rows of a former life |
| InlineImageHistory.StepHistory | apps/remote/server/inline-images.ts:53-260 | the same for each single event but a write of the recovery in that thread, with the allowed transitions, and conflict marks stay |
| InlineImageHistory.RecoveryHistory | apps/remote/server/inline-images.ts:79-91 | a write of the recovery, which saves a row read before its awaits, advances the thread exactly if that row fits the present one, and keeps the marks exactly if it saw them |
| InlineImageHistory.MarksHistory | apps/remote/server/inline-images.ts:53-91 | conflict marks stay over any stretch of a life in which no recovery holds a row that was marked since it was read |
| InlineImageHistory.MarkSurvivesIff | apps/remote/server/inline-images.ts:53-91 | a mark survives a recovery exactly if it was there at the read, or no message accepted between the read and the write defined the image again |
| InlineImageRuns.RecoveryLosesMark | apps/remote/server/inline-images.ts:79-91 | a run in which a message is accepted between the read and the write: its mark is erased, and its message key used up |
| InlineImageRuns.RecoveryOverwritesNewLife | apps/remote/server/inline-images.ts:79-91 | a run in which the recovery writes the row of a deleted thread over that of the thread added again |
| InlineImageService.ResolvedIsExact | apps/remote/server/inline-images.ts:133-175 | resolution leaves the rows of a thread exact |
| InlineImageService.ClaimKeepsExact | apps/remote/server/inline-images.ts:195-195 | claiming a job keeps them exact |
| InlineImageService.NothingStandsStill | apps/remote/server/inline-images.ts:181-204 | when a pump finds nothing to claim, every thread with queued images has one generating |
| InlineImageService.NeverCalledBefore | apps/remote/server/inline-images.ts:205-234 | a task about to call the provider is the first to do so for its key |
| InlineImageService.InlineImages.Accept | apps/remote/server/inline-images.ts:53-77 | an accept of a message is the accept of the protocol: in one transaction, once per message; what it stores is `AcceptStores` |
| InlineImageAccepts.AcceptStores | apps/remote/server/inline-images.ts:55-75 | an id without a row gets one exactly if a tag defines it, with prompt and references of the first such tag: failed as invalid if that tag is, and otherwise queued with its exact waiting list, or failed by resolution for the reason given |
| InlineImageAccepts.AcceptMarks | apps/remote/server/inline-images.ts:61-66 | a row that was there keeps its definition, and is marked exactly if it was or if a tag of the message contradicts it |
| InlineImageAccepts.AcceptKeepsTheRest | apps/remote/server/inline-images.ts:53-77 | the message is recorded, new rows come last, and no other thread, directory, task or request is touched; an accept of an unknown thread or a known message changes nothing |
| InlineImageAccepts.IdsAreThePattern | apps/remote/server/inline-images.ts:60-60 | an id is an ASCII letter and at most 63 letters, digits, hyphens and underscores |
| InlineImageService.InlineImages.ResolveDependencies | apps/remote/server/inline-images.ts:133-175 | performs the resolution step of the protocol |
| InlineImageService.InlineImages.Pump | apps/remote/server/inline-images.ts:181-204 | claims until the cap or until nothing is ready; its effect is a run of protocol steps, and with a free slot no thread is left standing still |
| InlineImageService.InlineImages.BeginStart | apps/remote/server/inline-images.ts:79-83 | reads every generating row at once, before the first await |
| InlineImageService.InlineImages.LookForReceipt | apps/remote/server/inline-images.ts:84-84 | looks for the receipt of one row that was attempted when it was read |
| InlineImageService.InlineImages.WriteRecovered | apps/remote/server/inline-images.ts:85-86 | writes the row as it was read, complete with its receipt or failed as interrupted, whatever the row is by then |
| InlineImageService.InlineImages.CompleteStart | apps/remote/server/inline-images.ts:88-90 | work goes on only when every row that was read is written |
| InlineImageService.InlineImages.FinishTask | apps/remote/server/inline-images.ts:123-129 | a result is stored only by the owner, and only on a row that is generating |
| InlineImageService.InlineImages.Generate | apps/remote/server/inline-images.ts:232-239 | calls the provider at most once, after the durable claim |
| BoundedSummary.PartsMakeTheText | packages/runtime/bounded-summary.js:40-61 | the parsed parts put together are the text again; nothing is dropped by the parse |
| BoundedSummary.PartsEndAtTheLastTag | packages/runtime/bounded-summary.js:40-50 | a text is parsed exactly if it starts as a conversation and has the closing tag behind that, and the conversation ends at the last one |
| BoundedSummary.PromptBytes | packages/runtime/bounded-summary.js:72-80 | the bytes of a prompt are those of its frame plus those of its segment |
| BoundedSummary.Cut | packages/runtime/bounded-summary.js:89-95 | a cut moves forward, fits the available bytes, takes all that is left if that fits and otherwise at least about a sixth as many units as bytes are available, and never splits a surrogate pair |
| BoundedSummary.Summarizer.Call | packages/runtime/bounded-summary.js:14-30 | one request, and a concise second one only when the output budget ran out; both counted against 32 and with the usage of all responses |
| BoundedSummary.Summarizer.Fold | packages/runtime/bounded-summary.js:69-108 | a complete response means that every segment of the source was read in order, by requests that carried the whole checkpoint before it and whose answer is the checkpoint behind it, all within the budget; an error has its reason, and the fold ends |
| BoundedSummary.RequestsCarryCheckpoints | packages/runtime/bounded-summary.js:72-77 | the text of every request of a derivation, spelled out: opening, the whole checkpoint before the segment under its heading, segment, closing and instructions, and for history the fixed frame; with no checkpoint there is no heading |
| BoundedSummary.UsageIsTheSum | packages/runtime/bounded-summary.js:10-13 | the usage that is returned is that of all responses together |
| BoundedSummary.Summarizer.Summarize | packages/runtime/bounded-summary.js:1-110 | at most 32 requests, the first of a short text being the text itself; a complete answer saw the whole text, or the whole conversation after the whole earlier checkpoint, in requests that carried it |
| BoundedSummary.FinishedFoldReadEverything | packages/runtime/bounded-summary.js:78-107 | the segments a finished fold accepted concatenate to exactly the source, and no boundary falls inside a surrogate pair |
| BoundedSummary.SegmentsAreConsumed | packages/runtime/bounded-summary.js:78-105 | the same for a fold that is under way, through halved budgets and folded checkpoints |
| CalendarRecurrence.ShownInWindow | apps/remote/server/calendar-recurrence.ts:25-37 | an occurrence that the range shows lies inside the computed window of days |
| CalendarRecurrence.WindowIsComplete | apps/remote/server/calendar-recurrence.ts:25-37 | windowed expansion equals expansion over all multiples of the step, in any zone with bounded slack |
| CalendarRecurrence.OwnedOccurrences | apps/remote/server/calendar-recurrence.ts:25-42 | the two loops return the expansion; what that is, `ExpansionIsExact` says |
| CalendarExpansions.ExpansionIsExact | apps/remote/server/calendar-recurrence.ts:25-42 | a repeating event expands, in order of their dates, to exactly the occurrences of every day, or of every seventh if it repeats weekly, that are not excepted and meet the range, and behind them to exactly the replacements that meet it; any other event to itself if it meets the range |
| CalendarExpansions.WindowIsExact | apps/remote/server/calendar-recurrence.ts:25-37 | the loop over the window alone returns those occurrences, in order of their dates |
| CalendarRecurrence.StartCountsDays | apps/remote/server/calendar-recurrence.ts:7-22 | the wall date of an occurrence's start counts its days |
| CalendarRecurrence.OccurrenceInverts | apps/remote/server/calendar-recurrence.ts:16-24 | the lookup by start value finds exactly the occurrence that starts there on a day that counts: the first or a later one, for a weekly event a multiple of seven days on, and not excepted |
| CalendarRecurrence.OccurrencesKeepWallTimes | apps/remote/server/calendar-recurrence.ts:7-15 | an occurrence exists exactly on the days within `repeatUntil` on which its start time exists locally, and keeps the series' local start and end times |
| CalendarRecurrence.IdsAreDistinct | apps/remote/server/calendar-recurrence.ts:33-41 | occurrence ids in one expansion are distinct, replacements included |
| CalendarRecurrence.EditChangesOne | apps/remote/server/calendar.ts:283-297 | changing one occurrence leaves every other of every expansion equal up to `updated`, and puts in its place exactly what replaces it, where the range shows that |
| CalendarRecurrence.PatchReplacesOne | apps/remote/server/calendar.ts:283-297 | a patched occurrence has the new values in every expansion that shows it, under its own id and original start |
| CalendarRecurrence.DeletionRemovesOne | apps/remote/server/calendar.ts:283-297 | deleting one occurrence removes just that one from every expansion, the others being equal up to `updated` |
| CalendarEdits.CalendarStore.HandleChange | apps/remote/server/calendar.ts:270-301 | create, patch and delete of events and occurrences, with every refusal |
| CalendarEdits.PatchedOccurrence | apps/remote/server/calendar.ts:283-297 | exactly when a patch of one occurrence is accepted, and that it replaces that occurrence alone in every expansion; a refused one changes nothing |
| CalendarEdits.DeletedOccurrence | apps/remote/server/calendar.ts:283-297 | exactly when the deletion of one occurrence is accepted, that it takes away that occurrence alone from every expansion, and the undo record that it leaves for ten minutes; a refused one changes nothing |
| CalendarEdits.CalendarStore.HandleUndo | apps/remote/server/calendar.ts:261-269 | undo restores, or refuses as expired or as changed |
| CalendarEdits.UndoIsExactOrRefused | apps/remote/server/calendar.ts:252-269 | whatever happened in between, undo puts back the exact record and nothing else exactly if the event is what the deletion left; it conflicts exactly if the event is another, and is too late exactly if the time is over or something took the record; a refusal has no effect |
| CalendarEdits.DeleteThenUndo | apps/remote/server/calendar.ts:252-301 | deleting and undoing at once gives back every event |
| CalendarEdits.ActionKeepsFiles | apps/remote/server/calendar.ts:252-301 | every request keeps events filed under their own ids, with at most one exception for each start, and undo records true to the events they came from |
| CalendarEdits.PatchBlocksUndo | apps/remote/server/calendar.ts:261-297 | an occurrence that is deleted and then patched cannot be undone: the reply is a conflict and nothing changes |
| CalendarEdits.RecordStays | apps/remote/server/calendar.ts:252-269 | an undo record is there, as it was made, exactly until its own undo succeeds or a deletion after its expiry clears it |
| StreamingRecognition.FeaturesAreFrames | apps/meet-recognition/nemotron.py:32-45 | every feature row is that of the 512 samples centred on its frame, silence outside the audio |
| StreamingRecognition.FeaturesAreASlice | apps/meet-recognition/nemotron.py:32-45 | features of a range are the matching slice of the features of the whole audio |
| StreamingRecognition.EncoderInput | apps/meet-recognition/nemotron.py:74-83 | the encoder always gets the chunk's frames and nine more rows |
| StreamingRecognition.EncoderSeesFramesInPlace | apps/meet-recognition/nemotron.py:74-83 | each of those rows is the frame at its absolute place, or the log floor outside the audio |
| StreamingRecognition.TokensAreBounded | apps/meet-recognition/nemotron.py:89-103 | a frame adds at most ten pieces behind the earlier ones, and without a piece leaves the decoder as it was |
| StreamingRecognition.StepDecodes | apps/meet-recognition/nemotron.py:84-103 | a step decodes the encoder frames one after the other, as many as there are or as eight valid feature frames each make up, at least one; each greedily: up to ten calls of the decoder, each given token and state of the one before, ending at a blank |
| StreamingRecognition.AcceptDecodesChunks | apps/meet-recognition/nemotron.py:61-65 | samples that arrive are decoded chunk by chunk, each with all its frames valid and in place, until less than a chunk is left |
| StreamingRecognition.FinishDecodesChunks | apps/meet-recognition/nemotron.py:67-72 | the audio with silence behind it is decoded chunk by chunk to its end, with as many valid frames in each as it still has samples for |
| StreamingRecognition.LaterAudioIsIrrelevant | apps/meet-recognition/nemotron.py:61-65 | a full chunk decodes the same whatever arrives later |
| StreamingRecognition.PacketIndependence | apps/meet-recognition/nemotron.py:61-72 | any split of the samples into packets gives the state, and after finishing the pieces, of the whole audio at once |
| StreamingRecognition.DrainSettles | apps/meet-recognition/nemotron.py:61-65 | between packets less than a chunk is pending and a whole number of chunks is decoded |
| StreamingRecognition.FlushEndsOnAChunk | apps/meet-recognition/nemotron.py:67-72 | finishing decodes whole chunks and reaches the end |
| StreamingRecognition.Stream.AcceptSamples | apps/meet-recognition/nemotron.py:61-65 | the loop of `accept` in place: its state is that of `Accept`, which `AcceptDecodesChunks` describes |
| StreamingRecognition.Stream.FinishStream | apps/meet-recognition/nemotron.py:67-72 | the loop of `finish` in place: its state is that of `Finish`, which `FinishDecodesChunks` describes |
| ToolSchema.OnlyObjectsValidate | packages/runtime/anthropic-tool-schema.js:1-10 | a schema that the recursive test accepts validates only objects |
| ToolSchemaMeaning.RootTest | packages/runtime/anthropic-tool-schema.js:1-10 | the test, spelled out: the type is `object`; or it may be, and all branches of a non-empty union pass, or one of an intersection does |
| ToolSchemaMeaning.KeywordMeans | packages/runtime/anthropic-tool-schema.js:1-68 | each keyword of the fragment means what JSON Schema 2020-12 says (section 10 of Core and section 6 of Validation) |
| ToolSchemaMeaning.SchemaMeans | packages/runtime/anthropic-tool-schema.js:1-68 | a schema accepts what all its keywords accept; `true` accepts everything and `false` nothing |
| ToolSchema.CollectFields | packages/runtime/anthropic-tool-schema.js:12-20 | the accumulator loops collect the declarations in order |
| ToolSchema.FieldsAreDeclarations | packages/runtime/anthropic-tool-schema.js:12-20 | collected under distinct names are exactly the property schemas declared anywhere in the unions and intersections |
| ToolSchemaMeaning.FieldsInOrder | packages/runtime/anthropic-tool-schema.js:12-20 | the declarations are added one after the other in the order in which one reads them |
| ToolSchemaMeaning.AddVariantExact | packages/runtime/anthropic-tool-schema.js:14-15 | a declaration joins those of its name unless an equal one is there; a new name comes last |
| ToolSchema.WireIsExact | packages/runtime/anthropic-tool-schema.js:51-68 | the wire schema of a union accepts exactly the objects that the original accepts and whose declared properties each meet one declaration |
| ToolSchemaMeaning.WireKeys | packages/runtime/anthropic-tool-schema.js:56-67 | what each key of the wire schema holds: type, merged properties, the original under a double negation, and the annotations of the original |
| ToolSchemaMeaning.WirePropertiesExact | packages/runtime/anthropic-tool-schema.js:58-60 | a merged property is its one declaration, or the union of its several ones in order |
| ToolSchemaMeaning.PlainIsUntouched | packages/runtime/anthropic-tool-schema.js:53-55 | a schema without unions that passes the test has the type `object` already and goes out as it is |
| ToolSchema.ClosedUnionsKeepMeaning | packages/runtime/anthropic-tool-schema.js:51-68 | with closed union branches the wire schema and the original accept the same values |
| ToolSchema.OpenBranchesNarrow | packages/runtime/anthropic-tool-schema.js:57-63 | an open union and a value that it accepts and its wire schema rejects |
| ToolSchema.PresentTwice | packages/runtime/anthropic-tool-schema.js:22-49 | presentation is idempotent |
| ToolSchema.PresentEntries | packages/runtime/anthropic-tool-schema.js:28-48 | the loop over the entries: bounds of numbers are taken out, everything else is presented |
| ToolSchemaMeaning.PresentedEntries | packages/runtime/anthropic-tool-schema.js:28-48 | an object is presented entry by entry in order; exactly where it is for numbers its bounds are left out, and its description tells them |
| ToolSchemaMeaning.PresentedOthers | packages/runtime/anthropic-tool-schema.js:22-27 | arrays are presented element by element, other values stay; a root that is no object schema is refused |
| ToolSchema.Widens | packages/runtime/anthropic-tool-schema.js:22-49 | presentation only widens where bounds are dropped under an even number of negations, and only narrows under an odd number; through a `oneOf` if its branches are of different types |
| ToolSchema.OneOfMayNarrow | packages/runtime/anthropic-tool-schema.js:22-49 | a `oneOf` of two number ranges and a value that it accepts and the presented one rejects, because both branches then count |
| ToolSchema.NothingValidIsRejected | packages/runtime/anthropic-tool-schema.js:51-68 | for closed unions and harmless declarations the whole rewriting rejects no call that the native contract accepts |
| PhoneBroker.EventKeepsInv | apps/remote/server/phones.ts:32-155 | every event keeps: commands in flight only on open connections and at most 32 of them, a registered connection is open and carries its device's id, all accounts true |
| PhoneBroker.EachCommandSettlesOnce | apps/remote/server/phones.ts:115-153 | a command handed to a transport is handed to one, and is either in flight on it and unsettled, or settled exactly once |
| PhoneBroker.OutcomesAreTrue | apps/remote/server/phones.ts:73-153 | a reported result came over the command's own connection; "not dispatched" was never taken by a transport |
| PhoneOutcomes.SettledBecause | apps/remote/server/phones.ts:73-153 | in every run every settlement has its cause: a reported result is the one that the phone sent for this command, with the same outcome, while it was in flight on that connection; unconfirmed ones had a deadline, an abort, a failed transport or the end of their connection |
| PhoneOutcomes.InFlightSettles | apps/remote/server/phones.ts:73-78 | a result for a command in flight settles it as reported and takes it out of flight; deadline and abort leave it unconfirmed |
| PhoneOutcomes.LateAnswersAreIgnored | apps/remote/server/phones.ts:78-78 | a result, deadline or abort for a command that is not in flight on that connection changes nothing |
| PhoneOutcomes.ExecuteAnswers | apps/remote/server/phones.ts:115-153 | a command is refused for the first reason that applies and otherwise handed over, and is in flight exactly if the transport took it |
| PhoneOutcomes.HelloRegisters | apps/remote/server/phones.ts:47-63 | a greeting registers the connection under its device, and ends the one that was registered before |
| PhoneOutcomes.EndsExactly | apps/remote/server/phones.ts:40-111 | a connection ends exactly by its own invalid or superseded frames, failed sends, its timeout or disconnection, being replaced, or a stop |
| PhoneOutcomes.EndSettles | apps/remote/server/phones.ts:98-106 | each command in flight on a connection that ends is settled as unconfirmed |
| PhoneBroker.StopSettlesEverything | apps/remote/server/phones.ts:155-155 | after stop nothing is in flight and every command has its one settlement |
| PhoneBroker.CloseInv | apps/remote/server/phones.ts:98-111 | closing settles all that is pending as unconfirmed and keeps the invariant |
| PhoneBroker.PhoneBroker.ReceiveFrame | apps/remote/server/phones.ts:40-79 | each frame, valid or not, is the corresponding event; what a result does is `InFlightSettles` |
| PhoneBroker.PhoneBroker.ExecuteCommand | apps/remote/server/phones.ts:115-153 | each path of a command, refused, handed over, rejected or thrown, is the corresponding event |
| KeyCustody.CustodyHolds | apps/remote/server/one-kenan-keys.ts:35-166 | in every state of every run, wherever the process dies, wrapper users equal vault users, every wrapper opens under its user's key to the one master that opens the vault, and every kept key had mounted its folder before it was written |
| KeyCustody.AuthenticateKeeps | apps/remote/server/one-kenan-keys.ts:61-113 | no branch of a login breaks custody |
| KeyCustody.UnlockKeeps | apps/remote/server/one-kenan-keys.ts:115-137 | nor does the master provider; success leaves nothing waiting and every known folder mounted |
| KeyCustody.RetainKeeps | apps/remote/server/one-kenan-keys.ts:139-152 | retaining keeps every known key and the master, for each way the write can go |
| KeyOutcomes.RetainExact | apps/remote/server/one-kenan-keys.ts:139-152 | what one retained key adds to file and memory for each way its write can go; a known key writes nothing |
| KeyOutcomes.RetainPendingExact | apps/remote/server/one-kenan-keys.ts:97-100 | waiting keys are retained in order until a write fails; those behind it go on waiting |
| KeyOutcomes.MountEachExact | apps/remote/server/one-kenan-keys.ts:103-109 | the folders of the enrolled are mounted in order until one fails, and no other |
| KeyOutcomes.ChecksExact | apps/remote/server/one-kenan-keys.ts:62-68 | which of the first checks refuses a login, and with which answer |
| KeyOutcomes.WaitExact | apps/remote/server/one-kenan-keys.ts:69-77 | a key of someone not enrolled is tried on the folder, and waits behind the others if it mounts |
| KeyOutcomes.OpenExact | apps/remote/server/one-kenan-keys.ts:78-89 | locked custody opens exactly if the wrapper opens with the key, and the vault with what was in it, and holds this very key |
| KeyOutcomes.EnterExact | apps/remote/server/one-kenan-keys.ts:90-112 | open custody: the folder is mounted, the key and all waiting ones are kept, the master is shared and the other folders are mounted, with answer and state where one of these fails |
| KeyOutcomes.ProviderExact | apps/remote/server/one-kenan-keys.ts:115-137 | the same for the master provider, whose master must be the vault's |
| KeyCustody.LockedLogin | apps/remote/server/one-kenan-keys.ts:69-90 | locked custody opens to an enrolled person exactly with the retained key, and any other key changes nothing |
| KeyCustody.WaitingLogin | apps/remote/server/one-kenan-keys.ts:70-77 | someone not enrolled cannot open custody: a key that mounts waits in memory and the file stays as it is |
| KeyCustody.LoginSucceeds | apps/remote/server/one-kenan-keys.ts:61-113 | success means waiting, or custody open with the caller's key and all waiting ones kept and all known folders mounted |
| KeyCustody.WrongKeyChangesNothing | apps/remote/server/one-kenan-keys.ts:68-90 | a wrong key has no effect, whichever check found it |
| KeyCustody.ProviderOpens | apps/remote/server/one-kenan-keys.ts:115-121 | the provider opens custody exactly with the vault's master |
| KeyCustody.KeysAreNeverReplaced | apps/remote/server/one-kenan-keys.ts:139-152 | with mounts that accept only a folder's own key, any two contents the file ever has agree on every person in both |
| KeyCustody.EnrolledStay | apps/remote/server/one-kenan-keys.ts:139-166 | when no write fails after its rename, every content of the file extends the one before: same master, every key and wrapper as it was |
| KeyCustody.LateWriteIsForgotten | apps/remote/server/one-kenan-keys.ts:148-165 | after a write that failed behind its rename, the next one keeps everyone enrolled exactly if it enrols the same person again |
| KeyCustody.KenanKeys.Login | apps/remote/server/one-kenan-keys.ts:61-113 | the method in place, branch by branch |
| KeyCustody.KenanKeys.Unlock | apps/remote/server/one-kenan-keys.ts:115-137 | the method in place, branch by branch |
| PromptAdmissions.SendsAreIdentical | apps/remote/server/prompt-admissions.ts:88-107 | all sends of one request, from any process and across failures and crashes, carry the same session and prompt |
| PromptAdmissions.OneEffectAtATime | apps/remote/server/prompt-admissions.ts:76-80 | a process never has two effects of one request open |
| PromptAdmissions.AcceptanceWasSent | apps/remote/server/prompt-admissions.ts:103-110 | a recorded acceptance was sent, to the recorded session |
| PromptAdmissions.RecordsAreTerminal | apps/remote/server/prompt-admissions.ts:83-110 | only rejections, and acceptances of real work with the delivery asked for, are recorded; another delivery of the owner is named |
| PromptOutcomes.RecordsExactly | apps/remote/server/prompt-admissions.ts:83-110 | a response is recorded exactly for a terminal answer that the database keeps: a refusal by its code, or the acceptance with the work id, naming the delivery of the owner exactly if it differs from the one asked for |
| PromptOutcomes.SendsExactly | apps/remote/server/prompt-admissions.ts:88-107 | a prompt goes out, once, to the session of its receipt, exactly when a request is taken up whose prompt is fixed or when its preparation comes back |
| PromptOutcomes.EffectsEnd | apps/remote/server/prompt-admissions.ts:88-112 | how an admission ends when its effect comes back: as recorded, or open when the write fails or the answer is not terminal |
| PromptOutcomes.RepliesExactly | apps/remote/server/prompt-admissions.ts:65-82 | a submit is answered at once, or joins or begins the one admission of its request, whose end the others hear of |
| PromptAdmissions.OthersConflict | apps/remote/server/prompt-admissions.ts:74-74 | a different input or recipient conflicts without effect |
| PromptAdmissions.EqualSubmitRepeats | apps/remote/server/prompt-admissions.ts:75-75 | an equal submit of a finished request gets the recorded response without further effect |
| PromptAdmissions.FinalIffQuiet | apps/remote/server/prompt-admissions.ts:65-112 | a recorded response is in force for ever, with no further send, over all events to come, exactly if no process has an admission of the request that still waits for an answer |
| PromptAdmissions.ResponseIsFinal | apps/remote/server/prompt-admissions.ts:65-112 | so it is, whatever comes later, if one process at a time has worked on the request up to then |
| PromptAdmissions.OverlappingProcessesOverwrite | apps/remote/server/prompt-admissions.ts:83-110 | two processes on one database: a run in which the request is sent again after its acceptance, which a rejection then replaces |
| PromptAdmissions.StepKeeps | apps/remote/server/prompt-admissions.ts:65-112 | every step of every process keeps the invariant; receipts keep session, input and resolved prompt |
| PromptAdmissions.PromptAdmissions.SubmitPrompt | apps/remote/server/prompt-admissions.ts:65-82 | the response, or none while the admission that was joined is in flight |
| PromptAdmissions.PromptAdmissions.PrepareReturned | apps/remote/server/prompt-admissions.ts:92-103 | the prompt is fixed in the receipt before it is sent |
| Rooms.ReceivedCountsNotices | apps/remote/server/rooms.ts:183-193 | in every run `received` is the number of distinct notices recorded for that room and person, and no more is marked read |
| Rooms.NothingIsTakenBack | apps/remote/server/rooms.ts:331-365 | read marks and members only grow |
| RoomEffects.ReadEffect | apps/remote/server/rooms.ts:331-342 | reading through a count raises the read mark of that person in that room to it and changes nothing else; reading ahead of the inbox is refused |
| RoomEffects.OnlyMembersAct | apps/remote/server/rooms.ts:328-330 | nobody outside a room, and nobody while its lock is held, changes anything |
| RoomEffects.CreateEffect | apps/remote/server/rooms.ts:299-323 | a room is created once; the same request again goes on where it was, and a different one with its id is refused |
| RoomEffects.PromptEffect | apps/remote/server/rooms.ts:387-393 | a prompt is recorded before it is forwarded; the same one is forwarded until it is accepted, and its id is good for no other |
| Rooms.PendingQuestionsAreListed | apps/remote/server/rooms.ts:241-244 | `pendingQuestions` is the length of `questionIds` |
| Rooms.AnswerClosesOne | apps/remote/server/rooms.ts:366-380 | an answer closes its own question and no other, although the room was read before the owner answered |
| Rooms.NoticeCountsOnce | apps/remote/server/rooms.ts:183-193 | a notice adds one to the inbox, and brings the room back, for exactly the members who had not had it |
| Rooms.ReplayChangesNothing | apps/remote/server/rooms.ts:178-193 | a replayed receipt changes nothing |
| Rooms.EveryoneIsNotified | apps/remote/server/rooms.ts:183-193 | a notice reaches every member but the excluded one |
| RoomEffects.DeliversExactly | apps/remote/server/rooms.ts:183-193 | a notice adds deliveries for exactly the members but the excluded one |
| RoomEffects.NoticeEffect | apps/remote/server/rooms.ts:178-193 | and counts for exactly those who had not had it; inboxes of others, rooms, prompts and locks stay |
| RoomEffects.CreatedEffect | apps/remote/server/rooms.ts:313-319 | a room that its owner made is ready, and everyone but its creator is invited |
| RoomEffects.AddedEffect | apps/remote/server/rooms.ts:356-363 | members whom the owner admitted are in the room, and each is announced to everyone but the actor |
| RoomEffects.AnsweredEffect | apps/remote/server/rooms.ts:366-383 | the first answer closes its question and makes the room current for the one who gave it; everyone else has the notice once |
| RoomEffects.PromptedEffect | apps/remote/server/rooms.ts:393-404 | a prompt that the owner took is accepted, and everyone but its sender has the notice once |
| RoomEffects.SnapshotEffect | apps/remote/server/rooms.ts:237-248 | a snapshot gives the room its open questions and every member notices of the owner's reply and of each question; without one only the lock is given back |
| RoomEffects.RefusalEffect | apps/remote/server/rooms.ts:311-406 | when the owner refuses, the lock is given back and nothing else happens |
| Rooms.RosterIsExact | apps/remote/server/rooms.ts:170-177 | a roster names everyone asked for and the actor, once, and only known people |
| RoomEffects.RosterAccepts | apps/remote/server/rooms.ts:170-177 | a list is refused exactly if it is longer than 63 or someone on it, or the actor, is not known |
| RoomEffects.RosterInOrder | apps/remote/server/rooms.ts:170-177 | a roster keeps the order in which people are first named; an actor who is not named comes first |
| Rooms.AcceptedIsNotForwardedAgain | apps/remote/server/rooms.ts:387-407 | a prompt whose acceptance is recorded is never forwarded again |
| Rooms.StepKeeps | apps/remote/server/rooms.ts:237-407 | every step keeps all accounts and takes nothing back |
| Rooms.Rooms.Notify | apps/remote/server/rooms.ts:183-193 | the loop over the members in place |
| Rooms.Rooms.Handle | apps/remote/server/rooms.ts:299-394 | each request up to its first await |
| Rooms.Rooms.OwnerReplied | apps/remote/server/rooms.ts:311-402 | the transaction after the owner's answer, for each kind of request |
| Rooms.Rooms.SnapshotArrived | apps/remote/server/rooms.ts:225-248 | reconciliation with the owner's snapshot |
| InlineImageTags.TagsAreOrdered | apps/remote/server/inline-image-contract.ts:72-147 | tags come in order, disjoint and in bounds, each with the text it covers |
| InlineImageTags.StreamingAddsOneTail | apps/remote/server/inline-image-contract.ts:111-122 | streaming returns exactly the batch tags and at most one partial tag that reaches the end |
| InlineImageTags.ClosedTagsStay | apps/remote/server/inline-image-contract.ts:72-147 | the tags of a text are a prefix of the tags of every longer text |
| InlineImageTags.TagTextIsExact | apps/remote/server/inline-image-contract.ts:59-69 | a tag is found exactly when the tag pattern matches, with its only match; the quote scan decides the same |
| InlineImageRules.ScanIsRun | apps/remote/server/inline-image-contract.ts:72-147 | the scan is a chain of steps from the start of the text, line by line, to its end or to a tag that the text does not close, with exactly the tags found on the way |
| InlineImageRules.LineMeans | apps/remote/server/inline-image-contract.ts:81-92 | a line is skipped when a tag has passed it, in a fence, as a fence, or as indented code; otherwise it is scanned |
| InlineImageRules.LinePath | apps/remote/server/inline-image-contract.ts:93-143 | the scan of a line is a path of such moves, to a point from which none leads on |
| InlineImageRules.HiddenMoves | apps/remote/server/inline-image-contract.ts:94-99 | a comment lasts to its end mark, a raw block to its first end tag; where the line has neither, the rest is skipped |
| InlineImageRules.TextMoves | apps/remote/server/inline-image-contract.ts:100-106 | in open text comments start, a backslash hides the next character, and ticks pair up with runs of their own length |
| InlineImageRules.AngleMoves | apps/remote/server/inline-image-contract.ts:107-142 | at a `<`: a raw block, a tag, an unclosed tag, or a plain character |
| InlineImageRules.RawOpenExact | apps/remote/server/inline-image-contract.ts:108-109 | a raw block starts exactly where the expression for its start tag matches, in any case, and the scan goes on behind the match |
| InlineImageRules.FirstCloseExact | apps/remote/server/inline-image-contract.ts:95-98 | and ends with the first match of its end tag |
| InlineImageRules.MarkerExact | apps/remote/server/inline-image-contract.ts:85-85 | a fence marker is at most three spaces and a maximal run of at least three ticks or tildes |
| InlineImageRules.FenceCloses | apps/remote/server/inline-image-contract.ts:86-90 | a fence is closed by a marker of its own character, at least as long, with nothing behind it |
| InlineImageRules.QuotesDropped | apps/remote/server/inline-image-contract.ts:84-84 | quotation marks are dropped one after the other, each with the space behind it |
| InlineImageRules.ItemDropped | apps/remote/server/inline-image-contract.ts:84-84 | a list marker is dropped with the space behind it, and only then |
| InlineImageRules.LinesEnd | apps/remote/server/inline-image-contract.ts:80-80 | lines end after each line feed |
| InlineImageTags.ParseInlineImageTags | apps/remote/server/inline-image-contract.ts:72-147 | the loop over the lines in place |
| InlineImageTags.ParseLine | apps/remote/server/inline-image-contract.ts:93-143 | the loop over the positions of a line in place |
| UriText.DecodeEncode | apps/remote/server/message-protocol.ts:43-53 | percent-decoding undoes percent-encoding |
| UriText.EncodesWellFormed | apps/remote/server/message-protocol.ts:47-47 | exactly the texts without lone surrogates can be encoded |
| UriText.EncodedUnits | apps/remote/server/message-protocol.ts:47-47 | encoded text holds only unreserved characters and escapes |
| UriText.EscapesAreCanonical | apps/remote/server/message-protocol.ts:52-52 | an escape is read only in its shortest form, of a scalar value |
| UriText.BytesAreUtf8 | packages/runtime/bounded-summary.js:36-42 | the byte length of a text is the number of its UTF-8 octets, a lone surrogate counting as the replacement character |
| UriText.SplitJoin | apps/remote/server/message-protocol.ts:47-52 | splitting at `/` undoes joining parts that hold none |
| MessageReferences.ParsingUndoesPrinting | apps/remote/server/message-protocol.ts:43-58 | a reference is printed for exactly the well-formed targets, and parses back to its target, without the Slack thread, exactly if no part is empty or holds a control character |
| MessageReferences.ReferencesAreUnique | apps/remote/server/message-protocol.ts:43-48 | different targets have different references |
| MessageReferences.PrintedForms | apps/remote/server/message-protocol.ts:43-48 | the printed form of each kind of target, part by part |
| MessageReferences.ParsesOnly | apps/remote/server/message-protocol.ts:50-58 | a text parses to a target exactly if its decoded parts are those of the target, none empty or with a control character |
| ApiRoutes.MatchUndoesPath | apps/remote/server/api.ts:8-31 | a path matches its own template with exactly its parameters, exactly if none is empty |
| ApiRoutes.PathNeedsItsParameters | apps/remote/server/api.ts:14-19 | a path can be built exactly if every parameter of the template is given and can be encoded |
| ApiRoutes.CapturesBack | apps/remote/server/api.ts:10-28 | the pattern captures the encoded parameters |
| ApiRoutes.CapturesAreTheReading | apps/remote/server/api.ts:20-28 | a path matches a template exactly if it is the fixed parts, in any case, with a non-empty text free of slashes for each parameter, and those texts are captured |
| ApiRoutes.EntriesDecode | apps/remote/server/api.ts:20-31 | a match fails as malformed exactly if a captured text does not decode |
| JsonText.ParsePrinted | apps/remote/server/message-replies.ts:20-28 | the parser reads back every printed value, with each `<` escaped |
| JsonText.NoLess | apps/remote/server/message-replies.ts:20-20 | the escaped text holds no `<` |
| MessageReplies.DecodingUndoesEncoding | apps/remote/server/message-replies.ts:17-32 | decoding gives back text and reply, whatever they contain, exactly if the envelope ends within 20,000 units, and otherwise the stored text |
| MessageReplies.DecodedIsValid | apps/remote/server/message-replies.ts:23-32 | a decoded reply is valid and the text left is the end of the stored one |
| StreamSessions.Keep | apps/remote/server/stream-sessions.ts:12-14 | the walk up ends even when parents run in a circle, adds only ancestors, and leaves the kept set closed under parents where sessions that share an id share their parent |
| StreamSessions.KeepCarried | apps/remote/server/stream-sessions.ts:15-17 | kept are the foreground, selected, working and recent sessions and only ancestors of them, exactly those where sessions that share an id share their parent |
| StreamSessions.StreamedSessions | apps/remote/server/stream-sessions.ts:9-23 | for any list the result is what the walks keep and the children of working sessions, in input order, sessions of one id together, nothing unrelated; where sessions that share an id share their parent it is exactly the chosen sessions, their ancestors and those children; the shortcut loses nothing |
| StreamSessions.SecondParentIsLost | apps/remote/server/stream-sessions.ts:12-17 | a list in which two carried sessions share an id, and the parent of the second does not come along |
| StreamSessions.ParentsAreCarried | apps/remote/server/stream-sessions.ts:9-23 | every chosen session comes with its parent, where that is known and sessions that share an id share their parent |
| StreamSessions.TableHasTheLast | apps/remote/server/stream-sessions.ts:10-10 | of several sessions with one id the table has the last |
| PeerDirectory.ReadPeerAncestors | apps/remote/server/peer-directory.ts:35-53 | the worklist is the given threads and behind them, once each, the parents that were neither there nor local, as the cache of archived threads or else the directory has them; success means every parent is absent, local or there, a refusal for size more than 10,000 records, and a failure that the last call was for a parent that was not given |
| PeerDirectory.LastGivenCounts | apps/remote/server/peer-directory.ts:37-37 | of the threads given under one id the last counts |
| PeerDirectory.Advance | apps/remote/server/peer-directory.ts:39-51 | one turn of the worklist |

## Left out

- InlineImageProtocol.ConcurrencyCap: the cap on running tasks is false when a thread is deleted and its key claimed again, because `active` is keyed by session and image id; `InlineImageRuns.ReusedThreadOverbooks` is such a run, and `ClaimKeepsCapIff` says exactly which claims keep the cap.
- InlineImageHistory.ThreadHistory: says nothing of conflict marks, and needs that no recovery holds rows of a former life of the thread, because `start` writes rows that it read before its awaits; `InlineImageRuns.RecoveryLosesMark` and `InlineImageRuns.RecoveryOverwritesNewLife` are runs of one process in which it erases a mark and overwrites a new definition, and `RecoveryHistory` and `MarkSurvivesIff` say exactly when it does not.
- InlineImageProtocol.AnswersItsOwnPrompt: that a complete row answers its own prompt is false when a thread comes back under its id, because attempts are keyed by session and image id; `InlineImageRuns.AnswersAnotherPrompt` is such a run, and `InlineImageAnswers.AnswersItsOwnIffClear` is the exact condition at the claim.
- Inline images: two session ids with the same directory hash, error texts, timestamps, the size limits of inputs and the integrity checks of a receipt are not modelled; a receipt is there or it is not.
- BoundedSummary.Summarizer.Summarize: messages of any other shape than one user text pass through unchanged and are not modelled; the fixed English wording of prompts is a parameter that only has to begin its concise suffix with a line break.
- CalendarRecurrence.WindowIsComplete: zones are assumed to keep local and UTC dates within a day of each other and one day of slack at transitions, which UTC does (`UtcIsReasonable`) and a zone whose clocks go forward as well (`GapIsReasonable`); instants are milliseconds and value strings are canonical.
- CalendarEdits.CalendarStore.HandleChange: validation of event fields is a parameter, and the journal, feeds, subscriptions and settings are not part of this model.
- StreamingRecognition: samples are reals, and the spectrum, encoder, decoder and vocabulary are parameters, so floating-point rounding and the trimming of the result text are not modelled.
- ToolSchema.Widens: `$ref`, and keywords outside type, enumeration of branches, negation, properties, items and numeric bounds, are decided by a parameter and must be left untouched; a `oneOf` must be left untouched or have branches of different types, because otherwise it can come to accept fewer values, as `OneOfMayNarrow` shows.
- ToolSchema.CollectFields: a union keyword that is no array is read as empty, where the source would throw.
- PhoneBroker: device details, last-seen times, overlay replies, journal texts and the HTTP routes are not part of this model.
- KeyCustody: sealing and key derivation are ideal, keys are compared as text, and user names are assumed not to be names of `Object.prototype` members.
- KeyCustody.KeysAreNeverReplaced: an enrolment can still be lost (not replaced) by a write that fails after its rename, as `LateWriteIsForgotten` states.
- PromptAdmissions.ResponseIsFinal: with two processes on one database the first response need not be final, as `OverlappingProcessesOverwrite` shows; `FinalIffQuiet` is the exact condition. Validation of the submitted body is a parameter.
- Rooms: change feeds, delivery retries, status texts, snapshots for clients, display names, rooms of other owners and the migration of old databases are not part of this model; room ids have a fixed length, so that receipts are records.
- InlineImageTags.ParseLine: the attributes of a tag, their entities and the checks on ids, prompts and references are a function of the tag's text and are not modelled.
- ApiRoutes.MatchUndoesPath: query strings are not modelled; a parameter must end at a `/` or at the end, as in every template of the interface.
- MessageReplies.DecodingUndoesEncoding: number tokens stand for numbers, and that a printed number reads back as the same number is assumed.
- StreamSessions.StreamedSessions: ancestors are promised only where sessions that share an id share their parent, as `SecondParentIsLost` shows.
- PeerDirectory.ReadPeerAncestors: the paged listing of live threads before it is not modelled.
- HTTP plumbing, proxying, notifications, usage figures, configuration and the user interface are left out: they would add only easy members.
