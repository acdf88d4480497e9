# ArqUX verification

A Dafny model of five stateful or textual cores of ArqUX, with proofs of what they promise.

* **CORTEX codec** (`Attrs`, `Cortex*`): the attributes printer and scanner, the document printer and the hand-written
  line reader, and strict normalisation.
* **Timelog** (`Timelog*`, `Projection*`): the text of a session's timelog and its searching field reader, the
  revisioned file with its mutations, totals over intervals, and the projection protocol with its crash points.
* **Sessions, conversation and host broker** (`Session*`, `HostBridge`): identity and intervals of sessions, the ordered
  idempotent log with its turns, and the request broker.
* **Locks, ids and pulses** (`FileLock`, `FileRuns`, `BlueprintIds`, `Pulse*`): the re-entrant cross-process lock,
  blueprint ids, append-only evidence and its compaction.
* **Document surgery** (`Dom*`, `EntrySurgery`, `GateBlock`): merging duplicate records, list surgery
  on sections, and the gate block of a blueprint.

Code that works on fields or in loops is modelled by classes and methods, each proved against a function of its inputs
or of the old state; the laws are lemmas about those functions. The modules named `*Effects`, with `PulsePlans` and
`TextLaws`, tell what each operation does in the fields of its result, without naming the function that computes it. A protocol is a step relation in which every body under
a lock or condition variable is one step, and its results hold for every run, whatever interleaves. Strings are
sequences of characters; clocks, fresh ids and failing writes are parameters of the steps.

`dafny verify dfyconfig.toml` checks the project.

## Findings

Properties one might expect that the code does not have, each with the input and, where it has one, the exact condition.

* A request that timed out in the queue is claimed again by a later poll (`HostBridge.FailedReclaimed`); it leaves its
  failed state in no other way (`HostBridge.FailedLeavesByPoll`).
* Two resumes that both look before either takes the lock open a session twice (`SessionRuns.RacingResumesDoubleOpen`);
  a re-opening keeps sessions exclusive exactly when no other one is open (`SessionRuns.ReopenExcludesIff`).
* The timelog's field reader searches the attribute text, so a value that ends like the start of a field, such as the
  correction reason `fix revision:` or the destination `x remote:`, hides that field. The exact conditions are
  `TimelogRoundTrip.TimelogReadsBack` for a document, `TimelogMimics.ReviewReadsBack` for a correction and
  `TimelogMimics.DestinationReads` for a receipt. Where they fail, a stamp repeats on another start
  (`TimelogMimics.RepeatedReviewRepeatsStamp`), a confirmed receipt names no remote entry
  (`ProjectionRuns.MimickedDestination`), and recording a receipt changes the batch of the same selection
  (`ProjectionRuns.MimickedStampMovesBatch`; the exact condition is `Projection.ReceiptKeepsBatch`). The results over runs therefore ask for fit texts, which a caller can check
  before the call (`TimelogSafe.Harmless`).
* A correction's start, end and state are written as they are given; a start with a quote is cut at it
  (`TimelogMimics.QuotedStartIsCut`).
* `ensure_timelog` trusts the `suppressed` flag of the record it is given. A caller with a record read before a purge
  brings the file back at revision 1, and stamps repeat from there (`TimelogLimits.RevivalRepeatsStamps`). The one
  caller in the repository (`session_identity.py:305`) passes a fresh id and record, so this takes another caller of the
  public function.
* Pruning works on the physical lines of the whole brain. A pulse whose evidence breaks its line is only partly removed,
  and a line of any other text that starts like a selected pulse goes with it (`PulseText.PrunePartitions` is the exact
  condition; `PulseText.ForgedLineIsLost`, `PulseText.ResidueStays`). An empty id would take every line without one
  (`PulseText.EmptyIdTakesAll`).
  Other breaks that `splitlines` knows, such as a form feed, are rewritten as line feeds in what is kept
  (`PulseFile.PrunePartitionsText`, `PulseFile.BrokenPulseIsRewritten`).
* The pattern for pulse ids also matches before one final line break. A call with such an id is accepted, and no reader
  finds the pulse (`PulseFile.BrokenIdIsIgnored`, `PulseRuns.BrokenIdStoresNothing`); `PulseRuns.EvidenceAccumulates` is
  the exact condition for the pulses to grow by every accepted call.
* A caller-chosen pulse id beside a legacy event with the same digits shares its stored name, and a prune takes both
  (`PulseRuns.LegacyCollision`, `PulseRuns.LegacyTwins`).
* Deduplication gives a best-ranked record with a prose body attributes as well; the writer refuses such an entry, and
  the duplicates stay while the report still counts them as removed (`DomRepair.ProseStays`). A losing record's body is
  dropped (`DomRepair.LosingBodyIsDropped`).
* The reader strips the first line of a printed record, so a project name over a line break can come back as the name of
  another project: the repaired file then still has a duplicate, and the repair is not idempotent
  (`DomLimits.SplitNameStays`, with the projects of `DomLimits.BrokenNameIsSplit`). `DomReread.RepairLeavesNone` and
  `DomReread.RepairTwice` give the exact conditions on the file as it is read again, for documents whose printable
  entries are read back whole. They hold whenever no project name goes over a line break (`DomReread.RepairSettles`).
* A one-line prose record is read up to the brace that ends its line, but is printed on lines of its own and then read by
  counting braces. With a brace left open, such as `a { b`, the repair loses the workspace behind it
  (`DomLimits.ProseIsRead`, `DomLimits.SwallowedWorkspace`, `DomSwallow.OpenBodySwallows`).
* A prose body that looks like `key:value` pairs, or that the brace scanner closes early, is not read back
  (`CortexRoundTrip.BodyRoundTrip` is the exact condition).
* A nested read-modify-write under the re-entrant lock is overwritten by the outer one (`FileRuns.NestedCommitIsLost`),
  and a removed blueprint file frees its id (`BlueprintIds.RemovedIsGivenAgain`).
* A gate key that starts with whitespace is appended again on every write (`GateBlock.WriteTwiceIff`).
* The documentation of the totals says that a timestamp without a zone is only flagged; the code counts it, and so does
  the model.

## Model

| member | source | states |
|---|---|---|
| `Attrs.UnescapeEscape` | src/arqux/formats.py:405-470 | Undoing the two-pass escape with the two-pass unescape gives back every string, whatever runs of backslashes and quotes it holds. |
| `Attrs.SerialiseAttrs` | src/arqux/formats.py:405-425 | The printing loop, tied to the text that the scanner laws are about. |
| `Attrs.ParseAttrs` | src/arqux/formats.py:428-470 | The index-driven scanning loop, tied to the pairs found at the front of the text one after the other; it ends on every text. |
| `Attrs.ScanSerialised` | src/arqux/formats.py:405-470 | Scanning printed attributes gives back every attribute with a value, in order, for delimiter-free distinct keys and bool, int, plain float or any string values. |
| `CortexReader.IsEscaped` | src/arqux/cortex/reader.py:77-84 | A quote is escaped exactly when the run of backslashes before it is odd. |
| `CortexReader.EscapedIsForward` | src/arqux/cortex/reader.py:77-84 | Counting backwards from a quote agrees with scanning escapes forwards from the start of the line. |
| `CortexReader.BalancedQuotes` | src/arqux/cortex/reader.py:87-89 | The parity of unescaped quotes tells whether the text ends inside a string. |
| `CortexReader.ScanLine` | src/arqux/cortex/reader.py:224-241 | One line of the brace scanner: depth and string state, and where the entry closes. |
| `CortexReader.Collect` | src/arqux/cortex/reader.py:216-242 | The lines taken for a multi-line entry and how many they are. |
| `CortexReader.ParseAttrsFallback` | src/arqux/cortex/reader.py:287-307 | The attributes decoder, none for a body that is not attributes. |
| `CortexReader.ParseFallback` | src/arqux/cortex/reader.py:92-284 | The reading loop over all lines, equal to the recursive reader that the round trip is about. |
| `CortexWriter.WriteCortex` | src/arqux/cortex/writer.py:194-414 | The printer in strict and non-strict mode; no text exactly when the writer raises. |
| `CortexRoundTrip.BodyRoundTrip` | src/arqux/cortex/writer.py:91-109 | A prose body is read back as itself, with its closing line and nothing more consumed, if and only if the brace scanner closes where the writer closed, the body neither starts nor ends with a line break, and no `key:value` pair is found in it. |
| `CortexRoundTrip.ReadEntry` | src/arqux/cortex/reader.py:180-253 | Any readable entry, on one line or several, is read back whole wherever it stands in a section. |
| `CortexDocument.DocumentRoundTrip` | src/arqux/cortex/writer.py:235-414 | Reading what the non-strict writer prints gives the same comments, non-declaration symbols, section ids, titles, section comments and entries, in order. |
| `CortexStrictEffects.DocumentBackSays` | src/arqux/cortex/writer.py:235-414 | What is read back, part by part: the same comments, the glossary without one-line declarations, and each section with its id, title, comments and entries, each entry with its sigil, name, body or valued attributes, in order; only the first string of several lines may lose blanks before its first line break. |
| `CortexStrict.StrictCovers` | src/arqux/cortex/writer.py:243-341 | Every sigil used in the emitted sections is declared in the emitted glossary. |
| `CortexStrict.StrictFresh` | src/arqux/cortex/writer.py:179-191 | Generated declarations are declarations, repeat no sigil already declared, and none twice. |
| `CortexStrict.StrictConserves` | src/arqux/cortex/writer.py:295-341 | The entries of the emitted sections are, as a multiset, those of the document and the moved glossary data. |
| `CortexStrictRoundTrip.StrictRoundTrip` | src/arqux/cortex/writer.py:194-414 | Reading what the strict writer prints, with its format line, generated declarations and merged metadata, gives the normalised document: comments, glossary bodies, and the merged sections with every entry, in order. |
| `CortexStrict.StrictMetadata` | src/arqux/cortex/writer.py:305-341 | After the merge no `$0.1` is left, and exactly how many `$19` sections there are. |
| `CortexStrictEffects.MetadataMerges` | src/arqux/cortex/writer.py:302-323 | The first `$0.1` becomes `$19` in its place, with its comments, its entries and those of every later `$0.1` and `$19`; every other section stays as it is, in order. |
| `CortexStrictEffects.MigrationSays` | src/arqux/cortex/writer.py:288-300 | Migrated glossary data stands in front, in a section of its own under the number after the largest. |
| `CortexStrictEffects.MovedFilters` | src/arqux/cortex/writer.py:243-261 | What moves out of the glossary is exactly the attributes entries without the keys of a declaration, other than `GSIG` symbols, in order. |
| `CortexStrictEffects.KeptFilters` | src/arqux/cortex/writer.py:243-261 | Everything else stays in order, unchanged but for `GSIG` symbols, which become declarations of what they name or go when they name nothing. |
| `CortexStrictEffects.GeneratedSays` | src/arqux/cortex/writer.py:179-191 | One declaration for each sigil in use that has none, in order, made from the entries of that sigil. |
| `CortexStrictEffects.KnownDeclared` | src/arqux/cortex/writer.py:112-176 | What the sigil cache knows goes into the declaration, with the defaults for what it does not. |
| `CortexStrictEffects.FieldsDeclared` | src/arqux/cortex/writer.py:144-176 | The cached fields are declared by the names before their colons, each of any type, and the first is the focus. |
| `TimelogTotals.UnionSeconds` | src/arqux/timelog_control.py:115-162 | The closed total is the number of instants covered by some eligible closed block; the merged list is sorted and disjoint, covers exactly those instants, and its length plus the overlaps is the interval count. |
| `TimelogTotals.ClosedOrderFree` | src/arqux/timelog_control.py:115-162 | The total does not depend on the order of the blocks. |
| `TimelogTotals.ClosedMonotone` | src/arqux/timelog_control.py:115-162 | More blocks never lower the total. |
| `TimelogTotals.ClosedSubadditive` | src/arqux/timelog_control.py:115-162 | Two collections together never count more than apart, and exactly as much when their instants are disjoint. |
| `TimelogTotals.Summary` | src/arqux/timelog_control.py:262-318 | Exactly the sessions with a selected block are listed, in order, each with the blocks selected from its own log; each session total and the overall total are such measures, and the overall total is at least each of them and at most their sum. |
| `TimelogTotals.ListedFilters` | src/arqux/timelog_control.py:262-318 | The listed sessions are those with a selected block, each once and in order. |
| `HostBridge.HostSessionBridge.RegisterSession` | src/arqux/host_bridge.py:50-67 | Registers, accepts the same session again, or refuses; the whole new state. |
| `HostBridge.HostSessionBridge.Detach` | src/arqux/host_bridge.py:69-80 | Cancels every pending request, empties the queue and forgets the session. |
| `HostBridge.HostSessionBridge.SubmitInput` | src/arqux/host_bridge.py:82-109 | Queues a request and waits for the first time. |
| `HostBridge.HostSessionBridge.Wake` | src/arqux/host_bridge.py:96-109 | One return of the wait: an answer, a failure, a timeout or more waiting. |
| `HostBridge.HostSessionBridge.Poll` | src/arqux/host_bridge.py:111-127 | Hands out the id at the head of the queue with the event of that request, claims it, and touches no other. |
| `HostBridge.HostSessionBridge.Complete` | src/arqux/host_bridge.py:129-139 | Completes a claimed request with its non-empty chunks, and refuses any other. |
| `HostBridge.StepKeeps` | src/arqux/host_bridge.py:50-139 | Every body under the condition variable keeps the broker invariant. |
| `HostBridge.BrokerSafety` | src/arqux/host_bridge.py:50-139 | In every run requests are handed out in the order they were submitted, each at most once, and completed at most once; all queued or claimed requests belong to the registered session. |
| `HostBridge.NothingLost` | src/arqux/host_bridge.py:82-127 | While nobody detaches, what was handed out followed by the queue is exactly what was submitted. |
| `HostBridge.StepAbsorbing` | src/arqux/host_bridge.py:69-139 | Completed and cancelled requests never change again. |
| `HostBridge.FailedLeavesByPoll` | src/arqux/host_bridge.py:121-123 | A timed-out request leaves its state if and only if a poll takes it from the head of the queue, and then nobody waits for it. |
| `HostBridge.FailedReclaimed` | src/arqux/host_bridge.py:96-127 | A run in which a timed-out request is claimed again. |
| `HostBridge.CompleteDelivers` | src/arqux/host_bridge.py:129-139 | A completion accepted while the submitter waits decides its answer. |
| `HostBridge.DeliveredForever` | src/arqux/host_bridge.py:96-109 | From then on, whatever interleaves, the submitter returns exactly those non-empty chunks and never a timeout. |
| `HostBridge.HandsOutWhatWasBrought` | src/arqux/host_bridge.py:82-127 | In every run an event that is handed out under an id is the event that was submitted under that id. |
| `HostBridge.EventForever` | src/arqux/host_bridge.py:82-139 | A request keeps its event for ever. |
| `HostBridgeEffects.RegisterSays` | src/arqux/host_bridge.py:50-67 | Accepted if and only if no required field is missing or empty and no other session is there; the session is then exactly the required fields. |
| `HostBridgeEffects.SubmitSays` | src/arqux/host_bridge.py:82-109 | A submission to the registered session is queued last with its own event and touches no other request. |
| `HostBridgeEffects.WakeSays` | src/arqux/host_bridge.py:96-109 | What a waiting submitter gets in each state of its request, and that only a timeout changes anything. |
| `HostBridgeEffects.PollSays` | src/arqux/host_bridge.py:111-127 | A poll hands out the head of the queue with the event of that request and claims that request only. |
| `HostBridgeEffects.DetachSays` | src/arqux/host_bridge.py:69-80 | A detachment cancels exactly what was queued or claimed and changes no event and no chunk. |
| `HostBridgeEffects.CompleteSays` | src/arqux/host_bridge.py:129-139 | The chunks stored are the non-empty ones, in order, in the completed request only. |
| `SessionBus.CanonicalEventLog.constructor` | src/arqux/session_bus.py:45-56 | Replaying the file gives the same events and indexes. |
| `SessionBus.CanonicalEventLog.Append` | src/arqux/session_bus.py:58-80 | Appends an event with the next sequence of its session, or refuses and changes nothing. |
| `SessionBus.CanonicalEventLog.FindIdempotency` | src/arqux/session_bus.py:93-98 | The stored event with the key, if there is one. |
| `SessionBus.SessionBus.AcceptInput` | src/arqux/session_bus.py:205-262 | The input side of a turn: replay, refusal, or the appended input. |
| `SessionBus.SessionBus.StreamOutputs` | src/arqux/session_bus.py:205-262 | The output side: the events appended say exactly the non-empty chunks, in order, or a prefix of them up to a refusal. |
| `SessionBus.SessionBus.PublishOutput` | src/arqux/session_bus.py:264-286 | An outside publication is appended under the bus lock. |
| `SessionBus.SessionBus.AttachVoice` | src/arqux/session_bus.py:178-193 | The lease is granted, refreshed or refused. |
| `SessionBusRuns.StepKeeps` | src/arqux/session_bus.py:205-313 | Every atomic step of the bus keeps its invariant. |
| `SessionBusRuns.NeverConflicts` | src/arqux/session_bus.py:58-80 | The bus never offers the log an event with a wrong sequence: a refusal is a repeated id or key. |
| `SessionBusRuns.SequencesHaveNoGap` | src/arqux/session_bus.py:58-80 | In every run each session carries 1 to n without a gap and its next sequence is n plus one, rejected appends included. |
| `SessionBusRuns.TurnsUninterrupted` | src/arqux/session_bus.py:205-286 | Between an input and the outputs of its own turn no other input appears, whatever is published or cancelled meanwhile. |
| `SessionBusRuns.LogGrows` | src/arqux/session_bus.py:45-80 | The log and the adapter calls only grow, across restarts too. |
| `SessionBusRuns.OneCallPerKey` | src/arqux/session_bus.py:220-262 | Over any run with adapter failures and restarts a key reaches an adapter at most once. |
| `SessionBusRuns.Resubmission` | src/arqux/session_bus.py:220-235 | Resubmitting the key of an earlier turn changes nothing and returns its input and outputs, if and only if no event published outside the turn names the input. |
| `SessionBus.SubmitSays` | src/arqux/session_bus.py:205-262 | An accepted input is one more event with the text, origin, turn, modality and metadata of the request. |
| `SessionBus.StreamSays` | src/arqux/session_bus.py:205-262 | The outputs of a turn that nobody interrupts say exactly the non-empty chunks, in order, in the turn and modality of the input; a refusal leaves those of a prefix. |
| `SessionBusRuns.TurnsSay` | src/arqux/session_bus.py:205-286 | In every run the input of a turn says what was submitted, and each of its outputs says the chunk it was published for, in the turn and modality of the input. |
| `SessionBusEffects.VerdictSays` | src/arqux/session_bus.py:58-80 | An event is stored if and only if its id is new, its key is new if it has one, and its sequence follows that of a last event of its session. |
| `SessionBusEffects.ReplaySays` | src/arqux/session_bus.py:220-235 | A repeated key gives the first event with it and every event of the session that names that one, in order, and changes nothing. |
| `SessionBusEffects.ServedIff` | src/arqux/session_bus.py:205-235 | A text of a known modality is served if and only if the session, the lease with its nonce and time, and the adapter are there. |
| `SessionBusEffects.RegisterSays` | src/arqux/session_bus.py:128-166 | Who may register, and the session and adapter there are afterwards. |
| `SessionBusEffects.AttachSays` | src/arqux/session_bus.py:178-193 | A live lease goes only to its owner and stays as it was; otherwise the caller gets a new one. |
| `SessionBusEffects.DetachSays` | src/arqux/session_bus.py:195-203 | The lease goes if and only if the caller knows its nonce or names none. |
| `FileLock.MutualExclusion` | src/arqux/concurrency.py:45-158 | At most one thread of all processes has a frame in its body. |
| `FileLock.NestedPlainBlocks` | src/arqux/concurrency.py:45-117 | A plain lock taken under a frame of the same thread can never be acquired. |
| `FileLock.Acquire` | src/arqux/concurrency.py:45-117 | The attempt loop acquires at the first free attempt, unless a failure before it is past the deadline. |
| `FileRuns.OneInside` | src/arqux/concurrency.py:119-158 | In every run, with timeouts, exceptions and crashes, at most one thread is inside. |
| `FileRuns.BooksAgree` | src/arqux/concurrency.py:119-158 | In every run depth, RLock owner and count, and the flock agree with the active frames. |
| `FileRuns.CurrentIffLeaf` | src/arqux/concurrency.py:119-158 | What a body has read is still the file if and only if its own thread made no nested commit since. |
| `FileRuns.NoLostUpdate` | src/arqux/concurrency.py:119-158 | When no body commits after a nested commit of its own, all changes compose in the order of the commits. |
| `FileRuns.NestedCommitIsLost` | src/arqux/concurrency.py:119-158 | A run in which the outer body of a nested commit replaces the nested change. |
| `LockEffects.BodyCommits` | src/arqux/concurrency.py:45-158 | Whenever the locks are free a thread can enter, read, write and leave; its change is applied to what the file holds and is the last commit, and the books of every thread and process are as they were. |
| `LockEffects.CommitsAreWrites` | src/arqux/concurrency.py:119-158 | In every run the commits are exactly the writes that were made, each with its thread and change, in order. |
| `LockEffects.TimeoutLeavesNoTrace` | src/arqux/concurrency.py:45-158 | An entry that times out leaves the books of every thread and process as they were. |
| `LockEffects.TryShows` | src/arqux/concurrency.py:45-117 | An attempt takes the flock if and only if nobody has it, and otherwise changes nothing. |
| `LockEffects.CrashShows` | src/arqux/concurrency.py:45-158 | A crash takes everything of one process and nothing of any other. |
| `BlueprintIds.BlueprintDir.NextBlueprintId` | src/arqux/concurrency.py:164-196 | Reserves the id after the largest number in use and overwrites no file. |
| `BlueprintIds.NextIsFresh` | src/arqux/concurrency.py:164-196 | The reserved name is in no listing. |
| `BlueprintIds.NextIsOneMore` | src/arqux/concurrency.py:164-196 | The next number is above that of every blueprint file, by one above some, and 1 when there is none. |
| `BlueprintIds.NumberOfNamed` | src/arqux/concurrency.py:164-196 | A file named by the prefix, digits, and a rest that begins and ends with the suffix carries the number of those digits. |
| `BlueprintIds.IdsAreUnique` | src/arqux/concurrency.py:164-196 | Over every interleaving no two allocations get the same id, while no blueprint file is removed. |
| `BlueprintIds.RemovedIsGivenAgain` | src/arqux/concurrency.py:164-196 | A run in which an id is reserved, its file is removed, and the next reservation returns the same id. |
| `TimelogModel.EntryNames` | src/arqux/timelog_store.py:198-204 | Entry names are names, and a text is left alone if and only if it is one. |
| `TextLaws.EntryNameSays` | src/arqux/timelog_store.py:198-204 | The name is the reference with every other character an underscore, without the dots and underscores around it, or `op`. |
| `TextLaws.CleanSays` | src/arqux/timelog_store.py:126-128 | A cleaned text is the text without the whitespace around it, quotes made single and line breaks made blanks in place. |
| `TimelogFields.FieldSearch` | src/arqux/timelog_store.py:130-133 | What the searching field reader returns for every list of quote-free fields and every key. |
| `TimelogFields.QuietReaches` | src/arqux/timelog_store.py:130-133 | With nothing before it that ends like the start of the field, the search lands on the field. |
| `TimelogFields.MimicHides` | src/arqux/timelog_store.py:130-133 | A value in any position but the last that ends like the start of a later or absent field hides it: the search returns the text between that value and the next. |
| `TimelogFields.FoundIffUnhidden` | src/arqux/timelog_store.py:130-133 | The search returns the value of the field if and only if the field is not hidden. |
| `TimelogStable.Serialize` | src/arqux/timelog_store.py:136-195 | The printing loops, with the tables sorted by key. |
| `TimelogStable.ParseTimelog` | src/arqux/timelog_store.py:207-264 | The parsing loop; none exactly for an entry line without its braces. |
| `TimelogRoundTrip.BlockReads` | src/arqux/timelog_store.py:136-195 | A printed block is read back in normal form if and only if its fields are legible. |
| `TimelogRoundTrip.TimelogReadsBack` | src/arqux/timelog_store.py:136-264 | For names and quote-free one-line values, parsing a serialised document gives its normal form if and only if no value hides a field that is read. |
| `TimelogStable.BodyInjective` | src/arqux/timelog_store.py:136-195 | A printed attribute body determines its fields. |
| `TimelogStable.NormalIsNormal` | src/arqux/timelog_store.py:136-264 | The normal form of a normal form is itself. |
| `TimelogStable.SameTextIffSettled` | src/arqux/timelog_store.py:136-264 | Serialising the normal form gives the same text if and only if no default is missing and no note or authorization is cleaned away. |
| `TimelogStore.TimelogFile.Ensure` | src/arqux/timelog_store.py:295-338 | Creates the text at revision 1, unless suppressed or present. |
| `TimelogStore.TimelogFile.Update` | src/arqux/timelog_store.py:365-408 | Parses the file, checks membership and revision, mutates, and writes the next revision; otherwise the text is unchanged and the reply says why. What each mutation does is told field by field in `TimelogEffects`. |
| `TimelogStore.TimelogFile.ReviewBlock` | src/arqux/timelog_control.py:337-362 | The correction: block, receipts and covering marks. |
| `TimelogStore.TimelogFile.TouchBlocks` | src/arqux/timelog_store.py:481-487 | Open blocks, and only they, get the activity mark. |
| `TimelogStore.TimelogFile.InvalidateBlocks` | src/arqux/timelog_store.py:510-516 | Blocks without an end, and only they, become unterminated. |
| `TimelogEffects.UpdateSays` | src/arqux/timelog_store.py:365-408 | An admitted call stores exactly the document it replies with, when it is applied; a failed write stores nothing and reports that document. |
| `TimelogEffects.DeleteSays` | src/arqux/timelog_control.py:421-433 | After an applied delete a block is there if and only if it was there and was not selected, and it is as it was; applied exactly for a selection that is not empty. |
| `TimelogEffects.FileGoesIffAllSelected` | src/arqux/timelog_control.py:421-443 | The caller of a delete sees no block, and removes the file, if and only if every block there was had been selected. |
| `TimelogEffects.ArchiveSays` | src/arqux/timelog_control.py:421-433 | An archive changes the state of the selected blocks and nothing else. |
| `TimelogEffects.SummarizeSays` | src/arqux/timelog_control.py:421-433 | A summary changes the state and the note of the selected blocks and nothing else. |
| `TimelogEffects.OpenSays` | src/arqux/timelog_store.py:411-435 | Opening adds one open block with the given start and the new stamp, unless it is there. |
| `TimelogEffects.CloseSays` | src/arqux/timelog_store.py:437-462 | Closing sets the end, state and stamp of one block that has no end; an unknown one is refused. |
| `TimelogEffects.TouchSays` | src/arqux/timelog_store.py:464-490 | A touch sets the last activity of the open blocks, and writes if and only if there is one. |
| `TimelogEffects.InvalidateSays` | src/arqux/timelog_store.py:503-519 | Invalidation sets the state of the blocks without an end, and writes if and only if there is one. |
| `TimelogEffects.ReviewSays` | src/arqux/timelog_control.py:337-362 | A correction sets exactly the given start, end and state of one block with reason, authorization and stamp; pending receipts and covering marks become stale, and nothing else changes; it writes if and only if a given value is another one. |
| `TimelogEffects.RecordSays` | src/arqux/timelog_projection.py:249-276 | A receipt and its mark are stored under their names; no block and no other receipt or mark changes. |
| `TimelogEffects.ReadBackSays` | src/arqux/timelog_store.py:136-264 | What is read of a written fit document, field by field: the same entries, cleaned, with the defaults. |
| `TimelogSafe.GoodReads` | src/arqux/timelog_store.py:136-264 | A numbered document of fit entries is read back in normal form. |
| `TimelogSafe.HarmlessKeeps` | src/arqux/timelog_store.py:411-519 | Every mutation whose texts are fit keeps the document fit. |
| `TimelogSafe.UpdateReads` | src/arqux/timelog_store.py:365-408 | On a fit file such a call changes nothing, or writes a text from which the next call reads exactly the intended document at the next revision. |
| `TimelogMimics.CorrectionReads` | src/arqux/timelog_control.py:337-362 | A corrected block of plain texts, none of which starts with a comma, is read back as written if and only if neither the reason nor the authorization ends like the start of a field printed after it. |
| `TimelogMimics.ReviewReadsBack` | src/arqux/timelog_control.py:321-377 | The same for the whole file: the correction is read back as meant if and only if the two texts are clear. |
| `TimelogMimics.QuotedStartIsCut` | src/arqux/timelog_control.py:342-345 | A corrected start that holds a quote is read back shorter than it was given. |
| `TimelogMimics.DestinationReads` | src/arqux/timelog_projection.py:249-276 | A receipt with one-word operation, status and state is read back as written if and only if its destination does not end like the start of the state or remote field. |
| `TimelogMimics.MimickedRemote` | src/arqux/timelog_projection.py:249-276 | With a destination that ends like the start of the remote field the remote is read as `,state:`. |
| `TimelogMimics.RepeatedReviewRepeatsStamp` | src/arqux/timelog_control.py:337-362 | On every fit file two corrections with a reason that ends like the start of the revision field leave the same stamp on two starts. |
| `TimelogMimics.TrailingKeyMimics` | src/arqux/timelog_store.py:126-133 | Any text followed by a blank, a field name and a colon is such a text, and cleaning keeps it. |
| `TimelogRuns.RunInv` | src/arqux/timelog_store.py:365-519 | In every run of fit calls the file can be read, and no stamp exceeds the revision. |
| `TimelogRuns.RevisionCountsWrites` | src/arqux/timelog_store.py:365-408 | The revision of the file counts exactly the applied writes. |
| `TimelogRuns.StampsIdentify` | src/arqux/timelog_store.py:365-519 | Two states that hold the same block id at the same stamp agree on its start and end, across purge and re-opening, while no stale caller revives the file. |
| `TimelogRuns.ExpectedRevisionOnce` | src/arqux/timelog_store.py:393-396 | Of the writers that expect one revision at most one is applied. |
| `TimelogRuns.GoneForGood` | src/arqux/timelog_control.py:452-478 | A purged file stays away unless a stale caller brings it back. |
| `TimelogLimits.RevivalRepeatsStamps` | src/arqux/timelog_store.py:295-338 | The condition of `StampsIdentify` is exact: after a stale revival, updates alone reach the same id and stamp with another start. |
| `Projection.SameStampsSameBatch` | src/arqux/timelog_projection.py:121-186 | Between two states of a run a selection with unchanged stamps keeps its batch identity under the same settings; `Projection.BatchIsExact` tells when two batches differ. |
| `Projection.BatchIsExact` | src/arqux/timelog_projection.py:155-186 | For known blocks two batches agree if and only if project, session, the ids and stamps of the blocks, their ordered contents, and every field of the settings agree. |
| `Projection.MarkCovers` | src/arqux/timelog_projection.py:225-276 | The mark of a batch covers exactly the blocks it was written for. |
| `Projection.ReceiptKeepsBatch` | src/arqux/timelog_projection.py:121-276 | A receipt write keeps the batch of a selection, as the next reader of the file finds it, if and only if the project text is clean, the session is not hidden, and every selected block was stamped and hides neither its stamp nor its end. |
| `ProjectionRuns.MimickedStampMovesBatch` | src/arqux/timelog_store.py:130-141 | A corrected block whose reason ends like the start of its stamp does not keep its part of the batch. |
| `Projection.LocalReferenceAdapter.Send` | src/arqux/timelog_projection.py:95-105 | A new key gets the next remote entry, a known key its own. |
| `Projection.RemotesDiffer` | src/arqux/timelog_projection.py:95-105 | Remote names determine their numbers. |
| `ProjectionRuns.StepKeeps` | src/arqux/timelog_projection.py:241-412 | Every step of every `project` call, other writes, lost answers and crashes keep the invariant. |
| `ProjectionRuns.OneRemotePerKey` | src/arqux/timelog_projection.py:95-105 | Once a key is sent its remote entry never changes, whatever is retried. |
| `ProjectionRuns.RemotesDistinct` | src/arqux/timelog_projection.py:95-105 | Different keys never share a remote entry. |
| `ProjectionRuns.ConfirmedIsHeld` | src/arqux/timelog_projection.py:241-412 | A receipt read as confirmed names the remote entry that the adapter holds for its key, then and ever after. |
| `ProjectionRuns.MimickedDestination` | src/arqux/timelog_projection.py:249-276 | With a mimicking destination the confirmed receipt names no entry of the adapter. |
| `ProjectionEffects.RecordIsRead` | src/arqux/timelog_projection.py:241-284 | On a fit timelog the receipt of a batch is read back with the state and remote that were recorded, and every other receipt as it was. |
| `ProjectionEffects.ConfirmedSendsNothing` | src/arqux/timelog_projection.py:370-375 | A send of a batch whose receipt reads confirmed writes nothing and dispatches nothing. |
| `ProjectionEffects.IntentFirst` | src/arqux/timelog_projection.py:392-399 | In every run a call dispatches a batch only after it wrote the intent. |
| `ProjectionEffects.SentFromDispatch` | src/arqux/timelog_projection.py:397-399 | The adapter gets a key only from a call that was about to dispatch it. |
| `ProjectionEffects.DispatchSays` | src/arqux/timelog_projection.py:95-105 | A dispatch adds at most the entry of its own batch, and its answer names the entry the adapter holds. |
| `ProjectionEffects.AnswerIsWritten` | src/arqux/timelog_projection.py:407-412 | After the answer the receipt reads confirmed with the name that was answered. |
| `ProjectionEffects.FailureIsWritten` | src/arqux/timelog_projection.py:400-405 | After a failed dispatch the receipt reads unknown. |
| `Pulse.PulseBrain.NextPulseEventId` | src/arqux/pulse.py:49-80 | The search ends, with the id after the largest number, which is not in use. |
| `Pulse.PulseBrain.AppendPulse` | src/arqux/pulse.py:114-171 | Appends under the id given or a fresh one, or refuses; an id with a final line break is accepted, and no pulse is found afterwards. |
| `Pulse.PulseBrain.RecordPulse` | src/arqux/pulse.py:83-111 | Allocates and appends in one section. |
| `Pulse.PulseBrain.Prune` | src/arqux/pulse.py:336-363 | On any pulses, the lines that declare no wanted id stay, the pulses are what the reader finds in them, and the number returned is that of the lines taken; with pulses of one line each these are the pulses not selected. |
| `Pulse.PulseBrain.CompactLocked` | src/arqux/pulse.py:483-528 | On any pulses: dry run, already compacted, too few, or lesson, prune and meta event. |
| `Pulse.CountKinds` | src/arqux/pulse.py:438-441 | The counting loop over the kinds. |
| `PulseText.PruneLines` | src/arqux/pulse.py:347-356 | The loop over the physical lines of the brain. |
| `PulseText.PrunePartitions` | src/arqux/pulse.py:336-363 | A prune takes exactly the selected pulses and leaves every other line, if and only if no other line of the file and no line of a kept pulse declares a selected id and every line of a selected pulse does. |
| `PulseFile.PrunePartitionsText` | src/arqux/pulse.py:336-363 | The text of the file after a prune is the one without the selected pulses, if and only if moreover nothing that is kept holds a line break other than the line feed. |
| `PulseFile.BrokenIdIsIgnored` | src/arqux/pulse.py:34-39 | A pulse under an id with a final line break is printed over lines of which the reader takes none for an entry. |
| `PulseText.KeptEvents` | src/arqux/pulse.py:188-239 | Of pulses on one line each, the kept lines read as the pulses that were not selected. |
| `PulseText.TameSeparable` | src/arqux/pulse.py:312-363 | A pulse whose values hold no line break meets that condition. |
| `PulseText.PrunedReads` | src/arqux/pulse.py:336-363 | Reading the pruned section back gives the pulses that were not selected, in order. |
| `PulseText.ForgedLineIsLost` | src/arqux/pulse.py:312-363 | A kept pulse with an evidence line that starts like a selected pulse loses that line. |
| `PulseText.ResidueStays` | src/arqux/pulse.py:312-363 | A selected pulse on several lines leaves every line that declares no selected id. |
| `PulseText.EmptyIdTakesAll` | src/arqux/pulse.py:307-356 | An empty id in a selection takes every line that declares none. |
| `PulseRuns.AppendIsFresh` | src/arqux/pulse.py:114-171 | Whatever id a caller brings, an accepted call stores a pulse under a canonical id that was not in use and changes no earlier one, or the id ended in a line break and the pulses are as they were; which of the two is decided exactly. |
| `PulseRuns.EvidenceAccumulates` | src/arqux/pulse.py:49-171 | Between compactions the pulses only grow, by one for each accepted call if and only if no accepted call brought an id with a final line break; such a call adds none. |
| `PulseRuns.BrokenIdStoresNothing` | src/arqux/pulse.py:34-39 | Such an id is accepted and stores no pulse. |
| `PulseRuns.CompactPartitions` | src/arqux/pulse.py:483-528 | A compaction takes its selected pulses, keeps all others in order and adds one meta event; it keeps every other line and counts exactly the selected pulses if and only if no other line declares a selected id. |
| `PulseRuns.CountsAddUp` | src/arqux/pulse.py:435-442 | The numbers in the lesson, kind by kind, add up to the number of pulses that left. |
| `PulseRuns.CompactedOnce` | src/arqux/pulse.py:483-510 | Of any number of concurrent compactors of a session at most one writes and prunes. |
| `PulseRuns.CompactionInRun` | src/arqux/pulse.py:424-528 | In every run a compaction prunes exactly the members its plan selected, and no session event; `PulsePlans.NoMemberSurvives` adds that it selected all of them. |
| `PulsePlans.PlanSelects` | src/arqux/pulse.py:366-429 | There is a plan if and only if the first session event with the id belongs to the session; it selects every pulse of the session among those read, but for session events and the close event, each once and in order, and nothing else. |
| `PulsePlans.NoMemberSurvives` | src/arqux/pulse.py:366-528 | In every run no pulse of the session that was there when the plan was made is left after the compaction, apart from session events and the close event. |
| `PulsePlans.CompactDecides` | src/arqux/pulse.py:483-528 | Which of the four answers a compactor gets, and that the brain changes only with the last, by one lesson. |
| `PulsePlans.LessonSays` | src/arqux/pulse.py:435-456 | The lesson names session and plan, counts its pulses, and for each kind the places that hold it. |
| `PulsePlans.AppendDecides` | src/arqux/pulse.py:114-171 | A call with a valid id and a kind is stored under that id if it is free, and otherwise under the number after the largest. |
| `PulseText.LegacyLineSays` | src/arqux/pulse.py:312-326 | A line of the older form declares the id behind its first `id=`. |
| `PulseRuns.LegacyTwins` | src/arqux/pulse.py:307-309 | Ids of the `E` family select each other if and only if their digits are written alike, whichever of the two spellings they have. |
| `PulseRuns.LegacyCollision` | src/arqux/pulse.py:153-160 | Beside a legacy event a caller-chosen id with the same digits is stored under the same name, and every prune takes both or neither. |
| `SessionIdentity.SessionStore.NextSessionId` | src/arqux/session_identity.py:148-153 | The id after the largest number in use. |
| `SessionIdentity.SessionStore.OpenSession` | src/arqux/session_identity.py:215-318 | Existing, refused or a new session, as `SessionIdentity.OpenEffect` decides. |
| `SessionIdentity.SessionStore.ReopenById` | src/arqux/session_identity.py:343-386 | Only the named session changes and every id and date stays; it is open and held by the caller, and its interval list gains one open interval; an unknown id changes nothing. |
| `SessionIdentity.SessionStore.Close` | src/arqux/session_identity.py:401-472 | Only the named session changes and every id and date stays; it is closed with its summary, and the last interval of its list is closed if it was open; an unknown id changes nothing. |
| `SessionIdentity.ReopenEffect` | src/arqux/session_identity.py:343-386 | For every list of sessions: re-opening leaves all others, every id and date; the named one gains one open interval and keeps its project and summary. |
| `SessionIdentity.CurrentIsLast` | src/arqux/session_identity.py:156-171 | The session found for an execution is the last open one of it, and there is one found if and only if there is such a session. |
| `SessionIdentity.OpenEffect` | src/arqux/session_identity.py:259-318 | An opening returns that session, or refuses with all open sessions, or adds one at the end with the fields of the request, under the number after the largest; which of the three is decided exactly. |
| `SessionIdentity.BindEffect` | src/arqux/session_identity.py:321-340 | Binding an open session anew changes its execution and agent, and scope and blueprint when given, and nothing else. |
| `SessionIdentity.CloseEffect` | src/arqux/session_identity.py:401-472 | For every list of sessions: closing leaves all others, every id and date; the named one has its last interval closed if it was open. |
| `SessionIdentity.ResumeThenClose` | src/arqux/session_identity.py:343-472 | Re-opening and then closing adds exactly one closed interval to the text. |
| `SessionIdentity.CloseRefines` | src/arqux/session_identity.py:389-398 | Closing the interval text closes the last interval of the list it spells, and only when it is open. |
| `SessionIdentity.ReopenRefines` | src/arqux/session_identity.py:343-386 | Re-opening the text adds one open interval to the list. |
| `SessionRuns.IdentityIsPermanent` | src/arqux/session_identity.py:148-386 | Ids strictly increase, and no id or original date ever changes. |
| `SessionRuns.IdsDiffer` | src/arqux/session_identity.py:148-153 | No id is used twice. |
| `SessionRuns.OpensExclude` | src/arqux/session_identity.py:259-318 | New opens and closes, however they interleave, never leave two sessions open. |
| `SessionRuns.ReopenExcludesIff` | src/arqux/session_identity.py:235-257 | A re-opening leaves at most one session open if and only if no other one was. |
| `SessionRuns.IntervalsStayTidy` | src/arqux/session_identity.py:343-472 | In sequential runs all intervals but the last are closed, and the last is open exactly while the session is. |
| `SessionRuns.RacingResumesDoubleOpen` | src/arqux/session_identity.py:235-257 | Two resumes that look before either acts leave two open intervals. |
| `DomDedupe.NormalizeTwice` | src/arqux/sync.py:311-318 | Normalising a name twice is normalising it once. |
| `DomEffects.NormalizeSays` | src/arqux/sync.py:311-318 | A normalised name is the stripped one with letters lowered and every other character an underscore, in place. |
| `DomEffects.IdentitySays` | src/arqux/sync.py:369-373 | A record is known by its declared name, and by its entry name when it declares none. |
| `DomEffects.BestIsBest` | src/arqux/sync.py:376-442 | The record that leads its group is named by the identity if any is; of those alike in that it has a path if any has; then the most values, the latest update, the first place. |
| `DomEffects.MergedSays` | src/arqux/sync.py:437-454 | What stands for a group has the identity as its name and, for each key, the value of the best record that has one. |
| `DomEffects.GroupSurvives` | src/arqux/sync.py:423-468 | Each group is in the result once, where its best record stood. |
| `DomEffects.IdentitiesStay` | src/arqux/sync.py:387-476 | No project is lost: every identity there was is there afterwards. |
| `DomDedupe.MergedAttribute` | src/arqux/sync.py:437-453 | The survivor of a group takes each attribute from the first entry in rank order that fills it. |
| `DomDedupe.RankedInOrder` | src/arqux/sync.py:376-442 | The ranking is by score, and by position among equals. |
| `DomDedupe.MergedIdentity` | src/arqux/sync.py:369-454 | Merging keeps the identity. |
| `DomDedupe.DedupeInOrder` | src/arqux/sync.py:461-468 | All entries outside duplicate groups stay unchanged, in order. |
| `DomDedupe.DedupeLeavesNone` | src/arqux/sync.py:423-468 | No two entries of the merged list share an identity. |
| `DomDedupe.DedupeTwice` | src/arqux/sync.py:387-476 | Merging a merged list changes nothing. |
| `DomDedupe.DedupeEntries` | src/arqux/sync.py:423-468 | The loops over groups and entries; what is reported as removed is what is missing, and whether some merged entry has both body and attributes. |
| `DomRepair.RepairDocument` | src/arqux/sync.py:387-476 | The whole repair: the text written, if any, and the report. |
| `DomReread.RepairLeavesNone` | src/arqux/sync.py:387-476 | What the file reads as after a repair has no duplicates if and only if it had none, or the best-ranked entry of every duplicate group is an attributes entry, every other entry can be printed, and dropping the whitespace before the first line break of an entry gives no two of them one identity. |
| `DomReread.RepairedFile` | src/arqux/sync.py:387-476 | After a write the file reads as the normalised document, and its workspace sections are the merged ones. |
| `DomReread.RepairSettles` | src/arqux/sync.py:387-476 | When no project name goes over a line break, that last condition always holds, and a second repair changes nothing. |
| `DomLimits.SplitNameStays` | src/arqux/cortex/reader.py:180-253 | Files, read back exactly from their own text, in which a name over a line break leaves a duplicate after the repair, which a second repair changes again. |
| `DomLimits.BrokenNameIsSplit` | src/arqux/sync.py:387-476 | Such a file: projects `a__b`, `o` and `a_b`, the second named `a`, blank, line break, `b`. |
| `DomSwallow.OpenBodySwallows` | src/arqux/cortex/reader.py:210-253 | A prose record whose braces stay open when it is printed takes every following section of one-line records with it. |
| `DomLimits.SwallowedWorkspace` | src/arqux/sync.py:387-476 | Repairing a file with the prose record `a { b` before the workspace leaves a file that reads without a workspace. |
| `DomLimits.ProseIsRead` | src/arqux/cortex/reader.py:180-208 | A one-line record with such prose is read up to the brace that ends the line, balanced or not. |
| `DomRepair.WritesIff` | src/arqux/cortex/writer.py:77-109 | A strict write succeeds if and only if every symbol and entry can be printed. |
| `DomRepair.ProseStays` | src/arqux/sync.py:442-476 | Two records `a` and `A` with prose bodies both stay in the file. |
| `DomRepair.LosingBodyIsDropped` | src/arqux/sync.py:448-468 | The body of an entry that loses its group reaches nothing. |
| `DomReread.RepairTwice` | src/arqux/sync.py:387-476 | After a repair that wrote, another writes nothing if and only if the trimmed records have no duplicates, or a group of them is led by a body. |
| `EntrySurgery.Doc.SelectEntries` | src/arqux/cortex/crud.py:156-189 | The entries a selector selects, in order. |
| `EntrySurgery.Doc.AddEntry` | src/arqux/cortex/crud.py:192-239 | Appends to the section, creating it only on request. |
| `EntrySurgery.Doc.DeleteEntry` | src/arqux/cortex/crud.py:305-329 | Leaves exactly the unmatched entries of the section and touches no other. |
| `EntrySurgery.Doc.MoveEntry` | src/arqux/cortex/crud.py:332-369 | Source becomes its unmatched entries, destination its own plus the matched ones; within one section object the matched ones come last. |
| `EntrySurgery.Doc.UpdateEntry` | src/arqux/cortex/crud.py:242-302 | Changes the matched entries of the section, or none. |
| `EntrySurgery.FilterConserves` | src/arqux/cortex/crud.py:121-134 | Matched and unmatched entries are, as a multiset, all of them. |
| `EntrySurgery.MatchesName` | src/arqux/cortex/crud.py:121-134 | A name before a star selects the entries whose name it begins, a name without one those of that name. |
| `EntrySurgery.FiltersKeepOrder` | src/arqux/cortex/crud.py:156-189 | Selecting and deleting keep the order: exactly the matched entries, and exactly the others, where they stood. |
| `EntrySurgery.UpdatedSays` | src/arqux/cortex/crud.py:242-302 | An update gives the named attributes their new values and leaves the others, or replaces or continues the text. |
| `EntrySurgery.PutKeepsKeys` | src/arqux/cortex/crud.py:278-283 | Setting an attribute keeps the keys in place and puts a new one last. |
| `EntrySurgery.UnmatchedSelectsNothing` | src/arqux/cortex/crud.py:305-329 | After a deletion the selector selects nothing. |
| `EntrySurgery.FiltersCommute` | src/arqux/cortex/crud.py:305-329 | Another selector selects of the rest what it selected before, less the deleted ones. |
| `EntrySurgery.UpdateKeepsShape` | src/arqux/cortex/crud.py:242-302 | An update changes payloads of matched entries only. |
| `EntrySurgery.UpdateSucceedsIff` | src/arqux/cortex/crud.py:242-302 | It succeeds if and only if the change suits every matched entry. |
| `GateBlock.WriteGateBlock` | src/arqux/sync.py:863-920 | The scanning and rewriting loops. |
| `GateBlock.BlockSays` | src/arqux/sync.py:873-876 | The block declares the key, has one line for each gate in order, with `true` for an open one, and is closed. |
| `GateBlock.ConsumedExactly` | src/arqux/sync.py:885-911 | Which lines a declaration takes: those the block goes on after, to the line that closes it or as long as there are such. |
| `GateBlock.OutsideIsKept` | src/arqux/sync.py:863-920 | Every line outside the block consumed is kept in order around the new block. |
| `GateBlock.RewriteTwice` | src/arqux/sync.py:863-920 | Rewriting the lines twice is rewriting them once, for a key that can be found. |
| `GateBlock.WriteTwiceIff` | src/arqux/sync.py:863-920 | For one-line keys and gate names, writing twice gives the same text if and only if the key does not start with whitespace. |

## Left out

- Pulse.PulseBrain.Prune: the pulses are what is read in the lines of the PULSE section; lines of a damaged pulse that would run into the sections after it are not followed there.
- PulseRuns.CompactionInRun: runs start from canonical, distinct ids and record texts without line breaks; legacy ids are covered by the two lemmas on their spelling.
- PulseRuns.CompactedOnce: compactors name a session by a reference of letters, digits, underscores and hyphens. Without a reference the code plans by position, and its lookup of the lesson finds none for a reference with blanks or slashes.
- PulseFile.PrunePartitionsText: the text is the one that Python reads, in which carriage returns are already line feeds.
- DomReread.RepairLeavesNone: speaks of documents whose printable entries are read back whole and of a sigil cache whose names can stand in a declaration; what an unclosed body does otherwise is `DomSwallow.OpenBodySwallows`.
- SessionIdentity.SessionStore.ReopenById: entries that share one id are updated each from its own fields, where the code takes those of the first; ids are distinct in every run (`SessionRuns.IdsDiffer`).
- SessionIdentity.OpenEffect: the open sessions that a refusal names are in the order of the list, where the code sorts them by the text of their ids; resuming is `SessionIdentity.BindEffect` or `SessionIdentity.ReopenEffect`.
- TimelogSafe.Harmless: sufficient for stamps to identify, not exact; a reason that mimics only the authorization or the last activity is left out of the runs although stamps stay identifying.
- TimelogRuns.StampsIdentify: runs are those of calls with fit texts, from a fit file; single calls with other texts are covered by the if-and-only-if lemmas.
- ProjectionRuns.ConfirmedIsHeld: the same, with batch keys that are hexadecimal digests, as the source makes them.
- Projection.SameStampsSameBatch: the digest of a batch is the material itself, that is, an injective digest.
- BlueprintIds.IdsAreUnique: holds while no blueprint file is removed.
- CortexStrict.StrictConserves: speaks of entries; comments of merged metadata sections are dropped by the code. Migrated data may get the id `$19` twice, which `CortexStrict.StrictMetadata` counts.
- CortexDocument.DocumentRoundTrip: glossary declarations that span several lines are not hidden when read back, and are returned as entries; floats are those of the form digits, point, digits.
- Attribute values that are lists, and float arithmetic: a float is the literal that denotes it.
- Unicode digits, lower case beyond ASCII, and integer texts with underscores, signs or blanks where `int` accepts them; a timelog revision that is no plain decimal makes every writer raise.
- Calendar parsing of timestamps: a timestamp is an epoch, or a text without the characters that matter.
- Paths, canonical names, symbolic links and the search for a timelog file.
- The previews and error replies of `review`, `purge` and `project` before they touch the file, and a crash between the removal of the file and the tombstone, which is one step here.
- The legacy positional compaction, the text of the lesson summary, and the declaration of the lesson sigil.
- Restart of an in-memory event log, subscribers, latencies and status replies of the bus; the lease clock is a parameter.
- The thread lock that replaces the flock on Windows, an interrupt between taking and entering a lock, and the allocators of task and cycle ids, which take the last name in text order.
- Session entries under legacy names, the file name slug of a session's timelog, and selector parsing.
- Exceptions of adapters other than a raised send and a lost answer.
- Handoffs, metrics, frontmatter and every other part of `sync.py`, `pulse.py` and `formats.py`, which would add only easy members.
