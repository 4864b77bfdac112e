# HouHub: a verified model of its riskiest state machines

The project models, in Dafny, the parts of HouHub where a small slip loses or misreports a user's data, and proves what each of them promises over whole runs. `dafny verify dfyconfig.toml` checks it.

**The write-behind transcript** (`src-tauri/src/acp_transcript.rs`, read back by `src-tauri/src/parsers/acp_native.rs`).
`Records` is the data. `Reader` is the history reader, modelled from its code: a state machine that turns recorded entries into message turns. `TurnDrawing` and `History` say what it tells without it: what a turn draws, in terms of what the agent told, and what each prompt, stretch of work and turn end adds to the history. `Compaction` is `compact_batch`, with the proof that merging is invisible to that reader, exactly when it is, and that it is confluent, idempotent, conservative and maximal; `Grouping` describes its output by the fields of the records alone. `TranscriptFile` is the file as bytes. It is generic in the byte type and in any injective printer whose torn lines do not parse, and such a printer is shown to exist. `Writer` is the `SessionWriter` object with every way a flush can fail, and `Durability` and `FirstLine` have the theorems about its runs, the latter about headers and deadlines. `ReplayGate` interleaves recording threads, the writer thread and the gate. `Utf8` and `ReadingPaths` show that the streaming readers and the whole-file parser agree on arbitrary bytes. `Chains` has the continuation links.

**The upgrade supervisor** (`src-tauri/src/supervise.rs`, with the worker's side in `src-tauri/src/update/install.rs` and `src-tauri/src/bin/houhub_server.rs`).
`UpgradeTrial` runs supervisor and worker step by step against each other over marker, backup and live version. `StopSignals` races signal handlers against spawn, pid publication, exit and relaunch delay.

**The pet** (`src-tauri/src/pet_state_mapper.rs`).
`PetAggregate` is the incremental fold over many connections, against the same four sets defined from the event history alone. `PetLoop` is the event loop with its restartable timer.

**The agent's refs** (`browser-agent/src/index.ts`).
`Truncation` is the cap on a snapshot's text and the lines it leaves whole; `AgentRefs` is the versioned index over a browser with a history stack.

**Four smaller cores.**
`ConsoleBudget` (`src/browser-injected/helper.js`), `RenderingOverride` (`src-tauri/src/lib.rs`), `ShellQuoting` and `BatchQuoting` (`src-tauri/src/git_credential.rs`), `AppImageEnv` (`src-tauri/src/appimage_env.rs`). `Splitting` holds the list-in-a-string functions two of them share, `Texts` and `Options` the few things that all need.

Where the source changes an object in place, the model has a class whose methods are proved equal to a step function on an abstract state (`Abs()`). The theorems are then about runs of that step function, so they hold of the object.

## What the proofs found

Eight promises hold only under a condition. For each a lemma stands at a failing input, and the condition is proved to be exact.

- A stuck flush (write fails, rollback fails, newline written) does not update `compactable` (`acp_transcript.rs:536-553`). If the records it stranded in the file end the turn and open no other, later chunks of the agent's own work are merged and their turn moves in time. `Durability.StuckFlushIsHarmlessIff` is the exact condition on what is stranded, over every later run; `Durability.AbandonedTurnEndMovesTheNextTurn` is the failure, for any batch that ends with a turn's end, and `Durability.AbandonedTurnEndHappens` a run from an empty file.
- A poisoned writer is forgotten on idle eviction (`acp_transcript.rs:417`, `:832`). A new writer then tells its caller that a record landed, and the file gives it back if and only if it ended at a line end: `Durability.ForgottenPoisonLosesAckedRecords`; `Durability.AckedRecordCanBeLost` is a run from an empty file. The replay gate is then misled: the prompt's guard is gone, the file gives nothing back, and the gate says that there is no history (`ReplayGate.EvictionOverATornFileYieldsAFalseNo`). While no writer is forgotten over a torn file neither can happen: `Durability.AckedPromptIsRead`, `ReplayGate.NoFalseNo`. The log line there says that the session will record nothing further; the code is followed.
- A stuck flush on an empty file (write fails, rollback fails, newline written) leaves a file that is not empty, so the next header offered is taken for a repeat and its caller is told that it landed (`acp_transcript.rs:434-467`). The file then holds what the flush stranded, and a header only if that has one: `FirstLine.HeaderBehindStuckFlush`; in `FirstLine.AckedHeaderCanBeMissing` a session's own header is torn and the file never gets one. Without a stuck flush an acked header has something to stand on: `FirstLine.AckedHeaderStands`.
- A cycle of links hides its sessions if and only if no session outside it continues one on it: `Chains.HiddenIffOnAClosedCycle`; two sessions that each continue the other are an input, `Chains.ClosedCycleIsHidden`. Sessions elsewhere are not affected.
- A recovery message that is still unread ends a fresh failed state early (`PetLoop.StaleClearEndsAFreshError`), and the timer forgotten by that does the same to the next one (`PetLoop.OrphanedTimerEndsALaterError`). `PetLoop.WindowIsWholeIffNothingIsLeftOver` is the exact condition.
- Without navigation entry ids a navigation can go unseen, so that refs stay alive: a replace to the same address, a push to it over just one forward entry, or a push to it from the top of a full history. `AgentRefs.OneNavigationIsUnseenIff` is the exact list, `AgentRefs.RefSurvivesIff` the exact condition over whole runs, and `AgentRefs.ReplaceGoesUnseen` one input.
- The AppImage launcher overwrites some variables (`PYTHONHOME`, `GTK_PATH` and their like) and so loses a session's own value; an empty entry of a joined search path is dropped too. `AppImageEnv.SessionComesBackIff` says exactly which of the session's variables come back, and `AppImageEnv.OverwrittenValueIsLost` stands at one that does not. The comment at `appimage_env.rs:41-43` says that a path left with nothing is removed as it was before the launcher; that is so only if the session had none.
- The batch quoting does not escape a backslash before a quote or at the end of a path. The started program reads such a path differently: `BatchQuoting.ArgumentReadsBackIff` is the exact condition, and `BatchQuoting.TrailingSlashBecomesAQuote` what comes of every path with a backslash behind it, such as `D:\data\`.

A comment in `supervise.rs:112-120` says that the marker was already consumed when a spawn fails. The code only looks at it, and the model follows the code.

## Model

| member | source | states |
|---|---|---|
| Reader.ProjectTurns | src-tauri/src/parsers/acp_native.rs:461-609 | the one-pass loop yields the turns of the record-by-record projection, closed at the end; what those turns are is stated by the rows of `History` below |
| Reader.ReadConcat | src-tauri/src/parsers/acp_native.rs:461-609 | reading a file in two parts is reading it whole, from any reader state |
| TurnDrawing.HoldsDraws | src-tauri/src/parsers/acp_native.rs:697-890 | the blocks the open turn was built of draw what the agent told: its outline in order, text of one kind that runs on in one block, and for each call the last title, input, `_meta`, output, images and failure given |
| TurnDrawing.OneCardACall | src-tauri/src/parsers/acp_native.rs:941-1041 | each call told of has one card and, once an update has one, one outcome, the plan one card, and there are no others |
| History.PromptIsAppended | src-tauri/src/parsers/acp_native.rs:491-530 | whatever came before stands, and a prompt is one more user turn with its blocks and its time |
| History.StretchIsOneTurn | src-tauri/src/parsers/acp_native.rs:611-631 | a stretch of work behind a prompt or a turn end is one turn that draws it, dated from the prompt or its own first update to its last, or none if it told nothing |
| History.EndedStretchIsOneTurn | src-tauri/src/parsers/acp_native.rs:635-648 | and its turn end dates the close and adds the model, the usage and, unless the part began at a steer, the duration it reports |
| History.EndWithoutWork | src-tauri/src/parsers/acp_native.rs:543-585 | a turn end with nothing behind the last message reports on the last reply since the prompt, or makes a turn to keep a reported usage, or is dropped |
| History.EndWithoutPrompt | src-tauri/src/parsers/acp_native.rs:543-585 | a turn end that no prompt awaits changes no turn |
| History.EchoIsDropped | src-tauri/src/parsers/acp_native.rs:697-890 | the echo of a recorded prompt leaves the reader as it was |
| History.ReplayedMessage | src-tauri/src/parsers/acp_native.rs:697-890 | a message replayed in chunks behind the agent's turn is one user turn: dated by its first chunk, each run of prose joined, each attachment by itself, and its last chunk dates the answer |
| History.ReplayedExchange | src-tauri/src/parsers/acp_native.rs:697-890 | and the history shows it with the answer drawn behind it |
| History.LateUpdateLandsOnItsCard | src-tauri/src/parsers/acp_native.rs:910-936 | between turns an update of a call some turn drew renews the last card and outcome of that call where they stand, and changes nothing else |
| History.SteeredUpdateLandsOnItsCard | src-tauri/src/parsers/acp_native.rs:910-936 | and so behind a message that splits a prompt's turn, steered or relayed, for a call drawn since that prompt |
| History.HistoryTellsTheConversation | src-tauri/src/parsers/acp_native.rs:461-609 | for any exchanges, the turns are message after message as sent, each with at most one answer, which draws what the agent told and is dated and reported as recorded |
| History.MessagesAreThePrompts | src-tauri/src/parsers/acp_native.rs:461-609 | over any records without streamed user chunks, the user turns are the prompts in order with their blocks and times |
| Compaction.CompactBatch | src-tauri/src/acp_transcript.rs:663-717 | the loop over one open run computes the leftmost rewriting of the batch and the turn flag after it; what the output and the flag are, in the records' own fields, is stated by the rows of `Grouping` below |
| Compaction.TakeRecord | src-tauri/src/acp_transcript.rs:668-711 | one turn of that loop: what it writes and what it leaves open still compact to the batch, whatever follows |
| Compaction.MergeIsInvisibleIffStarted | src-tauri/src/acp_transcript.rs:641-662 | one merge leaves the reader's state unchanged if and only if its turn has a start already or the two chunks carry one timestamp |
| Compaction.MergingIsSafeIffStarted | src-tauri/src/acp_transcript.rs:641-662 | every batch compacted under a flag reads as the batch itself if and only if the flag implies that the reader has a turn start |
| Compaction.LiveImpliesStartedAll | src-tauri/src/acp_transcript.rs:641-662 | the coupling invariant: over any records, a set flag keeps implying a fixed turn start |
| Compaction.CompactReadsTheSame | src-tauri/src/acp_transcript.rs:663-744 | from a coupled state, a compacted batch takes the reader to exactly the state the raw batch does |
| Compaction.CompactionPreservesHistory | src-tauri/src/acp_transcript.rs:663-744 | for every stream, every cut into flush windows and every loss of the flag, the written records project to the unmerged history |
| Compaction.CompactionIsConfluent | src-tauri/src/acp_transcript.rs:663-717 | compacting two compacted batches together equals compacting the raw ones together, and the flag distributes over the concatenation |
| Compaction.CompactionIsIdempotent | src-tauri/src/acp_transcript.rs:656-662 | compacting output again changes nothing |
| Compaction.CompactionConserves | src-tauri/src/acp_transcript.rs:641-744 | the output is the input in its order with some neighbouring chunks joined, so the text of each kind and every record that is never merged come out complete |
| Compaction.MergesPlace | src-tauri/src/acp_transcript.rs:730-744 | every record has its one place in such an image, between the images of what was before it and behind it |
| Compaction.StartedIffTurnIsOpen | src-tauri/src/parsers/acp_native.rs:461-609 | the reader has a turn start behind a stretch of records if and only if the stretch leaves a turn open |
| Compaction.FlagKeepsTurnOpen | src-tauri/src/acp_transcript.rs:641-662 | the flag's own rule is enough for that, and exact while no update stands behind a turn end |
| Compaction.CompactionIsMaximal | src-tauri/src/acp_transcript.rs:663-717 | inside a live turn no two neighbours of the output could still be merged |
| Grouping.FlagMeansLiveTurn | src-tauri/src/acp_transcript.rs:663-717 | the flag is set exactly when a prompt has begun a turn that has not ended since |
| Grouping.MessagesAreKeptApart | src-tauri/src/acp_transcript.rs:696-711 | the output is the batch cut into groups of neighbours: of several only inside a live turn and only plain-text chunks of one kind, `_meta` and `messageId`, written as the first with all their text at the last one's time, and no two neighbours of a live turn could be one group |
| Grouping.ChunkStaysInItsMessage | src-tauri/src/acp_transcript.rs:696-711 | every chunk is carried by a record with exactly its kind, `_meta` and `messageId`, and so is every other record merged into that one |
| TranscriptFile.SoundCodecExists | src-tauri/src/acp_transcript.rs:231-238 | a printer with the assumed properties exists |
| TranscriptFile.CutLines | src-tauri/src/acp_transcript.rs:502-558 | a write cut at any byte, with or without the newline after it, reads back as a prefix of the records whole and nothing else |
| TranscriptFile.AppendReadsBackIffAtBoundary | src-tauri/src/acp_transcript.rs:490-500 | a record appended after a piece of a line reads back if and only if the file ended at a line end |
| Writer.SessionWriter.constructor | src-tauri/src/acp_transcript.rs:403-414 | a new writer holds nothing, may not merge and knows of no header |
| Writer.SessionWriter.Accept | src-tauri/src/acp_transcript.rs:429-452 | the whole new state of a writer handed a record: refused, acked as a repeated header, buffered or flushed; what that means for a header and for the deadline is stated by the rows of `FirstLine` below |
| Writer.SessionWriter.HeaderAlreadyStands | src-tauri/src/acp_transcript.rs:454-467 | true exactly when a header was written or buffered or the file is not empty, and remembered then |
| Writer.SessionWriter.ResolveAll | src-tauri/src/acp_transcript.rs:474-482 | every buffered record's caller is told the outcome in order, and the buffer is empty |
| Writer.SessionWriter.Flush | src-tauri/src/acp_transcript.rs:502-558 | the whole new state after each outcome of the disk, the bytes of the file included |
| Writer.SessionWriter.Defer | src-tauri/src/acp_transcript.rs:560-582 | only the deadline moves |
| Durability.CompactPrefix | src-tauri/src/acp_transcript.rs:536-553 | what a torn write leaves of a compacted batch is the compacted form of a prefix of the batch |
| Durability.WriterIsDurable | src-tauri/src/acp_transcript.rs:429-580 | after any run the file holds what it held, then the accepted records that reached it, in their order with some neighbouring chunks joined, and every entry acked as landed is among them |
| Durability.AckedIsThereExactlyOnce | src-tauri/src/acp_transcript.rs:474-482 | an entry whose caller was told it landed is carried by one record of the decoded file, itself if it is never merged, and by no second |
| Durability.TakenIsBufferedInOrder | src-tauri/src/acp_transcript.rs:429-452 | over any run the account is the records handed over, in order, but for repeated headers and what a poisoned writer refuses |
| Durability.DeferredFlushCostsNothing | src-tauri/src/acp_transcript.rs:484-500 | a flush that could not begin or was rolled back leaves bytes, batch and acks alone and dates the batch anew, and the next one writes what it would have written |
| Durability.PoisonedWriterAppendsNothing | src-tauri/src/acp_transcript.rs:431-433 | over any run without eviction a poisoned writer stays poisoned and the file keeps its bytes |
| Durability.ForgottenPoisonLosesAckedRecords | src-tauri/src/acp_transcript.rs:416-419 | after eviction the next record is acked, and reads back if and only if the file ended at a line end |
| Durability.AckedRecordCanBeLost | src-tauri/src/acp_transcript.rs:416-419 | with any printer and any two entries, a run from an empty file acks a record that the file does not give back |
| Durability.AckedPromptIsRead | src-tauri/src/acp_transcript.rs:260-275 | while no writer is forgotten over a torn file, every prompt acked as landed is found in the decoded file, and a torn file's writer has given up |
| Durability.HeaderIsWrittenOnce | src-tauri/src/acp_transcript.rs:434-439 | a transcript with at most one header keeps at most one, whatever headers are offered and whatever fails |
| Durability.HistoryReadsAsRecorded | src-tauri/src/acp_transcript.rs:429-744 | end to end: the bytes after any run without a harmful stuck flush project to the same history as the unmerged records that reached the file |
| Durability.FlushStaysCoupledIff | src-tauri/src/acp_transcript.rs:502-558 | a flush leaves the flag true of the file if and only if it is not a repaired stuck flush whose stranded records leave no turn open |
| Durability.StuckFlushStaysCoupledIff | src-tauri/src/acp_transcript.rs:536-553 | by the flag's own rule: it stays true if no turn end is stranded without a prompt behind it, and only then where no update stands behind a turn end |
| Durability.StuckFlushIsHarmlessIff | src-tauri/src/acp_transcript.rs:536-553 | every later run on a working disk reads as recorded if and only if the stranded records leave a turn open or the writer was silenced |
| Durability.AbandonedTurnEndMovesTheNextTurn | src-tauri/src/acp_transcript.rs:536-553 | any batch ending with a turn's end, stranded but for its last newline, leaves the flag set over a finished turn, and some later run on a working disk reads wrongly |
| Durability.AbandonedTurnEndHappens | src-tauri/src/acp_transcript.rs:536-553 | a prompt, a turn end whose first flush cannot open the file and whose second gets stuck: the failure from an empty file |
| Durability.BoundariesNeverWait | src-tauri/src/acp_transcript.rs:239-257 | while the disk works, only updates of a live turn are ever held back: no header, no prompt and no turn end |
| FirstLine.AckedHeaderStands | src-tauri/src/acp_transcript.rs:434-467 | over any run on which no flush gets stuck, a header acked as landed means that the decoded file has a record or the batch holds a header |
| FirstLine.HeaderIsLineZero | src-tauri/src/acp_transcript.rs:434-467 | over any such run, a header handed over first is the first record of the file as soon as it has a byte, and leads the batch until then |
| FirstLine.FirstHeaderIsWritten | src-tauri/src/acp_transcript.rs:429-452 | a header accepted over an empty file on a working disk is acked and leaves the decoded file as just that header |
| FirstLine.RepeatedHeaderIsNotWritten | src-tauri/src/acp_transcript.rs:434-467 | a header offered to a file with any bytes, or behind one that waits, leaves bytes and batch alone, and is acked unless the writer has given up |
| FirstLine.HeaderBehindStuckFlush | src-tauri/src/acp_transcript.rs:434-467 | a header offered behind a stuck flush on an empty file is acked, and the file holds a record, or a header, exactly if the flush stranded one |
| FirstLine.AckedHeaderCanBeMissing | src-tauri/src/acp_transcript.rs:536-553 | a run from an empty file: a header torn anywhere, a retry that is acked, and a file without a header |
| FirstLine.BatchIsDatedByItsFirst | src-tauri/src/acp_transcript.rs:440-442 | after any run the deadline counts from when the batch's first record was handed over, or from the last try that failed |
| ReplayGate.PendingPrompts.New | src-tauri/src/acp_transcript.rs:289-296 | taking a guard adds it to those out for its path, and the counts stay theirs |
| ReplayGate.PendingPrompts.Drop | src-tauri/src/acp_transcript.rs:298-310 | dropping one takes it away, the counts stay those of the guards out, and an entry that reaches zero goes |
| ReplayGate.PendingPrompts.HasPendingPrompt | src-tauri/src/acp_transcript.rs:312-317 | true exactly when some guard taken for the path has not been dropped |
| ReplayGate.NoFalseNo | src-tauri/src/acp_transcript.rs:1113-1124 | over every interleaving a gate answers "no history" only when every prompt of its path recorded before its first read has left the writer, and, while no writer is forgotten over a torn file, only when each was discarded without an ack |
| ReplayGate.EvictionOverATornFileYieldsAFalseNo | src-tauri/src/acp_transcript.rs:416-419 | a run in which a writer is forgotten over a torn file and a gate then answers "no history" for a prompt that was acked |
| ReplayGate.NoFalseYes | src-tauri/src/acp_transcript.rs:1126-1149 | over every interleaving of reads at rest, a gate answers "history" only for a path that something other than a header was recorded for |
| ReplayGate.PendingCountIsExact | src-tauri/src/acp_transcript.rs:276-310 | after any run the count of a path is the number of its prompts that hold a guard, and zero means no entry |
| ReplayGate.GateSeesEveryLivePrompt | src-tauri/src/acp_transcript.rs:1093-1124 | with anything between the two reads, a prompt recorded before the first and still on its way makes the gate answer "history", and so does an acked one while no writer is forgotten over a torn file |
| Utf8.LossySplits | src-tauri/src/acp_transcript.rs:1045-1073 | lossy decoding commutes with splitting at the newline byte, on arbitrary bytes |
| Utf8.LossyUndoesEncode | src-tauri/src/acp_transcript.rs:1001-1008 | on well-formed input the decoder loses nothing |
| Utf8.CutCharacterIsOneReplacement | src-tauri/src/acp_transcript.rs:1001-1008 | a character cut anywhere, before anything that does not carry it on, becomes one replacement character |
| Utf8.StrayByteIsOneReplacement | src-tauri/src/acp_transcript.rs:1001-1008 | a byte that begins no character becomes one, and what follows is read on its own |
| ReadingPaths.StreamSeesWholeLines | src-tauri/src/acp_transcript.rs:1051-1073 | reading and decoding line by line sees the trimmed lines of the whole decoded file |
| ReadingPaths.WholeLinesAreItsLines | src-tauri/src/acp_transcript.rs:1012-1019 | the lines seen are the pieces of the file between its newline bytes, each decoded and stripped of the white around it, but for the blank ones, in order |
| ReadingPaths.ParseTranscript | src-tauri/src/acp_transcript.rs:1012-1031 | the header is that of the first visible line that parses as one, and the entries are the values of all other visible lines that parse, in order |
| ReadingPaths.ReadHeader | src-tauri/src/acp_transcript.rs:1080-1090 | stopping at the first header gives the whole-file parser's header |
| ReadingPaths.HasEntries | src-tauri/src/acp_transcript.rs:1133-1149 | stopping at the first entry answers whether the whole-file parser finds any |
| ReadingPaths.TornEndCostsOnlyItself | src-tauri/src/acp_transcript.rs:1012-1031 | whatever stands after the last line end changes no header and no entry before it, and nothing at all when it does not parse |
| Chains.ReadChain | src-tauri/src/acp_transcript.rs:1163-1197 | the walk with a visited set ends on every graph and merges the files it visits oldest first; which they are is stated by `Chains.ChainFollowsHeaders` |
| Chains.ContinuationAncestors | src-tauri/src/acp_transcript.rs:1212-1233 | the walk collects the session's ancestors, newest first |
| Chains.MergeOldestFirst | src-tauri/src/acp_transcript.rs:1186-1197 | folding the files from the oldest gives their merged conversation |
| Chains.WalkVisitsOnce | src-tauri/src/acp_transcript.rs:1163-1185 | on any graph a walk visits each session once, along the links, within its bound |
| Chains.WalkStopsForAReason | src-tauri/src/acp_transcript.rs:1163-1185 | a walk ends only at the end of the chain, a repeat or the bound |
| Chains.ChainTailIsAncestors | src-tauri/src/acp_transcript.rs:1199-1233 | the chain read is the session and then its ancestors, one short of them at the bound |
| Chains.OldestHeaderWins | src-tauri/src/acp_transcript.rs:1186-1197 | the oldest header present is the merged one, and there is none if no file has one |
| Chains.EntriesStandInOrder | src-tauri/src/acp_transcript.rs:1186-1197 | each file's entries stand whole between those of all older and those of all newer files |
| Chains.ChainFollowsHeaders | src-tauri/src/acp_transcript.rs:1178-1185 | a session is read with what its header says it continues, and so on, each once and at most 512, up to a header that names none or one read already |
| Chains.ListedIff | src-tauri/src/parsers/acp_native.rs:113-138 | a session is listed if and only if it is there, no header says that it is continued, and something was said in what it reads |
| Chains.ReadFromAHeadIff | src-tauri/src/acp_transcript.rs:1244-1261 | within the bound, some session that nothing supersedes reads a superseded one if and only if it is on no cycle of links, or a session outside its cycle continues one on it |
| Chains.HiddenIffOnAClosedCycle | src-tauri/src/parsers/acp_native.rs:113-138 | a session with entries is read as part of a listed one under exactly that condition, whatever the links elsewhere |
| Chains.ClosedCycleIsHidden | src-tauri/src/parsers/acp_native.rs:113-138 | two sessions with entries that continue each other leave the listing empty |
| Chains.WithoutDetours | src-tauri/src/acp_transcript.rs:1163-1185 | a path of links between two sessions can be had without a repeat, which is the one a walk takes |
| UpgradeTrial.MarkerOutlivesTheWindow | src-tauri/src/supervise.rs:139-161 | as the stamp comes before the spawn, nothing clears the marker and no update begins or swaps while a worker on trial may still be rolled back |
| UpgradeTrial.RestoredWorkerIsNotOnTrial | src-tauri/src/supervise.rs:226-250 | after a rollback nothing is rolled back again until the marker is looked at for another launch, whatever the restored worker does |
| UpgradeTrial.Supervisor.WorkerExited | src-tauri/src/supervise.rs:192-273 | the decision on an exit by code or by signal, and the step of the two-process machine it takes; what it comes to is stated by the next rows |
| UpgradeTrial.DeathOnTrialIsUndone | src-tauri/src/supervise.rs:222-273 | after any run, a worker that ends inside its trial by any code but a restart request's or by any signal is rolled back to the version its swap replaced, which goes to work; if that fails, or the operator was faster, the supervisor exits with the code or with 128 and the signal |
| UpgradeTrial.OtherEndsPassOn | src-tauri/src/supervise.rs:199-273 | off trial or after the window the supervisor exits with the code or with 128 and the signal, and a restart request is always met |
| UpgradeTrial.UpgradeThatDiesIsUndone | src-tauri/src/supervise.rs:139-273 | whenever a launch finds a marker, and whatever the worker does before it dies inside the trial, short of a restart request and of being reverted, the replaced version is at work afterwards |
| UpgradeTrial.UpgradeThatCannotStartIsUndone | src-tauri/src/supervise.rs:104-137 | and so if the new version cannot be started at all |
| UpgradeTrial.SurvivedTrialIsOver | src-tauri/src/supervise.rs:139-161 | a version that lives through its trial stays, its worker takes the marker away and may update again, and its later end is passed on |
| UpgradeTrial.UpdateIsTriedOut | src-tauri/src/supervise.rs:199-221 | an update and the restart it asks for launch the new bundle on trial, with the old one kept |
| UpgradeTrial.Supervisor.SpawnTrial | src-tauri/src/supervise.rs:121-137 | a launch, or a spawn that fails and is rolled back or fatal, is the machine's step |
| UpgradeTrial.Supervisor.AttemptRollback | src-tauri/src/supervise.rs:38-50 | a rollback succeeds exactly when there is a backup that can be put back, and is the machine's step |
| UpgradeTrial.RollbackUndoesTheTrial | src-tauri/src/supervise.rs:139-161 | after any run, a rollback takes away the very bundle that was launched and puts back the one that its own swap replaced, with an upgrade staged since the rollback before it |
| UpgradeTrial.LateStampRestoresTheTrialBundle | src-tauri/src/supervise.rs:153-160 | for any trial length and any state with a staged upgrade, a supervisor that stamps after the spawn has a run whose rollback takes away another bundle than the one launched and leaves the upgrade live |
| UpgradeTrial.NoRelaunchLoop | src-tauri/src/supervise.rs:199-273 | launches are at most one more than requested restarts and rollbacks, and rollbacks at most the upgrades staged |
| StopSignals.NoSignalIsLost | src-tauri/src/supervise.rs:59-68 | wherever a signal falls, once its handler is through a waiting supervisor waits for a worker that was signalled |
| StopSignals.AtMostOneWorkerAfterTheSignal | src-tauri/src/supervise.rs:96-110 | at most one worker is spawned after the signal, and from then on no spawn can happen |
| StopSignals.NothingIsRelaunched | src-tauri/src/supervise.rs:192-197 | once a stopped worker is reaped, every continuation stays on the way to the exit and spawns nothing |
| StopSignals.StoppedSupervisorExits | src-tauri/src/supervise.rs:192-197 | three steps of its own take it there |
| StopSignals.RestartRelaunches | src-tauri/src/supervise.rs:199-221 | without a signal a restart request ends in a new worker, and no pid is published during the delay |
| StopSignals.OnlyTheChildIsSignalled | src-tauri/src/supervise.rs:190-193 | but for the step between reaping and forgetting, a published pid is the supervisor's own child |
| PetAggregate.PetGlobalState.ApplyEvent | src-tauri/src/pet_state_mapper.rs:107-232 | the four sets after any event of any connection |
| PetAggregate.PetGlobalState.ResetAfterOverrun | src-tauri/src/pet_state_mapper.rs:234-248 | an overrun empties three sets and keeps the sub-agents |
| PetAggregate.FoldMeansHistory | src-tauri/src/pet_state_mapper.rs:107-248 | after every event sequence each of the four sets equals its definition from the history alone, in both directions |
| PetAggregate.FoldAgrees | src-tauri/src/pet_state_mapper.rs:107-248 | a known sub-agent is never prompting or erroring, across overruns and racing delegations |
| PetAggregate.PetShowsTheMostUrgent | src-tauri/src/pet_state_mapper.rs:271-282 | after any history the pet shows failed exactly while some connection has failed, waiting while none has and some permission is open, running while neither and some turn runs, and idle otherwise |
| PetLoop.Subscriber.OnEvent | src-tauri/src/pet_state_mapper.rs:394-457 | the loop's whole new state after an event |
| PetLoop.Subscriber.OnLag | src-tauri/src/pet_state_mapper.rs:458-495 | and after an overrun |
| PetLoop.Subscriber.OnClear | src-tauri/src/pet_state_mapper.rs:543-555 | and after a recovery message |
| PetLoop.PetIsNeverStuck | src-tauri/src/pet_state_mapper.rs:378-556 | at every loop boundary handle, last emission and computed state agree, neighbouring emissions differ, and a failed state has a clear on its way |
| PetLoop.FailedEnds | src-tauri/src/pet_state_mapper.rs:336-355 | from any failed state, the timer running out and one read of the queue end it |
| PetLoop.ErrorRestartsTheWindow | src-tauri/src/pet_state_mapper.rs:336-349 | an error stops the timer held so far and starts one for the whole 4000 ms |
| PetLoop.EndedFailureStopsItsTimer | src-tauri/src/pet_state_mapper.rs:440-447 | whatever but a clear ends the failed state stops the timer held for it |
| PetLoop.WindowIsWholeIffNothingIsLeftOver | src-tauri/src/pet_state_mapper.rs:336-355 | no clear can arrive inside the window if and only if none is queued and no earlier timer still sleeps |
| PetLoop.StaleClearEndsAFreshError | src-tauri/src/pet_state_mapper.rs:543-555 | a run in which a stale clear ends a fresh error at once and leaves its timer running without a handle |
| PetLoop.OrphanedTimerEndsALaterError | src-tauri/src/pet_state_mapper.rs:336-355 | the run goes on: that timer ends a later error, with nothing queued when it came, inside its own window |
| Truncation.TruncateKeepsWholeLines | browser-agent/src/index.ts:662-673 | a prefix within the cap, cut at the last line end among positions 1 to the cap whenever there is one |
| Truncation.ShownRefs | browser-agent/src/index.ts:315-328 | the loop over the renderer's line map collects the refs of the lines kept |
| Truncation.KeptLinesAreTheWholeOnes | browser-agent/src/index.ts:315-328 | for any cap, a line counts as kept exactly when it is wholly in the text returned |
| AgentRefs.TokensAreDistinct | browser-agent/src/index.ts:192-201 | tokens of one document are injective in the sequence number and in the epoch behind it |
| AgentRefs.RefIndex.Snapshot | browser-agent/src/index.ts:247-305 | the text returned and the whole new index |
| AgentRefs.DropUnshown | browser-agent/src/index.ts:263-275 | the loop leaves the shown refs and collects the others |
| AgentRefs.TableHoldsWholeLines | browser-agent/src/index.ts:263-291 | the table holds exactly the named refs whose line is wholly shown, and with the refs cut away it partitions the named ones |
| AgentRefs.RefsAreSound | browser-agent/src/index.ts:330-359 | over every run, a ref resolves only under the latest token, to the element the latest snapshot named on a line it showed whole, in an unmoved page that still holds it |
| AgentRefs.OnlyTheCapIsBlamedForTheCut | browser-agent/src/index.ts:425-440 | the cap is blamed for exactly the refs the last cut removed and the snapshot before it had shown, asked for under the older token on the same address or under the latest in an unmoved page, and none of them resolves |
| AgentRefs.NavigationKillsEveryRef | browser-agent/src/index.ts:142-190 | where entry ids are minted, any navigation since the snapshot, with anything around it, kills every ref |
| AgentRefs.TraversalKillsEveryRef | browser-agent/src/index.ts:142-176 | a traversal kills every ref on any engine |
| AgentRefs.RefSurvivesIff | browser-agent/src/index.ts:142-190 | over any run without a snapshot, a ref whose element is still there resolves if and only if no navigation happened or, without entry ids, none was heard, the last push or replace went back to the same address, and the pushes left the history's length |
| AgentRefs.OneNavigationIsUnseenIff | browser-agent/src/index.ts:142-176 | without entry ids one navigation goes unseen exactly if it is a replace to the same address, a push to it over one forward entry or from the top of a full history, or a traversal to nowhere |
| AgentRefs.ReplaceGoesUnseen | browser-agent/src/index.ts:151-154 | a page, an engine and a replace to the same address after which the ref still resolves |
| ConsoleBudget.ConsoleForwarder.ForwardConsole | src/browser-injected/helper.js:322-341 | the whole new state after a line |
| ConsoleBudget.ConsoleForwarder.NoteDropped | src/browser-injected/helper.js:310-314 | a drop is counted and a flush is pending |
| ConsoleBudget.ConsoleForwarder.FlushDropped | src/browser-injected/helper.js:315-321 | the drops counted are reported once |
| ConsoleBudget.EveryDropIsAccountedFor | src/browser-injected/helper.js:307-342 | over every run of lines, timers and page hides, lines handled are lines posted, drops reported and drops counted, and a counted drop has a live timer that will report it |
| ConsoleBudget.AtMostTwiceTheBudgetInASecond | src/browser-injected/helper.js:322-341 | on a clock that does not go back, any 401 lines posted in a row span more than 1000 ms |
| ConsoleBudget.OnlyABusySecondDrops | src/browser-injected/helper.js:322-341 | on such a clock a line is posted with the drops before it reported, unless 200 were posted in the second before it; only then is it dropped |
| ConsoleBudget.ClipKeepsCharactersWhole | src/browser-injected/helper.js:290-301 | a clipped text is a marked prefix within the limit and never ends in half a surrogate pair |
| RenderingOverride.Process.ApplyWebviewRenderingOverride | src-tauri/src/lib.rs:428-497 | the environment after one launch, on either platform and with either setting |
| RenderingOverride.Process.SetWebkitEnvs | src-tauri/src/lib.rs:474-486 | the Linux loop sets and owns just the keys that are ours or nobody's |
| RenderingOverride.Process.AppendWebview2Args | src-tauri/src/lib.rs:446-471 | the Windows block adds the missing flag and claims the variable if the flag is ours |
| RenderingOverride.Process.WithdrawWebviewRenderingOverride | src-tauri/src/lib.rs:505-540 | what is listed as inherited is withdrawn, with the marker |
| RenderingOverride.LinuxGivesBackWhatItTook | src-tauri/src/lib.rs:398-540 | for every user environment and toggle sequence, a launch with the toggle off has the user's environment to the letter, and one with it on changes no value the user had |
| RenderingOverride.WindowsGivesBackWhatItTook | src-tauri/src/lib.rs:398-540 | the same for the command line token by token: the user's own flag survives, every other variable is untouched, and nothing changes at all if the toggle was never on |
| ShellQuoting.ShSingleQuote | src-tauri/src/git_credential.rs:15-27 | the loop writes the single-quoted form |
| ShellQuoting.QuotedIsRead | src-tauri/src/git_credential.rs:10-27 | wherever the quoted form of any string stands, the shell adds just that string to the current word, all of it quoted |
| ShellQuoting.QuotedIsOneWord | src-tauri/src/git_credential.rs:10-27 | by itself it is one fully quoted word with the string as its value |
| ShellQuoting.WriteExecLine | src-tauri/src/git_credential.rs:83-96 | the line written reads, in the shell, as exactly the command, the binary, the two flags, the directory and the redirection |
| ShellQuoting.ExecLineIsRead | src-tauri/src/git_credential.rs:83-96 | for any two paths the line lexes to exactly the command, the binary, the two flags, the directory and the redirection |
| ShellQuoting.ParseDataDirArg | src-tauri/src/git_credential.rs:265-276 | the loop finds the first data-directory argument in either form |
| ShellQuoting.FirstDataDirArg | src-tauri/src/git_credential.rs:265-276 | the first argument that gives the directory decides: what follows the equals sign, or the next argument, or nothing if there is none |
| ShellQuoting.HelperFindsItsDataDir | src-tauri/src/git_credential.rs:71-96 | the program the line starts receives four arguments and finds the directory the line was written for |
| BatchQuoting.BatDoubleQuote | src-tauri/src/git_credential.rs:37-49 | the loop writes the double-quoted form |
| BatchQuoting.BatchQuotingRoundTrips | src-tauri/src/git_credential.rs:29-49 | percent collapsing substitutes nothing, and quote undoubling then gives the string |
| BatchQuoting.ArgumentReadsBackIff | src-tauri/src/git_credential.rs:29-49 | the started program reads the argument as the string if and only if no backslash in it stands before a quote or at the end |
| BatchQuoting.TrailingSlashBecomesAQuote | src-tauri/src/git_credential.rs:29-49 | every path that would read back, with a backslash behind it, comes back with a quote in the backslash's place |
| AppImageEnv.UndoesTheLauncher | src-tauri/src/appimage_env.rs:171-204 | the image's directories joined with any session value come undone to what stood before them and the session's entries in order, or to no variable when there are none |
| AppImageEnv.BelowTheRootIsInside | src-tauri/src/appimage_env.rs:157-161 | every path written below a root of the image is inside it |
| AppImageEnv.LongerNameIsOutside | src-tauri/src/appimage_env.rs:157-161 | a directory beside the root whose name only begins like it is outside, with all below it |
| AppImageEnv.SlashesDoNotMatter | src-tauri/src/appimage_env.rs:157-161 | a slash behind a path, or a `/.`, makes no other path of it |
| AppImageEnv.UndoesTheHook | src-tauri/src/appimage_env.rs:73-78 | the hook's own directory goes exactly when the session lists it or lists nothing, and stays first otherwise |
| AppImageEnv.NothingOfTheImageSurvives | src-tauri/src/appimage_env.rs:171-204 | a value is changed exactly when an entry lies in the image; what it becomes has no such entry and no empty one, and is changed no further |
| AppImageEnv.Command.RestoreSearchPaths | src-tauri/src/appimage_env.rs:209-230 | the loop over the search paths changes just those that point into the image |
| AppImageEnv.Command.Restore | src-tauri/src/appimage_env.rs:209-236 | every setting of the command after both loops |
| AppImageEnv.RestoringTwiceIsRestoringOnce | src-tauri/src/appimage_env.rs:87-92 | a second restore finds nothing to do |
| AppImageEnv.OwnSettingStays | src-tauri/src/appimage_env.rs:209-236 | what a command sets or removes itself stays, a launcher's variable too, unless it is a search path with an entry in the image |
| AppImageEnv.OwnSearchPathComesUndone | src-tauri/src/appimage_env.rs:209-230 | and such a search path comes undone like an inherited one |
| AppImageEnv.StartedProgramFinds | src-tauri/src/appimage_env.rs:1-34 | from any environment a launcher makes by joining, overwriting and setting, what a started program finds of every variable |
| AppImageEnv.SessionComesBackIff | src-tauri/src/appimage_env.rs:44-92 | end to end: a session's variable comes back unchanged if and only if the launcher neither set it for itself nor overwrote it and, where it was joined, it has no empty entry, `/usr/share` does not stay before it and the application put nothing before it |
| AppImageEnv.OverwrittenValueIsLost | src-tauri/src/appimage_env.rs:8-15 | a launcher that overwrites `PYTHONHOME`, and a session whose own value of it does not reach the program |

## Left out

- Durability.WriterIsDurable: excludes evicting a writer whose file ends in a torn line, because the promise fails there; `ForgottenPoisonLosesAckedRecords` says exactly when. A file that a crash left torn before the first launch is excluded for the same reason.
- Durability.HistoryReadsAsRecorded: excludes runs with a stuck flush that leaves no turn open under a set flag, because the promise fails there; `StuckFlushIsHarmlessIff` says exactly when.
- History.HistoryTellsTheConversation: requires that no tool call goes by `acp-plan`, the name under which the reader keeps the plan's card, and that an exchange's updates are of calls it began; an update of an earlier turn's call is `History.LateUpdateLandsOnItsCard`.
- History.ReplayedMessage: is about a message behind the agent's turn; chunks that come while a user turn is still the last one go on in that turn.
- FirstLine.AckedHeaderStands: excludes runs with a stuck flush, because the promise fails there; `FirstLine.HeaderBehindStuckFlush` says exactly when.
- Chains.HiddenIffOnAClosedCycle: requires that no chain leading to the session is longer than the depth bound of 512; beyond it the walk stops short by design.
- AgentRefs.RefSurvivesIff: a popstate or hashchange event is taken to be heard as soon as its navigation happens; the window between the two is not modelled.
- ShellQuoting.HelperFindsItsDataDir: a binary whose path is itself the data-directory flag is excluded; paths are absolute by then.
- UpgradeTrial.NoRelaunchLoop: a restart the worker asks for is taken as asked; nothing bounds how often it asks.
- The supervisor's wait loop is a method for each of its steps rather than one loop, as its theorems are about steps of other threads and processes between its own. A rollback made while spawning takes no new stamp in the source; the model stamps after either kind of rollback, which changes nothing as the trial is over by then.
- The writer thread's map of writers and its deadlines: a writer is modelled on its own, with flushes and evictions at arbitrary moments, which includes every schedule of the thread.
- JSON: a record is printed by any printer with the stated properties. A record that fails to serialize and prints as an empty line is not modelled.
- The counter of consecutive failures, which only chooses a log level; fsync, permissions, file locks and real clocks.
- How content blocks, resource links, tool call content and usage figures are rendered to text: the reader takes a tool call's fields and a block's projection as given.
- A file swap is taken as one step: how an interrupted one is settled, and the undo of one whose marker cannot be written, are not modelled. Nor is the supervisor's Windows variant.
- The one-shot cues of the pet (celebrations, review) and the broadcast channels' own throttles.
- The accessibility tree and its renderer: their line map is an input, with the contract that every named node has a line. Geometry and events of the acting half are not part of this model.
- `restore_pty_command`, which does the same on a builder that already holds the whole environment; looking up the image at start.
- Environment values that are not Unicode, and Windows' case-insensitive variable names.
- The first two lines of the helper script, and how the batch interpreter reads the binary's own name.
