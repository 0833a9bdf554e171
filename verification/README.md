# Verified models of the sandbox runner

A model, in Dafny 4.11, of the self-contained algorithms and state machines of the sandbox runner
(Go), with machine-checked proofs of their properties. `dafny verify dfyconfig.toml` checks all of
it.

## What is modelled

**Exec sessions.** Two log protocols are transition systems: an action is one atomic step of one
goroutine or of the environment, and a schedule is any sequence of enabled actions, so a statement
about every schedule is a statement about every interleaving. `LocalSession` is the local session:
the command with its two pipes, byte by byte, two streaming goroutines, the waiter, the bounded
channel with its close-once flag, the context, and the executor's consumer loop that reads the exit
status at the end. `LineScanner` is what its scanners, with their bounded buffers, yield of a text.
`OpenSandboxExec`, `OpenSandboxRuns` and `OpenSandboxStatus` are the OpenSandbox session with its
handshake over two one-slot channels and its incremental line reassembly (`Reassembly`).
`LogConsumer` is the consumer's numbering of lines, `DockerLog` the line writer of the docker executor,
`TextLines` the splitting on line feeds that both rest on. What the command writes, and what a decoded
event stream holds, is fixed in advance as a finite sequence.

**Phase engine.** `PhaseEngine` runs one request from preparation to collection over a mutable run
state; the outcome of every call to the environment is nondeterministic (those on which it depends
which calls follow are named in advance, in `Answers`). The calls leave a transcript, whose protocol
and meaning are in `EngineTranscript`; `EnginePlan` says which calls each phase makes and in which
order, `EngineCalls` how often each call is made; `EngineReport` says what a run must record and report
as a function of the calls that failed; `EngineRuns` states the results about whole runs, up to the exit
code of the process. The one Go function `runPrepare` is split into several methods, and so are the
others where their proof is longer than a screen.

**Environment resolution.** `EnvResolution` is the memoised recursive resolver that is used when a
process is started, for every reference graph, cycles included; `PhaseEnv` is the sequential
expansion that builds a phase's environment, and the comparison of the two.

**Printers, parsers and translations.** `ShellQuoting` is argument quoting against a tokenizer for
the rules of sections 2.2.1 to 2.2.3 and 2.3 of the POSIX.1-2017 Shell Command Language.
`DenyPatterns` is the compilation of deny patterns to regular expressions. `ArchiveWalk`, `PathNames`
and `TarExtraction` are archiving with a pruned walk, lexical path cleaning, and extraction into a
file system. `OctalDigits` is the encoding of file modes on the wire.

**Configuration.** `RunConfig` is normalisation, which reconciles the legacy fields with the
execution triple; `NormalForm` says what becomes of each field; `ConfigCoherence` is validation and the
three places that dispatch on the result.

Every loop of the source that updates variables is a method with a loop, proved against a
specification function; every object whose fields the source updates is a class.

## What turned out otherwise than one might expect

* The two streaming goroutines stop reading at a line that does not fit the 1 MiB buffer of their
  scanner, and the waiter closes the pipes only after the command has ended. So a local session whose
  context is never ended can hang exactly when an output has such a line with more text behind it
  than a pipe holds (`LocalSession.HangCondition`), and then every run of it does
  (`LocalSession.OverflowHoldsBack`).
* The waiter closes the pipes while they may still be read. So every command with any output, unless
  it can hang, can lose some of it without a cancellation (`LocalSession.LossCondition`).
* A plain cancellation is reported as "no error, exit code 0" while the command is still running,
  whatever it writes and ends with (`LocalSession.CancellationReportsSuccess`); a code that is not
  the command's is reported without an error exactly in cancelled runs
  (`LocalSession.MisreportCondition`).
* `Exec` of the OpenSandbox backend can wait forever exactly when more than 64 log lines come before
  the first init event (`OpenSandboxRuns.DeadlockCondition`), for instance a text of 65 lines
  (`OpenSandboxRuns.LinesAheadOfInit`).
* A failing collection takes the place of the command's failure in the result, so the process then
  exits with 1 instead of the command's code (`EngineRuns.CommandCodeSurvives`, an equivalence;
  `EngineRuns.FinalCode` is the code of every run).
* Extraction into a relative directory that leads upwards (`..`) accepts names that climb further;
  into every other directory it does not (`PathNames.ContainmentIff`, an equivalence). Extraction into
  the root or the current directory refuses every archive that is not empty
  (`PathNames.PlainNameAccepted`, `TarExtraction.RoundTrip`).
* On a ring of references every key gets the base value of the key of the ring that is visited first,
  when no key visited before leads to the ring; two such orders agree exactly when those values do
  (`PhaseEnv.RingOrdersAgree`). The sequential expansion reads the base for every reference that does
  not look back (`PhaseEnv.SequentialMeansCut`). So, without cycles and self-references, it agrees
  with the recursive resolver on every base environment exactly when all references look back
  (`PhaseEnv.AgreementCondition`).
* The docker command edits the configuration after validation; the result is coherent exactly when
  the configuration was for docker already (`ConfigCoherence.DockerCommandCoherence`).

## Model

| member | source | states |
|---|---|---|
| TextLines.SplitUnique | internal/backend/opensandbox_backend.go:615-647 | ended segments and a remainder without line feeds that rebuild a text are its only such decomposition |
| TextLines.SplitRebuilds | internal/backend/opensandbox_backend.go:615-647 | the segments with their line feeds put back, then the remainder, are the text, and none holds a line feed |
| TextLines.SplitAppend | internal/backend/opensandbox_backend.go:615-647 | splitting can be resumed after any first part from its remainder alone |
| TextLines.IndexLF | internal/backend/opensandbox_backend.go:622-622 | the first line feed, or that there is none |
| TextLines.TrimRight | internal/backend/opensandbox_backend.go:626-634 | a prefix that does not end in the cut set, whose dropped tail is all in the cut set |
| LogConsumer.ConsumeLogs | internal/executor/backend.go:58-116 | the loop records every chunk it received, in order, numbered per stream, and leaves at the close or at cancellation |
| LogConsumer.DeliveredMeans | internal/executor/backend.go:58-76 | what is delivered are the chunks received before anything else is selected |
| LogConsumer.NumbersAreConsecutive | internal/executor/backend.go:77-98 | the line numbers of each stream are exactly 1..n in order, its texts the truncated lines received, and the counter is n |
| LocalSession.LocalExecSession.Finish | internal/backend/local_exec_session.go:65-95 | the first call fixes the final status and exit code and closes the channel, later ones change nothing |
| LineScanner.NextToken | internal/backend/local_exec_session.go:113-115 | a further line feed completes one more token, its line without a carriage return at the end |
| LineScanner.LastToken | internal/backend/local_exec_session.go:113-115 | an unfinished line at the end of the output is a token when it is not empty |
| LineScanner.TokensOfPrefix | internal/backend/local_exec_session.go:113-115 | the whole lines of a first part of the output are the first tokens of all of it |
| LocalSession.StepKeepsInv | internal/backend/local_exec_session.go:33-126 | every step of the command, of every goroutine and of the environment keeps the invariant of the protocol: bytes, tokens, deliveries and control |
| LocalSession.StreamerIsNeverStuck | internal/backend/local_exec_session.go:115-125 | a streamer holding a line can send it, abandon it, or the consumer can make room; once the context is done it can always leave |
| LocalSession.SomeStepIsEnabled | internal/backend/local_exec_session.go:33-126 | a state of the invariant is not a deadlock, unless everything has ended or the context is live and the command is blocked on a full pipe whose scanner has stopped |
| LocalSession.StepLowersRank | internal/backend/local_exec_session.go:33-126 | every step lowers a measure |
| LocalSession.EveryRunIsSafe | internal/backend/local_exec_session.go:33-126 | in every interleaving: no send on the closed channel, at most one close, received lines are an in-order prefix of the tokens of the output scanned and all of them when the context was never done, and a consumer that saw the close reads a final status: code 0, the command's own code, 124 for a deadline, or 1 with the message of any other error |
| LocalSession.EveryRunTerminates | internal/backend/local_exec_session.go:33-126 | every schedule has bounded length, and one that cannot go on has ended every goroutine and closed the channel exactly once, or hangs with a live context |
| LocalSession.HangCondition | internal/backend/local_exec_session.go:47-61 | a run that hangs exists exactly when one of the outputs has a line that does not fit the scanner with more behind it than a pipe holds |
| LocalSession.OverflowHoldsBack | internal/backend/local_exec_session.go:112-126 | with such a line no run whose context is live ever waits for the command or returns |
| LocalSession.OneLongLineHangs | internal/backend/local_exec_session.go:112-126 | an output of one line longer than scanner and pipe together is such a case |
| LocalSession.LossCondition | internal/backend/local_exec_session.go:57-61 | a run can return with a live context and output that was never scanned exactly when there is output and the session cannot hang |
| LocalSession.ReportedCode | internal/executor/backend.go:118-164 | in every run a deadline is reported only after one, and a code reported without an error that is not the command's own is 0 in a cancelled run |
| LocalSession.CancellationReportsSuccess | internal/executor/backend.go:62-75 | for all outputs and every end of the command a run reports no error and code 0 while the command is still running |
| LocalSession.MisreportCondition | internal/executor/backend.go:62-164 | no error with a code that is not the command's own is possible exactly in a cancelled run, not with a live context nor after a deadline |
| Reassembly.LineMeans | internal/backend/opensandbox_backend.go:626-629 | a segment of carriage returns yields no line, any other one line, the segment without the carriage returns at its end |
| Reassembly.LineBuffer.TakeLines | internal/backend/opensandbox_backend.go:615-640 | what one call takes out are the kept lines that the buffered text completes, or all of it on a flush; what stays holds no line feed |
| Reassembly.TakeAll | internal/backend/opensandbox_backend.go:615-647 | however a text is cut into chunks, the lines taken out with the final flush are those of the whole text |
| Reassembly.Resume | internal/backend/opensandbox_backend.go:615-647 | the lines of a text are those its first part completes, then those of what that part left over with the rest |
| OpenSandboxExec.OpenSandboxExecSession.SetError | internal/backend/opensandbox_backend.go:493-499 | an empty message does not erase an earlier one, and nothing else changes |
| OpenSandboxExec.OpenSandboxExecSession.SetExitCode | internal/backend/opensandbox_backend.go:501-505 | only the exit code changes |
| OpenSandboxExec.OpenSandboxExecSession.Finish | internal/backend/opensandbox_backend.go:507-521 | the first call closes the channel and ends the session, later ones change nothing |
| OpenSandboxExec.StepKeepsInv | internal/backend/opensandbox_backend.go:197-229 | every step of the goroutine, of Exec, of the consumer and of the environment keeps the handshake, control and conservation invariants |
| OpenSandboxRuns.HandshakeIsSafe | internal/backend/opensandbox_backend.go:209-228 | in every interleaving at most one value is sent on the two channels and neither send blocks; exactly one when the stream ends uncancelled; the log channel is closed once, after the last emit |
| OpenSandboxRuns.StreamTextIs | internal/backend/opensandbox_backend.go:553-597 | what the emitter is given of a stream is the text of its own events, and for standard error also each error's message and traceback lines, each with a line feed |
| OpenSandboxRuns.LinesAreThoseOfTheText | internal/backend/opensandbox_backend.go:542-647 | in every interleaving the lines received of a stream are a prefix of the lines of that whole text, and all of them after the close of an uncancelled session |
| OpenSandboxStatus.ExecIsAnswered | internal/backend/opensandbox_backend.go:209-228 | Exec is answered with the first command id of the stream that is not empty, and with an error only if there is none: the read error that ended the stream, or that there is no init event |
| OpenSandboxStatus.StatusIsThatOfTheEvents | internal/backend/opensandbox_backend.go:573-611 | the exit code is the last one of the error events read; at the close of an uncancelled session all were read, and the error is the read error at the end or else the last message |
| OpenSandboxRuns.DeadlockCondition | internal/backend/opensandbox_backend.go:476-540 | a run in which Exec waits forever exists exactly when the two texts written before the first init event end more than 64 non-blank lines |
| OpenSandboxRuns.PendingIsCounted | internal/backend/opensandbox_backend.go:542-647 | the lines the emitter will yield before the init event, counted write by write over its buffers, are those that the texts end |
| OpenSandboxRuns.LinesAheadOfInit | internal/backend/opensandbox_backend.go:476-540 | with one text of n lines ahead of the init event Exec can wait forever exactly when n is more than 64 |
| OpenSandboxRuns.WedgeIsReached | internal/backend/opensandbox_backend.go:533-540 | with that many lines every run whose context stays live can be continued to such a state |
| OpenSandboxRuns.EveryRunTerminates | internal/backend/opensandbox_backend.go:542-613 | every schedule is bounded, and one that cannot go on, with few enough lines before the init event, has ended everything |
| DockerLog.DockerLineWriter.Write | internal/executor/docker.go:273-277 | the log is that of the text written so far, the buffer its unfinished last line |
| DockerLog.DockerLineWriter.Flush | internal/executor/docker.go:279-285 | an unfinished last line is logged, an empty one is not |
| DockerLog.DockerLineWriter.DrainCompleteLines | internal/executor/docker.go:287-302 | the in-place loop ends, and has logged exactly the completed lines and kept the remainder |
| DockerLog.DockerLineWriter.EmitLine | internal/executor/docker.go:304-309 | one more line, numbered by the counter and truncated after trimming |
| DockerLog.CopyStream | internal/executor/docker.go:273-302 | for any sequence of writes and one flush the log is that of the concatenated text |
| DockerLog.DockerLinesAccountForText | internal/executor/docker.go:279-309 | numbers are 1..n, and each line is exactly its segment of the text, blank ones included, without the carriage returns at its end and cut at the limit |
| EngineTranscript.CreatedAtMostOnce | internal/phase/engine.go:310-313 | a sandbox is created at most once |
| EngineTranscript.NothingAfterCleanup | internal/phase/engine.go:696-702 | after cleanup the backend is not used again, so cleanup happens at most once and after every command |
| EngineTranscript.PhasesInOrder | internal/phase/engine.go:76-96 | the calls of a run come in the declared order of the phases |
| EngineTranscript.AfterFailure | internal/phase/engine.go:76-96 | after the first fatal failure only collection goes on, and nothing after a failed collection |
| EngineTranscript.ExecAfterStart | internal/phase/engine.go:333-335 | with a managed sandbox a command runs only after a successful start |
| EngineTranscript.ExecAfterCheck | internal/phase/engine.go:464-487 | every command runs after a successful policy check of its phase that no other command has used |
| EngineTranscript.SecretsAfterCheck | internal/phase/engine.go:464-471 | in setup and verification secrets are resolved only for a command that the policy has let pass |
| EngineTranscript.CollectFailure | internal/phase/engine.go:94-96 | a failure of collection is the last failure of a run |
| EngineTranscript.FoldCounts | internal/phase/engine.go:696-702 | the summary counts the cleanups, lists the fatal failures and knows the created sandbox |
| EngineTranscript.FoldCalls | internal/phase/engine.go:65-109 | the summary holds the calls of each phase in order |
| EngineCalls.PrepareCounts | internal/phase/engine.go:111-434 | every call of a successful preparation is made exactly once, under the conditions on configuration and backend that it has |
| EngineCalls.SetupCounts | internal/phase/engine.go:436-498 | a successful setup makes each call once, and checks, gives secrets to and runs every step of its plan |
| EngineCalls.FailedSetupStopsThere | internal/phase/engine.go:464-491 | a setup that fails at a step has done so for each step before it, and of that one only what came before the failing call |
| EngineCalls.ExecuteCounts | internal/phase/engine.go:500-574 | a successful execution makes each call once, and chooses an executor only if setup did not |
| EngineCalls.VerifyCounts | internal/phase/engine.go:576-642 | a successful verification checks and runs the smoke command once, downloads each expected artifact where it can, and looks for each |
| EngineCalls.CollectCounts | internal/phase/engine.go:644-782 | a successful collection writes every file and uploads once, and the summary once more when uploading is configured and went well |
| EngineCalls.DisposalIsPlanned | internal/phase/engine.go:1204-1254 | which of keep, pause and delete the cleanup call of a run is, by kind of backend, cleanup mode and capability |
| EngineReport.OwnCodeIsKept | internal/phase/engine.go:808-862 | an error that has a code of its own is recorded with it |
| EngineReport.EnvironmentCodeTells | internal/phase/engine.go:111-434 | each code of the environment and of the policy is recorded exactly for the calls it stands for |
| EngineReport.SandboxCodeTells | internal/phase/engine.go:284-345 | and so is each code of the sandbox |
| EngineReport.ExecuteCodeTells | internal/phase/engine.go:500-574 | a timeout is recorded exactly for the main command when it ran out of time, an execution failure for its other failures and the other steps |
| EngineReport.CallCodeTells | internal/phase/engine.go:436-782 | and so are the codes of setup, verification and collection |
| PhaseEngine.Emitter.StartPhase | internal/telemetry/emitter.go:146-153 | a span is started and registered |
| PhaseEngine.Emitter.EndPhase | internal/telemetry/emitter.go:199-212 | a registered span is ended once and forgotten, any other is left alone |
| PhaseEngine.Emitter.EndRun | internal/telemetry/emitter.go:214-221 | the run span is ended; it must exist when the run did not succeed |
| PhaseEngine.RunState.StartPhase | internal/phase/engine.go:784-793 | the span of the phase is the only open one |
| PhaseEngine.RunState.FailPhaseWithStatus | internal/phase/engine.go:823-862 | the failure is recorded and reported alike, under its own code if the error has one, and the span ends with an error |
| PhaseEngine.RunState.FailPhase | internal/phase/engine.go:819-821 | the same with status FAILED and exit code zero |
| PhaseEngine.RunState.FailWithoutArtifacts | internal/phase/engine.go:808-817 | the failure is reported but not recorded |
| PhaseEngine.RunState.CheckOrFail | internal/phase/engine.go:438-440 | a failed call ends the phase with its error recorded and returned; a successful one leaves the run where it was |
| PhaseEngine.RunState.RunPrepare | internal/phase/engine.go:111-434 | preparation leaves the run ready, or failed and recorded, or failed and unrecorded exactly when there is no writer; a backend implies an emitter |
| PhaseEngine.RunState.Configure | internal/phase/engine.go:119-185 | a failure before the writer exists is reported only |
| PhaseEngine.RunState.CreateSandbox | internal/phase/engine.go:310-314 | the sandbox created is the one the run remembers |
| PhaseEngine.RunState.StartSandbox | internal/phase/engine.go:333-335 | the created sandbox is started |
| PhaseEngine.RunState.FillSandbox | internal/phase/engine.go:347-383 | a failed workspace upload fails preparation, failed container metadata does not |
| PhaseEngine.RunState.RunSetup | internal/phase/engine.go:436-498 | setup is skipped when disabled, else succeeds after all its calls or fails with the first error |
| PhaseEngine.RunState.RunSetupStep | internal/phase/engine.go:464-489 | one step of the plan: policy, secrets, command |
| PhaseEngine.RunState.RunExecute | internal/phase/engine.go:500-574 | execute is skipped when disabled, else succeeds after all its calls or fails with the first error, a deadline as TIMED_OUT |
| PhaseEngine.RunState.RejectMissingCommand | internal/phase/engine.go:506-508 | without a command the phase fails as an invalid configuration |
| PhaseEngine.RunState.RunVerify | internal/phase/engine.go:576-642 | verify is skipped when disabled, else succeeds after all its calls or fails with the first error |
| PhaseEngine.RunState.CheckVerifyNetwork | internal/phase/engine.go:582-584 | without a configured profile an error of the network policy is ignored |
| PhaseEngine.RunState.DownloadExpectedArtifacts | internal/phase/engine.go:1185-1202 | artifacts are downloaded only from the sandbox that was created |
| PhaseEngine.RunState.CleanupBackend | internal/phase/engine.go:1204-1254 | a known managed sandbox is kept, paused or deleted as its kind, mode and capabilities say, exactly once |
| PhaseEngine.RunState.CollectSandbox | internal/phase/engine.go:648-702 | errors of these calls are only noted, a refresh may change the identifier, and the sandbox still known at the end is disposed of |
| PhaseEngine.RunState.RecordCollect | internal/phase/engine.go:719-730 | the success of collection is recorded only after the replay manifest is written |
| PhaseEngine.RunState.TryUpload | internal/phase/engine.go:746-758 | an upload error does not fail the phase |
| PhaseEngine.RunState.RunCollect | internal/phase/engine.go:644-782 | collection ends with the whole log, result and spans as the failures determine, and returns its own error only if there was none before |
| PhaseEngine.RunState.Run | internal/phase/engine.go:65-109 | the returned error, the recorded phases, the result, the spans and the calls made are those the failed calls determine |
| EngineRuns.RunOnce | internal/phase/engine.go:65-109 | for every outcome of every call: the transcript is lawful and the calls of each phase are those of its plan, up to a call that failed; the error is the first fatal failure or else that of an upload; log, result and spans are determined by the failures; a setup recorded as succeeded has run every step, a verification looked for every artifact; a managed sandbox known at the end is disposed of once, by the call that kind and mode ask for |
| EngineRuns.FirstFailure | internal/phase/engine.go:81-96 | the error comes from the first call that failed fatally |
| EngineRuns.AtMostTwoFailures | internal/phase/engine.go:81-96 | at most two calls fail fatally, one of a main phase and then one of collection |
| EngineRuns.UploadErrorMeans | internal/phase/engine.go:746-780 | an upload error is returned exactly when some upload failed |
| EngineRuns.NoFailureIsMasked | internal/phase/engine.go:81-109 | no error is returned exactly when no call failed fatally and no upload failed; then the status is SUCCEEDED or PARTIAL and the exit code zero, otherwise FAILED, TIMED_OUT or PARTIAL |
| EngineRuns.SucceededPhasesMadeTheirCalls | internal/phase/engine.go:429-432 | a phase recorded as succeeded is enabled and has made exactly the calls of its plan |
| EngineRuns.PhasesRecordedInOrder | internal/phase/engine.go:823-862 | phases are recorded in order, main phases at most once, only collection after a failure, and collection twice only when a call after its recorded success failed |
| EngineRuns.CollectRecordedTwice | internal/phase/engine.go:722-747 | collection is recorded last, and twice exactly when it failed at anything but the replay manifest |
| EngineRuns.SpansAlternate | internal/phase/engine.go:784-806 | every span started is ended before the next one starts |
| EngineRuns.CreatedIdKept | internal/phase/engine.go:657-660 | unless a refresh changes it the identifier at the end is the one creation returned |
| EngineRuns.CleanupNamesCreated | internal/phase/engine.go:644-702 | keeping, pausing or deleting a sandbox comes after its creation and names the created one, unless a refresh has changed the identifier |
| EngineRuns.DisposedOfOnce | internal/phase/engine.go:644-702 | such a sandbox with an identifier is disposed of by exactly one call, and no other sandbox is |
| EngineRuns.ExecAfterUpload | internal/phase/engine.go:347-352 | with a backend that can synchronise a command runs only after the workspace has been uploaded |
| EngineRuns.ExitZeroIffNoError | cmd/sandbox-runner/main.go:16-32 | for a loaded run command the final code is zero exactly when the engine returned no error |
| EngineRuns.FinalCode | cmd/sandbox-runner/main.go:16-32 | the final code of every run is that of its last fatal failure (a command's own code, 124 for the main command out of time, otherwise 1), without one 1 for a failed upload and else 0 |
| EngineRuns.CommandCodeSurvives | internal/phase/engine.go:1545-1563 | the code of a failed command of setup, execution or verification is the final code exactly when collection did not fail too, or the code was 1 |
| EnvResolution.Resolver.ResolveKey | internal/proc/runner.go:132-154 | the closure terminates on every reference graph, agrees with the recursive specification on value and memo, and leaves the in-progress set as it was |
| EnvResolution.MergedEnv | internal/proc/runner.go:109-161 | the loop over the keys computes the specified environment |
| EnvResolution.EnvironmentMeaning | internal/proc/runner.go:109-161 | whatever cycles there are and whatever the visiting order: keys not overridden keep their base value, and every key that reaches no cycle has its recursive meaning |
| EnvResolution.MergeMeans | internal/proc/runner.go:132-158 | the shared memo is right for every key that reaches no cycle |
| EnvResolution.ResolveMeans | internal/proc/runner.go:132-154 | one call gives a key that reaches no cycle its meaning, with any memo and any keys in progress |
| EnvResolution.BusyIsNotGrounded | internal/proc/runner.go:140-142 | a key found in progress reaches a cycle, so reading its base value touches no other key |
| EnvResolution.AcyclicIffGrounded | internal/proc/runner.go:140-153 | reaching no cycle is the same as unfolding in at most as many levels as there are keys |
| EnvResolution.MeaningSolves | internal/proc/runner.go:144-151 | the meaning satisfies the equations that the overrides state |
| EnvResolution.MeaningIsUnique | internal/proc/runner.go:144-151 | and is their only solution on keys that reach no cycle |
| PhaseEnv.Builder.MergeExpanded | internal/phase/engine.go:1702-1711 | the loop computes the sequential expansion in key order |
| PhaseEnv.Builder.Expand | internal/phase/engine.go:1713-1723 | a value with its references looked up in the overrides so far, else in the base environment, else empty |
| PhaseEnv.Builder.Build | internal/phase/engine.go:1689-1700 | run overrides, then those for Go when asked for, then secrets verbatim |
| PhaseEnv.SequentialMeans | internal/phase/engine.go:1702-1711 | when references only look back, every key gets its recursive meaning |
| PhaseEnv.SequentialMeansCut | internal/phase/engine.go:1702-1723 | for every order and all references, every key gets the recursive meaning it has when references to itself and to later keys read the base environment |
| PhaseEnv.AlgorithmsAgree | internal/phase/engine.go:1702-1723 | from an empty destination, when references only look back, the sequential expansion and the recursive resolver agree on every overridden key |
| PhaseEnv.AgreementCondition | internal/phase/engine.go:1702-1723 | for overrides without cycles and self-references the two agree on every base environment exactly when references only look back |
| PhaseEnv.ForwardReferenceDiffers | internal/phase/engine.go:1702-1723 | an input with a forward reference on which the two differ |
| PhaseEnv.SecondExpansionIsOverlay | internal/proc/runner.go:109-161 | on values without references the second expansion is an overlay on the base environment |
| PhaseEnv.RingTakesFirstVisited | internal/proc/runner.go:132-158 | in a ring of references, of any length and beside any other overrides, every key gets the base value of the one visited first, when no key visited before leads to the ring |
| PhaseEnv.RingOrdersAgree | internal/proc/runner.go:132-158 | two such visiting orders agree on the ring exactly when the keys of it that they visit first have the same base value |
| ShellQuoting.OrdinaryWord | internal/executor/backend.go:299-304 | the tokenizer leaves a word of ordinary characters as it is |
| ShellQuoting.ShellJoin | internal/executor/backend.go:291-297 | the joined line tokenizes to the command |
| ShellQuoting.RoundTrip | internal/executor/backend.go:291-304 | for every list of strings, empty ones and embedded quotes included, the shell's words of the joined line are the list |
| ShellQuoting.JoinedIsInjective | internal/executor/backend.go:291-304 | different commands have different lines |
| ShellQuoting.RunQuote | internal/executor/backend.go:299-304 | wherever quotes are not open a quoted value adds exactly that value to the current word |
| ShellQuoting.RunReplaced | internal/executor/backend.go:303-303 | the replacement for a single quote stands for one single quote |
| ShellQuoting.QuotedArgument | internal/backend/opensandbox_workspace.go:95-100 | a quoted path appended to a command line is one more word |
| DenyPatterns.PatternMeansGlob | internal/policy/engine.go:178-182 | compiling never panics, and for every pattern and value the expression matches exactly when the glob does |
| DenyPatterns.ReplaceStarsFragment | internal/policy/engine.go:179-180 | only the stars of the pattern are replaced, never one after an escaped backslash |
| DenyPatterns.ParseCompiled | internal/policy/engine.go:179-181 | the compiled text parses, to one piece per character between two anchors |
| DenyPatterns.MatchIsGlob | internal/policy/engine.go:181-181 | matching from any position is the glob on the rest of the value |
| DenyPatterns.LiteralPattern | internal/policy/engine.go:178-182 | a pattern without stars matches itself only |
| PathNames.CleanIsIdempotent | internal/backend/opensandbox_workspace.go:180-181 | cleaning a cleaned name changes nothing |
| PathNames.AcceptedMeans | internal/backend/opensandbox_workspace.go:180-184 | the prefix test on strings compares whole components |
| PathNames.ContainmentIff | internal/backend/opensandbox_workspace.go:180-184 | every accepted name goes to the directory or beneath it exactly when the directory is not a relative one that leads upwards |
| PathNames.PlainNameAccepted | internal/backend/opensandbox_workspace.go:180-184 | a name without parent references goes beneath the directory, and is accepted exactly when this is not the root or the current directory |
| ArchiveWalk.ShouldExclude | internal/backend/opensandbox_workspace.go:209-217 | whether some component is an excluded name |
| ArchiveWalk.ArchiveForest | internal/backend/opensandbox_workspace.go:118-156 | the walk that does not enter excluded directories writes the entries of the full walk without an excluded component |
| ArchiveWalk.ArchiveDirectory | internal/backend/opensandbox_workspace.go:108-161 | the same for a whole directory |
| ArchiveWalk.KeepIsPrune | internal/backend/opensandbox_workspace.go:130-135 | those entries are the full walk of the tree without its excluded subtrees |
| TarExtraction.FileSystem.MkdirAll | internal/backend/opensandbox_workspace.go:186-189 | succeeds exactly when no file is in the way, and then makes the missing directories and nothing else |
| TarExtraction.FileSystem.WriteFile | internal/backend/opensandbox_workspace.go:194-203 | creates or replaces a file, and refuses to replace a directory |
| TarExtraction.BaseIs | internal/backend/opensandbox_workspace.go:180-181 | an absolute directory is taken as it is, a relative one lies beneath the working directory or as far above as it climbs |
| TarExtraction.FileSystem.ExtractEntry | internal/backend/opensandbox_workspace.go:180-204 | one entry is applied as a whole or not at all |
| TarExtraction.FileSystem.ExtractTar | internal/backend/opensandbox_workspace.go:163-206 | the entries before the first refused one are applied in order, nothing of it or after it |
| TarExtraction.AllStaysBeneath | internal/backend/opensandbox_workspace.go:163-206 | for any entries and any directory that does not lead upwards nothing outside the directory changes, except that missing directories above it are made |
| TarExtraction.RoundTrip | internal/backend/opensandbox_workspace.go:108-206 | archiving a directory and extracting into an empty one rebuilds it without its excluded subtrees and changes nothing else; into the root or the current directory the first entry is refused |
| OctalDigits.OctalDigitsMeaning | internal/opensandbox/client/client.go:357-363 | exactly below eight to the nineteenth the decimal digits of the result are the octal digits of the mode, which read in base eight give the mode back; other modes are returned unchanged |
| OctalDigits.ReadingFits | internal/opensandbox/client/client.go:358-361 | the parse overflows exactly from eight to the nineteenth on |
| RunConfig.NormalizeRunConfig | internal/config/loader.go:125-228 | the chain of branches computes the normal form, field by field |
| RunConfig.NormalizeExecution | internal/config/execution.go:5-18 | the triple is derived only when no backend is given, and the legacy fields then follow it |
| RunConfig.ApplyExecution | internal/config/execution.go:37-65 | the legacy fields follow the triple |
| RunConfig.NormalizeKind | internal/config/loader.go:133-142 | a run mode that asks for more than direct execution wins over a direct kind |
| RunConfig.NormalizeInternalProfile | internal/config/loader.go:143-164 | a native profile is refined by kind and provider, a missing one filled in |
| RunConfig.NormalizeRuntimeClass | internal/config/loader.go:165-170 | one runtime class name ends up in both places |
| RunConfig.NormalizeDocker | internal/config/loader.go:183-206 | defaults of docker, and its context with OrbStack |
| RunConfig.NormalizeK8s | internal/config/loader.go:180-215 | defaults of Kubernetes, and its context by provider |
| RunConfig.NormalizeImages | internal/config/loader.go:216-225 | the two images fill in for each other, then the Apple one for both |
| RunConfig.SpellingIsStable | internal/model/runtime_helpers.go:7-49 | normalising the spelling of a profile twice changes nothing |
| NormalForm.SpelledProfile | internal/model/runtime_helpers.go:24-49 | each runtime profile may be spelled in any case with white space around it, other text is left as it is |
| NormalForm.SpelledExecProfile | internal/model/runtime_helpers.go:7-22 | the same for the profiles of the triple |
| NormalForm.TrimSpaceMeans | internal/model/runtime_helpers.go:8-8 | exactly the white space at both ends is dropped |
| RunConfig.ExecutionIsStable | internal/config/execution.go:5-65 | deriving and applying the triple again changes nothing |
| NormalForm.LegacyKindIsKept | internal/config/loader.go:133-142 | without an execution backend a known kind is kept, a missing, direct or unknown one becomes the one the run mode asks for |
| NormalForm.LegacyBackendFollows | internal/config/execution.go:67-94 | the triple names the backend of that kind |
| NormalForm.LegacyModeIsKept | internal/config/execution.go:170-192 | a run mode is kept, a missing one becomes that of the backend |
| NormalForm.LegacyClusterIsKept | internal/model/provider_helpers.go:3-40 | a known cluster provider is kept and named in the triple, another becomes remote, and an empty context becomes the one that belongs to it |
| NormalForm.LegacyDockerIsKept | internal/config/loader.go:183-203 | a docker provider is kept, a missing one becomes the plain engine, and OrbStack brings its own context |
| NormalForm.LegacyProfileIsKept | internal/config/execution.go:116-130 | Kata, gVisor and Firecracker profiles are kept, and an enabled Kata flag counts as the Kata profile |
| NormalForm.ExplicitTripleIsKept | internal/config/execution.go:5-18 | a given triple is kept, but for the spelling of its profile and defaults for what is missing |
| NormalForm.ExplicitKindFollows | internal/config/execution.go:37-65 | kind and provider of the container engine follow a given triple |
| NormalForm.ProfileOfNormalForm | internal/config/loader.go:143-164 | the internal profile is that of the triple, or the native one refined by kind and provider |
| NormalForm.ImagesOfNormalForm | internal/config/loader.go:216-228 | images that are given are kept, missing ones filled in |
| RunConfig.NormalizationIsIdempotent | internal/config/loader.go:34-36 | normalising again changes nothing, for every configuration, explicit or legacy, with known or unknown values |
| ConfigCoherence.AcceptedIffCoherent | internal/config/validate.go:11-145 | a loaded configuration is accepted exactly when it is coherent and complete |
| ConfigCoherence.SupportedProfiles | internal/compat/matrix.go:5-43 | the compatibility table by profile: the backends and providers that support each |
| ConfigCoherence.AgreesIffInferred | internal/config/validate.go:169-203 | a kind agrees with a run mode exactly when the run mode asks for it |
| ConfigCoherence.RejectionIsTrue | internal/config/validate.go:11-145 | what each rejection says holds of the configuration that was examined |
| ConfigCoherence.LoadRunConfig | internal/config/loader.go:13-32 | accepted exactly when coherent and complete; then the dispatches agree and the engine's second normalisation changes nothing |
| ConfigCoherence.CoherentDispatches | internal/executor/executor.go:44-53 | the backend factory, the executor and the managed-sandbox test agree, so a local backend is never run through a backend executor |
| ConfigCoherence.KindOfNormalForm | internal/config/validate.go:169-203 | where the run mode agrees with the backend the kind does too |
| ConfigCoherence.DockerCommandCoherence | internal/cli/commands.go:52-64 | the edits of the docker command leave a coherent configuration exactly when it was for docker |

## Left out

- LocalSession.EveryRunTerminates: the command is taken to end once it has written its output or its context is done, and to write in one run what it writes in another; a child that keeps a pipe open, a read error of a live pipe and a log handler that blocks are not modelled.
- LocalSession.ReportedCode: the exit code is that of the wait error; how an operating system encodes a signal in it is not modelled.
- OpenSandboxRuns.LinesAreThoseOfTheText: events are given decoded; the JSON decoding of stream events and the session registry are not modelled.
- OpenSandboxStatus.StatusIsThatOfTheEvents: of the session's own status; the one the provider reports, which `ExecStatus` prefers, is not modelled.
- ShellQuoting.RoundTrip: the tokenizer gives up on expansions, operators, patterns, comments, tildes and assignments instead of interpreting them; quoted text contains none unquoted.
- DenyPatterns.PatternMeansGlob: only the fragment of regular expressions that compiled patterns lie in is parsed, and text is a sequence of valid characters.
- EnvResolution.EnvironmentMeaning: values are given as parsed templates; the syntax that os.Expand accepts for a reference is not modelled.
- RunConfig.NormalizationIsIdempotent: path fields, home expansion and the defaults taken from the workspace directory are left out; on paths the statement is false, since cleaning can produce a leading tilde that the next pass expands.
- ConfigCoherence.AcceptedIffCoherent: the check that a dev container has some workspace folder is omitted, as the workspace directory is required anyway; the two OrbStack binaries are one field.
- TarExtraction.RoundTrip: regular files and directories only; no symbolic links, modes, owners or times, and no file-system errors other than a file or directory in the way.
- TarExtraction.AllStaysBeneath: the working directory, from which a relative directory is resolved, is taken to exist; a failure to read the archive itself is not modelled.
- EngineRuns.ExitZeroIffNoError: the truncation of an exit code by the operating system is not modelled.
- PhaseEngine.RunState.Run: `Emitter.StartRun` returns no error on any path, so the branch that handles one is not modelled; neither are writes whose error is discarded, artifact contents, metadata maps, telemetry attributes, timestamps, durations and signals.
- A `char` stands for one byte in log text and paths.
- Redaction of log lines, timestamps and provider names in log records.
- The exec session of the dev container backend, a near copy of the local one.
- The per-command lookups: command classification, language adapters, capability probes, fingerprints, host detection.
- HTTP, Kubernetes, Docker, S3 and telemetry clients, and process spawning: their outcomes are nondeterministic.
- The timeout of `BackendExecutor`, which is only forwarded to the backend.
- The sorting of environment keys: results hold for every visiting order, the sorted one included.
