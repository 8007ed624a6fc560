# Verification of the private speaker-review run and its helpers

This project models, in Dafny, the logic that guards a private speaker-review
run: a directory of evidence that several independently written workers read,
check and extend, one provider batch at a time, and the supporting programs
around it. It proves what that logic keeps over whole runs, including runs that
crash between any two writes. Everything is checked by the verifier; the
original programs are not part of it.

`dafny verify dfyconfig.toml` checks the whole project.

## What is modelled

- **The run** (`RunState`, `RunDisk`, `RunMachine`, `RunInvariant`, `RunSafety`,
  `RunTheorems`, `RunProgress`, `RunFinish`, `RunSizes`, `RunEnding`,
  `RunBinding`, `BatchStates`, `RunSpelled`). The adjudication stage as a machine
  whose steps are single durable writes, provider calls, polls and crashes:
  submission journal, state file, outputs, error files, failure evidence, and the
  provider's own log. Every file has its bytes, and a worker admits the run only
  when it can read the whole directory. The provider is a parameter of the
  events; the one thing assumed of it is that it never hands out an identifier
  twice. The bytes of a serialised record or state come with the event that
  writes them. The safety theorems hold whatever else is in the directory; where
  progress or acceptance is claimed, `Inherited` says that earlier stages left
  the files they should. `Interleaving` takes the submission step apart and lets
  any number of workers run at once.
- **The inventories** (`Names`, `NamesSpelled`, `Groups`, `Inventories`,
  `HandOff`, `Chain`).
  The names each worker demands, computed from the state, and the theorem that
  the separately written predicates chain for every part count.
- **Reading and binding** (`Files`, `Order`, `Digest`, `DigestLayout`,
  `Binding`, `BindingSlots`, `Directories`). The reading and sorting loops, the framed digest fed to a
  running hash, and what a set of expected digests pins down. The hash is an
  arbitrary function; where two directories are compared, that the byte strings
  digested for them do not collide is a hypothesis.
- **The processing workers** (`PrimaryProcessing`, `PrimaryOutcome`,
  `AdjudicationProcessing`, `AdjudicationOutcome`, `OutcomeSpelled`,
  `ReviewedNames`). Shapes, transitions,
  evidence preservation, directory link counts, replays and crash points. The
  source manifest's reader, the state's serialiser and the state loader are
  parameters; what a lemma needs of them for the states at hand stands in the
  lemma.
- **The observers and contracts** (`Observers`, `TransitionLaws`, `Costs`,
  `Contracts`). Five
  separately written observers: one for the primary stage, a generic one for
  adjudication, and three that are special cases of it; the cost conversions over
  exact reals; and the reports on the wire.
- **The codec** (`Codec`, `CodecLaws`, `TextSpelled`, `Request`, `RequestWire`).
  Canonical JSON for flat
  objects of strings and integers (RFC 8259, sections 4, 6 and 7). A wire text
  is modelled as the decoded characters: a canonical print is ASCII, so its
  length in characters is its length in bytes, and a text with any other
  character is refused by the re-encoding check whatever its length.
- **Host refresh** (`HostRefresh`, `HostAdmission`), **subtitle promotion**
  (`Subtitles`, `Promotion`, `PromotionLaws`, `PromotionRules`), **the corpus workspace tree** (`Workspace`,
  `ManifestPaths`, `Utf8Order`), **the catalogue check** (`Catalogue`) and **the
  pipe reader** (`Pipe`). `Lists` holds what several of them say of lists.

The theorems come in two kinds. Some say what holds over whole runs or between
workers. Others say outright what one definition stands for, in letters, numbers
and fields and without its own helpers: which three batch states are known, where
each byte of a digest's stream lies, which digest goes into which slot, which
lines may be taken out of a text. A definition that drifts from the source fails
there.

## What turned out not to hold as one might expect

Each of these is proved with its exact condition.

- Writers and readers disagree on sizes and batch states. An empty download is
  stored, and no worker reads an empty file (`RunProgress.EmptyOutputIsFinal`).
  Any batch state is recorded, and three are known later
  (`RunProgress.UnknownStatusIsFinal`). An output of 32 to 64 MiB is stored, and
  too long for the look back (`RunProgress.UnboundedOutputIsFinal`). All three end
  the run (`RunProgress.DeadEndExactly`), and an unknown state or an oversized
  request may doom it several parts before it stops (`RunEnding.CanFinishExactly`).
- An observer cannot re-enter a run in which it had stored an output, or failure
  evidence, but not yet saved the state: its inventory refuses the stored file
  (`RunSafety.ObserverAdmissionExact`, `RunProgress.CrashAfterOutputIsFinal`,
  `RunProgress.CrashAfterEvidenceIsFinal`).
- The primary-result worker refuses its own partial work from the first
  completion output on, while the adjudication-result worker accepts all of its
  own, as long as the call leaves the candidate count alone
  (`PrimaryOutcome.CompletedCrashPoints`,
  `AdjudicationOutcome.CrashPointsAcceptedExactly`). The retry rule reads four
  digits only, so request parts above 9999 are not re-entrant
  (`PrimaryOutcome.PreparedCrashPoints`, `PrimaryOutcome.FiveDigitRequestIsRefused`).
  The rule accepts any subset of the
  prepared names, not only a prefix of them.
- The transition check would let a prepared run turn completed; only the rest of
  the call rules it out, for every state an accepted call leaves
  (`PrimaryOutcome.PreparedMayFlipIffNoParts`, `PrimaryOutcome.OutcomeIsFinal`).
- The adjudication-result worker's digests cover files, not directories: before
  the outcome is saved, one that no file lies in may come or go
  (`Directories.DirectoriesPinnedExactly`).
- The primary observer's digest binding can be for the first or the second part
  only (`Binding.BindableExactly`); with no binding given it checks nothing of
  the directory.
- The codec loses strings that hold a surrogate pair as two code points
  (`CodecLaws.RoundTripExactly`).
- The review host's refresh leaves three helpers out of its write list. Unless
  they are installed already it publishes the new dispatcher and then fails
  (`HostRefresh.ReviewRefreshNeedsTheFinalReview`).
- Subtitle promotion is not idempotent on a cue with a blank time line
  (`PromotionLaws.PromotionIsIdempotentExactly`).

## Model

| member | source | states |
|---|---|---|
| RunTheorems.AtMostOneBatchPerPart | docs/operations/speaker-review-submission-recovery.md:10-31 | In every run, with any crashes, retries and lost answers, the provider accepts at most one batch per part, parts in order, each with exactly the prepared request bytes, never reusing an identifier |
| Interleaving.AtMostOneBatchWhateverTheOrder | src/cinegraph/ingestion/speaker_review/workflow.py:4427-4461 | With any number of workers for any parts, their reads, exclusive creations, writes and provider calls mixed in any order, and records that were created and not yet written: the provider still accepts at most one batch per part, with the prepared bytes; no two workers hold one part; and every worker that returns a batch returns the provider's own |
| Interleaving.WorkersAgree | src/cinegraph/ingestion/speaker_review/workflow.py:3937-3956 | Two workers that return a batch for the same part return the same batch |
| Interleaving.AloneIsSubmit | src/cinegraph/ingestion/speaker_review/workflow.py:3912-3957 | Run without disturbance, the separate reads and the exclusive creation of the intent have the effect of the one submission step of the run machine, in every case: no request, reuse, lone or mismatched record, refused record, call |
| Interleaving.AloneIsTheMachine | src/cinegraph/ingestion/speaker_review/workflow.py:3958-3992 | And so have the provider's answer, a failed call and the exclusive creation of the completed record |
| RunTheorems.EvidenceIsFrozen | scripts/observe_next_private_speaker_review_adjudication_workspace.py:500-540 | Between any two points of a run journals, outputs, error files, recorded identifiers and the provider log only grow, and no other state field changes |
| RunTheorems.SavedStateIsConsistent | scripts/observe_next_private_speaker_review_adjudication_workspace.py:384-394 | In every reachable world the completed count is in range, the identifier lists have one entry per submitted part and equal the provider's own answers, at most one batch is outstanding, and outputs exist for exactly the completed parts and at most the active one |
| RunTheorems.SavesMakeProgress | scripts/observe_next_private_speaker_review_adjudication_workspace.py:500-540 | Every save strictly lowers 2 * (parts - completed) - [submitted] (zero once failed) |
| RunTheorems.SavesAreBounded | scripts/observe_next_private_speaker_review_adjudication_workspace.py:500-540 | A run of any length saves a changed state at most twice per part |
| RunTheorems.ObservationsPassTheirCheck | scripts/observe_first_private_speaker_review_adjudication_workspace.py:454-494 | Every state an observation saves passes the generic transition check, and for the first part the first observer's own check |
| RunTheorems.PinnedObserversFitTheRun | scripts/observe_fourth_private_speaker_review_adjudication_workspace.py:369-395 | Every submitted run an observer pinned to its part is meant for meets that observer's checkpoint (distinct identifiers included), and what is saved passes its transition check |
| RunTheorems.SubmissionsAreReportable | scripts/private_speaker_review_next_adjudication_submission_contract.py:165-203 | Every outcome of a submission from part two on yields a report the wire contract accepts |
| RunInvariant.NextKeepsInv | src/cinegraph/ingestion/speaker_review/workflow.py:3864-3992 | Every single event, crash included, keeps the invariant of state, journals, provider log, outputs and worker memory |
| RunInvariant.RunKeepsInv | src/cinegraph/ingestion/speaker_review/workflow.py:3864-3992 | So does every run |
| RunSafety.AdmittedIsUnstored | scripts/observe_next_private_speaker_review_adjudication_workspace.py:384-414 | Whatever earlier stages left, an observer that admits a run finds no output and no failure evidence of the active part |
| RunSafety.ObserverAdmissionExact | scripts/observe_next_private_speaker_review_adjudication_workspace.py:367-425 | On what earlier stages should have left, a submitted run is admitted by the observer whose turn it is if and only if nothing of the active part was stored, every file is readable, and from part two on the look back finds known batch states and outputs of a readable size; so a crash between storing and saving is not re-entrant |
| RunSafety.SubmissionAdmissionExact | scripts/submit_next_private_speaker_review_adjudication_workspace.py:189-258 | On what earlier stages should have left, a resting run is admitted by the submission worker, at every crash point of an earlier submission, if and only if a part is left, every file is readable and the look back at the completed parts finds known batch states and readable outputs |
| RunSafety.RecordValidExactly | src/cinegraph/ingestion/speaker_review/workflow.py:2661-2719 | In every reachable world the journal check of a submitted part, bindings and identifiers included, comes down to whether the recorded batch state is one of the three known ones |
| RunSafety.PartsValidExactly | src/cinegraph/ingestion/speaker_review/workflow.py:2661-2719 | And the check of all completed parts comes down to that and to outputs of a readable size |
| RunProgress.SubmittingAPart | src/cinegraph/ingestion/speaker_review/workflow.py:3864-3992 | From any run that is no dead end, an uninterrupted submission changes exactly the intent, the provider log, the completed record with the batch state, the state file and the saved identifiers of the next part |
| RunProgress.ObservingAPart | src/cinegraph/ingestion/speaker_review/workflow.py:4018-4036 | From any run that is no dead end, an uninterrupted observation stores exactly the received output and error file under the active part and advances the count |
| RunProgress.FailingAPart | src/cinegraph/ingestion/speaker_review/workflow.py:4052-4080 | A provider failure stores its evidence and ends the run as failed, changing nothing else |
| RunProgress.RecoveryReusesTheBatch | docs/operations/speaker-review-submission-recovery.md:21-22 | After a crash behind the completed record the next submission saves the recorded batch and the provider is not called |
| RunProgress.DeadEndsAreFinal | docs/operations/speaker-review-submission-recovery.md:23-53 | A failed run, a finished one, one with a lone intent, one with stored but unsaved evidence of the active part, and one holding something no reader takes never change again by themselves |
| RunProgress.DeadEndExactly | scripts/observe_next_private_speaker_review_adjudication_workspace.py:611-614 | An idle run can be moved by some event if and only if it is none of those dead ends |
| RunProgress.CrashAfterIntentIsFinal | src/cinegraph/ingestion/speaker_review/workflow.py:3957-3985 | From every run that can start a submission, a crash behind the intent ends it with a lone intent |
| RunProgress.CrashAfterOutputIsFinal | src/cinegraph/ingestion/speaker_review/workflow.py:4018-4036 | From every run that can be observed, a crash behind the stored output ends it with an unsaved observation |
| RunProgress.CrashAfterEvidenceIsFinal | src/cinegraph/ingestion/speaker_review/workflow.py:4052-4080 | From every run that can be observed, a crash behind the stored failure evidence ends it with an unsaved observation |
| RunProgress.EmptyOutputIsFinal | src/cinegraph/ingestion/speaker_review/private_io.py:587-596 | An empty output is stored and saved as observed, and the run ends there: no later worker reads an empty file |
| RunProgress.UnboundedOutputIsFinal | src/cinegraph/ingestion/speaker_review/workflow.py:4395-4424 | An output the workflow's reader refuses, empty or over 32 MiB, is stored and saved as observed, and the run ends there |
| RunProgress.UnknownStatusIsFinal | src/cinegraph/ingestion/speaker_review/workflow.py:2682-2692 | A submission answered with a batch state outside the three known ones is recorded, and the run ends no later than its observation |
| BatchStates.RecordedStatesGoOn | src/cinegraph/ingestion/speaker_review/workflow.py:2682-2692 | A prepared run whose batches are recorded as "validating", "completed" or "failed", in any mixture, with outputs of up to 32 MiB: every part is admitted to its submission and to its observation, and the run ends finished with every output stored |
| BatchStates.PreparedDirectoryExists | scripts/process_private_speaker_review_adjudication_results_workspace.py:152-265 | Every prepared state has a directory the theorems about prepared runs apply to |
| BatchStates.OtherStatesAreFinal | src/cinegraph/ingestion/speaker_review/workflow.py:2966-2979 | A batch recorded in any state but those three ends the run no later than its observation |
| BatchStates.InProgressIsFinal | src/cinegraph/ingestion/speaker_review/workflow.py:2966-2979 | A failing input: the state "in_progress" |
| RunSpelled.SubmissionWritesOut | src/cinegraph/ingestion/speaker_review/workflow.py:3912-3992 | An uninterrupted submission, written out: one intent and one call with the prepared bytes, one completed record with the answer, and a state that names batch and input file each in its own field; nothing else changes |
| RunSpelled.ObservationWritesOut | src/cinegraph/ingestion/speaker_review/workflow.py:2775-2828 | An uninterrupted observation, written out: output and error file as received under the part's own number, a state that counts one part more; nothing else changes |
| RunSpelled.FailedCallsSpelled | src/cinegraph/ingestion/speaker_review/workflow.py:3958-3982 | A call that fails, or an answer that is refused, leaves the provider's log and nothing else |
| RunSpelled.RefusedRecords | src/cinegraph/ingestion/speaker_review/workflow.py:4427-4461 | A record over 4 KiB or already there, and a state text over 64 MiB, are refused and change no file |
| RunSpelled.RefusedEvidence | src/cinegraph/ingestion/speaker_review/private_io.py:587-596 | Evidence over 64 MiB, or other than what is stored under the name, is refused and changes no file |
| RunSpelled.RecordRefusals | src/cinegraph/ingestion/speaker_review/workflow.py:2661-2719 | A valid journal of a part stops being valid with any other bound request, any other batch or input file, any state but the three, or a record taken away |
| RunSpelled.AdmittedSubmission | src/cinegraph/ingestion/speaker_review/workflow.py:2511-2568 | Whatever the run went through, an admitted submission has counts, identifiers (distinct, neither empty nor padded) and the records and outputs of all earlier parts in order, and nothing stored of its own part |
| RunSpelled.AdmittedObservation | src/cinegraph/ingestion/speaker_review/workflow.py:2910-2987 | And so has an admitted observation, the journal of the active part included |
| RunSpelled.StageCompleteExactly | src/cinegraph/ingestion/speaker_review/workflow.py:1571-1669 | What the check of a whole adjudication stage demands, written out |
| RunSpelled.AdmittedReplay | src/cinegraph/ingestion/speaker_review/workflow.py:2989-3034 | What the replay of a saved observation demands from the second part on, written out |
| RunSpelled.AnswersSpelled | src/cinegraph/ingestion/speaker_review/workflow.py:3966-3976 | An answer is taken exactly when its three fields are neither empty nor padded |
| RunSpelled.SubmissionNamesExactly | scripts/submit_next_private_speaker_review_adjudication_workspace.py:189-229 | The names either submission worker admits are the evidence of the parts so far and, before the next part, its two journal records, and for the generic worker its output and error file |
| RunFinish.ObservedRunReplaysExactly | scripts/observe_next_private_speaker_review_adjudication_workspace.py:626-660 | A saved observation can be replayed if and only if the next submission has written no journal record, every file is readable and, from part two on, batch states are known and outputs and error files of a readable size |
| RunFinish.FinishedRunIsProcessable | scripts/process_private_speaker_review_adjudication_results_workspace.py:152-265 | Every finished run has the names the adjudication-result worker wants; its reading, its shape check on the files as it sorts them and its check of the adjudication stage all pass if and only if every file is readable, the state file is the canonical text of the state, the source manifest names the reviewed outputs, every batch state is known and every output is of a readable size |
| RunFinish.RunCanFinish | src/cinegraph/ingestion/speaker_review/workflow.py:2018-2055 | From any settled point with readable files, whatever the provider answers in known batch states, and whatever outputs, error files and texts within the limits make a directory that fits at every step, the run ends finished, with one batch per remaining part, exactly those outputs and error files, and the last text saved as its state file |
| RunFinish.EveryPreparedRunCanBeProcessed | scripts/process_private_speaker_review_adjudication_results_workspace.py:381-405 | From every prepared state and every readable prepared directory, whatever its files hold and whatever the provider answers within the limits, the run ends with exactly one batch per part and exactly the outputs and error files the provider sent; the adjudication-result worker takes it if and only if the last text saved is canonical and the source manifest names the reviewed outputs |
| RunEnding.CanFinishExactly | docs/operations/speaker-review-submission-recovery.md:10-53 | An idle run, submitted or not, can still be brought to an end that every reader takes if and only if it has not failed, no intent stands alone, no observation is half stored, the directory is readable and has a byte of room for every file still missing and for the state, every recorded batch state is known, every stored output is readable and every request is of a readable size, those of later parts included |
| RunDisk.DiskFilesNames | scripts/observe_next_private_speaker_review_adjudication_workspace.py:408-425 | The files a worker reads go by exactly the names the inventories are held against |
| RunDisk.FittingDiskIsReadable | scripts/observe_next_private_speaker_review_adjudication_workspace.py:415-425 | Sizes add up: a directory of non-empty files within their limits whose sizes sum to no more than the total is readable |
| RunSizes.ReadableExactly | scripts/observe_next_private_speaker_review_adjudication_workspace.py:415-425 | On what earlier stages should have left no two files share a name, so the directory is readable if and only if every file is non-empty and within its limit and the sizes, each file counted once, sum to no more than the total |
| RunBinding.AdmissionIsBindable | scripts/observe_next_private_speaker_review_adjudication_workspace.py:367-453 | From part two on, the machine's observer admits a directory that can be framed if and only if some set of expected digests is met by it, state, request and all four groups, and the look back succeeds |
| RunBinding.CheckpointExistsExactly | scripts/observe_next_private_speaker_review_adjudication_workspace.py:367-453 | Some expected digests are met if and only if the state, the names, the sizes and the framing are right: every such directory fits its own digests |
| Chain.WholeChain | scripts/observe_private_speaker_review_workspace.py:236-259 | For all part counts: the names before the last primary observation, extended by all that the later steps add, are an input of the adjudication-result worker if and only if the primary observer accepts them at the start |
| Chain.LastPrimaryPartLinks | scripts/process_private_speaker_review_results_workspace.py:423-451 | The directory with the last primary output, and perhaps its error file, is an input of the primary-result worker with nothing derived if and only if the primary observer accepted it without them |
| Chain.PreparedLinksToFirstObserver | scripts/observe_first_private_speaker_review_adjudication_workspace.py:283-327 | What primary processing prepares plus journal pair one is exactly what the first observer demands |
| Chain.FirstObserverIsEvidence | scripts/observe_first_private_speaker_review_adjudication_workspace.py:283-327 | The first observer's inventories are the evidence of one submitted and zero or one observed part |
| Chain.NextObserverIsEvidence | scripts/observe_next_private_speaker_review_adjudication_workspace.py:287-364 | The generic observer's inventories are the evidence of the submitted and observed parts, for every count |
| Chain.FirstIsNext | scripts/observe_next_private_speaker_review_adjudication_workspace.py:287-364 | The separately written first inventory equals the generic one at the first part |
| Chain.ObservingLinks | scripts/observe_next_private_speaker_review_adjudication_workspace.py:287-364 | Observing part k + 1 adds exactly what turns one accepted inventory into the next |
| Chain.SubmittingLinks | scripts/submit_next_private_speaker_review_adjudication_workspace.py:189-229 | Submitting part k + 1 adds exactly its two journal records |
| NamesSpelled.PartNamesSpelled | scripts/process_private_speaker_review_results_workspace.py:262-299 | Every generated name, letter by letter, for every part number |
| NamesSpelled.NumbersSpelled | scripts/process_private_speaker_review_results_workspace.py:266 | Part numbers are printed with four digits up to 9999 and with as many as it takes above |
| NamesSpelled.FixedNamesSpelled | scripts/process_private_speaker_review_results_workspace.py:61-67 | The fixed names, letter by letter |
| NamesSpelled.EvidenceParts | scripts/observe_next_private_speaker_review_adjudication_workspace.py:287-364 | For every stage, kind and number: whether a run with n submitted and k observed parts has to have that file, may have it, or must not |
| NamesSpelled.EvidenceNames | scripts/observe_next_private_speaker_review_adjudication_workspace.py:287-364 | And beside part files it has to have the six fixed names and may have no other |
| NamesSpelled.PrimaryObserverParts | scripts/observe_private_speaker_review_workspace.py:236-259 | The same for the primary observer |
| NamesSpelled.PrimaryObserverNames | scripts/observe_private_speaker_review_workspace.py:236-259 | And beside part files the primary observer demands the three sources and admits no other name |
| NamesSpelled.PrimaryGroupExactly | scripts/process_private_speaker_review_results_workspace.py:397-411 | The primary-result worker's sorting rule, for every name |
| NamesSpelled.AdjudicationGroupExactly | scripts/process_private_speaker_review_adjudication_results_workspace.py:112-132 | The adjudication-result worker's sorting rule, for every path, by what stands behind its last slash |
| NamesSpelled.TotalSpelled | scripts/observe_next_private_speaker_review_adjudication_workspace.py:408-425 | Sizes add up: nothing weighs nothing, one file more adds its own size, a file replaced is exchanged for the new one |
| NamesSpelled.LimitsSpelled | scripts/observe_next_private_speaker_review_adjudication_workspace.py:408-425 | A directory is read exactly when nothing is empty, the state file is within 64 KiB, every other within 64 MiB and the whole within 256 MiB |
| HandOff.PreparedInputIsInterval | scripts/process_private_speaker_review_results_workspace.py:423-451 | The primary-result worker's group-by-group check on a prepared run is one interval of name sets |
| HandOff.FreshInputIsInterval | scripts/process_private_speaker_review_results_workspace.py:423-451 | The same before anything is derived |
| HandOff.AdjudicationInputIsInterval | scripts/process_private_speaker_review_adjudication_results_workspace.py:152-265 | The adjudication-result worker's group-by-group check before its outcome is the evidence interval at full part counts |
| Inventories.InParts | scripts/process_private_speaker_review_results_workspace.py:264-299 | A printed part name is in a range of names exactly when stage, kind and number say so |
| Names.PartNamesInjective | scripts/process_private_speaker_review_results_workspace.py:264-299 | Part-name printing is injective across stage, part number and kind |
| Names.UnnamePart | scripts/process_private_speaker_review_results_workspace.py:264-299 | A printed part name is read back to its stage, number and kind |
| Groups.PartGroups | scripts/process_private_speaker_review_results_workspace.py:397-411 | Each generated name lands in the group that each of the three separately written sorting rules expects |
| Groups.PartIsNotFixed | scripts/process_private_speaker_review_results_workspace.py:397-411 | No generated part name collides with a fixed file name |
| PrimaryProcessing.RequestMatches | scripts/process_private_speaker_review_results_workspace.py:68 | The request pattern matches a printed request exactly up to part 9999, and recovers its number |
| PrimaryProcessing.MatchIsPartName | scripts/process_private_speaker_review_results_workspace.py:289-293 | A name the pattern matches is the printed name of its number |
| Files.ReadAll | scripts/observe_next_private_speaker_review_adjudication_workspace.py:415-425 | The reading loop succeeds exactly when no file is empty or over its limit and the byte total fits, and then returns the directory |
| Files.SortFiles | scripts/observe_next_private_speaker_review_adjudication_workspace.py:426-442 | The classification loop files every name under its group |
| Files.SortingPartitions | scripts/process_private_speaker_review_results_workspace.py:389-411 | Nothing is lost, changed or filed twice |
| Files.GroupsDetermineContents | scripts/process_private_speaker_review_results_workspace.py:389-411 | Equal groups come from equal directories |
| Digest.SetDigest | scripts/process_private_speaker_review_results_workspace.py:243-251 | The four-updates loop feeds the hash exactly the framed stream in code point order, and fails exactly on a length that overflows |
| Digest.FeedFrame | scripts/process_private_speaker_review_results_workspace.py:246-250 | One turn feeds one frame |
| Digest.FrameCancels | scripts/process_private_speaker_review_results_workspace.py:246-250 | A frame delimits itself: equal streams start with equal frames |
| Digest.StreamInjective | scripts/process_private_speaker_review_results_workspace.py:243-251 | Different sets of files feed the hash different bytes |
| DigestLayout.StreamLayout | scripts/process_private_speaker_review_results_workspace.py:243-251 | The bytes hashed for any set of files: four bytes that give the length of the least name, the name, eight bytes that give the length of its content, the content, then the rest of the files |
| DigestLayout.StreamLength | scripts/process_private_speaker_review_results_workspace.py:243-251 | Twelve bytes a file more than the encoded names and the contents |
| DigestLayout.LiteralStreams | scripts/process_private_speaker_review_results_workspace.py:243-251 | Two sets of files and their whole streams |
| DigestLayout.OrderSpelled | scripts/process_private_speaker_review_results_workspace.py:245 | Names are listed in code point order: a prefix first, otherwise by the first character that differs |
| DigestLayout.LengthsInBytes | scripts/process_private_speaker_review_results_workspace.py:247-249 | Lengths are written most significant byte first |
| DigestLayout.EncodedLiterals | scripts/process_private_speaker_review_results_workspace.py:246 | The encoding at both ends of every width |
| Digest.EncodeInjective | scripts/process_private_speaker_review_results_workspace.py:246 | UTF-8 encoding of names is injective |
| Order.PickLeast | scripts/process_private_speaker_review_results_workspace.py:245 | The loop that finds the least remaining name |
| Binding.ValidateCheckpoint | scripts/observe_next_private_speaker_review_adjudication_workspace.py:367-453 | The observer's checkpoint method accepts exactly when state, request, inventory, sizes and all four group digests fit |
| BindingSlots.CheckpointExactly | scripts/observe_next_private_speaker_review_adjudication_workspace.py:367-453 | With names, sizes, state and framing right, the observer accepts exactly one record of expected values: in each slot the digest of its own group of files, told by their names, and of no other |
| BindingSlots.ExchangedSlotsAreRefused | scripts/observe_next_private_speaker_review_adjudication_workspace.py:375-382 | Two values exchanged are refused, whenever they differ |
| BindingSlots.PrimaryCheckpointExactly | scripts/observe_private_speaker_review_workspace.py:262-322 | The same for the primary observer: part, state, request, part journals, everything else |
| BindingSlots.UnboundExactly | scripts/observe_private_speaker_review_workspace.py:262-275 | With no value given the primary observer checks nothing, with some given and some not it refuses |
| BindingSlots.SnapshotBoundExactly | scripts/process_private_speaker_review_results_workspace.py:470-508 | The same for the primary-result worker's five slots |
| BindingSlots.SortedBoundExactly | scripts/process_private_speaker_review_adjudication_results_workspace.py:268-296 | The same for the adjudication-result worker's six |
| BindingSlots.HashesAreSpelledOut | scripts/process_private_speaker_review_results_workspace.py:254-261 | An expected value is sixty-four lower-case hexadecimal digits or it is refused |
| Binding.CheckpointPinsTheDirectory | scripts/observe_next_private_speaker_review_adjudication_workspace.py:367-453 | One set of expected digests fits at most one directory, byte for byte, unless two of the digested byte strings of the two directories collide |
| Binding.ValidatePrimaryCheckpoint | scripts/observe_private_speaker_review_workspace.py:262-322 | The primary observer's checkpoint method accepts everything when nothing is bound, and otherwise exactly when part, state, request, inventory, sizes and both digests fit |
| Binding.PrimaryCheckpointPinsTheDirectory | scripts/observe_private_speaker_review_workspace.py:314-322 | A bound primary checkpoint, with two digests, fits at most one directory, unless two digested byte strings collide |
| Binding.BindableExactly | scripts/observe_private_speaker_review_workspace.py:262-322 | Some bound checkpoint is accepted if and only if the state is submitted with at most one completed part, the names are the observer's, and the directory is readable and framed; so from two completed primary parts on none is |
| Binding.ValidateBinding | scripts/process_private_speaker_review_results_workspace.py:470-508 | The primary-result worker's binding method accepts exactly when all five digests fit |
| Binding.BindingPinsTheTree | scripts/process_private_speaker_review_results_workspace.py:339-420 | One set of digests fits at most one tree of files and directories, unless two digested byte strings collide: directory keys never meet file keys |
| Binding.SortedBindingPinsTheFiles | scripts/process_private_speaker_review_adjudication_results_workspace.py:268-296 | The adjudication-result worker's six digests fit at most one set of files, unless two digested byte strings collide |
| Directories.DirectoriesPinnedExactly | scripts/process_private_speaker_review_adjudication_results_workspace.py:225-265 | They do not cover directories: on trees a walk can list, the accepted directory names are undetermined if and only if the outcome is not yet saved and some allowed directory lies above no file |
| Directories.ReviewedDirectoryEscapes | scripts/process_private_speaker_review_adjudication_results_workspace.py:225-265 | A failing input: two closed trees with the same files, both accepted, with different directories |
| PrimaryProcessing.CollectCompletedOutputs | scripts/process_private_speaker_review_results_workspace.py:302-328 | The loop computes the reviewed files and directories of a manifest, or fails on the first unusable source |
| PrimaryProcessing.TakeSnapshot | scripts/process_private_speaker_review_results_workspace.py:331-420 | The snapshot is the sorted directory with its subdirectories filed as derived |
| OutcomeSpelled.SnapshotSpelled | scripts/process_private_speaker_review_results_workspace.py:389-420 | A snapshot keeps the state and three groups of files, and with the derived files an empty entry for every directory, its name closed by a slash |
| PrimaryProcessing.ValidateShape | scripts/process_private_speaker_review_results_workspace.py:423-451 | The shape check, with its loop over retried names, decides the declarative shape |
| OutcomeSpelled.PrimaryShapeExactly | scripts/process_private_speaker_review_results_workspace.py:423-451 | The directories the primary-result worker accepts, status by status, with every name written out |
| OutcomeSpelled.PrimaryCallExactly | scripts/process_private_speaker_review_results_workspace.py:552-670 | One accepted call of that worker, written out: a fully observed run, both directories in shape, no artifact, journal, output or earlier derived file changed, the saved state the one returned, a report the contract takes |
| ReviewedNames.ReviewedFileExactly | scripts/process_private_speaker_review_results_workspace.py:318-324 | A source yields the file of its own stem with the suffix ".automated-reviewed.srt" in the directory of its own season, printed with two digits |
| ReviewedNames.ReviewedFileLiteral | scripts/process_private_speaker_review_results_workspace.py:318-324 | One source in two seasons, in full |
| ReviewedNames.CompletedOutputsExactly | scripts/process_private_speaker_review_results_workspace.py:302-329 | A manifest is usable exactly when it has a source and each ends in ".script-aligned.srt" and names a season; its files and directories are then exactly those of its sources |
| PrimaryOutcome.CompletedReplayIsNoOp | scripts/process_private_speaker_review_results_workspace.py:552-616 | An accepted replay of a completed run stays completed and changes no evidence |
| PrimaryOutcome.PreparedReplayKeepsParts | scripts/process_private_speaker_review_results_workspace.py:552-616 | An accepted replay of a prepared run with parts stays prepared, its part count never falls, and with an equal count no evidence changes |
| PrimaryOutcome.OutcomeIsFinal | scripts/private_speaker_review_primary_result_processing_contract.py:170-217 | Over any sequence of accepted calls the first outcome stands: prepared stays prepared and never loses a part, completed stays completed, and the evidence is kept |
| PrimaryOutcome.PreparedMayFlipIffNoParts | scripts/process_private_speaker_review_results_workspace.py:562-566 | The transition prepared to completed, which the transition check alone allows, can be accepted by a whole call if and only if no adjudication part was prepared and there are candidates, in a state no accepted call leaves |
| PrimaryOutcome.PreparedCrashPoints | scripts/process_private_speaker_review_results_workspace.py:434-451 | A crash point of preparing is re-entrant if and only if every request part written is numbered within the candidate count and 9999 |
| PrimaryOutcome.FiveDigitRequestIsRefused | scripts/process_private_speaker_review_results_workspace.py:68 | A failing crash point exists for every accepted call that prepares ten thousand parts or more: the directory with request part 10000 alone is refused |
| PrimaryOutcome.CompletedCrashPoints | scripts/process_private_speaker_review_results_workspace.py:434-451 | A crash point of completing is re-entrant if and only if no completion output was written yet |
| PrimaryOutcome.LedgerAloneIsRefused | scripts/process_private_speaker_review_results_workspace.py:434-451 | Such a refused crash point exists for every completed call from a directory with nothing derived |
| AdjudicationProcessing.ExpectedLinks | scripts/process_private_speaker_review_adjudication_results_workspace.py:66-78 | The expected link count is the old one plus the created children |
| OutcomeSpelled.ParentSpelled | scripts/process_private_speaker_review_adjudication_results_workspace.py:66-78 | The parent of a path stands before its last slash, that of a top-level name is the root |
| OutcomeSpelled.ChildrenSpelled | scripts/process_private_speaker_review_adjudication_results_workspace.py:66-78 | A directory's children are those one level down |
| AdjudicationProcessing.LinkCountLaw | scripts/process_private_speaker_review_adjudication_results_workspace.py:431-453 | On POSIX trees the count check passes exactly when the later counts are right, for nested creations too |
| AdjudicationProcessing.ValidateProcessingShape | scripts/process_private_speaker_review_adjudication_results_workspace.py:152-265 | The shape check with its growing sets decides the declarative shape |
| AdjudicationProcessing.CompareDirectories | scripts/process_private_speaker_review_adjudication_results_workspace.py:431-453 | The directory loop accepts exactly when identities and counts fit |
| AdjudicationProcessing.Process | scripts/process_private_speaker_review_adjudication_results_workspace.py:345-374 | The worker's checks around one call, in its order, accept exactly the calls that keep shape, evidence, link counts and contract; an accepted reply carries every count, both part counts, the status and the ceiling under its own name, and each cost as the least integer not below a million times its own amount |
| OutcomeSpelled.AdjudicationShapeExactly | scripts/process_private_speaker_review_adjudication_results_workspace.py:133-265 | The directories the adjudication-result worker accepts, status by status, with every name written out |
| OutcomeSpelled.AdjudicationCallExactly | scripts/process_private_speaker_review_adjudication_results_workspace.py:381-470 | One accepted call of that worker, written out: both directories in shape, no artifact, journal, output or earlier request or derived file changed, every earlier directory the same with one link more for each made in it, on a replay the same state, a report the contract takes |
| TransitionLaws.ProcessingContract | scripts/private_speaker_review_adjudication_result_processing_contract.py:129-169 | The processing contract as a table of its two outcomes |
| TransitionLaws.PrimaryContract | scripts/private_speaker_review_primary_result_processing_contract.py:170-217 | The same for primary processing |
| TransitionLaws.PrimaryReportNames | scripts/process_private_speaker_review_results_workspace.py:529-549 | Every number of the primary report under its own name |
| TransitionLaws.PrimaryTransitionExactly | scripts/process_private_speaker_review_results_workspace.py:552-588 | What a call of the primary-result worker may change in the state, field by field |
| AdjudicationOutcome.ReplayIsNoOp | scripts/process_private_speaker_review_adjudication_results_workspace.py:405-455 | An accepted replay changes no file, no directory, no link count and not the state |
| AdjudicationOutcome.UntouchedReplayIsAccepted | scripts/process_private_speaker_review_adjudication_results_workspace.py:405-455 | Conversely an untouched directory is an accepted replay whenever its outcome can be reported |
| AdjudicationOutcome.FreshCallReachesAnOutcome | scripts/process_private_speaker_review_adjudication_results_workspace.py:381-462 | An accepted fresh call starts fully observed, reaches one of two outcomes, keeps both part counts and names the outcome |
| AdjudicationOutcome.JournalsFixPartCounts | scripts/process_private_speaker_review_adjudication_results_workspace.py:169-196 | The journal names alone determine both part counts |
| AdjudicationOutcome.CrashPointsAcceptedExactly | scripts/process_private_speaker_review_adjudication_results_workspace.py:152-265 | A directory between the start and the end of an accepted call is accepted again before the state is saved if and only if no final-review request in it is numbered beyond the candidate count; always, when the call leaves that count alone |
| AdjudicationOutcome.RetryFinishesTheCall | scripts/process_private_speaker_review_adjudication_results_workspace.py:381-462 | A retry from such a crash point to the same end is accepted under the same condition, with the same report |
| AdjudicationOutcome.TooManyPartsWouldBeRefused | scripts/private_speaker_review_adjudication_result_processing_contract.py:147-165 | The contract's bound on final-review parts is needed: beyond the candidate count a crash point is refused |
| Observers.FirstTransitionIsNextAtZero | scripts/observe_first_private_speaker_review_adjudication_workspace.py:454-494 | The first observer's transition rule equals the generic one if and only if nothing is completed |
| Observers.PinnedIsNextRestricted | scripts/observe_third_private_speaker_review_adjudication_workspace.py:495-543 | A pinned observer's checkpoint and transition are the generic ones restricted to its part |
| Observers.PrimaryTransitionIsExchanged | scripts/observe_private_speaker_review_workspace.py:360-400 | The primary observer's separately written transition check is the generic one with the two stages exchanged |
| Observers.FourthIsNextRestricted | scripts/observe_fourth_private_speaker_review_adjudication_workspace.py:364-395 | The fourth checkpoint is the generic one at three completed parts with distinct identifiers; its cardinality test says exactly that |
| Observers.AcceptedObservationIsReportable | scripts/private_speaker_review_next_adjudication_observation_contract.py:164-210 | From an accepted checkpoint with costs in range, every accepted transition, the reconciliation reply and the repeated reply to a completed one yield a report the contract accepts |
| Observers.ReplayedObservationIsReportable | scripts/private_speaker_review_next_adjudication_observation_contract.py:190-199 | The repeated reply is acceptable if and only if more than one part is completed, which the workflow's check of a replayed state guarantees |
| Observers.ReportTellsTheOutcome | scripts/observe_next_private_speaker_review_adjudication_workspace.py:476-497 | Equal reports from one checkpoint come from equal outcomes, time stamps aside |
| TransitionLaws.OutcomesExactly | scripts/observe_next_private_speaker_review_adjudication_workspace.py:500-540 | From a submitted part there are exactly three outcomes, and what each may change is written out |
| TransitionLaws.CheckpointRefusals | scripts/observe_next_private_speaker_review_adjudication_workspace.py:384-394 | From a state the generic observer starts from, every other value of a field it looks at is refused |
| TransitionLaws.FirstCheckpointRefusals | scripts/observe_first_private_speaker_review_adjudication_workspace.py:329-350 | The same for the first observer |
| TransitionLaws.ObservationReportNames | scripts/observe_next_private_speaker_review_adjudication_workspace.py:476-497 | Every number of an observation report under its own name, the cost exactly |
| TransitionLaws.ObservedReplies | scripts/observe_next_private_speaker_review_adjudication_workspace.py:640-692 | The reply of an accepted observation tells which of the three outcomes it was |
| TransitionLaws.ObservationContract | scripts/private_speaker_review_next_adjudication_observation_contract.py:164-210 | The observation contract as a table of reply, run status and completed parts |
| TransitionLaws.SubmissionContract | scripts/private_speaker_review_next_adjudication_submission_contract.py:165-203 | The submission contract as a table of reply, run status and batches submitted |
| Costs.MicrosExactly | scripts/observe_next_private_speaker_review_adjudication_workspace.py:152-203 | The three conversions: the very amount, and the least integer not below it, with or without the five-dollar cap |
| Costs.AdmittedCostIsWithinCeilings | scripts/observe_next_private_speaker_review_adjudication_workspace.py:152-202 | The test on converted amounts passes exactly when the true sum is within both ceilings |
| Costs.RoundedSumIsConservative | scripts/process_private_speaker_review_adjudication_results_workspace.py:344-378 | Rounding up is conservative, and overshoots by less than two millionths |
| Codec.CollectPairs | scripts/private_speaker_review_final_review_observation_contract.py:94-100 | The pair hook builds the dictionary and refuses exactly the lists with a repeated key |
| CodecLaws.DecodeExactly | scripts/private_speaker_review_final_review_observation_contract.py:103-122 | A text decodes to an object if and only if it is that object's canonical print, fits the cap, and no string holds a split surrogate pair |
| CodecLaws.RoundTripExactly | scripts/private_speaker_review_final_review_observation_contract.py:88-122 | Printing then decoding returns the object if and only if it fits and no string holds a split surrogate pair |
| CodecLaws.SplitEmojiIsLost | scripts/private_speaker_review_final_review_observation_contract.py:88-122 | An object whose round trip fails whatever the cap |
| CodecLaws.PrintInjective | scripts/private_speaker_review_final_review_observation_contract.py:88-91 | On those objects the canonical print is injective |
| CodecLaws.PrintIsOneAsciiLine | scripts/private_speaker_review_final_review_observation_contract.py:88-91 | Whatever the strings hold, a print is one line of printable ASCII ended by a newline |
| CodecLaws.PrintedKeysAreSorted | scripts/private_speaker_review_final_review_observation_contract.py:88-91 | The printed keys are read back in strictly increasing code point order |
| CodecLaws.ReadPrintedChars | scripts/private_speaker_review_final_review_observation_contract.py:88-91 | Escaping then unescaping a string without a split pair gives it back |
| CodecLaws.ReadIsPlain | scripts/private_speaker_review_final_review_observation_contract.py:103-122 | No string the reader returns holds a split pair |
| TextSpelled.LettersSpelled | scripts/private_speaker_review_final_review_observation_contract.py:88-91 | The escapes that have a letter, and the characters printed as they are |
| TextSpelled.NumbersSpelled | scripts/private_speaker_review_final_review_observation_contract.py:88-91 | Numbered escapes, one, and two beyond the first plane |
| TextSpelled.ObjectsSpelled | scripts/private_speaker_review_final_review_observation_contract.py:88-91 | Small objects on the wire, in full |
| Request.ValidRequestsFit | scripts/private_speaker_review_final_review_observation_contract.py:125-154 | Every request with valid fields prints to at most 820 bytes, so the cap of 1024 never refuses one |
| Request.ValidRequestsValidate | scripts/private_speaker_review_final_review_observation_contract.py:125-154 | A request with valid fields validates to itself |
| Request.RequestExactly | scripts/private_speaker_review_final_review_observation_contract.py:125-158 | The accepted request bytes are exactly the canonical prints of valid fields |
| RequestWire.RequestWireExactly | scripts/private_speaker_review_final_review_observation_contract.py:125-157 | A text with the eight keys in order is a request exactly when every value is right, each written out; any other value of any field has it refused |
| RequestWire.ExampleIsAccepted | scripts/private_speaker_review_final_review_observation_contract.py:125-157 | One request, in full |
| HostRefresh.Host.InstallAbsent | scripts/bootstrap_dev_host.py:346-371 | Links a new file into place and never overwrites |
| HostRefresh.Host.EnsureExact | scripts/bootstrap_dev_host.py:374-385 | Installs a missing file when allowed and accepts exactly the wanted content |
| HostRefresh.Host.ReplaceExact | scripts/bootstrap_dev_host.py:388-434 | Replaces an existing file in one step |
| HostRefresh.Host.Preflight | scripts/bootstrap_corpus_host.py:298-318 | The preflight loop reads without writing and admits exactly the declared hosts |
| HostRefresh.Host.Refresh | scripts/bootstrap_corpus_host.py:321-350 | A refused host is untouched; on an admitted one the files written, in order, are exactly those not current, and success means every managed file is current and the installed policy passes the grammar check |
| HostRefresh.CrashPointsAreAdmitted | scripts/bootstrap_corpus_host.py:298-318 | The preflight admits every interrupted refresh again |
| HostRefresh.RerunWritesTheRest | scripts/bootstrap_corpus_host.py:326-341 | A rerun writes exactly what the interrupted run left out |
| HostRefresh.RerunConverges | scripts/bootstrap_corpus_host.py:326-341 | However often and wherever it is interrupted, a refresh is admitted again and ends where an uninterrupted one does |
| HostRefresh.CurrentHostIsUntouched | scripts/bootstrap_corpus_host.py:335-341 | A refresh writes nothing if and only if every listed file is current |
| HostAdmission.SupportedHostIsRefreshed | scripts/bootstrap_corpus_host.py:300-318 | A host with every managed file, the reviewed key and a policy that is the wanted one or any older one is refreshed to the target |
| HostAdmission.CorpusAdmissionExactly | scripts/bootstrap_corpus_host.py:285-350 | What the corpus refresh asks of a host, and the order of its writes, written out |
| HostAdmission.OlderCorpusHostIsRefreshed | scripts/bootstrap_corpus_host.py:311-318 | A complete corpus host on an older policy is brought to the target without any further condition |
| HostAdmission.ReviewOrderSpelled | scripts/bootstrap_review_host.py:567-594 | The order of the review refresh's writes, written out |
| HostAdmission.ReviewAdmissionExactly | scripts/bootstrap_review_host.py:466-520 | What the review refresh asks of a host, written out |
| HostAdmission.AfterExactly | scripts/bootstrap_corpus_host.py:321-345 | The refresh leaves the wanted content where it writes and touches nothing else |
| HostRefresh.OrderIsFailClosed | scripts/bootstrap_corpus_host.py:324-341 | At every crash point a changed policy means all listed helpers are in place, and a changed dispatcher means the policy is too |
| HostRefresh.TargetReachedExactly | scripts/bootstrap_corpus_host.py:348-349 | The whole target is reached if and only if the managed files outside the write list were current |
| HostRefresh.NeverReachableEarlyExactly | scripts/bootstrap_review_host.py:564-566 | No crash point publishes a command early if and only if the managed files outside the write list were current |
| HostRefresh.CorpusRefreshIsSafe | scripts/bootstrap_corpus_host.py:321-350 | Every admitted corpus refresh reaches its target and is safe at every crash point |
| HostRefresh.ReviewRefreshNeedsTheFinalReview | scripts/bootstrap_review_host.py:560-598 | The review refresh reaches its target, and is safe, if and only if the three final-review helpers were already installed |
| HostRefresh.ReviewHostCanPublishEarly | scripts/bootstrap_review_host.py:567-592 | A concrete admitted review host on which the new dispatcher is published while a helper is missing |
| Subtitles.BlocksOfJoined | src/cinegraph/ingestion/transcript_srt/patterns.py:6 | Trimmed blocks joined by blank lines are cut into the same blocks by the separator pattern |
| Subtitles.LinesOfJoined | scripts/promote_reviewed_srt.py:102 | Joined lines are cut into the same lines again |
| Promotion.PromoteText | scripts/promote_reviewed_srt.py:89-154 | The nested loops compute the declared outcome, or its first failure |
| Promotion.CollectDialogue | scripts/promote_reviewed_srt.py:111-141 | The dialogue loop rewrites, keeps, drops or refuses each line |
| Promotion.CuesAreConserved | scripts/promote_reviewed_srt.py:143-145 | Kept and removed cue numbers, each in order, merge to the numbers of the input |
| Promotion.LinesAreConserved | scripts/promote_reviewed_srt.py:113-134 | Dialogue lines in equal lines out plus removed redactions |
| PromotionRules.PromotedExactly | scripts/promote_reviewed_srt.py:97-139 | A text is promoted exactly when each cue has a number line, a time line and only lines that are labelled, questioned or "***", "- ***." or "--"; the removed lines are then exactly those three, the promoted ones exactly the questioned |
| PromotionRules.RefusalExactly | scripts/promote_reviewed_srt.py:97-139 | A refusal is about the first cue that cannot be read through and names what is first wrong with it: too few lines, no number, or the first line that is none of these |
| PromotionRules.OutcomeExactly | scripts/promote_reviewed_srt.py:141-158 | The text keeps exactly the cues with a line left, each with its number line, its time line and those lines, and reports the numbers of the rest |
| PromotionRules.PrintedExactly | scripts/promote_reviewed_srt.py:145-158 | How cues are printed, line under line and with one blank line between |
| PromotionRules.LabelsExactly | src/cinegraph/ingestion/transcript_srt/patterns.py:14-16 | Both label patterns, character by character |
| PromotionRules.RewritingExactly | scripts/promote_reviewed_srt.py:14-16 | A questioned label loses its question mark and the blanks behind its colon, and nothing else |
| TextSpelled.StripExactly | scripts/promote_reviewed_srt.py:106-110 | Stripping takes blanks off both ends and nothing else |
| TextSpelled.BlanksSpelled | src/cinegraph/ingestion/transcript_srt/patterns.py:5 | The blanks and line breaks, by code point |
| TextSpelled.LinesCut | scripts/promote_reviewed_srt.py:100 | Lines end at any break, a carriage return and line feed counting as one |
| PromotionLaws.RewrittenIsStable | scripts/promote_reviewed_srt.py:117-127 | A rewritten label is a verified one, on one trimmed line |
| PromotionLaws.PromotionIsIdempotentExactly | scripts/promote_reviewed_srt.py:89-154 | Promoting the result again returns the same text with zero counts if and only if every cue of the input with a kept line has a time line that is not blank; otherwise the second pass refuses the file as malformed |
| PromotionLaws.FormFeedIsRefusedLater | scripts/promote_reviewed_srt.py:89-154 | A failing family: any cue number and any verified line with two form feeds between them are promoted to a text that is then refused |
| PromotionLaws.FormFeedExample | scripts/promote_reviewed_srt.py:89-154 | Its smallest member, spelled out |
| Workspace.WalkEndsExactly | scripts/ingest_private_corpus_workspace.py:310-313 | The ancestor walk ends if and only if the path is relative |
| ManifestPaths.DecodePaths | src/cinegraph/common/private_corpus_bundle.py:505-516 | The decoder's loop accepts exactly valid paths, strictly increasing and distinct up to case, and all of them are relative, so the walk always ends |
| ManifestPaths.PathExactly | src/cinegraph/common/private_corpus_bundle.py:116-129 | Which paths are let through is decided by the pieces between the slashes; that a path is relative and canonically spelled follows |
| ManifestPaths.PathsAreSorted | src/cinegraph/common/private_corpus_bundle.py:505-516 | The order of encoded bytes that the decoder checks is the order of code points in which the digests list the files |
| Utf8Order.EncodingKeepsOrder | src/cinegraph/common/private_corpus_bundle.py:512-513 | One UTF-8 text is below another, byte by byte, if and only if the characters are, code point by code point |
| ManifestPaths.AncestorsArePrefixes | src/cinegraph/common/private_corpus_bundle.py:116-129 | On a decoded path the walk ends, and adds exactly the directories whose names, closed by a slash, begin the path |
| Workspace.AddAncestors | scripts/ingest_private_corpus_workspace.py:310-313 | One walk adds exactly the proper ancestors |
| Workspace.ExpectedDirectories | scripts/ingest_private_corpus_workspace.py:308-313 | The nested loops compute the root and all proper ancestors of listed files |
| Workspace.AcceptsTree | scripts/ingest_private_corpus_workspace.py:306-315 | The comparison accepts exactly the expected files and directories |
| Workspace.AcceptedExactly | scripts/ingest_private_corpus_workspace.py:162-190 | A real tree is accepted if and only if its files are the listed ones and its own two, and every directory leads to a listed file |
| Workspace.PathsSpelled | scripts/ingest_private_corpus_workspace.py:285-315 | The two files of the workspace's own, and how paths are printed |
| Catalogue.CheckEpisodes | scripts/dev_post_deploy_smoke.py:299-318 | The inner loop accepts exactly well-formed episodes with identifiers not seen before |
| Catalogue.ValidateSeasons | scripts/dev_post_deploy_smoke.py:281-324 | The nested loops accept exactly the declared catalogues |
| Catalogue.AcceptedExactly | scripts/dev_post_deploy_smoke.py:281-324 | Acceptance is a counting fact free of list order: two seasons of 24 well-formed episodes, 48 identifiers, every season and episode number pair taken |
| Catalogue.OneEpisodePerSlot | scripts/dev_post_deploy_smoke.py:299-324 | Episodes, identifiers and number pairs correspond one to one |
| Catalogue.AcceptedHolds | scripts/dev_post_deploy_smoke.py:281-324 | What an accepted catalogue holds, field by field |
| Pipe.ReadPipe | scripts/private_speaker_review_final_review_observation_client.py:25-41 | For every chunking the loop drains the pipe and returns the first MAX + 1 bytes, so the length test detects overflow exactly |

## Left out

- AdjudicationOutcome.RetryFinishesTheCall: assumes that device and inode of kept directories are the same at the crash point, since the checks of one call do not reach into another.
- Binding.ValidateCheckpoint: says whether the checkpoint is accepted, not which of the error messages a refusal carries.
- AdjudicationProcessing.Process: takes the workflow's result as given and models the checks around it; `SpeakerReviewWorkflow.process_adjudication_results` itself is not modelled.
- RunFinish.FinishedRunIsProcessable: the supplied digests, the workflow's checks on the primary stage and on costs and counts of the state, and the contents of requests and outputs are taken to pass.
- RunFinish.EveryPreparedRunCanBeProcessed: takes the same for granted.
- RunSafety.ObserverAdmissionExact: the parsing of the state file is taken to give back the state; the supplied digests are those of the directory, which `RunBinding.AdmissionIsBindable` shows to exist from part two on.
- RunSafety.SubmissionAdmissionExact: the supplied request digest, the cost ceiling and the parsing of the requests for the estimate are taken to pass.
- Interleaving.AtMostOneBatchWhateverTheOrder: takes the submission step apart, not the saving of the state or the observation; the directory's files are only those of the submission step.
- RunProgress.DeadEndExactly: the digests supplied to a call, its cost ceiling and the parsing of the requests for the estimate are taken to pass.
- Chain.WholeChain: covers names; manifest, state and reading checks of the worker are not part of it.
- PrimaryOutcome.OutcomeIsFinal: the digests and the authorised amount, which the call checks beforehand, are not part of an accepted call here.
- ManifestPaths.DecodePaths: which names are portable, which paths are short enough and how case is folded are parameters; sizes, hashes and totals of the entries are left out.
- HostRefresh.Host.InstallAbsent: models the outcome of linking a new file into place; the temporary file and the checks of owner, mode and links are left out.
- HostRefresh.Host.EnsureExact: compares contents; the owner, mode and link checks on an installed file are left out.
- HostRefresh.Host.ReplaceExact: models the one step in which the new content appears; temporary file, sync and second reading are left out.
- HostRefresh.Host.Preflight: compares contents; the owner, mode and link checks on each path are left out.
- HostRefresh.Host.Refresh: paths are symbols, the grammar of the policy is a parameter, and owner, mode and link checks are left to the operating system.
- Promotion.PromoteText: the reading of a cue number is a parameter, constrained only by refusing the empty text.
- Catalogue.ValidateSeasons: exact field sets, titles and cast lists enter as one flag per record, the canonical identifier test as a parameter; the payload around the seasons (series, poster, metadata source) is left out.
- Workspace.AcceptsTree: takes the walked files and directories as given; the walk itself enters `Workspace.AcceptedExactly` as the hypothesis that a tree lists the directories of its files.
- Request.RequestExactly: the identifier field is held against its pattern only; the second look through the UUID library repeats it.
- Writes torn inside one file, and the temporary files an atomic replacement leaves behind after a crash (an inventory would refuse them).
- File metadata: ownership, modes, hard links of files, and changes made between a check and a use.
- SHA-256 itself, and names that are not Unicode scalar text, which the digest cannot encode.
- The submission loop of the primary stage, which shares the journal of the modelled one, and the final-review stage.
- The wire contracts of primary observation and submission, of the first adjudication part and of the final review, and the remaining clients.
- Floating point: costs are exact reals; how a decimal amount is first rounded to a binary one is not modelled.
- JSON beyond flat objects: a float, a nested value or a literal is refused here, where the original may decode one and refuse it by its fields.
- The contents of outputs and verdicts, cost estimation, prompts and model calls.
- Command lines, SSH, subprocesses, timeouts, secrets and containers.
- The development host's refresh, which replaces its dispatcher before its helper and makes no claim about the order.
