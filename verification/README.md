# Verified model of the KIM agent host

This project models, in Dafny, the parts of the KIM agent host that keep promises over time, and proves
those promises for every input, every run and every schedule.

- **The Codex session driver** (`CodexTypes`, `CodexSpec`, `CodexSession`, `CodexRuns`, `CodexGate`,
  `CodexAnswers`, `CodexStarts`, `CodexPump`, `CodexTurns`, `SessionPhase`, and the interleavings). One mutable slot holds the launch options, the live
  thread, at most one outstanding request, the turn counter, the hard deadline and the send flag.
  `CodexSession` is the slot as an object whose methods update it in place; each method is tied to the
  function of the old state given in `CodexSpec`, and the other modules prove what whole runs of those
  functions keep. Thread events, the clock, cancellation and failing submissions are arbitrary inputs. The
  slot carries a ghost history, from which the theorems over runs are read off. `PromptInterleaving` models
  the holds of the lock one by one, with any number of prompts between them, and `PromptSchedules`, `TurnRace`,
  `ThreadRace`, `StrandedRequests`, `OverwrittenRequests`, `CarelessResets` and `UnreadTurns` say what that
  does to the turn limit, to the threads and to requests. `DriverSchedules` proves that every run of the driver
  is one of these schedules.
- **Skill frontmatter and the skill registry** (`Frontmatter`, `FrontmatterLaws`, `BlockScalars`, `Registry`,
  `RegistryLaws`). The line scanner that repairs
  scalars, and the merge of two shelves, a denylist and assigned app skills. Whether a scalar is invalid YAML
  is an arbitrary predicate; directories are an arbitrary map from paths to entries.
- **Model matching** (`Glob`, `RuleSearch`). The greedy `*` matcher against the declarative meaning of `*`,
  and the stable longest-first search. The rule tables are parameters.
- **The conversation store** (`Conversations`, `PendingCalls`, `HostSpec`, `HostSession`, `HostRuns`,
  `EffectLaws`, `PendingDrain`, `PendingLaws`, `Utf8`). Effect batches, persistence to the side with an atomic rename, crashes at any
  point of a write, resuming, draining of pending calls, and truncation that does not cut a character.
- **The profile codec** (`AgentCodec`, `WireLayout`). Encoder and decoder as inverse up to a normal form. The protobuf and
  JSON libraries are arbitrary inverse pairs.

`HostTypes` holds what both drivers answer with; `Text` and `Wrappers` hold the string operations and the
option type used throughout.

The proofs turned up behaviour that a reader of the code may not expect. Each is stated exactly, with its
condition:

- The pattern `a*b` does not match `abb`; the matcher is right about every text for exactly the patterns
  without a star or with one at the end (`Glob.GlobExactlyForPatterns`, `Glob.GlobShortest`).
- A whole message behind a streamed one is not shown (`CodexTurns.ShownExactly`).
- A tool that is configured as never allowed is executed without a confirmation if it is requested although
  it was not offered (`CodexGate.NeverAllowedIsOnlyUnoffered`).
- A request outstanding while no thread is live is lost by the call that would answer it
  (`StrandedRequests.StrandedRequestIsLostExactly`); it comes to that by configuring or closing the slot
  under a prompt that holds its thread (`StrandedRequests.ResetStraysExactly`).
- One request can overwrite another. It comes to that by configuring or closing the slot under a prompt that
  holds its thread (`CarelessResets.ResetHarmsExactly`), and by a turn that ends unobserved while the
  outstanding request, or a prompt's turn, is still to be read from its thread: the thread then accepts
  another prompt's turn (`UnreadTurns.IdleHarmsExactly`). In no other way
  (`OverwrittenRequests.CarefulHasOneTurnEach`).
- The turn limit can be overshot by one less than the number of sessions, and is for some schedule
  (`TurnRace.TurnsOvershootAttained`).
- A session opened for the first time reads the file of whichever session was persisted last
  (`HostRuns.FirstOpenReadsTheLastWriter`).
- Registry and skill list read different project shelves for a root with whitespace around it, and the
  registry reads one even for a blank root (`Registry.AgreementExactly`).

"Acknowledged", in `HostRuns`, is a call that is answered as done; it counts as such also where the machine
stops right after its write was renamed into place. Answering a tool call appends a message that is not the
start of a turn in the agent library's sense; `PendingDrain.ResponsesAreNoKickoffs` says so where it is needed.

Verify with `dafny verify dfyconfig.toml`.

## Model

| member | source | states |
|---|---|---|
| `SessionPhase.PromptsAreSeparated` | crates/kim-agent-host/src/session_phase.rs:32-43 | In a legal word of phase inputs two prompts always have a finish or an abort between them: no turn starts inside another. |
| `SessionPhase.LegalExactly` | crates/kim-agent-host/src/session_phase.rs:32-43 | The legal words, input by input: what may follow depends on the last input alone, and so does the phase. |
| `CodexRuns.StepKeeps` | crates/kim-agent-host/src/codex_drive.rs:180-433 | Every driver call, whatever thread, clock and caller do, keeps the invariant that ties the slot (request, phase, turn counter, deadline, send flag) to its history. |
| `CodexRuns.RunKeeps` | crates/kim-agent-host/src/codex_drive.rs:180-433 | The invariant holds in every state any run of driver calls on a new host reaches. |
| `CodexRuns.PumpKeeps` | crates/kim-agent-host/src/codex_drive.rs:512-752 | The pump, entered without a request, ends either parked on one new request or with the turn closed in the history; a finish's visibility is what the history says. |
| `CodexGate.ConfirmGate` | crates/kim-agent-host/src/codex_drive.rs:291-395 | Over every run: a tool result reaches the thread only for a tool call that was received, under its own name and id, and for a call that needs confirmation only after an allowing permission reply to that very call. |
| `CodexGate.GrantGate` | crates/kim-agent-host/src/codex_drive.rs:321-395 | No answer that lets the thread go ahead is ever sent except a tool result or a verdict whose permission allows. |
| `CodexGate.DeniedOnce` | crates/kim-agent-host/src/codex_drive.rs:333-364 | A permission reply that does not allow a confirmable call answers it once, as a failed response; nothing else is answered or allowed in that call, and what the slot then holds, if anything, is a request received since. |
| `CodexGate.AnsweredAtMostOnce` | crates/kim-agent-host/src/codex_drive.rs:291-433 | Between any two answers of a run a new request was received: no request is answered twice. |
| `CodexGate.RequestsConserved` | crates/kim-agent-host/src/codex_drive.rs:199-208 | In every reachable state: requests received = answered + discarded + outstanding, with at most one outstanding. |
| `CodexGate.DiscardsOnlyOnReset` | crates/kim-agent-host/src/codex_drive.rs:278-289 | Only configuring or shutting down gives a request up; every other call extends the history without a discard, and so the pump overwrites no request. |
| `CodexGate.RefusedExactly` | crates/kim-agent-host/src/codex_drive.rs:298-376 | A completion or permission reply is refused as unknown exactly if it is not meant for what the slot holds, and then the whole slot is as before. |
| `CodexGate.OfferedUnasked` | crates/kim-agent-host/src/codex_inject.rs:110-136 | An offered tool runs unasked exactly if it is configured as always allowed, or not configured and neither sending nor reading the clipboard. |
| `CodexGate.NeverAllowedIsOnlyUnoffered` | crates/kim-agent-host/src/codex_inject.rs:110-136 | A never-allowed tool is kept off the offer, but a request for it would be executed without a confirmation: the offer is the only thing that stops it. |
| `CodexAnswers.AnswerTells` | crates/kim-agent-host/src/codex_drive.rs:291-433 | Over every run: each answer is the first thing its call does, and answers the request received last. A completion carries the caller's output and its verdict; a review the decision the user's permission stands for (for the session exactly if always allowed), with the approval and turn the request named; a refusal or cancellation is a failure. |
| `CodexAnswers.AnswerIsSent` | crates/kim-agent-host/src/codex_drive.rs:291-433 | A completion, refusal, review or cancel meant for the outstanding request does send its answer, and a cancel leaves nothing outstanding. |
| `CodexAnswers.AllowedIsTheUsers` | crates/kim-agent-host/src/codex_drive.rs:338-351 | What the history counts as allowed was allowed by a permission reply to that very call, once or always. |
| `CodexAnswers.OutstandingIsReceived` | crates/kim-agent-host/src/codex_drive.rs:645-715 | What is outstanding is the request received last, told with its id, name, arguments and prompt; a tool call is the app's to execute exactly if it needs no confirmation or was allowed since. |
| `CodexAnswers.YieldTells` | crates/kim-agent-host/src/codex_drive.rs:116-176 | A call that yields names that request: kind, id and name as the outstanding request is told. |
| `CodexStarts.PromptStartsExactly` | crates/kim-agent-host/src/codex_drive.rs:211-264 | In every reachable state: a prompt starts a turn exactly if nothing is outstanding, fewer turns were spent than the limit, a thread is live or can be started, and the input is submitted before it is cancelled. The turn then runs on that thread with counter, send flag and deadline set; otherwise at most a thread it started is left. |
| `CodexStarts.TurnsAttained` | crates/kim-agent-host/src/codex_drive.rs:218-228 | Every number of turns up to the limit is spent by some run. |
| `CodexStarts.ConfiguredExactly` | crates/kim-agent-host/src/codex_drive.rs:180-209 | Configuring succeeds exactly with usable options, and leaves those, no thread, no request and no turns; refused, it changes nothing. |
| `CodexStarts.ClosedExactly` | crates/kim-agent-host/src/codex_drive.rs:278-289 | Closing leaves neither thread nor request and changes nothing else. |
| `CodexStarts.LiveIsStartedSince` | crates/kim-agent-host/src/codex_drive.rs:435-499 | A live thread was started by a prompt that found none, since the slot was last configured or closed. |
| `CodexStarts.LaunchIsLastAccepted` | crates/kim-agent-host/src/codex_drive.rs:180-209 | The options in use are those of the last configuration that was accepted. |
| `CodexPump.EmittedExactly` | crates/kim-agent-host/src/codex_drive.rs:543-690 | For every feed: what the pump emits is, in order, one notice for each event worked off that is to be shown, with that event's id, name, success, counts or text, and nothing else. |
| `CodexPump.StopsExactly` | crates/kim-agent-host/src/codex_drive.rs:524-750 | For every feed: the pump works it off up to the first thing that stops it (cancel, a timer that is due, a failed thread, an event that parks or ends the turn, a closed channel) and answers what that calls for; it is dropped exactly if nothing stops it. |
| `CodexTurns.TurnsBounded` | crates/kim-agent-host/src/codex_drive.rs:218-261 | Between two configurations the slot's counter is the number of turns started and never above the limit, prompts being serialised. |
| `CodexTurns.ResumesAreFree` | crates/kim-agent-host/src/codex_drive.rs:312-319 | Completions, permission replies, cancels and shutdowns never spend a turn and never move the hard deadline. |
| `CodexTurns.RunsAreLegalWords` | crates/kim-agent-host/src/session_phase.rs:32-43 | Every run spells a legal word of the phase machine, and the phase it ends in is the slot's: outstanding request = yielded, otherwise idle. |
| `CodexTurns.IllegalIsRefused` | crates/kim-agent-host/src/codex_drive.rs:218-228 | A call whose phase input is illegal (a prompt while yielded, a resume while idle) fails and changes nothing. |
| `CodexTurns.YieldsExactly` | crates/kim-agent-host/src/codex_drive.rs:645-715 | A call meant for the slot answers with a yield exactly if it leaves a request outstanding, and the yield describes that request; any other prompt, completion or permission reply fails and changes nothing. |
| `CodexTurns.FinishTells` | crates/kim-agent-host/src/codex_drive.rs:716-729 | Across any number of yields and resumes a finish is visible exactly if it replied or a successful send happened since the turn's prompt; the stop reason is `side_effect` exactly for a silent send. |
| `CodexTurns.HardTimeoutIsDue` | crates/kim-agent-host/src/codex_drive.rs:501-542 | A hard timeout comes no earlier than the limit after the prompt that started the turn, however often the turn was resumed. |
| `CodexTurns.DeadlineIsThePrompts` | crates/kim-agent-host/src/codex_drive.rs:259-264 | While a request is outstanding the slot's hard deadline is the one fixed at the prompt. |
| `CodexTurns.IdleTimeoutIsDue` | crates/kim-agent-host/src/codex_drive.rs:543-750 | An idle timeout comes no earlier than the limit after arming and after every event but a token count, however many token counts arrive. |
| `CodexTurns.ShownExactly` | crates/kim-agent-host/src/codex_drive.rs:544-561 | A segment's emitted text is the text of its messages exactly if what came as whole messages after the first delta equals what was streamed. |
| `CodexTurns.UniformSegmentsShowTheirMessages` | crates/kim-agent-host/src/codex_drive.rs:544-561 | So a segment streamed throughout, or not streamed at all, shows exactly its messages. |
| `CodexTurns.MixedSegmentHidesAMessage` | crates/kim-agent-host/src/codex_drive.rs:550-560 | And a whole message behind a streamed one is not shown: for every such segment the second message is missing. |
| `CodexTurns.FallbackText` | crates/kim-agent-host/src/codex_drive.rs:716-724 | A finish reports the text of its completion; if that has none, the last non-empty message of the segment and what was streamed behind it; if there was no message, all that was streamed. |
| `CodexTurns.FallbackIsTheLastMessage` | crates/kim-agent-host/src/codex_drive.rs:544-561 | In a segment streamed up to its last message, or not at all, that fallback is the last message itself. |
| `CodexSession.CodexSlot.Pump` | crates/kim-agent-host/src/codex_drive.rs:512-752 | The loop over events, timers and cancellation, in place on the slot, computes exactly the specified pump: slot, history, emitted events and reply. |
| `CodexSession.CodexSlot.UseCodex` | crates/kim-agent-host/src/codex_drive.rs:180-209 | Configuring: the whole new slot, and the four ways it is refused unchanged. |
| `CodexSession.CodexSlot.Prompt` | crates/kim-agent-host/src/codex_drive.rs:211-276 | A prompt: refusals, thread start, submission, turn start and pump; the whole new slot and history. |
| `CodexSession.CodexSlot.CompleteTool` | crates/kim-agent-host/src/codex_drive.rs:291-319 | A completion: take, compare, restore on a mismatch, submit, pump; the whole new slot and history. |
| `CodexSession.CodexSlot.RespondPermission` | crates/kim-agent-host/src/codex_drive.rs:321-395 | A permission reply for each kind of request; the whole new slot and history. |
| `CodexSession.CodexSlot.CancelPending` | crates/kim-agent-host/src/codex_drive.rs:402-433 | A cancel answers the outstanding request, if any, with its refusal. |
| `CodexSession.CodexSlot.Shutdown` | crates/kim-agent-host/src/codex_drive.rs:278-289 | A shutdown gives up thread and request and keeps the rest. |
| `TurnRace.TurnsOvershootBounded` | crates/kim-agent-host/src/codex_drive.rs:218-261 | With up to K prompts between the check and the increment, the counter never exceeds the limit by more than K - 1, under every schedule. |
| `TurnRace.TurnsOvershootAttained` | crates/kim-agent-host/src/codex_drive.rs:218-261 | The bound is exact: with one turn left all K sessions pass the check, and then each runs its turn on the idle thread in turn. |
| `ThreadRace.ThreadsAccounted` | crates/kim-agent-host/src/codex_drive.rs:435-499 | Under every interleaving each started thread is held by one starter, live, shut down, or let go with its slot; at most one is live. |
| `ThreadRace.LiveIsNotReplaced` | crates/kim-agent-host/src/codex_drive.rs:485-499 | `ensure_live` never replaces a live thread, under every interleaving. |
| `ThreadRace.ExactlyOneThreadWins` | crates/kim-agent-host/src/codex_drive.rs:435-499 | When all racing starts of an undisturbed slot are through, exactly one started thread is live and every other one was shut down. |
| `StrandedRequests.GuardedExactly` | crates/kim-agent-host/src/codex_drive.rs:199-264 | A schedule keeps every outstanding or coming request on the live thread at all times, and so some thread live for it, exactly if nobody configures or closes the slot while a prompt is between taking its thread and the end of its pump. |
| `StrandedRequests.ResetStraysExactly` | crates/kim-agent-host/src/codex_drive.rs:199-264 | And what such a reset does: on a slot used carefully so far, a request can then come to be outstanding off the live thread, without a further reset, exactly if some prompt was between taking its thread and the end of its pump. |
| `StrandedRequests.RequestCanBeStranded` | crates/kim-agent-host/src/codex_drive.rs:199-264 | A schedule outside that condition that ends with a request outstanding and no thread live. |
| `StrandedRequests.StrandedRequestIsLostExactly` | crates/kim-agent-host/src/codex_drive.rs:298-311 | A completion or permission reply meant for the request loses it exactly if no thread is live and the reply is not a mere grant. |
| `OverwrittenRequests.CarefulHasOneTurnEach` | crates/kim-agent-host/src/codex_drive.rs:230-264 | Under that condition, if turns that end unobserved leave nothing to be read from their threads, no pump ever parks a request over an outstanding one, and a busy thread has the turn of one prompt or of the outstanding request. A turn left behind by a pump that was given up, or by a request that was taken out, may end at any time. |
| `CarelessResets.ResetHarmsExactly` | crates/kim-agent-host/src/codex_drive.rs:199-296 | With room for one more prompt, configuring or closing a slot used so far under those conditions makes an overwrite possible, without a further reset, exactly if some prompt is between taking its thread and the end of its pump. |
| `UnreadTurns.IdleHarmsExactly` | crates/kim-agent-host/src/codex_drive.rs:230-433 | With room for one more prompt, which is needed only where nothing is outstanding, a turn that ends unobserved makes an overwrite possible, without a reset, exactly if a prompt's turn is still to be read from its thread, or the outstanding request is its thread's and some prompt is in flight. |
| `UnreadTurns.OverwrittenWithoutReset` | crates/kim-agent-host/src/codex_drive.rs:230-433 | A schedule of two prompts on a slot configured once, before any prompt, that overwrites a request. |
| `DriverSchedules.RunIsSchedule` | crates/kim-agent-host/src/codex_drive.rs:180-499 | Every run of the driver, call by call, is a possible schedule of the interleaved model, which ends with the same options, thread, request and turn counter. |
| `Frontmatter.Repair` | crates/kim-agent-host/src/skills.rs:257-340 | The repair loop equals the line scan: block-scalar state, repaired lines, and `None` exactly if no line is repaired. |
| `Frontmatter.RepairFrontmatter` | crates/kim-agent-host/src/skills.rs:257-340 | The same on text, through splitting into lines and joining. |
| `Frontmatter.FindComment` | crates/kim-agent-host/src/skills.rs:257-340 | The scalar ends at the first `#` that is at the front or behind whitespace, trailing whitespace apart. |
| `Frontmatter.RepairKeepsMeaning` | crates/kim-agent-host/src/skills.rs:257-340 | Line by line: a changed line reads, in single-quoted style, as the same key, leading whitespace, scalar and comment as before; every other line is unchanged and the count is kept. |
| `FrontmatterLaws.FieldExactly` | crates/kim-agent-host/src/skills.rs:257-340 | A line is a field exactly if its characters have a place for key, scalar and comment, and then those are its parts. |
| `FrontmatterLaws.ShapeExactly` | crates/kim-agent-host/src/skills.rs:257-340 | Blankness, indentation and whether a line opens a block scalar, by its characters. |
| `FrontmatterLaws.LineChangesExactly` | crates/kim-agent-host/src/skills.rs:257-340 | The same as `ChangedExactly` by characters: which lines change, and that exactly the scalar is replaced by its quoted form. |
| `Frontmatter.ChangedExactly` | crates/kim-agent-host/src/skills.rs:257-340 | A line is changed exactly if it is a field whose scalar is unquoted, no block header, and has a colon separator or starts with an indicator and is invalid YAML, and no earlier line opens a block scalar with every line from there to this one blank or indented deeper. |
| `BlockScalars.InsideExactly` | crates/kim-agent-host/src/skills.rs:257-340 | The one indentation the scanner keeps is enough: it passes over a line exactly if some earlier line, one inside another block scalar included, opens a block scalar that reaches to it. |
| `Frontmatter.UnquoteQuote` | crates/kim-agent-host/src/skills.rs:257-340 | Reading a quoted scalar by section 7.3.2 of YAML 1.2.2 gives back the scalar and what follows it. |
| `Frontmatter.BlockScalarsUntouched` | crates/kim-agent-host/src/skills.rs:257-340 | The header and the body of a block scalar are never changed. |
| `Frontmatter.RepairIdempotent` | crates/kim-agent-host/src/skills.rs:257-340 | A second repair of repaired lines changes nothing and says so. |
| `Frontmatter.RepairTextIdempotent` | crates/kim-agent-host/src/skills.rs:257-340 | The same on text, although joining and splitting may lose a carriage return or a last empty line. |
| `Frontmatter.SplitLines` | crates/kim-agent-host/src/skills.rs:210-231 | The frontmatter is the lines between a fence on the first line and the first fence behind it, the body the lines after that; without either fence there is neither. |
| `Frontmatter.SplitFrontmatter` | crates/kim-agent-host/src/skills.rs:210-231 | The same on text: lines are split, the two parts joined by newlines. |
| `FrontmatterLaws.FencesExactly` | crates/kim-agent-host/src/skills.rs:210-231 | The lines are split exactly where they are a fence, lines that are none, a fence, and the rest. |
| `FrontmatterLaws.LinesExactly` | crates/kim-agent-host/src/skills.rs:211-211 | Lines end at newlines, with a carriage return right before one part of the end; the last line needs none. |
| `Frontmatter.SanitizeKeepsWords` | crates/kim-agent-host/src/skills.rs:251-255 | A field collapsed to one line keeps its words, and collapsing it again changes nothing. |
| `FrontmatterLaws.SanitizedIsOneLine` | crates/kim-agent-host/src/skills.rs:251-255 | A collapsed field has no blanks but single spaces between characters that are none. |
| `FrontmatterLaws.WordsExactly` | crates/kim-agent-host/src/skills.rs:251-255 | Words are what stands between blanks. |
| `Registry.ScanPortable` | crates/kim-agent-host/src/skills.rs:381-416 | A shelf's scan is ordered by id, holds exactly the listed skills, and gives the shelf's map, also where two entries have the same name as text. |
| `Registry.ShelfHolds` | crates/kim-agent-host/src/skills.rs:381-416 | A shelf holds a skill under an id exactly if a directory of that name with a readable document is listed, neither hidden nor reserved; the last such entry counts. |
| `Registry.SortKeepsIndex` | crates/kim-agent-host/src/skills.rs:414-414 | Sorting by id is stable enough to leave the last entry of an id the last. |
| `Registry.BuildRegistry` | crates/kim-agent-host/src/skills.rs:518-582 | App entries are those of the assigned references; portable entries are, in id order, exactly the merged shelves minus denied and app ids; without a scan there are none. |
| `RegistryLaws.PortableExactly` | crates/kim-agent-host/src/skills.rs:553-580 | From the directories themselves: a portable id is held exactly if one of the shelves has a directory of that name with a readable skill, neither hidden nor an app skill's, and no item of the denylist names it; the entry tells that skill, the project's where both have it. |
| `RegistryLaws.AppEntriesExactly` | crates/kim-agent-host/src/skills.rs:525-552 | App entries tell, in order, exactly the references that are the first of their id to be enabled, of the app class, prefixed and resolved, with package, pin and version. |
| `Registry.AppIdsExactly` | crates/kim-agent-host/src/skills.rs:525-552 | An id is assigned exactly if some enabled app reference with that id and the prefix resolves. |
| `Registry.AppIdsDistinct` | crates/kim-agent-host/src/skills.rs:525-552 | No id is assigned twice, and every assigned id has the prefix. |
| `Registry.RegistryIdsDistinct` | crates/kim-agent-host/src/skills.rs:518-582 | All ids of a registry are distinct; app ids carry `kim-`, portable ids never do. |
| `Registry.AppIdsAreNeverOnAShelf` | crates/kim-agent-host/src/skills.rs:565-570 | Skipping portable skills with an app id changes nothing: no shelf offers such an id. |
| `Registry.ShowsUnique` | crates/kim-agent-host/src/skills.rs:518-582 | The contract of the portable entries leaves no choice: map, denylist and app ids determine the list. |
| `Registry.GetIsMembership` | crates/kim-agent-host/src/skills.rs:165-170 | With distinct ids, getting an id finds an entry exactly if it is in the registry under that id. |
| `Registry.SkillPortableList` | crates/kim-agent-host/src/skills.rs:685-712 | The list has exactly one row for each skill on the two shelves, in id order, with its shelf's origin. |
| `RegistryLaws.RowsExactly` | crates/kim-agent-host/src/skills.rs:685-712 | The same from the directories: a row for each skill of either shelf, told as it was found and with the shelf it was found on. |
| `Registry.AgreementExactly` | crates/kim-agent-host/src/skills.rs:685-712 | With nothing assigned or denied, registry and list agree on every disk exactly for a non-empty project root that trimming leaves alone, or a blank one whose shelf is the user's: the list trims the project root, the registry does not. |
| `Glob.GlobMatch` | crates/kim-agent-host/src/catalog.rs:678-705 | The loop over the parts of the pattern computes leftmost greedy placement. |
| `Glob.GlobSound` | crates/kim-agent-host/src/catalog.rs:678-705 | Whatever it accepts is an instance of the pattern, a star standing for any text. |
| `Glob.GlobComplete` | crates/kim-agent-host/src/catalog.rs:678-705 | For patterns without a star or with one at the end it accepts exactly the instances: leftmost placement is optimal. |
| `Glob.GlobShortest` | crates/kim-agent-host/src/catalog.rs:678-705 | For all other patterns it accepts exactly the instances of which no proper prefix is an instance. |
| `Glob.GlobExactlyForPatterns` | crates/kim-agent-host/src/catalog.rs:678-705 | The matcher gives the right verdict on every text exactly if the pattern has no star or ends in one. |
| `Glob.GlobMissesLongerInstances` | crates/kim-agent-host/src/catalog.rs:678-705 | So `a*b` misses `abb`. |
| `RuleSearch.RankedHitWins` | crates/kim-agent-host/src/catalog.rs:426-433 | Sort-then-find gives the matching rule with the longest pattern, the earliest in the table among equally long, or none if none matches. |
| `RuleSearch.FirstPrefixMatch` | crates/kim-agent-host/src/catalog.rs:426-433 | The method returns that rule's value, and no other rule wins. |
| `RuleSearch.FamilyMatch` | crates/kim-agent-host/src/catalog.rs:435-458 | Any match of the full id beats every match of its basename, which beats the default. |
| `RuleSearch.PlainPrefixExactly` | crates/kim-agent-host/src/catalog.rs:668-676 | A prefix without a star matches exactly the models that start with it, ASCII case apart. |
| `RuleSearch.StarPrefixExactly` | crates/kim-agent-host/src/catalog.rs:668-676 | A prefix with a star is a pattern for the whole model, case apart: its instances if it ends in a star, its shortest instances otherwise. |
| `RuleSearch.CaseDoesNotMatter` | crates/kim-agent-host/src/catalog.rs:668-676 | The verdict is the same for models and prefixes that are equal but for case. |
| `RuleSearch.ByteLenExactly` | crates/kim-agent-host/src/catalog.rs:426-428 | The length rules are ranked by is that of their UTF-8 form. |
| `RuleSearch.BasenameExactly` | crates/kim-agent-host/src/catalog.rs:435-441 | The basename is what is behind the last slash or colon; a name that ends in one, or has none, is its own. |
| `RuleSearch.BasenameIdempotent` | crates/kim-agent-host/src/catalog.rs:435-441 | The basename of a basename is itself: asking for it again finds nothing new. |
| `RuleSearch.OrderDoesNotMatter` | crates/kim-agent-host/src/catalog.rs:426-433 | For tables without stars and with case-insensitively distinct prefixes the answer is the same under every permutation. |
| `Utf8.TruncateChars` | crates/kim-agent-host/src/lib.rs:861-870 | Returns the longest valid UTF-8 prefix within the cap (grammar of section 4 of RFC 3629), losing at most three bytes of the cap. |
| `Utf8.ReadTranscript` | crates/kim-agent-host/src/codex_drive.rs:859-872 | Returns the longest valid suffix within the cap, or nothing for a file that cannot be read. |
| `Utf8.Finish` | crates/kim-agent-host/src/skills.rs:652-671 | The body is the longest valid prefix within the cap, the flag is up exactly if something was cut, and a blank version reads as 0. |
| `Conversations.PatchToolRequestMeta` | crates/kim-agent-host/src/lib.rs:626-656 | Patches the first request with the id, in message and block order, or reports that there is none. |
| `Conversations.EffectedExactly` | crates/kim-agent-host/src/lib.rs:565-597 | An effect succeeds exactly if its target, a request by id or a message by id, is there. |
| `EffectLaws.VisibilitySetsItsFlags` | crates/kim-agent-host/src/lib.rs:658-672 | A visibility effect sets the two flags of the first message with that id, each to its own value, and nothing else. |
| `EffectLaws.PatchMergesByKey` | crates/kim-agent-host/src/lib.rs:626-656 | A patch merges key by key into the metadata of the first request with that id if both are objects, replaces it otherwise, and changes nothing else. |
| `EffectLaws.OtherEffectsLeave` | crates/kim-agent-host/src/lib.rs:565-585 | A usage leaves the conversation, a message goes to its end, a replacement replaces it. |
| `EffectLaws.UsageIsNoted` | crates/kim-agent-host/src/lib.rs:562-597 | Of the effects a batch applied the last usage is counted, kept for its session and told in the event, input and output in their places, negative and missing counts as none; without one nothing of that changes. |
| `HostRuns.PatchTouchesOneRequest` | crates/kim-agent-host/src/lib.rs:626-656 | A patch changes that one block and nothing else: every other block, and every message's id and visibility, is as before. |
| `HostSession.AgentHost.ApplyEffects` | crates/kim-agent-host/src/lib.rs:551-597 | The batch in place: conversations, token count, last usage, file and reply. |
| `HostSession.AgentHost.WriteSession` | crates/kim-agent-host/src/lib.rs:791-804 | Writes to the side and renames: what is on disk wherever it stops. |
| `HostSession.AgentHost.EnsureConversation` | crates/kim-agent-host/src/lib.rs:766-779 | Opens a session from the file only if it is new, a path is set, resuming is on and the file exists. |
| `HostRuns.BatchOutcome` | crates/kim-agent-host/src/lib.rs:551-597 | A batch is Ok exactly if every target is there in turn and the file could be written; then the file reads back as memory. A missing target leaves the file alone and keeps the effects before it in memory. |
| `HostRuns.WholeExactly` | crates/kim-agent-host/src/lib.rs:551-597 | A batch is applied as a whole exactly if each effect finds its target in what the ones before it left. |
| `HostRuns.StepKeepsOrWrites` | crates/kim-agent-host/src/lib.rs:781-804 | A call that is acknowledged leaves the file equal to its session's conversation; any other outcome, torn write included, leaves the file alone. |
| `HostRuns.CrashAtomicity` | crates/kim-agent-host/src/lib.rs:766-814 | Wherever a run stops, a restarted host that opens a session reads back, whole, the conversation the last acknowledged call left. |
| `HostRuns.NothingAcknowledgedNothingChanged` | crates/kim-agent-host/src/lib.rs:766-814 | A run without an acknowledged call leaves what could be read before it. |
| `HostRuns.FirstOpenReadsTheLastWriter` | crates/kim-agent-host/src/lib.rs:766-789 | The sessions of a host share one file: after any run a session not open yet starts with what the last acknowledged call left to whichever session it was for, if the host resumes, and empty otherwise. |
| `HostRuns.FirstOpenReadsTheStart` | crates/kim-agent-host/src/lib.rs:766-789 | After a run without an acknowledged call it starts with what the file held before the run, if the host resumes, and empty otherwise. |
| `HostSpec.TmpIsAnotherFile` | crates/kim-agent-host/src/lib.rs:800-800 | The file written first is never the session's file, for any file name. |
| `EffectLaws.TmpNameIs` | crates/kim-agent-host/src/lib.rs:800-800 | The last extension is replaced by `json.tmp`; a name without one, a dot at its front apart, gets it added. |
| `PendingCalls.UnansweredConfirmations` | crates/kim-agent-host/src/ops/permission.rs:150-181 | The loop returns, in order, the confirmations whose id has no response anywhere in the conversation. |
| `PendingCalls.ResponseRemoves` | crates/kim-agent-host/src/ops/mod.rs:21-35 | A tool response takes exactly its id out of the pending calls and opens no confirmation. |
| `PendingLaws.PendingCallsExactly` | crates/kim-agent-host/src/lib.rs:824-848 | The calls that wait are, in order, the parsed requests since the last kickoff for one of the app's tools that no response since then answers; without a kickoff none waits. |
| `PendingLaws.ConfirmationsExactly` | crates/kim-agent-host/src/ops/permission.rs:150-181 | The open confirmations are, in order, those of the whole conversation without a response. |
| `HostSession.AgentHost.CompleteTool` | crates/kim-agent-host/src/lib.rs:404-449 | A completion, up to the run loop: refusals, push, persist and what it answers. |
| `HostSession.AgentHost.RespondPermission` | crates/kim-agent-host/src/lib.rs:451-494 | A permission reply, up to the run loop. |
| `EffectLaws.CompletionAppends` | crates/kim-agent-host/src/lib.rs:404-437 | A completion that is not refused appends one visible message with the tool's response, structured exactly if its output is a JSON object, array or string; a refused one changes no conversation. |
| `EffectLaws.ReplyAppends` | crates/kim-agent-host/src/lib.rs:451-478 | A permission reply that is not refused appends one message with that permission, hidden from user and agent. |
| `EffectLaws.PromptAppends` | crates/kim-agent-host/src/lib.rs:385-398 | A prompt's messages go to the end of the conversation in memory, or else on file if the host resumes, or else of an empty one. |
| `PendingDrain.CompleteRefusedExactly` | crates/kim-agent-host/src/lib.rs:419-432 | A completion is refused exactly while a confirmation is open or nothing waits under its id, and then nothing changes. |
| `PendingDrain.RespondRefusedExactly` | crates/kim-agent-host/src/lib.rs:465-475 | A permission reply is refused exactly if no confirmation is open under its id, and then nothing changes. |
| `PendingDrain.RepeatIsRefused` | crates/kim-agent-host/src/lib.rs:419-432 | An id that was completed is refused from then on, with nothing changed. |
| `PendingDrain.DrainEntersOnce` | crates/kim-agent-host/src/lib.rs:404-449 | Answering the pending calls in any order: every answer but the last yields for a call still open, and only the last enters the run loop. |
| `PendingDrain.AsManyAnswersAsCalls` | crates/kim-agent-host/src/lib.rs:404-449 | With distinct ids that is one answer for each pending call, so k - 1 yields. |
| `PendingDrain.PermissionsEnterOnce` | crates/kim-agent-host/src/lib.rs:451-494 | The same for open confirmations, whatever calls are pending beside them. |
| `AgentCodec.DecodeEncode` | crates/kim-agent-codec/src/lib.rs:189-325 | Decoding an encoded profile gives its normal form, and placement, time stamp and both accounts as they were, for every profile. |
| `AgentCodec.NormalIdempotent` | crates/kim-agent-codec/src/lib.rs:189-325 | The normal form is one: what survives once survives again. |
| `AgentCodec.ReasoningRoundTrip` | crates/kim-agent-codec/src/lib.rs:490-542 | A reasoning choice comes back with version 0 read as 1 and a budget above the signed range as 0, otherwise unchanged. |
| `AgentCodec.CapabilitiesRoundTrip` | crates/kim-agent-codec/src/lib.rs:327-353 | Capabilities come back in order, a null for parameters as the empty object. |
| `AgentCodec.SkillRoundTrip` | crates/kim-agent-codec/src/lib.rs:355-380 | A skill reference comes back unchanged. |
| `AgentCodec.RuleRoundTrip` | crates/kim-agent-codec/src/lib.rs:382-447 | A permission rule comes back unchanged. |
| `AgentCodec.VersionRefusedExactly` | crates/kim-agent-codec/src/lib.rs:147-158 | A message is refused for its version exactly if that is above 1; version 0 reads as 1. |
| `WireLayout.EncodedStands` | crates/kim-agent-codec/src/lib.rs:189-249 | What is encoded stands in the message field by field, under the numbers and names of the schema. |
| `WireLayout.DecodedStands` | crates/kim-agent-codec/src/lib.rs:251-325 | What is decoded, whoever wrote it, stands in its message by the same relation: every number and name the schema gives, and what any other stands for. |
| `AgentCodec.DecodedIsNormalExactly` | crates/kim-agent-codec/src/lib.rs:251-325 | A decoded profile, whoever wrote the bytes, is normal exactly if no capability has an explicit null for its parameters. |
| `AgentCodec.JsonRouteKeepsExactly` | crates/kim-agent-codec/src/lib.rs:120-187 | Through JSON and back both accounts are kept, and the profile exactly if it has no null parameters. |

## Left out

- CodexSession.CodexSlot.Pump: does not model the previews of tool outputs, the separator between a server's and a tool's name, and the `Op::Interrupt` submissions behind cancels and timeouts, because the driver never reads them back.
- CodexSession.CodexSlot.UseCodex: does not model the flag that switches the host to the Codex driver; calls here are made with that choice already made.
- CodexSession.CodexSlot.Prompt: does not model appending to the transcript file and assembling the prompt's text, which are formatting around the turn.
- CodexSession.CodexSlot.CancelPending: does not model the closing `Op::Interrupt`, whose outcome the driver ignores.
- CodexSession.CodexSlot.Shutdown: does not model the flag that switches the host back and the wait for the thread to end.
- HostSession.AgentHost.ApplyEffects: does not model the reset of the idle clock and the sending of the usage event it returns.
- `embed_config`, `apply_profile` and the rest of the thread's configuration: a thread start succeeds or fails as an input.
- `Instant` overflow and the exact `Duration`s: the clock is a natural number, a duration of `Duration::MAX` is no limit.
- Busy guards of a session: one session has at most one call at a time, so the number of interleaved prompts is the number of sessions.
- DriverSchedules.RunIsSchedule: covers profiles with a turn limit, because the interleaved model is about that limit; without one there is nothing to check at its first hold of the lock.
- CarelessResets.ResetHarmsExactly: does not settle a slot that has no room for another prompt, because every session has a prompt in flight or the turns are spent.
- UnreadTurns.IdleHarmsExactly: does not settle a slot that has nothing outstanding and no room for another prompt, for the same reason.
- `default_context_tokens` with its exact-model tables, `surface_for`, `route_vendor`, and `validate_choice`: lookups in data files around the same search.
- `fortify_choice`, `to_model_spec` and the `map_*` functions: one case each per vendor, with no state and no loop worth a proof.
- YAML parsing, and so the name, description and version read from a repaired frontmatter.
- Skill resolution from the cache and the bundled texts: a function from id and version to a package, which both sources name by the id asked for.
- Symbolic links, canonical paths and concurrent changes of a directory during a scan; a root that ends in a slash is a path of its own.
- Prompt refusals for empty or oversized text, and the text of the prompt's messages, which are a parameter.
- What the run loop does with a conversation once it is entered, other than the effect batches it hands back.
- `messages_since_kickoff` of the agent library is not part of this model; it is taken to be the messages from the last one that is a kickoff, whichever those are.
- Directory creation failing after part of a path was made: it leaves the session's file alone like any failure before the write.
- HostRuns.CrashAtomicity: does not cover power loss that reorders a rename before the data it renames, because the rename is taken as atomic and ordered.
- The bytes of JSON and protobuf; floating-point corner cases of JSON numbers; the sandbox policy, which has a single value.
- Configuring another session path while a host runs.
