# Verified models of the Core crate

Core (`crates/core`) runs Workers for a personal workspace: it starts, parks, resumes and cancels Runs, decides
the Proposals they make, performs one external write, streams events to clients, and validates and stores what the
user accepts. This project models its concurrent protocols as transition systems over single awaits, its stateful
pieces as classes and loops, and its algorithms as functions, and proves what they promise.

`dafny verify dfyconfig.toml` checks all of it. Beside its theorems each module writes out, in columns, what single steps
leave (`WriteTransitions.SettleColumns`, `Decide.OthersWrite`, `ProviderAuth.RefreshEnds`, `ResumeRun.WritersWrite` and
others); those lemmas are read with the steps they are about and have no row below.

## The parts

**The two-phase external write** (`TickTickStore`, `WriteProtocol`, `WriteSafety`, `WriteTheorems`, `WriteDeadline`,
`WriteTransitions`, `WriteWaitpoint`, `WriteLateFlip`, `WriteSweep`). `TickTickStore` holds the durable rows and the
guarded verbs of `db/`, one per transaction. `WriteProtocol` interleaves any number of decides, replays, watchdogs,
cancels, Worker transitions, task deaths, crashes and boot sweeps, one event per point between two awaits.
`WriteSafety` carries the invariant, `WriteTheorems`, `WriteDeadline` and `WriteWaitpoint` the promises,
`WriteTransitions` what each step writes, column by column, `WriteLateFlip` runs on which a promise fails, and
`WriteSweep` the settle and the boot sweep as methods over a store updated in place.

**The event hub** (`HubStream`, `HubChannel`, `HubToolFrames`, `HubRegistry`, `HubTable`, `HubSafety`, `HubDurable`,
`StartRun`). The stream of one Run over generations of its hub, with a lossy 256-slot broadcast; the frames of tool
calls whose rows are written beside the gate; the registry with its weak lifecycle slots and gates, and what its
operations leave in the durable rows; the ordered start of a Run.

**Deciding a Proposal** (`Decide`). Concurrent decides and replays of one single-entity Proposal while other
mutations create, update, reference and delete entities around it.

**Calendar and wall clock** (`CivilCalendar`, `ReviewAnchors`, `WallClock`). All integers, negative eras included.

**Specifications and storage** (`Json`, `Text`, `FieldSpec`, `JsonSchema`, `SpecCompiler`, `SpecAgreement`,
`EntitySpecs`, `EntityRules`, `JournalBody`, `Normalize`). One field specification, its interpreter, its compiler, the meaning of
the emitted keywords under section 6 of the Draft-07 JSON Schema Validation specification, the real specifications,
and what is stored of a valid payload.

**Resume and credentials** (`Resume`, `ResumeRun`, `ProviderAuth`, `Skills`). Transcript reconstruction, and which
transcript a resumed Worker is handed; single-flight token refresh; `SKILL.md` frontmatter and triggers. `Wrappers`
holds the one type they all share.

## Where the code does less than it says

Each of these is kept as the code has it. Where a promise fails, a concrete run or value shows it, and a theorem says
exactly when it holds.

- *A late resume.* `resume_if_awaiting` checks the waitpoint in one await and flips in another, and the flip
  (`mark_run_running`, `crates/core/src/db/queries.rs:1630-1642`) is guarded by `parked` alone. Two decides of one
  Proposal can both pass the check; after the first resumes and the Run parks on its next Proposal, the second flips
  it away from there (`WriteLateFlip.LateFlipHappens`), although the comment at
  `crates/core/src/ticktick_write.rs:673-675` rules that out. It takes no race either: the trailing resume of a plain
  decide asks only whether the Run is parked, replays included, so repeating an old decide takes the Run from the write
  it is parked on (`WriteLateFlip.ReplayTakesTheRun`). Every other event keeps the waitpoint, so a run keeps it
  throughout if and only if no flip is late (`WriteWaitpoint.WaitpointHoldsIffNeverLate`), and a flip guarded by its own
  waitpoint is never late (`WriteWaitpoint.FlipOnItsOwnCallIsNeverLate`).
- *A delete that replays as something else.* Deleting a Person or Project turns references to it into text, which
  stamps a revision of each referring Journal Entry with the same Proposal; a keyed replay then answers with a Journal
  Entry (`Decide.DeleteReplaysTheJournalEntry`, exact condition in `Decide.ReplayReturnsTheFirstIdIff`).
- *A spent refresh token.* `resolve_oauth` re-reads the credential under the lock but refreshes with the one it read
  before, and nothing marks a token whose refresh failed. A waiter whose clock already finds the rotation expired sends
  the spent token again (`ProviderAuth.StaleRefreshHappens`), and so does one that waited while the refresh failed
  (`ProviderAuth.FailedRefreshIsRepeated`). Tokens are sent once if and only if no caller goes on under the lock with a
  credential whose refresh is already over (`ProviderAuth.TokensSentOnceIffNeverStale`, over logins, pasted keys and
  damaged files too); while only refreshes write the file that is a caller that finds an expired credential which is
  not the one it read, or whose refresh failed (`ProviderAuth.TokensSentOnceIffNeverBehind`).
- *Schema and interpreter.* `check` accepts clearing nulls and UUIDs in other forms, the schema neither
  (`SpecAgreement.RelaxationsAreNotInTheSchema`); the schema in turn cannot say some rules
  (`SpecAgreement.SchemasAreLooser`). On every value: a payload `check` accepts is accepted by the schema if and only if
  it has no null at a declared field and no other form of UUID where the pattern is advertised
  (`SpecAgreement.CompilerSound`), and one the schema accepts is accepted by `check` if and only if it meets the
  unsayable rules (`SpecAgreement.PayloadExact`).
- *An old transcript.* A resume reads the transcript in one await and flips the Run in another, so "the final message is
  the Decision" (`crates/core/src/resume.rs:8`) holds of the call the Run awaits if and only if the read was on that
  very waitpoint (`ResumeRun.ResumesOnTheAwaitedCall`); two resumes of one call can hand over an older one
  (`ResumeRun.OldTranscriptIsHanded`).
- *A tool call seen twice, or late.* Core's own tool calls write their rows outside the gate. A subscriber that attaches
  inside a call can be shown its end twice, or nothing of it until its last frame (`HubToolFrames.EndShownTwice`,
  `HubToolFrames.StartMissed`), and nothing else (`HubToolFrames.ToolCallsShown`).
- *Cancel's settled window.* The arm in which resume wins the settled-window CAS
  (`crates/core/src/cancel.rs:92-103`) is never reached while cancel holds the Run's lifecycle slot, which resume's
  activation takes too (`WriteWaitpoint.CancelTells`).
- *A review in year 10000.* A Project seeded at a clock outside the years 0-9999 is stored with a review date its own
  validator refuses (`Normalize.StoredIsValidData`).

## Model

| member | source | states |
|---|---|---|
| `WriteTheorems.PostAtMostOnce` | crates/core/src/ticktick_write.rs:372-533 | over every run of the protocol a Proposal's POST fires at most once |
| `WriteTheorems.PostOnlyAfterAccept` | crates/core/src/ticktick_write.rs:478-516 | when a POST fires, the Proposal is accepted, its row has left `proposed`, and no POST went before |
| `WriteTheorems.CountsAgree` | crates/core/src/ticktick_write.rs:515-516 | the recorded POSTs of a Proposal are exactly the POST events of the run |
| `WriteTheorems.ProposalsOnlyMoveForward` | crates/core/src/db/ticktick_writes.rs:23-127 | along any stretch of a run decisions, tool results and settled rows never change, and a row never goes back from executing or settled |
| `WriteTheorems.AnswersAreDurable` | crates/core/src/ticktick_write.rs:545-671 | whatever a decide, replay, watchdog or belt answered is what the durable row says in every later state, whoever settled |
| `WriteTheorems.OutcomeIsThePosts` | crates/core/src/ticktick_write.rs:626-671 | a recorded `created` or `failed` is what the one POST returned; the tool call carries the same outcome as the row |
| `WriteTheorems.ImpossibleStateUnreachable` | crates/core/src/ticktick_write.rs:594-597 | the two separate reads of a decide never show an accepted Proposal with a `proposed` row |
| `WriteTheorems.PhaseAOnlyFaultsOnTakenKey` | crates/core/src/db/ticktick_writes.rs:36-72 | phase A finds its write row out of state never, and faults exactly on a pending Proposal with a key another one holds |
| `WriteTheorems.InFlightCanAlwaysSettle` | crates/core/src/ticktick_write.rs:687-822 | from every reachable state with a write in flight, time, the boot sweep and Core's own tasks can settle it without a user, a reply or a POST |
| `WriteTheorems.CoreOnEveryRun` | crates/core/src/ticktick_write.rs:372-822 | every event keeps the invariant: consistent Proposals, tasks that fit them, one poster, an owner for every write in flight |
| `WriteDeadline.OnlyTheDeadlineTakesOver` | crates/core/src/ticktick_write.rs:545-582 | on every run a step that settles a write brings its own POST's reply, or comes 35 seconds or more after the request |
| `WriteDeadline.DecideTakes` | crates/core/src/ticktick_write.rs:396-426 | which way a decide takes, and what a replay or recovery is told: the deadline before it passes, a takeover from then on, the settled columns, a rejection; the decide itself writes nothing |
| `WriteTransitions.FreshDecides` | crates/core/src/ticktick_write.rs:428-516 | what a fresh decide leaves: a rejection resolved at once; an accept or edit in flight with its poster and a watchdog 35 seconds on; nothing when it was refused, decided meanwhile, or its key is held elsewhere |
| `WriteTransitions.DecidedAsAsked` | crates/core/src/ticktick_write.rs:428-492 | on every run a decided write was decided by a request that came in for it: rejected by a rejection only, accepted by an accept or edit only, under that request's key |
| `WriteTransitions.OnlyTheseDecide` | crates/core/src/db/ticktick_writes.rs:23-72 | a Proposal leaves pending only by its own fresh decide, a plain decide, or the cancel of its parked Run, with these columns |
| `WriteTransitions.AfterTheSettle` | crates/core/src/ticktick_write.rs:609-685 | a won settle answers what it wrote, a lost one re-reads; the waitpoint is asked before the flip; a plain gate asks only for parked |
| `WriteTransitions.RunsMoveAsAllowed` | crates/core/src/db/lifecycle.rs:142-311 | on every run a Run's row moves only along its life cycle, by whom and with which waitpoint; completed and cancelled are final |
| `WriteWaitpoint.EventKeepsWaitsIff` | crates/core/src/ticktick_write.rs:673-685 | an event keeps every unresolved call's Run parked on it if and only if it is not a late flip |
| `WriteWaitpoint.WaitpointHoldsIffNeverLate` | crates/core/src/ticktick_write.rs:673-685 | over every run: the waitpoint holds in all its states if and only if no flip was late |
| `WriteWaitpoint.InFlightHoldsTheRun` | crates/core/src/cancel.rs:48-67 | without late flips, `executing` means accepted, call unresolved, and Run parked on exactly that call with nothing else pending |
| `WriteWaitpoint.CancelLeavesNoLiveWrite` | crates/core/src/cancel.rs:68-108 | without late flips, a cancelled Run has no pending Proposal and no write in flight |
| `WriteWaitpoint.CancelTells` | crates/core/src/cancel.rs:31-152 | what each cancel answer means on every run, that all but `accepted` change nothing, and that the settled-window CAS never loses |
| `WriteWaitpoint.FlipOnItsOwnCallIsNeverLate` | crates/core/src/db/queries.rs:1630-1642 | a flip whose Run is still parked on its own call is never late |
| `WriteLateFlip.LateFlipHappens` | crates/core/src/ticktick_write.rs:676-685 | a reachable run on which an old Proposal's resume takes the Run from a pending one |
| `WriteLateFlip.ReplayTakesTheRun` | crates/core/src/decide.rs:172-222 | a reachable run on which the replay of a plain decide does it with nothing going on beside it |
| `WriteSweep.WriteStore.Settle` | crates/core/src/ticktick_write.rs:626-671 | the guarded settle writes the whole row and the tool call or nothing; winner and loser answer the stored row's wire state |
| `WriteSweep.WriteStore.ResumeIfAwaiting` | crates/core/src/ticktick_write.rs:676-685 | resumes exactly a Run parked on this write's call |
| `WriteSweep.WriteStore.SweepExecuting` | crates/core/src/ticktick_write.rs:770-803 | in any row order the first branch settles, resumes and counts exactly the executing rows it can act on |
| `WriteSweep.WriteStore.SweepParked` | crates/core/src/ticktick_write.rs:805-820 | in any row order the second branch resumes and counts exactly the settled writes still waited on |
| `WriteSweep.WriteStore.Sweep` | crates/core/src/ticktick_write.rs:757-822 | the whole new store and both counters of a boot sweep that no single failure stops |
| `WriteSweep.SweepSettlesAll` | crates/core/src/ticktick_write.rs:757-822 | after a sweep a write is executing exactly if it was and could not be acted on; settled outcomes are untouched |
| `WriteSweep.SweepAgainSettlesNothing` | crates/core/src/ticktick_write.rs:757-822 | a second sweep settles only what the first could not act on, and nothing when nothing failed |
| `WriteSweep.SweepLeavesNoOneWaiting` | crates/core/src/ticktick_write.rs:805-820 | no Run is left waiting on a settled write, and no Run parked on anything else is moved |
| `HubStream.ExactlyOnce` | crates/core/src/hub.rs:69-99 | for events persisted and sent under the gate: what a client shows is always a prefix of the persisted log, and all of it once drained on the live generation |
| `HubStream.NothingIsLost` | crates/core/src/hub.rs:46-99 | the log is what the client shows, then what it has not received, then what is committed and not yet sent |
| `HubStream.ViewsGrow` | crates/core/src/hub.rs:147-164 | receiving, recovering from a lag and re-attaching to the next generation only extend what a client shows |
| `HubStream.TailsKeepUp` | crates/core/src/hub.rs:143-164 | when a tail may receive, must recover (more than 256 behind) and may move to the next generation, exactly |
| `HubStream.TurnoverWrites` | crates/core/src/hub.rs:230-264 | what a new generation starts from, what a commit adds, and that a drain closes a generation that owes nothing |
| `HubStream.UngatedPublishIsLost` | crates/core/src/hub.rs:92-99 | one publish outside the gate is lost for good to a subscriber between its read and its attach |
| `HubChannel.Broadcast.Send` | crates/core/src/hub.rs:97-99 | the bounded buffer keeps the last 256 events of all that were sent |
| `HubChannel.RunTail.Recv` | crates/core/src/hub.rs:143-145 | delivers the next event, or says exactly how many fell out of the buffer |
| `HubChannel.RunTail.Forward` | crates/core/src/runs/subscribe.rs:225-303 | a forwarder drained in quiescence leaves its client showing exactly the log, however far behind it was, with a snapshot only after a lag |
| `HubToolFrames.ToolCallsShown` | crates/core/src/worker/run.rs:190-275 | what a subscriber is shown of a call whose rows are written outside the gate: each frame once if the call began after its read; its end twice only if the read fell between result and last frame, its start missed only if the read fell between first frame and row |
| `HubToolFrames.StartMissed` | crates/core/src/worker/run.rs:190-230 | a run on which a subscriber shows nothing of a call whose row is written |
| `HubToolFrames.EndShownTwice` | crates/core/src/worker/run.rs:190-230 | a run on which a subscriber is shown a call's end twice |
| `HubTable.Hubs.LookupSlot` | crates/core/src/hub.rs:211-228 | the pruning loop and upgrade do what the registry's lookup step does |
| `HubSafety.MutualExclusion` | crates/core/src/hub.rs:177-228 | all holders and waiters of a Run share one slot despite pruning; one holder per slot and per gate |
| `HubSafety.SomeoneCanMove` | crates/core/src/hub.rs:195-201 | while any operation is unfinished some operation can take its next step |
| `HubSafety.TableIsPruned` | crates/core/src/hub.rs:211-228 | after a lookup every entry of the weak table serves a live operation |
| `HubSafety.RegisteredIffRunning` | crates/core/src/hub.rs:266-312 | outside held slots a hub is registered if and only if the Run is running, and it is the hub of the producer that will end this attempt |
| `HubSafety.OneProducer` | crates/core/src/hub.rs:230-264 | no two uncancelled generations of a Run produce at once |
| `HubSafety.EarlyNoneIsTheCasAnswer` | crates/core/src/hub.rs:279-287 | an activation that backs off at an occupied slot would have lost its CAS |
| `HubSafety.ActivationAllOrNothing` | crates/core/src/hub.rs:288-312 | a lost or faulted activation leaves no hub, status or producer behind; a won one leaves its own |
| `HubSafety.RetireIsNoOp` | crates/core/src/hub.rs:344-351 | retiring a parked or cancelled generation never removes a live hub |
| `HubSafety.CancelReachesTheProducer` | crates/core/src/cancel.rs:113-152 | a cancel of a running Run always finds its producer's hub, signals it and removes it with the transition |
| `HubSafety.InvOnEveryRun` | crates/core/src/worker/run.rs:172-185 | every step of activations, drains, cancels, retirements and crashes keeps the registry's invariant |
| `HubDurable.ParkWrites` | crates/core/src/worker/run.rs:172-186 | a park that finds its Run running leaves it parked with no hub and a stopped producer; any other changes nothing |
| `HubDurable.FinishWrites` | crates/core/src/worker/run.rs:300-356 | the producer's end writes its own status to a running Run, keeps a cancel, and leaves rows and hub when it cannot be written |
| `HubDurable.CancelDecides` | crates/core/src/cancel.rs:31-67 | a cancel decides from the row under the slot: parked at once, running behind the hub's gate, anything else left |
| `HubDurable.CancelWrites` | crates/core/src/cancel.rs:113-152 | a gated cancel writes cancelled, marks the generation and removes the hub, all or nothing |
| `HubDurable.RestartErrorsTheRunning` | crates/core/src/db/runs.rs:793-820 | a crash loses no row and the restart errors exactly the running Runs |
| `HubDurable.RowsMoveAsAllowed` | crates/core/src/db/lifecycle.rs:142-311 | on every run a row moves only from where its operation may take it; completed and cancelled are final |
| `HubDurable.ParkedRunResumes` | crates/core/src/worker/mod.rs:171-186 | on every run: after a won park, whatever other Runs do, the next resume of this one finds its slot vacant and wins its CAS |
| `StartRun.Core.StartRun` | crates/core/src/start_run.rs:257-348 | every refusal leaves rows, hubs and spawns alone; success has the whole order gate, hub, persist, history, spawn and exactly one spawn |
| `StartRun.Core.Activate` | crates/core/src/hub.rs:279-312 | hub before CAS, taken back on refusal |
| `StartRun.Core.HistoryForRun` | crates/core/src/db/runs.rs:34-46 | the loop reads the history function |
| `StartRun.HistoryHolds` | crates/core/src/db/runs.rs:29-46 | a turn is in the history if and only if some message of this Thread, of another Run and completed, has its role and text |
| `StartRun.HistoryInOrder` | crates/core/src/db/queries.rs:1996-2012 | the turns come in order, each once, from exactly the places of completed messages of other Runs of this Thread |
| `StartRun.PersistWrites` | crates/core/src/start_run.rs:122-186 | every row each persist step writes: the running Run, the prompt and the empty reply of a new one, the emptied reply of a retried one |
| `StartRun.HistoryIgnoresTheRun` | crates/core/src/start_run.rs:307-320 | history read after the persist is what it was before it |
| `Decide.AppliedAtMostOnce` | crates/core/src/decide.rs:208-248 | over any run of concurrent decides the mutation commits at most once, on the proposed target |
| `Decide.AnswersAgree` | crates/core/src/decide.rs:208-303 | except for deletes, every accepted answer names the entity of the one commit; no caller is told accepted while another is told declined |
| `Decide.AnswersFollowTheDecision` | crates/core/src/decide.rs:324-451 | on every run an answer of the apply transaction is its caller's own decision: declined only for a rejection, accepted only for an accept or edit, having committed the proposed or the edited payload |
| `Decide.SomebodyDecided` | crates/core/src/decide.rs:324-451 | a decided Proposal was decided by a request that came in, with its key and, if accepted, its payload |
| `Decide.ApplyAnswers` | crates/core/src/decide.rs:311-451 | what one apply answers, exactly, for every decision, fault and state it can find |
| `Decide.AcceptLands` | crates/core/src/db/apply.rs:243-560 | where an accept lands: the one entity created, revised or deleted, the references removed, the Journal Entries revised, nothing else |
| `Decide.RepeatIsAnswered` | crates/core/src/decide.rs:218-222 | a repeat under the recorded key never reaches apply |
| `Decide.ReplayReturnsTheFirstIdIff` | crates/core/src/decide.rs:255-303 | exactly when a replay returns the first id: updates always, creates while the entity exists, deletes while no Journal Entry carries the turned-to-text revision |
| `Decide.ReplayOfARejection` | crates/core/src/decide.rs:255-263 | a rejected Proposal replays as rejected |
| `Decide.EditKeepsTarget` | crates/core/src/decide.rs:669-706 | an edit that reaches apply keeps the proposed target and all its other members; when it is refused, exactly |
| `Decide.DeleteReplaysTheJournalEntry` | crates/core/src/db/queries.rs:341-373 | a keyed replay of a delete that answers with a Journal Entry |
| `CivilCalendar.CivilSuccessor` | crates/core/src/localtime.rs:163-174 | for every integer n, day n has a valid date and day n + 1 the calendar's successor of it |
| `CivilCalendar.CivilInverts` | crates/core/src/localtime.rs:163-174 | `civil_from_days` and an independent count of days are inverse on all integers and all valid dates |
| `CivilCalendar.CivilOrders` | crates/core/src/localtime.rs:163-174 | order-preserving and injective |
| `CivilCalendar.Epoch` | crates/core/src/localtime.rs:161-163 | day 0 is 1970-01-01 |
| `CivilCalendar.DayNumberOrders` | crates/core/src/localtime.rs:62-76 | the count of days orders valid dates as the calendar does |
| `ReviewAnchors.SeedIsLeast` | crates/core/src/localtime.rs:83-107 | the seeded review is the least Sunday 20:00 strictly after the local instant |
| `ReviewAnchors.AdvanceIsFirstLaterSunday` | crates/core/src/localtime.rs:114-121 | an advance is the first Sunday of a strictly later local date |
| `ReviewAnchors.SeedAndAdvance` | crates/core/src/localtime.rs:86-121 | the two differ, by one week, exactly on a Sunday before 20:00 |
| `ReviewAnchors.ReviewsAreMonotone` | crates/core/src/localtime.rs:94-121 | later instants never get earlier reviews |
| `ReviewAnchors.ReviewOnTime` | crates/core/src/localtime.rs:109-121 | a review done at its anchor moves exactly one week on |
| `WallClock.FormatRoundTrip` | crates/core/src/localtime.rs:11-51 | parsing what was formatted gives the fields back for exactly the years 0-9999 |
| `WallClock.ParseRoundTrip` | crates/core/src/localtime.rs:11-60 | every accepted text is in range and is the one text formatted for its fields |
| `WallClock.TextOrderIsTimeOrder` | crates/core/src/entities.rs:259-268 | accepted texts compare byte by byte as the tuples the validators compare |
| `WallClock.NowLocalReadsBack` | crates/core/src/localtime.rs:135-146 | `now_local` reads back as the floored local second, or not at all outside the years 0-9999 |
| `WallClock.AnchorReadsBack` | crates/core/src/localtime.rs:125-128 | an anchor's text reads back as 20:00 of its day, exactly for four-digit years |
| `WallClock.AnchorStrikesAtEight` | crates/core/src/localtime.rs:83-128 | the clock printed at the millisecond an anchor stands for is the anchor's text, 20:00:00 of its day, under any offset |
| `FieldSpec.Check` | crates/core/src/field_spec.rs:274-297 | the loops with early return decide exactly the acceptance predicate |
| `FieldSpec.CheckSpec` | crates/core/src/field_spec.rs:436-544 | each field shape is decided exactly |
| `FieldSpec.CheckOneOf` | crates/core/src/field_spec.rs:550-559 | the search over variants decides whether any accepts |
| `FieldSpec.UuidForms` | crates/core/src/field_spec.rs:477-484 | thirty-two hexadecimal digits are accepted plain, hyphenated, in braces and as a URN |
| `FieldSpec.UuidHasDigits` | crates/core/src/field_spec.rs:477-484 | and in no other form |
| `SpecCompiler.CompilePayload` | crates/core/src/field_spec.rs:251-267 | the filling loop emits the schema function |
| `SpecCompiler.CompileSpec` | crates/core/src/field_spec.rs:316-391 | each shape's fragment, arrays and variants compiled in place |
| `SpecCompiler.LeavesValidate` | crates/core/src/field_spec.rs:316-354 | what the fragment of each shape without parts accepts, on every value |
| `SpecCompiler.NumbersValidate` | crates/core/src/field_spec.rs:328-336 | what the two number fragments accept, however the number is written |
| `SpecCompiler.DatesValidate` | crates/core/src/field_spec.rs:337-341 | what the date pattern accepts, character by character |
| `SpecCompiler.ArraysValidate` | crates/core/src/field_spec.rs:352-370 | an array's fragment asks its length and each item, or of plain items only that they are text |
| `SpecCompiler.ValidatesByField` | crates/core/src/field_spec.rs:251-267 | an emitted object schema accepts exactly the objects of declared keys, required ones present, each member valid |
| `SpecAgreement.PayloadExact` | crates/core/src/field_spec.rs:251-297 | for every value: of what `check` accepts the schema accepts exactly the sayable, and of what the schema accepts `check` accepts exactly what meets the rules beyond it |
| `SpecAgreement.CompilerSound` | crates/core/src/field_spec.rs:316-391 | a payload `check` accepts is accepted by the emitted schema if and only if it has no null at a declared field and writes every advertised UUID with 36 characters |
| `SpecAgreement.ReadersAgree` | crates/core/src/field_spec.rs:1-23 | on every value: sayable and accepted by `check` is the same as valid and within the unsayable rules, and when exactly the two verdicts coincide |
| `SpecAgreement.ApartNeverBoth` | crates/core/src/field_spec.rs:117-141 | variants set apart by a discriminant or a forbidden key are never both valid |
| `SpecAgreement.RelaxationsAreNotInTheSchema` | crates/core/src/field_spec.rs:436-440 | a clearing null and a plain UUID that `check` accepts and the schema refuses |
| `SpecAgreement.SchemasAreLooser` | crates/core/src/field_spec.rs:316-391 | values the schema accepts and `check` refuses, one per unsayable rule |
| `EntitySpecs.AdvertisedSchemasAgree` | crates/core/src/mutation.rs:699-755 | that exact agreement, on every value, of every regular create and update, the intent graph and recorded observations |
| `EntitySpecs.IntentGraphIsWellFormed` | crates/core/src/mutation.rs:895-931 | the intent graph's variants are set apart by their tags |
| `EntitySpecs.RecordObservationsIsWellFormed` | crates/core/src/observations.rs:141-174 | observation variants are set apart by schema key, evidence variants by their forbidden counterpart |
| `EntityRules.PersonIs` | crates/core/src/mutation.rs:531-543 | the Person specification accepts exactly these fields |
| `EntityRules.MediaIs` | crates/core/src/mutation.rs:545-559 | the Media specification accepts exactly these fields |
| `EntityRules.HabitIs` | crates/core/src/mutation.rs:561-578 | the Habit specification accepts exactly these fields |
| `EntityRules.ProjectIs` | crates/core/src/mutation.rs:580-620 | the Project specification accepts exactly these fields |
| `EntityRules.PayloadIs` | crates/core/src/mutation.rs:699-755 | a create or update payload is its type's data with its own transport key around it |
| `JournalBody.BodyExact` | crates/core/src/field_spec.rs:395-432 | the body hook and the advertised body schema agree node by node, up to non-blank text and UUIDs |
| `JournalBody.WeaveIsValid` | crates/core/src/entities.rs:410-443 | weaving a checked reference gives a valid stored body with one new reference in place and everything else kept |
| `Normalize.Apply` | crates/core/src/mutation.rs:107-132 | strip loop, null drop and defaults compute the stored value |
| `Normalize.SeedDefaults` | crates/core/src/mutation.rs:142-166 | the in-place defaults compute the seeded map |
| `Normalize.StoredIsValidData` | crates/core/src/mutation.rs:107-164 | what a valid create or update is stored as is valid data if and only if it does not seed a review outside the years 0-9999 |
| `Normalize.StoredFields` | crates/core/src/mutation.rs:85-132 | stored data has no null and no transport key, keeps every other value, and adds only a new Project's defaults |
| `Normalize.StoredIsFixed` | crates/core/src/mutation.rs:107-132 | normalizing stored data again changes nothing at any later clock |
| `Normalize.DefaultsAccepted` | crates/core/src/mutation.rs:142-166 | seeding keeps Project data accepted exactly for four-digit years |
| `Normalize.KeptHook` | crates/core/src/entities.rs:550-655 | stripping and dropping nulls neither breaks nor mends a cross-field rule, which counts a null as absent |
| `Normalize.ProjectIsValid` | crates/core/src/entities.rs:605-646 | an accepted Project is valid if and only if it is completed exactly when it has a completion date and dropped exactly when it has a drop date |
| `Normalize.MediaIsValid` | crates/core/src/entities.rs:543-567 | accepted Media is valid if and only if finish data comes only with done or abandoned, and a rating is at most five |
| `Resume.Reconstruct` | crates/core/src/resume.rs:84-149 | the block-building loop computes the transcript, and its reuse branch never runs |
| `Resume.TranscriptIsValid` | crates/core/src/resume.rs:1-9 | each call stands alone in a text-less block answered at once by its own result, and no result stands alone |
| `Resume.TranscriptReadsBack` | crates/core/src/resume.rs:78-149 | the transcript reads back to the timeline, in order, less only empty assistant segments |
| `ResumeRun.ResumesOnTheAwaitedCall` | crates/core/src/worker/mod.rs:142-186 | on every run: the awaited call is the last step, and the transcript a resumed Worker is handed ends with its answer if and only if it was read on this waitpoint; then it is the persisted Decision, or the placeholder if there was none yet |
| `ResumeRun.OldTranscriptIsHanded` | crates/core/src/worker/mod.rs:157-186 | a run on which the transcript handed over ends with an older call than the awaited one |
| `Resume.PayloadsReadBack` | crates/core/src/resume.rs:151-194 | every writer's payload replays as what it meant, errors as errors |
| `Resume.OtherPayloadsReplayRaw` | crates/core/src/resume.rs:163-194 | payloads of no known shape replay verbatim, and which calls are external |
| `ProviderAuth.Resolver.ResolveAccessToken` | crates/core/src/provider_auth.rs:37-75 | what one caller returns, sends and stores, for every credential kind, every state found under the lock and every way a refresh ends |
| `ProviderAuth.SingleFlight` | crates/core/src/provider_auth.rs:51-74 | interleaved callers on one expired credential send its token once and all return the rotated access token, if the refresh succeeds and outlives every caller's clock |
| `ProviderAuth.ResolveTakes` | crates/core/src/provider_auth.rs:37-58 | what a caller does with each credential kind, live before its expiry and not from it on |
| `ProviderAuth.TokensSentOnceIffNeverStale` | crates/core/src/provider_auth.rs:51-74 | over every run, failures and outside writes included: no refresh token is sent twice if and only if no caller goes on under the lock with a credential whose refresh is over |
| `ProviderAuth.TokensSentOnceIffNeverBehind` | crates/core/src/provider_auth.rs:58-73 | the same condition in terms of the file, while only refreshes write it: an expired credential that is not the one read, or whose refresh failed |
| `ProviderAuth.StaleRefreshHappens` | crates/core/src/provider_auth.rs:62-73 | two callers with different clocks send one token twice |
| `ProviderAuth.FailedRefreshIsRepeated` | crates/core/src/provider_auth.rs:62-73 | a refresh that failed is sent again by the next caller, with the credential unchanged |
| `Skills.SplitFrontmatter` | crates/core/src/skills.rs:162-197 | the cursor loop computes the split and ends |
| `Skills.FenceIs` | crates/core/src/skills.rs:176-193 | a fence is three dashes followed by nothing but carriage returns |
| `Skills.SplitRoundTrip` | crates/core/src/skills.rs:162-210 | fenced lines and body split back to exactly those lines and the trimmed body |
| `Skills.SplitConverse` | crates/core/src/skills.rs:162-210 | returned frontmatter is whole lines without a fence, and the pieces reassemble the file |
| `Skills.SplitOtherwise` | crates/core/src/skills.rs:162-186 | when there is no frontmatter, and when the fence is unclosed, exactly |
| `Skills.ScanNothing` | crates/core/src/skills.rs:183-196 | text made of lines that are no fence is never taken to be closed |
| `Skills.MatchTrigger` | crates/core/src/skills.rs:501-524 | the winner is the first skill with the longest match; none exactly when no phrase occurs |
| `Skills.SubsliceIs` | crates/core/src/skills.rs:528-533 | a phrase matches exactly when the prompt is something, the phrase, something |
| `Skills.ScoreIsLongest` | crates/core/src/skills.rs:508-514 | a skill's score is the length of its longest matching phrase |
| `Text.TrimCuts` | crates/core/src/skills.rs:176-193 | trimming removes white space at both ends and leaves none there |

## Left out

- SQL text, the sqlx layer and transactions as such: each verb is one atomic guarded step; a database fault is a step that refuses.
- The remote HTTP client: a POST comes back created, failed or unknown, as the environment chooses.
- Fairness: that a step which can be taken is taken. `WriteTheorems.InFlightCanAlwaysSettle` says a settle stays possible, not when it comes.
- Tasks aborted inside a held lifecycle or gate section: a guard is released by finishing its section or by a crash of the whole process.
- `HubStream.ExactlyOnce`: the log is the events committed under the gate; the tool calls whose rows are written outside it (`crates/core/src/worker/run.rs:190-275`) are `HubToolFrames`. After a retry cleared the failed attempt's output, a tail still on the old generation shows the old attempt, and the statement compares it with the log of its own attempt.
- `HubTable.Hubs.LookupSlot`: strong reference counts are given as the set of live slots, not counted.
- Terminal events a forwarder synthesizes when its channel closes, and proposal notifications.
- 64-bit overflow of instants, day counts and ids; integers are unbounded.
- Rounding of JSON numbers beyond 53 bits; numbers are exact.
- Error wording, schema descriptions and titles, and which of several faults is reported first.
- `FieldSpec.Check`: struct-shaped arrays that the deserializers behind it also admit.
- `Resume.PayloadsReadBack`: the array form in which a derived struct may also be deserialized.
- Text is Unicode scalar values, except in `WallClock`, which reads bytes; for the texts it accepts the two are the same.
- `Decide.AppliedAtMostOnce`: single-entity kinds only; the intent graph's resolver and observations have apply paths of their own.
- `Decide.ReplayReturnsTheFirstIdIff`: ties between revisions of one instant are broken arbitrarily, not by id.
- The plain decide is one event of `WriteProtocol`, its commit (the check that the Run is parked lies before it and may be out of date by then), its trailing resume (`crates/core/src/decide.rs:172-177`) the `OtherGate` point; `Decide` has its inner steps.
- The accept's commit and the arming of its watchdog are one step: the family's decide is a task of its own that nothing aborts (`crates/core/src/runs/proposal.rs:89-115`), and there is no await and nothing that can panic between the two (`crates/core/src/ticktick_write.rs:491-508`). The process ending there is the `Crash` event.
- `ProviderAuth.SingleFlight`: runs on which a refresh fails or the file is written from outside; the two theorems beside it cover them.
- A token counts as sent once its refresh has begun, also when the helper could not be started.
- YAML, UUID generation, SHA-256 fingerprints, the tokenizer's Unicode tables, file access and skill seeding.
- Handlers, routing, configuration, process launch, credentials on disk and the web application: no protocol or algorithm of their own.
