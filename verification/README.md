# Verified model of the transport coordination bot

The bot coordinates donations of furniture: a donor and a receiver share one
request, a Tuesday transport run has a limited number of slots, and everything
a customer is told leaves through an ordered outbox. This project models the
durable part of that system and proves what it keeps over every run. `dafny
verify dfyconfig.toml` checks all of it.

One database transaction is one atomic step. Customer texts, the planner's
commands, the channel's and adapters' answers, clocks and crashes are arbitrary
inputs. Each core comes twice: as functions on values, over which the theorems
are proved, and as imperative code with the loops and in-place updates of the
source, proved to compute exactly those functions.

| files | what they model |
|---|---|
| `Types.dfy`, `Policies.dfy`, `Questions.dfy`, `Phones.dfy`, `PhoneSpellings.dfy` | the entities; questionnaire, readiness, dates; the questionnaire by what is missing; phone numbers and all their spellings |
| `Commands.dfy`, `CommandHandler.dfy` | `Commands.apply` as functions, and branch by branch with its loops |
| `CommandAnswers.dfy`, `PartyAnswers.dfy` | what each command records, who may give it, and that it settles the question it answers |
| `Booking.dfy`, `PlanGate.dfy`, `BookingService.dfy` | the booking store: plans with their filter and photo gate, proposals, bookings, approvals, waitlist, admin routes |
| `Planning.dfy`, `PlanningTheorems.dfy`, `PlanningService.dfy` | one message's turn: its stored plan and versions, the handlers that hold a plan in memory, the reset after a stale plan |
| `Lifecycle.dfy`, `BookingRuns.dfy`, `BookingPaths.dfy`, `BookingLoops.dfy`, `BookingTheorems.dfy`, `BookingCancellations.dfy`, `BookingDates.dfy`, `BookingApprovals.dfy`, `BookingPastRun.dfy`, `BookingHeldDates.dfy` | the request invariant, the store invariant, the path of saves inside one transaction, the store each command of a plan runs on, and the theorems over whole runs |
| `BookingEffects.dfy`, `PlanEffects.dfy`, `PlanOutcomes.dfy` | what each transaction does and what the customer sees of it; which commands of a plan run, and what it ends in |
| `Outbox.dfy`, `OutboxTheorems.dfy`, `OutboxOrder.dfy`, `OutboxEffects.dfy`, `OutboxService.dfy` | outbox rows, the claim/call/report protocol, admin resolution, match photos and claims |
| `Conversation.dfy`, `ConversationTheorems.dfy`, `ConversationOrder.dfy`, `ConversationEffects.dfy`, `ConversationService.dfy` | one phone's lane: jobs, handlers, coalescing, supersession, releases, recovery |
| `Integration.dfy`, `IntegrationTheorems.dfy`, `IntegrationEffects.dfy`, `IntegrationService.dfy` | the leased, ordered, bounded-retry dispatcher |
| `Reorder.dfy`, `RateLimiter.dfy`, `Counting.dfy` | the plan reordering, the fixed-window limiter, counting |

## What was found

- A request is ready for a date exactly when the questionnaire has nothing left
  to ask and the facts it never asks for hold. This relies on approvals being
  consistent, which is itself proved of every reachable request.
- A question is settled by the answer it asks for. One exception: the question
  whether the other side may be contacted stays after a yes exactly when the other
  side is the sender's own phone, in a pair that was never declared a
  self-transfer, or was contacted before.
- A conversation message is stranded by exactly the steps that let go of its last
  hope: a job of the message while it is open, with no second job of it ahead of
  the jobs of all newer messages. The settled messages stay a prefix of the
  arrivals, in every continuation that strands nothing more, if and only if a
  step is not one of these. A run can come to such a step in two ways: a
  deletion of failed jobs (the admin's `release-queue`, or the heartbeat's when
  its own settling wrote nothing or was of a job that has since given way to
  another failed one), and a release in which every write fails, because that
  error is swallowed and the job completes. A run from the empty lane is given
  for each; a run without either strands nothing.
- The channel calls of a phone stay in the order of the outbox, in every
  continuation that harms nothing more, if and only if a step is not a
  resolution that takes effect under a running handler of its row: any such
  handler when the row is put back, otherwise one that does not yet hold an
  acceptance. The bound on resends needs no such condition.
- A match photo that an admin cancels, with no handler left on its row, is never
  shown: its match stays queued, for the photo row is not made twice.
- When a date is booked is characterised exactly for the waitlist, the admin and a
  plan's tail. A date already past is booked like any other: the proposed date is
  never compared with today. In the tail this happens when an agreed proposal has
  passed and no new date can be offered, for the old one then stays. A run from
  a store without requests to each of the three is given.
- Integration attempts since a replay can exceed three plus the leases taken
  back since, and adapter calls can exceed attempts. Right after a replay, the
  plain bound on attempts holds for every continuation if and only if no worker
  left over could still put the row back, and the one on calls if and only if no
  worker left over has yet to call. Bounds that count such workers always hold.
- The comment at `src/application/engine.ts:1250-1254` says the plan is otherwise
  preserved. The code leaves a plan alone exactly when no receiver details have
  a counterparty command of their request after them, so a plan in which all
  details already follow a counterparty can still change; the code is followed.
- The limiter admits at most `2·max − 1` calls of a key in any span shorter than
  the window, one fewer than twice the maximum, and that many can occur.
- A canonical phone that begins with 972 is not accepted in its own canonical
  form; every other one is a fixed point.
- A plan of the model made on outdated versions can act. The versions are stored
  with the plan of the message, and a handler that finds no stored plan finishes
  the one it holds in memory and checks no versions. A finish acts on passed
  versions if and only if nothing is stored when it finishes and the versions of
  the plan it holds have passed. What makes this possible is exactly a reset
  after a stale plan while another handler of the message holds an unfinished
  plan, which needs a handler that goes on after its job has expired: without
  such a reset it never happens, and after one it can. A run is given in which
  the outdated plan cancels a request for good. The plans of the rules are
  finished without any versions.
- A command about a coordinated request that is not a cancellation leaves that
  request untouched. A coordinated request can however be handed to a human,
  keeping its run date, when a later turn fails or stays unclear, and resumed by
  the admin. New dates are then offered and approved, but it is never booked,
  by a plan, the waitlist or the admin, before a cancellation clears the old date.

## Model

| member | source | states |
|---|---|---|
| Policies.OwnParty | src/domain/policies.ts:368-384 | the side a message is about is one of the sender's, none exactly when the sender is on no side, and a complete one only when all the sender's sides are complete, and then the first |
| Policies.QuestionnaireAgreesWithReadiness | src/domain/policies.ts:415-549 | ready to propose if and only if no question is left for any side and the unasked conditions hold, self-transfers included |
| Policies.ReadyLeavesNothingToAsk | src/domain/policies.ts:415-549 | a ready request leaves nothing to ask either phone |
| Policies.NothingToAskIsReady | src/domain/policies.ts:415-549 | conversely, both sides settled and the unasked conditions make it ready |
| Types.TrimExactly | src/application/commands.ts:690 | trimming an address cuts off white space at both ends and nothing else |
| Questions.AsksTheFirstMissing | src/domain/policies.ts:415-549 | the question asked is the first thing missing in a fixed order, seen from the sender's side, and no other |
| Questions.NextQuestionExactly | src/domain/policies.ts:415-425 | who is asked nothing: a booked, ended or handed-over request, or a stranger |
| Policies.NextTuesdayMeaning | src/domain/policies.ts:581-592 | the next Tuesday is a Tuesday 0 to 7 days ahead, today exactly on a Tuesday before 20:00, and not after any later Tuesday |
| Policies.NextTuesdayMonotone | src/domain/policies.ts:581-592 | as time passes the next Tuesday never moves back |
| Policies.ProposalDayIsLeast | src/infrastructure/store.ts:519-527 | the proposed day is the least Tuesday not before the next Tuesday and not before the earliest date |
| Phones.ResultIsCanonical | src/domain/policies.ts:45-55 | whatever is accepted is eight or nine digits from 2 to 9 on |
| Phones.RoundTrip | src/domain/policies.ts:45-55 | a stored phone comes back from the chat id, the international and the national spelling built from it |
| Phones.IdempotentIff | src/domain/policies.ts:50-53 | canonical form is a fixed point if and only if it does not begin with 972 |
| Phones.NotIdempotent | src/domain/policies.ts:50-53 | a number that is accepted while its canonical form is rejected |
| PhoneSpellings.AcceptedExactly | src/domain/policies.ts:45-55 | a text is accepted for a number if and only if it spells it: separators, one of two chat suffixes, and nothing, a zero or the country code before the stored digits |
| PhoneSpellings.DigitsOfParts | src/domain/policies.ts:49 | the digits of a text are those of its parts in order |
| CommandAnswers.MovableExactly | src/domain/policies.ts:385-404 | what is not refused: two things at most, given away, working, and a wardrobe once seen only small and whole |
| CommandAnswers.TellsExactly | src/application/commands.ts:705-757 | who may tell about the items; each stated fact is taken over, every other kept; rejected exactly when they cannot be moved, handed over exactly for another evacuation, and the proposal is dropped |
| CommandAnswers.ItemQuestionsAreSettled | src/application/commands.ts:716-745 | an answer about condition, oven, disassembly or wardrobe settles its question |
| CommandAnswers.BrokenIsRejected | src/application/commands.ts:705-757 | what does not work or is not given away ends the request, with every item marked |
| PartyAnswers.ApprovesSelfExactly | src/application/commands.ts:800-815 | who may approve, and that every side of that phone and no other is approved, the first time kept |
| PartyAnswers.ApprovalIsSettled | src/application/commands.ts:800-815 | and is not asked again |
| PartyAnswers.ApprovesDateExactly | src/application/commands.ts:816-850 | who may approve which date, and that it becomes the date of every side of that phone and no other |
| PartyAnswers.DateIsSettled | src/application/commands.ts:816-850 | and is not asked again |
| PartyAnswers.ContactsExactly | src/application/commands.ts:453-498 | permission is recorded once, a refusal drops the proposal |
| PartyAnswers.ContactIsSettledExactly | src/application/commands.ts:453-473 | a yes settles the question if and only if the other side has another phone and was not contacted before |
| PartyAnswers.LinksExactly | src/application/commands.ts:758-799 | a number links the missing side under that phone, with the name of the card, the pending contact or the message |
| PartyAnswers.LinkIsSettled | src/application/commands.ts:758-799 | and the number is not asked for again |
| PartyAnswers.LinkedIsNeverReplaced | src/application/commands.ts:758-799 | with both sides linked, the same number changes nothing and any other is refused |
| PartyAnswers.WithoutNumber | src/application/commands.ts:758-799 | without a number only a donor may name the receiver; a number the message does not hold is refused |
| PartyAnswers.WorkingIsNotAsked | src/application/commands.ts:787-796 | a donor who names the receiver is not asked whether the items work |
| PartyAnswers.ConfirmsExactly | src/application/commands.ts:429-452 | the pending contact joins as the receiver exactly after a yes while there is none |
| PartyAnswers.PointsExactly | src/application/commands.ts:402-508 | commands that only ask or point leave the request as it is; an escalation hands it over unless it is coordinated |
| PartyAnswers.StrangersAreRefused | src/application/commands.ts:402-405 | nobody but a side gets a command on a request to run |
| PartyAnswers.DetailsExactly | src/application/commands.ts:608-704 | whose details the sender may state; stated fields are taken over and all others kept; rejected exactly for a town outside, handed over exactly for a borderline one |
| PartyAnswers.PlaceIsSettled | src/application/commands.ts:667-704 | the name and the place of a sender on one side are settled by stating them |
| CommandHandler.InvalidateProposal | src/application/commands.ts:125-132 | the loop leaves no proposal and no approved date on any side |
| CommandHandler.WriteFields | src/application/commands.ts:685-697 | the assignments, the self-transfer name loop and the floor rule: only place fields of the sender's side and the name of the same person's other side change, and no side loses its approval or its rules |
| CommandHandler.WriteSide | src/application/commands.ts:667-704 | region rejection, review handoff, fields, unknown street; an unbooked request without a proposal stays sound |
| CommandHandler.Details | src/application/commands.ts:608-704 | the details branch with its reopening, protection, invalidation and cross-party rule |
| CommandHandler.UpdateItem | src/application/commands.ts:716-745 | one item of the loop: refused without a confirmation, else exactly the specified facts |
| CommandHandler.UpdateItems | src/application/commands.ts:716-745 | the loop over items, refused as a whole when one is |
| CommandHandler.ItemFacts | src/application/commands.ts:705-757 | the item_facts branch: rejection, restored items, evacuation handoff |
| CommandHandler.Link | src/application/commands.ts:787-796 | adding the other side drops the proposal, marks items working, makes the request direct and detects a self-transfer; a side that may join leaves the request sound |
| CommandHandler.Counterparty | src/application/commands.ts:758-799 | the counterparty branch |
| CommandHandler.ApproveSelf | src/application/commands.ts:800-815 | the first approval time is kept, on every side of the sender's phone |
| CommandHandler.ApproveSchedule | src/application/commands.ts:816-850 | only the live proposal, quoted and explicitly approved, by a side that approved itself |
| CommandHandler.Cancel | src/application/commands.ts:506-576 | the three cancellation choices |
| CommandHandler.ContactCounterparty | src/application/commands.ts:453-498 | consent to contact the other side, or its refusal, which drops the proposal |
| CommandHandler.ConfirmCounterparty | src/application/commands.ts:429-452 | confirming or declining the pending receiver |
| CommandHandler.Apply | src/application/commands.ts:402-866 | the dispatch over all commands about a known request |
| Lifecycle.AppliedKeeps | src/application/commands.ts:402-866 | every command keeps the request invariant: sides, dates, consents, bookings |
| Lifecycle.DateApprovalKeeps | src/application/commands.ts:816-850 | approving a date keeps every approved date backed by a consent to that date on the present facts |
| Lifecycle.BookedIsFrozen | src/application/commands.ts:630-631 | no command books a request, and only a cancellation changes a booked one |
| Lifecycle.AppliedEvolves | src/application/commands.ts:402-866 | sides are only added, no command makes a proposal, and a date appears on a side only by its own phone's approval of the live proposal |
| Lifecycle.BookKeeps | src/infrastructure/store.ts:788-791 | booking keeps the request invariant |
| Lifecycle.OfferKeeps | src/application/engine.ts:1423-1431 | offering a new date drops every older approval and keeps the invariant |
| BookingService.Store.Save | src/infrastructure/store.ts:398-418 | a save stores the request under the next version, and keeps a sound store sound if and only if the request is sound and its booking, if any, was there already or has a free slot |
| BookingService.Store.PrepareTransportRun | src/infrastructure/store.ts:464-469 | a missing run is created open at the standard capacity, an existing one kept |
| BookingService.Store.AskForCapacityApproval | src/infrastructure/store.ts:470-508 | one approval per date and capacity, asked once, never beyond the limit |
| BookingService.Store.ProposeScheduleDate | src/infrastructure/store.ts:514-545 | the date or none, with the approval asked for when the run is fully booked |
| BookingService.Store.Coordinate | src/infrastructure/store.ts:752-792 | every result of coordinate with the request and store it leaves |
| BookingService.Store.ResolveCapacityApproval | src/infrastructure/store.ts:793-824 | acts on exactly one pending approval, or leaves the store alone |
| BookingService.Store.SetTransportCapacity | src/http.ts:1194-1230 | the manual capacity change with its checks and the approvals it settles |
| BookingService.Store.Create | src/infrastructure/store.ts:358-397 | a new request under the next number, saved again for a self-transfer |
| BookingService.Store.ApplyTo | src/application/engine.ts:1332-1341 | one command on a request: applied and saved, or refused |
| BookingService.Store.OpenRequest | src/application/commands.ts:151-264 | a donation or a request from a donor opens a request, or answers with an existing one |
| BookingService.Store.Interest | src/application/commands.ts:265-304 | a receiver joins an offered request |
| BookingService.Store.EscalateUnknown | src/application/commands.ts:305-316 | an escalation without a request opens one only for a borderline area |
| BookingService.Store.ApplyCommand | src/application/commands.ts:117-866 | the dispatch on the store |
| BookingService.Store.AnyNamesOutside | src/application/engine.ts:1209-1222 | finds exactly a command that names a town outside the area |
| BookingService.Store.Filter | src/application/engine.ts:1255-1288 | the reordered plan without the details the sender may not state |
| BookingService.Store.RunCommands | src/application/engine.ts:1306-1389 | the command loop with its three photo-gate breaks, ending at a handoff or a rejection |
| BookingService.Store.OfferDate | src/application/engine.ts:1404-1432 | the proposal half of the tail of finish |
| BookingService.Store.BookDate | src/application/engine.ts:1465-1495 | the booking half of the tail of finish |
| BookingService.Store.FinishPlan | src/application/engine.ts:1195-1520 | version check, town check, filter, savepoint, commands, proposal and booking; a refused command restores everything, and the store invariant is kept |
| BookingService.Store.RejectOutside | src/application/engine.ts:849-868 | a town outside the area rejects an open request |
| BookingService.Store.LinkPhoto | src/application/engine.ts:1127-1140 | only the donor of an open request adds a photo, once |
| BookingService.Store.HandOver | src/application/engine.ts:678-688 | a failed turn hands the request to a human, whatever its status in the context |
| BookingService.Store.RetryWaiting | src/application/runtime.ts:504-550 | one waitlist transaction |
| BookingService.Store.WaitlistPass | src/application/runtime.ts:501-550 | the waitlist loop is the run of its transactions and keeps the store invariant |
| BookingService.Store.AdminCoordinate | src/http.ts:1119-1165 | commits only a booking, else restores the store |
| BookingService.Store.AdminComplete | src/http.ts:1166-1193 | closes a coordinated request of the expected version |
| BookingService.Store.AdminResume | src/http.ts:1066-1098 | reopens a request of the expected version from human handling |
| BookingEffects.HandsOverExactly | src/application/engine.ts:678-688 | a failed turn hands over any request that is not over, and nobody is asked anything then |
| BookingEffects.ResumesExactly | src/http.ts:1066-1098 | the admin puts back exactly the version he has seen |
| BookingEffects.CompletesExactly | src/http.ts:1166-1193 | a completed transport keeps its slot |
| BookingEffects.RejectsExactly | src/application/engine.ts:849-868 | a town outside the area closes exactly the requests open to changes |
| BookingEffects.AddsPhotoExactly | src/application/engine.ts:1127-1140 | the donor's photo is kept once, opens the photo gate, and makes a one-sided request available |
| BookingEffects.CancelsExactly | src/application/commands.ts:506-576 | when each choice is accepted, and that asking frees the slot for a week on, a final one for good |
| PlanEffects.OpensExactly | src/application/commands.ts:151-264 | when a donation or a request from a donor is refused, answered without a request, or opens one, and the items, sides and approvals it opens with |
| PlanEffects.StoresOpened | src/infrastructure/store.ts:358-397 | it takes the next number and touches no other request; a similar open one is gone on with unless the message says it is new |
| PlanEffects.ClaimsExactly | src/application/commands.ts:265-304 | a receiver joins exactly an offered request without one, after its photo was shown |
| PlanEffects.RunsOnTarget | src/application/engine.ts:1332-1341 | a command on a request needs it open, and saves what it leaves and nothing else |
| PlanEffects.RunsWithoutTarget | src/application/commands.ts:305-402 | what commands without a request do |
| PlanEffects.LoopSplits | src/application/engine.ts:1306-1389 | the loop over some commands and the rest is the rest on what the first left, unless they failed or stopped |
| PlanEffects.LoopOfOne | src/application/engine.ts:1332-1341 | one command: the plan goes on about the request it answered with |
| PlanOutcomes.GatedTurn | src/application/engine.ts:1306-1372 | one turn of the loop with the photo gate: which commands wait for the photo |
| PlanOutcomes.GateExactly | src/application/engine.ts:1290-1305 | what the gate knows of the context and the plan |
| PlanOutcomes.HandoffIsNotGated | src/application/engine.ts:1306-1372 | a plan that names the other side runs as if there were no gate |
| PlanOutcomes.NoItemsBeforePhoto | src/application/engine.ts:1311-1318 | while a request waits for its photo nothing is told about items |
| PlanOutcomes.ExecutableExactly | src/application/engine.ts:1255-1288 | every command runs as often as the plan holds it, but details of the other side in a plan that links it |
| PlanOutcomes.OutsideTownOnlyRejects | src/application/engine.ts:1209-1222 | a plan that names a town outside only rejects its request |
| PlanOutcomes.OtherPlansRun | src/application/engine.ts:1209-1389 | and any other plan runs its commands |
| PlanOutcomes.PlanEndsExactly | src/application/engine.ts:1195-1520 | a refused command undoes the plan, a handover ends it, otherwise the request it is about goes on to its offer and booking |
| PlanOutcomes.TailOffersNew | src/application/engine.ts:1404-1432 | a request that has become due is offered its date at the end of the plan |
| PlanOutcomes.LastApprovalBooks | src/application/engine.ts:1404-1495 | the approval that was missing books the date in the same transaction if and only if the towns are allowed, its run has room, and it is not the day itself |
| PlanGate.GateCutsShort | src/application/engine.ts:1306-1372 | whatever the photo gate decides, the loop does what it does on some first commands of the list |
| PlanGate.PlanIsAStep | src/application/engine.ts:1195-1520 | every plan is one step of the store: a rejection for its town, or some first commands of its reordered and filtered list, with the plan's own versions or none; so every theorem over steps holds of plans |
| PlanGate.StaleGatedPlanNeverActs | src/application/engine.ts:1195-1204 | the version check alone: a plan finished with versions that have passed does nothing, not even reject a town |
| PlanningTheorems.FinishIsAStep | src/application/engine.ts:1196-1204 | the commands a finish runs are those of the stored plan, else of its own, the versions it checks are the stored ones or none, and what it does to the store is one step with them, so every theorem over steps holds of finishes |
| PlanningTheorems.ActsOnPassedExactly | src/application/engine.ts:1006-1008 | a finish acts on a plan of the model whose versions have passed if and only if nothing is stored when it finishes and the plan it holds is such a plan |
| PlanningTheorems.StepGuarded | src/application/engine.ts:476-484 | every step but a reset while another handler holds an unfinished plan leaves whoever holds one with a stored plan to find |
| PlanningTheorems.CarefulPlansActOnWhatTheySaw | src/application/engine.ts:513-522 | over every run without such a reset, a plan of the model acts only if every request its planner was shown is still exactly as it was |
| PlanningTheorems.NeverActsExactlyWhenCareful | src/application/engine.ts:513-522 | for every step: no outdated plan of the model acts in any continuation without such a reset if and only if the step is not one |
| PlanningTheorems.OutdatedPlanActs | src/application/engine.ts:513-522 | on every store with a request of the sender: a ten-event run in which two handlers plan, the request changes, one clears the stored plan and the other's outdated plan cancels the request |
| PlanningTheorems.ActsAtMostOnce | src/application/engine.ts:957-1000 | whatever handlers finish it, a message is acted on at most once |
| PlanningTheorems.PlansExactly | src/application/engine.ts:420-522 | who has which plan: the stored one goes to later readers, and stays until a reset |
| PlanningService.Message.StorePlan | src/application/engine.ts:476-484 | writes only where nothing is stored and the message is open |
| PlanningService.Message.Reset | src/application/engine.ts:513-522 | clears the plan of an open message, whoever stored it |
| PlanningService.Message.Finish | src/application/engine.ts:1196-1204 | the stored plan goes before the proposed one and brings the versions to check; stale exactly when one of them has passed; the store invariant is kept |
| PlanGate.ExecutableIsOwn | src/application/engine.ts:1270-1288 | what runs is from the plan, and never states the other side's details of a request the plan links |
| BookingRuns.StepKeeps | src/infrastructure/store.ts:398-832 | every transaction keeps the store invariant: runs, approvals, capacity, requests |
| BookingRuns.AfterKeeps | src/infrastructure/store.ts:398-832 | and so does every run |
| BookingPaths.StepLeads | src/infrastructure/store.ts:398-418 | every transaction changes a request by a path of saves, each with its rules for sides, dates and bookings |
| BookingPaths.StepKeepsIds | src/infrastructure/store.ts:398-418 | no transaction deletes a request |
| BookingTheorems.CapacityNeverExceeded | src/infrastructure/store.ts:464-545 | in every reachable store coordinated plus closed requests of a date fit its capacity, which stays within 1 to 100 |
| BookingTheorems.OfferLeavesRoom | src/infrastructure/store.ts:528-544 | at the moment of an offer the bookings and open offers of its date, this one included, fit the capacity of an open run |
| BookingTheorems.CoordinatedIsWellFormed | src/infrastructure/store.ts:788-791 | a coordinated request has a Tuesday, no proposal, one donor and one receiver, each approved by its own phone and for that date, with fresh consent |
| BookingTheorems.CoordinatedIsFrozen | src/domain/policies.ts:356-367 | no transaction changes a coordinated request but a plan that commits and comes to a cancellation of it, a failed turn's handover, or its completion |
| BookingTheorems.PathCountsSaves | src/infrastructure/store.ts:398-418 | each save raises the version by exactly one |
| BookingTheorems.StepAdvances | src/infrastructure/store.ts:398-418 | a request that differs has a higher version |
| BookingTheorems.AfterAdvances | src/infrastructure/store.ts:398-418 | over any run: the same version means the same request |
| BookingTheorems.StalePlanNeverActs | src/application/engine.ts:1195-1204 | the version check alone: a plan acts only if every request of the versions it is finished with is still exactly as it was when they were read |
| BookingLoops.LoopStoodOrGiven | src/application/engine.ts:1306-1389 | a consent that stands after the command loop stood before it, or a command that ran gave it, on a store with that live proposal and those facts |
| BookingLoops.StoodOrGiven | src/application/commands.ts:816-850 | the same for every transaction |
| BookingLoops.StepKeepsEarliest | src/application/commands.ts:507-520 | only a plan that commits and runs an "ask" on a request moves its earliest date |
| BookingTheorems.ConsentHasAnOrigin | src/application/commands.ts:816-847 | every approved date goes back to one committed plan of that phone, one of whose commands explicitly approved the quoted date on a store in which it was the live proposal of this very request; since then no fact has changed |
| BookingTheorems.BookingHasFreshConsent | src/infrastructure/store.ts:752-791 | so when a request is coordinated at d, each side's own phone approved d by a command that ran while d was the live proposal, on the facts the booking is made with |
| BookingTheorems.LinkedSideStays | src/application/commands.ts:758-799 | a side once linked keeps its phone for good; there is never a second receiver |
| BookingTheorems.EarliestStays | src/application/commands.ts:506-520 | over any run, only an "ask" that takes effect moves the earliest date |
| BookingCancellations.CommandBefore | src/application/commands.ts:506-576 | before the ask, any other command leaves the coordinated request booked for d or cancels it for good |
| BookingCancellations.AskTakesEffect | src/application/commands.ts:507-520 | a plan that commits and comes to its only "ask" of a request coordinated for d leaves the earliest date d + 7 after its last command |
| BookingCancellations.AskAloneCancels | src/application/commands.ts:506-520 | a plan that is only an explicit "ask" by a side of the coordinated request is such a plan |
| BookingCancellations.CancelledDateIsNotReused | src/application/commands.ts:507-520 | after a plan cancels a request coordinated for d with "ask", every proposal and booking by the rest of that plan, its own tail, and every transaction before the next such cancellation that takes effect is at least d + 7 |
| BookingDates.CoordinatesExactly | src/infrastructure/store.ts:752-792 | for every date and caller: booked if and only if both sides are ready and agreed to it, the towns are allowed, its run is open with a free slot, and it is not the day itself before 20:00 without the admin's word; and when the answer is same_day, capacity_denied or not_ready |
| BookingDates.CoordinateLeaves | src/infrastructure/store.ts:752-792 | a booking moves the proposal to the run date, a full run makes the request wait, any other answer changes nothing |
| BookingDates.WaitlistBooksExactly | src/application/runtime.ts:504-541 | the waitlist books a date if and only if the request waits, has agreed to it, its towns are allowed, its run has room, and it is not the day itself |
| BookingDates.AdminBooksExactly | src/http.ts:1136-1146 | the admin's coordination books it if and only if the same holds at the expected version, on the day itself only with his word |
| BookingDates.WaitlistOtherwise | src/application/runtime.ts:504-541 | what is not booked the waitlist leaves as it is |
| BookingDates.AdminOtherwise | src/http.ts:1136-1146 | and the admin leaves the whole store |
| BookingDates.SlotsExactly | src/infrastructure/store.ts:532-538 | which requests take a slot of a date, and for which one is kept |
| BookingDates.NoDateExactly | src/infrastructure/store.ts:514-545 | a date is offered if and only if the run of the proposal day is open, it is not the day itself, and bookings and open offers leave room; and it is that day |
| BookingDates.TailOffersExactly | src/application/engine.ts:1404-1432 | a due request is offered the free date and has to be approved by both sides, or waits when none is free; any other is left alone |
| BookingDates.WaitlistOffersExactly | src/application/runtime.ts:506-518 | a waiting request without a date is offered one exactly when one is free |
| BookingDates.TailBooksExactly | src/application/engine.ts:1411-1495 | a plan's tail books a date if and only if both sides agreed to it, its run has room, the towns are allowed, it is not the day itself, and it has not passed or no new date is free |
| BookingDates.BookDateOtherwise | src/application/engine.ts:1465-1495 | an agreed request that finds no slot waits, one that cannot be booked stays as it is |
| BookingDates.TailTouchesOne | src/application/engine.ts:1404-1495 | no other request changes |
| BookingApprovals.CoordinateAsksExactly | src/infrastructure/store.ts:470-508 | a booking asks for one slot more exactly when its run is booked out below the limit and nobody has asked |
| BookingApprovals.ProposeAsksExactly | src/infrastructure/store.ts:539-542 | and so does an offer |
| BookingApprovals.AnswersExactly | src/infrastructure/store.ts:793-832 | a no denies the one request that is meant, a yes approves it and sets the capacity when the run is open |
| BookingApprovals.UnclearAnswer | src/infrastructure/store.ts:793-811 | an answer that means none or more than one does nothing |
| BookingApprovals.ChangesCapacityExactly | src/http.ts:1194-1230 | the manual change takes effect exactly when it is in range and covers what is booked and offered; it keeps the run's status and settles what it covers |
| BookingApprovals.AnswersAreFinal | src/infrastructure/store.ts:793-832 | over every run: a denied slot is never asked for again and an approved one stays approved |
| BookingApprovals.ApprovedSlotIsUsed | src/application/runtime.ts:501-541 | a request that waits for a booked-out date asks for a slot, and after the admin's answer the waitlist books it if and only if he said yes |
| BookingPastRun.AdminBooksPast | src/http.ts:1119-1165 | whoever moves something for himself: from a store without requests, his plan and his consent on the Tuesday itself, and the admin coordinates it a week late, for the date that has passed |
| BookingPastRun.TailBooksPast | src/application/engine.ts:1404-1495 | after the same run the tail of any later plan about it books the passed date |
| BookingPastRun.WaitlistBooksPast | src/application/runtime.ts:504-541 | a four-transaction run from that store, at the end of which the waitlist books the passed date |
| BookingHeldDates.HandedOverAndResumed | src/http.ts:1066-1098 | a coordinated request handed to a human and resumed is collecting again with its run date |
| BookingHeldDates.StillOffered | src/application/engine.ts:1404-1432 | new dates are still offered to it |
| BookingHeldDates.StepKeepsHeld | src/domain/policies.ts:550-558 | no transaction books it or moves its date, but a plan that commits and comes to a cancellation clearing the date |
| BookingHeldDates.NeverBookedWhileHeld | src/domain/policies.ts:550-558 | over every run: it is not booked, on any date, before such a cancellation |
| BookingHeldDates.ClearingClears | src/application/commands.ts:506-576 | an ask or a final cancellation that takes effect clears the date |
| BookingTheorems.ReachableReadiness | src/domain/policies.ts:415-549 | the questionnaire theorem on every reachable request |
| BookingTheorems.ApprovingRaises | src/infrastructure/store.ts:793-824 | approving acts on one pending request for more than the run has, and never shrinks it |
| BookingTheorems.ApprovingAddsExactlyOne | src/infrastructure/store.ts:793-824 | without manual changes an answer, dated or not, adds exactly one slot to one date |
| BookingTheorems.StepOneAhead | src/infrastructure/store.ts:470-508 | every transaction but a manual change keeps the open approvals exactly one ahead of the capacity |
| BookingTheorems.AtMostOneOpenApproval | src/infrastructure/store.ts:470-508 | without manual changes each date has at most one approval not approved, for exactly one slot more |
| BookingTheorems.PendingAsksForMore | src/http.ts:1222-1230 | with manual changes a pending approval still asks for more than the run has |
| OutboxService.Sender.HasOlder | src/application/engine.ts:1710-1715 | the older-row query finds exactly the open earlier rows of the phone |
| OutboxService.Sender.Claim | src/application/engine.ts:1683-1748 | the first transaction of send, branch by branch |
| OutboxService.Sender.Report | src/application/engine.ts:1773-1812 | the second transaction writes the row whatever its state has become |
| OutboxService.Sender.Resolve | src/http.ts:1275-1330 | the admin's resolution |
| OutboxService.Sender.FindPhotoRow | src/infrastructure/store.ts:653-667 | the dedupe key of a match photo |
| OutboxService.Sender.MatchPhoto | src/infrastructure/store.ts:711-736 | the match upsert and its one photo row |
| OutboxService.Sender.Interest | src/application/commands.ts:265-294 | succeeds exactly on a presented match of a request without a receiver |
| OutboxTheorems.StepBounded | src/application/engine.ts:1682-1830 | no step gives a row another chance to reach the customer, but an admin's not_delivered |
| OutboxTheorems.NoBlindResend | src/application/engine.ts:1682-1830 | calls of a row not definitely refused are at most one more than its not_delivered resolutions, on every run |
| OutboxTheorems.StepLanes | src/application/engine.ts:1682-1830 | every step but a harmful resolution keeps attempts, calls and sending rows in turn |
| OutboxTheorems.CallsWaitTheirTurn | src/application/engine.ts:1706-1746 | a row reaches the channel only if it was created live and every earlier row of its phone has ended |
| OutboxTheorems.CallsAreInOrder | src/application/engine.ts:1706-1746 | the channel calls of one phone, accepted ones with them, follow the order of the outbox |
| OutboxTheorems.EndedForGood | src/application/engine.ts:1773-1803 | a row that has ended stays ended |
| OutboxTheorems.ResolvingUnderAHandlerReorders | src/http.ts:1296-1305 | a run in which a cancelled row is sent after a later one, because its handler still ran |
| OutboxOrder.HarmReorders | src/http.ts:1296-1330 | from every state in turn, each harmful resolution leads to calls out of order |
| OutboxOrder.OrderExactlyWhenHarmless | src/http.ts:1296-1330 | for every step: the calls of each phone stay in outbox order in every harmless continuation if and only if the step harms no running handler |
| OutboxTheorems.StepMatches | src/infrastructure/store.ts:711-751 | every step keeps one photo row per match, photos shown before presented, and claims exclusive |
| OutboxTheorems.InterestNeedsAShownPhoto | src/application/commands.ts:265-291 | interest succeeds only when the match's photo row is recorded as shown, and only for a request nobody has claimed or received |
| OutboxEffects.InterestFollowsAShowing | src/application/commands.ts:265-291 | and only after an event of the run that showed it: a report of an accepted call, a claim in shadow or simulation mode, or the admin's delivered |
| OutboxEffects.PresentedWasShown | src/application/engine.ts:1734-1737 | a match is presented or taken only after such an event |
| OutboxEffects.MatchBecomesExactly | src/http.ts:1324-1329 | every step: a queued match is presented if and only if its photo is shown, and what offers and claims make of the others |
| OutboxEffects.CancellationChangesNoMatch | src/http.ts:1324-1329 | a cancellation changes no match |
| OutboxEffects.RowBecomesExactly | src/application/engine.ts:1683-1812 | every step leaves a row in the state its event tells, and changes no state its event does not |
| OutboxEffects.FormatsExactly | src/application/engine.ts:1702-1703 | apart from its state only the formatting of a row changes, once |
| OutboxEffects.AddsRowsExactly | src/infrastructure/store.ts:653-667 | new rows are pending and last; a photo row is made for the match an offer leaves queued, once |
| OutboxEffects.AttemptsExactly | src/application/engine.ts:1738-1770 | an attempt is started exactly by a claim of a live row that waits, with all earlier ones of the phone ended |
| OutboxEffects.AcceptedWasCalled | src/application/engine.ts:1763-1773 | an acceptance comes only from the attempt's own call |
| OutboxEffects.SendsRow | src/application/engine.ts:1683-1812 | such a row is sent in three steps, and its queued match is presented |
| OutboxEffects.NextMayBeSent | src/application/engine.ts:1790-1803 | and then the next row of the phone, which had to wait, may be sent |
| OutboxEffects.PhotoLeadsToInterest | src/application/commands.ts:265-294 | and the receiver may take the match |
| OutboxEffects.PhotosQueuedAlong | src/infrastructure/store.ts:711-736 | every match past waiting has its photo row, on every run |
| OutboxEffects.CancelledPhotoIsNeverShown | src/http.ts:1306-1323 | a photo that was cancelled with no handler left on it is never shown |
| OutboxTheorems.ClaimIsExclusiveForever | src/application/commands.ts:289-294 | after a claim the claimant is the receiver and every other match of the request is unavailable, in every later state |
| ConversationService.Conversations.ReadPending | src/application/engine.ts:221-227 | the pending query is the open messages in order of arrival |
| ConversationService.Conversations.Coalesce | src/application/engine.ts:287-315 | a burst is merged only when the pending rows are unchanged, and then all but the last are marked |
| ConversationService.Conversations.HasOlder | src/application/engine.ts:962-966 | the earlier_message_pending query |
| ConversationService.Conversations.HasNewer | src/application/engine.ts:970-977 | the supersession query |
| ConversationService.Conversations.FinishMessage | src/application/engine.ts:957-1000 | the guard, supersession and settlement of finish |
| ConversationService.Conversations.ReleaseFailedTurn | src/application/engine.ts:626-651 | the release settles the job's message when anything can be written |
| ConversationService.Conversations.DeleteFailedJobs | src/infrastructure/queue.ts:83-96 | every failed job of the key goes; a message is stranded exactly when one was its last hope |
| ConversationService.Conversations.UnblockFailed | src/application/runtime.ts:404-412 | the heartbeat's settling and deletion with nothing between them keep the lane |
| ConversationService.Conversations.ReadForRecovery | src/application/runtime.ts:191-201 | the oldest open messages, as many as the phone's share of the limit |
| ConversationService.Conversations.Requeue | src/application/runtime.ts:202-206 | one more job for any message, settled since or not, keeps the lane |
| ConversationService.Conversations.RequeueAll | src/application/runtime.ts:202-206 | the recovery loop adds its jobs in order and keeps the lane |
| ConversationEffects.MessageBecomesExactly | src/application/engine.ts:957-1000 | every step leaves a message settled as its event tells: replied if and only if its turn ends with a reply, nothing older is open, and nothing newer or newer ones are not checked; superseded if and only if one is |
| ConversationEffects.RepliesExactly | src/application/engine.ts:1547-1573 | a reply row is written exactly for the message that becomes replied |
| ConversationEffects.JobBecomesExactly | src/infrastructure/queue.ts:79-96 | every step leaves a job in the state its event tells |
| ConversationEffects.LooksExactly | src/application/engine.ts:221-235 | a handler reads every open message in order of arrival, or ends |
| ConversationEffects.AimsExactly | src/application/engine.ts:287-319 | a merged burst is answered at its last message, anything else at its first |
| ConversationEffects.FinishesExactly | src/application/engine.ts:957-967 | a turn that finds an older message open changes nothing, any other ends the handler |
| ConversationEffects.OldestGetsItsReply | src/application/engine.ts:185-319 | from every lane whose first job waits: a run answers the oldest open message and makes room for the next job |
| ConversationEffects.BurstIsAnsweredOnce | src/application/engine.ts:287-315 | and one merges a burst into its last message and answers it once |
| ConversationTheorems.SettledForGood | src/application/engine.ts:957-960 | a settled message keeps its outcome on every run |
| ConversationTheorems.AnsweredAtMostOnce | src/application/engine.ts:1547-1573 | at most one reply row per message, none for a coalesced, superseded or silent one, and a dropped message has a later one |
| ConversationTheorems.StepKeeps | src/application/runtime.ts:122-141 | every step that lets go of nobody's last hope keeps the lane invariant |
| ConversationTheorems.EndJobStrands | src/infrastructure/queue.ts:83-96 | ending a message's last hope strands it |
| ConversationTheorems.SettledInOrderAndNoneStranded | src/application/engine.ts:185-319 | settled messages are a prefix of arrivals, every open message has a job, and every job is preceded by jobs for all older open messages, on every run that strands nothing |
| ConversationTheorems.CarefulRunIsSound | src/application/engine.ts:626-651 | a run strands nothing when no release fails to write and no deletion takes a last hope: a handler that reports success has settled its job's message |
| ConversationTheorems.RepliesFollowArrivals | src/application/engine.ts:1549-1573 | reply rows are created in order of arrival |
| ConversationTheorems.NoEarlierMessageIsPending | src/application/engine.ts:962-967 | the earlier_message_pending error never occurs while nothing is stranded |
| ConversationTheorems.StrandedExactlyWhenLetGo | src/http.ts:845-861 | for every step: afterwards no message is stranded if and only if the step let go of nobody's last hope |
| ConversationOrder.StrandingBreaksOrder | src/application/runtime.ts:122-141 | after every step that strands a message a run settles a newer one before it |
| ConversationOrder.PrefixExactlyWhenNotLetGo | src/http.ts:845-861 | for every step: the settled messages stay a prefix of arrivals in every continuation that strands nothing more if and only if the step let go of nobody's last hope |
| ConversationTheorems.UnwrittenReleaseStrands | src/application/engine.ts:638-651 | an unwritten release and its completion strand the message if and only if the job was its last hope |
| ConversationTheorems.SwallowedReleaseStrands | src/application/engine.ts:644-649 | a four-event run from the empty lane in which a swallowed release strands a message |
| ConversationTheorems.ReleaseQueueStrands | src/http.ts:845-861 | a run in which release-queue strands a message and a later one is settled before it |
| IntegrationService.Dispatcher.AllPriorDelivered | src/application/runtime.ts:303-308 | the claim's subquery |
| IntegrationService.Dispatcher.ClaimDelivery | src/application/runtime.ts:294-312 | the claiming update, which keeps the order |
| IntegrationService.Dispatcher.ReportDelivery | src/application/runtime.ts:345-364 | the updates after the call, each only on an active row |
| IntegrationService.Dispatcher.RecoverLeases | src/application/runtime.ts:367-374 | the recovery update on all stale rows, which keeps the effort invariant |
| IntegrationService.Dispatcher.ReplayDelivery | src/http.ts:436-454 | only a dead letter is replayed |
| IntegrationEffects.RowBecomesExactly | src/application/runtime.ts:343-374 | every step: delivered if and only if the successful call of an active row is reported, dead if and only if a final failure is |
| IntegrationEffects.AttemptsExactly | src/application/runtime.ts:294-312 | attempts count the claims that take effect, from the last replay on |
| IntegrationEffects.WorkersExactly | src/application/runtime.ts:313-345 | a worker carries the number its claim gave it |
| IntegrationEffects.DeliveredWasReported | src/application/runtime.ts:343-350 | over every run: a delivered row goes back to a successful call that was reported |
| IntegrationEffects.NextIsDelivered | src/application/runtime.ts:271-391 | the first undelivered event, when pending, has a run that delivers it, and only then can the next one be claimed |
| IntegrationEffects.DeadLetterBlocks | src/application/runtime.ts:303-308 | a dead event blocks all later ones until it is replayed |
| IntegrationEffects.ReplayedIsDelivered | src/http.ts:436-454 | and then it can be delivered |
| IntegrationTheorems.StepInOrder | src/application/runtime.ts:295-308 | only the first undelivered row is ever active |
| IntegrationTheorems.DeliveredIsPrefix | src/application/runtime.ts:271-391 | delivered events are a prefix of event order and at most one row is active, right after it |
| IntegrationTheorems.DeliveredForGood | src/http.ts:448-449 | a delivered event is never reopened |
| IntegrationTheorems.BoundedEffort | src/application/runtime.ts:295-363 | attempts since a replay are at most 3 plus leases recovered since plus left-over workers that could still put the row back, and at most 3 plus leases ever recovered |
| IntegrationTheorems.CallsWithinAttempts | src/application/runtime.ts:327-340 | calls since a replay are at most the attempts plus the left-over workers that had not called |
| IntegrationTheorems.PlainBoundsExactly | src/http.ts:450-453 | right after a replay, for every continuation: attempts at most 3 plus recoveries if and only if no worker left over may put the row back, and calls at most attempts if and only if none has yet to call |
| IntegrationTheorems.LeftOverWorkerAddsAnAttempt | src/http.ts:450-453 | with such a worker, before or after its call, a run reaches four attempts and no recovery |
| IntegrationTheorems.LeftOverWorkerAddsACall | src/http.ts:450-453 | with a worker that has not called, the calls pass the attempts |
| IntegrationTheorems.LeftOverIsReachable | src/http.ts:450-453 | a run from the empty dispatcher to a replay that leaves such a worker |
| Reorder.ReorderPlan | src/application/engine.ts:1255-1269 | the splicing loop terminates and computes the reordered plan |
| Reorder.ReorderedIsPermutation | src/application/engine.ts:1255-1269 | a permutation of the plan |
| Reorder.OrderKept | src/application/engine.ts:1255-1269 | other commands keep their order, and counterparty commands of one request keep theirs |
| Reorder.ReorderedIsSatisfied | src/application/engine.ts:1250-1269 | every receiver-details command whose request has a counterparty command anywhere comes after one |
| Reorder.PullsExactly | src/application/engine.ts:1255-1269 | a receiver's details pull the next counterparty command of their request right in front of them, and everything between stays behind them |
| Reorder.StaysExactly | src/application/engine.ts:1255-1269 | every other command stays where it is |
| Reorder.UnchangedExactlyWhenTidy | src/application/engine.ts:1255-1269 | the plan is unchanged if and only if no receiver details have a counterparty command of their request after them |
| Reorder.SatisfiedMayStillChange | src/application/engine.ts:1251-1253 | a plan that already meets the dependency and is changed all the same |
| RateLimiter.Limiter.Check | src/application/admin-service.ts:43-54 | the bucket update and its decision |
| RateLimiter.AtMostTwiceTheMaximum | src/application/admin-service.ts:40-55 | at most 2·max − 1 calls of a key accepted in any span shorter than the window, on a clock that never goes back |
| RateLimiter.AcceptedExactly | src/application/admin-service.ts:43-54 | within a window a call is accepted if and only if it is the first or the calls so far, rejected ones with them, do not exceed the maximum |
| RateLimiter.BoundIsReached | src/application/admin-service.ts:40-55 | and that many can be accepted |

## Left out

- BookingService.Store.OpenRequest: which similar open request there is, if any, is an arbitrary input.
- BookingService.Store.Interest: takes whether the photo was presented as an input bit; OutboxTheorems.InterestNeedsAShownPhoto proves when it can be.
- BookingService.Store.FinishPlan: which request a plan naming a town outside the area is about is an arbitrary input.
- PlanningTheorems.CarefulPlansActOnWhatTheySaw: assumes no reset while another handler holds an unfinished plan; NeverActsExactlyWhenCareful shows that this is exactly what is needed.
- BookingTheorems.StalePlanNeverActs: is about the versions the plan is finished with, which after another handler's reset are none; OutdatedPlanActs gives the run.
- PlanGate.StaleGatedPlanNeverActs: likewise.
- PartyAnswers.PlaceIsSettled: is about a sender on one side; whoever is on both sides is asked about the other one next.
- OutboxService.Sender.MatchPhoto: the request for a photo sent to the donor is an ordinary inserted row, without its dedupe key.
- ConversationTheorems.SettledInOrderAndNoneStranded: assumes that no step lets go of a last hope; StrandedExactlyWhenLetGo and PrefixExactlyWhenNotLetGo show that this is exactly what is needed.
- OutboxTheorems.CallsAreInOrder: assumes that no resolution harms a running handler; OrderExactlyWhenHarmless shows that this is exactly what is needed.
- ConversationService.Conversations.ReadForRecovery: how many of a phone's messages are among the 500 oldest of all phones is an argument.
- RateLimiter.Limiter.Check: takes the finished bucket key and the time as arguments.
- Planner, phrasing, localization and the text patterns are input bits of a `Reading`.
- Which request a command without a number means is arbitrary, also one the sender could not name.
- Settlement lookup, contact cards, pending contact names, the verification rows and candidates' item filters are arbitrary inputs.
- Floor notes: the upsert never stores that one was shown, so no command changes it here; the wording of every reply, the status text and the notices to the other side.
- Reasons for a handoff, preferred times, closing times, locations and the searches table: written, but no rule modelled here reads them.
- Database constraint failures, deadlocks and torn reads outside a transaction; transactions are taken to be serial, and a save to meet the version it read.
- Generic admin edits of rows, purge and clear-all.
- Send jobs: which row is scheduled when; the outbox theorems hold for claims of any row at any time.
- Turn records, quiet windows, media capture and transcription; a turn is the handler that runs it. Ingestion is taken to identify messages in order of arrival.
- The outbox texts: that a photo notice is never an operations alert is assumed; delivery receipts after acceptance are not modelled.
- Integration events are taken to become visible in increasing order; the time a retry becomes due and the age of a lease are arbitrary; one integration is modelled, since no rule relates two.
