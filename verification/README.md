# Agent Mandate: a verified model of the ledger and the authority decision

Agent Mandate lets a person issue a signed, scoped, revocable mandate; a deterministic engine checks every
action an agent proposes against it; every decision lands in an append-only, hash-chained ledger that either
side can export and a third party can verify. This project models that core in Dafny and proves what the
design promises of it, over every input, every run and every interleaving.

Verify everything with `dafny verify dfyconfig.toml`.

## How it is laid out

| file | what it holds |
|---|---|
| `Deals.dfy` | deal snapshot, transition table, lifecycle over whole paths |
| `Authority.dfy` | symbolic signatures, mandates, revocations, narrowing, the parent walk |
| `Policy.dfy` | the first-match evaluator, its meaning, what delegation does to it |
| `Chain.dfy` | payloads, events, the chain verifier, what a head hash pins down |
| `Plans.dfy` | what each of the four commits appends, planned and as written |
| `Ledger.dfy` | every store operation as a function on the eleven tables, and the in-memory store as a class |
| `History.dfy`, `Runs.dfy` | replay of a chain, runs of the ledger, the core invariant |
| `Trail.dfy`, `Gates.dfy` | no autonomous commitment, gated actions, the mandate over whole runs |
| `Once.dfy` | exactly-once decisions, answers that never change, the auditor |
| `Outcomes.dfy` | counters, lifecycle, spend and revocation over whole runs |
| `Effects.dfy`, `Logged.dfy` | the tables as data; what every commit does to the deal, the approvals, the spend; what it writes down, from its very input |
| `Evidence.dfy` | the bundle: built, signed, verified, complete and sound |
| `Postgres.dfy` | the Postgres store one transaction at a time, and its simulation of the in-memory store |
| `Sessions.dfy` | the Postgres commits statement by statement in any interleaving: the protocol invariant |
| `Progress.dfy` | what a session waits for, why the commits cannot deadlock, what a session alone achieves |
| `Serial.dfy` | a session run alone is the whole commit: statement-level and transaction-level model agree |
| `Revocations.dfy` | revocations among interleaved commits: stored for good, and seen by later grants |
| `Races.dfy`, `Decisions.dfy` | what a commit planned on a stale copy leaves behind, exactly; one approval with many deciders |
| `Gateway.dfy`, `Wire.dfy`, `WireOutcomes.dfy` | the wire boundary and its dedup table over any sequence of deliveries; what a message is worth, signed or not; spend and revocation behind it |
| `Witnesses.dfy`, `RaceWitnesses.dfy` | inputs, runs and interleavings on the failing side of the conditions |
| `Canonical.dfy`, `EventId.dfy` | canonical JSON with a reader, sortable event ids |

## How the system's terms are modelled

* A digest is a symbol over what was hashed and a signature a symbol over key and message, so equal digests mean
  equal inputs without any assumption; that the canonical bytes underneath lose nothing is proved in `Canonical`.
  Forging is excluded only where a lemma says so (`SignedOnlyWithin`).
* Instants are integers. Random ids are parameters; where freshness matters a lemma asks for it
  (`Admissible`, `FreshRevocation`).
* An action is a token of the closed vocabulary or any other text. Exceptions are result values
  (`ValueErrorRaised`, `Raised`, `ReportRaised`, `None`).
* A run starts from the empty store; deals enter through registration, in DRAFT with all counters 0. An approval is
  decided by a request that matches its row, as the console builds it
  (src/mandate/api/routes/operations.py:237-298).
* In `Sessions` a state is the committed tables and any number of sessions with a program counter; a claim insert
  waits while a rival holds the key, an event insert fails on a committed key, any session can die at any step.

## Where code and documentation part

The model follows the code. Each item names the exact condition and a concrete case on its failing side.

* ADR-0006 says revoking a parent invalidates its descendants. The parent walk looks at the status recorded in the
  parent only, so a parent revoked by a signed, stored revocation still passes it: `Policy.DelegationNeverWidens`;
  `Witnesses.RevokedParentStillPasses` is such a run.
* The Postgres commit says a lost claim bails out before any write. A commit that loses its second or third claim
  keeps the idempotency row it inserted first: `Races.LostClaimAnswersWithoutAnEvent`;
  `RaceWitnesses.KeyWithoutAnEvent` reaches it.
* The Postgres commits read the deal row and the chain head in separate statements. When another commit publishes in
  between, the row written back can stop being the replay of the chain and a transition can start from a state the
  chain is no longer in: `Races.RowFollowsChainIffReadIsCurrent` and `Races.FaithfulIffCommitsAreCurrent`;
  `RaceWitnesses.TwoHoldsCountOnce` and `RaceWitnesses.OneMoveTwice` reach both.
* Two decisions of one approval under different commands can both commit: `Decisions.TwoDecisionsReadBeforeEither`;
  `RaceWitnesses.GrantedAndRefused` reaches a chain with a grant and a refusal.
* ADR-0009 has an allowed resolve_dispute close a dispute, lest the deal stay payment-blocked. `apply_action` does
  (`Effects.ApplyActionWrittenOut`), but the commits call it only for actions with an event, so a committed
  resolve_dispute changes no counter: `Effects.ResolvedDisputeStaysOpen`.
* The bundle carries the deal row, but verification binds only its id and state:
  `Evidence.VerificationBindsIdAndState`.
* In memory a revocation is stored under its own id, and one id used twice overwrites:
  `Outcomes.RevocationSurvivesUnlessIdReused`; `Witnesses.ReusedIdUnrevokes` is a run in which a record stops being
  revoked. Postgres keeps the first row, so there the second revocation commits and stores nothing:
  `Revocations.CommittedRevocationStays`; `RaceWitnesses.ReusedIdStoresNothing` reaches it.
* Asking for less can be judged worse: `Policy.LoweringAnAmountCanDeny`; `Witnesses.LessIsDenied` is an input.
* Both verifiers raise on a payload without canonical bytes, while recomputing the event form
  (`Chain.VerifyChain`, `Evidence.VerifyBundle`). The Event constructor refuses such a payload, also when a row is read
  back, so no event as constructed gets there (`Chain.ConstructedNeverRaises`); only one whose payload dictionary was
  changed in place afterwards, or that was made around the validators, does.
* A proposal message carries an idempotency key and a currency of its own; the gateway uses the envelope's key and
  the mandate's currency and ignores both.

## Model

| member | source | states |
|---|---|---|
| `Deals.ActionTableAgrees` | src/mandate/domain/state_machine.py:87-121 | the table of valid states per action and the transition table agree: an action is valid from a state exactly when its event has a row there |
| `Deals.RowClimbs` | src/mandate/domain/state_machine.py:12-73 | no row of the table goes back in the lifecycle, and a row stays level only inside the three loops (negotiation, change order, payment retry) |
| `Deals.AgreementHappensOnce` | src/mandate/domain/state_machine.py:12-73 | on any path through the table an agreement happens at most once |
| `Deals.CommitmentFrozenAfterCompletion` | src/mandate/domain/state_machine.py:12-73 | after completion is claimed no later event of a path can change committed spend |
| `Deals.TerminalIffNoWayOut` | src/mandate/domain/state_machine.py:75-86 | the terminal states are exactly the states no event leaves |
| `Deals.ApplyEventKeepsDisputesSound` | src/mandate/domain/deals.py:71-100 | one dispute at most, open only while disputed or after cancelling a dispute; no payment event ever applies with one open |
| `Effects.TableIsTransitionFor` | src/mandate/domain/state_machine.py:12-73 | the transitions are the 38 rows written as data, no more and no fewer |
| `Effects.ValidStatesAreTheTable` | src/mandate/domain/state_machine.py:87-101 | each of the thirteen actions is valid from exactly the states listed for it |
| `Effects.PlannedActionMoves` | src/mandate/domain/state_machine.py:103-161 | an allowed action goes through exactly from the states listed for it and then does to state, rounds, spend and disputes exactly what is written out for its token; resolve_dispute goes through and moves nothing |
| `Authority.ScopeViolations` | src/mandate/domain/lifecycle.py:53-80 | the report lists exactly the broken narrowing rules, in table order, and is empty just when the child narrows its parent |
| `Authority.DelegationViolations` | src/mandate/domain/lifecycle.py:83-116 | the walk terminates on every record map, cycles included, and reports exactly the cycle or missing parent it ends at, every broken rule of every hop and every inactive ancestor; so it reports nothing exactly when every hop up to a root is resolvable, acyclic, narrowing and active |
| `Authority.SoundChainNarrowsEveryAncestor` | src/mandate/domain/lifecycle.py:83-116 | with no violation the record narrows every ancestor, however far up, and each is active at that time |
| `Authority.CycleIsNeverSound` | src/mandate/domain/lifecycle.py:103-105 | a chain that comes back to an id already passed is always reported |
| `Authority.ClaimWrittenOut` | src/mandate/application/claims.py:20-42 | the claim is signed, revoked or expired exactly as the signature fields, the dates and the stored revocations of this record by this signer say |
| `Policy.DecisionIsFirstFailure` | src/mandate/policy/engine.py:74-336 | the matched rule is the first stage whose own condition fails; ALLOW holds exactly when the condition of every stage holds |
| `Policy.HoldsAndDenials` | src/mandate/policy/engine.py:253-334 | a person is asked exactly when the first failure is the spend cap in the right currency, a gated action, or content the screen cannot vouch for |
| `Policy.ReasonNamesTheFailure` | src/mandate/policy/engine.py:74-336 | the reason code is the one of the failing stage, and within a stage of its first failing test |
| `Effects.PaymentsAreBlocked` | src/mandate/policy/engine.py:208-225 | initiate_payment and capture_payment are denied whenever the deal has a dispute or an approval open |
| `Effects.PaymentsMoveOnlyWhenClear` | src/mandate/policy/engine.py:208-225 | in every run, a payment no person granted is initiated or captured, when judged on the stored deal, only with no approval and no dispute open on it |
| `Policy.WorseContentNeverHelps` | src/mandate/policy/engine.py:240-334 | making content claims worse in any way never lowers the outcome on allow, hold, deny |
| `Policy.AllowIsDownwardClosedInAmount` | src/mandate/policy/engine.py:253-272 | asking for less, or for no amount, never turns an ALLOW into anything else |
| `Policy.LoweringAnAmountCanDeny` | src/mandate/policy/engine.py:253-283 | the full outcome order is not monotone in the amount: a lower amount is judged worse exactly when it brings an over-cap counteroffer back under the cap at the round limit |
| `Witnesses.LessIsDenied` | src/mandate/policy/engine.py:253-283 | an over-cap counteroffer at the round limit is held, and the same counteroffer within the cap is denied |
| `Policy.DelegationNeverWidens` | src/mandate/policy/engine.py:123-336 | if the parent walk reports nothing, what the engine allows under a record it allows under every validly signed ancestor on the claim built from the stored revocations, if and only if none of them that is validly signed binds that ancestor |
| `Witnesses.RevokedParentStillPasses` | src/mandate/domain/lifecycle.py:83-116 | a run that registers a parent and a child and revokes the parent by a signed revocation: the walk above the child reports nothing, the engine allows the child and denies the same proposal under the parent |
| `Chain.VerifyChain` | src/mandate/ledger/chain.py:181-237 | accepts exactly the intact, signed, gapless, linked chains, lists every check it made, and raises exactly on a payload without canonical bytes |
| `Chain.ReportOkIffChainValid` | src/mandate/ledger/chain.py:181-237 | all reported checks pass exactly when the chain is valid, although a failed event leaves the expected link where it was |
| `Chain.ValidWrittenOut` | src/mandate/ledger/chain.py:181-237 | an accepted chain shows, event by event: canonical payload, payload and event hash, Ed25519 by this key over the form, number equal to the place, link to the event before; and whatever shows that is accepted |
| `Chain.ConstructedNeverRaises` | src/mandate/domain/events.py:110-118 | on events the constructor accepts the verifiers never raise; a chain is valid exactly when its events can be constructed and signature, number and link of each are right |
| `Chain.PrefixOfValidIsValid` | src/mandate/ledger/chain.py:181-188 | every prefix of a passing chain passes |
| `Chain.HeadDeterminesHistory` | src/mandate/ledger/chain.py:181-237 | two passing chains with one head hash have the same length and the same signed form at every index, whichever keys verified them |
| `Chain.SealedEventAt` | src/mandate/ledger/chain.py:71-121 | a built event takes id and payload from its entry, deal, actor, record and times from its commit, number from its place, link from the event before, and is signed by the chain key |
| `Chain.SealedAppendIsValid` | src/mandate/ledger/chain.py:71-121 | events numbered and linked onto the head of a valid chain make a valid chain |
| `Plans.GrantAppliesIffCurrent` | src/mandate/ledger/commit_plans.py:58-93 | a grant applies its transition exactly when the record is present, unrevoked and unexpired and the stored state still permits the action; resolve_dispute never applies |
| `Plans.PlanCommitRequest` | src/mandate/ledger/commit_plans.py:113-253 | appending event by event while advancing number and hash gives exactly the planned entries sealed onto the head, with the new deal and approval |
| `Plans.PlanCommitTransition` | src/mandate/ledger/commit_plans.py:256-322 | same, for a boundary event and its optional message |
| `Plans.PlanCommitApproval` | src/mandate/ledger/commit_plans.py:325-441 | same, for a grant, a refusal, or a grant turned into a logged refusal |
| `Plans.PlanCommitRevocation` | src/mandate/ledger/commit_plans.py:444-467 | same, for a recorded revocation |
| `Ledger.InMemoryLedgerStore.CommitRequest` | src/mandate/ledger/store.py:325-356 | the whole new store and the result, for every outcome; a stale or unknown deal changes nothing |
| `Ledger.InMemoryLedgerStore.CommitTransition` | src/mandate/ledger/store.py:358-396 | the whole new store and the result, for every outcome; a seen command changes nothing |
| `Ledger.InMemoryLedgerStore.CommitApproval` | src/mandate/ledger/store.py:398-474 | the whole new store and the result, for every outcome, the forced refusal and the raised error included |
| `Ledger.InMemoryLedgerStore.CommitRevocation` | src/mandate/ledger/store.py:476-518 | the whole new store and the result, for every outcome |
| `Ledger.InMemoryLedgerStore.RegisterDeal` | src/mandate/ledger/store.py:278-304 | a new deal starts in DRAFT with counters 0 and an empty chain; an existing one is refused unchanged |
| `Ledger.InMemoryLedgerStore.ProcessRequest` | src/mandate/application/services.py:40-81 | gate, evaluate, commit as one step on the store; an answer from the gate writes nothing |
| `Effects.RequestMovesTheDeal` | src/mandate/ledger/store.py:325-356 | which requests commit, and the deal row after one: moved as its token says on an allow, one more open approval on a hold, untouched on a denial |
| `Effects.ApplyActionWrittenOut` | src/mandate/domain/state_machine.py:140-161 | by itself, apply_action moves the deal as the token says, raises off the token's states, and closes one dispute for resolve_dispute |
| `Effects.ResolvedDisputeStaysOpen` | src/mandate/ledger/commit_plans.py:181-183 | a committed resolve_dispute leaves the deal as it was, its dispute still open |
| `Effects.GrantIsAppliedIff` | src/mandate/ledger/store.py:398-474 | a complete grant is applied, as GRANTED and its transition, if and only if its record is stored, neither revoked itself nor by a stored revocation of it dated by then, not past its end, and the action can move the stored deal; otherwise it is one denial with the first reason that holds |
| `Effects.RefusalIsADenial` | src/mandate/ledger/commit_plans.py:404-441 | a complete refusal is one denial with the operator's words and closes the approval |
| `Effects.BoundaryMovesTheDeal` | src/mandate/ledger/store.py:358-396 | a boundary event commits exactly on a row of the table, moves the deal as its event says, and logs the message and the transition |
| `Logged.GateWrittenOut` | src/mandate/application/anti_replay.py:72-91 | a known key answers for itself or conflicts, then a seen request, then a nonce of another record is turned away, and everything else passes |
| `Logged.ProposalIsLogged` | src/mandate/application/services.py:40-81 | a proposal let through and committed leaves exactly the message, decision and follow-up events written out from its own fields, under its actor, mandate and times, one pending row if held, its decision under its key, and changes nothing else; a proposal not let through or not committed changes nothing |
| `Logged.DecisionIsStamped` | src/mandate/ledger/commit_plans.py:344-430 | a decided approval appends its events under the actor, record and times of its request and touches only its deal, approval and command |
| `Logged.BoundaryIsStamped` | src/mandate/ledger/commit_plans.py:265-322 | the same for a boundary event |
| `Logged.RevocationIsLogged` | src/mandate/ledger/store.py:476-518 | exactly when a revocation commits, its one event, its row, and that nothing else changes |
| `Logged.EveryAnswerIsTold` | src/mandate/ledger/store.py:325-518 | what each of the four commits tells its caller: the new deal, the deal as it is, or nothing |
| `History.ReplayCounts` | src/mandate/domain/deals.py:71-100 | replaying payloads is counting: rounds, committed spend and open approvals are sums over the chain and the state is the last target |
| `Runs.EveryRunIsSound` | src/mandate/ledger/commit_plans.py:181-227 | in every state of every run each chain verifies, its transitions join up along the table, its replay from DRAFT is the stored deal exactly (so no floor ever clamps), and open approvals are the pending rows |
| `Runs.RequestKeepsSound` | src/mandate/ledger/store.py:325-356 | a committed request keeps all of that |
| `Runs.ApprovalKeepsSound` | src/mandate/ledger/store.py:398-474 | a decided approval keeps all of that, given a request that matches its approval |
| `Runs.TransitionKeepsSound` | src/mandate/ledger/store.py:358-396 | a boundary event keeps all of that |
| `Runs.RevocationKeepsSound` | src/mandate/ledger/store.py:476-518 | a recorded revocation keeps all of that |
| `Runs.DecideKeepsApprovals` | src/mandate/ledger/commit_plans.py:407-441 | deciding a pending approval closes exactly one, and while it is pending the deal counts at least one |
| `Trail.NoRunCommitsAutonomously` | src/mandate/ledger/commit_plans.py:157-253 | in every state of every run an agent's transition directly follows an ALLOW or a grant of the same request, action and amount, and a grant follows the hold and the required-approval event that asked for it |
| `Gates.GatedActionsMoveOnlyByGrant` | src/mandate/policy/engine.py:286-293 | in every run an agent's transition is of an action its mandate allows and does not prohibit, and a gated action moves a deal only directly after a person's grant of that request |
| `Gates.EngineKeepsToMandate` | src/mandate/policy/engine.py:167-196 | whatever is not denied is permitted by the mandate, and whatever is allowed outright is not gated |
| `Once.EveryRunDecidesOnce` | src/mandate/ledger/store.py:342-350 | in every state of every run one decision event at most per idempotency key and per request, one event per command, and each event shows the decision the store answers with |
| `Once.AnswersNeverChange` | src/mandate/ledger/store.py:342-350 | over any run a stored decision, the owner of a nonce and a decided approval never change, and seen ids stay seen |
| `Once.RetryGetsOriginalDecision` | src/mandate/application/anti_replay.py:72-91 | a retry later in the run gets the original decision and leaves the store as it is |
| `Once.PassCommitsUnlessDealMoved` | src/mandate/application/services.py:48-81 | a gate PASS on a known deal commits, except exactly when the engine allowed an action on a copy of the deal the stored state does not permit; with a current copy it always commits |
| `Once.FindAutonomousCommitViolations` | src/mandate/pilot/report.py:119-149 | the auditor reports exactly the agent transitions whose request was last held and never granted |
| `Once.AuditorFindsNothing` | src/mandate/pilot/report.py:119-149 | on every chain of every run the auditor has nothing to report |
| `Outcomes.DealRowIsItsChain` | src/mandate/ledger/payloads.py:91-125 | in every reachable state the stored counters are sums over the chain's payloads, committed spend is the sum over agreements and approved changes, and open approvals are those required less those decided and also the pending rows |
| `Effects.SpendIsAgreementsAndChanges` | src/mandate/domain/deals.py:71-100 | in every reachable state committed spend is the sum of the amounts on the chain's agreement_reached and change_approved transitions and of nothing else |
| `Outcomes.PathOfEveryRun` | src/mandate/domain/state_machine.py:12-86 | in every run, over any mix of allows, grants and boundary events, the transitions of each chain form a path through the table from DRAFT, with at most one dispute and none while a payment can move |
| `Outcomes.LifecycleOfEveryRun` | src/mandate/domain/state_machine.py:12-86 | along the path of any chain of any run: one agreement, spend frozen after completion, nothing after a terminal state |
| `Outcomes.SpendNeverExceedsCapPlusGrants` | src/mandate/policy/engine.py:253-272 | committed spend never exceeds the cap plus the amounts people granted, when proposals are judged on the stored deal and boundary events carry no amount |
| `Outcomes.RevokedProposalIsDenied` | src/mandate/application/claims.py:20-42 | with a signed revocation in effect the engine denies every proposal under the record |
| `Outcomes.RevokedGrantIsLoggedDeny` | src/mandate/ledger/commit_plans.py:58-93 | a grant under a revoked record commits exactly when any complete decision would (known deal, pending approval, new command, known action, approval record), and then closes the approval as denied, logs one event with the reason, and moves nothing but the approval count |
| `Outcomes.RevocationIsFinal` | src/mandate/ledger/store.py:476-518 | over a run with a non-decreasing clock, once a signed revocation is in effect no later step appends an agent's transition under that record |
| `Outcomes.RevokedGrantsAreDeniedForGood` | src/mandate/ledger/commit_plans.py:58-93 | over a timed run, once a signed revocation is in effect every later grant under the record that is complete leaves its approval denied and its deal's chain ending in that denial; an incomplete one changes nothing |
| `Outcomes.RevocationSurvivesUnlessIdReused` | src/mandate/ledger/store.py:309-310 | recording a revocation leaves another record revoked if and only if a revocation not stored under the same id binds it, since the row is overwritten |
| `Witnesses.ReusedIdUnrevokes` | src/mandate/ledger/store.py:476-518 | a run that records two revocations of two records under one id: after the second the first record is not revoked at any time |
| `Evidence.VerifyBundle` | src/mandate/ledger/evidence.py:345-434 | passes exactly the sound bundles checked against a usable key supplied from outside; lists every check; raises exactly on a payload without canonical bytes |
| `Evidence.VerifyEvents` | src/mandate/ledger/evidence.py:381-387 | the bundle's event loop makes the very checks of the in-ledger verifier with the very results, so both accept the same chains |
| `Evidence.BuiltBundleHolds` | src/mandate/ledger/evidence.py:150-184 | a built bundle holds the deal, events, records and revocations it was given, whole and in order, with a summary counting and hashing those and signed by the signer |
| `Evidence.BundleOkIffValid` | src/mandate/ledger/evidence.py:345-434 | all checks pass exactly when the bundle is sound |
| `Evidence.EveryExportVerifies` | src/mandate/ledger/evidence.py:150-184 | the bundle of any stored deal in any reachable state builds and passes |
| `Evidence.PassingBundleIsAnExport` | src/mandate/ledger/evidence.py:305-342 | if the chain key signed summaries only inside build_bundle, a passing bundle holds exactly the deal id, events, records and revocations of one that was built |
| `Evidence.PassingBundleShowsTheLedger` | src/mandate/ledger/evidence.py:305-434 | a passing bundle shows a chain the ledger really held, under its deal id and in the state it then had |
| `Evidence.TruncationFailsOnlyOnTheSignature` | specs/evidence-bundle.md:139-141 | a re-exported truncation with every summary hash recomputed fails on the summary signature and on nothing else |
| `Evidence.VerificationBindsIdAndState` | src/mandate/ledger/evidence.py:422-432 | of the deal section a passing bundle binds the id, and the state once there is a transition; counters and creation time may be anything |
| `Postgres.PostgresLedgerStore.ChainHead` | src/mandate/adapters/postgres/store.py:63-73 | the head read off the largest sequence number is always the chain's length and last hash |
| `Postgres.HeadOfRows` | src/mandate/adapters/postgres/store.py:63-73 | for rows that read as a chain, the largest number answers length and head, and nothing else does |
| `Postgres.PostgresLedgerStore.InsertEvents` | src/mandate/adapters/postgres/store.py:338 | sealed events never collide with a stored row and extend the deal's chain by exactly the plan |
| `Postgres.PostgresLedgerStore.Claim` | src/mandate/adapters/postgres/store.py:278-333 | which of the three claim inserts succeed, and which rows an early return leaves behind |
| `Postgres.PostgresLedgerStore.ClaimAndAppend` | src/mandate/adapters/postgres/store.py:278-375 | claims, then events, deal row, approval row and record; a clash of approval ids undoes all of it |
| `Postgres.PostgresLedgerStore.CommitRequest` | src/mandate/adapters/postgres/store.py:265-375 | the whole new store and result, every early return and the rollback on a clashing approval id included |
| `Postgres.PostgresLedgerStore.CommitTransition` | src/mandate/adapters/postgres/store.py:377-448 | run alone, the very result and new store of the in-memory commit |
| `Postgres.PostgresLedgerStore.CommitApproval` | src/mandate/adapters/postgres/store.py:450-554 | run alone, the very result and new store of the in-memory commit |
| `Postgres.PostgresLedgerStore.CommitRevocation` | src/mandate/adapters/postgres/store.py:556-635 | the whole new store and result; an existing revocation row is kept |
| `Postgres.RequestSimulates` | src/mandate/adapters/postgres/store.py:265-375 | through process_request, with one record per record id, the same result and new store as in memory |
| `Postgres.SequentialPostgresIsInMemory` | src/mandate/adapters/postgres/store.py:265-635 | run one transaction at a time the store goes through exactly the states of the in-memory store and gives every caller exactly its answer, so every theorem about its runs carries over |
| `Sessions.AtMostOneCommitPerKey` | src/mandate/adapters/postgres/store.py:278-316 | in every interleaving of any number of sessions, crashes and rollbacks included, each idempotency key, request id and command id yields at most one COMMITTED |
| `Sessions.CommittedChainsVerify` | src/mandate/adapters/postgres/db.py:58 | in every interleaving the committed event rows of every deal are gapless from 0, linked and accepted by the chain verifier, and no two events carry the same key |
| `Sessions.TurnKeepsInv` | src/mandate/adapters/postgres/store.py:265-635 | every single statement, crash or registration keeps the protocol invariant: claims held apart, heads still current, rows readable as chains |
| `Sessions.RivalsCannotShareAHead` | src/mandate/adapters/postgres/store.py:335-338 | two sessions that have both inserted a row on one deal would hold the same sequence number, which the unique key forbids |
| `Progress.UnblockedSessionMoves` | src/mandate/adapters/postgres/store.py:278-316 | a session that is not over and waits for no rival row can run its next statement, and exactly this comes of it |
| `Progress.NeverDeadlocked` | src/mandate/adapters/postgres/store.py:287-296 | in every reachable state with a session not over, some session that is not over runs its next statement, because waits climb the global claim order and an event or approval row is waited for only behind a session that waits for nothing |
| `Progress.RunsAlone` | src/mandate/adapters/postgres/store.py:265-375 | a session that has planned, with its keys free and nobody else holding anything, runs to COMMITTED and leaves exactly its plan published |
| `Serial.SerialSessionIsTheCommit` | src/mandate/adapters/postgres/store.py:265-635 | whatever the job, a session that runs while nobody else holds anything answers and leaves in every table exactly what the whole commit does, errors and rollbacks included |
| `Revocations.CommittedRevocationStays` | src/mandate/adapters/postgres/store.py:625-634 | in every interleaving a revocation that ended COMMITTED has a row under its id from then on, its own unless that id was taken before, and so a row for its record |
| `Revocations.NoGrantMovesAfterRevocation` | src/mandate/adapters/postgres/store.py:489-505 | in every interleaving a grant that reads the revocations after a revocation of its record ended COMMITTED under an id of its own, for a time that covers it, publishes no transition and closes its approval as denied |
| `RaceWitnesses.ReusedIdStoresNothing` | src/mandate/adapters/postgres/store.py:625-634 | a reachable state: two revocations of two records under one id both committed, and the second record has no row |
| `Decisions.EndedStays` | src/mandate/adapters/postgres/store.py:265-635 | in every interleaving a session that is over stays as it ended |
| `Sessions.ReadFits` | src/mandate/adapters/postgres/store.py:450-505 | the reads of every commit end in an abort that writes nothing or in a plan whose events carry only the job's own keys, once each |
| `Races.RowFollowsChainIffReadIsCurrent` | src/mandate/adapters/postgres/store.py:265-635 | when any of the four commits publishes at step k, its copy of the deal is the row it found at an earlier step j; the stored row goes on being the replay of its chain if and only if what the plan writes back from that copy was still stored, and the chain goes on joining up if and only if the state in it was the state the chain is in |
| `Races.StalePlan` | src/mandate/ledger/commit_plans.py:113-467 | the same for a plan alone, for each job and branch (allow, hold, denial, grant, refusal, forced refusal, boundary event, revocation), whatever copy it was made from and whatever is stored |
| `Races.FaithfulIffCommitsAreCurrent` | src/mandate/adapters/postgres/store.py:265-635 | throughout an interleaving every row is the replay of a chain that joins up if and only if every commit in it was planned on the deal as stored when it published, as far as the plan depends on it |
| `RaceWitnesses.TwoHoldsCountOnce` | src/mandate/adapters/postgres/store.py:318-375 | a reachable state: two requests held on one copy both committed, two approvals are pending, the deal counts one, and its row is not the replay of its chain |
| `RaceWitnesses.OneMoveTwice` | src/mandate/adapters/postgres/store.py:377-448 | a reachable state: two boundary events applied from DRAFT both committed, and the chain does not join up |
| `Decisions.RowPendingIffUndecided` | src/mandate/adapters/postgres/store.py:450-554 | in every interleaving an approval row is pending exactly as long as no decision of it has been published |
| `Decisions.ReadPassesIffUndecided` | src/mandate/adapters/postgres/store.py:458-473 | a decision gets past its approval exactly when none has been published yet |
| `Decisions.TwoDecisionsReadBeforeEither` | src/mandate/adapters/postgres/store.py:450-554 | two decisions of one approval both end COMMITTED only if each read it, still pending, before the other published |
| `RaceWitnesses.GrantedAndRefused` | src/mandate/adapters/postgres/store.py:450-554 | a reachable state: a grant and a refusal of one approval both committed, and the chain ends with the grant, its transition, and the refusal |
| `Races.LostClaimAnswersWithoutAnEvent` | src/mandate/adapters/postgres/store.py:297-333 | after ALREADY_APPLIED every stored decision still has its event if and only if the idempotency key itself was taken; otherwise the caller is answered with a decision no event records |
| `RaceWitnesses.KeyWithoutAnEvent` | src/mandate/adapters/postgres/store.py:297-333 | a reachable state: a request ended ALREADY_APPLIED, its idempotency row is stored, and no event carries its key |
| `Races.PassedGateNeverLosesAClaim` | src/mandate/application/services.py:70-81 | with nothing between gate and commit that never happens |
| `Gateway.InMemoryWireDedup.Lookup` | src/mandate/transport/dedup.py:59-68 | new, redelivery with the stored answer, or hostile, exactly by the stored fingerprint |
| `Gateway.InMemoryWireDedup.Store` | src/mandate/transport/dedup.py:70-78 | one entry set, the rest kept |
| `Gateway.GatewayState.ProcessMessage` | src/mandate/transport/gateway.py:462-525 | answer, ledger and dedup table after one message, for every stage that can end it |
| `Gateway.GatewayState.HandleProposalMessage` | src/mandate/transport/gateway.py:354-405 | answer and ledger after a proposal |
| `Gateway.GatewayState.HandleCounterpartyEvent` | src/mandate/transport/gateway.py:408-451 | answer and ledger after a counterparty event |
| `Gateway.GatewayState.RegisterDeal` | src/mandate/transport/gateway.py:281-298 | the registry follows the store, and not when the store refuses |
| `Gateway.OnlyHandledMessagesWrite` | src/mandate/transport/gateway.py:469-514 | a refused, redelivered, hostile, stale or merely acknowledged message writes nothing anywhere |
| `Wire.OnlySignedMessagesCount` | src/mandate/transport/envelope.py:266-297 | a delivery that changes the ledger or the dedup table, or is answered with anything but a 400, is addressed to us and carries an Ed25519 signature by the registered key of the sender it names, over its whole form |
| `Wire.SignedMessagesAreHandled` | src/mandate/transport/gateway.py:462-525 | an authentic, fresh proposal or event under a new key is handled and its answer remembered; nothing else writes; a known key gets the stored answer or a 400 |
| `Wire.ProposalIsAnswered` | src/mandate/transport/gateway.py:354-405 | which proposals get a 404, a 403, a receipt or a 400, and the input the engine sees, field by field |
| `Wire.EventIsAnswered` | src/mandate/transport/gateway.py:408-451 | the same for a counterparty event, and the transition it asks for, field by field |
| `Wire.EveryProposalIsLogged` | src/mandate/transport/gateway.py:354-405 | over any sequence of deliveries, a proposal off the wire that changes the ledger was authentic and left, under the linked mandate and its agent, exactly the log of what it proposed and the decision under the envelope's key |
| `Gateway.HandlerRunsAtMostOnce` | src/mandate/transport/gateway.py:480-525 | over any sequence of deliveries each (sender, key) runs a handler at most once |
| `Gateway.StoredAnswersNeverChange` | src/mandate/transport/dedup.py:70-78 | over any sequence the answer stored for a key never changes |
| `Gateway.RedeliveryGetsTheFirstAnswer` | src/mandate/transport/gateway.py:480-492 | a redelivery gets the very first answer, however stale, and a different message under the key is refused; both change nothing |
| `Gateway.EveryWireRunIsSound` | src/mandate/transport/gateway.py:462-525 | whatever arrives, the ledger behind the wire keeps the invariants of its own runs |
| `Gateway.MessageMovesAtMostOnce` | src/mandate/transport/gateway.py:432-446 | one message id never causes two transitions, on any deals |
| `Gateway.AcceptedDecisionIsCommitted` | src/mandate/transport/gateway.py:394-405 | the decision in an accepted answer is the one the ledger holds under the key, for this very proposal |
| `Gateway.LedgerAnswersWhatTheWireForgot` | src/mandate/transport/gateway.py:383-401 | a proposal accepted before and delivered again after the dedup table was lost gets the decision first committed and changes nothing |
| `WireOutcomes.WireSpendNeverExceedsCapPlusGrants` | src/mandate/transport/gateway.py:354-451 | whatever messages arrive, committed spend never exceeds the cap of the linked mandate plus what people granted: the inputs the gateway builds meet the budget conditions by themselves |
| `WireOutcomes.WireRevocationIsFinal` | src/mandate/transport/gateway.py:354-451 | whatever messages arrive after a signed revocation is in effect, none appends an agent's transition under that record |
| `Canonical.ParsesBack` | src/mandate/crypto/canonicalization.py:48-57 | every float-free value has canonical bytes, and they parse back to that value |
| `Canonical.CanonicalBytesAreInjective` | src/mandate/crypto/canonicalization.py:48-62 | two float-free values have the same bytes exactly when they are equal |
| `Canonical.SortingIsUnique` | src/mandate/crypto/canonicalization.py:51-57 | any ascending arrangement of an object's keys is the one printed, so insertion order never shows |
| `Canonical.LessIsFirstDifference` | src/mandate/crypto/canonicalization.py:51-57 | keys sort by code point: by the first place where two differ, or by the one that ends first |
| `Canonical.TextRoundTrip` | src/mandate/crypto/canonicalization.py:51-57 | escaped text reads back character by character, surrogate pairs included (section 7 of RFC 8259) |
| `Canonical.EscapesAreShortest` | src/mandate/crypto/canonicalization.py:51-57 | every character is written in the shortest form JSON has for it in ASCII |
| `Canonical.PrintedIsAscii` | src/mandate/crypto/canonicalization.py:51-57 | the printed form is printable ASCII, so encoding it never fails |
| `EventId.Crockford32` | src/mandate/ledger/chain.py:56-61 | the loop gives the base-32 text of that length, which decodes to the value modulo 32^length, for negative values as well |
| `EventId.TextOrderIsNumericOrder` | src/mandate/ledger/chain.py:44-61 | at one length the order of texts is the order of numbers |
| `EventId.EarlierMeansSmallerId` | src/mandate/ledger/chain.py:64-68 | below 2^50 an earlier millisecond gives a smaller id whatever the 80 random bits |
| `EventId.IdsAreUlids` | src/mandate/domain/authority.py:15-24 | every id built passes the id validator |
| `EventId.IdsRepeatOnlyByChance` | src/mandate/ledger/chain.py:64-68 | two ids are equal exactly when stamp and random bits are |

## Left out

- HTTP, sessions, CSRF, templates, logging, key files, environment parsing, scripts and demos: input, output and user interface.
- Real Ed25519, SHA-256, base64 and key loading: library calls, symbols here. A signature under a key other than the signer's never verifies.
- Explanations, detail strings, the input digest of a decision and the names of checks as text: prose for people; checks are listed by kind and index.
- Timestamp parsing and time zones: instants are integers; the freshness window compares them.
- The content screen, its fixtures and its probabilities: its claims are arbitrary input. `find_content_violations` and `_no_money_moved` are not modelled: the first compares with what the agent declared, not with the mandate, and boundary events may confirm a payment.
- Field validators, enum membership and length limits: settled by reading.
- SQL text, migrations, roles and triggers: the statements are modelled by their effect on the tables, under the unique keys the schema declares; the unique event id is not, ids being random.
- Sessions.CommittedChainsVerify: does not say that under concurrency the deal row is the replay of its chain or that from-state and to-state join up, because the code reads the deal and the chain head in separate statements; `Races` states, for every job, exactly when they do. Both are proved without conditions for transactions run one at a time.
- Sessions.AtMostOneCommitPerKey: says nothing of approval rows, which two concurrent decisions with different command ids may both find pending; `Decisions` states when.
- Sessions.RegisterStep: is one step where the source runs three transactions (the deal, its record, its link), so a crash between them is not modelled, nor is the link table.
- Serial.SerialSessionIsTheCommit: the link table and the creation times of deals are not among the tables of `Sessions`.
- Revocations.CommittedRevocationStays: under an id that another record's revocation already holds it promises no row for the record, because the insert does nothing then (`RaceWitnesses.ReusedIdStoresNothing`).
- Progress.NeverDeadlocked: waiting on the updates that follow the event inserts (deal, approval, record and revocation rows other than a newly opened approval) is not modelled; a session there holds every row it needs on its own deal.
- Once.FindAutonomousCommitViolations: classes events by the shape of the payload where the source tests the event type; the two agree on every chain of every run (`Runs.EveryRunIsSound`), and the lookup error on an event filed under the wrong type is not modelled.
- Outcomes.SpendNeverExceedsCapPlusGrants: a grant does not recheck the cap, the round limit or payment blocks, so the bound adds what people granted.
- Gateway: receipts are not themselves signed envelopes here and their reason text is dropped; a message that arrives as anything but a well-formed envelope is refused before the part modelled.
- Canonical.CanonicalBytesAreInjective: strings hold Unicode scalar values; lone surrogates, which the source would print, are not in the model.
- EventId: the millisecond stamp is an integer input; its computation from a timestamp through a float is not modelled.
