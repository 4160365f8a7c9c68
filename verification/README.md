# ACCESS authorization and docking: a verified model

The repository authorizes a spacecraft to dock: a station-side authority (the Rust `AccessEngine`) opens a
session over signed messages, issues single-use grants for one docking stage at a time when profile and
policy allow it, and a gate redeems each grant before the next stage is released. Three Python nodes
(controller, chaser, station) carry the requests, grants and decisions between a vehicle and that
authority, and the chaser checks every grant with a verifier of its own.

The model follows those parts. What the source updates in place is a class here (`AccessEngine`,
`ReplayCache`, `StationAccess`, `ChaserAccess`, `BaselineController`, `Pool`, and the verifier's methods
over a `ReplayCache`): each method is proved equal, on every path, to a step function on values, and the
theorems about runs are about those step functions. What the source computes as expressions is functions.

| file | models |
|---|---|
| Basics.dfy | options, results, bytes, saturating and wrapping 64-bit arithmetic |
| Journal.dfy, Replay.dfy, Durability.dfy | the hexadecimal journal file, the replay cache over it, and when a consumed value survives |
| StateMachine.dfy, Profile.dfy, Cedar.dfy | the reducer, profile evaluation, the policy context and the five permits |
| Protocol.dfy | envelopes and credentials with symbolic signatures |
| Engine.dfy, EngineClass.dfy | the engine: step functions, and the class proved against them |
| EngineSteps.dfy, EngineRuns.dfy, EngineGuarantees.dfy, EngineAnswers.dfy | what a call can change; invariants over all runs; what they mean to a user; what each call answers |
| EngineLiveness.dfy, Deployment.dfy | nominal completeness, in general and for the shipped profile and policy |
| Verifier.dfy | the client's entitlement verifier and trust store |
| Nodes.dfy, Controller.dfy, ControllerRuns.dfy | station and chaser nodes; the baseline controller, and its resets, approvals and halts over runs |
| Distributed.dfy, DistributedHistory.dfy, ClosedStation.dfy, Answers.dfy | all of it over a lossy network: when it stays in step, what the client verified, the engine's history behind the controller, what a closed station lets through, what the nodes answer |
| Delivery.dfy, Failures.dfy | a run to hard dock; runs on which a property fails |
| SessionPool.dfy | the gateway's pool of leases |

## How things are represented

- A signature is a term over key, protected key identifier, external_aad and payload, the Sig_structure of
  section 4.4 of RFC 9052. It verifies exactly for what it was made over. Where a theorem needs that nobody
  else signs with the station's key, it says so (`Honest`), and likewise that drawn session or grant
  identifiers are new.
- Random draws, the signer's success, what the disk did with an append and the clock are parameters of every
  step, so each theorem is for all of them. A failed append leaves any prefix of its line in the file.
- Rust strings used as identifiers are their bytes; 64-bit integers are bounded and saturate or wrap as in
  the source. Plain `now_s - 60` wraps, as in a release build. RFC 3339 timestamps are already parsed,
  possibly unsuccessfully. Ranges, speeds and times of the Python nodes are reals.
- The file behind a cache is a field of the cache. A restart rebuilds the four caches from their files and
  does not come up when one fails to load.
- The engine's ghost `log` and `signed` record sessions, grants issued, grants consumed and signatures made;
  nothing reads them but the theorems.
- `hide` statements only keep a body out of one proof.

## What turned out not to hold as stated

- **Durability after a torn write.** The journal is appended to without checking that it ends with a newline. After a
  failed append that left part of a line, the next successful `consume` lands on that line: its value is lost to a
  restart, or the journal no longer loads. Exactly: the append is lost when the complete lines load without the
  value and a torn line that decodes follows them (`Durability.LosesCommitPlainly`); then, and only then, a value
  reported consumed is consumed again after a restart (`Durability.SpentAgain`, with an input in
  `Durability.TornThenSpentTwice`). Failed appends themselves do no harm, at whatever byte. Single use across restarts, and a
  gate that takes an envelope once, hold over all runs without a lost commit, and the next restart forgets each lost one
  (`EngineGuarantees.GrantForgotten`, `EngineGuarantees.GateForgets`, a whole run in `Failures.GrantRedeemedTwice`). With
  fresh grant identifiers single use holds for any storage.
- **Saturating ages.** A saturated age is compared with a limit as the exact one is, except when the limit is
  `i64::MAX` and the age overflows (`Basics.SaturatedAgeIsExact`).
- **Very long times to live.** A time to live of 2^63 or more is cast to a negative number, and the grant is then never
  usable at or after its issue, unless that was the least representable time (`EngineGuarantees.UsableWindow`).
- **Lockstep.** A late or duplicated `access_request` re-establishes the session and takes the engine back to hold
  under a station and a controller that may be further on. The three are in step at every moment of a run exactly when the
  authority acts on no such copy once the gate has released a stage (`Distributed.InStepRun`); `Failures.DuplicateAccessRequest`
  is a run on which it does. In every run, such copies included, the controller and the station are never ahead of the
  highest stage the gate released (`Distributed.DistributedLockstep`).
- **Overshoot.** `copysign` turns a negative step into one towards the goal: a pose passes the goal exactly when
  the step is negative and longer than the distance (`Controller.NoOvershoot`). Range safety holds over all runs for
  speeds that are not negative, and fails at the first pose for any other (`Controller.RangeNeedsForwardSpeed`).
- **The initial delay.** The controller comes up halted and only a reset clears that, so `initial_delay_s` starts nothing
  (`ControllerRuns.InitialDelayStartsNothing`).
- **A station that failed closed.** It asks for no grant until the next access request, but its presentation handler asks
  for readiness and not for a session, so a presentation is still passed on and releases a stage exactly when the engine
  may release one (`ClosedStation.PresentationReleasesExactly`). That happens at most once, and not at all when no grant was
  pending for the next stage (`ClosedStation.ClosedReleasesAtMostOne`); `ClosedStation.ClosedStationReleases` is a run with it.
- **Documentation and code.** `docs/access-protocol-flows.md` lists session binding checks at the intake of a
  transition request; the station's handler does not look at the session the message names, and that session makes no
  difference (`ClosedStation.IntakeIgnoresSession`). The engine issues for its own session, and the client accepts a
  grant only for the session the chaser is in.

## Model

| member | source | states |
|---|---|---|
| Distributed.DistributedLockstep | rust/access_core/src/session.rs:690-790 | Over any run of the five nodes, with any loss, duplication, delay, reordering and any death of the authority: controller <= highest released stage <= controller + 1, station <= it; and the same against the engine's present state when no copy of the access request is delivered in the run |
| Distributed.LockstepStep | src/docking_orchestration/docking_orchestration/station_access.py:319-566 | Every step of every node keeps the lockstep invariant (also: nothing in flight or pending asks for more than the controller's next stage) |
| Distributed.LockstepRun | src/docking_orchestration/docking_orchestration/baseline_controller.py:109-137 | The invariant over a run, by induction on its steps |
| Distributed.InStepRun | rust/access_core/src/session.rs:217-226 | Over any run, at every moment controller <= engine <= controller + 1 and station <= engine, exactly when the authority acts on no copy of the access request once the gate has released a stage |
| Distributed.InStepExactly | src/docking_orchestration/docking_orchestration/station_access.py:194-566 | Step by step: a step leads out of step exactly when it is such a copy, and every other step keeps controller, station and engine together |
| Distributed.LateAccessRequest | src/docking_orchestration/docking_orchestration/station_access.py:194-247 | What such a copy does: out of step in that very step exactly when a stage had been released; the controller alone is ahead of the engine exactly when it had entered one |
| Failures.DuplicateAccessRequest | src/docking_orchestration/docking_orchestration/chaser_access.py:80-103 | A run out of step: session, first stage released and entered, a second copy of the access request |
| Failures.NominalDuplicate | src/docking_orchestration/docking_orchestration/chaser_access.py:80-103 | Such a run in the shipped deployment, nothing left to choose |
| Distributed.ClientVerifiedEveryStage | docs/access-protocol-flows.md:50-51 | The client verifies before a decision is accepted: over any run each stage entered, and each approved in flight, is one whose signed grant the chaser presented and its own verifier accepted |
| DistributedHistory.ControllerStagesArePermitted | rust/access_core/src/session.rs:458-790 | End to end: in a run in step, a controller at stage n has n ordered issue/redeem pairs in the engine's history, each issued on evidence that met its permit and each verified by the client; nothing assumed of signatures |
| DistributedHistory.EngineCalls | src/docking_orchestration/docking_orchestration/station_access.py:319-566 | Whatever the network delivers, the engine makes at most one of its own calls, and only on envelopes it signed |
| Distributed.PresentationsAreVetted | src/docking_orchestration/docking_orchestration/chaser_access.py:139-185 | Over any run the chaser presents only grants its own verifier accepted, for its session and the offered stage, with the nonce spent |
| Distributed.AcceptedByClient | rust/access_core/src/bin/access_entitlement_verifier.rs:164-260 | What an acceptance by the client's verifier says about the envelope it looked at |
| Delivery.MissionCompletes | rust/access_core/src/session.rs:217-790 | From the access request there is a run of the whole system - session, flight, request, grant, client verification, presentation, release, decision, four times - to hard dock at controller, station and engine |
| Delivery.DockingCompletes | src/docking_orchestration/docking_orchestration/baseline_controller.py:109-222 | The same from any stage of an open session |
| Delivery.RoundCompletes | src/docking_orchestration/docking_orchestration/chaser_access.py:105-185 | One round of messages moves controller, station and engine one stage, in the same session, and spends exactly the round's nonces and grant identifier |
| Delivery.RoundIsPresented | src/docking_orchestration/docking_orchestration/chaser_access.py:105-185 | The first half: readiness, request, grant, client verification, presentation |
| Delivery.RoundIsReleased | src/docking_orchestration/docking_orchestration/station_access.py:504-566 | The second half: release and decision, the session kept |
| Delivery.ApproachEndsInRequest | src/docking_orchestration/docking_orchestration/baseline_controller.py:139-222 | Acknowledged ticks bring the vehicle to its goal and end in exactly one request, for the next stage |
| Delivery.SessionOpens | src/docking_orchestration/docking_orchestration/station_access.py:194-247 | The access request opens the session at engine, station and chaser alike, whatever state the engine was left in |
| EngineClass.AccessEngine.constructor | rust/access_core/src/session.rs:136-207 | A new engine is at hold with no session and nothing pending |
| EngineClass.AccessEngine.Reset | rust/access_core/src/session.rs:792-803 | Clears session, state, evidence, pending entitlements and the ephemeral caches, and keeps durable ones |
| EngineClass.AccessEngine.ExchangeInto | rust/access_core/src/session.rs:814-824 | Sign, then verify at the other end |
| EngineClass.AccessEngine.SendToStation | rust/access_core/src/session.rs:221-250 | A message of the chaser, verified against the station's cache and store |
| EngineClass.AccessEngine.SendToChaser | rust/access_core/src/session.rs:254-280 | A message of the station, verified against the chaser's cache and store |
| EngineClass.AccessEngine.EstablishSession | rust/access_core/src/session.rs:217-456 | Every path of establishment, step by step: new state and answer are those of the step function the run theorems are about |
| EngineClass.AccessEngine.PresentCredentials | rust/access_core/src/session.rs:253-338 | Challenge, credentials and proof, with what each failure leaves behind |
| EngineClass.AccessEngine.AdmitSession | rust/access_core/src/session.rs:339-380 | Binding, credentials, foundation, policy, in order, with what each failure leaves behind |
| EngineAnswers.SessionsOpenWell | rust/access_core/src/session.rs:344-380 | A session opens only on a current profile and trust bundle, on accepted credentials signed by trusted issuers for the chaser inside their validity, and if the policy allows it; the decision answered is that gate and policy. Nothing assumed |
| EngineAnswers.EstablishmentAnswers | rust/access_core/src/session.rs:217-380 | With working parts: a session opens exactly when the scenario, the clock, the profile, the credentials and the policy allow it, and otherwise the answer names the first of them that does not |
| Protocol.AcceptedCredentials | rust/access_core/src/protocol.rs:294-313 | Exactly which credentials are accepted: issuer, domain, signature, subject, validity |
| EngineClass.AccessEngine.RequestTransition | rust/access_core/src/session.rs:458-688 | Every path of a request, likewise |
| EngineClass.AccessEngine.RefreshHolderProof | rust/access_core/src/session.rs:471-529 | The two challenge messages and the refreshed proof time |
| EngineClass.AccessEngine.DecideTransition | rust/access_core/src/session.rs:537-610 | Profile, then policy, each refusal with its own outcome |
| EngineClass.AccessEngine.IssueGrant | rust/access_core/src/session.rs:611-688 | The grant drawn, signed and remembered, or nothing |
| EngineAnswers.RequestsAnswer | rust/access_core/src/session.rs:530-610 | Once the holder is proven: an error only when a draw or the signer fails, approved exactly when profile and policy allow and neither does, and otherwise an answered refusal with its reason and rule |
| EngineAnswers.UnaskedRequests | rust/access_core/src/session.rs:465-471 | Before that: the wrong stage, no session, no proof, each with its own error |
| EngineAnswers.WorkingLinksProve | rust/access_core/src/session.rs:471-529 | Matched trust, working links and new nonces prove the holder |
| EngineClass.AccessEngine.RedeemTransition | rust/access_core/src/session.rs:690-790 | Every path of a redemption, likewise |
| EngineClass.AccessEngine.ReleaseStage | rust/access_core/src/session.rs:723-790 | The checks after a grant leaves the pending map, in order |
| EngineClass.AccessEngine.ConsumeAndMove | rust/access_core/src/session.rs:761-767 | The grant identifier is consumed before the reducer runs |
| EngineAnswers.ShownGrantsAreBurned | rust/access_core/src/session.rs:706-790 | A pending grant is used up by being shown, whether or not it releases its stage, and no other is; the answer to a release names grant, session, stage and provenance |
| EngineRuns.ReachableStates | rust/access_core/src/session.rs:217-803 | In every reachable state: a session id is present exactly when the session is authorized; the grants consumed since the last reset are the stages 1..n in order, each once, n the state number, never aborted; no pending entitlement is for more than the next stage |
| EngineRuns.StartsWell | rust/access_core/src/session.rs:136-167 | A new engine over any caches satisfies the run invariants |
| EngineRuns.CoreStep | rust/access_core/src/session.rs:217-803 | Each call, failing anywhere, keeps them |
| EngineRuns.LeftoversAreInert | rust/access_core/src/session.rs:719-732 | A pending entitlement for any stage but the next never moves the engine |
| EngineRuns.ClosedWithoutSession | rust/access_core/src/session.rs:467-470 | Without a session requests and redemptions err and change nothing at all |
| EngineRuns.FailedEstablishmentStaysClosed | rust/access_core/src/session.rs:217-380 | After an establishment failed at any step: hold, no session, nothing pending, through any calls until one succeeds |
| EngineRuns.ExpiredCredentialNeverOpens | rust/access_core/src/session.rs:287-301 | The expired-credential scenario never opens a session at any clock value, wrap-around included |
| EngineRuns.CausalHistory | rust/access_core/src/session.rs:458-790 | With fresh session ids and unforged station signatures: every redemption used an envelope signed by an earlier request in the same session, from the same state, for the same stage, within its window, and the profile passed again |
| EngineRuns.AcceptedGrantWasIssued | rust/access_core/src/session.rs:706-722 | Only authorization grants are redeemed although the type is never tested: an accepted envelope that names a grant is one the engine issued, of that type |
| EngineSteps.IssueEffect | rust/access_core/src/session.rs:458-688 | A request either issues one complete grant or leaves state, session, grants and history alone |
| EngineSteps.RedeemEffect | rust/access_core/src/session.rs:690-790 | A redemption either releases one stage and consumes one grant, or consumes none: the reducer cannot refuse after the consumption |
| EngineSteps.EstablishEffect | rust/access_core/src/session.rs:217-380 | Establishment clears first; on any error nothing but hold is left |
| EngineSteps.CommitEffect | rust/access_core/src/session.rs:761-767 | Consumption succeeds exactly when the move does |
| EngineSteps.ProveHolderFrame | rust/access_core/src/session.rs:471-529 | The holder proof touches only peer caches and the proof time; its binding check never fails |
| EngineSteps.SameStages | rust/access_core/src/session.rs:837-863 | Both stage tables accept exactly the next stage |
| EngineGuarantees.ProvenanceNeverRejects | rust/access_core/src/session.rs:719-759 | Redemption succeeds exactly when envelope, pending entry, binding, profile and caches do: the provenance comparison and the reducer never refuse |
| EngineGuarantees.SameProvenanceAgain | rust/access_core/src/session.rs:736-759 | Re-evaluating an issued stage under the same configuration decides the same rule |
| EngineGuarantees.SingleUseAcrossRestarts | rust/access_core/src/session.rs:761-761 | Durable grant cache: no grant id is redeemed twice over any run with restarts and storage failures at any byte, as long as no commit is lost to a torn line |
| EngineGuarantees.GrantForgotten | rust/access_core/src/session.rs:761-761 | The condition is exact: a restart forgets an identifier just redeemed exactly when its commit was lost |
| Failures.GrantRedeemedTwice | rust/access_core/src/session.rs:761-761 | A run on which an identifier is redeemed twice: a journal with a torn line, a redemption, a restart, the same draws again |
| EngineGuarantees.StartsUnspent | rust/access_core/src/session.rs:136-207 | A new engine over any loaded caches satisfies the premises of both single-use theorems |
| EngineGuarantees.SingleUseWithFreshGrants | rust/access_core/src/session.rs:719-722 | Any caches, torn writes included: fresh grant ids suffice, since a reset empties the pending map |
| EngineGuarantees.GateTakesAnEnvelopeOnce | rust/access_core/src/session.rs:706-713 | Durable gate: an envelope once verified, its commit not lost, is refused ever after, across sessions, restarts and any storage failures |
| EngineGuarantees.GateForgets | rust/access_core/src/protocol.rs:374-374 | A restarted gate verifies the same envelope again exactly when the commit of its nonce was lost |
| EngineGuarantees.OrderedHistory | rust/access_core/src/session.rs:458-790 | An engine at stage n has n issue/redeem pairs for 1..n, each redemption before the next issue |
| EngineGuarantees.HardDockMetFourPermits | examples/authorization/policies/commercial-docking.cedar:16-83 | Hard dock: four ordered pairs, and at each issue the evidence met that stage's permit |
| EngineGuarantees.EveryHardDockMetFourPermits | rust/access_core/src/session.rs:458-790 | The same for every run of a new engine over any caches |
| EngineGuarantees.RedeemedInWindow | rust/access_core/src/session.rs:612-612 | A justified redemption happened within 30 s of its issue, not after saturated expiry, so at most min(30, ttl) later |
| EngineGuarantees.UsableWindow | rust/access_core/src/protocol.rs:368-370 | Skew and expiry allow exactly the instants up to min(30, ttl) after the issue, and none for a ttl that does not fit a signed integer, except the issue itself at the least representable time |
| EngineLiveness.EstablishmentSucceeds | rust/access_core/src/session.rs:217-380 | Matched trust, working parts, new nonces, admitting profile and policy: establishment succeeds and spends exactly its nonces |
| EngineLiveness.CredentialsDeliver | rust/access_core/src/session.rs:282-362 | The two credentials issued are the two verified |
| EngineLiveness.StillAcceptedWhenPresented | rust/access_core/src/session.rs:736-747 | An admissible presentation gets the very decision of its issue |
| EngineLiveness.LinkDelivers | rust/access_core/src/session.rs:814-824 | A signed message between matched stores arrives, spending exactly its nonce |
| EngineLiveness.RoundAdvances | rust/access_core/src/session.rs:458-790 | Under those conditions a request at t and a redemption at t' with t <= t' <= t + min(30, ttl, proof age) always advance one stage |
| EngineLiveness.FourRoundsReachHardDock | rust/access_core/src/session.rs:217-790 | Four such rounds after an establishment reach hard dock |
| Deployment.ShippedSystemDocks | config/access/access-protocol-profile.json:1-74 | The shipped profile under the commercial policy docks, for every clock value and evidence within plain numeric limits |
| Deployment.NominalMission | config/access/access-protocol-profile.json:1-74 | Such a mission exists: at every instant the profile and trust bundle are current, a new engine with matched trust reaches hard dock by concrete rounds |
| Deployment.GoodIsAdmissible | config/access/access-protocol-profile.json:31-73 | In that deployment the rounds that must be granted and released are exactly those within the numeric limits |
| Deployment.ShippedEvaluation | config/access/access-protocol-profile.json:5-73 | Each shipped stage accepts exactly the evidence within its numeric limits, and decides its own rule |
| Deployment.ShippedActions | config/access/access-protocol-profile.json:31-73 | Whatever rule the shipped profile decides, its action is the permit of that stage |
| Deployment.ShippedHardDockMetFourPermits | config/access/access-protocol-profile.json:31-73 | Every run of a new engine to hard dock in the shipped deployment went through four ordered pairs that met their permits |
| Profile.SaturatingChecksAreExact | rust/access_core/src/protocol_profile.rs:104-198 | The saturating checks accept exactly what exact integer arithmetic accepts, when the clock in ms fits and no limit is i64::MAX |
| Profile.AcceptanceIsAnInterval | rust/access_core/src/protocol_profile.rs:104-198 | The instants at which given evidence is accepted are convex, with one decision |
| Profile.RefusalIsPermanent | rust/access_core/src/protocol_profile.rs:104-198 | Evidence once refused, after the profile began, is never accepted later |
| Profile.RefusalNamesTheRepair | rust/access_core/src/protocol_profile.rs:118-147 | Each refusal says which single repair would change the answer, in the order of the checks |
| Profile.RefusalNamesTheCause | rust/access_core/src/protocol_profile.rs:118-124 | The refusals for timestamps, validity, trust bundle, credentials and missing rule, each exactly when it is the first |
| Profile.FirstRuleDecides | rust/access_core/src/protocol_profile.rs:120-124 | Of several rules for a stage pair the first decides |
| Profile.FirstNameDecides | rust/access_core/src/session.rs:570-593 | Of several rules of one name the first gives action and age limit |
| Profile.FirstProfileDecides | rust/access_core/src/protocol_profile.rs:182-186 | Of several credential profiles of one name the first decides |
| Profile.ValidateCredentials | rust/access_core/src/protocol_profile.rs:176-198 | Accepts exactly when every credential presented satisfies its profile |
| Profile.FindRule | rust/access_core/src/protocol_profile.rs:120-124 | The rule found is of the list and of that stage pair |
| Profile.FindRuleById | rust/access_core/src/session.rs:570-580 | The rule found by name is of the list and bears the name |
| Profile.FindCredentialProfile | rust/access_core/src/protocol_profile.rs:182-186 | The credential profile found is of the list and bears the name |
| Basics.SaturatedAgeIsExact | rust/access_core/src/protocol_profile.rs:163-165 | A saturated age compares like the exact one unless the limit is the value it saturates to |
| Cedar.CommercialAllows | examples/authorization/policies/commercial-docking.cedar:16-83 | The policy allows a stage action exactly when the evidence meets that stage's permit, in metres and metres per second |
| Cedar.MillimetreBound | rust/access_core/src/cedar.rs:180-185 | Rounding up to millimetres and saturating does not move a whole-millimetre bound |
| Deployment.CommercialAllowsSession | examples/authorization/policies/commercial-docking.cedar:4-14 | The two issued credentials with a holder proof meet the session permit |
| Cedar.CommercialAllowsSessions | examples/authorization/policies/commercial-docking.cedar:4-14 | The policy allows a session exactly with both credentials, a proven holder and the station it names |
| Protocol.SignThenVerify | rust/access_core/src/protocol.rs:315-377 | A signed envelope verifies at its recipient, and spends its nonce, exactly inside the skew |
| Protocol.DomainsAreSeparate | rust/access_core/src/protocol.rs:294-377 | Credentials never verify as envelopes nor envelopes as credentials |
| Protocol.AcceptedOnce | rust/access_core/src/protocol.rs:374-374 | A cache accepts an envelope at most once, whatever store, recipient and clock |
| Protocol.VerifyEnvelopeInto | rust/access_core/src/protocol.rs:351-377 | The verification that mutates the cache is the one the theorems are about |
| Durability.MemoryIsRecorded | rust/access_core/src/protocol.rs:203-240 | Over any consumptions, failing at any byte, and restarts: every value in memory is in the journal for good, at every moment, exactly when no commit is lost to a torn line and no restart takes in a torn value |
| Durability.CommitIsKept | rust/access_core/src/protocol.rs:181-189 | However the journal goes on, an appended value is loaded whenever it loads, exactly when the append is not lost |
| Durability.LosesCommitPlainly | rust/access_core/src/protocol.rs:164-189 | An append is lost exactly when the complete lines load without the value and a torn line that decodes follows them |
| Durability.SpentAgain | rust/access_core/src/protocol.rs:209-234 | A value reported consumed is consumed again after a restart exactly when its commit was lost |
| Durability.TornThenSpentTwice | rust/access_core/src/protocol.rs:181-234 | An input on which it is: an append torn after an even number of digits, then a consumption, a restart and the same consumption |
| Replay.OkIsDurable | rust/access_core/src/protocol.rs:223-234 | The value of a consumption that answered Ok is found by the next restart exactly when the lines before it load and no torn line was there |
| Replay.RebuiltCacheAgrees | rust/access_core/src/protocol.rs:203-240 | If appends commit or leave the file alone, the cache rebuilt from the journal is the cache itself, over any calls |
| Replay.ConsumeOnce | rust/access_core/src/protocol.rs:223-234 | Consumption is once-only; memory changes only by what an Ok reports |
| Replay.ReplayCache.Consume | rust/access_core/src/protocol.rs:223-234 | The object's consume, append failures included |
| Replay.ReplayCache.ResetEphemeral | rust/access_core/src/protocol.rs:236-240 | Only a cache without a backend is cleared |
| Replay.ReplayCache.Loaded | rust/access_core/src/protocol.rs:209-221 | A cache over a journal holds exactly what the journal loads |
| Journal.JournalRoundTrip | rust/access_core/src/protocol.rs:163-189 | Loading any sequence of complete appends returns those values, in order |
| Journal.TornTail | rust/access_core/src/protocol.rs:164-189 | Any truncation fails to load or returns the fully written values followed by at most one truncated value; which, for every cut |
| Journal.GluedLine | rust/access_core/src/protocol.rs:181-189 | An append after a torn one makes the journal unloadable or glues the new value to a piece of the old |
| Journal.AppendReadsBack | rust/access_core/src/protocol.rs:164-189 | Over any complete lines: an append reads back as its value exactly when they load and no torn tail preceded it |
| Journal.HexConcat | rust/access_core/src/protocol.rs:181-189 | Decoding an encoding followed by anything prepends the encoded value |
| Journal.HexInjective | rust/access_core/src/protocol.rs:186-186 | Different values have different lines |
| Journal.HexTexts | rust/access_core/src/protocol.rs:173-176 | Exactly texts of an even number of digits decode, in either case alike |
| Journal.LoadComplete | rust/access_core/src/protocol.rs:164-179 | What follows complete lines is read as lines of its own, and the first bad line fails the load as a whole |
| StateMachine.HardDockWasGuarded | rust/access_core/src/state_machine.rs:42-67 | Hard dock is reached only through the four events in order, with identity, session and docking authorization at their steps |
| StateMachine.AbortIsFinal | rust/access_core/src/state_machine.rs:42-49 | No event leaves the aborted state |
| Verifier.VerifyCommand | rust/access_core/src/bin/access_entitlement_verifier.rs:164-260 | Every path of the client's verification, the replay cache included |
| Verifier.ClientAndGateAgree | rust/access_core/src/bin/access_entitlement_verifier.rs:164-260 | A grant the engine issued passes the client for its session and stage exactly when it passes the gate's envelope, binding and expiry checks |
| Verifier.ClientAcceptsOnce | rust/access_core/src/bin/access_entitlement_verifier.rs:184-191 | The client accepts an envelope at most once |
| Verifier.VerifyThenRedeem | src/docking_orchestration/docking_orchestration/chaser_access.py:139-185 | The client's look leaves the gate's redemption exactly what it would have been |
| Verifier.TrustStoreOf | rust/access_core/src/bin/access_entitlement_verifier.rs:55-76 | Accepts exactly a bundle with a record whose records are all Ed25519 keys of 32 hexadecimal bytes on the curve; the store has each identifier with the bytes its last record spells; the first bad record names the error |
| Verifier.ListedStationIsTrusted | rust/access_core/src/bin/access_entitlement_verifier.rs:55-86 | A bundle for this client that spells the station's key wherever it lists its identifier builds a store under which the client trusts the station |
| Verifier.BuiltStoreTrusts | rust/access_core/src/bin/access_entitlement_verifier.rs:55-86 | Exactly which bundles do |
| Verifier.AcceptedAuthoritiesAreListed | rust/access_core/src/bin/access_entitlement_verifier.rs:184-206 | Over a built store an accepted entitlement names an authority listing the signer's identifier and bears a signature of the key its last record spells |
| Verifier.AcceptedEntitlements | rust/access_core/src/bin/access_entitlement_verifier.rs:164-260 | Exactly which commands are answered with an entitlement, and that it says what the envelope says |
| Verifier.StoreHoldsLastKeys | rust/access_core/src/bin/access_entitlement_verifier.rs:55-76 | A bundle is refused exactly when some record is bad; otherwise the store holds exactly the listed identifiers, each with the key of its last record |
| Verifier.FirstErrorWins | rust/access_core/src/bin/access_entitlement_verifier.rs:58-71 | The first bad record decides the error, whatever follows |
| Nodes.StationAccess.TransitionRequest | src/docking_orchestration/docking_orchestration/station_access.py:319-502 | The station's part of a request: entitlement kept and grant passed on, or refusal told to both, or failed closed |
| Nodes.StationAccess.EntitlementPresentation | src/docking_orchestration/docking_orchestration/station_access.py:504-566 | The station's state follows the authority's outcome and nothing else |
| Nodes.StationAccess.AccessRequest | src/docking_orchestration/docking_orchestration/station_access.py:194-317 | Session opened or denied, with the reason |
| Nodes.StationAccess.Consume | src/docking_orchestration/docking_orchestration/station_access.py:522-526 | The loop marks the first entitlement of the identifier and stops |
| Nodes.StationAccess.Clear | src/docking_orchestration/docking_orchestration/station_access.py:741-753 | What a reset clears and what it keeps |
| Nodes.StationAccess.ReceiveReadiness | src/docking_orchestration/docking_orchestration/station_access.py:144-150 | The latest evidence is kept |
| Nodes.StationsAreSettled | src/docking_orchestration/docking_orchestration/station_access.py:194-317 | An open station holds no denial reason, in every state the handlers can reach |
| Nodes.FailuresClose | src/docking_orchestration/docking_orchestration/station_access.py:339-436 | A failed authority, a missing session or missing readiness fails the station closed and both sides hear no; a policy refusal leaves it as it was |
| Answers.OpenStationCloses | src/docking_orchestration/docking_orchestration/station_access.py:339-436 | An open station that asks a living authority stays open exactly when the engine answers without an error |
| Answers.RefusalLeavesOpen | src/docking_orchestration/docking_orchestration/station_access.py:362-470 | A refusal by profile or policy leaves the station as it was and is told to controller and chaser |
| Answers.GrantsAreRecorded | src/docking_orchestration/docking_orchestration/station_access.py:378-411 | An approved request records the pending grant unconsumed and passes it to the chaser; the controller is told nothing yet |
| Answers.AccessRequestsAnswer | src/docking_orchestration/docking_orchestration/station_access.py:194-317 | After an access request the station is open exactly when the engine opened a session, which both then name; otherwise closed, with the expiry named exactly when it was one |
| Answers.ExpiredScenarioIsNamed | src/docking_orchestration/docking_orchestration/station_access.py:253-260 | The expired-credential scenario is denied for that reason |
| Answers.PresentationsAnswer | src/docking_orchestration/docking_orchestration/station_access.py:504-566 | A release marks the first entitlement of the grant and is told to both sides by its name; a refused presentation changes nothing |
| Nodes.ClearedAsksNothing | src/docking_orchestration/docking_orchestration/station_access.py:741-753 | A cleared station asks for no grant and no redemption until a session is opened and evidence has come in |
| Nodes.ClosedStaysClosed | src/docking_orchestration/docking_orchestration/station_access.py:339-343 | A closed station asks for no grant and records none until the next access request; what presentations still do is in ClosedStation |
| ClosedStation.PresentationReleasesExactly | src/docking_orchestration/docking_orchestration/station_access.py:504-526 | With the authority answering and readiness present, a presentation releases a stage exactly when the engine may release one, be the station closed or open; a closed station follows the engine and stays closed |
| ClosedStation.ClosedReleasesAtMostOne | src/docking_orchestration/docking_orchestration/station_access.py:339-436 | Until the next access request a closed station lets at most one more stage through over any run, and none when no grant was pending for the next stage as it closed |
| ClosedStation.ClosedStationReleases | src/docking_orchestration/docking_orchestration/station_access.py:504-566 | A run on which it lets that one through: the grant verified and presented, a stale request delivered, then the presentation |
| ClosedStation.StaleRequestCloses | src/docking_orchestration/docking_orchestration/station_access.py:412-416 | A request for any stage but the next closes an open station and leaves the engine as it was |
| ClosedStation.IntakeIgnoresSession | src/docking_orchestration/docking_orchestration/station_access.py:319-323 | The session a transition request names has no effect at the intake |
| Nodes.ChaserAccess.StationProtocol | src/docking_orchestration/docking_orchestration/chaser_access.py:122-201 | The chaser's part: bind the session, verify and present a grant, drop a resolved one |
| Answers.SilentUntilAuthorized | src/docking_orchestration/docking_orchestration/chaser_access.py:130-138 | After a denial the chaser presents nothing over any run until it hears of an authorized session |
| Answers.SessionIsTheLastTold | src/docking_orchestration/docking_orchestration/chaser_access.py:130-138 | The chaser's session is the last one it was told |
| Nodes.PresentedAreUnresolved | src/docking_orchestration/docking_orchestration/chaser_access.py:168-201 | The grants held as presented are exactly those presented and not yet resolved |
| Nodes.ChaserAccess.TransitionRequest | src/docking_orchestration/docking_orchestration/chaser_access.py:105-120 | Sequence and session are stamped on the request |
| Nodes.ChaserAccess.Forget | src/docking_orchestration/docking_orchestration/chaser_access.py:67-83 | A new exchange forgets session, sequence and presented grants |
| Controller.RangeSafety | src/docking_orchestration/docking_orchestration/baseline_controller.py:101-222 | Over any run with resets, failed poses and any decisions, position and any pending position lie between the hold point and the goal of the entered stage |
| Controller.RangeNeedsForwardSpeed | src/docking_orchestration/docking_orchestration/baseline_controller.py:181-191 | The first pose from hold is in range exactly when the configured speed is not negative |
| ControllerRuns.StageIsApprovals | src/docking_orchestration/docking_orchestration/baseline_controller.py:101-222 | Over any run the stage is exactly the number of approvals accepted since the last completed reset, so the vehicle is no further than what was approved after it |
| ControllerRuns.ResetsReturnToHold | src/docking_orchestration/docking_orchestration/baseline_controller.py:139-172 | An acknowledged reset pose takes the controller to hold with nothing pending, to resume after the delay exactly when it was to start a run |
| ControllerRuns.ResetsAreCarriedOut | src/docking_orchestration/docking_orchestration/baseline_controller.py:101-172 | A reset asked for at any stage is carried out in two ticks once the call in flight has ended |
| ControllerRuns.FailedResets | src/docking_orchestration/docking_orchestration/baseline_controller.py:145-165 | A rejected reset pose is sent again; one whose call fails is given up and the stage stays |
| ControllerRuns.RunsAreTidy | src/docking_orchestration/docking_orchestration/baseline_controller.py:93-222 | In every reachable state nothing is pending while a reset is in hand, and the controller is halted then exactly when it was a preparation |
| ControllerRuns.DecisionsEnterOrStop | src/docking_orchestration/docking_orchestration/baseline_controller.py:109-125 | A decision heard while waiting enters the next stage or stops the controller; heard otherwise it does nothing |
| ControllerRuns.OverdueStops | src/docking_orchestration/docking_orchestration/baseline_controller.py:202-209 | An overdue answer stops the controller, exactly then |
| ControllerRuns.StoppedStaysStopped | src/docking_orchestration/docking_orchestration/baseline_controller.py:109-222 | A stopped controller requests nothing over any run until a reset starts a new one |
| ControllerRuns.RequestsAreDue | src/docking_orchestration/docking_orchestration/baseline_controller.py:211-221 | A request is sent only at the goal, running, not waiting, no reset in hand and not before the resume time |
| ControllerRuns.RequestsMeetThePermit | src/docking_orchestration/docking_orchestration/baseline_controller.py:11-25 | Controller and policy fit: whenever a stage is requested the range and the flown stage's top speed are inside the bounds of that stage's permit |
| ControllerRuns.InitialDelayStartsNothing | src/docking_orchestration/docking_orchestration/baseline_controller.py:64-75 | The controller comes up halted: whatever the initial delay it requests nothing before a reset |
| Controller.StepInRange | src/docking_orchestration/docking_orchestration/baseline_controller.py:101-222 | Each message, tick and reset keeps that range |
| Controller.StartsInRange | src/docking_orchestration/docking_orchestration/baseline_controller.py:56-74 | The controller starts in it |
| Controller.ApproachConverges | src/docking_orchestration/docking_orchestration/baseline_controller.py:181-191 | From where the call in flight takes it, after n acknowledged poses the vehicle is min(goal, x + n steps) along, and at the goal exactly from ceil(distance / step) on |
| Controller.NoOvershoot | src/docking_orchestration/docking_orchestration/baseline_controller.py:184-184 | A pose step passes its goal exactly when the step is negative and larger than the distance left |
| Controller.BaselineController.TimerUpdate | src/docking_orchestration/docking_orchestration/baseline_controller.py:202-221 | One timer tick, every path |
| Controller.BaselineController.Advance | src/docking_orchestration/docking_orchestration/baseline_controller.py:139-191 | The pose call settled and the next one sent, every path |
| Controller.BaselineController.HandleDecision | src/docking_orchestration/docking_orchestration/baseline_controller.py:109-125 | A decision is heard only while pending, and moves only to the next stage |
| Controller.BaselineController.SendRequest | src/docking_orchestration/docking_orchestration/baseline_controller.py:127-137 | A request is for the next stage, and none is made at hard dock |
| Controller.BaselineController.CheckTimeout | src/docking_orchestration/docking_orchestration/baseline_controller.py:203-209 | An answer overdue halts the controller |
| Controller.BaselineController.HandleReset | src/docking_orchestration/docking_orchestration/baseline_controller.py:101-107 | What a reset or preparation asks for |
| SessionPool.TwoSessionsTwoBackends | src/docking_orchestration/docking_orchestration/session_gateway.py:38-56 | Two sessions answered within the idle timeout are answered different backends, whatever happens in between, unless the first is released |
| SessionPool.AnswersAreLeased | src/docking_orchestration/docking_orchestration/session_gateway.py:38-56 | A backend answered is under a lease of the answered session, renewed now, held by no other; no other lease changes; the lease is new exactly when the session held none |
| SessionPool.LeasesStayExclusive | src/docking_orchestration/docking_orchestration/session_gateway.py:31-66 | Over any operations no two leases share a backend |
| SessionPool.ReleasedIsFree | src/docking_orchestration/docking_orchestration/session_gateway.py:64-66 | A released backend is under no lease and nothing else changes |
| SessionPool.RefusesExactlyWhenFull | src/docking_orchestration/docking_orchestration/session_gateway.py:38-56 | Acquire refuses exactly when the session holds no live lease and every backend is under one |
| SessionPool.SessionsAreSticky | src/docking_orchestration/docking_orchestration/session_gateway.py:38-56 | A session touched within the idle timeout keeps its backend, whatever others do |
| SessionPool.LendsInOrder | src/docking_orchestration/docking_orchestration/session_gateway.py:47-50 | The backend lent is the first free one of the list |
| SessionPool.Pool.AcquireLease | src/docking_orchestration/docking_orchestration/session_gateway.py:38-56 | Acquire, every path |
| SessionPool.Pool.Expire | src/docking_orchestration/docking_orchestration/session_gateway.py:31-36 | Exactly the leases touched within the timeout stay |
| SessionPool.Pool.Release | src/docking_orchestration/docking_orchestration/session_gateway.py:64-66 | Exactly that session's lease goes |
| SessionPool.FirstFree | src/docking_orchestration/docking_orchestration/session_gateway.py:47-50 | A backend of the list under no lease, or none when all are under one |
| SessionPool.Pool.Status | src/docking_orchestration/docking_orchestration/session_gateway.py:58-62 | Status expires first, then counts |

## Left out

- Distributed.DistributedLockstep: one run between resets; prepare, reset and run messages are not steps of the distributed system, because decisions of an earlier run are told apart from later ones only by timing. The controller's own range safety does include resets.
- EngineGuarantees.SingleUseAcrossRestarts: assumes that no commit is lost to a torn line, which is exact for each redemption; with identifiers that are drawn only once the theorem beside it needs no such condition.
- Controller.ApproachConverges: speed and rate are not negative; one clock value stands for the several clock reads of one timer tick.
- Controller.RangeSafety: over reals, so rounding at the goal is not modelled; a pose call that raises loses a reset in the source, and in the model, and the range holds regardless.
- Delivery.MissionCompletes: shows that a run to hard dock exists from every started system, not that every schedule reaches it, since the network may lose everything.
- Verifier.ClientAndGateAgree: the station's key identifier is taken as the authority name, which the station node sends as the constant "waystation-1".
- Ed25519, COSE and CBOR encodings: signatures are symbolic, and a message that does not decode is one `Garbage` value; so is a `signed_grant_hex` that is no hexadecimal.
- The Cedar parser and evaluator, its entity identifiers and the policy's SHA-256: the engine takes any evaluation function, and the five shipped permits are one such function.
- JSON and RFC 3339 parsing, loading profiles, keys and policies, and the checks made when a client trust bundle is loaded.
- `AccessEvent` texts, outcome reason strings and the engine's `scenario` field, which nothing reads.
- The station's event log, completed steps, assessments, status and display rows; the chaser's log lines.
- `access_authority.rs` and `access_signer.rs`: processes and JSON lines. A timeout of the station's client is the authority dying, possibly after it acted.
- The authority process is not restarted within one distributed run; restarts are part of the engine's own runs.
- A dictionary of readiness checks is a map; the ROS stamp arithmetic that fills `observed_at_ms` is not modelled.
- The gateway's HTTP proxy and locking, dashboard, activity logger, monitors, launch files and containers.
- Clock reads and random tokens of the session pool are parameters of its operations.
