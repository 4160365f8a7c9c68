/** One run of the distributed system: controller, chaser, station, engine and client verifier over a
    network that loses, duplicates, delays and reorders messages. */
module Distributed {
  import opened Basics
  import opened Replay
  import opened Profile
  import opened StateMachine
  import opened Protocol
  import opened Engine
  import opened EngineSteps
  import opened EngineRuns
  import opened Verifier
  import opened Nodes
  import Controller

  /** The networks only grow: a message once sent can arrive any number of times, at any time, or
      never. `high` is the highest docking state the gate has released in this run; `alive` is the
      authority process. */
  datatype System = System(
    controller: Controller.ControllerState, chaser: ChaserState, station: StationState,
    engine: EngineState, alive: bool, client: Cache,
    requests: set<int>, toStation: set<ToStation>, toChaser: set<ToChaser>, decisions: set<DecisionMsg>,
    high: nat)

  datatype Setting = Setting(cfg: EngineConfig, params: Controller.Params, bundle: ClientTrustBundle, trust: TrustStore)

  /** What the authority process does with a request: answer it; act on it and die before the answer
      arrives; or die first. */
  datatype Authority = Answers | ActsThenDies | Dies

  datatype Step =
    | Tick(ready: bool, reply: Controller.PoseReply, time: real)
    | HearDecision(decision: DecisionMsg)
    | Ask(requested: int)
    | HearStation(toChaser: ToChaser, verifier: bool, clock: i64, append: AppendOutcome)
    | Sense(evidence: Profile.Readiness)
    | HearTransition(m: ToStation, authority: Authority, now: i64, issueIo: IssueIo)
    | HearPresentation(m: ToStation, authority: Authority, now: i64, redeemIo: RedeemIo)
    | HearAccessRequest(m: ToStation, authority: Authority, now: i64, establishIo: EstablishIo)

  ghost predicate Possible(s: System, step: Step) {
    match step
    case HearDecision(d) => d in s.decisions
    case Ask(r) => r in s.requests
    case HearStation(m, _, _, _) => m in s.toChaser
    case HearTransition(m, _, _, _) => m in s.toStation && m.TransitionRequestMsg?
    case HearPresentation(m, _, _, _) => m in s.toStation && m.PresentationMsg?
    case HearAccessRequest(m, _, _, _) => m in s.toStation && m.AccessRequestMsg?
    case _ => true
  }

  function Max(a: nat, b: nat): nat {
    if a < b then b else a
  }

  /** Outside 0..255 the authority's decoder refuses before the engine sees the request. */
  predicate Decodes(requested: int) {
    0 <= requested < 256
  }

  function AuthorityIssue(setting: Setting, s: System, requested: int, step: Step)
    : (EngineState, Result<TransitionOutcome, Failure>)
    requires step.HearTransition? && s.station.readiness.Some?
  {
    if !s.alive || step.authority.Dies? then (s.engine, Err(Gone))
    else if !Decodes(requested) then (s.engine, Err(Rejected(TransitionFailed(InvalidTransition))))
    else
      var (e, r) := Issue(setting.cfg, s.engine, requested, step.now, s.station.readiness.value, step.issueIo);
      (e, if step.authority.ActsThenDies? then Err(Gone) else if r.Ok? then Ok(r.value) else Err(Rejected(r.error)))
  }

  function AuthorityRedeem(setting: Setting, s: System, requested: int, grant: Wire, step: Step)
    : (EngineState, Result<TransitionOutcome, Failure>)
    requires step.HearPresentation? && s.station.readiness.Some?
  {
    if !s.alive || step.authority.Dies? then (s.engine, Err(Gone))
    else if !Decodes(requested) then (s.engine, Err(Rejected(TransitionFailed(InvalidTransition))))
    else
      var (e, r) := Redeem(setting.cfg, s.engine, grant, requested, step.now, s.station.readiness.value, step.redeemIo);
      (e, if step.authority.ActsThenDies? then Err(Gone) else if r.Ok? then Ok(r.value) else Err(Rejected(r.error)))
  }

  function AuthorityEstablish(setting: Setting, s: System, scenario: Scenario, step: Step)
    : (EngineState, Result<SessionOutcome, Failure>)
    requires step.HearAccessRequest?
  {
    if !s.alive || step.authority.Dies? then (s.engine, Err(Gone))
    else
      var (e, r) := Establish(setting.cfg, s.engine, step.now, scenario, step.establishIo);
      (e, if step.authority.ActsThenDies? then Err(Gone) else if r.Ok? then Ok(r.value) else Err(Rejected(r.error)))
  }

  /** The chaser's own verification of a grant message. */
  function ClientVerify(setting: Setting, s: System, m: ToChaser, up: bool, clock: i64, io: AppendOutcome): (Cache, Option<Bytes>)
    requires AsksToVerify(m)
  {
    if !up then (s.client, None)
    else
      var (cache, r) := Verify(CommandFor(m.grant, setting.cfg.station.keyId, s.chaser.sessionId, STAGE_NAME[m.requested], clock),
                               setting.bundle, setting.trust, s.client, clock, io);
      (cache, if r.Ok? then Some(r.value.grantId) else None)
  }

  function StillAlive(s: System, authority: Authority): bool {
    s.alive && authority.Answers?
  }

  function HearT(setting: Setting, s: System, step: Step): System
    requires step.HearTransition? && step.m.TransitionRequestMsg?
  {
    var asked := AsksToIssue(s.station);
    var (engine, answer) := if asked then AuthorityIssue(setting, s, step.m.requested, step) else (s.engine, Err(Gone));
    var (station, decision, reply) := HandleTransitionRequest(s.station, step.m.requested, answer);
    s.(engine := engine, alive := if asked then StillAlive(s, step.authority) else s.alive, station := station,
       decisions := s.decisions + (if decision.Some? then {decision.value} else {}), toChaser := s.toChaser + {reply})
  }

  function HearP(setting: Setting, s: System, step: Step): System
    requires step.HearPresentation? && step.m.PresentationMsg?
  {
    var asked := AsksToRedeem(s.station);
    var (engine, answer) := if asked then AuthorityRedeem(setting, s, step.m.requested, step.m.grant, step) else (s.engine, Err(Gone));
    var (station, decision, reply) := HandlePresentation(s.station, step.m.grantId, answer);
    s.(engine := engine, alive := if asked then StillAlive(s, step.authority) else s.alive, station := station,
       decisions := s.decisions + {decision}, toChaser := s.toChaser + {reply},
       high := Max(s.high, StateNumber(engine.state)))
  }

  function HearA(setting: Setting, s: System, step: Step): System
    requires step.HearAccessRequest? && step.m.AccessRequestMsg?
  {
    var scenario := if step.m.scenario.Some? then step.m.scenario.value else s.station.scenario;
    var (engine, answer) := AuthorityEstablish(setting, s, scenario, step);
    var (station, reply) := HandleAccessRequest(s.station, step.m.scenario, answer);
    s.(engine := engine, alive := StillAlive(s, step.authority), station := station, toChaser := s.toChaser + {reply})
  }

  function HearC(setting: Setting, s: System, step: Step): System
    requires step.HearStation?
  {
    var (client, verified) :=
      if AsksToVerify(step.toChaser) then ClientVerify(setting, s, step.toChaser, step.verifier, step.clock, step.append)
      else (s.client, None);
    var (chaser, out) := OnStationMessage(s.chaser, step.toChaser, verified);
    s.(chaser := chaser, client := client, toStation := s.toStation + (if out.Some? then {out.value} else {}))
  }

  ghost function Next(setting: Setting, s: System, step: Step): System
    requires setting.params.rate > 0.0 && Controller.Wired(s.controller)
    requires Possible(s, step)
  {
    match step
    case Tick(ready, reply, time) =>
      var (c, requested) := Controller.Update(setting.params, s.controller, ready, reply, time);
      s.(controller := c, requests := s.requests + (if requested.Some? then {requested.value} else {}))
    case HearDecision(d) => s.(controller := Controller.OnDecision(s.controller, d.approved, d.resulting))
    case Ask(r) =>
      var (c, m) := OnTransitionRequest(s.chaser, r);
      s.(chaser := c, toStation := s.toStation + {m})
    case HearStation(_, _, _, _) => HearC(setting, s, step)
    case Sense(evidence) => s.(station := s.station.(readiness := Some(evidence)))
    case HearTransition(_, _, _, _) => HearT(setting, s, step)
    case HearPresentation(_, _, _, _) => HearP(setting, s, step)
    case HearAccessRequest(_, _, _, _) => HearA(setting, s, step)
  }

  /** The stage a message asks for, if it asks for one. */
  function Wanted(m: ToStation): int {
    match m
    case TransitionRequestMsg(requested, _, _) => requested
    case PresentationMsg(requested, _, _, _) => requested
    case AccessRequestMsg(_) => 0
  }

  function Offered(m: ToChaser): int {
    match m
    case GrantMsg(_, requested, _, _) => requested
    case _ => 0
  }

  ghost predicate MessagesBounded(s: System, bound: int) {
    && (forall r | r in s.requests :: r <= bound)
    && (forall m | m in s.toStation :: Wanted(m) <= bound)
    && (forall m | m in s.toChaser :: Offered(m) <= bound)
    && (forall g | g in s.engine.pending :: s.engine.pending[g].requestedState as int <= bound)
  }

  /** The controller is at most at what the gate released and at most one behind it; nothing in
      flight, and no pending entitlement, is for more than the controller's next stage. */
  ghost predicate Lockstep(setting: Setting, s: System) {
    && Core(setting.cfg, s.engine)
    && Controller.Wired(s.controller)
    && !s.controller.resetRequested && !s.controller.resetPosePending
    && s.controller.state <= s.high <= s.controller.state + 1
    && StateNumber(s.engine.state) <= s.high
    && s.station.state <= s.high
    && MessagesBounded(s, s.controller.state + 1)
    && (forall d | d in s.decisions && d.approved :: d.resulting <= s.high)
  }

  /** The beginning of a run, after the establishment: everybody at hold, nothing requested yet. Session
      messages, refusals and copies of the access request may still be in flight. */
  ghost predicate Begins(setting: Setting, s: System) {
    && Core(setting.cfg, s.engine) && s.engine.state == DockingState.Hold && s.engine.pending == map[]
    && Controller.Wired(s.controller) && !s.controller.resetRequested && !s.controller.resetPosePending
    && s.controller.state == 0 && s.station.state == 0 && s.high == 0
    && s.requests == {}
    && (forall m | m in s.toStation :: m.AccessRequestMsg?)
    && (forall m | m in s.toChaser :: !m.GrantMsg?)
    && (forall d | d in s.decisions :: !d.approved)
  }

  lemma TickKeepsStage(p: Controller.Params, c: Controller.ControllerState, ready: bool, reply: Controller.PoseReply, time: real)
    requires p.rate > 0.0 && Controller.Wired(c) && !c.resetRequested && !c.resetPosePending
    ensures var (c', requested) := Controller.Update(p, c, ready, reply, time);
            && Controller.Wired(c') && !c'.resetRequested && !c'.resetPosePending && c'.state == c.state
            && (requested.Some? ==> requested.value == c.state + 1)
  {
  }

  lemma IssueAddsOnlyThatStage(cfg: EngineConfig, s: EngineState, requested: byte, now: i64, readiness: Readiness, io: IssueIo)
    ensures var s' := Issue(cfg, s, requested, now, readiness, io).0;
            && s'.state == s.state
            && forall g | g in s'.pending ::
                 s'.pending[g].requestedState == requested || (g in s.pending && s'.pending[g] == s.pending[g])
  {
    hide Issue, IssuedWell;
    IssueEffect(cfg, s, requested, now, readiness, io);
  }

  lemma TransitionKeepsLockstep(setting: Setting, s: System, step: Step)
    requires Lockstep(setting, s) && step.HearTransition? && Possible(s, step)
    ensures Lockstep(setting, HearT(setting, s, step))
    ensures HearT(setting, s, step).engine.state == s.engine.state && HearT(setting, s, step).high == s.high
  {
    hide Issue, Core;
    var requested := step.m.requested;
    assert Wanted(step.m) <= s.controller.state + 1;
    if AsksToIssue(s.station) && s.alive && !step.authority.Dies? && Decodes(requested) {
      IssueAddsOnlyThatStage(setting.cfg, s.engine, requested, step.now, s.station.readiness.value, step.issueIo);
      CoreIssue(setting.cfg, s.engine, requested, step.now, s.station.readiness.value, step.issueIo);
    }
  }

  lemma PresentationKeepsLockstep(setting: Setting, s: System, step: Step)
    requires Lockstep(setting, s) && step.HearPresentation? && Possible(s, step)
    ensures Lockstep(setting, HearP(setting, s, step))
    ensures s.high == StateNumber(s.engine.state) ==>
              HearP(setting, s, step).high == StateNumber(HearP(setting, s, step).engine.state)
  {
    hide Redeem, MayRelease;
    var requested := step.m.requested;
    assert Wanted(step.m) <= s.controller.state + 1;
    if AsksToRedeem(s.station) && s.alive && !step.authority.Dies? && Decodes(requested) {
      RedeemEffect(setting.cfg, s.engine, step.m.grant, requested, step.now, s.station.readiness.value, step.redeemIo);
      CoreRedeem(setting.cfg, s.engine, step.m.grant, requested, step.now, s.station.readiness.value, step.redeemIo);
    }
  }

  lemma AccessRequestKeepsLockstep(setting: Setting, s: System, step: Step)
    requires Lockstep(setting, s) && step.HearAccessRequest? && Possible(s, step)
    ensures Lockstep(setting, HearA(setting, s, step))
  {
    hide Establish;
    var scenario := if step.m.scenario.Some? then step.m.scenario.value else s.station.scenario;
    if s.alive && !step.authority.Dies? {
      EstablishEffect(setting.cfg, s.engine, step.now, scenario, step.establishIo);
      CoreEstablish(setting.cfg, s.engine, step.now, scenario, step.establishIo);
    }
  }

  lemma LockstepStep(setting: Setting, s: System, step: Step)
    requires setting.params.rate > 0.0 && Lockstep(setting, s) && Possible(s, step)
    ensures Lockstep(setting, Next(setting, s, step))
    ensures !step.HearAccessRequest? && s.high == StateNumber(s.engine.state) ==>
              Next(setting, s, step).high == StateNumber(Next(setting, s, step).engine.state)
  {
    hide HearT, HearP, HearA, Core, Controller.Update, ClientVerify;
    match step
    case Tick(ready, reply, time) => TickKeepsStage(setting.params, s.controller, ready, reply, time);
    case HearTransition(_, _, _, _) => TransitionKeepsLockstep(setting, s, step);
    case HearPresentation(_, _, _, _) => PresentationKeepsLockstep(setting, s, step);
    case HearAccessRequest(_, _, _, _) => AccessRequestKeepsLockstep(setting, s, step);
    case _ =>
  }

  ghost predicate IsRun(setting: Setting, s: System, steps: seq<Step>)
    requires setting.params.rate > 0.0
    decreases |steps|
  {
    steps != [] ==>
      && Controller.Wired(s.controller) && Possible(s, steps[0])
      && IsRun(setting, Next(setting, s, steps[0]), steps[1..])
  }

  ghost function After(setting: Setting, s: System, steps: seq<Step>): System
    requires setting.params.rate > 0.0 && IsRun(setting, s, steps)
    decreases |steps|
  {
    if steps == [] then s else After(setting, Next(setting, s, steps[0]), steps[1..])
  }

  lemma {:induction false} LockstepRun(setting: Setting, s: System, steps: seq<Step>)
    requires setting.params.rate > 0.0 && IsRun(setting, s, steps) && Lockstep(setting, s)
    ensures Lockstep(setting, After(setting, s, steps))
    ensures s.high == StateNumber(s.engine.state) && (forall k | 0 <= k < |steps| :: !steps[k].HearAccessRequest?) ==>
              After(setting, s, steps).high == StateNumber(After(setting, s, steps).engine.state)
    decreases |steps|
  {
    if steps != [] {
      LockstepStep(setting, s, steps[0]);
      assert forall k | 0 <= k < |steps[1..]| :: steps[1..][k] == steps[k + 1];
      LockstepRun(setting, Next(setting, s, steps[0]), steps[1..]);
    }
  }

  /** Over any run, under any loss, duplication, delay and reordering and any death of the authority:
      the controller has entered only stages the gate released, and the gate is at most one ahead. When
      no copy of the access request is delivered in the run, that is a statement about the engine's
      present state: controller <= engine <= controller + 1, and station <= engine. */
  lemma DistributedLockstep(setting: Setting, s: System, steps: seq<Step>)
    requires setting.params.rate > 0.0 && IsRun(setting, s, steps) && Begins(setting, s)
    ensures var end := After(setting, s, steps);
            && end.controller.state <= end.high <= end.controller.state + 1
            && StateNumber(end.engine.state) <= end.high && end.station.state <= end.high
            && ((forall k | 0 <= k < |steps| :: !steps[k].HearAccessRequest?) ==>
                  && end.controller.state <= StateNumber(end.engine.state) <= end.controller.state + 1
                  && end.station.state <= StateNumber(end.engine.state))
  {
    LockstepRun(setting, s, steps);
  }

  // ------------------------------------------------------------------ exactly in step

  /** The three copies of the docking state are in step. */
  predicate InStep(s: System) {
    && s.controller.state <= StateNumber(s.engine.state) <= s.controller.state + 1
    && s.station.state <= StateNumber(s.engine.state)
  }

  /** In step and able to stay so: the engine is at the highest stage released, and while the authority
      lives the station knows it. */
  ghost predicate Together(setting: Setting, s: System) {
    && Lockstep(setting, s) && s.high == StateNumber(s.engine.state)
    && (s.alive ==> s.station.state == StateNumber(s.engine.state))
  }

  /** The authority acts on a copy of the access request after the gate has released a stage. What it
      needs is the step and two fields. */
  predicate RestartsLate(s: System, step: Step) {
    step.HearAccessRequest? && s.alive && !step.authority.Dies? && s.high > 0
  }

  lemma BeginsTogether(setting: Setting, s: System)
    requires Begins(setting, s)
    ensures Together(setting, s) && AllVetted(setting, s)
  {
  }

  lemma PresentationKeepsTogether(setting: Setting, s: System, step: Step)
    requires Together(setting, s) && step.HearPresentation? && Possible(s, step)
    ensures Together(setting, HearP(setting, s, step))
  {
    PresentationKeepsLockstep(setting, s, step);
    hide Redeem, MayRelease, Core, Lockstep;
    var requested := step.m.requested;
    if AsksToRedeem(s.station) && s.alive && !step.authority.Dies? && Decodes(requested) {
      assert Authorized(s.engine) by {
        CoreAuthorized(setting, s);
      }
      RedeemEffect(setting.cfg, s.engine, step.m.grant, requested, step.now, s.station.readiness.value, step.redeemIo);
    }
  }

  lemma CoreAuthorized(setting: Setting, s: System)
    requires Lockstep(setting, s)
    ensures Authorized(s.engine)
  {
  }

  /** A copy of the access request that the authority acts on takes the engine back to hold. The system
      falls out of step in that very step exactly when the gate had released a stage; the controller
      alone is then ahead of the engine exactly when it had itself entered one. */
  lemma LateAccessRequest(setting: Setting, s: System, step: Step)
    requires setting.params.rate > 0.0 && Together(setting, s) && Possible(s, step)
    requires step.HearAccessRequest? && s.alive && !step.authority.Dies?
    ensures var end := Next(setting, s, step);
            && (RestartsLate(s, step) <==> !InStep(end))
            && (!RestartsLate(s, step) ==> Together(setting, end))
            && (end.controller.state <= StateNumber(end.engine.state) <==> s.controller.state == 0)
  {
    hide HearA, Core, MessagesBounded;
    AccessRequestKeepsLockstep(setting, s, step);
    RequestRestarts(setting, s, step);
  }

  lemma RequestRestarts(setting: Setting, s: System, step: Step)
    requires step.HearAccessRequest? && step.m.AccessRequestMsg? && s.alive && !step.authority.Dies?
    ensures var end := HearA(setting, s, step);
            && end.engine.state == DockingState.Hold && end.station.state == s.station.state
            && end.controller == s.controller && end.high == s.high
  {
    hide Establish, NoNewGrant;
    var scenario := if step.m.scenario.Some? then step.m.scenario.value else s.station.scenario;
    EstablishEffect(setting.cfg, s.engine, step.now, scenario, step.establishIo);
  }

  /** The exact condition, step by step: a step leads out of step exactly when it restarts late, and every
      other step keeps everybody together. */
  lemma InStepExactly(setting: Setting, s: System, step: Step)
    requires setting.params.rate > 0.0 && Together(setting, s) && Possible(s, step)
    ensures InStep(s)
    ensures RestartsLate(s, step) <==> !InStep(Next(setting, s, step))
    ensures !RestartsLate(s, step) ==> Together(setting, Next(setting, s, step))
  {
    LockstepStep(setting, s, step);
    match step
    case HearAccessRequest(_, _, _, _) =>
      if s.alive && !step.authority.Dies? {
        LateAccessRequest(setting, s, step);
      } else {
        hide Establish, Core;
      }
    case HearPresentation(_, _, _, _) => PresentationKeepsTogether(setting, s, step);
    case HearTransition(_, _, _, _) =>
      TransitionKeepsLockstep(setting, s, step);
      hide Issue, Core;
    case _ =>
      hide Core, ClientVerify, Controller.Update;
      KeepsEngineAndStation(setting, s, step);
  }

  lemma KeepsEngineAndStation(setting: Setting, s: System, step: Step)
    requires setting.params.rate > 0.0 && Controller.Wired(s.controller) && Possible(s, step)
    requires !step.HearAccessRequest? && !step.HearPresentation? && !step.HearTransition?
    ensures var end := Next(setting, s, step);
            && end.engine == s.engine && end.alive == s.alive && end.high == s.high
            && end.station == s.station.(readiness := end.station.readiness)
  {
    hide ClientVerify, Controller.Update;
  }

  /** Every state of the run is in step. */
  ghost predicate InStepThroughout(setting: Setting, s: System, steps: seq<Step>)
    requires setting.params.rate > 0.0 && IsRun(setting, s, steps)
    decreases |steps|
  {
    InStep(s) && (steps != [] ==> InStepThroughout(setting, Next(setting, s, steps[0]), steps[1..]))
  }

  /** No step of the run restarts late. */
  ghost predicate NeverRestartsLate(setting: Setting, s: System, steps: seq<Step>)
    requires setting.params.rate > 0.0 && IsRun(setting, s, steps)
    decreases |steps|
  {
    steps != [] ==> !RestartsLate(s, steps[0]) && NeverRestartsLate(setting, Next(setting, s, steps[0]), steps[1..])
  }

  /** Over any run, under any loss, duplication, delay and reordering and any death of the authority: all
      of controller <= engine <= controller + 1 and station <= engine hold at every moment exactly when
      the authority acts on no copy of the access request once the gate has released a stage. */
  lemma {:induction false} InStepRun(setting: Setting, s: System, steps: seq<Step>)
    requires setting.params.rate > 0.0 && IsRun(setting, s, steps) && Together(setting, s)
    ensures InStepThroughout(setting, s, steps) <==> NeverRestartsLate(setting, s, steps)
    ensures NeverRestartsLate(setting, s, steps) ==> Together(setting, After(setting, s, steps))
    decreases |steps|
  {
    hide InStep, RestartsLate, Together;
    if steps == [] {
      TogetherInStep(setting, s);
    } else {
      InStepExactly(setting, s, steps[0]);
      if RestartsLate(s, steps[0]) {
        OutOfStep(setting, Next(setting, s, steps[0]), steps[1..]);
      } else {
        InStepRun(setting, Next(setting, s, steps[0]), steps[1..]);
      }
    }
  }

  lemma TogetherInStep(setting: Setting, s: System)
    requires Together(setting, s)
    ensures InStep(s)
  {
  }

  lemma OutOfStep(setting: Setting, s: System, steps: seq<Step>)
    requires setting.params.rate > 0.0 && IsRun(setting, s, steps) && !InStep(s)
    ensures !InStepThroughout(setting, s, steps)
  {
  }

  // ------------------------------------------------------------------ presentations

  /** The chaser's own verifier has accepted this presentation: a grant under a key of its trust store,
      for the presented session and stage, whose nonce it has spent. */
  ghost predicate Vetted(setting: Setting, client: Cache, m: ToStation) {
    m.PresentationMsg? ==>
      && m.requested in STAGE_NAME
      && m.grant.CoseSign1? && m.grant.payload.Some? && m.grant.payload.value.Envelope?
      && var claims := ClaimsOf(m.grant);
      && claims.messageType == AuthorizationGrant
      && claims.recipient == setting.bundle.clientId && claims.issuer == setting.cfg.station.keyId
      && claims.issuer in setting.trust && m.grant.signature.key == setting.trust[claims.issuer]
      && claims.sessionId == m.sessionId && claims.grantId == Some(m.grantId)
      && claims.authorizedStage.Some? && StageName(claims.authorizedStage.value) == STAGE_NAME[m.requested]
      && claims.nonce in client.consumed
  }

  ghost predicate AllVetted(setting: Setting, s: System) {
    forall m | m in s.toStation :: Vetted(setting, s.client, m)
  }

  /** What the client's acceptance says about the envelope. */
  lemma AcceptedByClient(setting: Setting, s: System, m: ToChaser, clock: i64, io: AppendOutcome)
    requires AsksToVerify(m)
    ensures var (client, verified) := ClientVerify(setting, s, m, true, clock, io);
            && s.client.consumed <= client.consumed
            && (verified.Some? ==> Vetted(setting, client, PresentationMsg(m.requested, s.chaser.sessionId, verified.value, m.grant)))
  {
    OnlyAcceptedSpend(m.grant, setting.trust, setting.bundle.clientId, s.client, clock, MAX_CLOCK_SKEW, io);
    AcceptedEnvelopes(m.grant, setting.trust, setting.bundle.clientId, clock, MAX_CLOCK_SKEW);
    hide CheckEnvelope, TrustsAuthority;
  }

  lemma VettedStep(setting: Setting, s: System, step: Step)
    requires setting.params.rate > 0.0 && Controller.Wired(s.controller) && Possible(s, step) && AllVetted(setting, s)
    ensures AllVetted(setting, Next(setting, s, step))
  {
    hide ClientVerify, Issue, Redeem, Establish, Vetted, Controller.Update;
    if step.HearStation? {
      var m := step.toChaser;
      if AsksToVerify(m) && step.verifier {
        AcceptedByClient(setting, s, m, step.clock, step.append);
      }
      ClientDown(setting, s, step);
      var after := Next(setting, s, step);
      forall p | p in after.toStation
        ensures Vetted(setting, after.client, p)
      {
        if p in s.toStation {
          VettedGrows(setting, s.client, after.client, p);
        }
      }
    } else {
      NewRequestsAreVetted(setting, s, step);
    }
  }

  lemma ClientDown(setting: Setting, s: System, step: Step)
    requires step.HearStation?
    ensures !(AsksToVerify(step.toChaser) && step.verifier) ==> HearC(setting, s, step).client == s.client
    ensures !(AsksToVerify(step.toChaser) && step.verifier) ==> HearC(setting, s, step).toStation == s.toStation
  {
  }

  lemma VettedGrows(setting: Setting, client: Cache, after: Cache, m: ToStation)
    requires Vetted(setting, client, m) && client.consumed <= after.consumed
    ensures Vetted(setting, after, m)
  {
  }

  lemma NewRequestsAreVetted(setting: Setting, s: System, step: Step)
    requires setting.params.rate > 0.0 && Controller.Wired(s.controller) && Possible(s, step) && !step.HearStation?
    ensures var after := Next(setting, s, step);
            && after.client == s.client
            && forall m | m in after.toStation && m !in s.toStation :: Vetted(setting, after.client, m)
  {
    hide Issue, Redeem, Establish, Controller.Update;
  }

  /** Over any run: whatever the network delivers to the chaser, it presents to the station only grants
      its own verifier accepted, in the session it is in, for the stage that was offered. */
  lemma {:induction false} PresentationsAreVetted(setting: Setting, s: System, steps: seq<Step>)
    requires setting.params.rate > 0.0 && IsRun(setting, s, steps) && AllVetted(setting, s)
    ensures AllVetted(setting, After(setting, s, steps))
    decreases |steps|
  {
    hide AllVetted;
    if steps != [] {
      VettedStep(setting, s, steps[0]);
      PresentationsAreVetted(setting, Next(setting, s, steps[0]), steps[1..]);
    }
  }

  // ------------------------------------------------------------------ verified before accepted

  /** The chaser has presented a grant for this stage. */
  ghost predicate Presented(s: System, stage: int) {
    exists m :: m in s.toStation && m.PresentationMsg? && m.requested == stage
  }

  /** The same, and the chaser's own verifier accepted that grant. */
  ghost predicate VerifiedByClient(setting: Setting, s: System, stage: int) {
    exists m :: m in s.toStation && m.PresentationMsg? && m.requested == stage && Vetted(setting, s.client, m)
  }

  ghost predicate AnswersPresentations(s: System) {
    && (forall d | d in s.decisions && d.approved :: Presented(s, d.resulting))
    && (forall k | 1 <= k <= s.controller.state :: Presented(s, k))
  }

  lemma PresentedGrows(s: System, s': System, stage: int)
    requires Presented(s, stage) && s.toStation <= s'.toStation
    ensures Presented(s', stage)
  {
  }

  lemma MessagesStay(setting: Setting, s: System, step: Step)
    requires setting.params.rate > 0.0 && Controller.Wired(s.controller) && Possible(s, step)
    ensures var end := Next(setting, s, step);
            && s.toStation <= end.toStation && s.decisions <= end.decisions
            && (!step.HearDecision? ==> end.controller.state == s.controller.state || step.Tick?)
            && (!step.HearTransition? && !step.HearPresentation? ==> end.decisions == s.decisions)
  {
    hide Issue, Redeem, Establish, ClientVerify, Controller.Update;
  }

  /** Any decision added by a request is a refusal; one added by a presentation, if it approves, names the
      stage that was presented. */
  lemma NewDecisions(setting: Setting, s: System, step: Step)
    requires setting.params.rate > 0.0 && Lockstep(setting, s) && Possible(s, step)
    requires step.HearTransition? || step.HearPresentation?
    ensures var end := Next(setting, s, step);
            && end.controller == s.controller
            && forall d | d in end.decisions && d !in s.decisions && d.approved ::
                 step.HearPresentation? && d.resulting == step.m.requested
  {
    hide Issue, Redeem, MayRelease, Core;
    if step.HearPresentation? && AsksToRedeem(s.station) && s.alive && !step.authority.Dies? && Decodes(step.m.requested) {
      assert Authorized(s.engine) by {
        CoreAuthorized(setting, s);
      }
      RedeemEffect(setting.cfg, s.engine, step.m.grant, step.m.requested, step.now, s.station.readiness.value, step.redeemIo);
    }
  }

  lemma AnswersStep(setting: Setting, s: System, step: Step)
    requires setting.params.rate > 0.0 && Lockstep(setting, s) && Possible(s, step) && AnswersPresentations(s)
    ensures AnswersPresentations(Next(setting, s, step))
  {
    var end := Next(setting, s, step);
    MessagesStay(setting, s, step);
    if step.HearTransition? || step.HearPresentation? {
      NewDecisions(setting, s, step);
    }
    if step.Tick? {
      TickKeepsStage(setting.params, s.controller, step.ready, step.reply, step.time);
    }
    hide Next, Core, Controller.Update, Lockstep;
    forall d | d in end.decisions && d.approved
      ensures Presented(end, d.resulting)
    {
      if d in s.decisions {
        PresentedGrows(s, end, d.resulting);
      } else {
        assert step.m in end.toStation && step.m.PresentationMsg? && step.m.requested == d.resulting;
      }
    }
    forall k | 1 <= k <= end.controller.state
      ensures Presented(end, k)
    {
      if k <= s.controller.state {
        PresentedGrows(s, end, k);
      } else {
        EntersWhatWasDecided(setting, s, step);
        PresentedGrows(s, end, k);
      }
    }
  }

  lemma EntersWhatWasDecided(setting: Setting, s: System, step: Step)
    requires setting.params.rate > 0.0 && Lockstep(setting, s) && Possible(s, step)
    requires s.controller.state < Next(setting, s, step).controller.state
    ensures step.HearDecision? && step.decision in s.decisions && step.decision.approved
    ensures Next(setting, s, step).controller.state == step.decision.resulting == s.controller.state + 1
  {
    MessagesStay(setting, s, step);
    if step.Tick? {
      TickKeepsStage(setting.params, s.controller, step.ready, step.reply, step.time);
    }
  }

  lemma {:induction false} AnswersRun(setting: Setting, s: System, steps: seq<Step>)
    requires setting.params.rate > 0.0 && IsRun(setting, s, steps) && Lockstep(setting, s) && AnswersPresentations(s)
    ensures AnswersPresentations(After(setting, s, steps))
    decreases |steps|
  {
    hide Lockstep, AnswersPresentations;
    if steps != [] {
      LockstepStep(setting, s, steps[0]);
      AnswersStep(setting, s, steps[0]);
      AnswersRun(setting, Next(setting, s, steps[0]), steps[1..]);
    }
  }

  /** The client verifies before a decision is accepted: over any run, each stage the controller has
      entered, and each stage an approval in flight is about to let it enter, is one for which the chaser
      presented a signed grant that its own verifier had accepted. */
  lemma ClientVerifiedEveryStage(setting: Setting, s: System, steps: seq<Step>)
    requires setting.params.rate > 0.0 && IsRun(setting, s, steps) && Begins(setting, s)
    ensures var end := After(setting, s, steps);
            && (forall k | 1 <= k <= end.controller.state :: VerifiedByClient(setting, end, k))
            && (forall d | d in end.decisions && d.approved :: VerifiedByClient(setting, end, d.resulting))
  {
    BeginsTogether(setting, s);
    AnswersRun(setting, s, steps);
    PresentationsAreVetted(setting, s, steps);
    var end := After(setting, s, steps);
    hide Begins, After, IsRun, Vetted, Together;
    forall k | Presented(end, k)
      ensures VerifiedByClient(setting, end, k)
    {
      var m :| m in end.toStation && m.PresentationMsg? && m.requested == k;
      assert Vetted(setting, end.client, m);
    }
  }
}
