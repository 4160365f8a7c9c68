/** The engine's history behind the controller's stage, over the whole network. */
module DistributedHistory {
  import opened Basics
  import opened Cedar
  import opened StateMachine
  import opened Protocol
  import opened Engine
  import opened EngineSteps
  import opened EngineRuns
  import opened EngineGuarantees
  import opened Nodes
  import opened Distributed
  import Controller

  /** A signature of the station's key on this message was made by the engine. */
  predicate Genuine(setting: Setting, signed: set<Signature>, w: Wire) {
    w.CoseSign1? && w.signature.key == setting.cfg.station.key ==> w.signature in signed
  }

  function GrantOf(m: ToChaser): Wire {
    if m.GrantMsg? then m.grant else Garbage
  }

  function PresentedWire(m: ToStation): Wire {
    if m.PresentationMsg? then m.grant else Garbage
  }

  /** Every grant in flight is genuine. Nobody forges here: the nodes only pass on what they were sent. */
  ghost predicate AllGenuine(setting: Setting, s: System) {
    && (forall m | m in s.toChaser :: Genuine(setting, s.engine.signed, GrantOf(m)))
    && (forall m | m in s.toStation :: Genuine(setting, s.engine.signed, PresentedWire(m)))
  }

  /** The engine's signatures only grow, and a grant message it adds to the network is signed. */
  lemma SignedGrows(setting: Setting, s: System, step: Step)
    requires setting.params.rate > 0.0 && Lockstep(setting, s) && Possible(s, step)
    ensures s.engine.signed <= Next(setting, s, step).engine.signed
  {
    hide Core;
    match step
    case HearTransition(m, authority, now, io) =>
      hide Issue;
      if AsksToIssue(s.station) && s.alive && !authority.Dies? && Decodes(m.requested) {
        IssueEffect(setting.cfg, s.engine, m.requested, now, s.station.readiness.value, io);
      }
    case HearPresentation(m, authority, now, io) =>
      hide Redeem, MayRelease;
      if AsksToRedeem(s.station) && s.alive && !authority.Dies? && Decodes(m.requested) {
        assert Authorized(s.engine) by {
          CoreAuthorized(setting, s);
        }
        RedeemEffect(setting.cfg, s.engine, m.grant, m.requested, now, s.station.readiness.value, io);
      }
    case HearAccessRequest(m, authority, now, io) =>
      hide Establish;
      if s.alive && !authority.Dies? {
        var scenario := if m.scenario.Some? then m.scenario.value else s.station.scenario;
        EstablishEffect(setting.cfg, s.engine, now, scenario, io);
      }
    case _ =>
      hide ClientVerify, Controller.Update;
  }

  lemma NewWiresAreGenuine(setting: Setting, s: System, step: Step)
    requires setting.params.rate > 0.0 && Lockstep(setting, s) && Possible(s, step) && AllGenuine(setting, s)
    ensures var end := Next(setting, s, step);
            && (forall m | m in end.toChaser && m !in s.toChaser :: Genuine(setting, end.engine.signed, GrantOf(m)))
            && (forall m | m in end.toStation && m !in s.toStation :: Genuine(setting, end.engine.signed, PresentedWire(m)))
  {
    hide Core, Lockstep;
    match step
    case HearTransition(m, authority, now, io) =>
      hide Issue, IssuedWell;
      if AsksToIssue(s.station) && s.alive && !authority.Dies? && Decodes(m.requested) {
        IssueEffect(setting.cfg, s.engine, m.requested, now, s.station.readiness.value, io);
      }
    case HearPresentation(_, _, _, _) => hide Redeem;
    case HearAccessRequest(_, _, _, _) => hide Establish;
    case HearStation(m, _, _, _) =>
      hide ClientVerify;
      assert Genuine(setting, s.engine.signed, GrantOf(m));
    case _ => hide Controller.Update;
  }

  lemma GenuineStep(setting: Setting, s: System, step: Step)
    requires setting.params.rate > 0.0 && Lockstep(setting, s) && Possible(s, step) && AllGenuine(setting, s)
    ensures AllGenuine(setting, Next(setting, s, step))
  {
    SignedGrows(setting, s, step);
    NewWiresAreGenuine(setting, s, step);
    hide Lockstep, Next;
  }

  /** The one assumption on randomness: a session identifier drawn is new. */
  ghost predicate NewSession(s: System, step: Step) {
    step.HearAccessRequest? && step.establishIo.session.Some? ==>
      SessionIdOf(step.establishIo.session.value) !in Sessions(s.engine.log)
  }

  ghost predicate Historic(setting: Setting, s: System) {
    AllGenuine(setting, s) && Traced(setting.cfg, s.engine) && Paced(s.engine.log)
  }

  /** The engine of the next state is the engine after one of its own calls, or unchanged. */
  lemma EngineCalls(setting: Setting, s: System, step: Step) returns (ops: seq<Op>)
    requires setting.params.rate > 0.0 && Lockstep(setting, s) && Possible(s, step)
    requires AllGenuine(setting, s) && NewSession(s, step)
    ensures |ops| <= 1
    ensures ops != [] ==> Apply(setting.cfg, s.engine, ops[0]).Some? && Honest(setting.cfg, s.engine, ops[0])
    ensures Next(setting, s, step).engine == if ops == [] then s.engine else Apply(setting.cfg, s.engine, ops[0]).value
  {
    hide Core, Lockstep, Issue, Redeem, Establish, ClientVerify, Controller.Update;
    ops := [];
    match step {
      case HearTransition(m, authority, now, io) =>
        if AsksToIssue(s.station) && s.alive && !authority.Dies? && Decodes(m.requested) {
          ops := [DoIssue(m.requested, now, s.station.readiness.value, io)];
        }
      case HearPresentation(m, authority, now, io) =>
        assert Genuine(setting, s.engine.signed, PresentedWire(m));
        if AsksToRedeem(s.station) && s.alive && !authority.Dies? && Decodes(m.requested) {
          ops := [DoRedeem(m.grant, m.requested, now, s.station.readiness.value, io)];
        }
      case HearAccessRequest(m, authority, now, io) =>
        if s.alive && !authority.Dies? {
          ops := [DoEstablish(now, if m.scenario.Some? then m.scenario.value else s.station.scenario, io)];
        }
      case _ =>
    }
  }

  lemma HistoricStep(setting: Setting, s: System, step: Step)
    requires setting.params.rate > 0.0 && Lockstep(setting, s) && Possible(s, step)
    requires Historic(setting, s) && NewSession(s, step) && GateTrustsStation(setting.cfg)
    ensures Historic(setting, Next(setting, s, step))
  {
    GenuineStep(setting, s, step);
    var ops := EngineCalls(setting, s, step);
    assert Core(setting.cfg, s.engine);
    hide Next, Apply, Trace, Paced, AllGenuine, Honest, Lockstep, Core;
    if ops != [] {
      OneHonestCall(setting, s, ops[0]);
    }
  }

  lemma OneHonestCall(setting: Setting, s: System, op: Op)
    requires Core(setting.cfg, s.engine) && Traced(setting.cfg, s.engine) && Paced(s.engine.log)
    requires GateTrustsStation(setting.cfg) && Apply(setting.cfg, s.engine, op).Some? && Honest(setting.cfg, s.engine, op)
    ensures var e := Apply(setting.cfg, s.engine, op).value;
            Traced(setting.cfg, e) && Paced(e.log)
  {
    PacedStep(setting.cfg, s.engine, op);
    hide Apply, Trace, Paced, Honest, Core;
    OneCall(setting, s.engine, op);
    CausalHistory(setting.cfg, s.engine, [op]);
  }

  lemma OneCall(setting: Setting, e: EngineState, op: Op)
    ensures Run(setting.cfg, e, [op]) == Apply(setting.cfg, e, op)
    ensures Honest(setting.cfg, e, op) ==> HonestRun(setting.cfg, e, [op])
  {
    hide Apply, Honest;
    var ops := [op];
    assert ops[1..] == [];
  }

  ghost predicate NewSessions(setting: Setting, s: System, steps: seq<Step>)
    requires setting.params.rate > 0.0 && IsRun(setting, s, steps)
    decreases |steps|
  {
    steps != [] ==> NewSession(s, steps[0]) && NewSessions(setting, Next(setting, s, steps[0]), steps[1..])
  }

  lemma {:induction false} HistoricRun(setting: Setting, s: System, steps: seq<Step>)
    requires setting.params.rate > 0.0 && IsRun(setting, s, steps) && Lockstep(setting, s)
    requires Historic(setting, s) && NewSessions(setting, s, steps) && GateTrustsStation(setting.cfg)
    ensures Historic(setting, After(setting, s, steps))
    decreases |steps|
  {
    hide Lockstep, Historic, NewSession;
    if steps != [] {
      LockstepStep(setting, s, steps[0]);
      HistoricStep(setting, s, steps[0]);
      HistoricRun(setting, Next(setting, s, steps[0]), steps[1..]);
    }
  }

  /** Safety end to end. In a run in which no access request restarts late, a controller at stage n has
      behind it, in the engine's history and in order, n grants issued and redeemed for the stages 1 to n,
      each redeemed before the next was issued, each issued on evidence that met that stage's permit, and
      each verified by the client. No assumption on signatures: what is in flight was signed by the engine. */
  lemma ControllerStagesArePermitted(setting: Setting, s: System, steps: seq<Step>) returns (issues: seq<int>, js: seq<int>)
    requires setting.params.rate > 0.0 && IsRun(setting, s, steps) && Begins(setting, s)
    requires Traced(setting.cfg, s.engine) && Paced(s.engine.log)
    requires GateTrustsStation(setting.cfg) && NewSessions(setting, s, steps) && NeverRestartsLate(setting, s, steps)
    requires setting.cfg.policy.evaluate == Commercial(setting.cfg.station.keyId) && StandardActions(setting.cfg)
    ensures var end := After(setting, s, steps);
            var log := end.engine.log;
            && |issues| == |js| == end.controller.state
            && (forall k | 0 <= k < |js| :: Pair(setting.cfg, log, issues[k], js[k], k) && MetPermit(log, issues[k], k))
            && (forall k | 0 < k < |js| :: js[k - 1] < issues[k])
            && (forall k | 1 <= k <= |js| :: VerifiedByClient(setting, end, k))
  {
    hide After, IsRun, NewSessions, NeverRestartsLate, Pair, MetPermit, VerifiedByClient, StandardActions, Commercial, Core, Paced,
         Trace, AllGenuine;
    BeginsTogether(setting, s);
    BeginsGenuine(setting, s);
    InStepRun(setting, s, steps);
    HistoricRun(setting, s, steps);
    ClientVerifiedEveryStage(setting, s, steps);
    hide Begins, AllVetted;
    var end := After(setting, s, steps);
    issues, js := FirstPairs(setting.cfg, end.engine, end.controller.state);
  }

  lemma FirstPairs(cfg: EngineConfig, e: EngineState, n: nat) returns (issues: seq<int>, js: seq<int>)
    requires Core(cfg, e) && Traced(cfg, e) && Paced(e.log) && n <= StateNumber(e.state)
    requires cfg.policy.evaluate == Commercial(cfg.station.keyId) && StandardActions(cfg)
    ensures |issues| == |js| == n
    ensures forall k | 0 <= k < |js| :: Pair(cfg, e.log, issues[k], js[k], k) && MetPermit(e.log, issues[k], k)
    ensures forall k | 0 < k < |js| :: js[k - 1] < issues[k]
  {
    assert n <= 4;
    hide Trace, Paced, Pair, MetPermit, StandardActions, Commercial, Core;
    var allIssues, allJs := OrderedHistory(cfg, e);
    issues, js := allIssues[..n], allJs[..n];
    forall k | 0 <= k < |js|
      ensures Pair(cfg, e.log, issues[k], js[k], k) && MetPermit(e.log, issues[k], k)
    {
      PairMetPermit(cfg, e.log, issues[k], js[k], k);
    }
  }

  lemma BeginsGenuine(setting: Setting, s: System)
    requires Begins(setting, s)
    ensures AllGenuine(setting, s)
  {
  }
}
