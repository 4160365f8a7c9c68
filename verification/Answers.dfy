/** What the nodes tell each other when something is refused, and what that leaves possible. */
module Answers {
  import opened Basics
  import opened Profile
  import opened Cedar
  import opened StateMachine
  import opened Protocol
  import opened Engine
  import opened EngineSteps
  import opened EngineRuns
  import opened EngineLiveness
  import opened EngineAnswers
  import opened Verifier
  import opened Nodes
  import opened Distributed
  import Controller

  // ------------------------------------------------------------------ requests

  /** The engine's answer to the request of this step. */
  function EngineAnswer(setting: Setting, s: System, step: Step): Result<TransitionOutcome, SessionError>
    requires step.HearTransition? && step.m.TransitionRequestMsg? && Decodes(step.m.requested) && s.station.readiness.Some?
  {
    Issue(setting.cfg, s.engine, step.m.requested, step.now, s.station.readiness.value, step.issueIo).1
  }

  /** An open station that asks a living, answering authority stays open exactly when the engine answers
      without an error, be it a grant or a refusal. */
  lemma OpenStationCloses(setting: Setting, s: System, step: Step)
    requires step.HearTransition? && step.m.TransitionRequestMsg?
    requires AsksToIssue(s.station) && Settled(s.station) && s.alive && step.authority.Answers?
    ensures var end := HearT(setting, s, step);
            && (end.station.sessionReady <==> Decodes(step.m.requested) && EngineAnswer(setting, s, step).Ok?)
            && (!end.station.sessionReady ==> end.station.denial == Some(AuthorityError))
  {
    var requested := step.m.requested;
    if Decodes(requested) {
      hide Issue;
      IssueEffect(setting.cfg, s.engine, requested, step.now, s.station.readiness.value, step.issueIo);
      ApprovedRequests(setting.cfg, s.engine, requested, step.now, s.station.readiness.value, step.issueIo);
    }
  }

  lemma ApprovedRequests(cfg: EngineConfig, s: EngineState, requested: byte, now: i64, readiness: Readiness, io: IssueIo)
    ensures var r := Issue(cfg, s, requested, now, readiness, io).1;
            r.Ok? && r.value.approved ==> r.value.signedGrant.Some? && 1 <= requested <= 4
  {
    hide Issue;
    IssueEffect(cfg, s, requested, now, readiness, io);
    SameStages(s.state, requested);
  }

  /** A request that profile or policy refuses: with the holder proven the station stays open, the
      controller is told no, the chaser is told no, and nothing else has changed but the proof. */
  lemma RefusalLeavesOpen(setting: Setting, s: System, step: Step)
    requires step.HearTransition? && step.m.TransitionRequestMsg? && Decodes(step.m.requested)
    requires AsksToIssue(s.station) && Settled(s.station) && s.alive && step.authority.Answers?
    requires Asked(setting.cfg, s.engine, step.m.requested, step.now, step.issueIo)
    requires var e := EvidenceNow(s.engine, step.now, s.station.readiness.value);
             var rule := EvaluateStage(setting.cfg, s.engine.state, step.m.requested, step.now, e);
             rule.Err? || !PolicyAllowsRule(setting.cfg, rule.value, step.now, e)
    ensures var end := HearT(setting, s, step);
            && end.station == s.station && end.alive
            && DecisionMsg(false, s.station.state, s.station.state, None) in end.decisions
            && OutcomeMsg(false, s.station.state, None) in end.toChaser
            && end.engine.state == s.engine.state && end.engine.pending == s.engine.pending && end.engine.log == s.engine.log
            && end.engine.sessionId == s.engine.sessionId
  {
    hide Issue, Asked, EvaluateStage, PolicyAllowsRule;
    RequestsAnswer(setting.cfg, s.engine, step.m.requested, step.now, s.station.readiness.value, step.issueIo) by {
      AskedSays(setting.cfg, s.engine, step.m.requested, step.now, step.issueIo);
    }
    IssueEffect(setting.cfg, s.engine, step.m.requested, step.now, s.station.readiness.value, step.issueIo);
    var r := EngineAnswer(setting, s, step);
    assert r.Ok? && !r.value.approved;
    assert r.value.grantId.None?;
    var (station, decision, reply) := HandleTransitionRequest(s.station, step.m.requested, Ok(r.value));
    assert station == s.station;
  }

  lemma AskedSays(cfg: EngineConfig, s: EngineState, requested: byte, now: i64, io: IssueIo)
    requires Asked(cfg, s, requested, now, io)
    ensures TransitionNames(s.state, requested).Some?
  {
  }

  /** An approved request: the grant the engine now holds as pending is recorded, unconsumed, with its stage and
      time to live, and passed to the chaser in the station's session; the controller is told nothing yet. */
  lemma GrantsAreRecorded(setting: Setting, s: System, step: Step)
    requires step.HearTransition? && step.m.TransitionRequestMsg? && Decodes(step.m.requested)
    requires AsksToIssue(s.station) && s.alive && step.authority.Answers?
    requires EngineAnswer(setting, s, step).Ok? && EngineAnswer(setting, s, step).value.approved
    ensures var end, outcome := HearT(setting, s, step), EngineAnswer(setting, s, step).value;
            && outcome.grantId.Some? && outcome.grantId.value in end.engine.pending
            && end.engine.pending[outcome.grantId.value].requestedState == step.m.requested
            && end.station == s.station.(entitlements := s.station.entitlements
                                           + [Entitlement(outcome.grantId, step.m.requested, outcome.entitlementTtl, false)])
            && outcome.signedGrant.Some?
            && GrantMsg(true, step.m.requested, s.station.sessionId, outcome.signedGrant.value) in end.toChaser
            && end.decisions == s.decisions
  {
    hide Issue, IssuedWell;
    IssueEffect(setting.cfg, s.engine, step.m.requested, step.now, s.station.readiness.value, step.issueIo);
    ApprovedRequests(setting.cfg, s.engine, step.m.requested, step.now, s.station.readiness.value, step.issueIo);
  }

  // ------------------------------------------------------------------ access requests

  function ScenarioOf(s: System, m: ToStation): Scenario
    requires m.AccessRequestMsg?
  {
    if m.scenario.Some? then m.scenario.value else s.station.scenario
  }

  /** The station is open after an access request exactly when the engine opened a session, and then all
      three name the same one; otherwise it is closed, and says that the credential expired exactly when
      that was the engine's error. */
  lemma AccessRequestsAnswer(setting: Setting, s: System, step: Step)
    requires step.HearAccessRequest? && step.m.AccessRequestMsg? && s.alive && step.authority.Answers?
    ensures var end := HearA(setting, s, step);
            var r := Establish(setting.cfg, s.engine, step.now, ScenarioOf(s, step.m), step.establishIo).1;
            && (end.station.sessionReady <==> r.Ok?)
            && (r.Ok? ==> && end.station.sessionId == end.engine.sessionId == Some(r.value.sessionId) && end.station.denial.None?
                          && SessionAuthorizedMsg(r.value.sessionId) in end.toChaser)
            && (r.Err? ==> && Closed(end.station) && end.engine.sessionId.None?
                           && SessionDeniedMsg(end.station.denial.value) in end.toChaser
                           && end.station.denial == Some(if r == Err(ProtocolFailed(CredentialExpired)) then CredentialExpiredDenial
                                                         else SessionUnavailable))
            && end.station.scenario == ScenarioOf(s, step.m) && end.station.state == s.station.state
            && end.decisions == s.decisions && end.toStation == s.toStation
  {
    hide Establish;
    EstablishEffect(setting.cfg, s.engine, step.now, ScenarioOf(s, step.m), step.establishIo);
  }

  /** The expired-credential scenario, with everything else in order, is denied for that reason. */
  lemma ExpiredScenarioIsNamed(setting: Setting, s: System, step: Step)
    requires step.HearAccessRequest? && step.m.AccessRequestMsg? && s.alive && step.authority.Answers?
    requires ScenarioOf(s, step.m) == Scenario.ExpiredCredential
    requires MatchedTrust(setting.cfg) && EstablishWorks(step.establishIo)
    requires Unreplayed(Clear(s.engine), step.establishIo)
    ensures var end := HearA(setting, s, step);
            Closed(end.station) && end.station.denial == Some(CredentialExpiredDenial)
            && SessionDeniedMsg(CredentialExpiredDenial) in end.toChaser
  {
    hide HearA, Establish, Unreplayed, EstablishWorks, MatchedTrust;
    EstablishmentAnswers(setting.cfg, s.engine, step.now, Scenario.ExpiredCredential, step.establishIo);
    AccessRequestsAnswer(setting, s, step);
  }

  // ------------------------------------------------------------------ presentations

  /** A presentation's answer is told to both sides under the redeemed grant's name; the first entitlement of
      that name, and no other, becomes consumed. A refused one changes nothing at the station. */
  lemma PresentationsAnswer(setting: Setting, s: System, step: Step)
    requires step.HearPresentation? && step.m.PresentationMsg? && Core(setting.cfg, s.engine)
    requires s.alive && step.authority.Answers? && s.station.readiness.Some? && Decodes(step.m.requested)
    ensures var end := HearP(setting, s, step);
            var r := Redeem(setting.cfg, s.engine, step.m.grant, step.m.requested, step.now, s.station.readiness.value,
                            step.redeemIo).1;
            && (r.Ok? ==>
                  && r.value.grantId.Some?
                  && end.station.state == step.m.requested
                  && DecisionMsg(true, s.station.state, step.m.requested, r.value.grantId) in end.decisions
                  && OutcomeMsg(true, step.m.requested, r.value.grantId) in end.toChaser
                  && (forall i | 0 <= i < |s.station.entitlements| && s.station.entitlements[i].id == r.value.grantId
                                 && (forall k | 0 <= k < i :: s.station.entitlements[k].id != r.value.grantId) ::
                        end.station.entitlements == s.station.entitlements[i := s.station.entitlements[i].(consumed := true)]))
            && (r.Err? ==>
                  && end.station == s.station
                  && DecisionMsg(false, s.station.state, s.station.state, Some(step.m.grantId)) in end.decisions
                  && OutcomeMsg(false, s.station.state, Some(step.m.grantId)) in end.toChaser)
  {
    hide Redeem, Core, MarkConsumed;
    ShownGrantsAreBurned(setting.cfg, s.engine, step.m.grant, step.m.requested, step.now, s.station.readiness.value, step.redeemIo);
    var r := Redeem(setting.cfg, s.engine, step.m.grant, step.m.requested, step.now, s.station.readiness.value, step.redeemIo).1;
    var entitlements := s.station.entitlements;
    if r.Ok? {
      forall i | 0 <= i < |entitlements| && entitlements[i].id == r.value.grantId
                 && (forall k | 0 <= k < i :: entitlements[k].id != r.value.grantId)
        ensures MarkConsumed(entitlements, r.value.grantId) == entitlements[i := entitlements[i].(consumed := true)]
      {
        MarkConsumedAt(entitlements, r.value.grantId, i);
      }
    }
  }

  // ------------------------------------------------------------------ the chaser's session

  /** A chaser that is in no session presents nothing: its verifier accepts no grant for it. */
  lemma NoSessionNoPresentation(setting: Setting, s: System, step: Step)
    requires step.HearStation? && s.chaser.sessionId.None?
    ensures HearC(setting, s, step).toStation == s.toStation
  {
    var m := step.toChaser;
    if AsksToVerify(m) && step.verifier {
      var c := CommandFor(m.grant, setting.cfg.station.keyId, None, STAGE_NAME[m.requested], step.clock);
      AcceptedEntitlements(c, setting.bundle, setting.trust, s.client, step.clock, step.append);
    }
    hide Verify;
  }

  /** The chaser's session is the last one it was told: opened by an authorization, dropped by a denial. */
  lemma SessionIsTheLastTold(setting: Setting, s: System, step: Step)
    requires step.HearStation?
    ensures var end := HearC(setting, s, step);
            end.chaser.sessionId == match step.toChaser
                                    case SessionAuthorizedMsg(sid) => Some(sid)
                                    case SessionDeniedMsg(_) => None
                                    case _ => s.chaser.sessionId
  {
    hide ClientVerify;
  }

  /** After a denial the chaser makes no presentation until it hears of an authorized session, whatever
      grants still reach it. */
  lemma {:induction false} SilentUntilAuthorized(setting: Setting, s: System, steps: seq<Step>)
    requires setting.params.rate > 0.0 && IsRun(setting, s, steps) && s.chaser.sessionId.None?
    requires forall k | 0 <= k < |steps| && steps[k].HearStation? :: !steps[k].toChaser.SessionAuthorizedMsg?
    ensures var end := After(setting, s, steps);
            end.chaser.sessionId.None? && forall m | m in end.toStation && m.PresentationMsg? :: m in s.toStation
    decreases |steps|
  {
    hide HearC, HearT, HearP, HearA, Controller.Update;
    if steps != [] {
      var step := steps[0];
      var next := Next(setting, s, step);
      if step.HearStation? {
        assert !step.toChaser.SessionAuthorizedMsg?;
        NoSessionNoPresentation(setting, s, step);
        SessionIsTheLastTold(setting, s, step);
      } else {
        OthersKeepChaser(setting, s, step);
      }
      assert forall k | 0 <= k < |steps[1..]| :: steps[1..][k] == steps[k + 1];
      SilentUntilAuthorized(setting, next, steps[1..]);
    }
  }

  lemma OthersKeepChaser(setting: Setting, s: System, step: Step)
    requires setting.params.rate > 0.0 && Controller.Wired(s.controller) && Possible(s, step) && !step.HearStation?
    ensures var end := Next(setting, s, step);
            && end.chaser.sessionId == s.chaser.sessionId
            && forall m | m in end.toStation && m.PresentationMsg? :: m in s.toStation
  {
    hide Issue, Redeem, Establish, Controller.Update;
  }
}
