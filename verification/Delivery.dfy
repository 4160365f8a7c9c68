/** One stage across the whole chain when nothing is lost: controller, chaser, station, engine, client
    verifier, station, engine, controller. */
module Delivery {
  import opened Basics
  import opened Replay
  import opened Profile
  import opened Cedar
  import opened StateMachine
  import opened Protocol
  import opened Engine
  import opened EngineSteps
  import opened EngineLiveness
  import opened Verifier
  import opened Nodes
  import opened Distributed
  import Controller

  /** Everybody at stage `k` in one session, the controller waiting for its answer. */
  ghost predicate Waiting(setting: Setting, s: System, established: i64, k: nat) {
    && k < 4
    && s.alive && s.engine.state == StateAt(k) && InSession(s.engine, established)
    && s.station.sessionReady && s.station.sessionId == s.engine.sessionId && s.station.state == k
    && s.chaser.sessionId == s.engine.sessionId
    && Controller.Wired(s.controller) && s.controller.state == k && s.controller.pending && k + 1 in s.requests
  }

  /** The parts and the evidence of one round are good, and the client knows the station. */
  ghost predicate RoundIsGood(setting: Setting, s: System, established: i64, k: nat, round: Round, looked: i64) {
    && k < 4 && MatchedTrust(setting.cfg) && ClientTrusts(setting.cfg, setting.bundle, setting.trust)
    && Admissible(setting.cfg, established, StateAt(k), round) && Unused(SpentBy(s.engine), round.io)
    && round.asked <= looked <= round.presented
    && round.io.grantNonce.value !in s.client.consumed
  }

  /** The engine issued `outcome` at the `from` state and is now in `to`. */
  ghost predicate Granted(setting: Setting, from: EngineState, to: EngineState, k: nat, round: Round, outcome: TransitionOutcome)
    requires k < 4
  {
    GrantedStep(setting.cfg, from, to, k + 1, round.asked, round.readiness, round.io, outcome)
  }

  /** First hop: the request becomes a grant message. */
  lemma RequestIsGranted(setting: Setting, s: System, established: i64, k: nat, round: Round, looked: i64, m: ToStation)
    returns (outcome: TransitionOutcome)
    requires Waiting(setting, s, established, k) && RoundIsGood(setting, s, established, k, round, looked)
    requires m.TransitionRequestMsg? && m.requested == k + 1 && s.station.readiness == Some(round.readiness)
    ensures var s' := HearT(setting, s, HearTransition(m, Answers, round.asked, round.io));
            && Granted(setting, s.engine, s'.engine, k, round, outcome)
            && SpentBy(s'.engine) == SpentBy(s.engine).(station := SpentBy(s.engine).station + {round.io.proof.nonce.value},
                                                        chaser := SpentBy(s.engine).chaser + {round.io.offer.nonce.value})
            && s' == s.(engine := s'.engine, station := s.station.(entitlements := s'.station.entitlements),
                        toChaser := s.toChaser + {GrantMsg(true, k + 1, s.station.sessionId, outcome.signedGrant.value)})
  {
    hide Issue, Admissible, GrantedStep, IssuedWell, Unused, MatchedTrust, ClientTrusts, InSession, NoNewGrant;
    IssueSucceeds(setting.cfg, s.engine, established, round);
    IssueEffect(setting.cfg, s.engine, k + 1, round.asked, round.readiness, round.io);
    hide SpentBy;
    outcome := Issue(setting.cfg, s.engine, k + 1, round.asked, round.readiness, round.io).1.value;
    GrantIsSigned(setting, s.engine, Issue(setting.cfg, s.engine, k + 1, round.asked, round.readiness, round.io).0, k, round, outcome);
  }

  lemma GrantIsSigned(setting: Setting, from: EngineState, to: EngineState, k: nat, round: Round, outcome: TransitionOutcome)
    requires k < 4 && Granted(setting, from, to, k, round, outcome)
    ensures outcome.signedGrant.Some? && |to.log| == |from.log| + 1 && to.log[|from.log|].Issued?
    ensures var e := to.log[|from.log|];
            && IssuedWell(setting.cfg, e) && e.requested == k + 1 && e.from == from.state && e.now == round.asked
            && outcome.signedGrant.value == WireOf(setting.cfg, e.claims)
            && e.claims.sessionId == from.sessionId
            && round.io.grantNonce.Some? && e.claims.nonce == round.io.grantNonce.value
  {
  }

  /** Second hop: the client verifies the grant and presents it. */
  lemma GrantIsPresented(setting: Setting, s: System, k: nat, e: Event, looked: i64) returns (gid: Bytes)
    requires k < 4 && ClientTrusts(setting.cfg, setting.bundle, setting.trust) && MatchedTrust(setting.cfg)
    requires e.Issued? && IssuedWell(setting.cfg, e) && e.from == StateAt(k) && e.requested == k + 1
    requires |e.claims.nonce| == 32 && e.claims.nonce !in s.client.consumed && e.claims.sessionId == s.chaser.sessionId
    requires Abs(looked - e.now) <= 30 && looked <= e.claims.expiresAt.value
    ensures var m := GrantMsg(true, k + 1, s.chaser.sessionId, WireOf(setting.cfg, e.claims));
            var s' := HearC(setting, s, HearStation(m, true, looked, Committed));
            s' == s.(chaser := s'.chaser, client := s'.client,
                     toStation := s.toStation + {PresentationMsg(k + 1, s.chaser.sessionId, gid, WireOf(setting.cfg, e.claims))})
            && s'.chaser.sessionId == s.chaser.sessionId
            && s'.client.consumed == s.client.consumed + {e.claims.nonce}
  {
    hide Verify, IssuedWell;
    LookSpendsNonce(setting, s.client, WireOf(setting.cfg, e.claims), s.chaser.sessionId, STAGE_NAME[k + 1], looked);
    ClientAndGateAgree(setting.cfg, e, setting.bundle, setting.trust, s.client, looked, looked);
    StageNamesAgree(k);
    gid := Verify(CommandFor(WireOf(setting.cfg, e.claims), setting.cfg.station.keyId, s.chaser.sessionId, STAGE_NAME[k + 1], looked),
                  setting.bundle, setting.trust, s.client, looked, Committed).1.value.grantId;
  }

  lemma LookSpendsNonce(setting: Setting, client: Cache, w: Wire, sid: Option<Bytes>, stage: string, looked: i64)
    requires w.CoseSign1? && w.payload.Some? && w.payload.value.Envelope?
    ensures var (after, r) := Verify(CommandFor(w, setting.cfg.station.keyId, sid, stage, looked), setting.bundle, setting.trust,
                                     client, looked, Committed);
            r.Ok? ==> after.consumed == client.consumed + {ClaimsOf(w).nonce}
  {
    hide CheckEntitlement;
  }

  lemma StageNamesAgree(k: nat)
    requires k < 4
    ensures TransitionFor(StateAt(k), k + 1).Some? && k + 1 in STAGE_NAME
    ensures StageName(TransitionFor(StateAt(k), k + 1).value.1) == STAGE_NAME[k + 1]
  {
  }

  /** Third hop: the gate releases the stage and the station says so. */
  lemma PresentationIsReleased(setting: Setting, s: System, from: EngineState, established: i64, k: nat, round: Round,
                               outcome: TransitionOutcome, m: ToStation) returns (d: DecisionMsg)
    requires k < 4 && MatchedTrust(setting.cfg) && InSession(from, established) && from.state == StateAt(k)
    requires Admissible(setting.cfg, established, StateAt(k), round) && Unused(SpentBy(from), round.io)
    requires Granted(setting, from, s.engine, k, round, outcome) && outcome.signedGrant.Some?
    requires s.alive && s.station.readiness == Some(round.laterReadiness)
    requires m.PresentationMsg? && m.requested == k + 1 && m.grant == outcome.signedGrant.value
    ensures d.approved && d.resulting == k + 1
    ensures var s' := HearP(setting, s, HearPresentation(m, Answers, round.presented, round.redeemIo));
            && s'.engine.state == StateAt(k + 1) && s'.station.state == k + 1
            && s' == s.(engine := s'.engine, station := s'.station, decisions := s.decisions + {d},
                        toChaser := s'.toChaser, high := s'.high)
            && s'.station == s.station.(state := k + 1, entitlements := s'.station.entitlements)
            && InSession(s'.engine, established) && s'.engine.sessionId == s.engine.sessionId
            && SpentBy(s'.engine) == SpentBy(s.engine).(gate := SpentBy(s.engine).gate + {round.io.grantNonce.value},
                                                        grants := SpentBy(s.engine).grants + {GrantIdOf(round.io.grantId.value)})
  {
    hide Redeem, Admissible, MayRelease, IssuedWell;
    GrantRedeems(setting.cfg, from, s.engine, established, round, outcome);
    SessionCarried(setting, from, s.engine, k, round, outcome);
    RedeemEffect(setting.cfg, s.engine, m.grant, k + 1, round.presented, round.laterReadiness, round.redeemIo);
    var answer := Redeem(setting.cfg, s.engine, m.grant, k + 1, round.presented, round.laterReadiness, round.redeemIo);
    NumberDetermines(answer.0.state, k + 1);
    d := HandlePresentation(s.station, m.grantId, Ok(answer.1.value)).1;
  }

  lemma SessionCarried(setting: Setting, from: EngineState, to: EngineState, k: nat, round: Round, outcome: TransitionOutcome)
    requires k < 4 && Granted(setting, from, to, k, round, outcome)
    ensures to.sessionId == from.sessionId && to.credentials == from.credentials && to.state == from.state
    ensures to.authorization == from.authorization
    ensures outcome.signedGrant.Some? && round.io.grantId.Some?
    ensures var w := outcome.signedGrant.value;
            w.CoseSign1? && w.payload.Some? && w.payload.value.Envelope?
            && ClaimsOf(w).grantId == Some(GrantIdOf(round.io.grantId.value))
  {
  }

  lemma ConsRun(setting: Setting, s: System, step: Step, rest: seq<Step>)
    requires setting.params.rate > 0.0 && Controller.Wired(s.controller) && Possible(s, step)
    requires IsRun(setting, Next(setting, s, step), rest)
    ensures IsRun(setting, s, [step] + rest)
    ensures After(setting, s, [step] + rest) == After(setting, Next(setting, s, step), rest)
  {
    assert ([step] + rest)[1..] == rest;
  }

  lemma NothingMore(setting: Setting, s: System)
    requires setting.params.rate > 0.0
    ensures IsRun(setting, s, []) && After(setting, s, []) == s
  {
  }

  /** The last delivery: the controller hears of the released stage. */
  lemma DecisionIsHeard(c: Controller.ControllerState, d: DecisionMsg, k: nat)
    requires c.pending && c.state == k < 4 && d.approved && d.resulting == k + 1
    ensures Controller.OnDecision(c, d.approved, d.resulting) == c.(state := k + 1, pending := false, requestTime := None)
  {
  }

  /** A verification between request and presentation is inside the window. */
  lemma LookedInTime(setting: Setting, established: i64, k: nat, round: Round, e: Event, looked: i64)
    requires k < 4 && Admissible(setting.cfg, established, StateAt(k), round) && round.asked <= looked <= round.presented
    requires e.Issued? && IssuedWell(setting.cfg, e) && e.from == StateAt(k) && e.requested == k + 1 && e.now == round.asked
    requires e.evidence == EvidenceAt(established, round.asked, round.readiness)
    requires e.claims.sessionId.Some?
    ensures Abs(looked - e.now) <= 30 && looked <= e.claims.expiresAt.value
  {
    hide EvaluateStage, Evaluate, TransitionRequest, ActionOf, FreshFor;
    GrantIsBound(setting.cfg, e, e.claims.sessionId.value, looked);
  }

  /** The first four deliveries: readiness, request, grant, verification. */
  lemma RoundIsPresented(setting: Setting, s: System, established: i64, k: nat, round: Round, looked: i64)
    returns (steps: seq<Step>, outcome: TransitionOutcome, m: ToStation)
    requires setting.params.rate > 0.0
    requires Waiting(setting, s, established, k) && RoundIsGood(setting, s, established, k, round, looked)
    ensures |steps| == 4 && IsRun(setting, s, steps)
    ensures var mid := After(setting, s, steps);
            && Granted(setting, s.engine, mid.engine, k, round, outcome) && outcome.signedGrant.Some?
            && m in mid.toStation && m.PresentationMsg? && m.requested == k + 1 && m.grant == outcome.signedGrant.value
            && mid.controller == s.controller && mid.alive && mid.chaser.sessionId == s.chaser.sessionId
            && mid.station.state == k && mid.station.sessionReady && mid.station.sessionId == s.station.sessionId
            && mid.station.denial == s.station.denial && s.toStation <= mid.toStation
            && SpentBy(mid.engine) == SpentBy(s.engine).(station := SpentBy(s.engine).station + {round.io.proof.nonce.value},
                                                         chaser := SpentBy(s.engine).chaser + {round.io.offer.nonce.value})
            && mid.client.consumed == s.client.consumed + {round.io.grantNonce.value}
  {
    hide HearT, HearC, Admissible, Granted, IssuedWell;
    var a := Sense(round.readiness);
    var s1 := Next(setting, s, a);
    var b := Ask(k + 1);
    var s2 := Next(setting, s1, b);
    var request := OnTransitionRequest(s1.chaser, k + 1).1;
    var c := HearTransition(request, Answers, round.asked, round.io);
    outcome := RequestIsGranted(setting, s2, established, k, round, looked, request);
    var s3 := Next(setting, s2, c);
    GrantIsSigned(setting, s2.engine, s3.engine, k, round, outcome);
    var e := s3.engine.log[|s2.engine.log|];
    var grant := GrantMsg(true, k + 1, s2.station.sessionId, outcome.signedGrant.value);
    var d := HearStation(grant, true, looked, Committed);
    GrantEvidence(setting, s2.engine, s3.engine, established, k, round, outcome);
    LookedInTime(setting, established, k, round, e, looked);
    var gid := GrantIsPresented(setting, s3, k, e, looked);
    var s4 := Next(setting, s3, d);
    m := PresentationMsg(k + 1, s3.chaser.sessionId, gid, WireOf(setting.cfg, e.claims));
    steps := [a] + ([b] + ([c] + ([d] + [])));
    ConsRun(setting, s3, d, []);
    ConsRun(setting, s2, c, [d] + []);
    ConsRun(setting, s1, b, [c] + ([d] + []));
    ConsRun(setting, s, a, [b] + ([c] + ([d] + [])));
  }

  lemma GrantEvidence(setting: Setting, from: EngineState, to: EngineState, established: i64, k: nat, round: Round,
                      outcome: TransitionOutcome)
    requires k < 4 && Granted(setting, from, to, k, round, outcome) && InSession(from, established)
    ensures |to.log| == |from.log| + 1 && to.log[|from.log|].Issued?
    ensures to.log[|from.log|].evidence == EvidenceAt(established, round.asked, round.readiness)
  {
  }

  /** The last three: fresh readiness, release, decision. */
  lemma RoundIsReleased(setting: Setting, s: System, from: EngineState, established: i64, k: nat, round: Round,
                        outcome: TransitionOutcome, m: ToStation) returns (steps: seq<Step>)
    requires setting.params.rate > 0.0 && k < 4 && MatchedTrust(setting.cfg)
    requires InSession(from, established) && from.state == StateAt(k)
    requires Admissible(setting.cfg, established, StateAt(k), round) && Unused(SpentBy(from), round.io)
    requires Granted(setting, from, s.engine, k, round, outcome) && outcome.signedGrant.Some?
    requires s.alive && m in s.toStation && m.PresentationMsg? && m.requested == k + 1 && m.grant == outcome.signedGrant.value
    requires Controller.Wired(s.controller) && s.controller.pending && s.controller.state == k
    ensures IsRun(setting, s, steps)
    ensures var end := After(setting, s, steps);
            && end.controller == s.controller.(state := k + 1, pending := false, requestTime := None)
            && end.station.state == k + 1 && end.station.sessionId == s.station.sessionId
            && end.engine.state == StateAt(k + 1) && end.engine.sessionId == s.engine.sessionId
            && end.alive && InSession(end.engine, established) && end.chaser == s.chaser
            && end.client == s.client && end.station.sessionReady == s.station.sessionReady
            && end.station.denial == s.station.denial
            && SpentBy(end.engine) == SpentBy(s.engine).(gate := SpentBy(s.engine).gate + {round.io.grantNonce.value},
                                                         grants := SpentBy(s.engine).grants + {GrantIdOf(round.io.grantId.value)})
  {
    hide HearP, Admissible, Granted;
    var a := Sense(round.laterReadiness);
    var s1 := Next(setting, s, a);
    var b := HearPresentation(m, Answers, round.presented, round.redeemIo);
    var d := PresentationIsReleased(setting, s1, from, established, k, round, outcome, m);
    var s2 := Next(setting, s1, b);
    var c := HearDecision(d);
    DecisionIsHeard(s2.controller, d, k);
    steps := [a] + ([b] + ([c] + []));
    ConsRun(setting, s2, c, []);
    ConsRun(setting, s1, b, [c] + []);
    ConsRun(setting, s, a, [b] + ([c] + []));
  }

  lemma {:induction false} RunsJoin(setting: Setting, s: System, first: seq<Step>, second: seq<Step>)
    requires setting.params.rate > 0.0 && IsRun(setting, s, first) && IsRun(setting, After(setting, s, first), second)
    ensures IsRun(setting, s, first + second)
    ensures After(setting, s, first + second) == After(setting, After(setting, s, first), second)
    decreases |first|
  {
    if first == [] {
      assert first + second == second;
    } else {
      RunsJoin(setting, Next(setting, s, first[0]), first[1..], second);
      assert (first + second)[1..] == first[1..] + second;
    }
  }

  /** A round completes: from such a state there is a run of seven deliveries after which controller,
      station and engine are one stage further, in the same session, the controller no longer waiting. */
  lemma RoundCompletes(setting: Setting, s: System, established: i64, k: nat, round: Round, looked: i64) returns (steps: seq<Step>)
    requires setting.params.rate > 0.0
    requires Waiting(setting, s, established, k) && RoundIsGood(setting, s, established, k, round, looked)
    ensures IsRun(setting, s, steps)
    ensures var end := After(setting, s, steps);
            && end.controller == s.controller.(state := k + 1, pending := false, requestTime := None)
            && end.station.state == k + 1 && end.engine.state == StateAt(k + 1)
            && end.alive && InSession(end.engine, established)
            && end.engine.sessionId == end.station.sessionId == end.chaser.sessionId == s.engine.sessionId
            && end.station.sessionReady
            && SpentBy(end.engine) == SpendRound(SpentBy(s.engine), round.io)
            && end.client.consumed == s.client.consumed + {round.io.grantNonce.value}
  {
    hide After, IsRun, Admissible, Granted;
    var first, outcome, m := RoundIsPresented(setting, s, established, k, round, looked);
    var mid := After(setting, s, first);
    var second := RoundIsReleased(setting, mid, s.engine, established, k, round, outcome, m);
    SessionCarried(setting, s.engine, mid.engine, k, round, outcome);
    RunsJoin(setting, s, first, second);
    steps := first + second;
  }

  /** Everybody at stage `k` in one session, the controller on its way to the goal of the stage. */
  ghost predicate Underway(setting: Setting, s: System, established: i64, k: nat) {
    && k <= 4
    && s.alive && s.engine.state == StateAt(k) && InSession(s.engine, established)
    && s.station.sessionReady && s.station.sessionId == s.engine.sessionId && s.station.state == k
    && s.chaser.sessionId == s.engine.sessionId
    && s.controller.state == k && Cruising(s.controller)
  }

  ghost predicate Cruising(c: Controller.ControllerState) {
    && Controller.InRange(c) && !c.resetRequested && !c.resetPosePending
    && !c.pending && !c.halted && c.resumeTime.None?
  }

  const TICK := Tick(true, Controller.Replied(true), 0.0)

  /** One acknowledged tick: the vehicle arrives where it was sent, and the controller either asks for
      the next stage or sends it one step further. */
  lemma CruiseTick(p: Controller.Params, c: Controller.ControllerState)
    requires p.rate > 0.0 && p.speed >= 0.0 && Cruising(c) && c.state < 4
    ensures var (c', requested) := Controller.Update(p, c, true, Controller.Replied(true), 0.0);
            var goal := Controller.Goal(c.state);
            && Controller.InRange(c') && c'.state == c.state
            && Controller.Target(c') == Controller.Least(goal, Controller.Target(c) + Controller.StepOf(p, c.state))
            && (Controller.Target(c) == goal ==> requested.Some?)
            && (requested.None? ==> Cruising(c'))
            && (requested.Some? ==> requested.value == c.state + 1 && c'.pending
                                    && Cruising(c'.(pending := false, requestTime := None)))
  {
    hide Controller.AdvancePose, Controller.StepOf;
    Controller.AcknowledgedStep(p, c, 0.0);
    Controller.AdvanceInRange(p, c, true, Controller.Replied(true), 0.0);
  }

  /** Enough steps to cover the distance; at hold there is none to cover. */
  lemma EnoughTicks(p: Controller.Params, c: Controller.ControllerState) returns (n: nat)
    requires p.rate > 0.0 && p.speed > 0.0 && Cruising(c)
    ensures Controller.Goal(c.state) - Controller.Target(c) <= n as real * Controller.StepOf(p, c.state)
  {
    var distance, step := Controller.Goal(c.state) - Controller.Target(c), Controller.StepOf(p, c.state);
    if c.state == 0 {
      n := 0;
    } else {
      assert step > 0.0;
      n := (distance / step).Floor + 1;
      Covers(distance, step, n);
    }
  }

  lemma Covers(distance: real, step: real, n: nat)
    requires step > 0.0 && distance / step <= n as real
    ensures distance <= n as real * step
  {
    assert distance == distance / step * step;
  }

  ghost predicate Asked(s: System, end: System, k: nat) {
    && end == s.(controller := end.controller, requests := s.requests + {k + 1})
    && end.controller.pending && end.controller.state == k
    && Cruising(end.controller.(pending := false, requestTime := None))
  }

  /** The approach ends in a request: `n` acknowledged ticks or fewer bring the vehicle to its goal. */
  lemma ApproachEndsInRequest(setting: Setting, s: System, k: nat, n: nat) returns (steps: seq<Step>)
    requires setting.params.rate > 0.0 && setting.params.speed >= 0.0
    requires k < 4 && s.controller.state == k && Cruising(s.controller)
    requires Controller.Goal(k) - Controller.Target(s.controller) <= n as real * Controller.StepOf(setting.params, k)
    ensures IsRun(setting, s, steps) && Asked(s, After(setting, s, steps), k)
    decreases n
  {
    hide Controller.Update, Controller.StepOf, Controller.Goal;
    CruiseTick(setting.params, s.controller);
    var s1 := Next(setting, s, TICK);
    var requested := Controller.Update(setting.params, s.controller, true, Controller.Replied(true), 0.0).1;
    var rest := [];
    if requested.None? {
      var step := Controller.StepOf(setting.params, k);
      assert n > 0 by {
        assert 0.0 * step == 0.0;
      }
      assert (n - 1) as real * step == n as real * step - step;
      Controller.StepsForward(setting.params, k);
      assert (n - 1) as real * step >= 0.0;
      rest := ApproachEndsInRequest(setting, s1, k, n - 1);
    } else {
      assert s1.requests == s.requests + {k + 1};
    }
    ConsRun(setting, s, TICK, rest);
    steps := [TICK] + rest;
  }

  /** Rounds whose grant nonces the client has not seen. */
  ghost predicate Unseen(seen: set<Bytes>, rounds: seq<Round>)
    decreases |rounds|
  {
    rounds != [] ==>
      && IssueWorks(rounds[0].io) && rounds[0].io.grantNonce.value !in seen
      && Unseen(seen + {rounds[0].io.grantNonce.value}, rounds[1..])
  }

  /** One whole stage: fly to its goal, ask, be granted, present, be released, enter the next. */
  lemma StageCompletes(setting: Setting, s: System, established: i64, k: nat, round: Round) returns (steps: seq<Step>)
    requires setting.params.rate > 0.0 && setting.params.speed > 0.0 && k < 4
    requires Underway(setting, s, established, k) && RoundIsGood(setting, s, established, k, round, round.asked)
    ensures IsRun(setting, s, steps)
    ensures var end := After(setting, s, steps);
            && Underway(setting, end, established, k + 1)
            && SpentBy(end.engine) == SpendRound(SpentBy(s.engine), round.io)
            && end.client.consumed == s.client.consumed + {round.io.grantNonce.value}
  {
    hide After, IsRun, Admissible;
    var n := EnoughTicks(setting.params, s.controller);
    var flight := ApproachEndsInRequest(setting, s, k, n);
    var there := After(setting, s, flight);
    var exchange := RoundCompletes(setting, there, established, k, round, round.asked);
    RunsJoin(setting, s, flight, exchange);
    steps := flight + exchange;
  }

  /** The whole chain reaches hard dock: from a system at stage `k` in an open session, admissible
      rounds with new draws have a run that takes controller, station and engine through every
      remaining stage. */
  lemma {:induction false} DockingCompletes(setting: Setting, s: System, established: i64, k: nat, rounds: seq<Round>)
    returns (steps: seq<Step>)
    requires setting.params.rate > 0.0 && setting.params.speed > 0.0
    requires MatchedTrust(setting.cfg) && ClientTrusts(setting.cfg, setting.bundle, setting.trust)
    requires Underway(setting, s, established, k) && k + |rounds| == 4
    requires Plan(setting.cfg, established, k, SpentBy(s.engine), rounds) && Unseen(s.client.consumed, rounds)
    ensures IsRun(setting, s, steps)
    ensures var end := After(setting, s, steps);
            end.controller.state == end.station.state == 4 && end.engine.state == DockingState.HardDock
    decreases |rounds|
  {
    if rounds == [] {
      steps := [];
    } else {
      hide After, IsRun;
      assert RoundIsGood(setting, s, established, k, rounds[0], rounds[0].asked) by {
        AskedBeforePresented(setting, established, k, rounds[0]);
      }
      hide Admissible, Underway;
      var stage := StageCompletes(setting, s, established, k, rounds[0]);
      var rest := DockingCompletes(setting, After(setting, s, stage), established, k + 1, rounds[1..]);
      RunsJoin(setting, s, stage, rest);
      steps := stage + rest;
    }
  }

  lemma AskedBeforePresented(setting: Setting, established: i64, k: nat, round: Round)
    requires k < 4 && Admissible(setting.cfg, established, StateAt(k), round)
    ensures round.asked <= round.presented
  {
  }

  /** A system that has just been started: controller cruising at hold, station cleared, and the
      chaser's access request on its way. */
  ghost predicate Started(s: System, request: ToStation) {
    && s.alive && s.controller.state == 0 && Cruising(s.controller) && s.station.state == 0
    && request in s.toStation && request.AccessRequestMsg? && request.scenario.Some?
  }

  function Opening(s: EngineState, io: EstablishIo): Spent
    requires EstablishWorks(io)
  {
    var s0 := Clear(s);
    Spent(s0.stationReplay.consumed + {io.request.nonce.value} + {io.proof.nonce.value},
          s0.chaserReplay.consumed + {io.offer.nonce.value}, s0.gateReplay.consumed, s0.consumedGrants.consumed)
  }

  /** The access request opens the session at engine, station and chaser. */
  lemma SessionOpens(setting: Setting, s: System, request: ToStation, now: i64, io: EstablishIo) returns (steps: seq<Step>)
    requires setting.params.rate > 0.0 && Started(s, request)
    requires MatchedTrust(setting.cfg) && EstablishWorks(io) && request.scenario.value != Scenario.ExpiredCredential
    requires SessionAdmissible(setting.cfg, now)
    requires Unreplayed(Clear(s.engine), io)
    ensures IsRun(setting, s, steps)
    ensures var end := After(setting, s, steps);
            Underway(setting, end, now, 0) && SpentBy(end.engine) == Opening(s.engine, io) && end.client == s.client
  {
    hide Establish, SessionAdmissible;
    EstablishmentSucceeds(setting.cfg, s.engine, now, request.scenario.value, io);
    EstablishEffect(setting.cfg, s.engine, now, request.scenario.value, io);
    var a := HearAccessRequest(request, Answers, now, io);
    var s1 := Next(setting, s, a);
    var reply := HandleAccessRequest(s.station, request.scenario, AuthorityEstablish(setting, s, request.scenario.value, a).1).1;
    assert reply in s1.toChaser;
    var b := HearStation(reply, true, now, Committed);
    ConsRun(setting, s1, b, []);
    ConsRun(setting, s, a, [b] + []);
    steps := [a] + ([b] + []);
  }

  /** From the access request to hard dock: session, four stages, nothing assumed about the state the
      engine was left in by earlier sessions. */
  lemma MissionCompletes(setting: Setting, s: System, request: ToStation, now: i64, io: EstablishIo, rounds: seq<Round>)
    returns (steps: seq<Step>)
    requires setting.params.rate > 0.0 && setting.params.speed > 0.0 && Started(s, request)
    requires MatchedTrust(setting.cfg) && ClientTrusts(setting.cfg, setting.bundle, setting.trust)
    requires EstablishWorks(io) && request.scenario.value != Scenario.ExpiredCredential && SessionAdmissible(setting.cfg, now)
    requires Unreplayed(Clear(s.engine), io)
    requires |rounds| == 4 && Plan(setting.cfg, now, 0, Opening(s.engine, io), rounds) && Unseen(s.client.consumed, rounds)
    ensures IsRun(setting, s, steps)
    ensures var end := After(setting, s, steps);
            end.controller.state == end.station.state == 4 && end.engine.state == DockingState.HardDock
  {
    hide After, IsRun, Underway, Started, SessionAdmissible, Plan, Unseen;
    var opening := SessionOpens(setting, s, request, now, io);
    var docking := DockingCompletes(setting, After(setting, s, opening), now, 0, rounds);
    RunsJoin(setting, s, opening, docking);
    steps := opening + docking;
  }
}
