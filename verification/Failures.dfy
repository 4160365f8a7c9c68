/** Runs on which a property fails, in the shipped deployment or any other. */
module Failures {
  import opened Basics
  import opened Journal
  import opened Replay
  import opened Durability
  import opened Profile
  import opened Cedar
  import opened StateMachine
  import opened Protocol
  import opened Engine
  import opened EngineSteps
  import opened EngineRuns
  import opened EngineGuarantees
  import opened EngineLiveness
  import opened Verifier
  import opened Nodes
  import opened Distributed
  import opened Delivery
  import Deployment
  import Controller

  // ------------------------------------------------------------------ out of step

  lemma {:induction false} RunKeepsMessages(setting: Setting, s: System, steps: seq<Step>)
    requires setting.params.rate > 0.0 && IsRun(setting, s, steps)
    ensures s.toStation <= After(setting, s, steps).toStation
    decreases |steps|
  {
    hide Next;
    if steps != [] {
      MessagesStay(setting, s, steps[0]);
      RunKeepsMessages(setting, Next(setting, s, steps[0]), steps[1..]);
    }
  }

  /** A run that falls out of step: the access request opens the session, the first stage is flown,
      granted, verified and released, and a second copy of the access request arrives. Station and
      controller are then at the first stage and the engine is back at hold. */
  lemma DuplicateAccessRequest(setting: Setting, s: System, request: ToStation, now: i64, io: EstablishIo, round: Round,
                               later: i64, again: EstablishIo) returns (steps: seq<Step>)
    requires setting.params.rate > 0.0 && setting.params.speed > 0.0 && Started(s, request)
    requires MatchedTrust(setting.cfg) && ClientTrusts(setting.cfg, setting.bundle, setting.trust)
    requires EstablishWorks(io) && request.scenario.value != Scenario.ExpiredCredential && SessionAdmissible(setting.cfg, now)
    requires Unreplayed(Clear(s.engine), io)
    requires Admissible(setting.cfg, now, StateAt(0), round) && Unused(Opening(s.engine, io), round.io)
    requires round.io.grantNonce.value !in s.client.consumed
    ensures IsRun(setting, s, steps)
    ensures var end := After(setting, s, steps);
            end.controller.state == end.station.state == 1 && end.engine.state == DockingState.Hold && !InStep(end)
  {
    hide Unused, SessionAdmissible, EstablishWorks;
    var opening := SessionOpens(setting, s, request, now, io);
    var session := After(setting, s, opening);
    AskedBeforePresented(setting, now, 0, round);
    hide Admissible, After, IsRun;
    var stage := StageCompletes(setting, session, now, 0, round);
    var there := After(setting, session, stage);
    RunKeepsMessages(setting, s, opening);
    RunKeepsMessages(setting, session, stage);
    var repeat := HearAccessRequest(request, Answers, later, again);
    hide HearA;
    RequestRestarts(setting, there, repeat);
    NothingMore(setting, Next(setting, there, repeat));
    ConsRun(setting, there, repeat, []);
    RunsJoin(setting, session, stage, [repeat] + []);
    RunsJoin(setting, s, opening, stage + ([repeat] + []));
    steps := opening + (stage + ([repeat] + []));
  }

  /** The nominal draws are new to emptied nonce caches, and so are those of the round that follows. */
  lemma NominalDrawsAreNew(s: EngineState, now: i64)
    requires var s0 := Clear(s);
             && s0.stationReplay.consumed == s0.chaserReplay.consumed == s0.gateReplay.consumed == {}
             && GrantIdOf(Deployment.Draw(2)) !in s0.consumedGrants.consumed
    ensures EstablishWorks(Deployment.NOMINAL_OPENING) && Unreplayed(Clear(s), Deployment.NOMINAL_OPENING)
    ensures Unused(Opening(s, Deployment.NOMINAL_OPENING), Deployment.NominalRound(now, 2).io)
  {
    hide Clear, GrantIdOf, Deployment.Draw;
    Deployment.OpeningWorks();
    Deployment.DrawsDiffer(2, 0);
    Deployment.DrawsDiffer(2, 1);
  }

  /** Such a run in the shipped deployment, with nothing left to choose: a new engine, everything confirmed. */
  lemma NominalDuplicate(setting: Setting, s: System, request: ToStation, now: i64) returns (steps: seq<Step>)
    requires setting.params.rate > 0.0 && setting.params.speed > 0.0
    requires Deployment.Shipped(setting.cfg) && setting.cfg.policy.evaluate == Commercial(setting.cfg.station.keyId)
    requires MatchedTrust(setting.cfg) && ClientTrusts(setting.cfg, setting.bundle, setting.trust)
    requires Deployment.CurrentAt(now, setting.cfg.bundle)
    requires Started(s, request) && request.scenario == Some(Nominal)
    requires s.engine == Start(EPHEMERAL, EPHEMERAL, EPHEMERAL, EPHEMERAL) && s.client == EPHEMERAL
    ensures IsRun(setting, s, steps) && !InStep(After(setting, s, steps))
  {
    var io, round := Deployment.NOMINAL_OPENING, Deployment.NominalRound(now, 2);
    NominalDrawsAreNew(s.engine, now);
    hide Started, Commercial, Admissible, Deployment.Good, SessionAdmissible, MatchedTrust, ClientTrusts, Unused, IsRun, After, InStep,
         Unreplayed, Clear, Opening, EstablishWorks, Deployment.NOMINAL_OPENING;
    Deployment.SessionIsAdmitted(setting.cfg, now);
    Deployment.NominalIsGood(setting.cfg, now, 0, 2);
    Deployment.GoodIsAdmissible(setting.cfg, now, 0, round);
    steps := DuplicateAccessRequest(setting, s, request, now, io, round, now, io);
  }

  // ------------------------------------------------------------------ spent twice

  /** None of the three nonce caches has a journal. */
  predicate NoncesEphemeral(s: EngineState) {
    s.stationReplay.backend.None? && s.chaserReplay.backend.None? && s.gateReplay.backend.None?
  }

  lemma LinksKeepNoJournal(cfg: EngineConfig, s: EngineState, claims: ProtocolClaims, now: i64, io: LinkIo)
    requires NoncesEphemeral(s)
    ensures NoncesEphemeral(Engine.ToStation(cfg, s, claims, now, io).0)
    ensures NoncesEphemeral(Engine.ToChaser(cfg, s, claims, now, io).0)
  {
  }

  lemma EstablishKeepsNoJournal(cfg: EngineConfig, s: EngineState, now: i64, scenario: Scenario, io: EstablishIo)
    requires NoncesEphemeral(s)
    ensures NoncesEphemeral(Establish(cfg, s, now, scenario, io).0)
  {
    hide Present, Engine.ToStation;
    if io.session.Some? && io.request.nonce.Some? {
      var claims := RequestClaims(cfg, now, io.request.nonce.value);
      LinksKeepNoJournal(cfg, Clear(s), claims, now, io.request);
      var s1 := Engine.ToStation(cfg, Clear(s), claims, now, io.request).0;
      PresentKeepsNoJournal(cfg, s1.(authorization := s1.authorization.(identityVerified := true)),
                            SessionIdOf(io.session.value), now, scenario, io);
    }
  }

  lemma PresentKeepsNoJournal(cfg: EngineConfig, s: EngineState, sid: Bytes, now: i64, scenario: Scenario, io: EstablishIo)
    requires NoncesEphemeral(s)
    ensures NoncesEphemeral(Present(cfg, s, sid, now, scenario, io).0)
  {
    hide Engine.ToStation, Engine.ToChaser, Admit, IssueCredentials;
    if io.challenge.Some? && io.offer.nonce.Some? {
      var offer := OfferClaims(cfg, now, io.offer.nonce.value, sid, io.challenge.value);
      LinksKeepNoJournal(cfg, s, offer, now, io.offer);
      var s1 := Engine.ToChaser(cfg, s, offer, now, io.offer).0;
      var (made, credentials) := IssueCredentials(cfg, now, scenario, io);
      var s2 := s1.(signed := s1.signed + made);
      if credentials.Ok? && io.proof.nonce.Some? {
        var proof := ProofClaims(cfg, now, io.proof.nonce.value, sid, io.challenge.value, credentials.value);
        LinksKeepNoJournal(cfg, s2, proof, now, io.proof);
        var s3 := Engine.ToStation(cfg, s2, proof, now, io.proof).0;
        forall offered, proven
          ensures NoncesEphemeral(s3) ==> NoncesEphemeral(Admit(cfg, s3, sid, offered, proven, now).0)
        {
          AdmitKeepsNoJournal(cfg, s3, sid, offered, proven, now);
        }
      }
    }
  }

  lemma AdmitKeepsNoJournal(cfg: EngineConfig, s: EngineState, sid: Bytes, offer: VerifiedEnvelope, proof: VerifiedEnvelope, now: i64)
    ensures NoncesEphemeral(s) ==> NoncesEphemeral(Admit(cfg, s, sid, offer, proof, now).0)
  {
  }

  lemma IssueKeepsNoJournal(cfg: EngineConfig, s: EngineState, requested: byte, now: i64, readiness: Readiness, io: IssueIo)
    requires NoncesEphemeral(s)
    ensures NoncesEphemeral(Issue(cfg, s, requested, now, readiness, io).0)
  {
    hide ProveHolder, Decide;
    if s.sessionId.Some? && TransitionFor(s.state, requested).Some? {
      var sid, stage := s.sessionId.value, TransitionFor(s.state, requested).value.1;
      ProofKeepsNoJournal(cfg, s, sid, now, io);
      var s1 := ProveHolder(cfg, s, sid, now, io).0;
      DecideKeepsNoJournal(cfg, s1, sid, stage, requested, now, readiness, io);
    }
  }

  lemma ProofKeepsNoJournal(cfg: EngineConfig, s: EngineState, sid: Bytes, now: i64, io: IssueIo)
    requires NoncesEphemeral(s)
    ensures NoncesEphemeral(ProveHolder(cfg, s, sid, now, io).0)
  {
    hide Engine.ToStation, Engine.ToChaser;
    if io.challenge.Some? && io.offer.nonce.Some? {
      var offer := OfferClaims(cfg, now, io.offer.nonce.value, sid, io.challenge.value);
      LinksKeepNoJournal(cfg, s, offer, now, io.offer);
      if io.proof.nonce.Some? {
        var proof := ProofClaims(cfg, now, io.proof.nonce.value, sid, io.challenge.value, []);
        LinksKeepNoJournal(cfg, Engine.ToChaser(cfg, s, offer, now, io.offer).0, proof, now, io.proof);
      }
    }
  }

  lemma DecideKeepsNoJournal(cfg: EngineConfig, s: EngineState, sid: Bytes, stage: AuthorizedStage, requested: byte, now: i64,
                             readiness: Readiness, io: IssueIo)
    requires NoncesEphemeral(s)
    ensures NoncesEphemeral(Decide(cfg, s, sid, stage, requested, now, readiness, io).0)
  {
    hide Evaluate, TransitionRequest;
  }

  /** What one admissible round adds to the history and to the grant cache. */
  lemma RoundSpends(cfg: EngineConfig, s: EngineState, established: i64, round: Round)
    requires MatchedTrust(cfg) && InSession(s, established) && NoncesEphemeral(s)
    requires Admissible(cfg, established, s.state, round) && Unused(SpentBy(s), round.io)
    ensures IssueWorks(round.io)
    ensures var s' := Play(cfg, s, round);
            var gid := GrantIdOf(round.io.grantId.value);
            && s.log < s'.log && SpentAt(s'.log, |s'.log| - 1, Some(gid))
            && s'.consumedGrants == s.consumedGrants.Consume(gid, Committed).0
            && NoncesEphemeral(s')
  {
    hide Issue, Redeem, Admissible, GrantedStep, MayRelease;
    var requested := StateNumber(s.state) + 1;
    IssueSucceeds(cfg, s, established, round);
    IssueEffect(cfg, s, requested, round.asked, round.readiness, round.io);
    IssueKeepsNoJournal(cfg, s, requested, round.asked, round.readiness, round.io);
    var (s1, issued) := Issue(cfg, s, requested, round.asked, round.readiness, round.io);
    RedemptionSpends(cfg, s, s1, established, round, issued.value);
  }

  lemma GrantSays(cfg: EngineConfig, s: EngineState, s1: EngineState, established: i64, round: Round, outcome: TransitionOutcome)
    requires Admissible(cfg, established, s.state, round) && Unused(SpentBy(s), round.io) && InSession(s, established)
    requires GrantedStep(cfg, s, s1, StateNumber(s.state) + 1, round.asked, round.readiness, round.io, outcome)
    ensures IssueWorks(round.io) && round.redeemIo == RedeemIo(Committed, Committed)
    ensures s.log < s1.log && s1.consumedGrants == s.consumedGrants && Authorized(s1)
    ensures outcome.signedGrant.Some?
    ensures var w, gid := outcome.signedGrant.value, GrantIdOf(round.io.grantId.value);
            && w.CoseSign1? && w.payload.Some? && w.payload.value.Envelope? && ClaimsOf(w).grantId == Some(gid)
            && gid !in s.consumedGrants.consumed
  {
    hide IssuedWell, EvaluateStage, TransitionRequest;
  }

  lemma RedemptionSpends(cfg: EngineConfig, s: EngineState, s1: EngineState, established: i64, round: Round,
                         outcome: TransitionOutcome)
    requires MatchedTrust(cfg) && InSession(s, established) && NoncesEphemeral(s1)
    requires Admissible(cfg, established, s.state, round) && Unused(SpentBy(s), round.io)
    requires GrantedStep(cfg, s, s1, StateNumber(s.state) + 1, round.asked, round.readiness, round.io, outcome)
    ensures outcome.signedGrant.Some? && IssueWorks(round.io)
    ensures var s' := Redeem(cfg, s1, outcome.signedGrant.value, StateNumber(s.state) + 1, round.presented, round.laterReadiness,
                             round.redeemIo).0;
            var gid := GrantIdOf(round.io.grantId.value);
            && s.log < s'.log && SpentAt(s'.log, |s'.log| - 1, Some(gid))
            && s'.consumedGrants == s.consumedGrants.Consume(gid, Committed).0
            && NoncesEphemeral(s')
  {
    hide Redeem, Admissible, GrantedStep, CheckEnvelope, EvaluateStage, BoundTo, Unused, MatchedTrust, SpentBy;
    GrantSays(cfg, s, s1, established, round, outcome);
    var requested := StateNumber(s.state) + 1;
    var w := outcome.signedGrant.value;
    GrantRedeems(cfg, s, s1, established, round, outcome);
    RedeemEffect(cfg, s1, w, requested, round.presented, round.laterReadiness, round.redeemIo);
    RedeemCaches(cfg, s1, w, requested, round.presented, round.laterReadiness, round.redeemIo);
    GateAfterRedeem(cfg, s1, w, requested, round.presented, round.laterReadiness, round.redeemIo);
    hide MayRelease;
    var s' := Redeem(cfg, s1, w, requested, round.presented, round.laterReadiness, round.redeemIo).0;
    OnlyThatGrant(s1.consumedGrants, s'.consumedGrants, GrantIdOf(round.io.grantId.value), Committed);
  }

  ghost predicate Nominally(cfg: EngineConfig, now: i64) {
    && Deployment.Shipped(cfg) && cfg.policy.evaluate == Commercial(cfg.station.keyId) && MatchedTrust(cfg)
    && Deployment.CurrentAt(now, cfg.bundle)
  }

  /** Establish, then one nominal round with fixed draws. */
  function OneStage(cfg: EngineConfig, s: EngineState, now: i64): EngineState
  {
    Play(cfg, Establish(cfg, s, now, Nominal, Deployment.NOMINAL_OPENING).0, Deployment.NominalRound(now, 2))
  }

  function GrantId(): Bytes {
    GrantIdOf(Deployment.Draw(2))
  }

  lemma SessionIsOpen(cfg: EngineConfig, s: EngineState, now: i64)
    requires Nominally(cfg, now) && NoncesEphemeral(s)
    requires s.consumedGrants.backend.Some? && GrantId() !in s.consumedGrants.consumed
    ensures var s1 := Establish(cfg, s, now, Nominal, Deployment.NOMINAL_OPENING).0;
            && InSession(s1, now) && s1.state == DockingState.Hold && NoncesEphemeral(s1)
            && s.log < s1.log && s1.consumedGrants == s.consumedGrants
            && Unused(SpentBy(s1), Deployment.NominalRound(now, 2).io)
  {
    hide Establish, Commercial, SessionAdmissible, MatchedTrust, EstablishWorks, Unreplayed, Unused, Deployment.PROFILE,
         Deployment.NOMINAL_OPENING, Deployment.NominalRound;
    ResetForgets(s);
    NominalDrawsAreNew(s, now);
    hide Clear;
    Deployment.SessionIsAdmitted(cfg, now);
    EstablishmentSucceeds(cfg, s, now, Nominal, Deployment.NOMINAL_OPENING);
    EstablishEffect(cfg, s, now, Nominal, Deployment.NOMINAL_OPENING);
    EstablishKeepsNoJournal(cfg, s, now, Nominal, Deployment.NOMINAL_OPENING);
  }

  lemma OneStageSpends(cfg: EngineConfig, s: EngineState, now: i64)
    requires Nominally(cfg, now) && NoncesEphemeral(s)
    requires s.consumedGrants.backend.Some? && GrantId() !in s.consumedGrants.consumed
    ensures var s' := OneStage(cfg, s, now);
            && s.log < s'.log && SpentAt(s'.log, |s'.log| - 1, Some(GrantId()))
            && s'.consumedGrants == s.consumedGrants.Consume(GrantId(), Committed).0
            && NoncesEphemeral(s')
  {
    hide Establish, Play, Commercial, Admissible, Deployment.Good, MatchedTrust, Unused, Deployment.PROFILE, Deployment.Draw,
         Deployment.NOMINAL_OPENING, GrantIdOf, SpentBy, SpentAt, InSession, NoncesEphemeral;
    SessionIsOpen(cfg, s, now);
    Deployment.NominalIsGood(cfg, now, 0, 2);
    Deployment.GoodIsAdmissible(cfg, now, 0, Deployment.NominalRound(now, 2));
    RoundSpends(cfg, Establish(cfg, s, now, Nominal, Deployment.NOMINAL_OPENING).0, now, Deployment.NominalRound(now, 2));
  }

  lemma ResetForgets(s: EngineState)
    requires NoncesEphemeral(s)
    ensures var s0 := Clear(s);
            && s0.stationReplay.consumed == s0.chaserReplay.consumed == s0.gateReplay.consumed == {}
            && s0.consumedGrants.consumed == (if s.consumedGrants.backend.None? then {} else s.consumedGrants.consumed)
  {
  }

  /** A journal whose only line was torn after two digits. */
  const TORN: Bytes := [48, 48]

  lemma TornLoses(v: Bytes)
    requires |v| > 1
    ensures WithBackend(TORN) == Some(Cache({[0]}, Some(TORN)))
    ensures LosesCommit(TORN, v)
  {
    assert TORN[2..] == [];
    assert HexDecode([]) == Some([]);
    assert HexDecode(TORN) == Some([0] + []);
    assert LineEnd(TORN) == 2;
    assert [0] + [] == [0];
    assert Load(TORN) == Some([[0]]);
    var torn: seq<Bytes> := [[0]];
    assert (set x | x in torn) == {[0]};
    assert LastStart(TORN) == 0;
    assert TailOf(TORN) == TORN && WholeOf(TORN) == [];
    NothingLoads();
    LosesCommitPlainly(TORN, v);
  }

  lemma GrantIdIsLong()
    ensures |GrantId()| > 1
  {
  }

  /** Single use fails without fresh identifiers when a commit is lost: an engine over a journal with a torn
      line redeems a grant, restarts, and redeems a grant of the same identifier again. */
  lemma GrantRedeemedTwice(cfg: EngineConfig, now: i64) returns (s: EngineState, end: EngineState)
    requires Nominally(cfg, now)
    ensures s == Start(EPHEMERAL, EPHEMERAL, EPHEMERAL, Cache({[0]}, Some(TORN)))
    ensures WithBackend(TORN) == Some(s.consumedGrants) && Durable(s)
    ensures var restarted := Restart(OneStage(cfg, s, now));
            && restarted.Some? && end == OneStage(cfg, restarted.value, now)
    ensures !SingleUse(end.log)
  {
    hide OneStage, Nominally, Load, LosesCommit, GrantId, HexDecode, HexEncode, Establish, SingleUse, Durable, TORN;
    var gid := GrantId();
    GrantIdIsLong();
    TornLoses(gid);
    s := Start(EPHEMERAL, EPHEMERAL, EPHEMERAL, Cache({[0]}, Some(TORN)));
    assert Durable(s) by {
      StartsUnspent(EPHEMERAL, EPHEMERAL, EPHEMERAL, Cache({[0]}, Some(TORN)));
    }
    OneStageSpends(cfg, s, now);
    var first := OneStage(cfg, s, now);
    ComesUpForgetting(s, first, gid);
    var again := Restart(first).value;
    OneStageSpends(cfg, again, now);
    end := OneStage(cfg, again, now);
    SpentInBoth(first.log, again.log, end.log, gid);
  }

  lemma ComesUpForgetting(s: EngineState, first: EngineState, gid: Bytes)
    requires NoncesEphemeral(first) && s.consumedGrants.backend.Some? && gid !in s.consumedGrants.consumed
    requires LosesCommit(s.consumedGrants.backend.value, gid)
    requires first.consumedGrants == s.consumedGrants.Consume(gid, Committed).0
    ensures Restart(first).Some?
    ensures var again := Restart(first).value;
            && NoncesEphemeral(again) && again.log == first.log + [Cleared]
            && again.consumedGrants.backend.Some? && gid !in again.consumedGrants.consumed
  {
    hide LosesCommit;
    SpentAgain(s.consumedGrants, gid);
  }

  lemma SpentInBoth(first: seq<Event>, again: seq<Event>, end: seq<Event>, gid: Bytes)
    requires again == first + [Cleared] && again < end
    requires SpentAt(first, |first| - 1, Some(gid)) && SpentAt(end, |end| - 1, Some(gid))
    ensures !SingleUse(end)
  {
    var i := |first| - 1;
    assert end[i] == again[i] == first[i];
    assert SpentAt(end, i, Some(gid));
  }
}
