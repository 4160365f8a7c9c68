/** Nominal completeness: with working parts and admissible evidence every round advances, and four
    rounds from an establishment reach hard dock. */
module EngineLiveness {
  import opened Basics
  import opened Replay
  import opened Profile
  import opened Cedar
  import opened StateMachine
  import opened Protocol
  import opened Engine
  import opened EngineSteps

  predicate Holds(trust: TrustStore, identity: IdentityKey) {
    identity.keyId in trust && trust[identity.keyId] == identity.key
  }

  /** Every receiver's store holds the sender's key. */
  predicate MatchedTrust(cfg: EngineConfig) {
    && Holds(cfg.stationPeerTrust, cfg.chaser) && Holds(cfg.chaserPeerTrust, cfg.station)
    && Holds(cfg.credentialTrust, cfg.credentialIssuer) && Holds(cfg.gateTrust, cfg.station)
  }

  predicate Works(io: LinkIo) {
    io.nonce.Some? && io.signs && io.append.Committed?
  }

  predicate EstablishWorks(io: EstablishIo) {
    && io.session.Some? && io.challenge.Some? && io.registrationSigns && io.certificationSigns
    && Works(io.request) && Works(io.offer) && Works(io.proof)
    && io.request.nonce != io.proof.nonce
  }

  predicate IssueWorks(io: IssueIo) {
    && io.challenge.Some? && io.grantId.Some? && io.grantNonce.Some? && io.grantSigns
    && Works(io.offer) && Works(io.proof)
  }

  /** The evidence the two issued credentials become. */
  function NominalCredentials(now: i64): seq<VerifiedCredential> {
    [VerifiedCredential("registered-vehicle-v1", "VehicleRegistrationCredential", "space:vehicle-registration:v1",
                        "recognized-registrars", now),
     VerifiedCredential("idss-compatible-v1", "DockingCertificationCredential", "space:docking-certification:v1",
                        "recognized-docking-authorities", now)]
  }

  lemma LinkDelivers(claims: ProtocolClaims, signer: IdentityKey, trust: TrustStore, cache: Cache, now: i64, io: LinkIo)
    requires Holds(trust, signer) && claims.issuer == signer.keyId && Works(io)
    requires claims.issuedAt == now && |claims.nonce| == 32 && claims.nonce !in cache.consumed
    ensures var (cache', made, r) := Exchange(claims, signer, trust, claims.recipient, cache, now, io);
            && r == Ok(VerifiedEnvelope(signer.keyId, claims))
            && cache' == cache.Consume(claims.nonce, Committed).0
            && cache'.consumed == cache.consumed + {claims.nonce}
  {
  }

  lemma CredentialsDeliver(cfg: EngineConfig, now: i64, scenario: Scenario, io: EstablishIo)
    requires MatchedTrust(cfg) && EstablishWorks(io) && scenario != Scenario.ExpiredCredential
    requires I64_MIN + 60 <= now <= I64_MAX - 86_400
    ensures var credentials := IssueCredentials(cfg, now, scenario, io).1;
            && credentials.Ok? && |credentials.value| == 2
            && VerifyCredentials(credentials.value, cfg.credentialTrust, cfg.chaser.keyId, now)
               == Ok(NominalCredentials(now))
  {
    var credentials := IssueCredentials(cfg, now, scenario, io).1.value;
    assert Wrap(now - 60) == now - 60 && Wrap(now + 86_400) == now + 86_400;
    assert VerifyCredentials([], cfg.credentialTrust, cfg.chaser.keyId, now) == Ok([]);
    assert credentials[1..][1..] == [];
    assert credentials[1..][0] == credentials[1];
    var second := NominalCredentials(now)[1];
    assert VerifyCredentials(credentials[1..], cfg.credentialTrust, cfg.chaser.keyId, now) == Ok([second] + []);
    assert [NominalCredentials(now)[0]] + ([second] + []) == NominalCredentials(now);
  }

  /** What the profile and the policy must say for a session to be admitted. */
  predicate SessionAdmissible(cfg: EngineConfig, now: i64) {
    && I64_MIN + 60 <= now <= I64_MAX - 86_400
    && ValidateFoundation(cfg.profile, now, cfg.bundle).Ok?
    && ValidateCredentials(cfg.profile, NominalCredentials(now), now).Ok?
    && cfg.policy.evaluate(SessionRequest(cfg.chaser.keyId, cfg.station.keyId, NominalCredentials(now), true)) == Allow
  }

  /** The engine part that four rounds depend on. */
  datatype Spent = Spent(station: set<Bytes>, chaser: set<Bytes>, gate: set<Bytes>, grants: set<Bytes>)

  function SpentBy(s: EngineState): Spent {
    Spent(s.stationReplay.consumed, s.chaserReplay.consumed, s.gateReplay.consumed, s.consumedGrants.consumed)
  }

  ghost predicate InSession(s: EngineState, now: i64) {
    && s.sessionId.Some? && Authorized(s) && s.credentials == NominalCredentials(now)
  }

  lemma PresentSucceeds(cfg: EngineConfig, s: EngineState, sid: Bytes, now: i64, scenario: Scenario, io: EstablishIo)
    requires MatchedTrust(cfg) && EstablishWorks(io) && scenario != Scenario.ExpiredCredential
    requires SessionAdmissible(cfg, now)
    requires s.authorization.identityVerified
    requires io.offer.nonce.value !in s.chaserReplay.consumed && io.proof.nonce.value !in s.stationReplay.consumed
    ensures var (s', r) := Present(cfg, s, sid, now, scenario, io);
            && r.Ok? && InSession(s', now) && s'.state == s.state
            && SpentBy(s') == Spent(s.stationReplay.consumed + {io.proof.nonce.value},
                                    s.chaserReplay.consumed + {io.offer.nonce.value},
                                    s.gateReplay.consumed, s.consumedGrants.consumed)
  {
    hide Exchange, IssueCredentials, VerifyCredentials, ValidateFoundation, ValidateCredentials, NominalCredentials, SessionRequest;
    var offer := OfferClaims(cfg, now, io.offer.nonce.value, sid, io.challenge.value);
    LinkDelivers(offer, cfg.station, cfg.chaserPeerTrust, s.chaserReplay, now, io.offer);
    CredentialsDeliver(cfg, now, scenario, io);
    var (made, credentials) := IssueCredentials(cfg, now, scenario, io);
    var proof := ProofClaims(cfg, now, io.proof.nonce.value, sid, io.challenge.value, credentials.value);
    LinkDelivers(proof, cfg.chaser, cfg.stationPeerTrust, s.stationReplay, now, io.proof);
  }

  /** The three nonces of an establishment are new to the caches it meets, after the clearing. */
  predicate Unreplayed(s: EngineState, io: EstablishIo)
    requires EstablishWorks(io)
  {
    && io.request.nonce.value !in s.stationReplay.consumed && io.proof.nonce.value !in s.stationReplay.consumed
    && io.offer.nonce.value !in s.chaserReplay.consumed
  }

  lemma EstablishmentSucceeds(cfg: EngineConfig, s: EngineState, now: i64, scenario: Scenario, io: EstablishIo)
    requires MatchedTrust(cfg) && EstablishWorks(io) && scenario != Scenario.ExpiredCredential
    requires SessionAdmissible(cfg, now)
    requires Unreplayed(Clear(s), io)
    ensures var (s', r) := Establish(cfg, s, now, scenario, io);
            var s0 := Clear(s);
            && r.Ok? && InSession(s', now) && s'.state == DockingState.Hold
            && SpentBy(s') == Spent(s0.stationReplay.consumed + {io.request.nonce.value} + {io.proof.nonce.value},
                                    s0.chaserReplay.consumed + {io.offer.nonce.value},
                                    s0.gateReplay.consumed, s0.consumedGrants.consumed)
  {
    hide Present;
    var s0 := Clear(s);
    var claims := RequestClaims(cfg, now, io.request.nonce.value);
    LinkDelivers(claims, cfg.chaser, cfg.stationPeerTrust, s0.stationReplay, now, io.request);
    var s1 := ToStation(cfg, s0, claims, now, io.request).0;
    PresentSucceeds(cfg, s1.(authorization := s1.authorization.(identityVerified := true)),
                    SessionIdOf(io.session.value), now, scenario, io);
  }

  /** One round: when it is requested and when it is redeemed, on which readiness, with which draws. */
  datatype Round = Round(asked: i64, readiness: Readiness, io: IssueIo,
                         presented: i64, laterReadiness: Readiness, redeemIo: RedeemIo)

  function EvidenceAt(established: i64, proof: i64, readiness: Readiness): Evidence {
    Evidence(NominalCredentials(established), Some(proof), true, readiness)
  }

  /** A round that must succeed from stage `k`: the profile and the policy allow the next stage when
      asked; when presented the profile's validity, the credential status and the readiness are
      still good, and the delay is within the skew, the time to live and the proof age. */
  ghost predicate Admissible(cfg: EngineConfig, established: i64, k: DockingState, round: Round) {
    var next: int := StateNumber(k) + 1;
    && next <= 4 && TransitionNames(k, next).Some?
    && IssueWorks(round.io) && round.redeemIo == RedeemIo(Committed, Committed)
    && var evidence := EvidenceAt(established, round.asked, round.readiness);
    && var rule := EvaluateStage(cfg, k, next, round.asked, evidence);
    && rule.Ok?
    && cfg.policy.evaluate(TransitionRequest(cfg.chaser.keyId, cfg.station.keyId, ActionOf(cfg, rule.value), evidence,
                                             FreshFor(cfg, rule.value, round.asked, round.readiness))) == Allow
    && var (from, to) := TransitionNames(k, next).value;
    && var stageRule := FindRule(cfg.profile.stageRules, from, to).value;
    && var delay := round.presented - round.asked;
    && 0 <= delay <= 30 && delay <= rule.value.entitlementTtl <= I64_MAX
    && (stageRule.holderProofRequired ==> delay <= MaximumProofAge(stageRule))
    && ValidateFoundation(cfg.profile, round.presented, cfg.bundle).Ok?
    && ValidateCredentials(cfg.profile, NominalCredentials(established), round.presented).Ok?
    && ReadinessAge(round.presented, round.laterReadiness) <= stageRule.readinessMaximumAgeMs
  }

  lemma StillAcceptedWhenPresented(cfg: EngineConfig, established: i64, k: DockingState, round: Round)
    requires Admissible(cfg, established, k, round)
    ensures EvaluateStage(cfg, k, StateNumber(k) + 1, round.presented, EvidenceAt(established, round.asked, round.laterReadiness))
         == EvaluateStage(cfg, k, StateNumber(k) + 1, round.asked, EvidenceAt(established, round.asked, round.readiness))
  {
  }

  predicate Unused(spent: Spent, io: IssueIo) {
    && IssueWorks(io)
    && io.proof.nonce.value !in spent.station && io.offer.nonce.value !in spent.chaser
    && io.grantNonce.value !in spent.gate && GrantIdOf(io.grantId.value) !in spent.grants
  }

  function SpendRound(spent: Spent, io: IssueIo): Spent
    requires IssueWorks(io)
  {
    Spent(spent.station + {io.proof.nonce.value}, spent.chaser + {io.offer.nonce.value},
          spent.gate + {io.grantNonce.value}, spent.grants + {GrantIdOf(io.grantId.value)})
  }

  function Play(cfg: EngineConfig, s: EngineState, round: Round): EngineState
  {
    var requested := StateNumber(s.state) + 1;
    var (s1, issued) := Issue(cfg, s, requested, round.asked, round.readiness, round.io);
    if issued.Ok? && issued.value.signedGrant.Some? then
      Redeem(cfg, s1, issued.value.signedGrant.value, requested, round.presented, round.laterReadiness, round.redeemIo).0
    else s1
  }

  lemma IssueSucceeds(cfg: EngineConfig, s: EngineState, established: i64, round: Round)
    requires MatchedTrust(cfg) && InSession(s, established)
    requires Admissible(cfg, established, s.state, round) && Unused(SpentBy(s), round.io)
    ensures var requested := StateNumber(s.state) + 1;
            var (s', r) := Issue(cfg, s, requested, round.asked, round.readiness, round.io);
            && r.Ok? && r.value.approved
            && SpentBy(s') == SpentBy(s).(station := SpentBy(s).station + {round.io.proof.nonce.value},
                                          chaser := SpentBy(s).chaser + {round.io.offer.nonce.value})
  {
    hide TransitionRequest, Exchange;
    var sid := s.sessionId.value;
    var io := round.io;
    var requested := StateNumber(s.state) + 1;
    var offer := OfferClaims(cfg, round.asked, io.offer.nonce.value, sid, io.challenge.value);
    LinkDelivers(offer, cfg.station, cfg.chaserPeerTrust, s.chaserReplay, round.asked, io.offer);
    var proof := ProofClaims(cfg, round.asked, io.proof.nonce.value, sid, io.challenge.value, []);
    LinkDelivers(proof, cfg.chaser, cfg.stationPeerTrust, s.stationReplay, round.asked, io.proof);
    ProveHolderFrame(cfg, s, sid, round.asked, io);
    var s1 := ProveHolder(cfg, s, sid, round.asked, io).0;
    assert EvidenceOf(s1, round.readiness) == EvidenceAt(established, round.asked, round.readiness);
    var rule := EvaluateStage(cfg, s.state, requested, round.asked, EvidenceOf(s1, round.readiness)).value;
    GrantEffect(cfg, s1, sid, requested, round.asked, round.readiness, rule, DecisionOf(cfg), io);
  }

  /** The gate accepts the station's grant within the skew, once. */
  lemma GateAccepts(cfg: EngineConfig, claims: ProtocolClaims, cache: Cache, now: i64)
    requires Holds(cfg.gateTrust, cfg.station)
    requires claims.issuer == cfg.station.keyId && claims.recipient == cfg.chaser.keyId
    requires Abs(now - claims.issuedAt) <= 30 && |claims.nonce| == 32 && claims.nonce !in cache.consumed
    ensures var w := SignEnvelope(claims, cfg.station, true).value;
            var (cache', r) := VerifyEnvelope(w, cfg.gateTrust, cfg.chaser.keyId, cache, now, MAX_CLOCK_SKEW, Committed);
            r == Ok(VerifiedEnvelope(cfg.station.keyId, claims)) && cache'.consumed == cache.consumed + {claims.nonce}
  {
  }

  /** Before a grant expires it is bound to its own session, stage and pending entry. */
  lemma GrantIsBound(cfg: EngineConfig, e: Event, sid: Bytes, presented: i64)
    requires e.Issued? && IssuedWell(cfg, e) && e.claims.sessionId == Some(sid)
    requires var rule := EvaluateStage(cfg, e.from, e.requested, e.now, e.evidence).value;
             0 <= presented - e.now <= rule.entitlementTtl <= I64_MAX
    ensures BoundTo(e.claims, PendingEntitlement(e.requested, DecisionOf(cfg)), e.requested, sid,
                    TransitionFor(e.from, e.requested).value.1, presented)
  {
    var ttl := EvaluateStage(cfg, e.from, e.requested, e.now, e.evidence).value.entitlementTtl;
    assert Wrap(ttl) == ttl;
  }

  lemma GrantRedeems(cfg: EngineConfig, s: EngineState, s': EngineState, established: i64, round: Round, outcome: TransitionOutcome)
    requires MatchedTrust(cfg) && InSession(s, established)
    requires Admissible(cfg, established, s.state, round) && Unused(SpentBy(s), round.io)
    requires GrantedStep(cfg, s, s', StateNumber(s.state) + 1, round.asked, round.readiness, round.io, outcome)
    ensures var requested := StateNumber(s.state) + 1;
            var (s'', r) := Redeem(cfg, s', outcome.signedGrant.value, requested, round.presented, round.laterReadiness,
                                   round.redeemIo);
            r.Ok? && s''.gateReplay.consumed == s'.gateReplay.consumed + {round.io.grantNonce.value}
  {
    hide Evaluate, Release, CheckEnvelope, VerifyEnvelope;
    var requested := StateNumber(s.state) + 1;
    var w := outcome.signedGrant.value;
    var e := s'.log[|s.log|];
    var gid := e.claims.grantId.value;
    GateAccepts(cfg, e.claims, s'.gateReplay, round.presented);
    var s1 := Accepted(cfg, s', w, round.presented, round.redeemIo).0;
    assert s'.pending[gid] == PendingEntitlement(requested, DecisionOf(cfg));
    ReleaseSucceeds(cfg, s1, established, round, e, gid, s.sessionId.value, w);
    assert s1.gateReplay.consumed == s'.gateReplay.consumed + {e.claims.nonce};
  }

  lemma ReleaseSucceeds(cfg: EngineConfig, s: EngineState, established: i64, round: Round, e: Event, gid: Bytes, sid: Bytes, w: Wire)
    requires Admissible(cfg, established, s.state, round)
    requires s.credentials == NominalCredentials(established) && s.holderProofAt == Some(round.asked)
    requires s.authorization.identityVerified && s.authorization.sessionAuthorized
    requires gid !in s.consumedGrants.consumed
    requires e.Issued? && IssuedWell(cfg, e) && e.claims.sessionId == Some(sid)
    requires e.from == s.state && e.requested == StateNumber(s.state) + 1 && e.now == round.asked
    requires e.evidence == EvidenceAt(established, round.asked, round.readiness)
    ensures var (event, stage) := TransitionFor(s.state, e.requested).value;
            var (s', r) := Release(cfg, s, e.claims, gid, PendingEntitlement(e.requested, DecisionOf(cfg)), event, stage, sid, w,
                                   e.requested, round.presented, round.laterReadiness, round.redeemIo);
            r.Ok? && s'.gateReplay == s.gateReplay
  {
    StillAcceptedWhenPresented(cfg, established, s.state, round);
    GrantIsBound(cfg, e, sid, round.presented);
    assert EvidenceOf(s, round.laterReadiness) == EvidenceAt(established, round.asked, round.laterReadiness);
    ReleaseEffect(cfg, s, e.claims, gid, PendingEntitlement(e.requested, DecisionOf(cfg)), sid, w, e.requested,
                  round.presented, round.laterReadiness, round.redeemIo);
  }

  /** An admissible round from an authorized session always advances exactly one stage. */
  lemma RoundAdvances(cfg: EngineConfig, s: EngineState, established: i64, round: Round)
    requires MatchedTrust(cfg) && InSession(s, established)
    requires Admissible(cfg, established, s.state, round) && Unused(SpentBy(s), round.io)
    ensures var s' := Play(cfg, s, round);
            && StateNumber(s'.state) == StateNumber(s.state) + 1
            && InSession(s', established)
            && SpentBy(s') == SpendRound(SpentBy(s), round.io)
  {
    hide Issue, Redeem, Admissible;
    var requested := StateNumber(s.state) + 1;
    IssueSucceeds(cfg, s, established, round);
    IssueEffect(cfg, s, requested, round.asked, round.readiness, round.io);
    var (s1, issued) := Issue(cfg, s, requested, round.asked, round.readiness, round.io);
    GrantRedeems(cfg, s, s1, established, round, issued.value);
    RedeemEffect(cfg, s1, issued.value.signedGrant.value, requested, round.presented, round.laterReadiness, round.redeemIo);
  }

  function StateAt(n: nat): DockingState
    requires n <= 4
  {
    [DockingState.Hold, DockingState.Approach, DockingState.FinalApproach, DockingState.SoftCapture, DockingState.HardDock][n]
  }

  lemma NumberDetermines(state: DockingState, n: nat)
    requires n <= 4 && StateNumber(state) == n
    ensures state == StateAt(n)
  {
  }

  function PlayAll(cfg: EngineConfig, s: EngineState, rounds: seq<Round>): EngineState
    decreases |rounds|
  {
    if rounds == [] || StateNumber(s.state) > 4 then s else PlayAll(cfg, Play(cfg, s, rounds[0]), rounds[1..])
  }

  /** Rounds admissible from stage `k` on, whose draws are new each time. */
  ghost predicate Plan(cfg: EngineConfig, established: i64, k: nat, spent: Spent, rounds: seq<Round>)
    decreases |rounds|
  {
    rounds != [] ==>
      && k < 4 && Admissible(cfg, established, StateAt(k), rounds[0])
      && Unused(spent, rounds[0].io)
      && Plan(cfg, established, k + 1, SpendRound(spent, rounds[0].io), rounds[1..])
  }

  lemma {:induction false} RoundsAdvance(cfg: EngineConfig, s: EngineState, established: i64, k: nat, rounds: seq<Round>)
    requires MatchedTrust(cfg) && InSession(s, established)
    requires k <= 4 && s.state == StateAt(k) && Plan(cfg, established, k, SpentBy(s), rounds)
    ensures k + |rounds| <= 4
    ensures PlayAll(cfg, s, rounds).state == StateAt(k + |rounds|)
    decreases |rounds|
  {
    hide Admissible, Play;
    if rounds != [] {
      RoundAdvances(cfg, s, established, rounds[0]);
      NumberDetermines(Play(cfg, s, rounds[0]).state, k + 1);
      RoundsAdvance(cfg, Play(cfg, s, rounds[0]), established, k + 1, rounds[1..]);
    }
  }

  /** From any engine state: an establishment with working parts, then four admissible rounds whose
      draws are new, reach hard dock. */
  lemma FourRoundsReachHardDock(cfg: EngineConfig, s: EngineState, now: i64, scenario: Scenario, io: EstablishIo, rounds: seq<Round>)
    requires MatchedTrust(cfg) && EstablishWorks(io) && scenario != Scenario.ExpiredCredential
    requires SessionAdmissible(cfg, now)
    requires Unreplayed(Clear(s), io)
    requires |rounds| == 4
    requires var s0 := Clear(s);
             Plan(cfg, now, 0, Spent(s0.stationReplay.consumed + {io.request.nonce.value} + {io.proof.nonce.value},
                                     s0.chaserReplay.consumed + {io.offer.nonce.value},
                                     s0.gateReplay.consumed, s0.consumedGrants.consumed), rounds)
    ensures Establish(cfg, s, now, scenario, io).1.Ok?
    ensures PlayAll(cfg, Establish(cfg, s, now, scenario, io).0, rounds).state == DockingState.HardDock
  {
    hide Establish, Plan, PlayAll;
    EstablishmentSucceeds(cfg, s, now, scenario, io);
    RoundsAdvance(cfg, Establish(cfg, s, now, scenario, io).0, now, 0, rounds);
  }
}
