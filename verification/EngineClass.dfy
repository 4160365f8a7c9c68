/** The engine object, whose methods update its fields step by step. */
module EngineClass {
  import opened Basics
  import opened Replay
  import opened Profile
  import opened Cedar
  import opened StateMachine
  import opened Protocol
  import opened Engine

  class AccessEngine {
    const config: EngineConfig
    var stationReplay: ReplayCache
    var chaserReplay: ReplayCache
    var gateReplay: ReplayCache
    var consumedGrants: ReplayCache
    var state: DockingState
    var authorization: AuthorizationContext
    var sessionId: Option<Bytes>
    var verifiedCredentials: seq<VerifiedCredential>
    var holderProofAt: Option<i64>
    var pendingEntitlements: map<Bytes, PendingEntitlement>
    ghost var log: seq<Event>
    ghost var signed: set<Signature>

    ghost function Repr(): set<object>
      reads this
    {
      {this, stationReplay, chaserReplay, gateReplay, consumedGrants}
    }

    ghost predicate Valid()
      reads this
    {
      && stationReplay != chaserReplay && stationReplay != gateReplay && stationReplay != consumedGrants
      && chaserReplay != gateReplay && chaserReplay != consumedGrants && gateReplay != consumedGrants
    }

    ghost function View(): EngineState
      reads this, stationReplay, chaserReplay, gateReplay, consumedGrants
    {
      EngineState(state, authorization, sessionId, verifiedCredentials, holderProofAt, pendingEntitlements,
                  stationReplay.View(), chaserReplay.View(), gateReplay.View(), consumedGrants.View(), log, signed)
    }

    /** `new` followed by `set_replay_state`. */
    constructor (config: EngineConfig, station: ReplayCache, chaser: ReplayCache, gate: ReplayCache, grants: ReplayCache)
      requires station != chaser && station != gate && station != grants
      requires chaser != gate && chaser != grants && gate != grants
      ensures Valid() && this.config == config
      ensures View() == Start(station.View(), chaser.View(), gate.View(), grants.View())
      ensures Repr() == {this, station, chaser, gate, grants}
    {
      this.config := config;
      stationReplay, chaserReplay, gateReplay, consumedGrants := station, chaser, gate, grants;
      state, authorization, sessionId := DockingState.Hold, NO_AUTHORIZATION, None;
      verifiedCredentials, holderProofAt, pendingEntitlements := [], None, map[];
      log, signed := [], {};
    }

    method Reset()
      requires Valid()
      modifies Repr()
      ensures Valid() && Repr() == old(Repr())
      ensures View() == Clear(old(View()))
    {
      stationReplay.ResetEphemeral();
      chaserReplay.ResetEphemeral();
      gateReplay.ResetEphemeral();
      consumedGrants.ResetEphemeral();
      state := DockingState.Hold;
      authorization := NO_AUTHORIZATION;
      sessionId := None;
      verifiedCredentials := [];
      holderProofAt := None;
      pendingEntitlements := map[];
      log := log + [Cleared];
    }

    /** `exchange`. */
    static method ExchangeInto(claims: ProtocolClaims, signer: IdentityKey, trust: TrustStore, recipient: Bytes,
                               replay: ReplayCache, now: i64, io: LinkIo)
      returns (r: Result<VerifiedEnvelope, SessionError>, ghost made: set<Signature>)
      modifies replay
      ensures (replay.View(), made, r) == Exchange(claims, signer, trust, recipient, old(replay.View()), now, io)
    {
      var encoded := SignEnvelope(claims, signer, io.signs);
      if encoded.Err? {
        return Err(ProtocolFailed(encoded.error)), {};
      }
      made := SignatureOf(encoded);
      var verified := VerifyEnvelopeInto(encoded.value, trust, recipient, replay, now, MAX_CLOCK_SKEW, io.append);
      r := if verified.Ok? then Ok(verified.value) else Err(ProtocolFailed(verified.error));
    }

    method SendToStation(claims: ProtocolClaims, now: i64, io: LinkIo) returns (r: Result<VerifiedEnvelope, SessionError>)
      requires Valid()
      modifies this`signed, stationReplay
      ensures (View(), r) == ToStation(config, old(View()), claims, now, io)
    {
      ghost var made;
      r, made := ExchangeInto(claims, config.chaser, config.stationPeerTrust, config.station.keyId, stationReplay, now, io);
      signed := signed + made;
    }

    method SendToChaser(claims: ProtocolClaims, now: i64, io: LinkIo) returns (r: Result<VerifiedEnvelope, SessionError>)
      requires Valid()
      modifies this`signed, chaserReplay
      ensures (View(), r) == ToChaser(config, old(View()), claims, now, io)
    {
      ghost var made;
      r, made := ExchangeInto(claims, config.station, config.chaserPeerTrust, config.chaser.keyId, chaserReplay, now, io);
      signed := signed + made;
    }

    method EstablishSession(now: i64, scenario: Scenario, io: EstablishIo) returns (r: Result<SessionOutcome, SessionError>)
      requires Valid()
      modifies Repr()
      ensures Valid() && Repr() == old(Repr())
      ensures (View(), r) == Establish(config, old(View()), now, scenario, io)
    {
      hide ToStation, Present;
      Reset();
      if io.session.None? || io.request.nonce.None? {
        return Err(RandomSource);
      }
      var request := SendToStation(RequestClaims(config, now, io.request.nonce.value), now, io.request);
      if request.Err? {
        return Err(request.error);
      }
      authorization := authorization.(identityVerified := true);
      r := PresentCredentials(SessionIdOf(io.session.value), now, scenario, io);
    }

    method PresentCredentials(sid: Bytes, now: i64, scenario: Scenario, io: EstablishIo)
      returns (r: Result<SessionOutcome, SessionError>)
      requires Valid()
      modifies this`signed, this`verifiedCredentials, this`holderProofAt, this`authorization, this`sessionId, this`log,
               chaserReplay, stationReplay
      ensures (View(), r) == Present(config, old(View()), sid, now, scenario, io)
    {
      hide ToChaser, ToStation, Admit, IssueCredentials;
      if io.challenge.None? || io.offer.nonce.None? {
        return Err(RandomSource);
      }
      var challenge := io.challenge.value;
      var offer := SendToChaser(OfferClaims(config, now, io.offer.nonce.value, sid, challenge), now, io.offer);
      if offer.Err? {
        return Err(offer.error);
      }
      var (made, credentials) := IssueCredentials(config, now, scenario, io);
      signed := signed + made;
      if credentials.Err? {
        return Err(credentials.error);
      }
      if io.proof.nonce.None? {
        return Err(RandomSource);
      }
      var proof := SendToStation(
        ProofClaims(config, now, io.proof.nonce.value, sid, challenge, credentials.value), now, io.proof);
      if proof.Err? {
        return Err(proof.error);
      }
      r := AdmitSession(sid, offer.value, proof.value, now);
    }

    method AdmitSession(sid: Bytes, offer: VerifiedEnvelope, proof: VerifiedEnvelope, now: i64)
      returns (r: Result<SessionOutcome, SessionError>)
      requires Valid()
      modifies this`verifiedCredentials, this`holderProofAt, this`authorization, this`sessionId, this`log
      ensures (View(), r) == Admit(config, old(View()), sid, offer, proof, now)
    {
      hide VerifyCredentials, ValidateFoundation, ValidateCredentials, Authorize, SessionRequest;
      if proof.claims.sessionId != offer.claims.sessionId
         || proof.claims.challengeNonce != offer.claims.challengeNonce {
        return Err(SessionBinding);
      }
      if proof.claims.credentials == [] {
        return Err(CredentialMissing);
      }
      var verified := VerifyCredentials(proof.claims.credentials, config.credentialTrust, proof.signer, now);
      if verified.Err? {
        return Err(verified.error);
      }
      verifiedCredentials := verified.value;
      var foundation := ValidateFoundation(config.profile, now, config.bundle);
      if foundation.Err? {
        return Err(ProfileFailed(foundation.error));
      }
      var accepted := ValidateCredentials(config.profile, verifiedCredentials, now);
      if accepted.Err? {
        return Err(ProfileFailed(accepted.error));
      }
      holderProofAt := Some(now);
      var decision := Authorize(config.policy, InitialClaims,
                                SessionRequest(config.chaser.keyId, config.station.keyId, verifiedCredentials, true));
      if decision.Err? {
        return Err(PolicyFailed(decision.error));
      }
      authorization := authorization.(sessionAuthorized := true);
      sessionId := Some(sid);
      log := log + [Opened(sid)];
      return Ok(SessionOutcome(sid, config.profile.profileId, config.profile.profileVersion, decision.value));
    }

    method RequestTransition(requested: byte, now: i64, readiness: Readiness, io: IssueIo)
      returns (r: Result<TransitionOutcome, SessionError>)
      requires Valid()
      modifies Repr()
      ensures Valid() && Repr() == old(Repr())
      ensures (View(), r) == Issue(config, old(View()), requested, now, readiness, io)
    {
      hide ProveHolder, Decide;
      var transition := TransitionFor(state, requested);
      if transition.None? {
        return Err(TransitionFailed(InvalidTransition));
      }
      if sessionId.None? {
        return Err(SessionBinding);
      }
      var sid := sessionId.value;
      var proven := RefreshHolderProof(sid, now, io);
      if proven.Err? {
        return Err(proven.error);
      }
      r := DecideTransition(sid, transition.value.1, requested, now, readiness, io);
    }

    method DecideTransition(sid: Bytes, stage: AuthorizedStage, requested: byte, now: i64, readiness: Readiness, io: IssueIo)
      returns (r: Result<TransitionOutcome, SessionError>)
      requires Valid()
      modifies this`pendingEntitlements, this`signed, this`log
      ensures (View(), r) == Decide(config, old(View()), sid, stage, requested, now, readiness, io)
    {
      hide Evaluate, Grant, Authorize, TransitionRequest, FindRule;
      var previous := StateNumber(state);
      var names := TransitionNames(state, requested);
      if names.None? {
        return Err(TransitionFailed(InvalidTransition));
      }
      var (from, to) := names.value;
      var evidence := Evidence(verifiedCredentials, holderProofAt, authorization.sessionAuthorized, readiness);
      var evaluated := Evaluate(config.profile, from, to, now, config.bundle, evidence);
      if evaluated.Err? {
        var matched := FindRule(config.profile.stageRules, from, to);
        return Ok(Refused(previous, ProfileRefused(evaluated.error)).(
                    sessionId := Some(sid), profileId := Some(config.profile.profileId),
                    profileVersion := Some(config.profile.profileVersion),
                    ruleId := if matched.Some? then Some(matched.value.ruleId) else None));
      }
      var rule := evaluated.value;
      var decision := Authorize(config.policy, StageTransition,
                                TransitionRequest(config.chaser.keyId, config.station.keyId, ActionOf(config, rule),
                                                  evidence, FreshFor(config, rule, now, readiness)));
      if decision.Err? {
        return Ok(Refused(previous, PolicyRefused).(
                    sessionId := Some(sid), profileId := Some(rule.profileId),
                    profileVersion := Some(rule.profileVersion), ruleId := Some(rule.ruleId)));
      }
      r := IssueGrant(sid, stage, requested, now, readiness, rule, decision.value, io);
    }

    method RefreshHolderProof(sid: Bytes, now: i64, io: IssueIo) returns (r: Result<(), SessionError>)
      requires Valid()
      modifies this`signed, this`holderProofAt, chaserReplay, stationReplay
      ensures (View(), r) == ProveHolder(config, old(View()), sid, now, io)
    {
      if io.challenge.None? || io.offer.nonce.None? {
        return Err(RandomSource);
      }
      var challenge := io.challenge.value;
      var offer := SendToChaser(OfferClaims(config, now, io.offer.nonce.value, sid, challenge), now, io.offer);
      if offer.Err? {
        return Err(offer.error);
      }
      if io.proof.nonce.None? {
        return Err(RandomSource);
      }
      var proof := SendToStation(ProofClaims(config, now, io.proof.nonce.value, sid, challenge, []), now, io.proof);
      if proof.Err? {
        return Err(proof.error);
      }
      if proof.value.claims.sessionId != offer.value.claims.sessionId
         || proof.value.claims.challengeNonce != offer.value.claims.challengeNonce {
        return Err(SessionBinding);
      }
      holderProofAt := Some(now);
      return Ok(());
    }

    method IssueGrant(sid: Bytes, stage: AuthorizedStage, requested: byte, now: i64, readiness: Readiness,
                      rule: RuleDecision, decision: AccessDecision, io: IssueIo)
      returns (r: Result<TransitionOutcome, SessionError>)
      requires Valid()
      modifies this`pendingEntitlements, this`signed, this`log
      ensures (View(), r) == Grant(config, old(View()), sid, stage, requested, now, readiness, rule, decision, io)
    {
      if io.grantId.None? {
        return Err(RandomSource);
      }
      var gid := GrantIdOf(io.grantId.value);
      if io.grantNonce.None? {
        return Err(RandomSource);
      }
      var claims := GrantClaims(config, now, io.grantNonce.value, sid, stage, gid, rule, decision);
      var encoded := SignEnvelope(claims, config.station, io.grantSigns);
      if encoded.Err? {
        return Err(ProtocolFailed(encoded.error));
      }
      pendingEntitlements := pendingEntitlements[gid := PendingEntitlement(requested, decision)];
      signed := signed + SignatureOf(encoded);
      log := log + [Issued(claims, state, requested, now, EvidenceOf(View(), readiness), ActionOf(config, rule),
                           FreshFor(config, rule, now, readiness))];
      var previous := StateNumber(state);
      return Ok(TransitionOutcome(true, previous, previous, GrantIssued, Some(sid), Some(rule.profileId),
                                  Some(rule.profileVersion), Some(rule.ruleId), Some(gid), Some(rule.entitlementTtl),
                                  claims.expiresAt, Some(encoded.value), Some(decision)));
    }

    method RedeemTransition(signedGrant: Wire, requested: byte, now: i64, readiness: Readiness, io: RedeemIo)
      returns (r: Result<TransitionOutcome, SessionError>)
      requires Valid()
      modifies Repr()
      ensures Valid() && Repr() == old(Repr())
      ensures (View(), r) == Redeem(config, old(View()), signedGrant, requested, now, readiness, io)
    {
      var transition := TransitionFor(state, requested);
      if transition.None? {
        return Err(TransitionFailed(InvalidTransition));
      }
      if sessionId.None? {
        return Err(SessionBinding);
      }
      var sid := sessionId.value;
      var grant := VerifyEnvelopeInto(signedGrant, config.gateTrust, config.chaser.keyId, gateReplay, now,
                                      MAX_CLOCK_SKEW, io.gate);
      if grant.Err? {
        return Err(ProtocolFailed(grant.error));
      }
      var claims := grant.value.claims;
      if claims.grantId.None? || claims.grantId.value !in pendingEntitlements {
        return Err(GrantMismatch);
      }
      var gid := claims.grantId.value;
      var pending := pendingEntitlements[gid];
      pendingEntitlements := pendingEntitlements - {gid};
      r := ReleaseStage(claims, gid, pending, transition.value.0, transition.value.1, sid, signedGrant, requested, now,
                        readiness, io);
    }

    method ReleaseStage(claims: ProtocolClaims, gid: Bytes, pending: PendingEntitlement, event: DockingEvent,
                        stage: AuthorizedStage, sid: Bytes, signedGrant: Wire, requested: byte, now: i64,
                        readiness: Readiness, io: RedeemIo)
      returns (r: Result<TransitionOutcome, SessionError>)
      requires Valid()
      modifies this`state, this`log, consumedGrants
      ensures (View(), r)
           == Release(config, old(View()), claims, gid, pending, event, stage, sid, signedGrant, requested, now, readiness, io)
    {
      hide Commit, Evaluate, SameProvenance, BoundTo, TransitionNames, StateNumber;
      var previous := StateNumber(state);
      if !BoundTo(claims, pending, requested, sid, stage, now) {
        return Err(GrantMismatch);
      }
      var names := TransitionNames(state, requested);
      if names.None? {
        return Err(TransitionFailed(InvalidTransition));
      }
      var (from, to) := names.value;
      var evidence := Evidence(verifiedCredentials, holderProofAt, authorization.sessionAuthorized, readiness);
      var evaluated := Evaluate(config.profile, from, to, now, config.bundle, evidence);
      if evaluated.Err? {
        return Err(ProfileFailed(evaluated.error));
      }
      var rule := evaluated.value;
      if !SameProvenance(claims, rule, pending.decision) {
        return Err(GrantMismatch);
      }
      var moved := ConsumeAndMove(claims, gid, event, stage, requested, now, evidence, io.consumed);
      if moved.Err? {
        return Err(moved.error);
      }
      return Ok(TransitionOutcome(true, previous, StateNumber(moved.value), EntitlementConsumed, Some(sid),
                                  Some(rule.profileId), Some(rule.profileVersion), Some(rule.ruleId), Some(gid),
                                  None, claims.expiresAt, Some(signedGrant), Some(pending.decision)));
    }

    method ConsumeAndMove(claims: ProtocolClaims, gid: Bytes, event: DockingEvent, stage: AuthorizedStage,
                          requested: byte, now: i64, evidence: Evidence, io: AppendOutcome)
      returns (r: Result<DockingState, SessionError>)
      requires Valid()
      modifies this`state, this`log, consumedGrants
      ensures (View(), r) == Commit(old(View()), claims, gid, event, stage, requested, now, evidence, io)
    {
      hide Reduce, EvidenceOf, Cache.Consume, AsProtocolError;
      var consumed := consumedGrants.Consume(gid, io);
      ghost var s1 := old(View()).(consumedGrants := consumedGrants.View());
      assert View() == s1;
      if consumed.Err? {
        return Err(ProtocolFailed(AsProtocolError(consumed.error)));
      }
      log := log + [Consumed(claims, state, requested, now, evidence)];
      var next := Reduce(state, event, authorization.(dockingAuthorized := stage == AuthorizedStage.HardDock));
      if next.Err? {
        return Err(TransitionFailed(next.error));
      }
      state := next.value;
      return Ok(state);
    }
  }
}
