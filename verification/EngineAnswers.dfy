/** What the engine answers: when a session opens, how a request is refused, what a redemption burns. */
module EngineAnswers {
  import opened Basics
  import opened Replay
  import opened Profile
  import opened Cedar
  import opened StateMachine
  import opened Protocol
  import opened Engine
  import opened EngineSteps
  import opened EngineRuns
  import opened EngineLiveness

  // ------------------------------------------------------------------ establishment

  /** This evidence was taken from a credential signed under a trusted issuer's key for this holder, inside
      its validity. */
  ghost predicate Attested(trust: TrustStore, holder: Bytes, evidence: VerifiedCredential, now: i64) {
    exists c: CredentialClaims :: AttestedBy(trust, holder, evidence, now, c)
  }

  ghost predicate AttestedBy(trust: TrustStore, holder: Bytes, evidence: VerifiedCredential, now: i64, c: CredentialClaims) {
    && c.issuer in trust && c.subject == holder && c.issuedAt <= now <= c.expiresAt
    && evidence == VerifiedCredential(c.profileId, c.credentialType, c.schemaId, c.issuerGroup, c.statusCheckedAt)
    && (exists w: Wire :: w.CoseSign1? && w.payload == Some(Credential(c))
                          && CredentialHolds(w.keyId, w.signature, c, trust, holder, now))
  }

  lemma {:induction false} VerifiedAreAttested(presented: seq<Wire>, trust: TrustStore, holder: Bytes, now: i64)
    ensures var r := VerifyCredentials(presented, trust, holder, now);
            r.Ok? ==> |r.value| == |presented| && forall c | c in r.value :: Attested(trust, holder, c, now)
    decreases |presented|
  {
    var r := VerifyCredentials(presented, trust, holder, now);
    if presented != [] && r.Ok? {
      VerifiedAreAttested(presented[1..], trust, holder, now);
      AcceptedCredentials(presented[0], trust, holder, now);
      var c := VerifyCredential(presented[0], trust, holder, now).value;
      assert presented[0].payload == Some(Credential(c));
      assert AttestedBy(trust, holder, r.value[0], now, c);
      assert r.value == [r.value[0]] + VerifyCredentials(presented[1..], trust, holder, now).value;
    }
  }

  /** What every opened session rests on. */
  ghost predicate OpenedWell(cfg: EngineConfig, s: EngineState, now: i64, sid: Bytes, outcome: SessionOutcome) {
    && s.sessionId == Some(sid) && s.credentials != [] && s.holderProofAt == Some(now)
    && ValidateFoundation(cfg.profile, now, cfg.bundle).Ok?
    && (forall c | c in s.credentials ::
          CredentialAccepted(cfg.profile, c, now) && Attested(cfg.credentialTrust, cfg.chaser.keyId, c, now))
    && cfg.policy.evaluate(SessionRequest(cfg.chaser.keyId, cfg.station.keyId, s.credentials, true)) == Allow
    && outcome == SessionOutcome(sid, cfg.profile.profileId, cfg.profile.profileVersion,
                                 AccessDecision(InitialClaims, cfg.policy.metadata))
  }

  lemma AdmitOpensWell(cfg: EngineConfig, s: EngineState, sid: Bytes, offer: VerifiedEnvelope, proof: VerifiedEnvelope, now: i64)
    requires proof.signer == cfg.chaser.keyId
    ensures var (s', r) := Admit(cfg, s, sid, offer, proof, now);
            r.Ok? ==> OpenedWell(cfg, s', now, sid, r.value)
  {
    hide ValidateFoundation, CredentialAccepted, Attested, SessionRequest;
    VerifiedAreAttested(proof.claims.credentials, cfg.credentialTrust, proof.signer, now);
  }

  lemma PresentOpensWell(cfg: EngineConfig, s: EngineState, sid: Bytes, now: i64, scenario: Scenario, io: EstablishIo)
    ensures var (s', r) := Present(cfg, s, sid, now, scenario, io);
            r.Ok? ==> OpenedWell(cfg, s', now, sid, r.value)
  {
    hide ToChaser, ToStation, Admit, IssueCredentials, OpenedWell;
    if io.challenge.Some? && io.offer.nonce.Some? {
      var offer := OfferClaims(cfg, now, io.offer.nonce.value, sid, io.challenge.value);
      ToChaserFrame(cfg, s, offer, now, io.offer);
      var s1 := ToChaser(cfg, s, offer, now, io.offer).0;
      var (made, credentials) := IssueCredentials(cfg, now, scenario, io);
      var s2 := s1.(signed := s1.signed + made);
      if credentials.Ok? && io.proof.nonce.Some? {
        var proof := ProofClaims(cfg, now, io.proof.nonce.value, sid, io.challenge.value, credentials.value);
        ToStationFrame(cfg, s2, proof, now, io.proof);
        var s3 := ToStation(cfg, s2, proof, now, io.proof).0;
        AdmitOpensWell(cfg, s3, sid, VerifiedEnvelope(cfg.station.keyId, offer), VerifiedEnvelope(cfg.chaser.keyId, proof), now);
      }
    }
  }

  /** A session opens only on a current profile and trust bundle, on accepted credentials signed by trusted
      issuers for the chaser, and if the policy allows it. No assumption on anything. */
  lemma SessionsOpenWell(cfg: EngineConfig, s: EngineState, now: i64, scenario: Scenario, io: EstablishIo)
    ensures var (s', r) := Establish(cfg, s, now, scenario, io);
            r.Ok? ==> io.session.Some? && OpenedWell(cfg, s', now, SessionIdOf(io.session.value), r.value)
  {
    hide ToStation, Present, OpenedWell;
    if io.session.Some? && io.request.nonce.Some? {
      var s1 := ToStation(cfg, Clear(s), RequestClaims(cfg, now, io.request.nonce.value), now, io.request).0;
      PresentOpensWell(cfg, s1.(authorization := s1.authorization.(identityVerified := true)),
                       SessionIdOf(io.session.value), now, scenario, io);
    }
  }

  /** What `Admit` answers about two credentials of the scenario, before anything is opened. */
  function AnswerTo(cfg: EngineConfig, sid: Bytes, now: i64, scenario: Scenario): Result<SessionOutcome, SessionError> {
    if scenario == Scenario.ExpiredCredential || now < I64_MIN + 60 || now > I64_MAX - 86_400
    then Err(ProtocolFailed(CredentialExpired)) else
    var foundation := ValidateFoundation(cfg.profile, now, cfg.bundle);
    if foundation.Err? then Err(ProfileFailed(foundation.error)) else
    if exists c | c in NominalCredentials(now) :: !CredentialAccepted(cfg.profile, c, now)
    then Err(ProfileFailed(CredentialRequired)) else
    match cfg.policy.evaluate(SessionRequest(cfg.chaser.keyId, cfg.station.keyId, NominalCredentials(now), true))
    case RequestRejected => Err(PolicyFailed(InvalidRequest))
    case EvaluationFailed => Err(PolicyFailed(Evaluation(InitialClaims)))
    case Deny => Err(PolicyFailed(Denied(InitialClaims)))
    case Allow => Ok(SessionOutcome(sid, cfg.profile.profileId, cfg.profile.profileVersion,
                                    AccessDecision(InitialClaims, cfg.policy.metadata)))
  }

  /** The two credentials of a scenario, verified: the nominal evidence, or expired. */
  lemma ScenarioCredentials(cfg: EngineConfig, now: i64, scenario: Scenario, io: EstablishIo)
    requires MatchedTrust(cfg) && EstablishWorks(io)
    ensures var issued := IssueCredentials(cfg, now, scenario, io).1;
            && issued.Ok? && |issued.value| == 2
            && VerifyCredentials(issued.value, cfg.credentialTrust, cfg.chaser.keyId, now)
               == if scenario == Scenario.ExpiredCredential || now < I64_MIN + 60 || now > I64_MAX - 86_400
                  then Err(ProtocolFailed(CredentialExpired)) else Ok(NominalCredentials(now))
  {
    if scenario == Scenario.ExpiredCredential || now < I64_MIN + 60 || now > I64_MAX - 86_400 {
      OutOfValidity(cfg, now, scenario);
      var w := IssueCredentials(cfg, now, scenario, io).1.value[0];
      assert VerifyCredential(w, cfg.credentialTrust, cfg.chaser.keyId, now) == Err(CredentialExpired);
    } else {
      CredentialsDeliver(cfg, now, scenario, io);
    }
  }

  lemma OutOfValidity(cfg: EngineConfig, now: i64, scenario: Scenario)
    requires scenario == Scenario.ExpiredCredential || now < I64_MIN + 60 || now > I64_MAX - 86_400
    ensures var c := RegistrationClaims(cfg, now, scenario);
            now < c.issuedAt || now > c.expiresAt
  {
  }

  lemma AdmitAnswers(cfg: EngineConfig, s: EngineState, sid: Bytes, offer: ProtocolClaims, proof: ProtocolClaims, now: i64,
                     scenario: Scenario)
    requires proof.sessionId == offer.sessionId && proof.challengeNonce == offer.challengeNonce && proof.credentials != []
    requires VerifyCredentials(proof.credentials, cfg.credentialTrust, cfg.chaser.keyId, now)
          == if scenario == Scenario.ExpiredCredential || now < I64_MIN + 60 || now > I64_MAX - 86_400
             then Err(ProtocolFailed(CredentialExpired)) else Ok(NominalCredentials(now))
    ensures Admit(cfg, s, sid, VerifiedEnvelope(cfg.station.keyId, offer), VerifiedEnvelope(cfg.chaser.keyId, proof), now).1
         == AnswerTo(cfg, sid, now, scenario)
  {
    hide ValidateFoundation, VerifyCredentials, CredentialAccepted, NominalCredentials;
  }

  lemma PresentAnswers(cfg: EngineConfig, s: EngineState, sid: Bytes, now: i64, scenario: Scenario, io: EstablishIo)
    requires MatchedTrust(cfg) && EstablishWorks(io)
    requires io.offer.nonce.value !in s.chaserReplay.consumed && io.proof.nonce.value !in s.stationReplay.consumed
    ensures Present(cfg, s, sid, now, scenario, io).1 == AnswerTo(cfg, sid, now, scenario)
  {
    hide Exchange, IssueCredentials, VerifyCredentials, Admit, AnswerTo;
    var offer := OfferClaims(cfg, now, io.offer.nonce.value, sid, io.challenge.value);
    LinkDelivers(offer, cfg.station, cfg.chaserPeerTrust, s.chaserReplay, now, io.offer);
    ScenarioCredentials(cfg, now, scenario, io);
    var (made, credentials) := IssueCredentials(cfg, now, scenario, io);
    var proof := ProofClaims(cfg, now, io.proof.nonce.value, sid, io.challenge.value, credentials.value);
    LinkDelivers(proof, cfg.chaser, cfg.stationPeerTrust, s.stationReplay, now, io.proof);
    var s1 := ToChaser(cfg, s, offer, now, io.offer).0;
    var s2 := s1.(signed := s1.signed + made);
    AdmitAnswers(cfg, ToStation(cfg, s2, proof, now, io.proof).0, sid, offer, proof, now, scenario);
  }

  /** With working parts, matched trust and new nonces the answer depends on profile, policy, clock and
      scenario alone, and names the first thing that is wrong with them. */
  lemma EstablishmentAnswers(cfg: EngineConfig, s: EngineState, now: i64, scenario: Scenario, io: EstablishIo)
    requires MatchedTrust(cfg) && EstablishWorks(io) && Unreplayed(Clear(s), io)
    ensures Establish(cfg, s, now, scenario, io).1 == AnswerTo(cfg, SessionIdOf(io.session.value), now, scenario)
    ensures Establish(cfg, s, now, scenario, io).1.Ok? <==> scenario != Scenario.ExpiredCredential && SessionAdmissible(cfg, now)
  {
    hide Present;
    var s0 := Clear(s);
    var claims := RequestClaims(cfg, now, io.request.nonce.value);
    LinkDelivers(claims, cfg.chaser, cfg.stationPeerTrust, s0.stationReplay, now, io.request);
    var s1 := ToStation(cfg, s0, claims, now, io.request).0;
    PresentAnswers(cfg, s1.(authorization := s1.authorization.(identityVerified := true)),
                   SessionIdOf(io.session.value), now, scenario, io);
  }

  // ------------------------------------------------------------------ requests

  /** The evidence a request is decided on: the holder was proven just now. */
  function EvidenceNow(s: EngineState, now: i64, readiness: Readiness): Evidence {
    Evidence(s.credentials, Some(now), s.authorization.sessionAuthorized, readiness)
  }

  /** Whether the policy allows the action of the decided rule. */
  ghost predicate PolicyAllowsRule(cfg: EngineConfig, rule: RuleDecision, now: i64, e: Evidence) {
    cfg.policy.evaluate(TransitionRequest(cfg.chaser.keyId, cfg.station.keyId, ActionOf(cfg, rule), e,
                                          FreshFor(cfg, rule, now, e.readiness))) == Allow
  }

  /** A refusal: not approved, nothing moved, nothing granted, and why. */
  predicate Refusal(cfg: EngineConfig, s: EngineState, o: TransitionOutcome, reason: Reason, ruleId: Option<string>) {
    && !o.approved && o.previousState == o.resultingState == StateNumber(s.state)
    && o.reason == reason && o.ruleId == ruleId && o.sessionId == s.sessionId
    && o.profileId == Some(cfg.profile.profileId) && o.profileVersion == Some(cfg.profile.profileVersion)
    && o.grantId.None? && o.signedGrant.None? && o.decision.None? && o.entitlementTtl.None? && o.grantExpiresAt.None?
  }

  /** A grant: nothing moved yet, and the terms of the decided rule. */
  predicate GrantAnswer(cfg: EngineConfig, s: EngineState, o: TransitionOutcome, rule: RuleDecision, now: i64) {
    && o.approved && o.reason == GrantIssued && o.previousState == o.resultingState == StateNumber(s.state)
    && o.sessionId == s.sessionId && o.ruleId == Some(rule.ruleId)
    && o.profileId == Some(cfg.profile.profileId) && o.profileVersion == Some(cfg.profile.profileVersion)
    && o.entitlementTtl == Some(rule.entitlementTtl) && o.grantExpiresAt == Some(ExpiryOf(now, rule.entitlementTtl))
    && o.grantId.Some? && o.signedGrant.Some? && o.decision == Some(DecisionOf(cfg))
  }

  /** A request of an open session for its next stage, with the holder proven. */
  predicate Asked(cfg: EngineConfig, s: EngineState, requested: byte, now: i64, io: IssueIo) {
    && s.sessionId.Some? && TransitionFor(s.state, requested).Some? && TransitionNames(s.state, requested).Some?
    && ProveHolder(cfg, s, s.sessionId.value, now, io).1.Ok?
  }

  lemma DecideAnswers(cfg: EngineConfig, s: EngineState, sid: Bytes, requested: byte, now: i64, readiness: Readiness, io: IssueIo)
    requires TransitionFor(s.state, requested).Some? && TransitionNames(s.state, requested).Some?
    requires s.sessionId == Some(sid) && s.holderProofAt == Some(now)
    ensures var r := Decide(cfg, s, sid, TransitionFor(s.state, requested).value.1, requested, now, readiness, io).1;
            var e := EvidenceNow(s, now, readiness);
            var rule := EvaluateStage(cfg, s.state, requested, now, e);
            var (from, to) := TransitionNames(s.state, requested).value;
            var draws := io.grantId.Some? && io.grantNonce.Some?;
            && (rule.Err? ==>
                  && r.Ok?
                  && Refusal(cfg, s, r.value, ProfileRefused(rule.error),
                             match FindRule(cfg.profile.stageRules, from, to) case Some(m) => Some(m.ruleId) case None => None))
            && (rule.Ok? && !PolicyAllowsRule(cfg, rule.value, now, e) ==>
                  r.Ok? && Refusal(cfg, s, r.value, PolicyRefused, Some(rule.value.ruleId)))
            && (rule.Ok? && PolicyAllowsRule(cfg, rule.value, now, e) ==>
                  && (r.Ok? <==> draws && io.grantSigns)
                  && (r.Ok? ==> GrantAnswer(cfg, s, r.value, rule.value, now))
                  && (!draws ==> r == Err(RandomSource))
                  && (draws && !io.grantSigns ==> r == Err(ProtocolFailed(SigningFailed))))
  {
    hide FindRule, ValidateFoundation, ValidateCredentials, TransitionRequest, GrantIdOf;
  }

  /** What a request answers, in every case. Once the holder is proven the answer is an error only when a
      draw or the signer fails; it is approved exactly when profile and policy allow and neither does; a
      refusal by profile or policy is an answer, with its reason and rule. */
  lemma RequestsAnswer(cfg: EngineConfig, s: EngineState, requested: byte, now: i64, readiness: Readiness, io: IssueIo)
    requires Asked(cfg, s, requested, now, io)
    ensures var (s', r) := Issue(cfg, s, requested, now, readiness, io);
            var e := EvidenceNow(s, now, readiness);
            var rule := EvaluateStage(cfg, s.state, requested, now, e);
            var (from, to) := TransitionNames(s.state, requested).value;
            var allowed := rule.Ok? && PolicyAllowsRule(cfg, rule.value, now, e);
            && s'.holderProofAt == Some(now)
            && (r.Err? <==> allowed && !(io.grantId.Some? && io.grantNonce.Some? && io.grantSigns))
            && (r.Ok? && r.value.approved <==> allowed && io.grantId.Some? && io.grantNonce.Some? && io.grantSigns)
            && (r.Ok? && r.value.approved ==> GrantAnswer(cfg, s, r.value, rule.value, now))
            && (r.Err? ==> r.error in {RandomSource, ProtocolFailed(SigningFailed)})
            && (rule.Err? ==>
                  Refusal(cfg, s, r.value, ProfileRefused(rule.error),
                          match FindRule(cfg.profile.stageRules, from, to) case Some(m) => Some(m.ruleId) case None => None))
            && (rule.Ok? && !allowed ==> Refusal(cfg, s, r.value, PolicyRefused, Some(rule.value.ruleId)))
  {
    hide ProveHolder, Decide, EvaluateStage, PolicyAllowsRule, Refusal, FindRule, ExpiryOf;
    var sid := s.sessionId.value;
    ProveHolderFrame(cfg, s, sid, now, io);
    var s1 := ProveHolder(cfg, s, sid, now, io).0;
    DecideAnswers(cfg, s1, sid, requested, now, readiness, io);
    DecideKeepsProof(cfg, s1, sid, requested, now, readiness, io);
    RefusalOf(cfg, s, s1);
  }

  lemma RefusalOf(cfg: EngineConfig, s: EngineState, s1: EngineState)
    requires s.state == s1.state && s.sessionId == s1.sessionId
    ensures forall o, reason, rule :: Refusal(cfg, s, o, reason, rule) ==> !o.approved
    ensures forall o, reason, rule :: Refusal(cfg, s1, o, reason, rule) <==> Refusal(cfg, s, o, reason, rule)
  {
  }

  lemma DecideKeepsProof(cfg: EngineConfig, s: EngineState, sid: Bytes, requested: byte, now: i64, readiness: Readiness, io: IssueIo)
    requires TransitionFor(s.state, requested).Some?
    ensures Decide(cfg, s, sid, TransitionFor(s.state, requested).value.1, requested, now, readiness, io).0.holderProofAt
         == s.holderProofAt
  {
    hide Evaluate, TransitionRequest, FindRule;
  }

  /** And before that: the stage, the session, then the proof, each with its own error. */
  lemma UnaskedRequests(cfg: EngineConfig, s: EngineState, requested: byte, now: i64, readiness: Readiness, io: IssueIo)
    ensures var r := Issue(cfg, s, requested, now, readiness, io).1;
            && (r == Err(TransitionFailed(InvalidTransition)) <==> !(s.state != Aborted && requested == StateNumber(s.state) + 1 <= 4))
            && (TransitionFor(s.state, requested).Some? ==> (r == Err(SessionBinding) <==> s.sessionId.None?))
            && (!Asked(cfg, s, requested, now, io) ==> r.Err?)
  {
    SameStages(s.state, requested);
    hide ProveHolder, Decide;
    if s.sessionId.Some? && TransitionFor(s.state, requested).Some? {
      var sid := s.sessionId.value;
      ProveHolderFrame(cfg, s, sid, now, io);
      ProofErrors(cfg, s, sid, now, io);
      var s1 := ProveHolder(cfg, s, sid, now, io).0;
      if ProveHolder(cfg, s, sid, now, io).1.Ok? {
        DecideAnswers(cfg, s1, sid, requested, now, readiness, io);
      }
    }
  }

  lemma ProofErrors(cfg: EngineConfig, s: EngineState, sid: Bytes, now: i64, io: IssueIo)
    ensures var r := ProveHolder(cfg, s, sid, now, io).1;
            r.Err? ==> r.error.ProtocolFailed? || r.error.RandomSource?
  {
    hide VerifyEnvelope;
    ProveHolderFrame(cfg, s, sid, now, io);
  }

  /** Matched trust, working links and new nonces prove the holder. */
  lemma WorkingLinksProve(cfg: EngineConfig, s: EngineState, sid: Bytes, now: i64, io: IssueIo)
    requires MatchedTrust(cfg) && io.challenge.Some? && Works(io.offer) && Works(io.proof)
    requires io.offer.nonce.value !in s.chaserReplay.consumed && io.proof.nonce.value !in s.stationReplay.consumed
    ensures ProveHolder(cfg, s, sid, now, io).1.Ok?
  {
    hide Exchange;
    var offer := OfferClaims(cfg, now, io.offer.nonce.value, sid, io.challenge.value);
    LinkDelivers(offer, cfg.station, cfg.chaserPeerTrust, s.chaserReplay, now, io.offer);
    var proof := ProofClaims(cfg, now, io.proof.nonce.value, sid, io.challenge.value, []);
    LinkDelivers(proof, cfg.chaser, cfg.stationPeerTrust, s.stationReplay, now, io.proof);
  }

  // ------------------------------------------------------------------ redemptions

  /** A verified envelope that names a pending grant, in an open session asking for its next stage. */
  predicate Shown(cfg: EngineConfig, s: EngineState, w: Wire, requested: byte, now: i64, io: RedeemIo) {
    && TransitionFor(s.state, requested).Some? && s.sessionId.Some?
    && VerifyEnvelope(w, cfg.gateTrust, cfg.chaser.keyId, s.gateReplay, now, MAX_CLOCK_SKEW, io.gate).1.Ok?
    && w.CoseSign1? && w.payload.Some? && w.payload.value.Envelope?
    && ClaimsOf(w).grantId.Some? && ClaimsOf(w).grantId.value in s.pending
  }

  /** A pending grant is burned by being shown, whether or not it releases its stage; nothing else is. The
      answer to a release names the grant that was shown, its session, its stage and its provenance. */
  lemma ShownGrantsAreBurned(cfg: EngineConfig, s: EngineState, w: Wire, requested: byte, now: i64, readiness: Readiness, io: RedeemIo)
    requires Core(cfg, s)
    ensures var (s', r) := Redeem(cfg, s, w, requested, now, readiness, io);
            && (Shown(cfg, s, w, requested, now, io) ==> s'.pending == s.pending - {ClaimsOf(w).grantId.value})
            && (!Shown(cfg, s, w, requested, now, io) ==> s'.pending == s.pending && r.Err?)
            && (r.Ok? ==>
                  && Shown(cfg, s, w, requested, now, io)
                  && var o, claims := r.value, ClaimsOf(w);
                  && o.approved && o.reason == EntitlementConsumed
                  && o.previousState == StateNumber(s.state) && o.resultingState == requested
                  && o.grantId == claims.grantId && o.sessionId == claims.sessionId == s.sessionId
                  && o.profileId == claims.profileId && o.profileVersion == claims.profileVersion && o.ruleId == claims.ruleId
                  && o.grantExpiresAt == claims.expiresAt && o.signedGrant == Some(w) && o.entitlementTtl.None?
                  && o.decision == Some(DecisionOf(cfg)))
  {
    hide Evaluate, CheckEnvelope, Reduce, Cache.Consume, Core;
    AcceptedEnvelopes(w, cfg.gateTrust, cfg.chaser.keyId, now, MAX_CLOCK_SKEW);
    RedeemEffect(cfg, s, w, requested, now, readiness, io) by {
      CoreSays(cfg, s);
    }
    CoreSays(cfg, s);
  }

  lemma CoreSays(cfg: EngineConfig, s: EngineState)
    requires Core(cfg, s)
    ensures Authorized(s) && forall g | g in s.pending :: s.pending[g].decision == DecisionOf(cfg)
  {
  }
}
