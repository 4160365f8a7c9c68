/** The ACCESS engine as a state machine: what each call does to the engine's fields, step by step,
    on every path. `AccessEngine` in EngineClass.dfy is the object proved against it. */
module Engine {
  import opened Basics
  import opened Journal
  import opened Replay
  import opened Profile
  import opened Cedar
  import opened StateMachine
  import opened Protocol

  /** A drawn nonce: the random source fills 32 bytes or fails. */
  type Nonce = b: Bytes | |b| == 32 witness seq(32, _ => 0)

  datatype Scenario = Nominal | ExpiredCredential | CorridorViolation | LatchNotReady

  datatype EngineConfig = EngineConfig(
    chaser: IdentityKey, station: IdentityKey, credentialIssuer: IdentityKey,
    stationPeerTrust: TrustStore, chaserPeerTrust: TrustStore,
    credentialTrust: TrustStore, gateTrust: TrustStore,
    profile: ProtocolProfile, policy: PolicyEngine, bundle: TrustBundle)

  datatype PendingEntitlement = PendingEntitlement(requestedState: byte, decision: AccessDecision)

  /** The history of an engine: what its guarantees are about. `Consumed` is recorded when the
      grant identifier is consumed, before the reducer runs. */
  datatype Event =
    | Cleared
    | Opened(sessionId: Bytes)
    | Issued(claims: ProtocolClaims, from: DockingState, requested: byte, now: i64, evidence: Evidence,
             action: string, readinessFresh: bool)
    | Consumed(claims: ProtocolClaims, from: DockingState, requested: byte, now: i64, evidence: Evidence)

  datatype EngineState = EngineState(
    state: DockingState, authorization: AuthorizationContext, sessionId: Option<Bytes>,
    credentials: seq<VerifiedCredential>, holderProofAt: Option<i64>,
    pending: map<Bytes, PendingEntitlement>,
    stationReplay: Cache, chaserReplay: Cache, gateReplay: Cache, consumedGrants: Cache,
    log: seq<Event>, signed: set<Signature>)

  datatype SessionError =
    | ProtocolFailed(protocolError: ProtocolError)
    | TransitionFailed(transitionError: TransitionError)
    | SessionBinding
    | CredentialMissing
    | GrantMismatch
    | PolicyFailed(policyError: PolicyError)
    | ProfileFailed(profileError: ProfileError)
    | RandomSource

  datatype SessionOutcome = SessionOutcome(sessionId: Bytes, profileId: string, profileVersion: u64,
                                           decision: AccessDecision)

  datatype Reason = ProfileRefused(error: ProfileError) | PolicyRefused | GrantIssued | EntitlementConsumed

  datatype TransitionOutcome = TransitionOutcome(
    approved: bool, previousState: nat, resultingState: nat, reason: Reason, sessionId: Option<Bytes>,
    profileId: Option<string>, profileVersion: Option<u64>, ruleId: Option<string>,
    grantId: Option<Bytes>, entitlementTtl: Option<u64>, grantExpiresAt: Option<i64>,
    signedGrant: Option<Wire>, decision: Option<AccessDecision>)

  /** What one signed message meets on its way: the nonce draw, the signer, the receiver's store. */
  datatype LinkIo = LinkIo(nonce: Option<Nonce>, signs: bool, append: AppendOutcome)

  datatype EstablishIo = EstablishIo(
    session: Option<Nonce>, request: LinkIo, challenge: Option<Nonce>, offer: LinkIo,
    registrationSigns: bool, certificationSigns: bool, proof: LinkIo)

  datatype IssueIo = IssueIo(
    challenge: Option<Nonce>, offer: LinkIo, proof: LinkIo,
    grantId: Option<Nonce>, grantNonce: Option<Nonce>, grantSigns: bool)

  datatype RedeemIo = RedeemIo(gate: AppendOutcome, consumed: AppendOutcome)

  const SESSION_PREFIX: Bytes := [97, 99, 99, 101, 115, 115, 45]
  const GRANT_PREFIX: Bytes := [103, 114, 97, 110, 116, 45]

  function SessionIdOf(n: Nonce): Bytes {
    SESSION_PREFIX + HexEncode(n)
  }

  function GrantIdOf(n: Nonce): Bytes {
    GRANT_PREFIX + HexEncode(n)
  }

  function TransitionFor(state: DockingState, requested: byte): Option<(DockingEvent, AuthorizedStage)> {
    match state
    case Hold => if requested == 1 then Some((BeginApproach, AuthorizedStage.Approach)) else None
    case Approach => if requested == 2 then Some((EnterFinalApproach, AuthorizedStage.FinalApproach)) else None
    case FinalApproach => if requested == 3 then Some((EngageSoftCapture, AuthorizedStage.SoftCapture)) else None
    case SoftCapture => if requested == 4 then Some((EngageHardDock, AuthorizedStage.HardDock)) else None
    case _ => None
  }

  function TransitionNames(state: DockingState, requested: byte): Option<(string, string)> {
    match state
    case Hold => if requested == 1 then Some(("hold", "approach")) else None
    case Approach => if requested == 2 then Some(("approach", "final_approach")) else None
    case FinalApproach => if requested == 3 then Some(("final_approach", "soft_capture")) else None
    case SoftCapture => if requested == 4 then Some(("soft_capture", "hard_dock")) else None
    case _ => None
  }

  function Bare(messageType: MessageType, issuer: Bytes, recipient: Bytes, now: i64, nonce: Bytes): ProtocolClaims {
    ProtocolClaims(messageType, issuer, recipient, now, nonce, None, None, None, [],
                   None, None, None, None, None, None, None, None)
  }

  function RequestClaims(cfg: EngineConfig, now: i64, nonce: Bytes): ProtocolClaims {
    Bare(AccessRequest, cfg.chaser.keyId, cfg.station.keyId, now, nonce)
  }

  function OfferClaims(cfg: EngineConfig, now: i64, nonce: Bytes, sid: Bytes, challenge: Bytes): ProtocolClaims {
    Bare(SessionOffer, cfg.station.keyId, cfg.chaser.keyId, now, nonce)
    .(sessionId := Some(sid), challengeNonce := Some(challenge))
  }

  function ProofClaims(cfg: EngineConfig, now: i64, nonce: Bytes, sid: Bytes, challenge: Bytes,
                       credentials: seq<Wire>): ProtocolClaims
  {
    Bare(SessionProof, cfg.chaser.keyId, cfg.station.keyId, now, nonce)
    .(sessionId := Some(sid), challengeNonce := Some(challenge), credentials := credentials)
  }

  function ExpiryOf(now: i64, ttl: u64): i64 {
    SaturatingAdd(now, Wrap(ttl))
  }

  function GrantClaims(cfg: EngineConfig, now: i64, nonce: Bytes, sid: Bytes, stage: AuthorizedStage,
                       grantId: Bytes, rule: RuleDecision, decision: AccessDecision): ProtocolClaims
  {
    Bare(AuthorizationGrant, cfg.station.keyId, cfg.chaser.keyId, now, nonce)
    .(sessionId := Some(sid), authorizedStage := Some(stage), grantId := Some(grantId),
      expiresAt := Some(ExpiryOf(now, rule.entitlementTtl)),
      profileId := Some(rule.profileId), profileVersion := Some(rule.profileVersion),
      ruleId := Some(rule.ruleId),
      policyBundleId := Some(decision.policy.bundleId),
      policyBundleVersion := Some(decision.policy.bundleVersion),
      policySha256 := Some(decision.policy.policySha256))
  }

  function RegistrationClaims(cfg: EngineConfig, now: i64, scenario: Scenario): CredentialClaims {
    CredentialClaims(cfg.credentialIssuer.keyId, cfg.chaser.keyId, "registered-vehicle-v1",
                     "VehicleRegistrationCredential", "space:vehicle-registration:v1", "recognized-registrars",
                     Wrap(now - 60), if scenario.ExpiredCredential? then Wrap(now - 1) else Wrap(now + 86_400), now)
  }

  function CertificationClaims(cfg: EngineConfig, now: i64): CredentialClaims {
    CredentialClaims(cfg.credentialIssuer.keyId, cfg.chaser.keyId, "idss-compatible-v1",
                     "DockingCertificationCredential", "space:docking-certification:v1",
                     "recognized-docking-authorities", Wrap(now - 60), Wrap(now + 86_400), now)
  }

  function EvidenceOf(s: EngineState, readiness: Readiness): Evidence {
    Evidence(s.credentials, s.holderProofAt, s.authorization.sessionAuthorized, readiness)
  }

  function Clear(s: EngineState): EngineState {
    s.(stationReplay := s.stationReplay.ResetEphemeral(), chaserReplay := s.chaserReplay.ResetEphemeral(),
       gateReplay := s.gateReplay.ResetEphemeral(), consumedGrants := s.consumedGrants.ResetEphemeral(),
       state := DockingState.Hold, authorization := NO_AUTHORIZATION, sessionId := None,
       credentials := [], holderProofAt := None, pending := map[], log := s.log + [Cleared])
  }

  function SignatureOf(r: Result<Wire, ProtocolError>): set<Signature> {
    match r
    case Ok(CoseSign1(_, _, _, signature)) => {signature}
    case _ => {}
  }

  /** `exchange`: sign, then verify at the other end. Also the signature made, if any. */
  function Exchange(claims: ProtocolClaims, signer: IdentityKey, trust: TrustStore, recipient: Bytes, cache: Cache,
                    now: i64, io: LinkIo): (Cache, set<Signature>, Result<VerifiedEnvelope, SessionError>)
  {
    var signed := SignEnvelope(claims, signer, io.signs);
    if signed.Err? then (cache, {}, Err(ProtocolFailed(signed.error)))
    else
      var (cache', r) := VerifyEnvelope(signed.value, trust, recipient, cache, now, MAX_CLOCK_SKEW, io.append);
      (cache', SignatureOf(signed), if r.Ok? then Ok(r.value) else Err(ProtocolFailed(r.error)))
  }

  /** The chaser's signed message, verified by the station. */
  function ToStation(cfg: EngineConfig, s: EngineState, claims: ProtocolClaims, now: i64, io: LinkIo)
    : (EngineState, Result<VerifiedEnvelope, SessionError>)
  {
    var (cache, made, r) :=
      Exchange(claims, cfg.chaser, cfg.stationPeerTrust, cfg.station.keyId, s.stationReplay, now, io);
    (s.(stationReplay := cache, signed := s.signed + made), r)
  }

  /** The station's signed message, verified by the chaser. */
  function ToChaser(cfg: EngineConfig, s: EngineState, claims: ProtocolClaims, now: i64, io: LinkIo)
    : (EngineState, Result<VerifiedEnvelope, SessionError>)
  {
    var (cache, made, r) :=
      Exchange(claims, cfg.station, cfg.chaserPeerTrust, cfg.chaser.keyId, s.chaserReplay, now, io);
    (s.(chaserReplay := cache, signed := s.signed + made), r)
  }

  /** Both credentials, stopping at the first failure. */
  function IssueCredentials(cfg: EngineConfig, now: i64, scenario: Scenario, io: EstablishIo)
    : (set<Signature>, Result<seq<Wire>, SessionError>)
  {
    var registration := IssueCredential(RegistrationClaims(cfg, now, scenario), cfg.credentialIssuer, io.registrationSigns);
    if registration.Err? then ({}, Err(ProtocolFailed(registration.error)))
    else
      var certification := IssueCredential(CertificationClaims(cfg, now), cfg.credentialIssuer, io.certificationSigns);
      if certification.Err? then (SignatureOf(registration), Err(ProtocolFailed(certification.error)))
      else (SignatureOf(registration) + SignatureOf(certification), Ok([registration.value, certification.value]))
  }

  function VerifyCredentials(presented: seq<Wire>, trust: TrustStore, subject: Bytes, now: i64)
    : Result<seq<VerifiedCredential>, SessionError>
  {
    if presented == [] then Ok([])
    else
      match VerifyCredential(presented[0], trust, subject, now)
      case Err(e) => Err(ProtocolFailed(e))
      case Ok(c) =>
        match VerifyCredentials(presented[1..], trust, subject, now)
        case Err(e) => Err(e)
        case Ok(rest) =>
          Ok([VerifiedCredential(c.profileId, c.credentialType, c.schemaId, c.issuerGroup, c.statusCheckedAt)] + rest)
  }

  /** `establish_session` after the three exchanges. */
  function Admit(cfg: EngineConfig, s: EngineState, sid: Bytes, offer: VerifiedEnvelope, proof: VerifiedEnvelope,
                 now: i64): (EngineState, Result<SessionOutcome, SessionError>)
  {
    if proof.claims.sessionId != offer.claims.sessionId || proof.claims.challengeNonce != offer.claims.challengeNonce
    then (s, Err(SessionBinding))
    else if proof.claims.credentials == [] then (s, Err(CredentialMissing)) else
    var verified := VerifyCredentials(proof.claims.credentials, cfg.credentialTrust, proof.signer, now);
    if verified.Err? then (s, Err(verified.error)) else
    var s1 := s.(credentials := verified.value);
    var foundation := ValidateFoundation(cfg.profile, now, cfg.bundle);
    if foundation.Err? then (s1, Err(ProfileFailed(foundation.error))) else
    var accepted := ValidateCredentials(cfg.profile, s1.credentials, now);
    if accepted.Err? then (s1, Err(ProfileFailed(accepted.error))) else
    var s2 := s1.(holderProofAt := Some(now));
    var decision := Authorize(cfg.policy, InitialClaims,
                              SessionRequest(cfg.chaser.keyId, cfg.station.keyId, s2.credentials, true));
    if decision.Err? then (s2, Err(PolicyFailed(decision.error)))
    else
      (s2.(authorization := s2.authorization.(sessionAuthorized := true), sessionId := Some(sid),
           log := s2.log + [Opened(sid)]),
       Ok(SessionOutcome(sid, cfg.profile.profileId, cfg.profile.profileVersion, decision.value)))
  }

  /** `establish_session` once the chaser's identity is verified: challenge, credentials, proof. */
  function Present(cfg: EngineConfig, s: EngineState, sid: Bytes, now: i64, scenario: Scenario, io: EstablishIo)
    : (EngineState, Result<SessionOutcome, SessionError>)
  {
    if io.challenge.None? || io.offer.nonce.None? then (s, Err(RandomSource)) else
    var challenge := io.challenge.value;
    var (s1, offer) := ToChaser(cfg, s, OfferClaims(cfg, now, io.offer.nonce.value, sid, challenge), now, io.offer);
    if offer.Err? then (s1, Err(offer.error)) else
    var (made, credentials) := IssueCredentials(cfg, now, scenario, io);
    var s2 := s1.(signed := s1.signed + made);
    if credentials.Err? then (s2, Err(credentials.error)) else
    if io.proof.nonce.None? then (s2, Err(RandomSource)) else
    var (s3, proof) :=
      ToStation(cfg, s2, ProofClaims(cfg, now, io.proof.nonce.value, sid, challenge, credentials.value), now, io.proof);
    if proof.Err? then (s3, Err(proof.error)) else
    Admit(cfg, s3, sid, offer.value, proof.value, now)
  }

  function Establish(cfg: EngineConfig, s: EngineState, now: i64, scenario: Scenario, io: EstablishIo)
    : (EngineState, Result<SessionOutcome, SessionError>)
  {
    var s0 := Clear(s);
    if io.session.None? || io.request.nonce.None? then (s0, Err(RandomSource)) else
    var (s1, request) := ToStation(cfg, s0, RequestClaims(cfg, now, io.request.nonce.value), now, io.request);
    if request.Err? then (s1, Err(request.error)) else
    var s2 := s1.(authorization := s1.authorization.(identityVerified := true));
    Present(cfg, s2, SessionIdOf(io.session.value), now, scenario, io)
  }

  function Refused(previous: nat, reason: Reason): TransitionOutcome {
    TransitionOutcome(false, previous, previous, reason, None, None, None, None, None, None, None, None, None)
  }

  /** The action and the age limit come from the first rule that bears the decided rule's name. */
  function ActionOf(cfg: EngineConfig, rule: RuleDecision): string {
    match FindRuleById(cfg.profile.stageRules, rule.ruleId)
    case Some(candidate) => candidate.action
    case None => ""
  }

  function FreshFor(cfg: EngineConfig, rule: RuleDecision, now: i64, readiness: Readiness): bool {
    ReadinessAge(now, readiness)
    <= match FindRuleById(cfg.profile.stageRules, rule.ruleId)
       case Some(candidate) => candidate.readinessMaximumAgeMs
       case None => 0
  }

  /** The two challenge exchanges of `request_transition`, up to the refreshed holder proof. */
  function ProveHolder(cfg: EngineConfig, s: EngineState, sid: Bytes, now: i64, io: IssueIo)
    : (EngineState, Result<(), SessionError>)
  {
    if io.challenge.None? || io.offer.nonce.None? then (s, Err(RandomSource)) else
    var challenge := io.challenge.value;
    var (s1, offer) := ToChaser(cfg, s, OfferClaims(cfg, now, io.offer.nonce.value, sid, challenge), now, io.offer);
    if offer.Err? then (s1, Err(offer.error)) else
    if io.proof.nonce.None? then (s1, Err(RandomSource)) else
    var (s2, proof) := ToStation(cfg, s1, ProofClaims(cfg, now, io.proof.nonce.value, sid, challenge, []), now, io.proof);
    if proof.Err? then (s2, Err(proof.error)) else
    if proof.value.claims.sessionId != offer.value.claims.sessionId
       || proof.value.claims.challengeNonce != offer.value.claims.challengeNonce
    then (s2, Err(SessionBinding))
    else (s2.(holderProofAt := Some(now)), Ok(()))
  }

  /** `request_transition` from an allowing decision on: draw, sign and remember the grant. */
  function Grant(cfg: EngineConfig, s: EngineState, sid: Bytes, stage: AuthorizedStage, requested: byte, now: i64,
                 readiness: Readiness, rule: RuleDecision, decision: AccessDecision, io: IssueIo)
    : (EngineState, Result<TransitionOutcome, SessionError>)
  {
    if io.grantId.None? || io.grantNonce.None? then (s, Err(RandomSource)) else
    var gid := GrantIdOf(io.grantId.value);
    var claims := GrantClaims(cfg, now, io.grantNonce.value, sid, stage, gid, rule, decision);
    var signed := SignEnvelope(claims, cfg.station, io.grantSigns);
    if signed.Err? then (s, Err(ProtocolFailed(signed.error))) else
    var previous := StateNumber(s.state);
    (s.(pending := s.pending[gid := PendingEntitlement(requested, decision)],
        signed := s.signed + SignatureOf(signed),
        log := s.log + [Issued(claims, s.state, requested, now, EvidenceOf(s, readiness), ActionOf(cfg, rule),
                               FreshFor(cfg, rule, now, readiness))]),
     Ok(TransitionOutcome(true, previous, previous, GrantIssued, Some(sid), Some(rule.profileId),
                          Some(rule.profileVersion), Some(rule.ruleId), Some(gid), Some(rule.entitlementTtl),
                          claims.expiresAt, Some(signed.value), Some(decision))))
  }

  /** `request_transition` once the holder is proven: evaluate, authorize, grant. */
  function Decide(cfg: EngineConfig, s: EngineState, sid: Bytes, stage: AuthorizedStage, requested: byte, now: i64,
                  readiness: Readiness, io: IssueIo): (EngineState, Result<TransitionOutcome, SessionError>)
  {
    var previous := StateNumber(s.state);
    var names := TransitionNames(s.state, requested);
    if names.None? then (s, Err(TransitionFailed(InvalidTransition))) else
    var (from, to) := names.value;
    var evaluated := Evaluate(cfg.profile, from, to, now, cfg.bundle, EvidenceOf(s, readiness));
    if evaluated.Err? then
      var matched := FindRule(cfg.profile.stageRules, from, to);
      (s, Ok(Refused(previous, ProfileRefused(evaluated.error)).(
               sessionId := Some(sid), profileId := Some(cfg.profile.profileId),
               profileVersion := Some(cfg.profile.profileVersion),
               ruleId := if matched.Some? then Some(matched.value.ruleId) else None)))
    else
      var rule := evaluated.value;
      var decision := Authorize(cfg.policy, StageTransition,
                                TransitionRequest(cfg.chaser.keyId, cfg.station.keyId, ActionOf(cfg, rule),
                                                  EvidenceOf(s, readiness), FreshFor(cfg, rule, now, readiness)));
      if decision.Err? then
        (s, Ok(Refused(previous, PolicyRefused).(
                 sessionId := Some(sid), profileId := Some(rule.profileId),
                 profileVersion := Some(rule.profileVersion), ruleId := Some(rule.ruleId))))
      else
        Grant(cfg, s, sid, stage, requested, now, readiness, rule, decision.value, io)
  }

  function Issue(cfg: EngineConfig, s: EngineState, requested: byte, now: i64, readiness: Readiness, io: IssueIo)
    : (EngineState, Result<TransitionOutcome, SessionError>)
  {
    var transition := TransitionFor(s.state, requested);
    if transition.None? then (s, Err(TransitionFailed(InvalidTransition))) else
    if s.sessionId.None? then (s, Err(SessionBinding)) else
    var sid := s.sessionId.value;
    var (s1, proven) := ProveHolder(cfg, s, sid, now, io);
    if proven.Err? then (s1, Err(proven.error))
    else Decide(cfg, s1, sid, transition.value.1, requested, now, readiness, io)
  }

  /** The check that follows removal from the pending map. */
  predicate BoundTo(claims: ProtocolClaims, pending: PendingEntitlement, requested: byte, sid: Bytes,
                    stage: AuthorizedStage, now: i64)
  {
    && pending.requestedState == requested
    && claims.sessionId == Some(sid)
    && claims.authorizedStage == Some(stage)
    && claims.expiresAt.Some? && now <= claims.expiresAt.value
  }

  predicate SameProvenance(claims: ProtocolClaims, rule: RuleDecision, decision: AccessDecision) {
    && claims.profileId == Some(rule.profileId)
    && claims.profileVersion == Some(rule.profileVersion)
    && claims.ruleId == Some(rule.ruleId)
    && claims.policyBundleId == Some(decision.policy.bundleId)
    && claims.policyBundleVersion == Some(decision.policy.bundleVersion)
    && claims.policySha256 == Some(decision.policy.policySha256)
  }

  /** The end of `redeem_transition`: consume the grant identifier, then let the reducer move. */
  function Commit(s: EngineState, claims: ProtocolClaims, gid: Bytes, event: DockingEvent, stage: AuthorizedStage,
                  requested: byte, now: i64, evidence: Evidence, io: AppendOutcome)
    : (EngineState, Result<DockingState, SessionError>)
  {
    var (grants, consumed) := s.consumedGrants.Consume(gid, io);
    var s1 := s.(consumedGrants := grants);
    if consumed.Err? then (s1, Err(ProtocolFailed(AsProtocolError(consumed.error)))) else
    var s2 := s1.(log := s1.log + [Consumed(claims, s1.state, requested, now, evidence)]);
    var next := Reduce(s2.state, event, s2.authorization.(dockingAuthorized := stage == AuthorizedStage.HardDock));
    if next.Err? then (s2, Err(TransitionFailed(next.error)))
    else (s2.(state := next.value), Ok(next.value))
  }

  /** `redeem_transition` once the grant is known and taken off the pending map. */
  function Release(cfg: EngineConfig, s: EngineState, claims: ProtocolClaims, gid: Bytes, pending: PendingEntitlement,
                   event: DockingEvent, stage: AuthorizedStage, sid: Bytes, w: Wire, requested: byte, now: i64,
                   readiness: Readiness, io: RedeemIo): (EngineState, Result<TransitionOutcome, SessionError>)
  {
    if !BoundTo(claims, pending, requested, sid, stage, now) then (s, Err(GrantMismatch)) else
    var names := TransitionNames(s.state, requested);
    if names.None? then (s, Err(TransitionFailed(InvalidTransition))) else
    var (from, to) := names.value;
    var evidence := EvidenceOf(s, readiness);
    var evaluated := Evaluate(cfg.profile, from, to, now, cfg.bundle, evidence);
    if evaluated.Err? then (s, Err(ProfileFailed(evaluated.error))) else
    var rule := evaluated.value;
    if !SameProvenance(claims, rule, pending.decision) then (s, Err(GrantMismatch)) else
    var (s', moved) := Commit(s, claims, gid, event, stage, requested, now, evidence, io.consumed);
    if moved.Err? then (s', Err(moved.error))
    else
      (s', Ok(TransitionOutcome(true, StateNumber(s.state), StateNumber(moved.value), EntitlementConsumed, Some(sid),
                                Some(rule.profileId), Some(rule.profileVersion), Some(rule.ruleId), Some(gid),
                                None, claims.expiresAt, Some(w), Some(pending.decision))))
  }

  function Redeem(cfg: EngineConfig, s: EngineState, w: Wire, requested: byte, now: i64, readiness: Readiness,
                  io: RedeemIo): (EngineState, Result<TransitionOutcome, SessionError>)
  {
    var transition := TransitionFor(s.state, requested);
    if transition.None? then (s, Err(TransitionFailed(InvalidTransition))) else
    if s.sessionId.None? then (s, Err(SessionBinding)) else
    var (gate, grant) := VerifyEnvelope(w, cfg.gateTrust, cfg.chaser.keyId, s.gateReplay, now, MAX_CLOCK_SKEW, io.gate);
    var s1 := s.(gateReplay := gate);
    if grant.Err? then (s1, Err(ProtocolFailed(grant.error))) else
    var claims := grant.value.claims;
    if claims.grantId.None? || claims.grantId.value !in s1.pending then (s1, Err(GrantMismatch)) else
    var gid := claims.grantId.value;
    Release(cfg, s1.(pending := s1.pending - {gid}), claims, gid, s1.pending[gid],
            transition.value.0, transition.value.1, s.sessionId.value, w, requested, now, readiness, io)
  }

  /** A new engine over four caches. */
  function Start(station: Cache, chaser: Cache, gate: Cache, grants: Cache): EngineState {
    EngineState(DockingState.Hold, NO_AUTHORIZATION, None, [], None, map[], station, chaser, gate, grants, [], {})
  }
}
