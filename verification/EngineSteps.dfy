/** What each engine call can change, read off the step functions once, for the run theorems. */
module EngineSteps {
  import opened Basics
  import opened Replay
  import opened Profile
  import opened Cedar
  import opened StateMachine
  import opened Protocol
  import opened Engine

  /** A signature over a message that names a grant. */
  predicate NamesGrant(g: Signature) {
    && g.over.payload.Some? && g.over.payload.value.Envelope?
    && g.over.payload.value.claims.grantId.Some?
  }

  ghost predicate NoNewGrant(s: EngineState, s': EngineState) {
    && s.signed <= s'.signed
    && (forall g | g in s'.signed && NamesGrant(g) :: g in s.signed)
  }

  lemma ToStationFrame(cfg: EngineConfig, s: EngineState, claims: ProtocolClaims, now: i64, io: LinkIo)
    requires claims.grantId.None?
    ensures var (s', r) := ToStation(cfg, s, claims, now, io);
            && s' == s.(stationReplay := s'.stationReplay, signed := s'.signed)
            && NoNewGrant(s, s')
            && (r.Ok? ==> r.value == VerifiedEnvelope(cfg.chaser.keyId, claims))
  {
  }

  lemma ToChaserFrame(cfg: EngineConfig, s: EngineState, claims: ProtocolClaims, now: i64, io: LinkIo)
    requires claims.grantId.None?
    ensures var (s', r) := ToChaser(cfg, s, claims, now, io);
            && s' == s.(chaserReplay := s'.chaserReplay, signed := s'.signed)
            && NoNewGrant(s, s')
            && (r.Ok? ==> r.value == VerifiedEnvelope(cfg.station.keyId, claims))
  {
  }

  /** The holder proof touches the two peer caches, the signatures and the proof time, and never
      fails on its binding check. */
  lemma ProveHolderFrame(cfg: EngineConfig, s: EngineState, sid: Bytes, now: i64, io: IssueIo)
    ensures var (s', r) := ProveHolder(cfg, s, sid, now, io);
            && s' == s.(stationReplay := s'.stationReplay, chaserReplay := s'.chaserReplay, signed := s'.signed,
                        holderProofAt := if r.Ok? then Some(now) else s.holderProofAt)
            && NoNewGrant(s, s')
            && r != Err(SessionBinding)
  {
    if io.challenge.Some? && io.offer.nonce.Some? {
      var offer := OfferClaims(cfg, now, io.offer.nonce.value, sid, io.challenge.value);
      ToChaserFrame(cfg, s, offer, now, io.offer);
      if io.proof.nonce.Some? {
        var proof := ProofClaims(cfg, now, io.proof.nonce.value, sid, io.challenge.value, []);
        ToStationFrame(cfg, ToChaser(cfg, s, offer, now, io.offer).0, proof, now, io.proof);
      }
    }
  }

  /** The rule of the stage `requested` from `state`, as evaluated. */
  function EvaluateStage(cfg: EngineConfig, state: DockingState, requested: byte, now: i64, e: Evidence)
    : Result<RuleDecision, ProfileError>
    requires TransitionNames(state, requested).Some?
  {
    var (from, to) := TransitionNames(state, requested).value;
    Evaluate(cfg.profile, from, to, now, cfg.bundle, e)
  }

  lemma SameStages(state: DockingState, requested: byte)
    ensures TransitionFor(state, requested).Some? <==> TransitionNames(state, requested).Some?
    ensures TransitionFor(state, requested).Some? <==> state != Aborted && 1 <= requested <= 4 && requested == StateNumber(state) + 1
  {
  }

  function DecisionOf(cfg: EngineConfig): AccessDecision {
    AccessDecision(StageTransition, cfg.policy.metadata)
  }

  /** A recorded grant is complete: it is an AuthorizationGrant of the station for the chaser, it
      binds session, stage, expiry and provenance, and the profile and the policy both allowed the
      stage on the recorded evidence at the recorded time. */
  ghost predicate IssuedWell(cfg: EngineConfig, e: Event)
    requires e.Issued?
  {
    var c := e.claims;
    && TransitionFor(e.from, e.requested).Some? && TransitionNames(e.from, e.requested).Some?
    && var rule := EvaluateStage(cfg, e.from, e.requested, e.now, e.evidence);
    && rule.Ok?
    && e.action == ActionOf(cfg, rule.value)
    && e.readinessFresh == FreshFor(cfg, rule.value, e.now, e.evidence.readiness)
    && cfg.policy.evaluate(TransitionRequest(cfg.chaser.keyId, cfg.station.keyId, e.action, e.evidence,
                                             e.readinessFresh)) == Allow
    && c.sessionId.Some? && c.grantId.Some?
    && c == GrantClaims(cfg, e.now, c.nonce, c.sessionId.value, TransitionFor(e.from, e.requested).value.1,
                        c.grantId.value, rule.value, DecisionOf(cfg))
  }

  /** `request_transition` either issues one complete grant, or leaves state, session, grants and
      history as they were. It never moves the docking state. */
  lemma IssueEffect(cfg: EngineConfig, s: EngineState, requested: byte, now: i64, readiness: Readiness, io: IssueIo)
    ensures var (s', r) := Issue(cfg, s, requested, now, readiness, io);
            && s.signed <= s'.signed
            && (r.Ok? ==> r.value.resultingState == r.value.previousState == StateNumber(s.state))
            && (r.Ok? && r.value.approved ==> GrantedStep(cfg, s, s', requested, now, readiness, io, r.value))
            && (!(r.Ok? && r.value.approved) ==>
                  && NoNewGrant(s, s')
                  && s' == s.(stationReplay := s'.stationReplay, chaserReplay := s'.chaserReplay,
                              signed := s'.signed, holderProofAt := s'.holderProofAt))
  {
    hide ProveHolder, Decide;
    if s.sessionId.Some? && TransitionFor(s.state, requested).Some? {
      var sid := s.sessionId.value;
      ProveHolderFrame(cfg, s, sid, now, io);
      var (s1, proven) := ProveHolder(cfg, s, sid, now, io);
      if proven.Ok? {
        DecideEffect(cfg, s1, sid, requested, now, readiness, io);
      }
    }
  }

  lemma DecideEffect(cfg: EngineConfig, s: EngineState, sid: Bytes, requested: byte, now: i64, readiness: Readiness, io: IssueIo)
    requires TransitionFor(s.state, requested).Some? && s.sessionId == Some(sid) && s.holderProofAt == Some(now)
    ensures var (s', r) := Decide(cfg, s, sid, TransitionFor(s.state, requested).value.1, requested, now, readiness, io);
            && s.signed <= s'.signed
            && (r.Ok? ==> r.value.resultingState == r.value.previousState == StateNumber(s.state))
            && (r.Ok? && r.value.approved ==> GrantedStep(cfg, s, s', requested, now, readiness, io, r.value))
            && (!(r.Ok? && r.value.approved) ==> s' == s)
  {
    hide Grant, Evaluate, TransitionRequest, FindRule, GrantedStep;
    SameStages(s.state, requested);
    var rule := EvaluateStage(cfg, s.state, requested, now, EvidenceOf(s, readiness));
    if rule.Ok? && PolicyAllows(cfg, s, rule.value, now, readiness) {
      var stage := TransitionFor(s.state, requested).value.1;
      assert Decide(cfg, s, sid, stage, requested, now, readiness, io)
          == Grant(cfg, s, sid, stage, requested, now, readiness, rule.value, DecisionOf(cfg), io);
      GrantIsComplete(cfg, s, sid, requested, now, readiness, rule.value, io);
    }
  }

  ghost predicate PolicyAllows(cfg: EngineConfig, s: EngineState, rule: RuleDecision, now: i64, readiness: Readiness) {
    cfg.policy.evaluate(TransitionRequest(cfg.chaser.keyId, cfg.station.keyId, ActionOf(cfg, rule),
                                          EvidenceOf(s, readiness), FreshFor(cfg, rule, now, readiness))) == Allow
  }

  lemma GrantIsComplete(cfg: EngineConfig, s: EngineState, sid: Bytes, requested: byte, now: i64, readiness: Readiness,
                        rule: RuleDecision, io: IssueIo)
    requires TransitionFor(s.state, requested).Some? && TransitionNames(s.state, requested).Some?
    requires s.sessionId == Some(sid) && s.holderProofAt == Some(now)
    requires EvaluateStage(cfg, s.state, requested, now, EvidenceOf(s, readiness)) == Ok(rule)
    requires PolicyAllows(cfg, s, rule, now, readiness)
    ensures var (s', r) := Grant(cfg, s, sid, TransitionFor(s.state, requested).value.1, requested, now, readiness, rule,
                                 DecisionOf(cfg), io);
            if r.Err? then s' == s
            else
              && GrantedStep(cfg, s, s', requested, now, readiness, io, r.value)
              && r.value.approved && s.signed <= s'.signed
              && r.value.resultingState == r.value.previousState == StateNumber(s.state)
  {
    hide Grant, Evaluate, FindRule;
    GrantEffect(cfg, s, sid, requested, now, readiness, rule, DecisionOf(cfg), io);
  }

  lemma GrantEffect(cfg: EngineConfig, s: EngineState, sid: Bytes, requested: byte, now: i64, readiness: Readiness,
                    rule: RuleDecision, decision: AccessDecision, io: IssueIo)
    requires TransitionFor(s.state, requested).Some?
    ensures var stage := TransitionFor(s.state, requested).value.1;
            var (s', r) := Grant(cfg, s, sid, stage, requested, now, readiness, rule, decision, io);
            if r.Err? then s' == s
            else
              && io.grantId.Some? && io.grantNonce.Some?
              && var gid := GrantIdOf(io.grantId.value);
              && var claims := GrantClaims(cfg, now, io.grantNonce.value, sid, stage, gid, rule, decision);
              && SignEnvelope(claims, cfg.station, true).Ok?
              && var w := SignEnvelope(claims, cfg.station, true).value;
              && s' == s.(pending := s.pending[gid := PendingEntitlement(requested, decision)],
                          signed := s.signed + {w.signature},
                          log := s.log + [Issued(claims, s.state, requested, now, EvidenceOf(s, readiness),
                                                 ActionOf(cfg, rule), FreshFor(cfg, rule, now, readiness))])
              && w.signature.over.payload == Some(Envelope(claims))
              && r.value.approved && r.value.grantId == Some(gid) && r.value.signedGrant == Some(w)
              && r.value.resultingState == r.value.previousState == StateNumber(s.state)
  {
  }

  ghost predicate GrantedStep(cfg: EngineConfig, s: EngineState, s': EngineState, requested: byte, now: i64,
                              readiness: Readiness, io: IssueIo, outcome: TransitionOutcome)
  {
    && s.sessionId.Some? && io.grantId.Some? && io.grantNonce.Some?
    && var gid := GrantIdOf(io.grantId.value);
    && |s'.log| == |s.log| + 1 && s'.log == s.log + [s'.log[|s.log|]]
    && var e := s'.log[|s.log|];
    && e.Issued? && IssuedWell(cfg, e)
    && e.from == s.state && e.requested == requested && e.now == now
    && e.evidence == Evidence(s.credentials, Some(now), s.authorization.sessionAuthorized, readiness)
    && e.claims.sessionId == s.sessionId && e.claims.grantId == Some(gid) && e.claims.nonce == io.grantNonce.value
    && s' == s.(stationReplay := s'.stationReplay, chaserReplay := s'.chaserReplay, holderProofAt := Some(now),
                pending := s.pending[gid := PendingEntitlement(requested, DecisionOf(cfg))],
                signed := s'.signed, log := s'.log)
    && (forall g | g in s'.signed && NamesGrant(g) && g !in s.signed :: g.over.payload == Some(Envelope(e.claims)))
    && outcome.grantId == Some(gid)
    && outcome.signedGrant.Some? && SignEnvelope(e.claims, cfg.station, true) == Ok(outcome.signedGrant.value)
    && outcome.signedGrant.value.CoseSign1? && outcome.signedGrant.value.signature in s'.signed
  }

  /** What accepting and releasing a grant needs, apart from provenance and the reducer. */
  ghost predicate MayRelease(cfg: EngineConfig, s: EngineState, w: Wire, requested: byte, now: i64,
                             readiness: Readiness, io: RedeemIo)
  {
    && TransitionFor(s.state, requested).Some? && TransitionNames(s.state, requested).Some?
    && s.sessionId.Some?
    && var checked := CheckEnvelope(w, cfg.gateTrust, cfg.chaser.keyId, now, MAX_CLOCK_SKEW);
    && checked.Ok?
    && var c := checked.value.claims;
    && c.nonce !in s.gateReplay.consumed && (s.gateReplay.backend.Some? ==> io.gate.Committed?)
    && c.grantId.Some? && c.grantId.value in s.pending
    && BoundTo(c, s.pending[c.grantId.value], requested, s.sessionId.value,
               TransitionFor(s.state, requested).value.1, now)
    && EvaluateStage(cfg, s.state, requested, now, EvidenceOf(s, readiness)).Ok?
    && c.grantId.value !in s.consumedGrants.consumed && (s.consumedGrants.backend.Some? ==> io.consumed.Committed?)
  }

  function ClaimsOf(w: Wire): ProtocolClaims
    requires w.CoseSign1? && w.payload.Some? && w.payload.value.Envelope?
  {
    w.payload.value.claims
  }

  /** The consumption of one grant, as history and docking state record it. */
  ghost predicate ReleasedStep(cfg: EngineConfig, s: EngineState, s': EngineState, w: Wire, requested: byte, now: i64,
                               readiness: Readiness)
  {
    && w.CoseSign1? && w.payload.Some? && w.payload.value.Envelope?
    && s'.log == s.log + [Consumed(ClaimsOf(w), s.state, requested, now, EvidenceOf(s, readiness))]
    && ClaimsOf(w).grantId.Some?
    && s'.consumedGrants.consumed == s.consumedGrants.consumed + {ClaimsOf(w).grantId.value}
    && StateNumber(s'.state) == StateNumber(s.state) + 1 == requested && s'.state != Aborted
  }

  ghost predicate Authorized(s: EngineState) {
    s.sessionId.Some? ==> s.authorization.identityVerified && s.authorization.sessionAuthorized
  }

  /** `redeem_transition` never adds a grant, keeps session and evidence, and either releases one
      stage or leaves docking state, consumed grants and history alone: no grant identifier is
      consumed in vain, because the reducer cannot refuse after the consumption. */
  lemma RedeemEffect(cfg: EngineConfig, s: EngineState, w: Wire, requested: byte, now: i64, readiness: Readiness, io: RedeemIo)
    requires Authorized(s)
    ensures var (s', r) := Redeem(cfg, s, w, requested, now, readiness, io);
            && s'.pending.Keys <= s.pending.Keys
            && (forall g | g in s'.pending :: s'.pending[g] == s.pending[g])
            && s' == s.(gateReplay := s'.gateReplay, pending := s'.pending, consumedGrants := s'.consumedGrants,
                        state := s'.state, log := s'.log)
            && (r.Ok? ==> && ReleasedStep(cfg, s, s', w, requested, now, readiness)
                          && MayRelease(cfg, s, w, requested, now, readiness, io)
                          && ClaimsOf(w).grantId.value !in s'.pending
                          && r.value.approved && r.value.resultingState == requested)
            && (r.Err? ==> s'.state == s.state && s'.log == s.log
                           && s'.consumedGrants.consumed == s.consumedGrants.consumed)
  {
    hide Release, Evaluate;
    SameStages(s.state, requested);
    var (s1, grant) := Accepted(cfg, s, w, now, io);
    if TransitionFor(s.state, requested).Some? && s.sessionId.Some? && grant.Some? {
      var gid := grant.value.grantId.value;
      ReleaseEffect(cfg, s1, grant.value, gid, s.pending[gid], s.sessionId.value, w, requested, now, readiness, io);
    }
  }

  /** `redeem_transition` up to the removal from the pending map. */
  ghost function Accepted(cfg: EngineConfig, s: EngineState, w: Wire, now: i64, io: RedeemIo)
    : (r: (EngineState, Option<ProtocolClaims>))
    ensures r.1.Some? ==> r.1.value.grantId.Some? && r.1.value.grantId.value in s.pending
  {
    var (gate, grant) := VerifyEnvelope(w, cfg.gateTrust, cfg.chaser.keyId, s.gateReplay, now, MAX_CLOCK_SKEW, io.gate);
    var s1 := s.(gateReplay := gate);
    if grant.Ok? && grant.value.claims.grantId.Some? && grant.value.claims.grantId.value in s.pending
    then (s1.(pending := s1.pending - {grant.value.claims.grantId.value}), Some(grant.value.claims))
    else (s1, None)
  }

  lemma ReleaseEffect(cfg: EngineConfig, s: EngineState, claims: ProtocolClaims, gid: Bytes, pending: PendingEntitlement,
                      sid: Bytes, w: Wire, requested: byte, now: i64, readiness: Readiness, io: RedeemIo)
    requires TransitionFor(s.state, requested).Some? && TransitionNames(s.state, requested).Some?
    requires s.authorization.identityVerified && s.authorization.sessionAuthorized
    ensures var (event, stage) := TransitionFor(s.state, requested).value;
            var (s', r) := Release(cfg, s, claims, gid, pending, event, stage, sid, w, requested, now, readiness, io);
            var rule := EvaluateStage(cfg, s.state, requested, now, EvidenceOf(s, readiness));
            && s' == s.(consumedGrants := s'.consumedGrants, state := s'.state, log := s'.log)
            && (r.Ok? <==> && BoundTo(claims, pending, requested, sid, stage, now) && rule.Ok?
                           && SameProvenance(claims, rule.value, pending.decision)
                           && gid !in s.consumedGrants.consumed
                           && (s.consumedGrants.backend.Some? ==> io.consumed.Committed?))
            && (r.Ok? ==> && s'.log == s.log + [Consumed(claims, s.state, requested, now, EvidenceOf(s, readiness))]
                          && s'.consumedGrants.consumed == s.consumedGrants.consumed + {gid}
                          && StateNumber(s'.state) == StateNumber(s.state) + 1 == requested && s'.state != Aborted
                          && r.value.approved && r.value.resultingState == requested)
            && (r.Err? ==> s'.state == s.state && s'.log == s.log
                           && s'.consumedGrants.consumed == s.consumedGrants.consumed)
            && (s'.consumedGrants == s.consumedGrants
                || s'.consumedGrants == s.consumedGrants.Consume(gid, io.consumed).0)
  {
    var (event, stage) := TransitionFor(s.state, requested).value;
    CommitEffect(s, claims, gid, requested, now, EvidenceOf(s, readiness), io.consumed);
  }

  /** The reducer cannot refuse: an authorized engine that consumed a grant moves. */
  lemma CommitEffect(s: EngineState, claims: ProtocolClaims, gid: Bytes, requested: byte, now: i64, e: Evidence,
                     io: AppendOutcome)
    requires TransitionFor(s.state, requested).Some?
    requires s.authorization.identityVerified && s.authorization.sessionAuthorized
    ensures var (event, stage) := TransitionFor(s.state, requested).value;
            var (s', r) := Commit(s, claims, gid, event, stage, requested, now, e, io);
            var (grants, consumed) := s.consumedGrants.Consume(gid, io);
            && (r.Ok? <==> consumed.Ok?)
            && (r.Ok? ==> StateNumber(r.value) == StateNumber(s.state) + 1 == requested && r.value != Aborted)
            && s' == s.(consumedGrants := grants,
                        state := if r.Ok? then r.value else s.state,
                        log := if r.Ok? then s.log + [Consumed(claims, s.state, requested, now, e)] else s.log)
  {
  }

  /** The caches a call leaves are the ones it found, after at most one `consume` each. */
  lemma RedeemCaches(cfg: EngineConfig, s: EngineState, w: Wire, requested: byte, now: i64, readiness: Readiness, io: RedeemIo)
    ensures var (s', r) := Redeem(cfg, s, w, requested, now, readiness, io);
            s'.consumedGrants == s.consumedGrants
            || exists gid :: s'.consumedGrants == s.consumedGrants.Consume(gid, io.consumed).0
  {
  }

  ghost predicate Cleaned(s: EngineState) {
    && s.state == DockingState.Hold && s.pending == map[] && s.sessionId.None?
    && !s.authorization.sessionAuthorized && !s.authorization.dockingAuthorized
  }

  /** `establish_session` clears everything first. On any error the engine stays at Hold with no
      session and nothing pending; on success it holds the drawn session and nothing pending. */
  lemma EstablishEffect(cfg: EngineConfig, s: EngineState, now: i64, scenario: Scenario, io: EstablishIo)
    ensures var (s', r) := Establish(cfg, s, now, scenario, io);
            && NoNewGrant(s, s')
            && s'.state == DockingState.Hold && s'.pending == map[] && !s'.authorization.dockingAuthorized
            && s'.gateReplay == s.gateReplay.ResetEphemeral()
            && s'.consumedGrants == s.consumedGrants.ResetEphemeral()
            && (r.Err? ==> Cleaned(s') && s'.log == s.log + [Cleared])
            && (r.Ok? ==> && io.session.Some? && s'.sessionId == Some(SessionIdOf(io.session.value)) == Some(r.value.sessionId)
                          && s'.log == s.log + [Cleared] + [Opened(SessionIdOf(io.session.value))]
                          && s'.authorization.identityVerified && s'.authorization.sessionAuthorized)
  {
    var s0 := Clear(s);
    if io.session.Some? && io.request.nonce.Some? {
      ToStationFrame(cfg, s0, RequestClaims(cfg, now, io.request.nonce.value), now, io.request);
      var (s1, request) := ToStation(cfg, s0, RequestClaims(cfg, now, io.request.nonce.value), now, io.request);
      PresentEffect(cfg, s1.(authorization := s1.authorization.(identityVerified := true)),
                    SessionIdOf(io.session.value), now, scenario, io);
    }
  }

  lemma PresentEffect(cfg: EngineConfig, s: EngineState, sid: Bytes, now: i64, scenario: Scenario, io: EstablishIo)
    requires Cleaned(s)
    ensures var (s', r) := Present(cfg, s, sid, now, scenario, io);
            && NoNewGrant(s, s')
            && s' == s.(stationReplay := s'.stationReplay, chaserReplay := s'.chaserReplay, signed := s'.signed,
                        credentials := s'.credentials, holderProofAt := s'.holderProofAt,
                        sessionId := if r.Ok? then Some(sid) else None,
                        authorization := s.authorization.(sessionAuthorized := r.Ok?),
                        log := if r.Ok? then s.log + [Opened(sid)] else s.log)
            && (r.Ok? ==> r.value.sessionId == sid)
  {
    hide ToChaser, ToStation, Admit, IssueCredentials;
    if io.challenge.Some? && io.offer.nonce.Some? {
      var offer := OfferClaims(cfg, now, io.offer.nonce.value, sid, io.challenge.value);
      ToChaserFrame(cfg, s, offer, now, io.offer);
      var (s1, _) := ToChaser(cfg, s, offer, now, io.offer);
      var (made, credentials) := IssueCredentials(cfg, now, scenario, io);
      CredentialsNameNoGrant(cfg, now, scenario, io);
      var s2 := s1.(signed := s1.signed + made);
      if credentials.Ok? && io.proof.nonce.Some? {
        var proof := ProofClaims(cfg, now, io.proof.nonce.value, sid, io.challenge.value, credentials.value);
        ToStationFrame(cfg, s2, proof, now, io.proof);
        var (s3, sent) := ToStation(cfg, s2, proof, now, io.proof);
        AdmitEffect(cfg, s3, sid, VerifiedEnvelope(cfg.station.keyId, offer), VerifiedEnvelope(cfg.chaser.keyId, proof), now);
      }
    }
  }

  lemma CredentialsNameNoGrant(cfg: EngineConfig, now: i64, scenario: Scenario, io: EstablishIo)
    ensures forall g | g in IssueCredentials(cfg, now, scenario, io).0 :: !NamesGrant(g)
  {
  }

  lemma AdmitEffect(cfg: EngineConfig, s: EngineState, sid: Bytes, offer: VerifiedEnvelope, proof: VerifiedEnvelope, now: i64)
    requires Cleaned(s)
    ensures var (s', r) := Admit(cfg, s, sid, offer, proof, now);
            && s' == s.(credentials := s'.credentials, holderProofAt := s'.holderProofAt,
                        sessionId := if r.Ok? then Some(sid) else None,
                        authorization := s.authorization.(sessionAuthorized := r.Ok?),
                        log := if r.Ok? then s.log + [Opened(sid)] else s.log)
            && (r.Ok? ==> r.value.sessionId == sid)
  {
  }
}
