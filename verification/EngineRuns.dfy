/** Guarantees over whole runs of the engine: any calls, in any order, failing anywhere. */
module EngineRuns {
  import opened Basics
  import opened Replay
  import opened Profile
  import opened StateMachine
  import opened Protocol
  import opened Engine
  import opened EngineSteps

  datatype Op =
    | DoEstablish(now: i64, scenario: Scenario, establishIo: EstablishIo)
    | DoIssue(requested: byte, now: i64, readiness: Readiness, issueIo: IssueIo)
    | DoRedeem(w: Wire, requested: byte, now: i64, readiness: Readiness, redeemIo: RedeemIo)
    | DoRestart

  /** A new process over the same storage. It does not come up when a journal fails to load. */
  function Restart(s: EngineState): Option<EngineState> {
    match (Reloaded(s.stationReplay), Reloaded(s.chaserReplay), Reloaded(s.gateReplay), Reloaded(s.consumedGrants))
    case (Some(a), Some(b), Some(c), Some(d)) =>
      Some(Start(a, b, c, d).(log := s.log + [Cleared], signed := s.signed))
    case _ => None
  }

  function Apply(cfg: EngineConfig, s: EngineState, op: Op): Option<EngineState> {
    match op
    case DoEstablish(now, scenario, io) => Some(Establish(cfg, s, now, scenario, io).0)
    case DoIssue(requested, now, readiness, io) => Some(Issue(cfg, s, requested, now, readiness, io).0)
    case DoRedeem(w, requested, now, readiness, io) => Some(Redeem(cfg, s, w, requested, now, readiness, io).0)
    case DoRestart => Restart(s)
  }

  /** None: the engine did not come up again after a restart. */
  function Run(cfg: EngineConfig, s: EngineState, ops: seq<Op>): Option<EngineState>
    decreases |ops|
  {
    if ops == [] then Some(s)
    else
      match Apply(cfg, s, ops[0])
      case None => None
      case Some(s') => Run(cfg, s', ops[1..])
  }

  // ------------------------------------------------------------------ stages and sessions

  /** The stages released since the engine was last cleared, in order. */
  function Released(log: seq<Event>): seq<int> {
    if log == [] then []
    else
      var front := log[..|log| - 1];
      match log[|log| - 1]
      case Cleared => []
      case Consumed(_, _, requested, _, _) => Released(front) + [requested as int]
      case _ => Released(front)
  }

  function Ladder(n: nat): seq<int> {
    seq(n, i => i + 1)
  }

  /** What holds of every engine state, whatever is presented to it and whatever fails. */
  ghost predicate Core(cfg: EngineConfig, s: EngineState) {
    && s.state != Aborted
    && (s.sessionId.Some? <==> s.authorization.sessionAuthorized)
    && Authorized(s)
    && !s.authorization.dockingAuthorized
    && (s.sessionId.None? ==> Cleaned(s))
    && (forall g | g in s.pending ::
          1 <= s.pending[g].requestedState <= StateNumber(s.state) + 1 && s.pending[g].decision == DecisionOf(cfg))
    && Released(s.log) == Ladder(StateNumber(s.state))
  }

  lemma ReleasedSnoc(log: seq<Event>, e: Event)
    ensures Released(log + [e]) == (match e
                                    case Cleared => []
                                    case Consumed(_, _, requested, _, _) => Released(log) + [requested as int]
                                    case _ => Released(log))
  {
    assert (log + [e])[..|log|] == log;
  }

  lemma CoreEstablish(cfg: EngineConfig, s: EngineState, now: i64, scenario: Scenario, io: EstablishIo)
    requires Core(cfg, s)
    ensures Core(cfg, Establish(cfg, s, now, scenario, io).0)
  {
    hide Establish;
    EstablishEffect(cfg, s, now, scenario, io);
    ReleasedSnoc(s.log, Cleared);
    if Establish(cfg, s, now, scenario, io).1.Ok? {
      ReleasedSnoc(s.log + [Cleared], Opened(SessionIdOf(io.session.value)));
    }
  }

  lemma CoreIssue(cfg: EngineConfig, s: EngineState, requested: byte, now: i64, readiness: Readiness, io: IssueIo)
    requires Core(cfg, s)
    ensures Core(cfg, Issue(cfg, s, requested, now, readiness, io).0)
  {
    hide Issue, EvaluateStage;
    IssueEffect(cfg, s, requested, now, readiness, io);
    var s' := Issue(cfg, s, requested, now, readiness, io).0;
    SameStages(s.state, requested);
    if |s'.log| == |s.log| + 1 {
      ReleasedSnoc(s.log, s'.log[|s.log|]);
    }
  }

  lemma CoreRedeem(cfg: EngineConfig, s: EngineState, w: Wire, requested: byte, now: i64, readiness: Readiness, io: RedeemIo)
    requires Core(cfg, s)
    ensures Core(cfg, Redeem(cfg, s, w, requested, now, readiness, io).0)
  {
    hide Redeem, CheckEnvelope, BoundTo, EvaluateStage, Released, EvidenceOf, StateNumber;
    RedeemEffect(cfg, s, w, requested, now, readiness, io);
    if Redeem(cfg, s, w, requested, now, readiness, io).1.Ok? {
      ReleasedSnoc(s.log, Consumed(ClaimsOf(w), s.state, requested, now, EvidenceOf(s, readiness)));
      LadderSnoc(StateNumber(s.state));
    }
  }

  lemma LadderSnoc(n: nat)
    ensures Ladder(n) + [n + 1] == Ladder(n + 1)
  {
  }

  lemma CoreStep(cfg: EngineConfig, s: EngineState, op: Op)
    requires Core(cfg, s) && Apply(cfg, s, op).Some?
    ensures Core(cfg, Apply(cfg, s, op).value)
  {
    hide Establish, Issue, Redeem;
    match op
    case DoEstablish(now, scenario, io) => CoreEstablish(cfg, s, now, scenario, io);
    case DoIssue(requested, now, readiness, io) => CoreIssue(cfg, s, requested, now, readiness, io);
    case DoRedeem(w, requested, now, readiness, io) => CoreRedeem(cfg, s, w, requested, now, readiness, io);
    case DoRestart => ReleasedSnoc(s.log, Cleared);
  }

  /** In every reachable state: a session id is present exactly when the session is authorized; the
      grants consumed since the last clearing are the stages 1, 2, .., n in order, each once, where n
      is the docking state, never Aborted; and no pending entitlement is for more than the next stage. */
  lemma {:induction false} ReachableStates(cfg: EngineConfig, s: EngineState, ops: seq<Op>)
    requires Core(cfg, s) && Run(cfg, s, ops).Some?
    ensures Core(cfg, Run(cfg, s, ops).value)
    decreases |ops|
  {
    if ops != [] {
      CoreStep(cfg, s, ops[0]);
      ReachableStates(cfg, Apply(cfg, s, ops[0]).value, ops[1..]);
    }
  }

  lemma StartsWell(cfg: EngineConfig, a: Cache, b: Cache, c: Cache, d: Cache)
    ensures Core(cfg, Start(a, b, c, d))
    ensures Traced(cfg, Start(a, b, c, d))
  {
  }

  /** A leftover entitlement for a stage already passed can never advance the engine, and neither
      can one for the next stage when another stage is asked for. */
  lemma LeftoversAreInert(cfg: EngineConfig, s: EngineState, w: Wire, requested: byte, now: i64, readiness: Readiness, io: RedeemIo)
    requires Core(cfg, s)
    requires w.CoseSign1? && w.payload.Some? && w.payload.value.Envelope?
    requires ClaimsOf(w).grantId.Some? && ClaimsOf(w).grantId.value in s.pending
    requires s.pending[ClaimsOf(w).grantId.value].requestedState != StateNumber(s.state) + 1
    ensures var (s', r) := Redeem(cfg, s, w, requested, now, readiness, io);
            r.Err? && s'.state == s.state && s'.log == s.log
  {
    RedeemEffect(cfg, s, w, requested, now, readiness, io);
    SameStages(s.state, requested);
  }

  // ------------------------------------------------------------------ fail-closed establishment

  /** Without a session every request and redemption is an error and changes nothing at all. */
  lemma ClosedWithoutSession(cfg: EngineConfig, s: EngineState, w: Wire, requested: byte, now: i64,
                             readiness: Readiness, io: IssueIo, redeemIo: RedeemIo)
    requires s.sessionId.None?
    ensures Issue(cfg, s, requested, now, readiness, io).1.Err?
    ensures Redeem(cfg, s, w, requested, now, readiness, redeemIo).1.Err?
    ensures Issue(cfg, s, requested, now, readiness, io).0 == s
    ensures Redeem(cfg, s, w, requested, now, readiness, redeemIo).0 == s
  {
  }

  /** No call of this sequence, made in turn from `s`, opens a session. */
  ghost predicate NoneOpens(cfg: EngineConfig, s: EngineState, ops: seq<Op>)
    decreases |ops|
  {
    ops != [] && Apply(cfg, s, ops[0]).Some? ==>
      && (ops[0].DoEstablish? ==>
            Establish(cfg, s, ops[0].now, ops[0].scenario, ops[0].establishIo).1.Err?)
      && NoneOpens(cfg, Apply(cfg, s, ops[0]).value, ops[1..])
  }

  /** After a failed establishment, at whichever step it failed, the engine stays at Hold with no
      session and nothing pending, through any further requests, redemptions, restarts and failed
      establishments. */
  lemma FailedEstablishmentStaysClosed(cfg: EngineConfig, s: EngineState, now: i64, scenario: Scenario, io: EstablishIo, ops: seq<Op>)
    requires Establish(cfg, s, now, scenario, io).1.Err?
    requires NoneOpens(cfg, Establish(cfg, s, now, scenario, io).0, ops)
    ensures var end := Run(cfg, Establish(cfg, s, now, scenario, io).0, ops);
            end.Some? ==> Cleaned(end.value)
  {
    EstablishEffect(cfg, s, now, scenario, io);
    StaysClosed(cfg, Establish(cfg, s, now, scenario, io).0, ops);
  }

  lemma {:induction false} StaysClosed(cfg: EngineConfig, s: EngineState, ops: seq<Op>)
    requires Cleaned(s) && NoneOpens(cfg, s, ops)
    ensures Run(cfg, s, ops).Some? ==> Cleaned(Run(cfg, s, ops).value)
    decreases |ops|
  {
    if ops != [] && Apply(cfg, s, ops[0]).Some? {
      match ops[0] {
        case DoEstablish(now, scenario, io) => EstablishEffect(cfg, s, now, scenario, io);
        case DoIssue(requested, now, readiness, io) =>
          ClosedWithoutSession(cfg, s, Garbage, requested, now, readiness, io, RedeemIo(Committed, Committed));
        case _ =>
      }
      StaysClosed(cfg, Apply(cfg, s, ops[0]).value, ops[1..]);
    }
  }

  /** The credential issued in the expired-credential scenario is never accepted, at any clock value,
      even where the issue and expiry times wrap around: the scenario never opens a session. */
  lemma ExpiredCredentialNeverOpens(cfg: EngineConfig, s: EngineState, now: i64, io: EstablishIo)
    ensures Establish(cfg, s, now, Scenario.ExpiredCredential, io).1.Err?
    ensures Cleaned(Establish(cfg, s, now, Scenario.ExpiredCredential, io).0)
  {
    EstablishEffect(cfg, s, now, Scenario.ExpiredCredential, io);
    hide VerifyEnvelope;
    if io.session.Some? && io.request.nonce.Some? && Establish(cfg, s, now, Scenario.ExpiredCredential, io).1.Ok? {
      var s1 := ToStation(cfg, Clear(s), RequestClaims(cfg, now, io.request.nonce.value), now, io.request).0;
      ExpiredPresentationFails(cfg, s1.(authorization := s1.authorization.(identityVerified := true)),
                               SessionIdOf(io.session.value), now, io);
    }
  }

  lemma ExpiredPresentationFails(cfg: EngineConfig, s: EngineState, sid: Bytes, now: i64, io: EstablishIo)
    ensures Present(cfg, s, sid, now, Scenario.ExpiredCredential, io).1.Err?
  {
    hide ToChaser, ToStation, Admit, VerifyCredentials;
    if io.challenge.Some? && io.offer.nonce.Some? {
      var offer := OfferClaims(cfg, now, io.offer.nonce.value, sid, io.challenge.value);
      ToChaserFrame(cfg, s, offer, now, io.offer);
      var s1 := ToChaser(cfg, s, offer, now, io.offer).0;
      var (made, credentials) := IssueCredentials(cfg, now, Scenario.ExpiredCredential, io);
      var s2 := s1.(signed := s1.signed + made);
      if credentials.Ok? && io.proof.nonce.Some? {
        var proof := ProofClaims(cfg, now, io.proof.nonce.value, sid, io.challenge.value, credentials.value);
        ToStationFrame(cfg, s2, proof, now, io.proof);
        var s3 := ToStation(cfg, s2, proof, now, io.proof).0;
        ExpiredRegistration(cfg, now);
        FirstCredentialDecides(cfg, s3, sid, VerifiedEnvelope(cfg.station.keyId, offer),
                               VerifiedEnvelope(cfg.chaser.keyId, proof), now);
      }
    }
  }

  lemma FirstCredentialDecides(cfg: EngineConfig, s: EngineState, sid: Bytes, offer: VerifiedEnvelope, proof: VerifiedEnvelope,
                               now: i64)
    requires proof.claims.credentials != []
    requires VerifyCredential(proof.claims.credentials[0], cfg.credentialTrust, proof.signer, now).Err?
    ensures Admit(cfg, s, sid, offer, proof, now).1.Err?
  {
  }

  lemma ExpiredRegistration(cfg: EngineConfig, now: i64)
    ensures var c := RegistrationClaims(cfg, now, Scenario.ExpiredCredential);
            now < c.issuedAt || now > c.expiresAt
  {
  }

  // ------------------------------------------------------------------ causal history

  /** The gate trusts the station's key and no other. */
  ghost predicate GateTrustsStation(cfg: EngineConfig) {
    forall k | k in cfg.gateTrust :: cfg.gateTrust[k] == cfg.station.key
  }

  function Sessions(log: seq<Event>): set<Bytes> {
    set e | e in log && e.Opened? :: e.sessionId
  }

  /** The two assumptions on the environment: a signature of the station's key that reaches the
      engine was made by the engine, and a session id drawn was never opened before. */
  ghost predicate Honest(cfg: EngineConfig, s: EngineState, op: Op) {
    match op
    case DoEstablish(_, _, io) => io.session.Some? ==> SessionIdOf(io.session.value) !in Sessions(s.log)
    case DoRedeem(w, _, _, _, _) => w.CoseSign1? && w.signature.key == cfg.station.key ==> w.signature in s.signed
    case _ => true
  }

  ghost predicate HonestRun(cfg: EngineConfig, s: EngineState, ops: seq<Op>)
    decreases |ops|
  {
    ops != [] ==>
      && Honest(cfg, s, ops[0])
      && (Apply(cfg, s, ops[0]).Some? ==> HonestRun(cfg, Apply(cfg, s, ops[0]).value, ops[1..]))
  }

  ghost predicate IssuedAt(log: seq<Event>, i: int, claims: ProtocolClaims) {
    0 <= i < |log| && log[i].Issued? && log[i].claims == claims
  }

  ghost predicate Uncleared(log: seq<Event>, i: int) {
    forall k | 0 <= i < k < |log| :: !log[k].Cleared?
  }

  /** The redemption recorded at `j` used the envelope signed by the issue recorded at `i`, in the
      same session, from the same docking state, for the same stage, within its window; the profile
      passed again. */
  ghost predicate Justifies(cfg: EngineConfig, log: seq<Event>, i: int, j: int)
    requires 0 <= j < |log| && log[j].Consumed?
  {
    var e := log[j];
    && IssuedAt(log, i, e.claims) && i < j && IssuedWell(cfg, log[i])
    && (forall k | i < k < j :: !log[k].Cleared?)
    && log[i].from == e.from && log[i].requested == e.requested
    && TransitionNames(e.from, e.requested).Some?
    && EvaluateStage(cfg, e.from, e.requested, e.now, e.evidence).Ok?
    && Abs(e.now - e.claims.issuedAt) <= 30
    && e.claims.expiresAt.Some? && e.now <= e.claims.expiresAt.value
  }

  /** The history: every issue is complete and belongs to an opened session, every signature that
      names a grant belongs to an issue, every redemption has its issue, and the issues of the open
      session were made since the engine was last cleared. */
  ghost predicate Trace(cfg: EngineConfig, log: seq<Event>, signed: set<Signature>, sid: Option<Bytes>) {
    && (forall i | 0 <= i < |log| && log[i].Issued? ::
          IssuedWell(cfg, log[i]) && log[i].claims.sessionId.value in Sessions(log))
    && (sid.Some? ==> sid.value in Sessions(log))
    && (forall i | 0 <= i < |log| && log[i].Issued? && sid.Some? && log[i].claims.sessionId == sid :: Uncleared(log, i))
    && (forall g | g in signed && NamesGrant(g) :: exists i :: IssuedAt(log, i, g.over.payload.value.claims))
    && (forall j | 0 <= j < |log| && log[j].Consumed? :: exists i :: Justifies(cfg, log, i, j))
  }

  ghost predicate Traced(cfg: EngineConfig, s: EngineState) {
    Trace(cfg, s.log, s.signed, s.sessionId)
  }

  lemma SessionsSnoc(log: seq<Event>, e: Event)
    ensures Sessions(log + [e]) == Sessions(log) + (if e.Opened? then {e.sessionId} else {})
  {
    var longer := log + [e];
    assert longer[|log|] == e;
    forall x | x in longer
      ensures x in log || x == e
    {
    }
    forall x | x in log
      ensures x in longer
    {
      var i :| 0 <= i < |log| && log[i] == x;
      assert longer[i] == x;
    }
  }

  /** Old history keeps its meaning when an event is appended. */
  lemma HistoryExtends(cfg: EngineConfig, log: seq<Event>, signed: set<Signature>, sid: Option<Bytes>, e: Event)
    requires Trace(cfg, log, signed, sid)
    ensures var longer := log + [e];
            && (forall i | 0 <= i < |log| :: longer[i] == log[i])
            && (forall g | g in signed && NamesGrant(g) :: exists i :: IssuedAt(longer, i, g.over.payload.value.claims))
            && (forall j | 0 <= j < |log| && longer[j].Consumed? :: exists i :: Justifies(cfg, longer, i, j))
            && (!e.Cleared? ==> forall i | 0 <= i < |log| && Uncleared(log, i) :: Uncleared(longer, i))
  {
    var longer := log + [e];
    forall g | g in signed && NamesGrant(g)
      ensures exists i :: IssuedAt(longer, i, g.over.payload.value.claims)
    {
      var i :| IssuedAt(log, i, g.over.payload.value.claims);
      assert IssuedAt(longer, i, g.over.payload.value.claims);
    }
    forall j | 0 <= j < |log| && longer[j].Consumed?
      ensures exists i :: Justifies(cfg, longer, i, j)
    {
      assert longer[j] == log[j];
      var i :| Justifies(cfg, log, i, j);
      assert longer[i] == log[i];
      assert Justifies(cfg, longer, i, j);
    }
  }

  lemma TraceCleared(cfg: EngineConfig, log: seq<Event>, signed: set<Signature>, sid: Option<Bytes>)
    requires Trace(cfg, log, signed, sid)
    ensures Trace(cfg, log + [Cleared], signed, None)
  {
    HistoryExtends(cfg, log, signed, sid, Cleared);
    SessionsSnoc(log, Cleared);
  }

  lemma TraceOpened(cfg: EngineConfig, log: seq<Event>, signed: set<Signature>, sid: Bytes)
    requires Trace(cfg, log, signed, None) && sid !in Sessions(log)
    ensures Trace(cfg, log + [Opened(sid)], signed, Some(sid))
  {
    HistoryExtends(cfg, log, signed, None, Opened(sid));
    SessionsSnoc(log, Opened(sid));
  }

  lemma TraceIssued(cfg: EngineConfig, log: seq<Event>, signed: set<Signature>, sid: Option<Bytes>, e: Event, g: Signature)
    requires Trace(cfg, log, signed, sid) && sid.Some?
    requires e.Issued? && IssuedWell(cfg, e) && e.claims.sessionId == sid
    requires g.over.payload == Some(Envelope(e.claims))
    ensures Trace(cfg, log + [e], signed + {g}, sid)
  {
    HistoryExtends(cfg, log, signed, sid, e);
    SessionsSnoc(log, e);
    assert IssuedAt(log + [e], |log|, e.claims);
  }

  lemma TraceConsumed(cfg: EngineConfig, log: seq<Event>, signed: set<Signature>, sid: Option<Bytes>, e: Event, i: int)
    requires Trace(cfg, log, signed, sid) && e.Consumed?
    requires Justifies(cfg, log + [e], i, |log|)
    ensures Trace(cfg, log + [e], signed, sid)
  {
    HistoryExtends(cfg, log, signed, sid, e);
    SessionsSnoc(log, e);
  }

  lemma EstablishTraced(cfg: EngineConfig, s: EngineState, now: i64, scenario: Scenario, io: EstablishIo)
    requires Traced(cfg, s) && Honest(cfg, s, DoEstablish(now, scenario, io))
    ensures Traced(cfg, Establish(cfg, s, now, scenario, io).0)
  {
    hide Establish, Issue, Redeem;
    EstablishEffect(cfg, s, now, scenario, io);
    var (s', r) := Establish(cfg, s, now, scenario, io);
    TraceCleared(cfg, s.log, s.signed, s.sessionId);
    if r.Ok? {
      SessionsSnoc(s.log, Cleared);
      TraceOpened(cfg, s.log + [Cleared], s.signed, SessionIdOf(io.session.value));
    }
  }

  lemma IssueTraced(cfg: EngineConfig, s: EngineState, requested: byte, now: i64, readiness: Readiness, io: IssueIo)
    requires Traced(cfg, s)
    ensures Traced(cfg, Issue(cfg, s, requested, now, readiness, io).0)
  {
    hide Establish, Issue, Redeem;
    IssueEffect(cfg, s, requested, now, readiness, io);
    var (s', r) := Issue(cfg, s, requested, now, readiness, io);
    if r.Ok? && r.value.approved {
      var e := s'.log[|s.log|];
      var g := Signature(cfg.station.key, SigStructure(cfg.station.keyId, DockingIdentityV1, Some(Envelope(e.claims))));
      TraceIssued(cfg, s.log, s.signed, s.sessionId, e, g);
    }
  }

  /** An accepted envelope that names a grant is one the engine issued in the current session. */
  lemma AcceptedGrantWasIssued(cfg: EngineConfig, s: EngineState, w: Wire, now: i64) returns (i: int)
    requires Traced(cfg, s) && GateTrustsStation(cfg)
    requires w.CoseSign1? && w.signature.key == cfg.station.key ==> w.signature in s.signed
    requires CheckEnvelope(w, cfg.gateTrust, cfg.chaser.keyId, now, MAX_CLOCK_SKEW).Ok?
    requires s.sessionId.Some? && ClaimsOf(w).grantId.Some? && ClaimsOf(w).sessionId == s.sessionId
    ensures IssuedAt(s.log, i, ClaimsOf(w)) && IssuedWell(cfg, s.log[i]) && Uncleared(s.log, i)
    ensures ClaimsOf(w).messageType == AuthorizationGrant
  {
    AcceptedEnvelopes(w, cfg.gateTrust, cfg.chaser.keyId, now, MAX_CLOCK_SKEW);
    assert w.signature in s.signed && NamesGrant(w.signature);
    i :| IssuedAt(s.log, i, ClaimsOf(w));
  }

  lemma StageDetermines(a: DockingState, x: byte, b: DockingState, y: byte)
    requires TransitionFor(a, x).Some? && TransitionFor(b, y).Some?
    requires TransitionFor(a, x).value.1 == TransitionFor(b, y).value.1
    ensures a == b && x == y
  {
  }

  lemma RedeemTraced(cfg: EngineConfig, s: EngineState, w: Wire, requested: byte, now: i64, readiness: Readiness, io: RedeemIo)
    requires Core(cfg, s) && Traced(cfg, s) && GateTrustsStation(cfg)
    requires Honest(cfg, s, DoRedeem(w, requested, now, readiness, io))
    ensures Traced(cfg, Redeem(cfg, s, w, requested, now, readiness, io).0)
  {
    hide Establish, Issue, Redeem;
    RedeemEffect(cfg, s, w, requested, now, readiness, io);
    var (s', r) := Redeem(cfg, s, w, requested, now, readiness, io);
    if r.Ok? {
      var e := Consumed(ClaimsOf(w), s.state, requested, now, EvidenceOf(s, readiness));
      var i := AcceptedGrantWasIssued(cfg, s, w, now);
      RedemptionIsJustified(cfg, s, w, requested, now, readiness, io, i);
      TraceConsumed(cfg, s.log, s.signed, s.sessionId, e, i);
    }
  }

  lemma RedemptionIsJustified(cfg: EngineConfig, s: EngineState, w: Wire, requested: byte, now: i64, readiness: Readiness,
                              io: RedeemIo, i: int)
    requires MayRelease(cfg, s, w, requested, now, readiness, io)
    requires IssuedAt(s.log, i, ClaimsOf(w)) && IssuedWell(cfg, s.log[i]) && Uncleared(s.log, i)
    ensures Justifies(cfg, s.log + [Consumed(ClaimsOf(w), s.state, requested, now, EvidenceOf(s, readiness))], i, |s.log|)
  {
    var longer := s.log + [Consumed(ClaimsOf(w), s.state, requested, now, EvidenceOf(s, readiness))];
    assert longer[i] == s.log[i];
    StageDetermines(s.log[i].from, s.log[i].requested, s.state, requested);
  }

  lemma RestartTraced(cfg: EngineConfig, s: EngineState)
    requires Traced(cfg, s) && Restart(s).Some?
    ensures Traced(cfg, Restart(s).value)
  {
    TraceCleared(cfg, s.log, s.signed, s.sessionId);
  }

  /** Every successful redemption, over any run, has its causal history: see `Justifies`. */
  lemma {:induction false} CausalHistory(cfg: EngineConfig, s: EngineState, ops: seq<Op>)
    requires Core(cfg, s) && Traced(cfg, s) && GateTrustsStation(cfg)
    requires HonestRun(cfg, s, ops) && Run(cfg, s, ops).Some?
    ensures Traced(cfg, Run(cfg, s, ops).value) && Core(cfg, Run(cfg, s, ops).value)
    decreases |ops|
  {
    hide Establish, Issue, Redeem, Trace;
    if ops != [] {
      CoreStep(cfg, s, ops[0]);
      match ops[0] {
        case DoEstablish(now, scenario, io) => EstablishTraced(cfg, s, now, scenario, io);
        case DoIssue(requested, now, readiness, io) => IssueTraced(cfg, s, requested, now, readiness, io);
        case DoRedeem(w, requested, now, readiness, io) => RedeemTraced(cfg, s, w, requested, now, readiness, io);
        case DoRestart => RestartTraced(cfg, s);
      }
      CausalHistory(cfg, Apply(cfg, s, ops[0]).value, ops[1..]);
    }
  }
}
