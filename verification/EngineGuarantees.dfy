/** What the run invariants mean to a user of the engine: provenance, single use, ordered history,
    the window in which a grant is usable. */
module EngineGuarantees {
  import opened Basics
  import opened Replay
  import opened Durability
  import opened Profile
  import opened Cedar
  import opened StateMachine
  import opened Protocol
  import opened Engine
  import opened EngineSteps
  import opened EngineRuns

  // ------------------------------------------------------------------ provenance

  /** Redemption succeeds exactly when the conditions of `MayRelease` hold. The comparison of
      profile, rule and policy with the pending decision, and the reducer, never refuse. */
  lemma ProvenanceNeverRejects(cfg: EngineConfig, s: EngineState, w: Wire, requested: byte, now: i64,
                               readiness: Readiness, io: RedeemIo)
    requires Core(cfg, s) && Traced(cfg, s) && GateTrustsStation(cfg)
    requires Honest(cfg, s, DoRedeem(w, requested, now, readiness, io))
    ensures Redeem(cfg, s, w, requested, now, readiness, io).1.Ok?
       <==> MayRelease(cfg, s, w, requested, now, readiness, io)
  {
    RedeemEffect(cfg, s, w, requested, now, readiness, io);
    if MayRelease(cfg, s, w, requested, now, readiness, io) {
      MayReleaseSuffices(cfg, s, w, requested, now, readiness, io);
    }
  }

  lemma MayReleaseSuffices(cfg: EngineConfig, s: EngineState, w: Wire, requested: byte, now: i64,
                           readiness: Readiness, io: RedeemIo)
    requires Core(cfg, s) && Traced(cfg, s) && GateTrustsStation(cfg)
    requires Honest(cfg, s, DoRedeem(w, requested, now, readiness, io))
    requires MayRelease(cfg, s, w, requested, now, readiness, io)
    ensures Redeem(cfg, s, w, requested, now, readiness, io).1.Ok?
  {
    hide Release, Evaluate, SameProvenance, IssuedWell;
    AcceptedEnvelopes(w, cfg.gateTrust, cfg.chaser.keyId, now, MAX_CLOCK_SKEW);
    var gid := ClaimsOf(w).grantId.value;
    var i := AcceptedGrantWasIssued(cfg, s, w, now);
    IssueMatchesStage(cfg, s.log[i], s.state, requested);
    SameProvenanceAgain(cfg, s.log[i], now, EvidenceOf(s, readiness));
    ReleaseEffect(cfg, Accepted(cfg, s, w, now, io).0, ClaimsOf(w), gid, s.pending[gid], s.sessionId.value, w, requested,
                  now, readiness, io);
  }

  lemma IssueMatchesStage(cfg: EngineConfig, e: Event, state: DockingState, requested: byte)
    requires e.Issued? && IssuedWell(cfg, e) && TransitionFor(state, requested).Some?
    requires e.claims.authorizedStage == Some(TransitionFor(state, requested).value.1)
    ensures e.from == state && e.requested == requested
  {
    StageDetermines(e.from, e.requested, state, requested);
  }

  /** Re-evaluating the stage of an issue under the same configuration decides the same rule. */
  lemma SameProvenanceAgain(cfg: EngineConfig, e: Event, now: i64, evidence: Evidence)
    requires e.Issued? && IssuedWell(cfg, e)
    requires EvaluateStage(cfg, e.from, e.requested, now, evidence).Ok?
    ensures SameProvenance(e.claims, EvaluateStage(cfg, e.from, e.requested, now, evidence).value, DecisionOf(cfg))
  {
  }

  // ------------------------------------------------------------------ single use

  ghost predicate SpentAt(log: seq<Event>, j: int, gid: Option<Bytes>) {
    0 <= j < |log| && log[j].Consumed? && log[j].claims.grantId == gid
  }

  /** No grant identifier is redeemed twice in the history. */
  ghost predicate SingleUse(log: seq<Event>) {
    forall i, j, gid | SpentAt(log, i, gid) && SpentAt(log, j, gid) :: i == j
  }

  lemma SpentAtSnoc(log: seq<Event>, e: Event, j: int, gid: Option<Bytes>)
    ensures SpentAt(log + [e], j, gid) <==> SpentAt(log, j, gid) || (j == |log| && e.Consumed? && e.claims.grantId == gid)
  {
  }

  lemma SingleUseSnoc(log: seq<Event>, e: Event)
    requires SingleUse(log)
    requires e.Consumed? ==> forall j :: !SpentAt(log, j, e.claims.grantId)
    ensures SingleUse(log + [e])
  {
    forall i, j, gid | SpentAt(log + [e], i, gid) && SpentAt(log + [e], j, gid)
      ensures i == j
    {
      SpentAtSnoc(log, e, i, gid);
      SpentAtSnoc(log, e, j, gid);
    }
  }

  /** With durable consumption: every spent identifier is in memory, and in the journal for good. */
  ghost predicate Durable(s: EngineState) {
    && SingleUse(s.log)
    && s.consumedGrants.backend.Some?
    && (forall j, gid | SpentAt(s.log, j, gid) ::
          gid.Some? && gid.value in s.consumedGrants.consumed && Kept(s.consumedGrants.backend.value, gid.value))
  }

  lemma DurableQuiet(s: EngineState, s': EngineState, e: Event)
    requires Durable(s) && !e.Consumed?
    requires s'.consumedGrants == s.consumedGrants && s'.log == s.log + [e]
    ensures Durable(s')
  {
    SingleUseSnoc(s.log, e);
    forall j, gid | SpentAt(s'.log, j, gid)
      ensures SpentAt(s.log, j, gid)
    {
      SpentAtSnoc(s.log, e, j, gid);
    }
  }

  lemma DurableRestart(s: EngineState, s': EngineState)
    requires Durable(s) && Reloaded(s.consumedGrants) == Some(s'.consumedGrants) && s'.log == s.log + [Cleared]
    ensures Durable(s')
  {
    hide Kept;
    SingleUseSnoc(s.log, Cleared);
    forall j, gid | SpentAt(s'.log, j, gid)
      ensures gid.Some? && gid.value in s'.consumedGrants.consumed && Kept(s'.consumedGrants.backend.value, gid.value)
    {
      SpentAtSnoc(s.log, Cleared, j, gid);
      KeptIsLoaded(s.consumedGrants.backend.value, gid.value);
    }
  }

  /** A redemption whose commit of the grant identifier would land on a torn line and be lost. Whether it
      would can be told from the journal before the call. */
  predicate LosesGrant(s: EngineState, op: Op) {
    && op.DoRedeem? && op.redeemIo.consumed.Committed? && s.consumedGrants.backend.Some?
    && op.w.CoseSign1? && op.w.payload.Some? && op.w.payload.value.Envelope? && ClaimsOf(op.w).grantId.Some?
    && ClaimsOf(op.w).grantId.value !in s.consumedGrants.consumed
    && LosesCommit(s.consumedGrants.backend.value, ClaimsOf(op.w).grantId.value)
  }

  lemma DurableStep(cfg: EngineConfig, s: EngineState, op: Op)
    requires Core(cfg, s) && Durable(s) && Apply(cfg, s, op).Some? && !LosesGrant(s, op)
    ensures Durable(Apply(cfg, s, op).value)
  {
    hide Establish, Issue, Redeem, IssuedWell, Kept, LosesCommit;
    var s' := Apply(cfg, s, op).value;
    match op
    case DoEstablish(now, scenario, io) =>
      EstablishEffect(cfg, s, now, scenario, io);
      var cleared := s.(log := s.log + [Cleared]);
      DurableQuiet(s, cleared, Cleared);
      if Establish(cfg, s, now, scenario, io).1.Ok? {
        DurableQuiet(cleared, s', Opened(SessionIdOf(io.session.value)));
      }
    case DoIssue(requested, now, readiness, io) =>
      IssueEffect(cfg, s, requested, now, readiness, io);
      if |s'.log| == |s.log| + 1 {
        DurableQuiet(s, s', s'.log[|s.log|]);
      }
    case DoRedeem(w, requested, now, readiness, io) =>
      RedeemDurable(cfg, s, w, requested, now, readiness, io);
    case DoRestart =>
      DurableRestart(s, s');
  }

  lemma RedeemDurable(cfg: EngineConfig, s: EngineState, w: Wire, requested: byte, now: i64, readiness: Readiness, io: RedeemIo)
    requires Core(cfg, s) && Durable(s) && !LosesGrant(s, DoRedeem(w, requested, now, readiness, io))
    ensures Durable(Redeem(cfg, s, w, requested, now, readiness, io).0)
  {
    hide Redeem, Kept, LosesCommit, EvaluateStage, BoundTo;
    var (s', r) := Redeem(cfg, s, w, requested, now, readiness, io);
    RedeemEffect(cfg, s, w, requested, now, readiness, io);
    RedeemCaches(cfg, s, w, requested, now, readiness, io);
    if r.Ok? {
      var gid := ClaimsOf(w).grantId.value;
      OnlyThatGrant(s.consumedGrants, s'.consumedGrants, gid, io.consumed);
      CommitIsKept(s.consumedGrants.backend.value, gid);
      ConsumeExtends(s.consumedGrants, gid, io.consumed);
      DurableSpend(s, s', Consumed(ClaimsOf(w), s.state, requested, now, EvidenceOf(s, readiness)), gid, io.consumed);
    } else if s'.consumedGrants != s.consumedGrants {
      var gid :| s'.consumedGrants == s.consumedGrants.Consume(gid, io.consumed).0;
      forall j, g | SpentAt(s'.log, j, g)
        ensures g.Some? && g.value in s'.consumedGrants.consumed && Kept(s'.consumedGrants.backend.value, g.value)
      {
        ConsumeKeeps(s.consumedGrants, gid, io.consumed, g.value);
      }
      ConsumeExtends(s.consumedGrants, gid, io.consumed);
    }
  }

  lemma OnlyThatGrant(c: Cache, c': Cache, gid: Bytes, io: AppendOutcome)
    requires gid !in c.consumed && gid in c'.consumed
    requires c' == c || exists g :: c' == c.Consume(g, io).0
    ensures c' == c.Consume(gid, io).0
  {
  }

  lemma DurableSpend(s: EngineState, s': EngineState, e: Event, gid: Bytes, io: AppendOutcome)
    requires Durable(s) && e.Consumed? && e.claims.grantId == Some(gid) && s'.log == s.log + [e]
    requires gid !in s.consumedGrants.consumed && s'.consumedGrants == s.consumedGrants.Consume(gid, io).0
    requires gid in s'.consumedGrants.consumed
    requires s'.consumedGrants.backend.Some? && Kept(s'.consumedGrants.backend.value, gid)
    ensures Durable(s')
  {
    hide Kept;
    SingleUseSnoc(s.log, e);
    forall j, g | SpentAt(s'.log, j, g)
      ensures g.Some? && g.value in s'.consumedGrants.consumed && Kept(s'.consumedGrants.backend.value, g.value)
    {
      SpentAtSnoc(s.log, e, j, g);
      if SpentAt(s.log, j, g) {
        ConsumeKeeps(s.consumedGrants, gid, io, g.value);
      }
    }
  }

  /** No redemption of the run loses the identifier it commits. */
  predicate NoGrantLost(cfg: EngineConfig, s: EngineState, ops: seq<Op>)
    decreases |ops|
  {
    ops != [] && Apply(cfg, s, ops[0]).Some? ==>
      !LosesGrant(s, ops[0]) && NoGrantLost(cfg, Apply(cfg, s, ops[0]).value, ops[1..])
  }

  /** Single use across restarts: with a durable grant cache, no identifier is redeemed twice over any run
      of establishments, requests, redemptions, restarts and storage failures at any byte, as long as no
      commit is lost to a torn line. No assumption on randomness or on signatures. */
  lemma {:induction false} SingleUseAcrossRestarts(cfg: EngineConfig, s: EngineState, ops: seq<Op>)
    requires Core(cfg, s) && Durable(s) && NoGrantLost(cfg, s, ops) && Run(cfg, s, ops).Some?
    ensures Durable(Run(cfg, s, ops).value)
    decreases |ops|
  {
    hide LosesGrant, Durable;
    if ops != [] {
      DurableStep(cfg, s, ops[0]);
      CoreStep(cfg, s, ops[0]);
      SingleUseAcrossRestarts(cfg, Apply(cfg, s, ops[0]).value, ops[1..]);
    }
  }

  /** The condition is exact: a restart forgets an identifier just redeemed exactly when its commit was
      lost. */
  lemma GrantForgotten(cfg: EngineConfig, s: EngineState, w: Wire, requested: byte, now: i64, readiness: Readiness, io: RedeemIo)
    requires Core(cfg, s) && s.consumedGrants.backend.Some?
    requires Redeem(cfg, s, w, requested, now, readiness, io).1.Ok?
    ensures w.CoseSign1? && w.payload.Some? && w.payload.value.Envelope? && ClaimsOf(w).grantId.Some?
    ensures var restarted := Reloaded(Redeem(cfg, s, w, requested, now, readiness, io).0.consumedGrants);
            restarted.Some? && ClaimsOf(w).grantId.value !in restarted.value.consumed
            <==> LosesGrant(s, DoRedeem(w, requested, now, readiness, io))
  {
    hide Redeem, LosesCommit, EvaluateStage, BoundTo;
    var s' := Redeem(cfg, s, w, requested, now, readiness, io).0;
    RedeemEffect(cfg, s, w, requested, now, readiness, io);
    RedeemCaches(cfg, s, w, requested, now, readiness, io);
    var gid := ClaimsOf(w).grantId.value;
    OnlyThatGrant(s.consumedGrants, s'.consumedGrants, gid, io.consumed);
    SpentAgain(s.consumedGrants, gid);
  }

  /** A new engine over any durable grant journal is `Durable`, and over any caches `Unspent`. */
  lemma StartsUnspent(a: Cache, b: Cache, c: Cache, d: Cache)
    ensures d.backend.Some? ==> Durable(Start(a, b, c, d))
    ensures Unspent(Start(a, b, c, d)) && Paced(Start(a, b, c, d).log)
  {
  }

  function IssuedIds(log: seq<Event>): set<Option<Bytes>> {
    set e | e in log && e.Issued? :: e.claims.grantId
  }

  /** With fresh grant identifiers: what is pending was issued and has not been spent. */
  ghost predicate Unspent(s: EngineState) {
    && SingleUse(s.log)
    && (forall g | g in s.pending :: Some(g) in IssuedIds(s.log))
    && (forall j, gid | SpentAt(s.log, j, gid) :: gid in IssuedIds(s.log) && (gid.Some? ==> gid.value !in s.pending))
  }

  lemma IssuedIdsSnoc(log: seq<Event>, e: Event)
    ensures IssuedIds(log + [e]) == IssuedIds(log) + (if e.Issued? then {e.claims.grantId} else {})
  {
    var longer := log + [e];
    assert longer[|log|] == e;
    forall x | x in log
      ensures x in longer
    {
      var i :| 0 <= i < |log| && log[i] == x;
      assert longer[i] == x;
    }
  }

  lemma UnspentSnoc(s: EngineState, s': EngineState, e: Event)
    requires Unspent(s) && s'.log == s.log + [e]
    requires forall g | g in s'.pending :: g in s.pending || (e.Issued? && e.claims.grantId == Some(g) && Some(g) !in IssuedIds(s.log))
    requires e.Consumed? ==> e.claims.grantId.Some? && e.claims.grantId.value in s.pending && e.claims.grantId.value !in s'.pending
    ensures Unspent(s')
  {
    IssuedIdsSnoc(s.log, e);
    SingleUseSnoc(s.log, e);
    forall j, gid | SpentAt(s'.log, j, gid)
      ensures gid in IssuedIds(s'.log) && (gid.Some? ==> gid.value !in s'.pending)
    {
      SpentAtSnoc(s.log, e, j, gid);
    }
  }

  lemma UnspentStep(cfg: EngineConfig, s: EngineState, op: Op)
    requires Core(cfg, s) && Unspent(s) && Apply(cfg, s, op).Some?
    requires op.DoIssue? && op.issueIo.grantId.Some? ==> Some(GrantIdOf(op.issueIo.grantId.value)) !in IssuedIds(s.log)
    ensures Unspent(Apply(cfg, s, op).value)
  {
    hide Establish, Issue, Redeem, IssuedWell;
    var s' := Apply(cfg, s, op).value;
    match op
    case DoEstablish(now, scenario, io) =>
      EstablishEffect(cfg, s, now, scenario, io);
      var cleared := s.(log := s.log + [Cleared], pending := map[]);
      UnspentSnoc(s, cleared, Cleared);
      if Establish(cfg, s, now, scenario, io).1.Ok? {
        UnspentSnoc(cleared, s', Opened(SessionIdOf(io.session.value)));
      }
    case DoIssue(requested, now, readiness, io) =>
      IssueEffect(cfg, s, requested, now, readiness, io);
      if |s'.log| == |s.log| + 1 {
        UnspentSnoc(s, s', s'.log[|s.log|]);
      }
    case DoRedeem(w, requested, now, readiness, io) =>
      RedeemEffect(cfg, s, w, requested, now, readiness, io);
      if Redeem(cfg, s, w, requested, now, readiness, io).1.Ok? {
        UnspentSnoc(s, s', Consumed(ClaimsOf(w), s.state, requested, now, EvidenceOf(s, readiness)));
      }
    case DoRestart =>
      UnspentSnoc(s, s', Cleared);
  }

  ghost predicate FreshGrants(cfg: EngineConfig, s: EngineState, ops: seq<Op>)
    decreases |ops|
  {
    ops != [] ==>
      && (ops[0].DoIssue? && ops[0].issueIo.grantId.Some? ==>
            Some(GrantIdOf(ops[0].issueIo.grantId.value)) !in IssuedIds(s.log))
      && (Apply(cfg, s, ops[0]).Some? ==> FreshGrants(cfg, Apply(cfg, s, ops[0]).value, ops[1..]))
  }

  /** Single use with any caches, ephemeral ones included, and any storage failure, torn writes
      included: fresh grant identifiers suffice, because a clearing empties the pending map. */
  lemma {:induction false} SingleUseWithFreshGrants(cfg: EngineConfig, s: EngineState, ops: seq<Op>)
    requires Core(cfg, s) && Unspent(s) && FreshGrants(cfg, s, ops) && Run(cfg, s, ops).Some?
    ensures Unspent(Run(cfg, s, ops).value)
    decreases |ops|
  {
    if ops != [] {
      UnspentStep(cfg, s, ops[0]);
      CoreStep(cfg, s, ops[0]);
      SingleUseWithFreshGrants(cfg, Apply(cfg, s, ops[0]).value, ops[1..]);
    }
  }

  // ------------------------------------------------------------------ one presentation

  /** The durable gate cache holds this nonce, in memory and in its journal for good. */
  ghost predicate GateSpent(s: EngineState, nonce: Bytes) {
    nonce in s.gateReplay.consumed && s.gateReplay.backend.Some? && Kept(s.gateReplay.backend.value, nonce)
  }

  /** The gate's part of a redemption: at most the nonce of one verified envelope is consumed. */
  lemma GateAfterRedeem(cfg: EngineConfig, s: EngineState, w: Wire, requested: byte, now: i64, readiness: Readiness, io: RedeemIo)
    ensures var s' := Redeem(cfg, s, w, requested, now, readiness, io).0;
            s'.gateReplay == if TransitionFor(s.state, requested).Some? && s.sessionId.Some?
                             then VerifyEnvelope(w, cfg.gateTrust, cfg.chaser.keyId, s.gateReplay, now, MAX_CLOCK_SKEW, io.gate).0
                             else s.gateReplay
  {
    hide VerifyEnvelope, Evaluate;
  }

  lemma VerificationKeeps(w: Wire, trust: TrustStore, recipient: Bytes, cache: Cache, now: i64, io: AppendOutcome, nonce: Bytes)
    requires cache.backend.Some? && Kept(cache.backend.value, nonce)
    ensures var after := VerifyEnvelope(w, trust, recipient, cache, now, MAX_CLOCK_SKEW, io).0;
            after.backend.Some? && Kept(after.backend.value, nonce) && cache.consumed <= after.consumed
  {
    hide CheckEnvelope, Kept;
    var checked := CheckEnvelope(w, trust, recipient, now, MAX_CLOCK_SKEW);
    if checked.Ok? {
      ConsumeKeeps(cache, checked.value.claims.nonce, io, nonce);
    }
  }

  lemma GateSpentStep(cfg: EngineConfig, s: EngineState, op: Op, nonce: Bytes)
    requires GateSpent(s, nonce) && Apply(cfg, s, op).Some?
    ensures GateSpent(Apply(cfg, s, op).value, nonce)
  {
    hide Establish, Issue, Redeem, VerifyEnvelope, Kept;
    match op
    case DoEstablish(now, scenario, io) => EstablishEffect(cfg, s, now, scenario, io);
    case DoIssue(requested, now, readiness, io) => IssueEffect(cfg, s, requested, now, readiness, io);
    case DoRedeem(w, requested, now, readiness, io) =>
      GateAfterRedeem(cfg, s, w, requested, now, readiness, io);
      VerificationKeeps(w, cfg.gateTrust, cfg.chaser.keyId, s.gateReplay, now, io.gate, nonce);
    case DoRestart => KeptIsLoaded(s.gateReplay.backend.value, nonce);
  }

  lemma {:induction false} GateSpentRun(cfg: EngineConfig, s: EngineState, ops: seq<Op>, nonce: Bytes)
    requires GateSpent(s, nonce) && Run(cfg, s, ops).Some?
    ensures GateSpent(Run(cfg, s, ops).value, nonce)
    decreases |ops|
  {
    hide GateSpent;
    if ops != [] {
      GateSpentStep(cfg, s, ops[0], nonce);
      GateSpentRun(cfg, Apply(cfg, s, ops[0]).value, ops[1..], nonce);
    }
  }

  /** The gate verifies this envelope now, and its commit of the nonce is not lost to a torn line. */
  predicate GateVerifies(cfg: EngineConfig, s: EngineState, w: Wire, now: i64, io: AppendOutcome) {
    && s.gateReplay.backend.Some?
    && VerifyEnvelope(w, cfg.gateTrust, cfg.chaser.keyId, s.gateReplay, now, MAX_CLOCK_SKEW, io).1.Ok?
    && w.CoseSign1? && w.payload.Some? && w.payload.value.Envelope?
    && !LosesCommit(s.gateReplay.backend.value, ClaimsOf(w).nonce)
  }

  /** An envelope the durable gate once verified is refused ever after, whether that presentation released
      a stage or not, over any calls, sessions, restarts and storage failures in between, at any time. */
  lemma GateTakesAnEnvelopeOnce(cfg: EngineConfig, s: EngineState, w: Wire, requested: byte, now: i64, readiness: Readiness,
                                io: RedeemIo, ops: seq<Op>, requested': byte, later: i64, readiness': Readiness, io': RedeemIo)
    requires TransitionFor(s.state, requested).Some? && s.sessionId.Some? && GateVerifies(cfg, s, w, now, io.gate)
    requires var s' := Redeem(cfg, s, w, requested, now, readiness, io).0;
             Run(cfg, s', ops).Some?
    ensures var end := Run(cfg, Redeem(cfg, s, w, requested, now, readiness, io).0, ops).value;
            && Redeem(cfg, end, w, requested', later, readiness', io').1.Err?
            && VerifyEnvelope(w, cfg.gateTrust, cfg.chaser.keyId, end.gateReplay, later, MAX_CLOCK_SKEW, io'.gate).1.Err?
  {
    hide Run, Redeem, GateVerifies;
    var s' := Redeem(cfg, s, w, requested, now, readiness, io).0;
    GateAfterRedeem(cfg, s, w, requested, now, readiness, io);
    VerifiedIsSpent(cfg, s, w, now, io.gate);
    var nonce := ClaimsOf(w).nonce;
    GateSpentRun(cfg, s', ops, nonce);
    SpentIsRefused(cfg, Run(cfg, s', ops).value, w, requested', later, readiness', io');
  }

  lemma VerifiedIsSpent(cfg: EngineConfig, s: EngineState, w: Wire, now: i64, io: AppendOutcome)
    requires GateVerifies(cfg, s, w, now, io)
    ensures w.CoseSign1? && w.payload.Some? && w.payload.value.Envelope?
    ensures var after := VerifyEnvelope(w, cfg.gateTrust, cfg.chaser.keyId, s.gateReplay, now, MAX_CLOCK_SKEW, io).0;
            ClaimsOf(w).nonce in after.consumed && after.backend.Some? && Kept(after.backend.value, ClaimsOf(w).nonce)
  {
    hide Kept, LosesCommit;
    AcceptedEnvelopes(w, cfg.gateTrust, cfg.chaser.keyId, now, MAX_CLOCK_SKEW);
    ConsumeExtends(s.gateReplay, ClaimsOf(w).nonce, io);
    CommitIsKept(s.gateReplay.backend.value, ClaimsOf(w).nonce);
  }

  /** The exact condition: after a verification, a restarted gate verifies the same envelope again exactly
      when the commit of its nonce was lost. */
  lemma GateForgets(cfg: EngineConfig, s: EngineState, w: Wire, now: i64)
    requires s.gateReplay.backend.Some?
    requires VerifyEnvelope(w, cfg.gateTrust, cfg.chaser.keyId, s.gateReplay, now, MAX_CLOCK_SKEW, Committed).1.Ok?
    ensures w.CoseSign1? && w.payload.Some? && w.payload.value.Envelope?
    ensures var after := VerifyEnvelope(w, cfg.gateTrust, cfg.chaser.keyId, s.gateReplay, now, MAX_CLOCK_SKEW, Committed).0;
            var restarted := Reloaded(after);
            && restarted.Some?
               && VerifyEnvelope(w, cfg.gateTrust, cfg.chaser.keyId, restarted.value, now, MAX_CLOCK_SKEW, Committed).1.Ok?
            <==> LosesCommit(s.gateReplay.backend.value, ClaimsOf(w).nonce)
  {
    hide LosesCommit, Reloaded;
    AcceptedEnvelopes(w, cfg.gateTrust, cfg.chaser.keyId, now, MAX_CLOCK_SKEW);
    SpentAgain(s.gateReplay, ClaimsOf(w).nonce);
  }

  lemma SpentIsRefused(cfg: EngineConfig, s: EngineState, w: Wire, requested: byte, now: i64, readiness: Readiness, io: RedeemIo)
    requires w.CoseSign1? && w.payload.Some? && w.payload.value.Envelope?
    requires ClaimsOf(w).nonce in s.gateReplay.consumed
    ensures Redeem(cfg, s, w, requested, now, readiness, io).1.Err?
    ensures VerifyEnvelope(w, cfg.gateTrust, cfg.chaser.keyId, s.gateReplay, now, MAX_CLOCK_SKEW, io.gate).1.Err?
  {
    hide Release;
  }

  // ------------------------------------------------------------------ ordered history

  /** Every issue and redemption was made from the docking state its history had released. */
  ghost predicate Paced(log: seq<Event>) {
    forall i | 0 <= i < |log| && (log[i].Issued? || log[i].Consumed?) ::
      Released(log[..i]) == Ladder(StateNumber(log[i].from))
  }

  lemma PacedSnoc(log: seq<Event>, e: Event)
    requires Paced(log)
    requires e.Issued? || e.Consumed? ==> Released(log) == Ladder(StateNumber(e.from))
    ensures Paced(log + [e])
  {
    var longer := log + [e];
    forall i | 0 <= i < |longer| && (longer[i].Issued? || longer[i].Consumed?)
      ensures Released(longer[..i]) == Ladder(StateNumber(longer[i].from))
    {
      assert longer[..i] == log[..i];
      assert log[..|log|] == log;
    }
  }

  lemma PacedStep(cfg: EngineConfig, s: EngineState, op: Op)
    requires Core(cfg, s) && Paced(s.log) && Apply(cfg, s, op).Some?
    ensures Paced(Apply(cfg, s, op).value.log)
  {
    hide Establish, Issue, Redeem, IssuedWell;
    var s' := Apply(cfg, s, op).value;
    match op
    case DoEstablish(now, scenario, io) =>
      EstablishEffect(cfg, s, now, scenario, io);
      PacedSnoc(s.log, Cleared);
      if Establish(cfg, s, now, scenario, io).1.Ok? {
        PacedSnoc(s.log + [Cleared], Opened(SessionIdOf(io.session.value)));
      }
    case DoIssue(requested, now, readiness, io) =>
      IssueEffect(cfg, s, requested, now, readiness, io);
      if |s'.log| == |s.log| + 1 {
        PacedSnoc(s.log, s'.log[|s.log|]);
      }
    case DoRedeem(w, requested, now, readiness, io) =>
      RedeemEffect(cfg, s, w, requested, now, readiness, io);
      if Redeem(cfg, s, w, requested, now, readiness, io).1.Ok? {
        PacedSnoc(s.log, Consumed(ClaimsOf(w), s.state, requested, now, EvidenceOf(s, readiness)));
      }
    case DoRestart =>
      PacedSnoc(s.log, Cleared);
  }

  lemma {:induction false} PacedRun(cfg: EngineConfig, s: EngineState, ops: seq<Op>)
    requires Core(cfg, s) && Paced(s.log) && Run(cfg, s, ops).Some?
    ensures Paced(Run(cfg, s, ops).value.log)
    decreases |ops|
  {
    if ops != [] {
      PacedStep(cfg, s, ops[0]);
      CoreStep(cfg, s, ops[0]);
      PacedRun(cfg, Apply(cfg, s, ops[0]).value, ops[1..]);
    }
  }

  /** Where in the history each released stage was redeemed. */
  lemma {:induction false} Redemptions(log: seq<Event>) returns (js: seq<int>)
    ensures |js| == |Released(log)|
    ensures forall k | 0 <= k < |js| ::
              && 0 <= js[k] < |log| && log[js[k]].Consumed? && Uncleared(log, js[k])
              && log[js[k]].requested as int == Released(log)[k]
              && |Released(log[..js[k]])| == k
  {
    if log == [] {
      js := [];
    } else {
      var front := log[..|log| - 1];
      var e := log[|log| - 1];
      assert log == front + [e];
      ReleasedSnoc(front, e);
      if e.Cleared? {
        js := [];
      } else {
        var before := Redemptions(front);
        forall k | 0 <= k < |before|
          ensures log[..before[k]] == front[..before[k]] && log[before[k]] == front[before[k]]
        {
        }
        js := if e.Consumed? then before + [|log| - 1] else before;
      }
    }
  }

  /** Between two positions without a clearing the released stages only grow. */
  lemma {:induction false} ReleasedGrows(log: seq<Event>, a: int, b: int)
    requires 0 <= a <= b <= |log|
    requires forall k | a <= k < b :: !log[k].Cleared?
    ensures |Released(log[..a])| <= |Released(log[..b])|
    decreases b - a
  {
    if a < b {
      assert log[..b] == log[..b - 1] + [log[b - 1]];
      ReleasedSnoc(log[..b - 1], log[b - 1]);
      ReleasedGrows(log, a, b - 1);
    }
  }

  /** Stage `k + 1` was issued at `i`, when `k` stages had been released, and redeemed at `j`. */
  ghost predicate Pair(cfg: EngineConfig, log: seq<Event>, i: int, j: int, k: nat) {
    && 0 <= i < j < |log| && log[i].Issued? && log[j].Consumed? && Justifies(cfg, log, i, j)
    && log[j].requested as int == k + 1
    && Uncleared(log, i)
    && |Released(log[..i])| == |Released(log[..j])| == k
  }

  lemma PacedAt(log: seq<Event>, i: int)
    requires Paced(log) && 0 <= i < |log| && (log[i].Issued? || log[i].Consumed?)
    ensures |Released(log[..i])| == StateNumber(log[i].from)
  {
  }

  lemma RedemptionHasIssue(cfg: EngineConfig, s: EngineState, j: int) returns (i: int)
    requires Traced(cfg, s) && 0 <= j < |s.log| && s.log[j].Consumed?
    ensures Justifies(cfg, s.log, i, j) && 0 <= i < j && s.log[i].Issued? && s.log[i].from == s.log[j].from
    ensures Uncleared(s.log, j) ==> Uncleared(s.log, i)
  {
    i :| Justifies(cfg, s.log, i, j);
  }

  lemma PairOf(cfg: EngineConfig, s: EngineState, j: int, k: nat) returns (i: int)
    requires Traced(cfg, s) && Paced(s.log)
    requires 0 <= j < |s.log| && s.log[j].Consumed? && Uncleared(s.log, j)
    requires s.log[j].requested as int == k + 1 && |Released(s.log[..j])| == k
    ensures Pair(cfg, s.log, i, j, k)
  {
    i := RedemptionHasIssue(cfg, s, j);
    PacedAt(s.log, i);
    PacedAt(s.log, j);
  }

  lemma RedeemedBeforeNextIssue(cfg: EngineConfig, log: seq<Event>, i: int, j: int, k: nat, i': int, j': int)
    requires Pair(cfg, log, i, j, k) && Pair(cfg, log, i', j', k + 1)
    ensures i < j < i' < j'
  {
    if i' < j {
      ReleasedGrows(log, i', j);
    }
  }

  /** An engine at stage n got there by n issue/redeem pairs, for the stages 1 to n in strict order,
      each redemption before the next issue, all since the last clearing. */
  lemma OrderedHistory(cfg: EngineConfig, s: EngineState) returns (issues: seq<int>, js: seq<int>)
    requires Core(cfg, s) && Traced(cfg, s) && Paced(s.log)
    ensures |issues| == |js| == StateNumber(s.state)
    ensures forall k | 0 <= k < |js| :: Pair(cfg, s.log, issues[k], js[k], k)
    ensures forall k | 0 < k < |js| :: js[k - 1] < issues[k]
  {
    issues, js := PairsInOrder(cfg, s);
  }

  lemma PairsInOrder(cfg: EngineConfig, s: EngineState) returns (issues: seq<int>, js: seq<int>)
    requires Traced(cfg, s) && Paced(s.log)
    requires Released(s.log) == Ladder(|Released(s.log)|)
    ensures |issues| == |js| == |Released(s.log)|
    ensures forall k | 0 <= k < |js| :: Pair(cfg, s.log, issues[k], js[k], k)
    ensures forall k | 0 < k < |js| :: js[k - 1] < issues[k]
  {
    hide Justifies, Trace, Paced;
    js := Redemptions(s.log);
    issues := [];
    while |issues| < |js|
      invariant |issues| <= |js|
      invariant forall k | 0 <= k < |issues| :: Pair(cfg, s.log, issues[k], js[k], k)
    {
      var i := PairOf(cfg, s, js[|issues|], |issues|);
      issues := issues + [i];
    }
    forall k | 0 < k < |js|
      ensures js[k - 1] < issues[k]
    {
      RedeemedBeforeNextIssue(cfg, s.log, issues[k - 1], js[k - 1], k - 1, issues[k], js[k]);
    }
  }

  /** The profile gives each stage the action of its permit. */
  ghost predicate StandardActions(cfg: EngineConfig) {
    forall state, requested: byte, now: i64, e |
      TransitionNames(state, requested).Some? && EvaluateStage(cfg, state, requested, now, e).Ok? ::
      ActionOf(cfg, EvaluateStage(cfg, state, requested, now, e).value) == ACTIONS[requested]
  }

  /** The issue at `i` was made on evidence that met the permit of stage `k + 1`. */
  ghost predicate MetPermit(log: seq<Event>, i: int, k: nat) {
    && k < 4 && 0 <= i < |log| && log[i].Issued?
    && StageEvidence(k + 1, log[i].evidence, log[i].readinessFresh)
  }

  /** Hard dock under the commercial policy: four ordered pairs, and at each of the four issues the
      evidence met that stage's permit. */
  lemma HardDockMetFourPermits(cfg: EngineConfig, s: EngineState) returns (issues: seq<int>, js: seq<int>)
    requires Core(cfg, s) && Traced(cfg, s) && Paced(s.log)
    requires cfg.policy.evaluate == Commercial(cfg.station.keyId) && StandardActions(cfg)
    requires s.state == DockingState.HardDock
    ensures |issues| == |js| == 4
    ensures 0 <= issues[0] < js[0] < issues[1] < js[1] < issues[2] < js[2] < issues[3] < js[3] < |s.log|
    ensures forall k | 0 <= k < 4 :: Pair(cfg, s.log, issues[k], js[k], k)
    ensures forall k | 0 <= k < 4 :: MetPermit(s.log, issues[k], k)
  {
    issues, js := OrderedHistory(cfg, s);
    assert Pair(cfg, s.log, issues[0], js[0], 0) && Pair(cfg, s.log, issues[1], js[1], 1);
    assert Pair(cfg, s.log, issues[2], js[2], 2) && Pair(cfg, s.log, issues[3], js[3], 3);
    forall k | 0 <= k < 4
      ensures MetPermit(s.log, issues[k], k)
    {
      PairMetPermit(cfg, s.log, issues[k], js[k], k);
    }
  }

  /** The same for a whole run of a new engine over any caches. */
  lemma EveryHardDockMetFourPermits(cfg: EngineConfig, a: Cache, b: Cache, c: Cache, d: Cache, ops: seq<Op>)
    returns (issues: seq<int>, js: seq<int>)
    requires GateTrustsStation(cfg) && HonestRun(cfg, Start(a, b, c, d), ops)
    requires cfg.policy.evaluate == Commercial(cfg.station.keyId) && StandardActions(cfg)
    requires Run(cfg, Start(a, b, c, d), ops).Some?
    requires Run(cfg, Start(a, b, c, d), ops).value.state == DockingState.HardDock
    ensures var log := Run(cfg, Start(a, b, c, d), ops).value.log;
            && |issues| == |js| == 4
            && 0 <= issues[0] < js[0] < issues[1] < js[1] < issues[2] < js[2] < issues[3] < js[3] < |log|
            && forall k | 0 <= k < 4 :: Pair(cfg, log, issues[k], js[k], k) && MetPermit(log, issues[k], k)
  {
    hide Establish, Issue, Redeem, Trace, Pair, MetPermit, Paced;
    StartsWell(cfg, a, b, c, d);
    CausalHistory(cfg, Start(a, b, c, d), ops);
    PacedRun(cfg, Start(a, b, c, d), ops);
    issues, js := HardDockMetFourPermits(cfg, Run(cfg, Start(a, b, c, d), ops).value);
  }

  lemma PairMetPermit(cfg: EngineConfig, log: seq<Event>, i: int, j: int, k: nat)
    requires k < 4 && Pair(cfg, log, i, j, k)
    requires cfg.policy.evaluate == Commercial(cfg.station.keyId) && StandardActions(cfg)
    ensures MetPermit(log, i, k)
  {
    var e := log[i];
    assert EvaluateStage(cfg, e.from, e.requested, e.now, e.evidence).Ok?;
    assert e.action == ACTIONS[k + 1];
    CommercialAllows(cfg.station.keyId, cfg.chaser.keyId, k + 1, e.evidence, e.readinessFresh);
  }

  // ------------------------------------------------------------------ the usable window

  /** When a justified redemption can have happened, given the rule its issue was decided by. */
  lemma RedeemedInWindow(cfg: EngineConfig, log: seq<Event>, i: int, j: int)
    requires 0 <= j < |log| && log[j].Consumed? && Justifies(cfg, log, i, j)
    ensures var issued, redeemed := log[i], log[j];
            var ttl := EvaluateStage(cfg, issued.from, issued.requested, issued.now, issued.evidence).value.entitlementTtl;
            && Abs(redeemed.now - issued.now) <= 30
            && redeemed.now <= ExpiryOf(issued.now, ttl)
            && redeemed.now <= issued.now + (if ttl < 30 then ttl else 30)
  {
    assert IssuedWell(cfg, log[i]);
  }

  /** The forward window of a grant issued at `issued`: thirty seconds at most however long the
      configured time to live, and none at all for one that does not fit a signed integer, except that at
      the least representable time the expiry saturates to the instant of the issue. */
  lemma UsableWindow(issued: i64, ttl: u64, now: i64)
    requires issued <= now
    ensures Abs(now - issued) <= 30 && now <= ExpiryOf(issued, ttl)
       <==> if ttl <= I64_MAX then now - issued <= (if ttl < 30 then ttl else 30) else now == issued == I64_MIN
  {
    if ttl <= I64_MAX {
      assert Wrap(ttl) == ttl;
    } else {
      assert Wrap(ttl) == ttl - U64_RANGE;
    }
  }
}
