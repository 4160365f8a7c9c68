/** The shipped deployment: the repository's protocol profile under the commercial docking policy. */
module Deployment {
  import opened Basics
  import opened Journal
  import opened Replay
  import opened Profile
  import opened Cedar
  import opened StateMachine
  import opened Engine
  import opened EngineSteps
  import opened EngineRuns
  import opened EngineGuarantees
  import opened EngineLiveness

  const STAGES: seq<string> := ["hold", "approach", "final_approach", "soft_capture", "hard_dock"]

  /** 2026-01-01T00:00:00Z and 2027-01-01T00:00:00Z. */
  const VALID_FROM: i64 := 1_767_225_600
  const VALID_UNTIL: i64 := 1_798_761_600

  const PROFILE := ProtocolProfile(
    "access-docking-protocol-v1", 1, Some(VALID_FROM), Some(VALID_UNTIL), "waystation-1-trust", 42, 604_800,
    [
      CredentialProfile("registered-vehicle-v1", "VehicleRegistrationCredential", "space:vehicle-registration:v1",
                        ["recognized-registrars"], Some(604_800)),
      CredentialProfile("idss-compatible-v1", "DockingCertificationCredential", "space:docking-certification:v1",
                        ["recognized-docking-authorities"], Some(86_400))
    ],
    [
      StageRule("enter-approach", "enter_approach", "hold", "approach", true, "pending", Some(60), 1000, 60),
      StageRule("enter-final-approach", "enter_final_approach", "approach", "final_approach", true, "authorized",
                Some(30), 500, 30),
      StageRule("engage-soft-capture", "engage_soft_capture", "final_approach", "soft_capture", true, "authorized",
                Some(30), 250, 15),
      StageRule("engage-hard-dock", "engage_hard_dock", "soft_capture", "hard_dock", true, "authorized",
                Some(15), 100, 10)
    ])

  /** Per stage: the oldest readiness in milliseconds, and the seconds a grant stays usable. */
  const READINESS_AGE_MS: seq<int> := [1000, 500, 250, 100]
  const USABLE: seq<int> := [30, 30, 15, 10]

  predicate CurrentAt(now: i64, bundle: TrustBundle) {
    && VALID_FROM <= now <= VALID_UNTIL
    && bundle.id == "waystation-1-trust" && 42 <= bundle.version && now - bundle.issuedAt <= 604_800
  }

  predicate Shipped(cfg: EngineConfig) {
    cfg.profile == PROFILE
  }

  lemma ShippedRule(k: nat)
    requires k < 4
    ensures TransitionNames(StateAt(k), k + 1) == Some((STAGES[k], STAGES[k + 1]))
    ensures FindRule(PROFILE.stageRules, STAGES[k], STAGES[k + 1]) == Some(PROFILE.stageRules[k])
  {
    hide PROFILE, FindRule;
    StagesDiffer(k);
    RuleStages();
    FirstRuleDecides(PROFILE.stageRules, k);
  }

  lemma RuleStages()
    ensures |PROFILE.stageRules| == 4
    ensures forall i | 0 <= i < 4 ::
              PROFILE.stageRules[i].fromStage == STAGES[i] && PROFILE.stageRules[i].toStage == STAGES[i + 1]
  {
  }

  lemma StagesDiffer(k: nat)
    requires k < 5
    ensures forall i | 0 <= i < k :: STAGES[i] != STAGES[k]
  {
    assert |STAGES[0]| == 4 && |STAGES[1]| == 8 && |STAGES[2]| == 14 && |STAGES[3]| == 12 && |STAGES[4]| == 9;
  }

  lemma ShippedName(k: nat)
    requires k < 4
    ensures FindRuleById(PROFILE.stageRules, PROFILE.stageRules[k].ruleId) == Some(PROFILE.stageRules[k])
  {
    var r := PROFILE.stageRules;
    assert |r[0].ruleId| == 14 && |r[1].ruleId| == 20 && |r[2].ruleId| == 19 && |r[3].ruleId| == 16;
    FirstNameDecides(r, k);
  }

  lemma ShippedFoundation(now: i64, bundle: TrustBundle)
    ensures ValidateFoundation(PROFILE, now, bundle).Ok? <==> CurrentAt(now, bundle)
  {
  }

  lemma ShippedCredentials(established: i64, now: i64)
    requires VALID_FROM <= now <= VALID_UNTIL
    ensures ValidateCredentials(PROFILE, NominalCredentials(established), now).Ok? <==> now - established <= 86_400
  {
    var c := NominalCredentials(established);
    var first, second := PROFILE.credentialProfiles[0], PROFILE.credentialProfiles[1];
    assert |first.profileId| == 21 && |second.profileId| == 18;
    assert PROFILE.credentialProfiles[1..][0] == second;
    assert FindCredentialProfile(PROFILE.credentialProfiles, c[0].profileId) == Some(first);
    assert FindCredentialProfile(PROFILE.credentialProfiles[1..], c[1].profileId) == Some(second);
    assert first.issuerGroups[0] == "recognized-registrars" && second.issuerGroups[0] == "recognized-docking-authorities";
    assert CredentialAccepted(PROFILE, c[0], now) <==> now - established <= 604_800;
    assert CredentialAccepted(PROFILE, c[1], now) <==> now - established <= 86_400;
  }

  /** What each stage of the shipped profile accepts, in plain numbers. */
  ghost predicate Accepts(k: nat, now: i64, bundle: TrustBundle, established: i64, e: Evidence)
    requires k < 4
  {
    && CurrentAt(now, bundle) && now - established <= 86_400
    && e.holderProofAt.Some? && now - e.holderProofAt.value <= [60, 30, 30, 15][k]
    && (k > 0 ==> e.sessionAuthorized)
    && now * 1000 - e.readiness.observedAtMs <= READINESS_AGE_MS[k]
  }

  lemma ShippedEvaluation(cfg: EngineConfig, k: nat, now: i64, established: i64, e: Evidence)
    requires Shipped(cfg) && k < 4 && e.credentials == NominalCredentials(established)
    ensures TransitionNames(StateAt(k), k + 1).Some?
    ensures var r := EvaluateStage(cfg, StateAt(k), k + 1, now, e);
            var rule := PROFILE.stageRules[k];
            && (r.Ok? <==> Accepts(k, now, cfg.bundle, established, e))
            && (r.Ok? ==> r.value == RuleDecision(PROFILE.profileId, 1, rule.ruleId, rule.entitlementTtl))
  {
    hide FindRule, ValidateFoundation, ValidateCredentials, NominalCredentials;
    ShippedRule(k);
    ShippedFoundation(now, cfg.bundle);
    if CurrentAt(now, cfg.bundle) {
      ShippedCredentials(established, now);
    }
    StatusesDiffer();
  }

  lemma StatusesDiffer()
    ensures "pending" != "authorized"
  {
    assert |"pending"| == 7 && |"authorized"| == 10;
  }

  lemma ShippedAction(cfg: EngineConfig, k: nat, rule: RuleDecision)
    requires Shipped(cfg) && k < 4 && rule.ruleId == PROFILE.stageRules[k].ruleId
    ensures ActionOf(cfg, rule) == ACTIONS[k + 1]
    ensures forall now: i64, readiness ::
              FreshFor(cfg, rule, now, readiness) <==> ReadinessAge(now, readiness) <= READINESS_AGE_MS[k]
  {
    hide FindRuleById;
    ShippedName(k);
  }

  lemma DecidedRule(cfg: EngineConfig, k: nat, now: i64, e: Evidence)
    requires Shipped(cfg) && k < 4
    ensures TransitionNames(StateAt(k), k + 1).Some?
    ensures var r := EvaluateStage(cfg, StateAt(k), k + 1, now, e);
            r.Ok? ==> r.value.ruleId == PROFILE.stageRules[k].ruleId
  {
    hide FindRule, ValidateFoundation, ValidateCredentials, PROFILE;
    ShippedRule(k);
  }

  /** The shipped profile gives each stage the action of its permit. */
  lemma ShippedActions(cfg: EngineConfig)
    requires Shipped(cfg)
    ensures StandardActions(cfg)
  {
    hide EvaluateStage, ActionOf;
    forall state, requested: byte, now: i64, e |
      TransitionNames(state, requested).Some? && EvaluateStage(cfg, state, requested, now, e).Ok?
      ensures ActionOf(cfg, EvaluateStage(cfg, state, requested, now, e).value) == ACTIONS[requested]
    {
      var k := requested - 1;
      SameStages(state, requested);
      NumberDetermines(state, k);
      DecidedRule(cfg, k, now, e);
      ShippedAction(cfg, k, EvaluateStage(cfg, state, requested, now, e).value);
    }
  }

  /** A round at stage `k` in plain numbers: current profile, trust bundle and credential status at
      both ends, presented in time, fresh readiness both times, evidence that meets the permit. */
  ghost predicate Good(cfg: EngineConfig, established: i64, k: nat, round: Round)
    requires k < 4
  {
    && IssueWorks(round.io) && round.redeemIo == RedeemIo(Committed, Committed)
    && CurrentAt(round.asked, cfg.bundle) && CurrentAt(round.presented, cfg.bundle)
    && round.presented - established <= 86_400
    && 0 <= round.presented - round.asked <= USABLE[k]
    && round.asked * 1000 - round.readiness.observedAtMs <= READINESS_AGE_MS[k]
    && round.presented * 1000 - round.laterReadiness.observedAtMs <= READINESS_AGE_MS[k]
    && StageEvidence(k + 1, EvidenceAt(established, round.asked, round.readiness), true)
  }

  lemma ReadinessAgeIsExact(now: i64, readiness: Readiness, limit: i64)
    requires VALID_FROM <= now <= VALID_UNTIL && limit < I64_MAX
    ensures ReadinessAge(now, readiness) <= limit <==> now * 1000 - readiness.observedAtMs <= limit
  {
  }

  /** In the shipped deployment the rounds the engine must grant and release are exactly these. */
  lemma GoodIsAdmissible(cfg: EngineConfig, established: i64, k: nat, round: Round)
    requires Shipped(cfg) && cfg.policy.evaluate == Commercial(cfg.station.keyId) && k < 4
    ensures Admissible(cfg, established, StateAt(k), round) <==> Good(cfg, established, k, round)
  {
    hide ValidateFoundation, ValidateCredentials, NominalCredentials, EvaluateStage, FreshFor, ActionOf, Commercial,
         TransitionRequest, StageEvidence, ReadinessAge, FindRule;
    var e := EvidenceAt(established, round.asked, round.readiness);
    ShippedEvaluation(cfg, k, round.asked, established, e);
    ShippedRule(k);
    var rule := EvaluateStage(cfg, StateAt(k), k + 1, round.asked, e);
    if rule.Ok? {
      ShippedAction(cfg, k, rule.value);
      ReadinessAgeIsExact(round.asked, round.readiness, READINESS_AGE_MS[k]);
      CommercialAllows(cfg.station.keyId, cfg.chaser.keyId, k + 1, e, true);
    }
    ShippedFoundation(round.presented, cfg.bundle);
    if CurrentAt(round.presented, cfg.bundle) {
      ShippedCredentials(established, round.presented);
      ReadinessAgeIsExact(round.presented, round.laterReadiness, READINESS_AGE_MS[k]);
    }
  }

  /** Good rounds from stage `k` on, whose draws are new each time. */
  ghost predicate GoodPlan(cfg: EngineConfig, established: i64, k: nat, spent: Spent, rounds: seq<Round>)
    decreases |rounds|
  {
    rounds != [] ==>
      && k < 4 && Good(cfg, established, k, rounds[0])
      && Unused(spent, rounds[0].io)
      && GoodPlan(cfg, established, k + 1, SpendRound(spent, rounds[0].io), rounds[1..])
  }

  lemma {:induction false} GoodPlanIsPlan(cfg: EngineConfig, established: i64, k: nat, spent: Spent, rounds: seq<Round>)
    requires Shipped(cfg) && cfg.policy.evaluate == Commercial(cfg.station.keyId)
    requires GoodPlan(cfg, established, k, spent, rounds)
    ensures Plan(cfg, established, k, spent, rounds)
    decreases |rounds|
  {
    hide Good, Admissible;
    if rounds != [] {
      GoodIsAdmissible(cfg, established, k, rounds[0]);
      GoodPlanIsPlan(cfg, established, k + 1, SpendRound(spent, rounds[0].io), rounds[1..]);
    }
  }

  lemma SessionIsAdmitted(cfg: EngineConfig, now: i64)
    requires Shipped(cfg) && cfg.policy.evaluate == Commercial(cfg.station.keyId)
    ensures SessionAdmissible(cfg, now) <==> CurrentAt(now, cfg.bundle)
  {
    ShippedFoundation(now, cfg.bundle);
    if CurrentAt(now, cfg.bundle) {
      ShippedCredentials(now, now);
      CommercialAllowsSession(cfg.station.keyId, cfg.chaser.keyId, now);
    }
  }

  lemma CommercialAllowsSession(station: Bytes, vehicle: Bytes, now: i64)
    ensures Commercial(station)(SessionRequest(vehicle, station, NominalCredentials(now), true)) == Allow
  {
    var c := NominalCredentials(now);
    assert c[0] in c && c[1] in c;
    assert Permits(COMMERCIAL_POLICY[0], station, SessionRequest(vehicle, station, c, true));
  }

  /** The shipped deployment docks: matched trust stores, working parts, new draws, a current trust
      bundle and four good rounds take any engine, whatever it was doing, to hard dock. */
  lemma ShippedSystemDocks(cfg: EngineConfig, s: EngineState, now: i64, scenario: Scenario, io: EstablishIo, rounds: seq<Round>)
    requires Shipped(cfg) && cfg.policy.evaluate == Commercial(cfg.station.keyId)
    requires MatchedTrust(cfg) && EstablishWorks(io) && scenario != Scenario.ExpiredCredential && CurrentAt(now, cfg.bundle)
    requires Unreplayed(Clear(s), io)
    requires |rounds| == 4
    requires var s0 := Clear(s);
             GoodPlan(cfg, now, 0, Spent(s0.stationReplay.consumed + {io.request.nonce.value} + {io.proof.nonce.value},
                                         s0.chaserReplay.consumed + {io.offer.nonce.value},
                                         s0.gateReplay.consumed, s0.consumedGrants.consumed), rounds)
    ensures Establish(cfg, s, now, scenario, io).1.Ok?
    ensures PlayAll(cfg, Establish(cfg, s, now, scenario, io).0, rounds).state == DockingState.HardDock
  {
    hide Establish, Plan, GoodPlan, PlayAll, SessionAdmissible;
    var s0 := Clear(s);
    SessionIsAdmitted(cfg, now);
    GoodPlanIsPlan(cfg, now, 0, Spent(s0.stationReplay.consumed + {io.request.nonce.value} + {io.proof.nonce.value},
                                      s0.chaserReplay.consumed + {io.offer.nonce.value},
                                      s0.gateReplay.consumed, s0.consumedGrants.consumed), rounds);
    FourRoundsReachHardDock(cfg, s, now, scenario, io, rounds);
  }

  // ------------------------------------------------------------------ a nominal mission

  function Draw(n: byte): Nonce {
    seq(32, _ => n)
  }

  function NominalLink(n: byte): LinkIo {
    LinkIo(Some(Draw(n)), true, Committed)
  }

  /** Everything confirmed, nothing moving, seen at `now`. */
  function NominalReadiness(now: i64): Readiness {
    Readiness(Saturate(now * 1000), 0.0, 0.0, map name | name in CHECKS :: true)
  }

  function NominalRound(now: i64, n: byte): Round {
    Round(now, NominalReadiness(now),
          IssueIo(Some(Draw(n)), NominalLink(n), NominalLink(n), Some(Draw(n)), Some(Draw(n)), true),
          now, NominalReadiness(now), RedeemIo(Committed, Committed))
  }

  lemma NominalIsGood(cfg: EngineConfig, now: i64, k: nat, n: byte)
    requires k < 4 && CurrentAt(now, cfg.bundle)
    ensures Good(cfg, now, k, NominalRound(now, n))
  {
    var c := NominalCredentials(now);
    assert c[0] in c && c[1] in c;
    assert forall name | name in COMMERCIAL_POLICY[k + 1].needs :: name in CHECKS;
  }

  /** Only draws below `n` have been used. */
  ghost predicate UsedBelow(spent: Spent, n: int) {
    && (forall v | v in spent.station || v in spent.chaser || v in spent.gate :: exists j: byte :: j < n && v == Draw(j))
    && (forall v | v in spent.grants :: exists j: byte :: j < n && v == GrantIdOf(Draw(j)))
  }

  lemma DrawsDiffer(i: byte, j: byte)
    requires i != j
    ensures Draw(i) != Draw(j) && GrantIdOf(Draw(i)) != GrantIdOf(Draw(j))
  {
    assert Draw(i)[0] == i && Draw(j)[0] == j;
    if GrantIdOf(Draw(i)) == GrantIdOf(Draw(j)) {
      assert HexEncode(Draw(i)) == GrantIdOf(Draw(i))[6..] == GrantIdOf(Draw(j))[6..] == HexEncode(Draw(j));
      HexInjective(Draw(i), Draw(j));
    }
  }

  lemma NominalIsUnused(now: i64, n: byte, spent: Spent)
    requires UsedBelow(spent, n)
    ensures Unused(spent, NominalRound(now, n).io)
    ensures UsedBelow(SpendRound(spent, NominalRound(now, n).io), n + 1)
  {
    hide GrantIdOf;
    forall j: byte | j < n
      ensures Draw(j) != Draw(n) && GrantIdOf(Draw(j)) != GrantIdOf(Draw(n))
    {
      DrawsDiffer(j, n);
    }
  }

  function NominalRounds(now: i64, k: nat, n: byte): seq<Round>
    requires k <= 4 && n + 4 - k < 256
    decreases 4 - k
  {
    if k == 4 then [] else [NominalRound(now, n)] + NominalRounds(now, k + 1, n + 1)
  }

  lemma {:induction false} NominalRoundsAreGood(cfg: EngineConfig, now: i64, k: nat, n: byte, spent: Spent)
    requires k <= 4 && n + 4 - k < 256 && CurrentAt(now, cfg.bundle) && UsedBelow(spent, n)
    ensures |NominalRounds(now, k, n)| == 4 - k
    ensures GoodPlan(cfg, now, k, spent, NominalRounds(now, k, n))
    decreases 4 - k
  {
    hide Good, Unused, UsedBelow, SpendRound, NominalRound;
    if k < 4 {
      var rounds := NominalRounds(now, k, n);
      NominalIsGood(cfg, now, k, n);
      NominalIsUnused(now, n, spent);
      NominalRoundsAreGood(cfg, now, k + 1, n + 1, SpendRound(spent, NominalRound(now, n).io));
      assert rounds[0] == NominalRound(now, n) && rounds[1..] == NominalRounds(now, k + 1, n + 1);
    }
  }

  const NOMINAL_OPENING := EstablishIo(Some(Draw(0)), NominalLink(0), Some(Draw(0)), NominalLink(0), true, true, NominalLink(1))

  lemma OpeningWorks()
    ensures EstablishWorks(NOMINAL_OPENING)
    ensures NOMINAL_OPENING.request.nonce == NOMINAL_OPENING.offer.nonce == Some(Draw(0))
    ensures NOMINAL_OPENING.proof.nonce == Some(Draw(1))
  {
    DrawsDiffer(0, 1);
  }

  /** There is such a mission: at any instant the shipped profile and its trust bundle are current, a new
      engine with matched trust stores and everything confirmed reaches hard dock. */
  lemma NominalMission(cfg: EngineConfig, now: i64)
    requires Shipped(cfg) && cfg.policy.evaluate == Commercial(cfg.station.keyId) && MatchedTrust(cfg) && CurrentAt(now, cfg.bundle)
    ensures var s := Start(EPHEMERAL, EPHEMERAL, EPHEMERAL, EPHEMERAL);
            PlayAll(cfg, Establish(cfg, s, now, Nominal, NOMINAL_OPENING).0, NominalRounds(now, 0, 2)).state == DockingState.HardDock
  {
    hide Establish, PlayAll, GoodPlan, Commercial, NominalRounds, Draw, NOMINAL_OPENING, EstablishWorks, MatchedTrust, CurrentAt;
    var s := Start(EPHEMERAL, EPHEMERAL, EPHEMERAL, EPHEMERAL);
    OpeningWorks();
    var spent := Spent({} + {Draw(0)} + {Draw(1)}, {} + {Draw(0)}, {}, {});
    NominalRoundsAreGood(cfg, now, 0, 2, spent);
    ShippedSystemDocks(cfg, s, now, Nominal, NOMINAL_OPENING, NominalRounds(now, 0, 2));
  }

  /** Hard dock in the shipped deployment: every run of a new engine that reaches it went through four
      ordered pairs, each issue on evidence that met its permit. */
  lemma ShippedHardDockMetFourPermits(cfg: EngineConfig, a: Cache, b: Cache, c: Cache, d: Cache, ops: seq<Op>)
    returns (issues: seq<int>, js: seq<int>)
    requires Shipped(cfg) && cfg.policy.evaluate == Commercial(cfg.station.keyId)
    requires GateTrustsStation(cfg) && HonestRun(cfg, Start(a, b, c, d), ops)
    requires Run(cfg, Start(a, b, c, d), ops).Some?
    requires Run(cfg, Start(a, b, c, d), ops).value.state == DockingState.HardDock
    ensures var log := Run(cfg, Start(a, b, c, d), ops).value.log;
            && |issues| == |js| == 4
            && 0 <= issues[0] < js[0] < issues[1] < js[1] < issues[2] < js[2] < issues[3] < js[3] < |log|
            && forall k | 0 <= k < 4 :: Pair(cfg, log, issues[k], js[k], k) && MetPermit(log, issues[k], k)
  {
    hide PROFILE, StandardActions, Commercial, Run, HonestRun, GateTrustsStation, Pair, MetPermit;
    ShippedActions(cfg);
    issues, js := EveryHardDockMetFourPermits(cfg, a, b, c, d, ops);
  }
}
