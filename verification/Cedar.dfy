/** The facts put before the authorization policy, and the commercial docking policy itself. */
module Cedar {
  import opened Basics
  import opened Profile

  /** The context record; the ten boolean readiness checks are kept by name. */
  datatype Context = Context(
    registeredVehicle: bool, dockingCertified: bool, holderProofValid: bool,
    sessionAuthorized: bool, readinessFresh: bool,
    confirmed: set<string>, rangeMm: i64, closingRateMmps: i64)

  datatype Request = Request(principal: Bytes, action: string, resource: Bytes, context: Context)

  /** What the external evaluator answers. */
  datatype Verdict = Allow | Deny | EvaluationFailed | RequestRejected

  datatype PolicyMetadata = PolicyMetadata(bundleId: string, bundleVersion: u64, policySha256: string)

  datatype PolicyEngine = PolicyEngine(evaluate: Request -> Verdict, metadata: PolicyMetadata)

  datatype Gate = InitialClaims | StageTransition

  datatype AccessDecision = AccessDecision(gate: Gate, policy: PolicyMetadata)

  datatype PolicyError = InvalidRequest | Denied(gate: Gate) | Evaluation(gate: Gate)

  function Ceil(x: real): int {
    if x.Floor as real == x then x.Floor else x.Floor + 1
  }

  function HasProfile(credentials: seq<VerifiedCredential>, id: string): bool {
    exists c | c in credentials :: c.profileId == id
  }

  const CHECKS: set<string> := {
    "initial_hold_confirmed", "retreat_available", "relative_navigation_valid",
    "approach_corridor_clear", "closing_rate_within_limit", "alignment_within_limit",
    "capture_system_ready", "soft_capture_confirmed", "latches_ready", "relative_motion_stable"
  }

  /** A check that is absent from the evidence counts as false. */
  function ConfirmedChecks(readiness: Option<Readiness>): set<string> {
    if readiness.None? then {}
    else set name | name in readiness.value.checks && name in CHECKS && readiness.value.checks[name]
  }

  function MakeContext(credentials: seq<VerifiedCredential>, holderProofValid: bool, sessionAuthorized: bool,
                       readiness: Option<Readiness>, readinessFresh: bool): Context
  {
    Context(HasProfile(credentials, "registered-vehicle-v1"),
            HasProfile(credentials, "idss-compatible-v1"),
            holderProofValid, sessionAuthorized, readinessFresh, ConfirmedChecks(readiness),
            if readiness.None? then I64_MAX else Saturate(Ceil(readiness.value.range * 1000.0)),
            if readiness.None? then I64_MAX else Saturate(Ceil(readiness.value.closingRate * 1000.0)))
  }

  /** Deny by default: anything but an error-free Allow refuses. */
  function Authorize(engine: PolicyEngine, gate: Gate, request: Request): Result<AccessDecision, PolicyError> {
    match engine.evaluate(request)
    case RequestRejected => Err(InvalidRequest)
    case EvaluationFailed => Err(Evaluation(gate))
    case Deny => Err(Denied(gate))
    case Allow => Ok(AccessDecision(gate, engine.metadata))
  }

  function SessionRequest(vehicle: Bytes, station: Bytes, credentials: seq<VerifiedCredential>,
                          holderProofValid: bool): Request
  {
    Request(vehicle, "authorize_session", station,
            MakeContext(credentials, holderProofValid, false, None, false))
  }

  function TransitionRequest(vehicle: Bytes, station: Bytes, action: string, e: Evidence,
                             readinessFresh: bool): Request
  {
    Request(vehicle, action, station,
            MakeContext(e.credentials, e.holderProofAt.Some?, e.sessionAuthorized,
                        Some(e.readiness), readinessFresh))
  }

  /** One `permit` of the policy file: its action, the facts its `when` clause needs, its bounds. */
  datatype Permit = Permit(
    action: string, registered: bool, certified: bool, session: bool, current: bool,
    needs: set<string>, maxClosingRateMmps: Option<int>, maxRangeMm: Option<int>)

  const COMMERCIAL_POLICY: seq<Permit> := [
    Permit("authorize_session", true, true, false, false, {}, None, None),
    Permit("enter_approach", true, false, false, true,
           {"initial_hold_confirmed", "retreat_available"}, Some(600), None),
    Permit("enter_final_approach", true, true, true, true,
           {"relative_navigation_valid", "approach_corridor_clear", "closing_rate_within_limit"},
           Some(200), Some(1120)),
    Permit("engage_soft_capture", false, true, true, true,
           {"alignment_within_limit", "capture_system_ready"}, Some(100), Some(320)),
    Permit("engage_hard_dock", false, true, true, true,
           {"soft_capture_confirmed", "latches_ready", "relative_motion_stable"}, Some(50), Some(40))
  ]

  /** Every permit of the file also needs a valid holder proof and the one named station. */
  predicate Permits(permit: Permit, station: Bytes, r: Request) {
    && r.action == permit.action
    && r.resource == station
    && (permit.registered ==> r.context.registeredVehicle)
    && (permit.certified ==> r.context.dockingCertified)
    && r.context.holderProofValid
    && (permit.session ==> r.context.sessionAuthorized)
    && (permit.current ==> r.context.readinessFresh)
    && permit.needs <= r.context.confirmed
    && (permit.maxClosingRateMmps.Some? ==> r.context.closingRateMmps <= permit.maxClosingRateMmps.value)
    && (permit.maxRangeMm.Some? ==> r.context.rangeMm <= permit.maxRangeMm.value)
  }

  function Commercial(station: Bytes): Request -> Verdict {
    (r: Request) =>
      if exists i | 0 <= i < |COMMERCIAL_POLICY| :: Permits(COMMERCIAL_POLICY[i], station, r)
      then Allow else Deny
  }

  /** A bound in whole millimetres on the rounded-up value is the same bound in metres. */
  lemma MillimetreBound(x: real, limit: int)
    requires I64_MIN <= limit < I64_MAX
    ensures Saturate(Ceil(x * 1000.0)) <= limit <==> x <= limit as real / 1000.0
  {
    var y := x * 1000.0;
    assert y <= limit as real <==> Ceil(y) <= limit;
  }

  predicate Confirmed(e: Evidence, check: string) {
    check in e.readiness.checks && e.readiness.checks[check]
  }

  /** What an allowed stage action says about the evidence itself, stage by stage, in metres and metres per
      second. */
  ghost predicate StageEvidence(stage: nat, e: Evidence, current: bool)
    requires 1 <= stage <= 4
  {
    var registered := HasProfile(e.credentials, "registered-vehicle-v1");
    var certified := HasProfile(e.credentials, "idss-compatible-v1");
    && current && e.holderProofAt.Some?
    && match stage
       case 1 =>
         && registered && Confirmed(e, "initial_hold_confirmed") && Confirmed(e, "retreat_available")
         && e.readiness.closingRate <= 0.6
       case 2 =>
         && registered && certified && e.sessionAuthorized
         && Confirmed(e, "relative_navigation_valid") && Confirmed(e, "approach_corridor_clear")
         && Confirmed(e, "closing_rate_within_limit")
         && e.readiness.closingRate <= 0.2 && e.readiness.range <= 1.12
       case 3 =>
         && certified && e.sessionAuthorized
         && Confirmed(e, "alignment_within_limit") && Confirmed(e, "capture_system_ready")
         && e.readiness.closingRate <= 0.1 && e.readiness.range <= 0.32
       case _ =>
         && certified && e.sessionAuthorized
         && Confirmed(e, "soft_capture_confirmed") && Confirmed(e, "latches_ready") && Confirmed(e, "relative_motion_stable")
         && e.readiness.closingRate <= 0.05 && e.readiness.range <= 0.04
  }

  const ACTIONS: seq<string> :=
    ["authorize_session", "enter_approach", "enter_final_approach", "engage_soft_capture", "engage_hard_dock"]

  lemma ActionsDiffer(i: nat, j: nat)
    requires i < 5 && j < 5 && ACTIONS[i] == ACTIONS[j]
    ensures i == j
  {
    assert |ACTIONS[0]| == 17 && |ACTIONS[1]| == 14 && |ACTIONS[2]| == 20;
    assert |ACTIONS[3]| == 19 && |ACTIONS[4]| == 16;
  }

  /** The policy allows a stage action exactly when the evidence meets that stage's permit. */
  lemma CommercialAllows(station: Bytes, vehicle: Bytes, stage: nat, e: Evidence, current: bool)
    requires 1 <= stage <= 4
    ensures Commercial(station)(TransitionRequest(vehicle, station, ACTIONS[stage], e, current)) == Allow
       <==> StageEvidence(stage, e, current)
  {
    var r := TransitionRequest(vehicle, station, ACTIONS[stage], e, current);
    forall i | 0 <= i < 5 && Permits(COMMERCIAL_POLICY[i], station, r)
      ensures i == stage
    {
      assert COMMERCIAL_POLICY[i].action == ACTIONS[i];
      ActionsDiffer(i, stage);
    }
    var permit := COMMERCIAL_POLICY[stage];
    assert permit.action == ACTIONS[stage];
    PermitInPlainWords(station, vehicle, stage, e, current);
  }

  lemma PermitInPlainWords(station: Bytes, vehicle: Bytes, stage: nat, e: Evidence, current: bool)
    requires 1 <= stage <= 4
    ensures Permits(COMMERCIAL_POLICY[stage], station, TransitionRequest(vehicle, station, ACTIONS[stage], e, current))
       <==> StageEvidence(stage, e, current)
  {
    hide HasProfile, Ceil, Saturate;
    var permit := COMMERCIAL_POLICY[stage];
    assert permit.action == ACTIONS[stage] && permit.needs <= CHECKS;
    MillimetreBound(e.readiness.closingRate, permit.maxClosingRateMmps.value);
    if stage > 1 {
      MillimetreBound(e.readiness.range, permit.maxRangeMm.value);
    }
    assert permit.needs <= ConfirmedChecks(Some(e.readiness)) <==> forall name | name in permit.needs :: Confirmed(e, name);
    NeedsByName(stage, e);
  }

  lemma NeedsByName(stage: nat, e: Evidence)
    requires 1 <= stage <= 4
    ensures (forall name | name in COMMERCIAL_POLICY[stage].needs :: Confirmed(e, name))
       <==> match stage
            case 1 => Confirmed(e, "initial_hold_confirmed") && Confirmed(e, "retreat_available")
            case 2 =>
              && Confirmed(e, "relative_navigation_valid") && Confirmed(e, "approach_corridor_clear")
              && Confirmed(e, "closing_rate_within_limit")
            case 3 => Confirmed(e, "alignment_within_limit") && Confirmed(e, "capture_system_ready")
            case _ =>
              && Confirmed(e, "soft_capture_confirmed") && Confirmed(e, "latches_ready")
              && Confirmed(e, "relative_motion_stable")
  {
    hide Confirmed;
  }


  /** The policy allows a session exactly when both credentials are held, the holder is proven and the
      station is the one it names. */
  lemma CommercialAllowsSessions(named: Bytes, station: Bytes, vehicle: Bytes, credentials: seq<VerifiedCredential>, proven: bool)
    ensures Commercial(named)(SessionRequest(vehicle, station, credentials, proven)) == Allow
       <==> && station == named && proven
            && HasProfile(credentials, "registered-vehicle-v1") && HasProfile(credentials, "idss-compatible-v1")
  {
    var r := SessionRequest(vehicle, station, credentials, proven);
    assert COMMERCIAL_POLICY[0].action == ACTIONS[0] == r.action;
    forall i | 0 <= i < 5 && Permits(COMMERCIAL_POLICY[i], named, r)
      ensures i == 0
    {
      assert COMMERCIAL_POLICY[i].action == ACTIONS[i];
      ActionsDiffer(i, 0);
    }
    assert COMMERCIAL_POLICY[0].needs == {};
  }
}
