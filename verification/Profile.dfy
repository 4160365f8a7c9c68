/** Protocol profile evaluation over saturating 64-bit time arithmetic. */
module Profile {
  import opened Basics

  datatype CredentialProfile = CredentialProfile(
    profileId: string, credentialType: string, schemaId: string,
    issuerGroups: seq<string>, maximumStatusAge: Option<i64>)

  datatype StageRule = StageRule(
    ruleId: string, action: string, fromStage: string, toStage: string,
    holderProofRequired: bool, requiredSessionStatus: string, maximumProofAge: Option<i64>,
    readinessMaximumAgeMs: i64, entitlementTtl: u64)

  /** The validity timestamps are already parsed; None is an unparsable one. */
  datatype ProtocolProfile = ProtocolProfile(
    profileId: string, profileVersion: u64,
    validFrom: Option<i64>, validUntil: Option<i64>,
    bundleId: string, bundleMinimumVersion: u64, bundleMaximumAge: i64,
    credentialProfiles: seq<CredentialProfile>, stageRules: seq<StageRule>)

  datatype TrustBundle = TrustBundle(id: string, version: u64, issuedAt: i64)

  datatype Readiness = Readiness(
    observedAtMs: i64, range: real, closingRate: real, checks: map<string, bool>)

  datatype VerifiedCredential = VerifiedCredential(
    profileId: string, credentialType: string, schemaId: string, issuerGroup: string,
    statusCheckedAt: i64)

  /** Everything an evaluation is about, except the profile and the clock. */
  datatype Evidence = Evidence(
    credentials: seq<VerifiedCredential>, holderProofAt: Option<i64>, sessionAuthorized: bool,
    readiness: Readiness)

  datatype RuleDecision = RuleDecision(
    profileId: string, profileVersion: u64, ruleId: string, entitlementTtl: u64)

  datatype ProfileError =
    | ProfileExpired
    | TrustBundleMismatch
    | NoMatchingRule
    | CredentialRequired
    | HolderProofRequired
    | SessionRequired
    | ReadinessStale
    | InvalidTimestamp

  /** `stage_rules.iter().find` by the stage pair. */
  function FindRule(rules: seq<StageRule>, from: string, to: string): (r: Option<StageRule>)
    ensures r.Some? ==> r.value in rules && r.value.fromStage == from && r.value.toStage == to
    ensures r.None? ==> forall rule | rule in rules :: !(rule.fromStage == from && rule.toStage == to)
  {
    if rules == [] then None
    else if rules[0].fromStage == from && rules[0].toStage == to then Some(rules[0])
    else FindRule(rules[1..], from, to)
  }

  /** `stage_rules.iter().find` by identifier: the first rule of that name, whatever its stages. */
  function FindRuleById(rules: seq<StageRule>, ruleId: string): (r: Option<StageRule>)
    ensures r.Some? ==> r.value in rules && r.value.ruleId == ruleId
    ensures r.None? ==> forall rule | rule in rules :: rule.ruleId != ruleId
  {
    if rules == [] then None
    else if rules[0].ruleId == ruleId then Some(rules[0])
    else FindRuleById(rules[1..], ruleId)
  }

  function FindCredentialProfile(profiles: seq<CredentialProfile>, id: string)
    : (r: Option<CredentialProfile>)
    ensures r.Some? ==> r.value in profiles && r.value.profileId == id
    ensures r.None? ==> forall profile | profile in profiles :: profile.profileId != id
  {
    if profiles == [] then None
    else if profiles[0].profileId == id then Some(profiles[0])
    else FindCredentialProfile(profiles[1..], id)
  }

  /** Of several rules for a stage pair the first decides. */
  lemma {:induction false} FirstRuleDecides(rules: seq<StageRule>, k: nat)
    requires k < |rules|
    requires forall i | 0 <= i < k :: !(rules[i].fromStage == rules[k].fromStage && rules[i].toStage == rules[k].toStage)
    ensures FindRule(rules, rules[k].fromStage, rules[k].toStage) == Some(rules[k])
  {
    if k > 0 {
      FirstRuleDecides(rules[1..], k - 1);
    }
  }

  /** Of several rules of one name the first gives action and age limit. */
  lemma {:induction false} FirstNameDecides(rules: seq<StageRule>, k: nat)
    requires k < |rules|
    requires forall i | 0 <= i < k :: rules[i].ruleId != rules[k].ruleId
    ensures FindRuleById(rules, rules[k].ruleId) == Some(rules[k])
  {
    if k > 0 {
      FirstNameDecides(rules[1..], k - 1);
    }
  }

  lemma {:induction false} FirstProfileDecides(profiles: seq<CredentialProfile>, k: nat)
    requires k < |profiles|
    requires forall i | 0 <= i < k :: profiles[i].profileId != profiles[k].profileId
    ensures FindCredentialProfile(profiles, profiles[k].profileId) == Some(profiles[k])
  {
    if k > 0 {
      FirstProfileDecides(profiles[1..], k - 1);
    }
  }

  function ValidateFoundation(p: ProtocolProfile, now: i64, bundle: TrustBundle)
    : Result<(), ProfileError>
  {
    if p.validFrom.None? || p.validUntil.None? then Err(InvalidTimestamp)
    else if now < p.validFrom.value || now > p.validUntil.value then Err(ProfileExpired)
    else if
      || p.bundleId != bundle.id
      || bundle.version < p.bundleMinimumVersion
      || SaturatingSub(now, bundle.issuedAt) > p.bundleMaximumAge
    then Err(TrustBundleMismatch)
    else Ok(())
  }

  predicate CredentialAccepted(p: ProtocolProfile, c: VerifiedCredential, now: i64) {
    var profile := FindCredentialProfile(p.credentialProfiles, c.profileId);
    && profile.Some?
    && c.credentialType == profile.value.credentialType
    && c.schemaId == profile.value.schemaId
    && c.issuerGroup in profile.value.issuerGroups
    && (profile.value.maximumStatusAge.Some? ==>
          SaturatingSub(now, c.statusCheckedAt) <= profile.value.maximumStatusAge.value)
  }

  function ValidateCredentials(p: ProtocolProfile, credentials: seq<VerifiedCredential>, now: i64)
    : (r: Result<(), ProfileError>)
    ensures r.Ok? <==> forall c | c in credentials :: CredentialAccepted(p, c, now)
    ensures r.Err? ==> r.error == CredentialRequired
  {
    if credentials == [] then Ok(())
    else if !CredentialAccepted(p, credentials[0], now) then Err(CredentialRequired)
    else ValidateCredentials(p, credentials[1..], now)
  }

  function ReadinessAge(now: i64, readiness: Readiness): i64 {
    SaturatingSub(SaturatingMul(now, 1000), readiness.observedAtMs)
  }

  function MaximumProofAge(rule: StageRule): i64 {
    if rule.maximumProofAge.Some? then rule.maximumProofAge.value else 0
  }

  function Evaluate(p: ProtocolProfile, from: string, to: string, now: i64, bundle: TrustBundle, e: Evidence)
    : Result<RuleDecision, ProfileError>
  {
    var foundation := ValidateFoundation(p, now, bundle);
    if foundation.Err? then Err(foundation.error) else
    var credentials := ValidateCredentials(p, e.credentials, now);
    if credentials.Err? then Err(credentials.error) else
    var found := FindRule(p.stageRules, from, to);
    if found.None? then Err(NoMatchingRule) else
    var rule := found.value;
    if rule.holderProofRequired
       && (e.holderProofAt.None?
           || SaturatingSub(now, e.holderProofAt.value) > MaximumProofAge(rule))
    then Err(HolderProofRequired)
    else if rule.requiredSessionStatus == "authorized" && !e.sessionAuthorized
    then Err(SessionRequired)
    else if ReadinessAge(now, e.readiness) > rule.readinessMaximumAgeMs
    then Err(ReadinessStale)
    else Ok(RuleDecision(p.profileId, p.profileVersion, rule.ruleId, rule.entitlementTtl))
  }

  /** The same acceptance written over the unbounded integers, as one conjunction of intervals. */
  ghost predicate AcceptsExactly(p: ProtocolProfile, from: string, to: string, now: int,
                                 bundle: TrustBundle, e: Evidence)
  {
    && p.validFrom.Some? && p.validUntil.Some?
    && p.validFrom.value <= now <= p.validUntil.value
    && p.bundleId == bundle.id && p.bundleMinimumVersion <= bundle.version
    && now <= bundle.issuedAt + p.bundleMaximumAge
    && (forall c | c in e.credentials :: CredentialAcceptedExactly(p, c, now))
    && var found := FindRule(p.stageRules, from, to);
    && found.Some?
    && var rule := found.value;
    && (rule.holderProofRequired ==>
          e.holderProofAt.Some? && now <= e.holderProofAt.value + MaximumProofAge(rule))
    && (rule.requiredSessionStatus == "authorized" ==> e.sessionAuthorized)
    && now * 1000 <= e.readiness.observedAtMs + rule.readinessMaximumAgeMs
  }

  ghost predicate CredentialAcceptedExactly(p: ProtocolProfile, c: VerifiedCredential, now: int) {
    var profile := FindCredentialProfile(p.credentialProfiles, c.profileId);
    && profile.Some?
    && c.credentialType == profile.value.credentialType
    && c.schemaId == profile.value.schemaId
    && c.issuerGroup in profile.value.issuerGroups
    && (profile.value.maximumStatusAge.Some? ==>
          now <= c.statusCheckedAt + profile.value.maximumStatusAge.value)
  }

  /** No limit is the value an age saturates to. */
  predicate LimitsBelowMaximum(p: ProtocolProfile) {
    && p.bundleMaximumAge < I64_MAX
    && (forall c | c in p.credentialProfiles :: c.maximumStatusAge != Some(I64_MAX))
    && (forall r | r in p.stageRules ::
          r.maximumProofAge != Some(I64_MAX) && r.readinessMaximumAgeMs < I64_MAX)
  }

  /** Away from the representable extremes the saturating checks are the exact ones. */
  lemma SaturatingChecksAreExact(p: ProtocolProfile, from: string, to: string, now: i64,
                                 bundle: TrustBundle, e: Evidence)
    requires I64_MIN <= now * 1000 <= I64_MAX
    requires LimitsBelowMaximum(p)
    ensures Evaluate(p, from, to, now, bundle, e).Ok? <==> AcceptsExactly(p, from, to, now, bundle, e)
  {
    forall c | c in e.credentials
      ensures CredentialAccepted(p, c, now) <==> CredentialAcceptedExactly(p, c, now)
    {
    }
  }

  /** The instants at which given evidence is accepted form an interval, with one decision on it. */
  lemma AcceptanceIsAnInterval(p: ProtocolProfile, from: string, to: string, now: i64, later: i64,
                               t: i64, bundle: TrustBundle, e: Evidence)
    requires now <= t <= later
    requires Evaluate(p, from, to, now, bundle, e).Ok? && Evaluate(p, from, to, later, bundle, e).Ok?
    ensures Evaluate(p, from, to, t, bundle, e) == Evaluate(p, from, to, now, bundle, e)
  {
    forall c | c in e.credentials
      ensures CredentialAccepted(p, c, t)
    {
      assert CredentialAccepted(p, c, later);
    }
  }

  /** Evidence once refused stays refused, unless the refusal was that the profile has not begun. */
  lemma RefusalIsPermanent(p: ProtocolProfile, from: string, to: string, now: i64, later: i64,
                           bundle: TrustBundle, e: Evidence)
    requires now <= later
    requires p.validFrom.Some? ==> p.validFrom.value <= now
    requires Evaluate(p, from, to, now, bundle, e).Err?
    ensures Evaluate(p, from, to, later, bundle, e).Err?
  {
    if Evaluate(p, from, to, later, bundle, e).Ok? {
      forall c | c in e.credentials
        ensures CredentialAccepted(p, c, now)
      {
        assert CredentialAccepted(p, c, later);
      }
    }
  }

  /** A refusal names what to repair, in order of precedence: stale readiness is answered exactly when
      any readiness young enough would be accepted and everything else is; a missing session only
      when an authorized one leaves at most the readiness to repair; and the refusals that come
      before them do not depend on readiness, session or proof. */
  lemma RefusalNamesTheRepair(p: ProtocolProfile, from: string, to: string, now: i64, bundle: TrustBundle, e: Evidence,
                              young: Readiness)
    requires var found := FindRule(p.stageRules, from, to);
             found.Some? ==> ReadinessAge(now, young) <= found.value.readinessMaximumAgeMs
    ensures var r := Evaluate(p, from, to, now, bundle, e);
            var rested := Evaluate(p, from, to, now, bundle, e.(readiness := young));
            var seated := Evaluate(p, from, to, now, bundle, e.(sessionAuthorized := true, readiness := young));
            && (r == Err(ReadinessStale) <==> r.Err? && rested.Ok?)
            && (r == Err(SessionRequired) <==> rested.Err? && seated.Ok?)
            && (r.Err? && r.error in {ProfileExpired, TrustBundleMismatch, InvalidTimestamp, CredentialRequired, NoMatchingRule} ==>
                  forall proof, ready, session ::
                    Evaluate(p, from, to, now, bundle, Evidence(e.credentials, proof, session, ready)) == r)
            && (r == Err(HolderProofRequired) ==>
                  seated == r && forall ready, session ::
                    Evaluate(p, from, to, now, bundle, Evidence(e.credentials, e.holderProofAt, session, ready)) == r)
  {
  }

  /** The refusals that come before holder, session and readiness name their cause. */
  lemma RefusalNamesTheCause(p: ProtocolProfile, from: string, to: string, now: i64, bundle: TrustBundle, e: Evidence)
    ensures var r := Evaluate(p, from, to, now, bundle, e);
            var parsed := p.validFrom.Some? && p.validUntil.Some?;
            var current := parsed && p.validFrom.value <= now <= p.validUntil.value;
            var trusted := p.bundleId == bundle.id && p.bundleMinimumVersion <= bundle.version
                           && SaturatingSub(now, bundle.issuedAt) <= p.bundleMaximumAge;
            var certified := forall c | c in e.credentials :: CredentialAccepted(p, c, now);
            && (r == Err(InvalidTimestamp) <==> !parsed)
            && (r == Err(ProfileExpired) <==> parsed && !current)
            && (r == Err(TrustBundleMismatch) <==> current && !trusted)
            && (r == Err(CredentialRequired) <==> current && trusted && !certified)
            && (r == Err(NoMatchingRule) <==>
                  && current && trusted && certified
                  && forall rule | rule in p.stageRules :: !(rule.fromStage == from && rule.toStage == to))
  {
  }
}
