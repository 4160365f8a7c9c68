/** The chaser's entitlement verifier: its own trust bundle, its own replay cache. */
module Verifier {
  import opened Basics
  import opened Journal
  import opened Replay
  import opened Profile
  import opened Cedar
  import opened Protocol
  import opened Engine
  import opened EngineSteps
  import opened EngineClass

  datatype SigningKeyRecord = SigningKeyRecord(keyId: Bytes, algorithm: string, publicKeyHex: Bytes)

  datatype TrustedAuthority = TrustedAuthority(authorityId: Bytes, signingKeys: seq<SigningKeyRecord>)

  datatype ClientTrustBundle = ClientTrustBundle(
    bundleId: string, version: u64, clientId: Bytes, trustedAuthorities: seq<TrustedAuthority>)

  datatype BundleError = UnsupportedAlgorithm | MalformedKey | NoKeys

  /** The key a record stands for; `onCurve` is the foreign check on the 32 bytes. */
  function KeyOf(record: SigningKeyRecord, onCurve: Bytes -> bool): Result<Key, BundleError> {
    if record.algorithm != "Ed25519" then Err(UnsupportedAlgorithm)
    else
      match HexDecode(record.publicKeyHex)
      case Some(bytes) => if |bytes| == 32 && onCurve(bytes) then Ok(bytes) else Err(MalformedKey)
      case None => Err(MalformedKey)
  }

  /** All key records, in the order the nested loops visit them. */
  function Records(authorities: seq<TrustedAuthority>): seq<SigningKeyRecord> {
    if authorities == [] then [] else Records(authorities[..|authorities| - 1]) + authorities[|authorities| - 1].signingKeys
  }

  /** The store the records build: a later record of the same identifier replaces an earlier one. */
  function StoreOf(records: seq<SigningKeyRecord>, onCurve: Bytes -> bool): Result<TrustStore, BundleError> {
    if records == [] then Ok(map[])
    else
      match StoreOf(records[..|records| - 1], onCurve)
      case Err(e) => Err(e)
      case Ok(store) =>
        var last := records[|records| - 1];
        match KeyOf(last, onCurve)
        case Err(e) => Err(e)
        case Ok(key) => Ok(store[last.keyId := key])
  }

  lemma StoreSnoc(records: seq<SigningKeyRecord>, last: SigningKeyRecord, onCurve: Bytes -> bool)
    ensures StoreOf(records + [last], onCurve)
         == match StoreOf(records, onCurve)
            case Err(e) => Err(e)
            case Ok(store) =>
              match KeyOf(last, onCurve)
              case Err(e) => Err(e)
              case Ok(key) => Ok(store[last.keyId := key])
  {
    assert (records + [last])[..|records|] == records;
  }

  /** An earlier bad record decides the result, whatever follows it. */
  lemma {:induction false} FirstErrorWins(records: seq<SigningKeyRecord>, n: nat, onCurve: Bytes -> bool)
    requires n <= |records| && StoreOf(records[..n], onCurve).Err?
    ensures StoreOf(records, onCurve) == StoreOf(records[..n], onCurve)
  {
    if n == |records| {
      assert records[..n] == records;
    } else {
      var front := records[..|records| - 1];
      assert front[..n] == records[..n];
      FirstErrorWins(front, n, onCurve);
    }
  }

  lemma RecordsSnoc(authorities: seq<TrustedAuthority>, n: nat)
    requires n < |authorities|
    ensures Records(authorities[..n + 1]) == Records(authorities[..n]) + authorities[n].signingKeys
  {
    assert authorities[..n + 1][..n] == authorities[..n];
  }

  lemma {:induction false} RecordsExtend(authorities: seq<TrustedAuthority>, n: nat)
    requires n <= |authorities|
    ensures Records(authorities[..n]) <= Records(authorities)
  {
    if n == |authorities| {
      assert authorities[..n] == authorities;
    } else {
      var front := authorities[..|authorities| - 1];
      assert front[..n] == authorities[..n];
      RecordsExtend(front, n);
    }
  }

  method TrustStoreOf(bundle: ClientTrustBundle, onCurve: Bytes -> bool) returns (r: Result<TrustStore, BundleError>)
    ensures var records := Records(bundle.trustedAuthorities);
            && r == (if records == [] then Err(NoKeys) else StoreOf(records, onCurve))
            && (r.Ok? <==> records != [] && forall i | 0 <= i < |records| :: GoodRecord(records[i], onCurve))
            && (r.Ok? ==> HoldsLastKeys(records, r.value))
            && (r == Err(NoKeys) <==> records == [])
            && (forall i | FirstBad(records, i, onCurve) ::
                  r == Err(if records[i].algorithm != "Ed25519" then UnsupportedAlgorithm else MalformedKey))
  {
    hide StoreOf, KeyOf, Records, GoodRecord, HoldsLastKeys, FirstBad;
    var authorities := bundle.trustedAuthorities;
    var store: TrustStore := map[];
    var count := 0;
    ghost var visited: seq<SigningKeyRecord> := [];
    NoRecords(onCurve);
    StoreInPlainWords(Records(authorities), onCurve);
    for i := 0 to |authorities|
      invariant visited == Records(authorities[..i])
      invariant count == |visited| && StoreOf(visited, onCurve) == Ok(store)
    {
      ghost var before := visited;
      RecordsSnoc(authorities, i);
      RecordsExtend(authorities, i + 1);
      for k := 0 to |authorities[i].signingKeys|
        invariant visited == before + authorities[i].signingKeys[..k]
        invariant count == |visited| && StoreOf(visited, onCurve) == Ok(store)
      {
        var record := authorities[i].signingKeys[k];
        StoreSnoc(visited, record, onCurve);
        visited := visited + [record];
        assert visited == Records(authorities)[..|visited|];
        var key := KeyOf(record, onCurve);
        if key.Err? {
          FirstErrorWins(Records(authorities), |visited|, onCurve);
          return Err(key.error);
        }
        store := store[record.keyId := key.value];
        count := count + 1;
      }
    }
    assert authorities[..|authorities|] == authorities;
    if count == 0 {
      return Err(NoKeys);
    }
    return Ok(store);
  }

  lemma NoRecords(onCurve: Bytes -> bool)
    ensures Records([]) == [] && StoreOf([], onCurve) == Ok(map[])
  {
  }

  ghost predicate Listed(records: seq<SigningKeyRecord>, id: Bytes) {
    exists i :: 0 <= i < |records| && records[i].keyId == id
  }

  /** The last record of an identifier is at `i`. */
  ghost predicate LastOf(records: seq<SigningKeyRecord>, i: int) {
    0 <= i < |records| && forall k | i < k < |records| :: records[k].keyId != records[i].keyId
  }

  /** A bundle is refused exactly when some record is bad. The store holds exactly the identifiers
      of the records, each with the key of its last record. */
  lemma {:induction false} StoreHoldsLastKeys(records: seq<SigningKeyRecord>, onCurve: Bytes -> bool)
    ensures var r := StoreOf(records, onCurve);
            && (r.Ok? <==> forall i | 0 <= i < |records| :: KeyOf(records[i], onCurve).Ok?)
            && (r.Ok? ==> forall id :: id in r.value <==> Listed(records, id))
            && (r.Ok? ==> forall i | LastOf(records, i) ::
                  records[i].keyId in r.value && KeyOf(records[i], onCurve) == Ok(r.value[records[i].keyId]))
  {
    if records == [] {
      NoRecords(onCurve);
    } else {
      var front, last := records[..|records| - 1], records[|records| - 1];
      assert records == front + [last];
      StoreHoldsLastKeys(front, onCurve);
      StoreSnoc(front, last, onCurve);
      hide StoreOf, KeyOf;
      forall id
        ensures Listed(records, id) <==> Listed(front, id) || id == last.keyId
      {
        if Listed(front, id) {
          var i :| 0 <= i < |front| && front[i].keyId == id;
          assert records[i].keyId == id;
        }
        assert records[|records| - 1].keyId == last.keyId;
      }
      forall i | LastOf(records, i)
        ensures i == |records| - 1 || (LastOf(front, i) && records[i] == front[i] && front[i].keyId != last.keyId)
      {
        assert i < |records| - 1 ==> records[|records| - 1].keyId != records[i].keyId;
      }
      assert KeyOf(records[|records| - 1], onCurve) == KeyOf(last, onCurve);
      assert forall i | 0 <= i < |front| :: records[i] == front[i];
    }
  }

  /** An Ed25519 key: 32 bytes of hexadecimal, in either case, on the curve. */
  predicate GoodRecord(record: SigningKeyRecord, onCurve: Bytes -> bool) {
    && record.algorithm == "Ed25519"
    && var bytes := HexDecode(record.publicKeyHex);
    && bytes.Some? && |bytes.value| == 32 && onCurve(bytes.value)
  }

  /** The first record that is no such key is at `i`. */
  ghost predicate FirstBad(records: seq<SigningKeyRecord>, i: int, onCurve: Bytes -> bool) {
    && 0 <= i < |records| && !GoodRecord(records[i], onCurve)
    && forall k | 0 <= k < i :: GoodRecord(records[k], onCurve)
  }

  /** The store has exactly the identifiers of the records, each with the bytes its last record spells. */
  ghost predicate HoldsLastKeys(records: seq<SigningKeyRecord>, store: TrustStore) {
    && (forall id :: id in store <==> Listed(records, id))
    && (forall i | LastOf(records, i) ::
          records[i].keyId in store && HexDecode(records[i].publicKeyHex) == Some(store[records[i].keyId]))
  }

  lemma KeyInPlainWords(record: SigningKeyRecord, onCurve: Bytes -> bool)
    ensures var r := KeyOf(record, onCurve);
            && (r.Ok? <==> GoodRecord(record, onCurve))
            && (r.Ok? ==> HexDecode(record.publicKeyHex) == Some(r.value))
            && (r.Err? ==> r.error == if record.algorithm != "Ed25519" then UnsupportedAlgorithm else MalformedKey)
  {
    hide HexDecode;
  }

  lemma StoreInPlainWords(records: seq<SigningKeyRecord>, onCurve: Bytes -> bool)
    ensures var r := StoreOf(records, onCurve);
            && (r.Ok? <==> forall i | 0 <= i < |records| :: GoodRecord(records[i], onCurve))
            && (r.Ok? ==> HoldsLastKeys(records, r.value))
            && r != Err(NoKeys)
            && (forall i | FirstBad(records, i, onCurve) ::
                  r == Err(if records[i].algorithm != "Ed25519" then UnsupportedAlgorithm else MalformedKey))
  {
    hide KeyOf, StoreOf, GoodRecord, HexDecode;
    StoreHoldsLastKeys(records, onCurve);
    forall i | 0 <= i < |records|
      ensures KeyOf(records[i], onCurve).Ok? <==> GoodRecord(records[i], onCurve)
      ensures KeyOf(records[i], onCurve).Ok? ==> HexDecode(records[i].publicKeyHex) == Some(KeyOf(records[i], onCurve).value)
    {
      KeyInPlainWords(records[i], onCurve);
    }
    forall i | FirstBad(records, i, onCurve)
      ensures StoreOf(records, onCurve) == Err(if records[i].algorithm != "Ed25519" then UnsupportedAlgorithm else MalformedKey)
    {
      KeyInPlainWords(records[i], onCurve);
      StoreHoldsLastKeys(records[..i], onCurve);
      assert forall k | 0 <= k < i :: records[..i][k] == records[k];
      StoreSnoc(records[..i], records[i], onCurve);
      assert records[..i] + [records[i]] == records[..i + 1];
      FirstErrorWins(records, i + 1, onCurve);
    }
    if StoreOf(records, onCurve).Err? {
      var i := FirstBadExists(records, onCurve);
      assert FirstBad(records, i, onCurve);
    }
  }

  lemma FirstBadExists(records: seq<SigningKeyRecord>, onCurve: Bytes -> bool) returns (i: nat)
    requires exists k :: 0 <= k < |records| && !GoodRecord(records[k], onCurve)
    ensures FirstBad(records, i, onCurve)
  {
    hide GoodRecord;
    i := 0;
    while GoodRecord(records[i], onCurve)
      invariant i < |records|
      invariant forall k | 0 <= k < i :: GoodRecord(records[k], onCurve)
      decreases |records| - i
    {
      i := i + 1;
    }
  }

  /** The records are those of the authorities, all of them. */
  lemma {:induction false} RecordsAreListed(authorities: seq<TrustedAuthority>, record: SigningKeyRecord)
    ensures record in Records(authorities) <==> exists a | a in authorities :: record in a.signingKeys
    decreases |authorities|
  {
    if authorities != [] {
      var front, last := authorities[..|authorities| - 1], authorities[|authorities| - 1];
      RecordsAreListed(front, record);
      assert authorities == front + [last];
      assert last in authorities;
      assert forall a | a in front :: a in authorities;
      assert forall a | a in authorities :: a in front || a == last;
      assert record in Records(authorities) <==> record in Records(front) || record in last.signingKeys;
    }
  }

  predicate TrustsAuthority(bundle: ClientTrustBundle, authorityId: Bytes, keyId: Bytes) {
    exists a | a in bundle.trustedAuthorities ::
      a.authorityId == authorityId && exists k | k in a.signingKeys :: k.keyId == keyId
  }

  datatype Command = Command(
    command: string, entitlement: Option<Wire>, expectedAuthority: Option<Bytes>, expectedSessionId: Option<Bytes>,
    expectedStage: Option<string>, now: Option<i64>)

  datatype VerifyError =
    | UnknownCommand | MissingField | EnvelopeRefused(error: ProtocolError) | NotAGrant | WrongAuthority
    | NoExpiry | Expired | NoSession | WrongSession | NoStage | WrongStage | Incomplete

  datatype VerifiedEntitlement = VerifiedEntitlement(
    authorityId: Bytes, grantId: Bytes, sessionId: Bytes, authorizedStage: string, expiresAt: i64,
    profileId: string, profileVersion: u64, ruleId: string,
    policyBundleId: string, policyBundleVersion: u64, policySha256: string)

  /** The serialized stage name. */
  function StageName(stage: AuthorizedStage): string {
    match stage
    case Hold => "hold"
    case Approach => "approach"
    case FinalApproach => "final_approach"
    case SoftCapture => "soft_capture"
    case HardDock => "hard_dock"
  }

  /** The claim checks after the envelope is verified and its nonce consumed. */
  function CheckEntitlement(c: Command, bundle: ClientTrustBundle, v: VerifiedEnvelope, now: i64)
    : Result<VerifiedEntitlement, VerifyError>
  {
    var claims := v.claims;
    if claims.messageType != AuthorizationGrant then Err(NotAGrant)
    else if c.expectedAuthority.None? then Err(MissingField)
    else if v.signer != c.expectedAuthority.value || !TrustsAuthority(bundle, c.expectedAuthority.value, v.signer)
    then Err(WrongAuthority)
    else if claims.expiresAt.None? then Err(NoExpiry)
    else if now > claims.expiresAt.value then Err(Expired)
    else if claims.sessionId.None? then Err(NoSession)
    else if c.expectedSessionId != claims.sessionId then Err(WrongSession)
    else if claims.authorizedStage.None? then Err(NoStage)
    else if c.expectedStage != Some(StageName(claims.authorizedStage.value)) then Err(WrongStage)
    else if claims.grantId.None? || claims.profileId.None? || claims.profileVersion.None? || claims.ruleId.None?
            || claims.policyBundleId.None? || claims.policyBundleVersion.None? || claims.policySha256.None?
    then Err(Incomplete)
    else Ok(VerifiedEntitlement(v.signer, claims.grantId.value, claims.sessionId.value,
                                StageName(claims.authorizedStage.value), claims.expiresAt.value,
                                claims.profileId.value, claims.profileVersion.value, claims.ruleId.value,
                                claims.policyBundleId.value, claims.policyBundleVersion.value, claims.policySha256.value))
  }

  function Verify(c: Command, bundle: ClientTrustBundle, trust: TrustStore, cache: Cache, clock: i64, io: AppendOutcome)
    : (Cache, Result<VerifiedEntitlement, VerifyError>)
  {
    if c.command != "verify_entitlement" then (cache, Err(UnknownCommand)) else
    if c.entitlement.None? then (cache, Err(MissingField)) else
    var now := if c.now.Some? then c.now.value else clock;
    var (cache', envelope) := VerifyEnvelope(c.entitlement.value, trust, bundle.clientId, cache, now, MAX_CLOCK_SKEW, io);
    if envelope.Err? then (cache', Err(EnvelopeRefused(envelope.error)))
    else (cache', CheckEntitlement(c, bundle, envelope.value, now))
  }

  method VerifyCommand(c: Command, bundle: ClientTrustBundle, trust: TrustStore, replay: ReplayCache, clock: i64,
                       io: AppendOutcome) returns (r: Result<VerifiedEntitlement, VerifyError>)
    modifies replay
    ensures (replay.View(), r) == Verify(c, bundle, trust, old(replay.View()), clock, io)
  {
    hide VerifyEnvelope, CheckEntitlement;
    if c.command != "verify_entitlement" {
      return Err(UnknownCommand);
    }
    if c.entitlement.None? {
      return Err(MissingField);
    }
    var now := if c.now.Some? then c.now.value else clock;
    var envelope := VerifyEnvelopeInto(c.entitlement.value, trust, bundle.clientId, replay, now, MAX_CLOCK_SKEW, io);
    if envelope.Err? {
      return Err(EnvelopeRefused(envelope.error));
    }
    r := CheckEntitlement(c, bundle, envelope.value, now);
  }

  /** The client's store and bundle know the station as the authority named by its key identifier. */
  predicate ClientTrusts(cfg: EngineConfig, bundle: ClientTrustBundle, trust: TrustStore) {
    && bundle.clientId == cfg.chaser.keyId
    && cfg.station.keyId in trust && trust[cfg.station.keyId] == cfg.station.key
    && TrustsAuthority(bundle, cfg.station.keyId, cfg.station.keyId)
  }

  /** A store built from a bundle lets the client trust the station exactly when the bundle is for this
      client, lists the station's identifier under the authority of that name, and the last record of that
      identifier spells the station's key. */
  lemma BuiltStoreTrusts(cfg: EngineConfig, bundle: ClientTrustBundle, store: TrustStore, i: int)
    requires HoldsLastKeys(Records(bundle.trustedAuthorities), store)
    requires LastOf(Records(bundle.trustedAuthorities), i)
    requires Records(bundle.trustedAuthorities)[i].keyId == cfg.station.keyId
    ensures ClientTrusts(cfg, bundle, store)
       <==> && bundle.clientId == cfg.chaser.keyId
            && TrustsAuthority(bundle, cfg.station.keyId, cfg.station.keyId)
            && HexDecode(Records(bundle.trustedAuthorities)[i].publicKeyHex) == Some(cfg.station.key)
  {
    hide HexDecode, Records, TrustsAuthority;
  }

  /** In particular when the bundle spells the station's key wherever it lists its identifier. */
  lemma ListedStationIsTrusted(cfg: EngineConfig, bundle: ClientTrustBundle, store: TrustStore)
    requires HoldsLastKeys(Records(bundle.trustedAuthorities), store)
    requires bundle.clientId == cfg.chaser.keyId && TrustsAuthority(bundle, cfg.station.keyId, cfg.station.keyId)
    requires forall r | r in Records(bundle.trustedAuthorities) && r.keyId == cfg.station.keyId ::
               r.publicKeyHex == HexEncode(cfg.station.key)
    ensures ClientTrusts(cfg, bundle, store)
  {
    hide HexDecode, HexEncode, Records;
    var records := Records(bundle.trustedAuthorities);
    var a :| a in bundle.trustedAuthorities && a.authorityId == cfg.station.keyId
             && exists k | k in a.signingKeys :: k.keyId == cfg.station.keyId;
    var k :| k in a.signingKeys && k.keyId == cfg.station.keyId;
    RecordsAreListed(bundle.trustedAuthorities, k);
    var j :| 0 <= j < |records| && records[j] == k;
    var i := LastListed(records, j);
    assert records[i] in records;
    HexRoundTrip(cfg.station.key);
    BuiltStoreTrusts(cfg, bundle, store, i);
  }

  lemma {:induction false} LastListed(records: seq<SigningKeyRecord>, j: nat) returns (i: nat)
    requires j < |records|
    ensures LastOf(records, i) && records[i].keyId == records[j].keyId
    decreases |records| - j
  {
    if k :| j < k < |records| && records[k].keyId == records[j].keyId {
      i := LastListed(records, k);
    } else {
      i := j;
    }
  }

  /** Over a store built from the bundle, an accepted entitlement names an authority that lists a key of the
      signer's identifier, and bears a signature of the key the last record of that identifier spells. */
  lemma AcceptedAuthoritiesAreListed(c: Command, bundle: ClientTrustBundle, store: TrustStore, client: Cache, clock: i64,
                                     io: AppendOutcome) returns (a: TrustedAuthority, k: SigningKeyRecord, i: nat)
    requires HoldsLastKeys(Records(bundle.trustedAuthorities), store)
    requires Verify(c, bundle, store, client, clock, io).1.Ok?
    ensures c.entitlement.Some? && c.entitlement.value.CoseSign1?
    ensures a in bundle.trustedAuthorities && Some(a.authorityId) == c.expectedAuthority && k in a.signingKeys
    ensures var records := Records(bundle.trustedAuthorities);
            && LastOf(records, i) && records[i].keyId == k.keyId && c.entitlement.value.keyId == Some(k.keyId)
            && HexDecode(records[i].publicKeyHex) == Some(c.entitlement.value.signature.key)
  {
    AcceptedEntitlements(c, bundle, store, client, clock, io);
    var w := c.entitlement.value;
    AcceptedEnvelopes(w, store, bundle.clientId, if c.now.Some? then c.now.value else clock, MAX_CLOCK_SKEW);
    var claims := ClaimsOf(w);
    hide Verify, CheckEnvelope, HexDecode, Records;
    a :| a in bundle.trustedAuthorities && a.authorityId == claims.issuer
         && exists k | k in a.signingKeys :: k.keyId == claims.issuer;
    k :| k in a.signingKeys && k.keyId == claims.issuer;
    RecordsAreListed(bundle.trustedAuthorities, k);
    var records := Records(bundle.trustedAuthorities);
    var j :| 0 <= j < |records| && records[j] == k;
    i := LastListed(records, j);
  }

  /** What the chaser asks its verifier about a grant for `requested` in session `sid`. */
  function CommandFor(w: Wire, authority: Bytes, sid: Option<Bytes>, stage: string, now: i64): Command {
    Command("verify_entitlement", Some(w), Some(authority), sid, Some(stage), Some(now))
  }

  function WireOf(cfg: EngineConfig, claims: ProtocolClaims): Wire {
    CoseSign1(true, Some(cfg.station.keyId), Some(Envelope(claims)),
              Signature(cfg.station.key, SigStructure(cfg.station.keyId, DockingIdentityV1, Some(Envelope(claims)))))
  }

  /** A grant the engine issued passes the client's verification for its own session and stage name
      exactly while it is inside the skew and not expired, which is exactly when the gate's envelope
      and expiry checks pass. */
  lemma ClientAndGateAgree(cfg: EngineConfig, e: Event, bundle: ClientTrustBundle, trust: TrustStore,
                           client: Cache, now: i64, clock: i64)
    requires e.Issued? && IssuedWell(cfg, e) && |e.claims.nonce| == 32
    requires ClientTrusts(cfg, bundle, trust)
    requires cfg.station.keyId in cfg.gateTrust && cfg.gateTrust[cfg.station.keyId] == cfg.station.key
    requires e.claims.nonce !in client.consumed
    ensures var w := WireOf(cfg, e.claims);
            var stage := TransitionFor(e.from, e.requested).value.1;
            var c := CommandFor(w, cfg.station.keyId, e.claims.sessionId, StageName(stage), now);
            var r := Verify(c, bundle, trust, client, clock, Committed).1;
            && (r.Ok? <==> Abs(now - e.now) <= 30 && now <= e.claims.expiresAt.value)
            && (r.Ok? ==> Some(r.value.grantId) == e.claims.grantId)
            && (r.Ok? <==> && CheckEnvelope(w, cfg.gateTrust, cfg.chaser.keyId, now, MAX_CLOCK_SKEW).Ok?
                           && BoundTo(e.claims, PendingEntitlement(e.requested, DecisionOf(cfg)), e.requested,
                                      e.claims.sessionId.value, stage, now))
  {
    hide EvaluateStage, TransitionRequest, ActionOf, FreshFor, HexDecode, HexEncode;
    var w := WireOf(cfg, e.claims);
    assert CheckEnvelope(w, trust, bundle.clientId, now, MAX_CLOCK_SKEW).Ok? <==> Abs(now - e.now) <= 30;
    assert CheckEnvelope(w, cfg.gateTrust, cfg.chaser.keyId, now, MAX_CLOCK_SKEW).Ok? <==> Abs(now - e.now) <= 30;
  }

  /** Exactly which commands the client answers with an entitlement, and that the entitlement says what the
      envelope says. */
  lemma AcceptedEntitlements(c: Command, bundle: ClientTrustBundle, trust: TrustStore, client: Cache, clock: i64, io: AppendOutcome)
    ensures var r := Verify(c, bundle, trust, client, clock, io).1;
            var now := if c.now.Some? then c.now.value else clock;
            (r.Ok? <==> && c.command == "verify_entitlement" && c.entitlement.Some?
                        && var w := c.entitlement.value;
                        && CheckEnvelope(w, trust, bundle.clientId, now, MAX_CLOCK_SKEW).Ok?
                        && var claims := ClaimsOf(w);
                        && claims.nonce !in client.consumed && (client.backend.Some? ==> io.Committed?)
                        && claims.messageType == AuthorizationGrant
                        && c.expectedAuthority == Some(claims.issuer) && TrustsAuthority(bundle, claims.issuer, claims.issuer)
                        && claims.expiresAt.Some? && now <= claims.expiresAt.value
                        && claims.sessionId.Some? && c.expectedSessionId == claims.sessionId
                        && claims.authorizedStage.Some? && c.expectedStage == Some(StageName(claims.authorizedStage.value))
                        && claims.grantId.Some? && claims.profileId.Some? && claims.profileVersion.Some? && claims.ruleId.Some?
                        && claims.policyBundleId.Some? && claims.policyBundleVersion.Some? && claims.policySha256.Some?)
            && (r.Ok? ==> var claims := ClaimsOf(c.entitlement.value);
                          && r.value.authorityId == claims.issuer && Some(r.value.grantId) == claims.grantId
                          && Some(r.value.sessionId) == claims.sessionId
                          && r.value.authorizedStage == StageName(claims.authorizedStage.value)
                          && Some(r.value.expiresAt) == claims.expiresAt && Some(r.value.ruleId) == claims.ruleId
                          && Some(r.value.profileId) == claims.profileId && Some(r.value.profileVersion) == claims.profileVersion
                          && Some(r.value.policyBundleId) == claims.policyBundleId
                          && Some(r.value.policyBundleVersion) == claims.policyBundleVersion
                          && Some(r.value.policySha256) == claims.policySha256)
  {
    if c.entitlement.Some? {
      var now := if c.now.Some? then c.now.value else clock;
      AcceptedEnvelopes(c.entitlement.value, trust, bundle.clientId, now, MAX_CLOCK_SKEW);
    }
    hide CheckEnvelope, TrustsAuthority, StageName;
  }

  /** The client accepts a given envelope at most once. */
  lemma ClientAcceptsOnce(c: Command, bundle: ClientTrustBundle, trust: TrustStore, client: Cache, clock: i64, io: AppendOutcome,
                          again: Command, clock': i64, io': AppendOutcome)
    requires Verify(c, bundle, trust, client, clock, io).1.Ok? && again.entitlement == c.entitlement
    ensures Verify(again, bundle, trust, Verify(c, bundle, trust, client, clock, io).0, clock', io').1.Err?
  {
    var now := if c.now.Some? then c.now.value else clock;
    var later := if again.now.Some? then again.now.value else clock';
    hide CheckEntitlement, VerifyEnvelope;
    AcceptedOnce(c.entitlement.value, trust, bundle.clientId, client, now, MAX_CLOCK_SKEW, io,
                 trust, bundle.clientId, later, MAX_CLOCK_SKEW, io');
  }

  /** The chaser verifies, then the gate redeems: the redemption is the one the gate would have made
      had the client never looked, because the client spends nonces in a cache of its own. */
  method VerifyThenRedeem(c: Command, bundle: ClientTrustBundle, trust: TrustStore, replay: ReplayCache, clock: i64,
                          io: AppendOutcome, engine: AccessEngine, w: Wire, requested: byte, now: i64,
                          readiness: Readiness, redeemIo: RedeemIo)
    returns (client: Result<VerifiedEntitlement, VerifyError>, gate: Result<TransitionOutcome, SessionError>)
    requires engine.Valid() && replay !in engine.Repr()
    modifies replay, engine.Repr()
    ensures (engine.View(), gate) == Redeem(engine.config, old(engine.View()), w, requested, now, readiness, redeemIo)
    ensures (replay.View(), client) == Verify(c, bundle, trust, old(replay.View()), clock, io)
  {
    hide Redeem, Verify;
    client := VerifyCommand(c, bundle, trust, replay, clock, io);
    gate := engine.RedeemTransition(w, requested, now, readiness, redeemIo);
  }
}
