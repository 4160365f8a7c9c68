/** Signed envelopes and credentials, with symbolic signatures.

    A signature is the term `Signature(key, structure)`. It verifies under `key` for exactly the
    structure it was made over: the Sig_structure of section 4.4 of RFC 9052, here the protected
    key identifier, the external_aad and the payload. */
module Protocol {
  import opened Basics
  import opened Replay

  datatype MessageType = AccessRequest | SessionOffer | SessionProof | AuthorizationGrant

  datatype AuthorizedStage = Hold | Approach | FinalApproach | SoftCapture | HardDock

  type Key = Bytes

  datatype IdentityKey = IdentityKey(keyId: Bytes, key: Key)

  type TrustStore = map<Bytes, Key>

  datatype ProtocolClaims = ProtocolClaims(
    messageType: MessageType, issuer: Bytes, recipient: Bytes, issuedAt: i64, nonce: Bytes,
    sessionId: Option<Bytes>, authorizedStage: Option<AuthorizedStage>,
    challengeNonce: Option<Bytes>, credentials: seq<Wire>,
    grantId: Option<Bytes>, expiresAt: Option<i64>,
    profileId: Option<string>, profileVersion: Option<u64>, ruleId: Option<string>,
    policyBundleId: Option<string>, policyBundleVersion: Option<u64>, policySha256: Option<string>)

  datatype CredentialClaims = CredentialClaims(
    issuer: Bytes, subject: Bytes, profileId: string, credentialType: string, schemaId: string,
    issuerGroup: string, issuedAt: i64, expiresAt: i64, statusCheckedAt: i64)

  datatype Payload = Envelope(claims: ProtocolClaims) | Credential(credential: CredentialClaims) | Other(raw: Bytes)

  /** The two external_aad values: "docking-identity-v1" and "access-credential-v1". */
  datatype Aad = DockingIdentityV1 | AccessCredentialV1

  datatype SigStructure = SigStructure(keyId: Bytes, aad: Aad, payload: Option<Payload>)

  datatype Signature = Signature(key: Key, over: SigStructure)

  /** Anything that can arrive: bytes that are no COSE_Sign1, or a COSE_Sign1 whose key identifier
      may be no UTF-8 and whose payload may be absent. */
  datatype Wire =
    | Garbage
    | CoseSign1(eddsa: bool, keyId: Option<Bytes>, payload: Option<Payload>, signature: Signature)

  datatype VerifiedEnvelope = VerifiedEnvelope(signer: Bytes, claims: ProtocolClaims)

  datatype ProtocolError =
    | InvalidEnvelope | InvalidAlgorithm | UntrustedSigner | InvalidSignature | InvalidClaims
    | IssuerMismatch | RecipientMismatch | Stale | WeakNonce | Replay
    | SubjectMismatch | CredentialExpired | SigningFailed | PersistentState

  const MIN_NONCE_BYTES := 16
  const MAX_CLOCK_SKEW: i64 := 30

  function SignPayload(payload: Payload, identity: IdentityKey, aad: Aad, signs: bool): Result<Wire, ProtocolError> {
    if !signs then Err(SigningFailed)
    else Ok(CoseSign1(true, Some(identity.keyId), Some(payload),
                      Signature(identity.key, SigStructure(identity.keyId, aad, Some(payload)))))
  }

  function SignEnvelope(claims: ProtocolClaims, identity: IdentityKey, signs: bool): Result<Wire, ProtocolError> {
    if claims.issuer != identity.keyId then Err(IssuerMismatch)
    else SignPayload(Envelope(claims), identity, DockingIdentityV1, signs)
  }

  function IssueCredential(claims: CredentialClaims, issuer: IdentityKey, signs: bool): Result<Wire, ProtocolError> {
    if claims.issuer != issuer.keyId then Err(IssuerMismatch)
    else SignPayload(Credential(claims), issuer, AccessCredentialV1, signs)
  }

  function VerifySignedPayload(w: Wire, trust: TrustStore, aad: Aad): Result<(Bytes, Payload), ProtocolError> {
    if w.Garbage? then Err(InvalidEnvelope)
    else if !w.eddsa then Err(InvalidAlgorithm)
    else if w.keyId.None? || w.keyId.value !in trust then Err(UntrustedSigner)
    else if w.signature != Signature(trust[w.keyId.value], SigStructure(w.keyId.value, aad, w.payload))
    then Err(InvalidSignature)
    else if w.payload.None? then Err(InvalidClaims)
    else Ok((w.keyId.value, w.payload.value))
  }

  function VerifyCredential(w: Wire, trust: TrustStore, subject: Bytes, now: i64): Result<CredentialClaims, ProtocolError> {
    match VerifySignedPayload(w, trust, AccessCredentialV1)
    case Err(e) => Err(e)
    case Ok((signer, payload)) =>
      if !payload.Credential? then Err(InvalidClaims)
      else
        var claims := payload.credential;
        if claims.issuer != signer then Err(IssuerMismatch)
        else if claims.subject != subject then Err(SubjectMismatch)
        else if now < claims.issuedAt || now > claims.expiresAt then Err(CredentialExpired)
        else Ok(claims)
  }

  /** Every check of `verify_envelope` before the nonce is consumed. */
  function CheckEnvelope(w: Wire, trust: TrustStore, recipient: Bytes, now: i64, skew: i64)
    : Result<VerifiedEnvelope, ProtocolError>
  {
    match VerifySignedPayload(w, trust, DockingIdentityV1)
    case Err(e) => Err(e)
    case Ok((signer, payload)) =>
      if !payload.Envelope? then Err(InvalidClaims)
      else
        var claims := payload.claims;
        if claims.issuer != signer then Err(IssuerMismatch)
        else if claims.recipient != recipient then Err(RecipientMismatch)
        else if Abs(now - claims.issuedAt) > Abs(skew) then Err(Stale)
        else if |claims.nonce| < MIN_NONCE_BYTES then Err(WeakNonce)
        else Ok(VerifiedEnvelope(signer, claims))
  }

  function VerifyEnvelope(w: Wire, trust: TrustStore, recipient: Bytes, cache: Cache, now: i64, skew: i64,
                          io: AppendOutcome): (Cache, Result<VerifiedEnvelope, ProtocolError>)
  {
    var checked := CheckEnvelope(w, trust, recipient, now, skew);
    if checked.Err? then (cache, checked)
    else
      var (cache', r) := cache.Consume(checked.value.claims.nonce, io);
      (cache', if r.Ok? then checked else Err(AsProtocolError(r.error)))
  }

  function AsProtocolError(e: ReplayError): ProtocolError {
    match e
    case Replayed => Replay
    case StorageFailed => PersistentState
  }

  method VerifyEnvelopeInto(w: Wire, trust: TrustStore, recipient: Bytes, replay: ReplayCache, now: i64,
                            skew: i64, io: AppendOutcome) returns (r: Result<VerifiedEnvelope, ProtocolError>)
    modifies replay
    ensures (replay.View(), r) == VerifyEnvelope(w, trust, recipient, old(replay.View()), now, skew, io)
  {
    r := CheckEnvelope(w, trust, recipient, now, skew);
    if r.Ok? {
      var consumed := replay.Consume(r.value.claims.nonce, io);
      if consumed.Err? {
        r := Err(AsProtocolError(consumed.error));
      }
    }
  }

  /** The claims an envelope must carry, and the signature it must bear, to be accepted: both
      directions. Nothing about it is taken from outside the signature. */
  lemma AcceptedEnvelopes(w: Wire, trust: TrustStore, recipient: Bytes, now: i64, skew: i64)
    ensures CheckEnvelope(w, trust, recipient, now, skew).Ok?
       <==> && w.CoseSign1? && w.eddsa
            && w.payload.Some? && w.payload.value.Envelope?
            && var claims := w.payload.value.claims;
            && w.keyId == Some(claims.issuer) && claims.issuer in trust
            && w.signature == Signature(trust[claims.issuer],
                                        SigStructure(claims.issuer, DockingIdentityV1, Some(Envelope(claims))))
            && claims.recipient == recipient
            && claims.issuedAt - Abs(skew) <= now <= claims.issuedAt + Abs(skew)
            && MIN_NONCE_BYTES <= |claims.nonce|
    ensures CheckEnvelope(w, trust, recipient, now, skew).Ok? ==>
              CheckEnvelope(w, trust, recipient, now, skew).value
              == VerifiedEnvelope(w.payload.value.claims.issuer, w.payload.value.claims)
  {
  }

  /** A credential signed under a key of the store, for this subject, inside its validity: exactly these
      are accepted, and the claims returned are the ones signed. */
  lemma AcceptedCredentials(w: Wire, trust: TrustStore, subject: Bytes, now: i64)
    ensures var r := VerifyCredential(w, trust, subject, now);
            && (r.Ok? <==> && w.CoseSign1? && w.eddsa && w.payload.Some? && w.payload.value.Credential?
                           && CredentialHolds(w.keyId, w.signature, w.payload.value.credential, trust, subject, now))
            && (r.Ok? ==> r.value == w.payload.value.credential)
  {
  }

  predicate CredentialHolds(keyId: Option<Bytes>, signature: Signature, c: CredentialClaims, trust: TrustStore, subject: Bytes,
                            now: i64)
  {
    && keyId == Some(c.issuer) && c.issuer in trust
    && signature == Signature(trust[c.issuer], SigStructure(c.issuer, AccessCredentialV1, Some(Credential(c))))
    && c.subject == subject && c.issuedAt <= now <= c.expiresAt
  }

  /** Signing then verifying in a store that holds the signer's key returns the claims. */
  lemma SignThenVerify(claims: ProtocolClaims, identity: IdentityKey, trust: TrustStore, cache: Cache,
                       now: i64, skew: i64, io: AppendOutcome)
    requires identity.keyId in trust && trust[identity.keyId] == identity.key
    requires claims.issuer == identity.keyId
    requires MIN_NONCE_BYTES <= |claims.nonce| && claims.nonce !in cache.consumed
    requires cache.backend.Some? ==> io.Committed?
    ensures var w := SignEnvelope(claims, identity, true).value;
            var (cache', r) := VerifyEnvelope(w, trust, claims.recipient, cache, now, skew, io);
            (r == Ok(VerifiedEnvelope(identity.keyId, claims)) && claims.nonce in cache'.consumed)
            <==> claims.issuedAt - Abs(skew) <= now <= claims.issuedAt + Abs(skew)
  {
  }

  /** No message is both: credentials never verify as envelopes, nor envelopes as credentials,
      whatever the stores, identities and clocks. */
  lemma DomainsAreSeparate(w: Wire, peers: TrustStore, issuers: TrustStore, recipient: Bytes, subject: Bytes,
                           now: i64, then_: i64, skew: i64)
    ensures CheckEnvelope(w, peers, recipient, now, skew).Err?
         || VerifyCredential(w, issuers, subject, then_).Err?
  {
  }

  /** Only an accepted envelope spends its nonce, and only its own; a replay is reported exactly when
      everything else about the envelope is in order. */
  lemma OnlyAcceptedSpend(w: Wire, trust: TrustStore, recipient: Bytes, cache: Cache, now: i64, skew: i64, io: AppendOutcome)
    ensures var checked := CheckEnvelope(w, trust, recipient, now, skew);
            var (cache', r) := VerifyEnvelope(w, trust, recipient, cache, now, skew, io);
            && cache'.consumed == cache.consumed + (if r.Ok? then {r.value.claims.nonce} else {})
            && (r == Err(Replay) <==> checked.Ok? && checked.value.claims.nonce in cache.consumed)
            && (checked.Err? ==> (cache', r) == (cache, checked))
  {
  }

  /** An envelope is accepted at most once by a cache, at any later time and for any recipient. */
  lemma AcceptedOnce(w: Wire, trust: TrustStore, recipient: Bytes, cache: Cache, now: i64, skew: i64,
                     io: AppendOutcome, trust': TrustStore, recipient': Bytes, later: i64, skew': i64,
                     io': AppendOutcome)
    requires VerifyEnvelope(w, trust, recipient, cache, now, skew, io).1.Ok?
    ensures var after := VerifyEnvelope(w, trust, recipient, cache, now, skew, io).0;
            var again := VerifyEnvelope(w, trust', recipient', after, later, skew', io');
            again.0 == after && again.1.Err?
  {
  }
}
