/**
 The helper's claim proof (internal/adapter/contextexec/auth.go): a MAC over the NUL-joined claim
 identity and challenge. The proof binds every field, because none of them can contain a NUL.
 */
module Claim {
  import opened Prelude
  import opened Text

  const MAX_OPAQUE_REF_BYTES := 128
  const MAX_CONTEXT_EXEC_ID_BYTES := 128
  const MAX_SESSION_ID_BYTES := 128
  const NUL := '\0'

  datatype Identity = Identity(opaqueLaunchId: string, contextExecId: string, sessionId: string,
                               authorityEpoch: nat, generation: string, requestFingerprint: string)

  predicate OpaqueChar(c: char) {
    'a' <= c <= 'z' || 'A' <= c <= 'Z' || '0' <= c <= '9' || c in {'_', '-', '.', ':'}
  }

  predicate ValidOpaque(v: string, max: nat) {
    0 < |v| <= max && forall i | 0 <= i < |v| :: OpaqueChar(v[i])
  }

  predicate ValidSHA256(v: string) {
    |v| == 64 && forall i | 0 <= i < 64 :: '0' <= v[i] <= '9' || 'a' <= v[i] <= 'f'
  }

  /** Unpadded URL-safe base64 of 32 bytes: 43 letters, and the decoder skips line breaks. */
  predicate ValidChallenge(v: string) {
    && (forall i | 0 <= i < |v| :: Base64Char(v[i]) || v[i] in {'\r', '\n'})
    && Base64Count(v) == 43
  }

  predicate Base64Char(c: char) {
    'a' <= c <= 'z' || 'A' <= c <= 'Z' || '0' <= c <= '9' || c in {'_', '-'}
  }

  function Base64Count(v: string): nat {
    if v == "" then 0 else Base64Count(v[1..]) + if Base64Char(v[0]) then 1 else 0
  }

  predicate ValidIdentity(id: Identity) {
    && ValidOpaque(id.opaqueLaunchId, MAX_OPAQUE_REF_BYTES)
    && ValidOpaque(id.contextExecId, MAX_CONTEXT_EXEC_ID_BYTES)
    && ValidOpaque(id.sessionId, MAX_SESSION_ID_BYTES)
    && ValidOpaque(id.generation, MAX_OPAQUE_REF_BYTES)
    && ValidSHA256(id.requestFingerprint)
    && id.authorityEpoch >= 1
  }

  function Parts(id: Identity, challenge: string): seq<string> {
    ["shellbeam-context-helper-v3", id.opaqueLaunchId, id.contextExecId, id.sessionId, Decimal(id.authorityEpoch),
     id.generation, id.requestFingerprint, challenge]
  }

  /** auth.go `claimPayload`: refused unless the identity and the challenge are valid. */
  function ClaimPayload(id: Identity, challenge: string): Option<string> {
    if ValidIdentity(id) && ValidChallenge(challenge) then Some(Join(Parts(id, challenge), [NUL])) else None
  }

  /** auth.go `ClaimProof`. `mac` is the printable MAC of a payload under a capability. */
  function ClaimProof<C(!new)>(mac: (C, string) -> string, capability: C, id: Identity, challenge: string)
    : Option<string>
  {
    match ClaimPayload(id, challenge)
    case None => None
    case Some(payload) => Some(mac(capability, payload))
  }

  /** auth.go `VerifyClaimProof`. */
  predicate VerifyClaimProof<C(!new)>(mac: (C, string) -> string, capability: C, id: Identity, challenge: string,
                                      proof: string)
  {
    ClaimProof(mac, capability, id, challenge) == Some(proof)
  }

  ghost predicate Injective<C(!new)>(mac: (C, string) -> string) {
    forall c, p, d, q :: mac(c, p) == mac(d, q) ==> c == d && p == q
  }

  lemma PartsAreNulFree(id: Identity, challenge: string)
    requires ValidIdentity(id) && ValidChallenge(challenge)
    ensures forall p | p in Parts(id, challenge) :: NUL !in p
  {
    var parts := Parts(id, challenge);
    assert AllDigits(Decimal(id.authorityEpoch));
    forall k, i | 0 <= k < |parts| && 0 <= i < |parts[k]|
      ensures parts[k][i] != NUL
    {
    }
  }

  /** The payload determines every field of the identity and the challenge. */
  lemma PayloadInjective(a: Identity, b: Identity, x: string, y: string)
    requires ClaimPayload(a, x).Some? && ClaimPayload(a, x) == ClaimPayload(b, y)
    ensures a == b && x == y
  {
    PartsAreNulFree(a, x);
    PartsAreNulFree(b, y);
    JoinInjective(Parts(a, x), Parts(b, y), NUL);
    var p, q := Parts(a, x), Parts(b, y);
    assert p[1] == q[1] && p[2] == q[2] && p[3] == q[3] && p[4] == q[4] && p[5] == q[5] && p[6] == q[6] && p[7] == q[7];
    DecimalRoundTrip(a.authorityEpoch);
    DecimalRoundTrip(b.authorityEpoch);
  }

  /** The daemon accepts a proof computed for some capability, identity and challenge exactly when
      they are its own. */
  lemma AcceptedExactlyForOwnClaim<C(!new)>(mac: (C, string) -> string, own: C, id: Identity, challenge: string,
                                           used: C, claimed: Identity, answered: string)
    requires Injective(mac)
    requires ClaimProof(mac, used, claimed, answered).Some?
    ensures VerifyClaimProof(mac, own, id, challenge, ClaimProof(mac, used, claimed, answered).value) <==>
            own == used && id == claimed && challenge == answered
  {
    if VerifyClaimProof(mac, own, id, challenge, ClaimProof(mac, used, claimed, answered).value) {
      PayloadInjective(id, claimed, challenge, answered);
    }
  }
}
