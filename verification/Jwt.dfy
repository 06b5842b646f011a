/** JWT verification against a key set: which keys are tried, in what order, and when
    a token's claims are accepted. A signature verifies only under the key that made it. */
module Jwt {
  import opened Kv

  const LEEWAY: nat := 30

  /** Any other name, or none, stands apart. */
  datatype Alg = RS256 | ES256 | OtherAlg

  datatype KeyType = RSA | EC | OtherType

  /** A JWK; `key` stands for its key material. */
  datatype Jwk = Jwk(kty: KeyType, kid: Option<string>, key: nat)

  datatype Audience = NoAudience | One(value: string) | Many(values: seq<string>)

  datatype Claims = Claims(
    iss: Option<string>,
    sub: Option<string>,
    aud: Audience,
    iat: Option<nat>,
    nbf: Option<nat>,
    exp: Option<nat>,
    tokenType: Option<string>,
    jti: Option<string>)

  datatype Token = Token(alg: Alg, kid: Option<string>, claims: Claims, signer: nat)

  function ExpectedKty(alg: Alg): Option<KeyType> {
    match alg case RS256 => Some(RSA) case ES256 => Some(EC) case OtherAlg => None
  }

  predicate Candidate(t: Token, k: Jwk) {
    && (ExpectedKty(t.alg).Some? ==> ExpectedKty(t.alg) == Some(k.kty))
    && (t.kid.Some? ==> k.kid == t.kid)
  }

  function Candidates(t: Token, keys: seq<Jwk>): seq<Jwk> {
    if keys == [] then [] else (if Candidate(t, keys[0]) then [keys[0]] else []) + Candidates(t, keys[1..])
  }

  /** One key, algorithm check included. */
  predicate VerifiesWith(t: Token, k: Jwk) { !t.alg.OtherAlg? && t.signer == k.key }

  /** A key of the right type and, if the token names one, of that id made the signature. */
  ghost predicate Trusted(t: Token, keys: seq<Jwk>) {
    exists k :: k in keys && ExpectedKty(t.alg) == Some(k.kty) && (t.kid.Some? ==> k.kid == t.kid) && k.key == t.signer
  }

  lemma {:induction false} CandidatesFacts(t: Token, keys: seq<Jwk>)
    ensures forall k :: k in Candidates(t, keys) <==> k in keys && Candidate(t, k)
  {
    if keys != [] {
      CandidatesFacts(t, keys[1..]);
      assert keys == [keys[0]] + keys[1..];
    }
  }

  lemma TrustedCandidate(t: Token, keys: seq<Jwk>)
    ensures Trusted(t, keys) <==> exists k :: k in Candidates(t, keys) && VerifiesWith(t, k)
  {
    CandidatesFacts(t, keys);
    if Trusted(t, keys) {
      var k :| k in keys && ExpectedKty(t.alg) == Some(k.kty) && (t.kid.Some? ==> k.kid == t.kid) && k.key == t.signer;
      assert k in Candidates(t, keys) && VerifiesWith(t, k);
    }
  }

  /** `verify_jwt_with_jwks`: the candidates in order, the last error if none fits. */
  method VerifyWithJwks(t: Token, keys: seq<Jwk>) returns (error: Option<string>)
    ensures error.None? <==> Trusted(t, keys)
  {
    TrustedCandidate(t, keys);
    var candidates := Candidates(t, keys);
    if candidates == [] {
      return Some("no matching public key found in JWKS");
    }
    var lastErr := "signature verification failed";
    for i := 0 to |candidates|
      invariant forall j :: 0 <= j < i ==> !VerifiesWith(t, candidates[j])
    {
      if VerifiesWith(t, candidates[i]) {
        assert candidates[i] in candidates;
        return None;
      }
      lastErr := if ExpectedKty(t.alg).None? then "unsupported signature algorithm" else "verification failed";
    }
    error := Some(lastErr);
  }

  predicate AudienceHas(a: Audience, expected: string) {
    match a
    case NoAudience => false
    case One(v) => v == expected
    case Many(vs) => expected in vs
  }

  /** `verify_token_scoped` after the signature, with the revocation time of a user. */
  predicate ClaimsAccepted(c: Claims, now: nat, revokedAt: map<string, nat>, issuer: Option<string>,
                           audience: Option<string>, tokenType: Option<string>) {
    && (c.iat.Some? ==> c.iat.value <= now + LEEWAY)
    && (c.nbf.Some? ==> c.nbf.value <= now + LEEWAY)
    && c.exp.Some? && now <= c.exp.value + LEEWAY
    && (c.sub.Some? && c.sub.value in revokedAt ==> (if c.iat.Some? then c.iat.value else 0) >= revokedAt[c.sub.value])
    && (issuer.Some? ==> (if c.iss.Some? then c.iss.value else "") == issuer.value)
    && (audience.Some? ==> AudienceHas(c.aud, audience.value))
    && (tokenType.Some? ==> (if c.tokenType.Some? then c.tokenType.value else "") == tokenType.value)
  }

  method VerifyTokenScoped(t: Token, keys: seq<Jwk>, now: nat, revokedAt: map<string, nat>, issuer: Option<string>,
                           audience: Option<string>, tokenType: Option<string>) returns (claims: Option<Claims>)
    ensures claims == if Trusted(t, keys) && ClaimsAccepted(t.claims, now, revokedAt, issuer, audience, tokenType)
                      then Some(t.claims) else None
  {
    var error := VerifyWithJwks(t, keys);
    if error.Some? { return None; }
    var c := t.claims;
    if c.iat.Some? && c.iat.value > now + LEEWAY { return None; }
    if c.nbf.Some? && c.nbf.value > now + LEEWAY { return None; }
    if c.exp.None? { return None; }
    if now > c.exp.value + LEEWAY { return None; }
    if c.sub.Some? && c.sub.value in revokedAt {
      var iat := if c.iat.Some? then c.iat.value else 0;
      if iat < revokedAt[c.sub.value] { return None; }
    }
    if issuer.Some? && (if c.iss.Some? then c.iss.value else "") != issuer.value { return None; }
    if audience.Some? {
      var ok := match c.aud case NoAudience => false case One(v) => v == audience.value case Many(vs) =>
          audience.value in vs;
      if !ok { return None; }
    }
    if tokenType.Some? && (if c.tokenType.Some? then c.tokenType.value else "") != tokenType.value { return None; }
    claims := Some(c);
  }
}
