/** Client authentication: which of the four methods a request uses, whether its proof
    is good, and whether it is the registered one. */
module ClientAuth {
  import opened Kv
  import opened Registration
  import Jwt

  const TTL_JTI: nat := 300
  const MAX_ASSERTION_LIFE: nat := 600
  const NBF_SKEW: nat := 60
  const JWT_BEARER := "urn:ietf:params:oauth:client-assertion-type:jwt-bearer"

  /** What a request presents; an assertion that does not parse is left out of it as
      `badAssertion`. */
  datatype Presented = Presented(
    basic: Option<(string, string)>,
    formId: Option<string>,
    formSecret: Option<string>,
    assertionType: Option<string>,
    assertion: Option<Jwt.Token>,
    badAssertion: bool)

  /** `jtis` maps a recorded assertion id to the second its record expires. */
  datatype AuthState = AuthState(clients: map<string, Client>, jtis: map<string, nat>, now: nat)

  datatype Authenticated = Authenticated(id: string, authMethod: string)

  predicate HasAssertion(p: Presented) { p.assertion.Some? || p.badAssertion || p.assertionType.Some? }

  predicate Recorded(s: AuthState, jti: string) { jti in s.jtis && s.now < s.jtis[jti] }

  predicate AudienceOk(a: Jwt.Audience, valid: seq<string>) {
    match a
    case NoAudience => false
    case One(v) => v in valid
    case Many(vs) => exists v :: v in vs && v in valid
  }

  // ----- when a proof is good -----

  ghost predicate KnowsSecret(hmac: string -> string, c: Client, secret: string) {
    c.secretHash == Some(hmac(secret))
  }

  /** RFC 7523 section 3. */
  ghost predicate AssertionOk(s: AuthState, audiences: seq<string>, t: Jwt.Token, id: string, c: Client) {
    && t.claims.sub == Some(id) && t.claims.iss == Some(id)
    && c.jwks.Some? && Jwt.Trusted(t, c.jwks.value)
    && AudienceOk(t.claims.aud, audiences)
    && t.claims.exp.Some? && s.now <= t.claims.exp.value <= s.now + MAX_ASSERTION_LIFE
    && (t.claims.nbf.Some? ==> t.claims.nbf.value <= s.now + NBF_SKEW)
    && t.claims.jti.Some? && !Recorded(s, t.claims.jti.value)
  }

  /** The request uses method `m`, and only that, for client `id`, with a good proof. */
  ghost predicate Proves(hmac: string -> string, s: AuthState, audiences: seq<string>, p: Presented, id: string,
      m: string)
    requires id in s.clients
  {
    var c := s.clients[id];
    match m
    case "client_secret_basic" =>
      && p.basic.Some? && p.basic.value.0 == id && KnowsSecret(hmac, c, p.basic.value.1)
      && (p.formId.Some? ==> p.formId == Some(id)) && p.formSecret.None? && !HasAssertion(p)
    case "client_secret_post" =>
      && p.basic.None? && p.formId == Some(id) && p.formSecret.Some? && KnowsSecret(hmac, c, p.formSecret.value)
          && !HasAssertion(p)
    case "private_key_jwt" =>
      && p.basic.None? && p.formSecret.None? && p.assertionType == Some(JWT_BEARER) && p.assertion.Some?
          && !p.badAssertion
      && (p.formId.Some? ==> p.formId == Some(id)) && AssertionOk(s, audiences, p.assertion.value, id, c)
    case "none" =>
      && p.basic.None? && p.formSecret.None? && p.assertion.None? && !p.badAssertion && p.formId == Some(id)
      && c.secretHash.None? && c.jwks.None?
    case _ => false
  }

  // ----- the handler -----

  /** `verify_secret`. */
  predicate SecretOk(hmac: string -> string, c: Client, secret: Option<string>) {
    match c.secretHash
    case Some(stored) => secret.Some? && hmac(secret.value) == stored
    case None => secret.None? && (c.authMethod.Some? ==> c.authMethod == Some("none")) && c.jwks.None?
  }

  class Authenticator {
    const hmac: string -> string
    const issuer: string
    var clients: map<string, Client>
    var jtis: map<string, nat>
    var now: nat

    constructor (hmac: string -> string, issuer: string, s: AuthState)
      ensures this.hmac == hmac && this.issuer == issuer && Contents() == s
    {
      this.hmac := hmac;
      this.issuer := issuer;
      clients := s.clients;
      jtis := s.jtis;
      now := s.now;
    }

    function Contents(): AuthState
      reads this
    {
      AuthState(clients, jtis, now)
    }

    /** The issuer, and the endpoint under it, one slash between them. */
    function Audiences(endpoint: string): (a: seq<string>)
      ensures |a| == 2 && a[0] == issuer && issuer + "/" <= a[1]
      ensures a[1] == issuer + endpoint || (a[1] == issuer + "/" + endpoint && !("/" <= endpoint))
    {
      var path := if |endpoint| > 0 && endpoint[0] == '/' then endpoint else "/" + endpoint;
      [issuer, issuer + path]
    }

    /** `check_and_record_jti`: a create that fails while the record lives. */
    method CheckAndRecordJti(jti: string) returns (ok: bool)
      modifies this`jtis
      ensures ok <==> !Recorded(old(Contents()), jti)
      ensures jtis == if ok then old(jtis)[jti := now + TTL_JTI] else old(jtis)
    {
      ok := !(jti in jtis && now < jtis[jti]);
      if ok {
        jtis := jtis[jti := now + TTL_JTI];
      }
    }

    /** The checks of a parsed assertion against its client, up to the id. */
    method CheckAssertion(t: Jwt.Token, id: string, c: Client, audiences: seq<string>) returns (jti: Option<string>)
      requires t.claims.sub == Some(id)
      ensures jti.Some? ==> jti == t.claims.jti
      ensures jti.Some? && !Recorded(Contents(), jti.value) <==> AssertionOk(Contents(), audiences, t, id, c)
    {
      if c.jwks.None? { return None; }
      var error := Jwt.VerifyWithJwks(t, c.jwks.value);
      if error.Some? { return None; }
      if t.claims.iss != Some(id) { return None; }
      if !AudienceOk(t.claims.aud, audiences) { return None; }
      if t.claims.exp.None? || now > t.claims.exp.value { return None; }
      if t.claims.exp.value > now + MAX_ASSERTION_LIFE { return None; }
      if t.claims.nbf.Some? && t.claims.nbf.value > now + NBF_SKEW { return None; }
      return t.claims.jti;
    }

    method ByAssertion(p: Presented, audiences: seq<string>) returns (r: Option<Authenticated>)
      requires p.basic.None? && p.formSecret.None? && (p.assertion.Some? || p.badAssertion)
      modifies this`jtis
      ensures r.Some? ==> r.value.authMethod == "private_key_jwt" && r.value.id in clients
      ensures r.Some? ==> Proves(hmac, old(Contents()), audiences, p, r.value.id, "private_key_jwt")
      ensures forall id :: id in clients && Proves(hmac, old(Contents()), audiences, p, id, "private_key_jwt") ==>
                r == Some(Authenticated(id, "private_key_jwt"))
    {
      if p.assertionType != Some(JWT_BEARER) || p.badAssertion { return None; }
      var t := p.assertion.value;
      if t.claims.sub.None? { return None; }
      var id := t.claims.sub.value;
      if p.formId.Some? && p.formId.value != id { return None; }
      if id !in clients { return None; }
      var jti := CheckAssertion(t, id, clients[id], audiences);
      if jti.None? { return None; }
      var recorded := CheckAndRecordJti(jti.value);
      if !recorded { return None; }
      r := Some(Authenticated(id, "private_key_jwt"));
    }

    method BySecret(p: Presented) returns (r: Option<Authenticated>)
      requires p.assertion.None? && !p.badAssertion
      ensures r.Some? ==> r.value.id in clients && SecretOk(hmac, clients[r.value.id],
                if p.basic.Some? then Some(p.basic.value.1) else p.formSecret)
      ensures r.Some? <==>
                if p.basic.Some? then
                  && p.basic.value.0 in clients && (p.formId.Some? ==> p.formId.value == p.basic.value.0)
                  && SecretOk(hmac, clients[p.basic.value.0], Some(p.basic.value.1))
                else
                  && p.formId.Some? && p.formId.value in clients
                  && SecretOk(hmac, clients[p.formId.value], p.formSecret)
      ensures r.Some? ==>
                r.value == if p.basic.Some? then Authenticated(p.basic.value.0, "client_secret_basic")
                           else Authenticated(p.formId.value, if p.formSecret.Some? then "client_secret_post"
                               else "none")
    {
      match p.basic {
        case Some((id, secret)) =>
          if p.formId.Some? && p.formId.value != id { return None; }
          if id !in clients || !SecretOk(hmac, clients[id], Some(secret)) { return None; }
          r := Some(Authenticated(id, "client_secret_basic"));
        case None =>
          if p.formId.None? { return None; }
          var id := p.formId.value;
          if id !in clients || !SecretOk(hmac, clients[id], p.formSecret) { return None; }
          r := Some(Authenticated(id, if p.formSecret.Some? then "client_secret_post" else "none"));
      }
    }

    /** Success exactly by the one registered method, with a good proof of that method
        and of no other; a client without a registered method may use any. */
    method AuthenticateClient(p: Presented, endpoint: string) returns (r: Option<Authenticated>)
      modifies this`jtis
      ensures r.Some? ==>
                && r.value.id in clients
                && Proves(hmac, old(Contents()), Audiences(endpoint), p, r.value.id, r.value.authMethod)
                && (clients[r.value.id].authMethod.Some? ==> clients[r.value.id].authMethod.value == r.value.authMethod)
      ensures forall id, m ::
                id in clients && (clients[id].authMethod.Some? ==> clients[id].authMethod.value == m)
                    && Proves(hmac, old(Contents()), Audiences(endpoint), p, id, m)
                ==> r == Some(Authenticated(id, m))
    {
      var methods := (if p.basic.Some? then 1 else 0) + (if p.formSecret.Some? then 1 else 0)
          + (if HasAssertion(p) then 1 else 0);
      if methods > 1 { return None; }
      if p.assertion.Some? || p.badAssertion {
        r := ByAssertion(p, Audiences(endpoint));
      } else {
        r := BySecret(p);
      }
      if r.Some? && clients[r.value.id].authMethod.Some? && clients[r.value.id].authMethod.value != r.value.authMethod {
        r := None;
      }
    }
  }

  // ----- what follows -----

  /** A client that authenticates by method "none" holds neither secret nor keys, so the
      guards behind authentication, confidential but "none", never fire. */
  lemma NoneIsPublic(hmac: string -> string, s: AuthState, audiences: seq<string>, p: Presented, id: string, m: string)
    requires id in s.clients && Proves(hmac, s, audiences, p, id, m)
    requires s.clients[id].authMethod.Some? ==> s.clients[id].authMethod.value == m
    ensures !(m == "none" && (s.clients[id].secretHash.Some? || s.clients[id].jwks.Some?
                              || (s.clients[id].authMethod.Some? && s.clients[id].authMethod.value != "none")))
  {
  }

  ghost predicate UsableKey(keys: seq<Jwt.Jwk>) { exists k :: k in keys && !k.kty.OtherType? }

  /** The client's method has something to prove it with. */
  ghost predicate HasMeans(c: Client)
    requires ClientOk(c)
  {
    && (SecretMethod(c.authMethod.value) ==> c.secretHash.Some?)
    && (c.authMethod.value == "private_key_jwt" ==> UsableKey(c.jwks.value))
  }

  lemma SecretProof(hmac: string -> string, s: AuthState, audiences: seq<string>, id: string, secret: string)
    requires id in s.clients && ClientOk(s.clients[id]) && SecretMethod(s.clients[id].authMethod.value)
    requires s.clients[id].secretHash == Some(hmac(secret))
    ensures exists p :: Proves(hmac, s, audiences, p, id, s.clients[id].authMethod.value)
  {
    var m := s.clients[id].authMethod.value;
    var p := if m == "client_secret_basic" then Presented(Some((id, secret)), None, None, None, None, false)
             else Presented(None, Some(id), Some(secret), None, None, false);
    assert Proves(hmac, s, audiences, p, id, m);
  }

  lemma Longer(ids: set<string>) returns (n: nat)
    ensures forall i :: i in ids ==> |i| < n
    decreases |ids|
  {
    if ids == {} {
      n := 0;
    } else {
      var i :| i in ids;
      var m := Longer(ids - {i});
      n := if |i| < m then m else |i| + 1;
      forall j | j in ids ensures |j| < n {
        assert j == i || j in ids - {i};
      }
    }
  }

  lemma AssertionProof(hmac: string -> string, s: AuthState, audiences: seq<string>, id: string, k: Jwt.Jwk)
    requires id in s.clients && ClientOk(s.clients[id]) && s.clients[id].authMethod.value == "private_key_jwt"
    requires k in s.clients[id].jwks.value && !k.kty.OtherType? && audiences != []
    ensures exists p :: Proves(hmac, s, audiences, p, id, "private_key_jwt")
  {
    var n := Longer(s.jtis.Keys);
    var jti := seq(n, _ => 'j');
    assert jti !in s.jtis;
    var claims := Jwt.Claims(Some(id), Some(id), Jwt.One(audiences[0]), None, None, Some(s.now), None, Some(jti));
    var t := Jwt.Token(if k.kty.RSA? then Jwt.RS256 else Jwt.ES256, k.kid, claims, k.key);
    assert Jwt.Trusted(t, s.clients[id].jwks.value);
    var p := Presented(None, None, None, Some(JWT_BEARER), Some(t), false);
    assert Proves(hmac, s, audiences, p, id, "private_key_jwt");
  }

  lemma NoneProof(hmac: string -> string, s: AuthState, audiences: seq<string>, id: string)
    requires id in s.clients && ClientOk(s.clients[id]) && s.clients[id].authMethod.value == "none"
    ensures exists p :: Proves(hmac, s, audiences, p, id, "none")
  {
    assert Proves(hmac, s, audiences, Presented(None, Some(id), None, None, None, false), id, "none");
  }

  /** A registered client can authenticate by its method, at any time and whatever
      assertions were used before, exactly if the method has something to prove it with. */
  lemma CanAuthenticate(hmac: string -> string, s: AuthState, audiences: seq<string>, id: string)
    requires id in s.clients && ClientOk(s.clients[id]) && Hashed(hmac, s.clients[id]) && audiences != []
    ensures (exists p :: Proves(hmac, s, audiences, p, id, s.clients[id].authMethod.value)) <==> HasMeans(s.clients[id])
  {
    var c := s.clients[id];
    var m := c.authMethod.value;
    if HasMeans(c) {
      if SecretMethod(m) {
        var secret: string :| c.secretHash.value == hmac(secret);
        SecretProof(hmac, s, audiences, id, secret);
      } else if m == "private_key_jwt" {
        var k :| k in c.jwks.value && !k.kty.OtherType?;
        AssertionProof(hmac, s, audiences, id, k);
      } else {
        NoneProof(hmac, s, audiences, id);
      }
    }
    forall p | Proves(hmac, s, audiences, p, id, m) ensures HasMeans(c) {
    }
  }

  /** No request ever authenticates the client by its registered method. */
  ghost predicate Stranded(hmac: string -> string, clients: map<string, Client>, audiences: seq<string>, id: string)
    requires id in clients && clients[id].authMethod.Some?
  {
    forall jtis, now, p :: !Proves(hmac, AuthState(clients, jtis, now), audiences, p, id, clients[id].authMethod.value)
  }

  /** An accepted update locks its client out exactly if the method it leaves is a secret
      one and the client was registered without a secret, or is by assertion and no key
      it leaves is RSA or EC. */
  lemma UpdateStrands(hmac: string -> string, gate: Gate, s: State, audiences: seq<string>,
                      id: string, r: Request, tokenHash: Option<string>)
    requires Reachable(hmac, gate, s) && audiences != []
    requires Authorised(s, id, tokenHash) && id in s.clients && Updatable(s.clients[id], r)
    ensures var s' := Step(hmac, gate, s, Update(id, r, tokenHash));
            && id in s'.clients && s'.clients[id].authMethod.Some? && s.clients[id].authMethod.Some?
            && var m := Or(r.authMethod, s.clients[id].authMethod.value);
            && var keys := if r.jwks.Some? then r.jwks else s.clients[id].jwks;
            && (Stranded(hmac, s'.clients, audiences, id) <==>
                  || (SecretMethod(m) && s.clients[id].secretHash.None?)
                  || (m == "private_key_jwt" && !UsableKey(Or(keys, []))))
  {
    EveryClientOk(hmac, gate, s);
    var c := s.clients[id];
    assert ClientOk(c) && Hashed(hmac, c);
    ChangedOk(c, r);
    var clients := s.clients[id := Changed(c, r)];
    StrandedMeans(hmac, clients, audiences, id);
  }

  lemma StrandedMeans(hmac: string -> string, clients: map<string, Client>, audiences: seq<string>, id: string)
    requires id in clients && ClientOk(clients[id]) && Hashed(hmac, clients[id]) && audiences != []
    ensures Stranded(hmac, clients, audiences, id) <==> !HasMeans(clients[id])
  {
    var s0 := AuthState(clients, map[], 0);
    CanAuthenticate(hmac, s0, audiences, id);
    if !HasMeans(clients[id]) {
      var m := clients[id].authMethod.value;
      forall jtis, now, p ensures !Proves(hmac, AuthState(clients, jtis, now), audiences, p, id, m) {
        CanAuthenticate(hmac, AuthState(clients, jtis, now), audiences, id);
      }
    }
  }

  const PUBLIC_APP :=
    Request(Some("App"), Some(["https://a.example/cb"]), None, None, None, Some("none"), None, None, None, true,
            None, None)

  const TO_BASIC :=
    Request(None, None, None, None, None, Some("client_secret_basic"), None, None, None, true, None, None)

  /** A public client registers and then asks for client_secret_basic: both are accepted,
      and from then on it cannot authenticate. */
  lemma UpdateLocksOut(hmac: string -> string, audiences: seq<string>)
    requires audiences != []
    ensures var s := Run(hmac, Open, State(map[], map[]),
                         [Register("app", PUBLIC_APP, None, "s3cret", "t"), Update("app", TO_BASIC, Some("t"))]);
            && "app" in s.clients && s.clients["app"].authMethod == Some("client_secret_basic")
            && Stranded(hmac, s.clients, audiences, "app")
  {
    var s0 := State(map[], map[]);
    var ops := [Register("app", PUBLIC_APP, None, "s3cret", "t"), Update("app", TO_BASIC, Some("t"))];
    assert ops[..1] == [ops[0]] && ops[..1][..0] == [];
    assert Run(hmac, Open, s0, ops[..1]) == Step(hmac, Open, s0, ops[0]);
    PublicAppOk();
    var c := NewClient(PUBLIC_APP, hmac("s3cret"));
    var s1 := State(map["app" := c], map["app" := "t"]);
    assert Run(hmac, Open, s0, ops[..1]) == s1;
    NewClientOk(PUBLIC_APP, hmac("s3cret"));
    ChangedOk(c, TO_BASIC);
    StrandedMeans(hmac, map["app" := Changed(c, TO_BASIC)], audiences, "app");
  }

  lemma PublicAppOk()
    ensures Registrable(PUBLIC_APP)
  {
    assert "https://a.example/cb"[4] == 's' && "http://"[4] == ':';
    assert RedirectUriOk("https://a.example/cb");
  }

  /** An assertion is single-use for five minutes: used at `first`, it is good again at
      a later time exactly if that is five minutes on and it has not expired. */
  lemma AssertionReuse(s: AuthState, audiences: seq<string>, t: Jwt.Token, id: string, c: Client, later: nat)
    requires AssertionOk(s, audiences, t, id, c) && later >= s.now
    ensures AssertionOk(AuthState(s.clients, s.jtis[t.claims.jti.value := s.now + TTL_JTI], later), audiences, t, id, c)
            <==> s.now + TTL_JTI <= later <= t.claims.exp.value
  {
  }
}
