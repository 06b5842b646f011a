/** The claims of an access and an ID token: what each claim is, and what is left of it
    after the claims a hook adds are merged in. */
module Claims {
  import opened Kv
  import opened Hooks
  import Jwt
  import Lists

  const TOKEN_LIFETIME: nat := 3600
  const SKEW: nat := 30

  datatype Value =
    | Text(text: string)
    | Number(number: nat)
    | Flag(flag: bool)
    | List(items: seq<string>)
    | Tenants(grants: seq<Grant>)
    | Key(thumbprint: string)

  type ClaimMap = map<string, Value>

  /** The user; the derived names are those the profile yields, empty if none. */
  datatype Profile = Profile(
    id: string, email: string, name: string, given: string, family: string, preferred: string, active: bool,
        superadmin: bool)

  datatype Login = Login(
    issuer: string,
    client: string,
    now: nat,
    nonce: string,
    authTime: nat,
    amr: seq<string>,
    acr: string,
    scope: string,
    requestedId: seq<string>,
    requestedInfo: seq<string>,
    jkt: Option<string>,
    sid: Option<string>)

  // ----- what each claim is -----

  function When(b: bool, v: Value): Option<Value> { if b then Some(v) else None }

  predicate EmailWanted(l: Login) { "email" in Lists.Words(l.scope) || "email" in l.requestedId }

  predicate NameWanted(l: Login) { "profile" in Lists.Words(l.scope) || "name" in l.requestedId }

  /** The role of the first membership, unless the user is a superadmin. */
  function Role(p: Profile, ms: seq<Grant>): Option<Value> {
    if p.superadmin then Some(Text("superadmin")) else if ms != [] then Some(Text(ms[0].role)) else None
  }

  /** The claims both tokens share. */
  function Shared(p: Profile, ms: seq<Grant>, l: Login, key: string): Option<Value> {
    match key
    case "iss" => Some(Text(l.issuer))
    case "sub" => Some(Text(p.id))
    case "aud" => Some(Text(l.client))
    case "exp" => Some(Number(l.now + TOKEN_LIFETIME))
    case "nbf" => Some(Number(if l.now < SKEW then 0 else l.now - SKEW))
    case "iat" => Some(Number(l.now))
    case "auth_time" => Some(Number(l.authTime))
    case "email" => When(EmailWanted(l), Text(p.email))
    case "name" => When(NameWanted(l), Text(p.name))
    case "amr" => When(l.amr != [], List(l.amr))
    case "acr" => When(l.acr != "", Text(l.acr))
    case "role" => Role(p, ms)
    case "tenant_id" => if ms != [] then Some(Text(ms[0].tenant)) else None
    case "tenants" => When(|ms| > 1, Tenants(ms))
    case _ => None
  }

  function AccessClaim(p: Profile, ms: seq<Grant>, l: Login, key: string): Option<Value> {
    match key
    case "scope" => Some(Text(l.scope))
    case "token_type" => Some(Text("access"))
    case "email_verified" => When(EmailWanted(l), Flag(p.active))
    case "cnf" => if l.jkt.Some? then Some(Key(l.jkt.value)) else None
    case "lid_userinfo_claims" => When(l.requestedInfo != [], List(l.requestedInfo))
    case _ => Shared(p, ms, l, key)
  }

  function IdClaim(p: Profile, ms: seq<Grant>, l: Login, key: string): Option<Value> {
    match key
    case "nonce" => When(l.nonce != "", Text(l.nonce))
    case "sid" => if l.sid.Some? then Some(Text(l.sid.value)) else None
    case "email_verified" => When(EmailWanted(l) || "email_verified" in l.requestedId, Flag(p.active))
    case "given_name" => When("given_name" in l.requestedId && p.given != "", Text(p.given))
    case "family_name" => When("family_name" in l.requestedId && p.family != "", Text(p.family))
    case "preferred_username" => When("preferred_username" in l.requestedId && p.preferred != "", Text(p.preferred))
    case _ => Shared(p, ms, l, key)
  }

  function Lookup(c: ClaimMap, key: string): Option<Value> { if key in c then Some(c[key]) else None }

  // ----- merging -----

  function Merged(c: ClaimMap, extra: seq<(string, string)>): ClaimMap {
    if extra == [] then c
    else Merged(c, extra[..|extra| - 1])[extra[|extra| - 1].0 := Text(extra[|extra| - 1].1)]
  }

  /** A list of claims that passed the hook API. */
  ghost predicate Accepted(extra: seq<(string, string)>) {
    forall i :: 0 <= i < |extra| ==> extra[i].0 !in RESERVED
  }

  lemma {:induction false} UnlistedKept(c: ClaimMap, extra: seq<(string, string)>, key: string)
    requires forall i :: 0 <= i < |extra| ==> extra[i].0 != key
    ensures Lookup(Merged(c, extra), key) == Lookup(c, key)
  {
    if extra != [] {
      UnlistedKept(c, extra[..|extra| - 1], key);
    }
  }

  /** A claim survives every list that hooks can produce. */
  ghost predicate Survives(c: ClaimMap, key: string) {
    forall extra :: Accepted(extra) ==> Lookup(Merged(c, extra), key) == Lookup(c, key)
  }

  /** Exactly the reserved claims are safe from hooks, whatever they were. */
  lemma SurvivesIffReserved(c: ClaimMap, key: string)
    ensures Survives(c, key) <==> key in RESERVED
  {
    if key in RESERVED {
      forall extra | Accepted(extra) ensures Lookup(Merged(c, extra), key) == Lookup(c, key) {
        UnlistedKept(c, extra, key);
      }
    } else {
      var other := if Lookup(c, key) == Some(Text("a")) then "b" else "a";
      var extra := [(key, other)];
      assert Accepted(extra) && extra[..0] == [];
      assert Merged(c, extra) == Merged(c, [])[key := Text(other)];
      assert Lookup(Merged(c, extra), key) == Some(Text(other));
    }
  }

  /** Some user, memberships and login give the claim a value in one of the tokens. */
  ghost predicate Computed(key: string) {
    exists p, ms, l :: AccessClaim(p, ms, l, key).Some? || IdClaim(p, ms, l, key).Some?
  }

  const REPLACEABLE := ["cnf", "sid", "lid_userinfo_claims", "given_name", "family_name", "preferred_username"]

  /** A login that asks for everything. */
  const RICH_LOGIN := Login("iss", "app", 0, "n", 0, ["pwd"], "acr", "openid", REPLACEABLE, ["name"], Some("jkt"),
      Some("sid"))

  const RICH_PROFILE := Profile("u", "e", "n", "g", "f", "p", true, false)

  /** So exactly six claims that the tokens compute can be replaced by a hook: the key
      binding, the session, the requested user-info claims, and three parts of the name. */
  lemma UnreservedComputed(c: ClaimMap, key: string)
    ensures Computed(key) && !Survives(c, key) <==> key in REPLACEABLE
  {
    SurvivesIffReserved(c, key);
    if key in REPLACEABLE {
      RichComputes(key);
      ReplaceableFree(key);
    } else if Computed(key) {
      ComputedReserved(key);
    }
  }

  lemma RichComputes(key: string)
    requires key in REPLACEABLE
    ensures AccessClaim(RICH_PROFILE, [], RICH_LOGIN, key).Some? || IdClaim(RICH_PROFILE, [], RICH_LOGIN, key).Some?
  {
  }

  lemma ReplaceableFree(key: string)
    requires key in REPLACEABLE
    ensures key !in RESERVED
  {
  }

  lemma ComputedReserved(key: string)
    requires Computed(key) && key !in REPLACEABLE
    ensures key in RESERVED
  {
    var p, ms, l :| AccessClaim(p, ms, l, key).Some? || IdClaim(p, ms, l, key).Some?;
  }

  // ----- filling the maps -----

  /** `claims[key] = value`, where there is a value. */
  method Put(c: ClaimMap, key: string, v: Option<Value>) returns (r: ClaimMap)
    ensures forall k :: Lookup(r, k) == if k == key && v.Some? then v else Lookup(c, k)
  {
    r := if v.Some? then c[key := v.value] else c;
  }

  method PutIdentity(c: ClaimMap, p: Profile, l: Login) returns (r: ClaimMap)
    ensures forall k :: Lookup(r, k) == if k in ["iss", "sub", "aud"] then Shared(p, [], l, k) else Lookup(c, k)
  {
    r := c["iss" := Text(l.issuer)]["sub" := Text(p.id)]["aud" := Text(l.client)];
  }

  method PutTimes(c: ClaimMap, p: Profile, l: Login) returns (r: ClaimMap)
    ensures forall k :: Lookup(r, k) == if k in ["exp", "nbf", "iat", "auth_time"] then Shared(p, [], l, k)
            else Lookup(c, k)
  {
    r := c["exp" := Number(l.now + TOKEN_LIFETIME)]["nbf" := Number(if l.now < SKEW then 0 else l.now - SKEW)]
          ["iat" := Number(l.now)]["auth_time" := Number(l.authTime)];
  }

  method PutMembership(c: ClaimMap, p: Profile, ms: seq<Grant>, l: Login) returns (r: ClaimMap)
    requires Lookup(c, "role").None? && Lookup(c, "tenant_id").None? && Lookup(c, "tenants").None?
    ensures forall k :: Lookup(r, k) == if k in ["role", "tenant_id", "tenants"] then Shared(p, ms, l, k)
            else Lookup(c, k)
  {
    r := c;
    if p.superadmin {
      r := r["role" := Text("superadmin")];
    }
    if |ms| == 1 {
      r := r["tenant_id" := Text(ms[0].tenant)];
      if !p.superadmin {
        r := r["role" := Text(ms[0].role)];
      }
    } else if |ms| > 1 {
      r := r["tenants" := Tenants(ms)]["tenant_id" := Text(ms[0].tenant)];
      if !p.superadmin {
        r := r["role" := Text(ms[0].role)];
      }
    }
  }

  method PutProfile(c: ClaimMap, p: Profile, l: Login) returns (r: ClaimMap)
    ensures forall k :: Lookup(r, k) == if k in ["email", "name"]
            && Shared(p, [], l, k).Some? then Shared(p, [], l, k) else Lookup(c, k)
  {
    r := c;
    if EmailWanted(l) {
      r := r["email" := Text(p.email)];
    }
    if NameWanted(l) {
      r := r["name" := Text(p.name)];
    }
  }

  method PutFactors(c: ClaimMap, p: Profile, l: Login) returns (r: ClaimMap)
    ensures forall k :: Lookup(r, k) == if k in ["amr", "acr"] && Shared(p, [], l, k).Some? then Shared(p, [], l, k)
            else Lookup(c, k)
  {
    r := c;
    if l.amr != [] {
      r := r["amr" := List(l.amr)];
    }
    if l.acr != "" {
      r := r["acr" := Text(l.acr)];
    }
  }

  lemma SharedKeys(p: Profile, ms: seq<Grant>, l: Login, key: string)
    ensures Shared(p, ms, l, key).Some? ==>
              key in ["iss", "sub", "aud"] || key in ["exp", "nbf", "iat", "auth_time"] || key in ["email", "name"]
              || key in ["amr", "acr"] || key in ["role", "tenant_id", "tenants"]
    ensures key !in ["role", "tenant_id", "tenants"] ==> Shared(p, ms, l, key) == Shared(p, [], l, key)
  {
  }

  /** The lists of keys above have nothing in common. */
  lemma KeysApart(key: string)
    ensures key in ["exp", "nbf", "iat", "auth_time"] ==> key !in ["iss", "sub", "aud"]
    ensures key in ["email", "name"] ==> key !in ["iss", "sub", "aud"] && key !in ["exp", "nbf", "iat", "auth_time"]
    ensures key in ["amr", "acr"] ==>
              key !in ["iss", "sub", "aud"] && key !in ["exp", "nbf", "iat", "auth_time"] && key !in ["email", "name"]
    ensures key in ["role", "tenant_id", "tenants"] ==>
              key !in ["iss", "sub", "aud"] && key !in ["exp", "nbf", "iat", "auth_time"] && key !in ["email", "name"]
              && key !in ["amr", "acr"]
  {
  }

  method BuildShared(p: Profile, ms: seq<Grant>, l: Login) returns (c: ClaimMap)
    ensures forall k :: Lookup(c, k) == Shared(p, ms, l, k)
  {
    var c1 := PutIdentity(map[], p, l);
    var c2 := PutTimes(c1, p, l);
    var c3 := PutProfile(c2, p, l);
    var c4 := PutFactors(c3, p, l);
    KeysApart("role");
    KeysApart("tenant_id");
    KeysApart("tenants");
    assert forall k :: Lookup(map[], k) == None;
    c := PutMembership(c4, p, ms, l);
    forall k ensures Lookup(c, k) == Shared(p, ms, l, k) {
      SharedKeys(p, ms, l, k);
      KeysApart(k);
    }
  }

  /** The value a key has after the merge, if it was merged at all. */
  function LastOf(extra: seq<(string, string)>, key: string): Option<Value> {
    if extra == [] then None
    else if extra[|extra| - 1].0 == key then Some(Text(extra[|extra| - 1].1))
    else LastOf(extra[..|extra| - 1], key)
  }

  method Merge(c: ClaimMap, extra: seq<(string, string)>) returns (r: ClaimMap)
    ensures r == Merged(c, extra)
  {
    r := c;
    for i := 0 to |extra|
      invariant r == Merged(c, extra[..i])
    {
      assert extra[..i + 1][..i] == extra[..i];
      r := r[extra[i].0 := Text(extra[i].1)];
    }
    assert extra[..|extra|] == extra;
  }

  lemma {:induction false} MergedLookup(c: ClaimMap, extra: seq<(string, string)>, key: string)
    ensures Lookup(Merged(c, extra), key) == if LastOf(extra, key).Some? then LastOf(extra, key) else Lookup(c, key)
  {
    if extra != [] {
      MergedLookup(c, extra[..|extra| - 1], key);
    }
  }

  lemma {:induction false} AcceptedLast(extra: seq<(string, string)>, key: string)
    requires Accepted(extra) && key in RESERVED
    ensures LastOf(extra, key).None?
  {
    if extra != [] {
      AcceptedLast(extra[..|extra| - 1], key);
    }
  }

  method BuildAccess(p: Profile, ms: seq<Grant>, l: Login, extra: seq<(string, string)>) returns (c: ClaimMap)
    ensures forall k :: Lookup(c, k) == if LastOf(extra, k).Some? then LastOf(extra, k) else AccessClaim(p, ms, l, k)
  {
    c := BuildShared(p, ms, l);
    c := Put(c, "scope", Some(Text(l.scope)));
    c := Put(c, "token_type", Some(Text("access")));
    c := Put(c, "email_verified", When(EmailWanted(l), Flag(p.active)));
    c := Put(c, "cnf", if l.jkt.Some? then Some(Key(l.jkt.value)) else None);
    c := Put(c, "lid_userinfo_claims", When(l.requestedInfo != [], List(l.requestedInfo)));
    assert forall k :: Lookup(c, k) == AccessClaim(p, ms, l, k);
    ghost var base := c;
    c := Merge(c, extra);
    forall k ensures Lookup(c, k) == if LastOf(extra, k).Some? then LastOf(extra, k) else AccessClaim(p, ms, l, k) {
      MergedLookup(base, extra, k);
    }
  }

  /** The claims of `requestedId` that the profile yields. */
  method AddDerived(c: ClaimMap, p: Profile, name: string) returns (r: ClaimMap)
    ensures forall k :: Lookup(r, k) == if k == name && Derived(p, k).Some? then Derived(p, k) else Lookup(c, k)
  {
    r := Put(c, name, Derived(p, name));
  }

  function Derived(p: Profile, name: string): Option<Value> {
    match name
    case "name" => Some(Text(p.name))
    case "given_name" => When(p.given != "", Text(p.given))
    case "family_name" => When(p.family != "", Text(p.family))
    case "preferred_username" => When(p.preferred != "", Text(p.preferred))
    case "email" => Some(Text(p.email))
    case "email_verified" => Some(Flag(p.active))
    case _ => None
  }

  method AddRequested(c: ClaimMap, p: Profile, names: seq<string>) returns (r: ClaimMap)
    ensures forall k :: Lookup(r, k) == if k in names && Derived(p, k).Some? then Derived(p, k) else Lookup(c, k)
  {
    r := c;
    for i := 0 to |names|
      invariant forall k :: Lookup(r, k) == if k in names[..i] && Derived(p, k).Some? then Derived(p, k)
                else Lookup(c, k)
    {
      assert names[..i + 1] == names[..i] + [names[i]];
      r := AddDerived(r, p, names[i]);
    }
    assert names[..|names|] == names;
  }

  lemma IdClaimIs(p: Profile, ms: seq<Grant>, l: Login, k: string)
    ensures IdClaim(p, ms, l, k) ==
            if k in l.requestedId && Derived(p, k).Some? then Derived(p, k)
            else if k == "nonce" then When(l.nonce != "", Text(l.nonce))
            else if k == "sid" then (if l.sid.Some? then Some(Text(l.sid.value)) else None)
            else if k == "email_verified" then When(EmailWanted(l), Flag(p.active))
            else Shared(p, ms, l, k)
  {
  }

  method BuildId(p: Profile, ms: seq<Grant>, l: Login, extra: seq<(string, string)>) returns (c: ClaimMap)
    ensures forall k :: Lookup(c, k) == if LastOf(extra, k).Some? then LastOf(extra, k) else IdClaim(p, ms, l, k)
  {
    c := BuildShared(p, ms, l);
    c := Put(c, "email_verified", When(EmailWanted(l), Flag(p.active)));
    c := Put(c, "sid", if l.sid.Some? then Some(Text(l.sid.value)) else None);
    c := Put(c, "nonce", When(l.nonce != "", Text(l.nonce)));
    c := AddRequested(c, p, l.requestedId);
    ghost var base := c;
    c := Merge(c, extra);
    forall k ensures Lookup(c, k) == if LastOf(extra, k).Some? then LastOf(extra, k) else IdClaim(p, ms, l, k) {
      IdClaimIs(p, ms, l, k);
      MergedLookup(base, extra, k);
    }
  }

  /** Every reserved claim is the computed one. */
  ghost predicate IsAccess(c: ClaimMap, p: Profile, ms: seq<Grant>, l: Login) {
    forall k :: k in RESERVED ==> Lookup(c, k) == AccessClaim(p, ms, l, k)
  }

  ghost predicate IsId(c: ClaimMap, p: Profile, ms: seq<Grant>, l: Login) {
    forall k :: k in RESERVED ==> Lookup(c, k) == IdClaim(p, ms, l, k)
  }

  /** With hooks filtered by the API, every reserved claim of both tokens is the
      computed one, and an unreserved one is the last the hooks set, if any. */
  method BuildClaims(p: Profile, ms: seq<Grant>, l: Login, extra: seq<(string, string)>) returns (access: ClaimMap,
      id: ClaimMap)
    requires Accepted(extra)
    ensures IsAccess(access, p, ms, l) && IsId(id, p, ms, l)
    ensures forall k :: Lookup(access, k) == if LastOf(extra, k).Some? then LastOf(extra, k)
            else AccessClaim(p, ms, l, k)
    ensures forall k :: Lookup(id, k) == if LastOf(extra, k).Some? then LastOf(extra, k) else IdClaim(p, ms, l, k)
  {
    access := BuildAccess(p, ms, l, extra);
    id := BuildId(p, ms, l, extra);
    forall k | k in RESERVED ensures LastOf(extra, k).None? {
      AcceptedLast(extra, k);
    }
  }

  // ----- what a verifier makes of the tokens -----

  function TextOf(v: Option<Value>): Option<string> {
    if v.Some? && v.value.Text? then Some(v.value.text) else None
  }

  function NumberOf(v: Option<Value>): Option<nat> {
    if v.Some? && v.value.Number? then Some(v.value.number) else None
  }

  /** The claims a verifier reads. */
  function Read(c: ClaimMap): Jwt.Claims {
    Jwt.Claims(TextOf(Lookup(c, "iss")), TextOf(Lookup(c, "sub")),
               if TextOf(Lookup(c, "aud")).Some? then Jwt.One(TextOf(Lookup(c, "aud")).value) else Jwt.NoAudience,
               NumberOf(Lookup(c, "iat")), NumberOf(Lookup(c, "nbf")), NumberOf(Lookup(c, "exp")),
               TextOf(Lookup(c, "token_type")), TextOf(Lookup(c, "jti")))
  }

  lemma Identity(p: Profile, ms: seq<Grant>, l: Login)
    ensures AccessClaim(p, ms, l, "iss") == IdClaim(p, ms, l, "iss") == Some(Text(l.issuer))
    ensures AccessClaim(p, ms, l, "sub") == IdClaim(p, ms, l, "sub") == Some(Text(p.id))
    ensures AccessClaim(p, ms, l, "aud") == IdClaim(p, ms, l, "aud") == Some(Text(l.client))
  {
  }

  lemma Times(p: Profile, ms: seq<Grant>, l: Login)
    ensures AccessClaim(p, ms, l, "exp") == IdClaim(p, ms, l, "exp") == Some(Number(l.now + 3600))
    ensures AccessClaim(p, ms, l, "iat") == IdClaim(p, ms, l, "iat") == Some(Number(l.now))
    ensures AccessClaim(p, ms, l, "nbf") == IdClaim(p, ms, l, "nbf")
            == Some(Number(if l.now < 30 then 0 else l.now - 30))
  {
  }

  lemma Types(p: Profile, ms: seq<Grant>, l: Login)
    ensures AccessClaim(p, ms, l, "token_type") == Some(Text("access"))
    ensures IdClaim(p, ms, l, "token_type") == None
  {
  }

  /** The claims of a token without its type. */
  ghost predicate Plain(j: Jwt.Claims, p: Profile, l: Login) {
    && j.iss == Some(l.issuer) && j.sub == Some(p.id) && j.aud == Jwt.One(l.client)
    && j.iat == Some(l.now) && j.exp == Some(l.now + 3600) && j.nbf == Some(if l.now < 30 then 0 else l.now - 30)
  }

  lemma ReadReserved()
    ensures "iss" in RESERVED && "sub" in RESERVED && "aud" in RESERVED && "token_type" in RESERVED
    ensures "iat" in RESERVED && "nbf" in RESERVED && "exp" in RESERVED
  {
  }

  lemma AccessRead(c: ClaimMap, p: Profile, ms: seq<Grant>, l: Login)
    requires IsAccess(c, p, ms, l)
    ensures Plain(Read(c), p, l) && Read(c).tokenType == Some("access")
  {
    ReadReserved();
    Identity(p, ms, l);
    Times(p, ms, l);
    Types(p, ms, l);
  }

  lemma IdRead(c: ClaimMap, p: Profile, ms: seq<Grant>, l: Login)
    requires IsId(c, p, ms, l)
    ensures Plain(Read(c), p, l) && Read(c).tokenType.None?
  {
    ReadReserved();
    Identity(p, ms, l);
    Times(p, ms, l);
    Types(p, ms, l);
  }

  /** Whatever the hooks added, the claims of an access token are accepted for one issuer,
      one client and the type "access", from 30 seconds before it was issued to 3630 after,
      and only while its user was not revoked after that. */
  lemma AccessAccepted(c: ClaimMap, p: Profile, ms: seq<Grant>, l: Login, now: nat, revokedAt: map<string, nat>,
                       issuer: string, audience: string, tokenType: string)
    requires IsAccess(c, p, ms, l)
    ensures Jwt.ClaimsAccepted(Read(c), now, revokedAt, Some(issuer), Some(audience), Some(tokenType)) <==>
            && issuer == l.issuer && audience == l.client && tokenType == "access"
            && l.now <= now + 30 && now <= l.now + 3630
            && (p.id in revokedAt ==> revokedAt[p.id] <= l.now)
  {
    AccessRead(c, p, ms, l);
  }

  /** An ID token is never taken for an access token. */
  lemma IdIsNoAccess(c: ClaimMap, p: Profile, ms: seq<Grant>, l: Login, now: nat, revokedAt: map<string, nat>,
                     issuer: Option<string>, audience: Option<string>)
    requires IsId(c, p, ms, l)
    ensures !Jwt.ClaimsAccepted(Read(c), now, revokedAt, issuer, audience, Some("access"))
  {
    IdRead(c, p, ms, l);
  }
}
