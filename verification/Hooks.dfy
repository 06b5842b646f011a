/** Login hooks: the calls a script may make, as filtered by the hook API, and their
    effect on users, tenants and memberships. */
module Hooks {
  import opened Kv

  const RESERVED := ["iss", "sub", "aud", "exp", "iat", "nbf", "nonce", "auth_time", "token_type", "role", "tenant_id",
                     "tenants", "email", "name", "email_verified", "amr", "acr", "scope", "at_hash", "c_hash", "azp"]
  const ROLES := ["owner", "admin", "manager", "member"]

  datatype NewTenant = NewTenant(id: string, name: string, displayName: string)

  datatype Grant = Grant(tenant: string, role: string)

  datatype Outcome = Outcome(
    denied: Option<string>,
    superadmin: Option<bool>,
    active: Option<bool>,
    tenants: seq<NewTenant>,
    grants: seq<Grant>,
    claims: seq<(string, string)>)

  // ----- the API of a script -----

  predicate IdChar(c: char) { 'a' <= c <= 'z' || '0' <= c <= '9' || c == '-' }

  predicate TenantIdOk(id: string) {
    && 2 <= |id| <= 63 && (forall i :: 0 <= i < |id| ==> IdChar(id[i]))
    && id[0] != '-' && id[|id| - 1] != '-'
  }

  ghost predicate OutcomeOk(o: Outcome) {
    && (forall i :: 0 <= i < |o.claims| ==> o.claims[i].0 !in RESERVED)
    && (forall i :: 0 <= i < |o.grants| ==> o.grants[i].role in ROLES)
    && (forall i :: 0 <= i < |o.tenants| ==>
        TenantIdOk(o.tenants[i].id) && o.tenants[i].name != "" && o.tenants[i].displayName != "")
  }

  class Accumulator {
    var outcome: Outcome

    constructor ()
      ensures OutcomeOk(outcome) && outcome == Outcome(None, None, None, [], [], [])
    {
      outcome := Outcome(None, None, None, [], [], []);
    }

    method Deny(reason: string)
      requires OutcomeOk(outcome)
      modifies this
      ensures OutcomeOk(outcome) && outcome == old(outcome).(denied := Some(reason))
    {
      outcome := outcome.(denied := Some(reason));
    }

    method SetSuperadmin(value: bool)
      requires OutcomeOk(outcome)
      modifies this
      ensures OutcomeOk(outcome) && outcome == old(outcome).(superadmin := Some(value))
    {
      outcome := outcome.(superadmin := Some(value));
    }

    method SetActive(value: bool)
      requires OutcomeOk(outcome)
      modifies this
      ensures OutcomeOk(outcome) && outcome == old(outcome).(active := Some(value))
    {
      outcome := outcome.(active := Some(value));
    }

    method AddToTenant(tenant: string, role: string)
      requires OutcomeOk(outcome)
      modifies this
      ensures OutcomeOk(outcome)
      ensures outcome == if role in ROLES then old(outcome).(grants := old(outcome).grants + [Grant(tenant, role)])
              else old(outcome)
    {
      if role in ROLES {
        outcome := outcome.(grants := outcome.grants + [Grant(tenant, role)]);
      }
    }

    method SetClaim(key: string, value: string)
      requires OutcomeOk(outcome)
      modifies this
      ensures OutcomeOk(outcome)
      ensures outcome == if key in RESERVED then old(outcome)
              else old(outcome).(claims := old(outcome).claims + [(key, value)])
    {
      if key !in RESERVED {
        outcome := outcome.(claims := outcome.claims + [(key, value)]);
      }
    }

    method CreateTenant(id: string, name: string, displayName: string)
      requires OutcomeOk(outcome)
      modifies this
      ensures OutcomeOk(outcome)
      ensures outcome == if TenantIdOk(id) && name != "" && displayName != ""
                         then old(outcome).(tenants := old(outcome).tenants + [NewTenant(id, name, displayName)])
                             else old(outcome)
    {
      var valid := 2 <= |id| <= 63;
      if valid {
        for i := 0 to |id|
          invariant valid <==> forall j :: 0 <= j < i ==> IdChar(id[j])
        {
          valid := valid && IdChar(id[i]);
        }
        valid := valid && id[0] != '-' && id[|id| - 1] != '-';
      }
      if valid && name != "" && displayName != "" {
        outcome := outcome.(tenants := outcome.tenants + [NewTenant(id, name, displayName)]);
      }
    }
  }

  // ----- users, tenants and memberships -----

  datatype User = User(superadmin: bool, status: string, rest: nat)

  datatype Tenant = Tenant(name: string, displayName: string, createdAt: nat)

  datatype Membership = Membership(role: string, joinedAt: nat)

  datatype Directory = Directory(
    users: map<string, User>,
    tenants: map<string, Tenant>,
    members: map<(string, string), Membership>)

  /** What the read-modify-write makes of the stored user. */
  function Promoted(u: User, o: Outcome, verification: bool): User {
    var u := if o.superadmin.Some? then u.(superadmin := o.superadmin.value) else u;
    var u := if o.superadmin == Some(true) && !verification then u.(status := "active") else u;
    if o.active.Some? then u.(status := if o.active.value then "active" else "suspended") else u
  }

  /** Whether the user at hand gives reason to write at all. */
  predicate Touches(u: User, o: Outcome, verification: bool) {
    || (o.superadmin.Some? && (u.superadmin != o.superadmin.value
        || (o.superadmin.value && !verification && u.status != "active")))
    || o.active.Some?
  }

  function Created(ts: map<string, Tenant>, t: NewTenant, now: nat): map<string, Tenant> {
    if t.id in ts then ts else ts[t.id := Tenant(t.name, t.displayName, now)]
  }

  function WithTenants(ts: map<string, Tenant>, news: seq<NewTenant>, now: nat): map<string, Tenant> {
    if news == [] then ts else Created(WithTenants(ts, news[..|news| - 1], now), news[|news| - 1], now)
  }

  function Joined(d: Directory, user: string, g: Grant, now: nat): Directory {
    if (g.tenant, user) in d.members then d
    else Directory(d.users, Created(d.tenants, NewTenant(g.tenant, g.tenant, g.tenant), now),
                   d.members[(g.tenant, user) := Membership(g.role, now)])
  }

  function WithGrants(d: Directory, user: string, gs: seq<Grant>, now: nat): Directory {
    if gs == [] then d else Joined(WithGrants(d, user, gs[..|gs| - 1], now), user, gs[|gs| - 1], now)
  }

  /** The whole effect on the directory, for the in-memory user `u`; nothing at all if
      the stored user is missing when it has to be written. */
  function Applied(d: Directory, user: string, u: User, o: Outcome, verification: bool, now: nat): Directory {
    if Touches(u, o, verification) && user !in d.users then d
    else
      var d1 := if Touches(u, o, verification) then d.(users :=
          d.users[user := Promoted(d.users[user], o, verification)]) else d;
      WithGrants(d1.(tenants := WithTenants(d1.tenants, o.tenants, now)), user, o.grants, now)
  }

  class Store {
    var d: Directory

    constructor (d: Directory)
      ensures this.d == d
    {
      this.d := d;
    }

    method UpdateUser(user: string, o: Outcome, verification: bool) returns (ok: bool)
      modifies this
      ensures ok <==> user in old(d).users
      ensures d == if ok then old(d).(users := old(d).users[user := Promoted(old(d).users[user], o, verification)])
              else old(d)
    {
      if user !in d.users { return false; }
      var u := d.users[user];
      match o.superadmin {
        case Some(sa) =>
          if u.superadmin != sa { u := u.(superadmin := sa); }
          if sa && !verification && u.status != "active" { u := u.(status := "active"); }
        case None =>
      }
      match o.active {
        case Some(active) => u := u.(status := if active then "active" else "suspended");
        case None =>
      }
      d := d.(users := d.users[user := u]);
      ok := true;
    }

    method EnsureTenant(t: NewTenant, now: nat)
      modifies this
      ensures d == old(d).(tenants := Created(old(d).tenants, t, now))
    {
      if t.id !in d.tenants {
        d := d.(tenants := d.tenants[t.id := Tenant(t.name, t.displayName, now)]);
      }
    }

    method AddMember(user: string, g: Grant, now: nat)
      modifies this
      ensures d == Joined(old(d), user, g, now)
    {
      if (g.tenant, user) !in d.members {
        EnsureTenant(NewTenant(g.tenant, g.tenant, g.tenant), now);
        d := d.(members := d.members[(g.tenant, user) := Membership(g.role, now)]);
      }
    }

    method ApplyOutcome(user: string, u: User, o: Outcome, verification: bool, now: nat) returns (ok: bool)
      modifies this
      ensures d == Applied(old(d), user, u, o, verification, now)
      ensures !ok ==> d == old(d)
    {
      ok := true;
      if Touches(u, o, verification) {
        ok := UpdateUser(user, o, verification);
        if !ok { return; }
      }
      ghost var d1 := d;
      for i := 0 to |o.tenants|
        invariant d == d1.(tenants := WithTenants(d1.tenants, o.tenants[..i], now))
      {
        assert o.tenants[..i + 1][..i] == o.tenants[..i];
        EnsureTenant(o.tenants[i], now);
      }
      assert o.tenants[..|o.tenants|] == o.tenants;
      ghost var d2 := d;
      for i := 0 to |o.grants|
        invariant d == WithGrants(d2, user, o.grants[..i], now)
      {
        assert o.grants[..i + 1][..i] == o.grants[..i];
        AddMember(user, o.grants[i], now);
      }
      assert o.grants[..|o.grants|] == o.grants;
    }
  }

  // ----- what applying an outcome guarantees -----

  /** The role of the first entry for a tenant. */
  function FirstRole(gs: seq<Grant>, tenant: string): Option<string> {
    if gs == [] then None else if gs[0].tenant == tenant then Some(gs[0].role) else FirstRole(gs[1..], tenant)
  }

  lemma {:induction false} FirstRoleLast(gs: seq<Grant>, g: Grant, tenant: string)
    ensures FirstRole(gs + [g], tenant) ==
            if FirstRole(gs, tenant).Some? then FirstRole(gs, tenant) else if g.tenant == tenant then Some(g.role)
                else None
  {
    if gs == [] {
      assert [] + [g] == [g] && [g][1..] == [];
    } else {
      assert (gs + [g])[1..] == gs[1..] + [g];
      FirstRoleLast(gs[1..], g, tenant);
    }
  }

  /** Memberships that existed stay as they were; a new one has the first listed role. */
  lemma {:induction false} GrantsJoin(d: Directory, user: string, gs: seq<Grant>, now: nat, tenant: string,
      other: string)
    ensures var d' := WithGrants(d, user, gs, now);
            && d'.users == d.users
            && ((tenant, other) in d.members ==>
                (tenant, other) in d'.members && d'.members[(tenant, other)] == d.members[(tenant, other)])
            && (other != user ==> ((tenant, other) in d'.members <==> (tenant, other) in d.members))
            && ((tenant, user) !in d.members ==>
                  && ((tenant, user) in d'.members <==> FirstRole(gs, tenant).Some?)
                  && (FirstRole(gs, tenant).Some? ==>
                      d'.members[(tenant, user)] == Membership(FirstRole(gs, tenant).value, now)))
  {
    if gs != [] {
      var before, g := gs[..|gs| - 1], gs[|gs| - 1];
      GrantsJoin(d, user, before, now, tenant, other);
      FirstRoleLast(before, g, tenant);
      assert gs == before + [g];
    }
  }

  lemma {:induction false} TenantsStay(ts: map<string, Tenant>, news: seq<NewTenant>, now: nat)
    ensures var ts' := WithTenants(ts, news, now);
            && (forall id :: id in ts ==> id in ts' && ts'[id] == ts[id])
            && (forall i :: 0 <= i < |news| ==> news[i].id in ts')
  {
    if news != [] {
      TenantsStay(ts, news[..|news| - 1], now);
    }
  }

  lemma {:induction false} GrantsKeepTenants(d: Directory, user: string, gs: seq<Grant>, now: nat)
    ensures var d' := WithGrants(d, user, gs, now);
            && (forall id :: id in d.tenants ==> id in d'.tenants && d'.tenants[id] == d.tenants[id])
            && (forall k :: k in d.members ==> k in d'.members && d'.members[k] == d.members[k])
            && (forall i :: 0 <= i < |gs| ==> (gs[i].tenant, user) in d'.members)
  {
    if gs != [] {
      GrantsKeepTenants(d, user, gs[..|gs| - 1], now);
    }
  }

  lemma {:induction false} TenantsAgain(ts: map<string, Tenant>, news: seq<NewTenant>, now: nat)
    requires forall i :: 0 <= i < |news| ==> news[i].id in ts
    ensures WithTenants(ts, news, now) == ts
  {
    if news != [] {
      TenantsAgain(ts, news[..|news| - 1], now);
    }
  }

  lemma {:induction false} GrantsAgain(d: Directory, user: string, gs: seq<Grant>, now: nat)
    requires forall i :: 0 <= i < |gs| ==> (gs[i].tenant, user) in d.members
    ensures WithGrants(d, user, gs, now) == d
  {
    if gs != [] {
      GrantsAgain(d, user, gs[..|gs| - 1], now);
    }
  }

  lemma PromotedTwice(u: User, o: Outcome, verification: bool)
    ensures Promoted(Promoted(u, o, verification), o, verification) == Promoted(u, o, verification)
    ensures !Touches(u, o, verification) ==> Promoted(u, o, verification) == u
  {
  }

  /** Applying the same outcome again, at any later time and with the user read afresh,
      changes nothing. */
  lemma Idempotent(d: Directory, user: string, o: Outcome, verification: bool, now: nat, later: nat)
    requires user in d.users
    ensures var d' := Applied(d, user, d.users[user], o, verification, now);
            user in d'.users && Applied(d', user, d'.users[user], o, verification, later) == d'
  {
    var u := d.users[user];
    var d1 := if Touches(u, o, verification) then d.(users := d.users[user := Promoted(u, o, verification)]) else d;
    var d2 := d1.(tenants := WithTenants(d1.tenants, o.tenants, now));
    var d' := WithGrants(d2, user, o.grants, now);
    GrantsJoin(d2, user, o.grants, now, "", "");
    TenantsStay(d1.tenants, o.tenants, now);
    GrantsKeepTenants(d2, user, o.grants, now);
    PromotedTwice(u, o, verification);
    assert d'.users == d1.users && Promoted(d'.users[user], o, verification) == d'.users[user];
    assert d'.users[user := d'.users[user]] == d'.users;
    TenantsAgain(d'.tenants, o.tenants, later);
    GrantsAgain(d', user, o.grants, later);
  }

  /** No membership loses or changes its role; for duplicate entries the first listed
      role wins; other users' memberships and records are untouched. */
  lemma RolesKept(d: Directory, user: string, u: User, o: Outcome, verification: bool, now: nat, tenant: string,
      other: string)
    requires user in d.users
    ensures var d' := Applied(d, user, u, o, verification, now);
            && ((tenant, other) in d.members ==>
                (tenant, other) in d'.members && d'.members[(tenant, other)] == d.members[(tenant, other)])
            && (other != user ==> ((tenant, other) in d'.members <==> (tenant, other) in d.members))
            && ((tenant, user) !in d.members ==>
                  && ((tenant, user) in d'.members <==> FirstRole(o.grants, tenant).Some?)
                  && (FirstRole(o.grants, tenant).Some? ==>
                      d'.members[(tenant, user)].role == FirstRole(o.grants, tenant).value))
            && (other != user && other in d.users ==> other in d'.users && d'.users[other] == d.users[other])
            && user in d'.users && d'.users[user].rest == d.users[user].rest
  {
    var d1 := if Touches(u, o, verification) then d.(users :=
        d.users[user := Promoted(d.users[user], o, verification)]) else d;
    GrantsJoin(d1.(tenants := WithTenants(d1.tenants, o.tenants, now)), user, o.grants, now, tenant, other);
  }

  /** With a user read afresh, the stored user ends as the outcome says. */
  lemma UserAsTold(d: Directory, user: string, o: Outcome, verification: bool, now: nat)
    requires user in d.users
    ensures var u := Applied(d, user, d.users[user], o, verification, now).users;
            && user in u
            && (o.superadmin.Some? ==> u[user].superadmin == o.superadmin.value)
            && (o.active.Some? ==> u[user].status == if o.active.value then "active" else "suspended")
            && (o.active.None? && o.superadmin == Some(true) && !verification ==> u[user].status == "active")
            && (o.active.None? && o.superadmin != Some(true) ==> u[user].status == d.users[user].status)
  {
    var d1 := if Touches(d.users[user], o, verification) then d.(users :=
        d.users[user := Promoted(d.users[user], o, verification)]) else d;
    GrantsJoin(d1.(tenants := WithTenants(d1.tenants, o.tenants, now)), user, o.grants, now, "", "");
    PromotedTwice(d.users[user], o, verification);
  }

  // ----- tenants -----

  /** The first entry for a tenant among those a script created. */
  function FirstNamed(news: seq<NewTenant>, id: string): Option<NewTenant> {
    if news == [] then None else if news[0].id == id then Some(news[0]) else FirstNamed(news[1..], id)
  }

  lemma {:induction false} FirstNamedLast(news: seq<NewTenant>, t: NewTenant, id: string)
    ensures FirstNamed(news + [t], id) ==
            if FirstNamed(news, id).Some? then FirstNamed(news, id) else if t.id == id then Some(t) else None
  {
    if news == [] {
      assert [] + [t] == [t] && [t][1..] == [];
    } else {
      assert (news + [t])[1..] == news[1..] + [t];
      FirstNamedLast(news[1..], t, id);
    }
  }

  lemma {:induction false} TenantsMade(ts: map<string, Tenant>, news: seq<NewTenant>, now: nat, id: string)
    requires id !in ts
    ensures var ts' := WithTenants(ts, news, now);
            && (id in ts' <==> FirstNamed(news, id).Some?)
            && (id in ts' ==>
                  ts'[id] == Tenant(FirstNamed(news, id).value.name, FirstNamed(news, id).value.displayName, now))
  {
    if news != [] {
      var before, t := news[..|news| - 1], news[|news| - 1];
      TenantsMade(ts, before, now, id);
      FirstNamedLast(before, t, id);
      assert news == before + [t];
    }
  }

  lemma {:induction false} GrantsMake(d: Directory, user: string, gs: seq<Grant>, now: nat, id: string)
    requires id !in d.tenants
    ensures var d' := WithGrants(d, user, gs, now);
            && (id in d'.tenants <==> FirstRole(gs, id).Some? && (id, user) !in d.members)
            && (id in d'.tenants ==> d'.tenants[id] == Tenant(id, id, now))
  {
    if gs != [] {
      var before, g := gs[..|gs| - 1], gs[|gs| - 1];
      GrantsMake(d, user, before, now, id);
      GrantsJoin(d, user, before, now, id, user);
      FirstRoleLast(before, g, id);
      assert gs == before + [g];
    }
  }

  /** Where a tenant comes from: one that existed stays as it was; one the script created
      has the names of the first entry for it; one only granted bears its id as both names;
      and there are no others. */
  lemma TenantsNamed(d: Directory, user: string, u: User, o: Outcome, verification: bool, now: nat, id: string)
    requires user in d.users
    ensures var ts, first := Applied(d, user, u, o, verification, now).tenants, FirstNamed(o.tenants, id);
            && (id in d.tenants ==> id in ts && ts[id] == d.tenants[id])
            && (id !in d.tenants && first.Some? ==>
                  id in ts && ts[id] == Tenant(first.value.name, first.value.displayName, now))
            && (id !in d.tenants && first.None? ==>
                  && (id in ts <==> FirstRole(o.grants, id).Some? && (id, user) !in d.members)
                  && (id in ts ==> ts[id] == Tenant(id, id, now)))
  {
    var d1 := if Touches(u, o, verification) then d.(users :=
        d.users[user := Promoted(d.users[user], o, verification)]) else d;
    var d2 := d1.(tenants := WithTenants(d1.tenants, o.tenants, now));
    TenantsStay(d.tenants, o.tenants, now);
    GrantsKeepTenants(d2, user, o.grants, now);
    if id !in d.tenants {
      TenantsMade(d.tenants, o.tenants, now, id);
      if FirstNamed(o.tenants, id).None? {
        GrantsMake(d2, user, o.grants, now, id);
      }
    }
  }

  /** Every membership is of a tenant that exists. */
  ghost predicate Housed(d: Directory) { forall k :: k in d.members ==> k.0 in d.tenants }

  lemma {:induction false} GrantsHouse(d: Directory, user: string, gs: seq<Grant>, now: nat)
    requires Housed(d)
    ensures Housed(WithGrants(d, user, gs, now))
  {
    if gs != [] {
      GrantsHouse(d, user, gs[..|gs| - 1], now);
    }
  }

  /** No outcome leaves a membership without its tenant. */
  lemma MembersHoused(d: Directory, user: string, u: User, o: Outcome, verification: bool, now: nat)
    requires Housed(d)
    ensures Housed(Applied(d, user, u, o, verification, now))
  {
    if !Touches(u, o, verification) || user in d.users {
      var d1 := if Touches(u, o, verification) then d.(users :=
          d.users[user := Promoted(d.users[user], o, verification)]) else d;
      TenantsStay(d.tenants, o.tenants, now);
      GrantsHouse(d1.(tenants := WithTenants(d1.tenants, o.tenants, now)), user, o.grants, now);
    }
  }
}
