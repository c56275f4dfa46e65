/**
 * Which credentials a request carries: whether the static API key applies
 * (`requiresAuthentication`), and which domain's bearer token is looked up.
 */
module Credentials {

  import opened Wrappers

  datatype Method = GET | POST | DELETE

  /** The admin endpoints that may be called without the static API key, with the one method each allows. */
  const UnauthenticatedAdminEndpoints: map<string, Method> := map[
    "/admin/auth" := POST,
    "/admin/users/password-token" := POST,
    "/admin/users/reset-password" := POST,
    "/admin/invites/accept" := POST
  ]

  /** `path.startsWith('/admin') && unAuthenticatedAdminEndpoints[path] !== method`. */
  predicate RequiresAuthentication(path: string, verb: Method)
  {
    && "/admin" <= path
    && !(path in UnauthenticatedAdminEndpoints && UnauthenticatedAdminEndpoints[path] == verb)
  }

  /** The decision spelled out: an admin path needs the key unless it is one of the four public POST endpoints. */
  lemma RequiresAuthenticationIff(path: string, verb: Method)
    ensures RequiresAuthentication(path, verb) <==>
      && "/admin" <= path
      && !(verb == POST &&
           path in {"/admin/auth", "/admin/users/password-token", "/admin/users/reset-password", "/admin/invites/accept"})
  {
  }

  lemma RequiresAuthenticationExamples()
    ensures !RequiresAuthentication("/admin/auth", POST)
    ensures RequiresAuthentication("/admin/auth", GET)
    ensures RequiresAuthentication("/admin/orders", GET)
    ensures forall m :: !RequiresAuthentication("/store/orders", m)
  {
    assert "/store/orders"[1] != "/admin"[1];
  }

  /** `s.includes(t)`. */
  predicate Contains(s: string, t: string)
  {
    t <= s || (s != "" && Contains(s[1..], t))
  }

  /** `t` occurs in `s` starting at index `i`. */
  predicate OccursAt(s: string, t: string, i: nat)
  {
    i + |t| <= |s| && s[i..i + |t|] == t
  }

  lemma OccursAtTail(s: string, t: string, i: nat)
    requires s != ""
    ensures OccursAt(s[1..], t, i) <==> OccursAt(s, t, i + 1)
  {
    if i + 1 + |t| <= |s| {
      assert s[1..][i..i + |t|] == s[i + 1..i + 1 + |t|];
    }
  }

  /** `includes` is substring containment at any position. */
  lemma {:induction false} ContainsIff(s: string, t: string)
    ensures Contains(s, t) <==> exists i: nat :: OccursAt(s, t, i)
  {
    assert t <= s <==> OccursAt(s, t, 0);
    if s != "" {
      ContainsIff(s[1..], t);
      if Contains(s[1..], t) {
        var i: nat :| OccursAt(s[1..], t, i);
        OccursAtTail(s, t, i);
      }
      if i: nat :| OccursAt(s, t, i) && i > 0 {
        OccursAtTail(s, t, i - 1);
      }
    } else {
      if i: nat :| OccursAt(s, t, i) {
        assert i == 0;
      }
    }
  }

  datatype Domain = Admin | Store

  /** `path.includes('admin') ? 'admin' : 'store'`. */
  function DomainOf(path: string): Domain
  {
    if Contains(path, "admin") then Admin else Store
  }

  /** The domain is Admin exactly when "admin" occurs anywhere in the path. */
  lemma DomainOfIff(path: string)
    ensures DomainOf(path) == Admin <==> exists i: nat :: OccursAt(path, "admin", i)
  {
    ContainsIff(path, "admin");
  }

  /** Every path that needs the static key is tagged Admin (the converse fails, see below). */
  lemma AuthenticatedPathsAreAdminDomain(path: string, verb: Method)
    requires RequiresAuthentication(path, verb)
    ensures DomainOf(path) == Admin
  {
    assert path[1..6] == "admin";
    assert OccursAt(path, "admin", 1);
    DomainOfIff(path);
  }

  /** A store path with "admin" inside a resource name is tagged Admin yet needs no static key. */
  lemma SubstringDomainExample()
    ensures DomainOf("/store/admin-settings") == Admin
    ensures forall m :: !RequiresAuthentication("/store/admin-settings", m)
  {
    assert OccursAt("/store/admin-settings", "admin", 7);
    DomainOfIff("/store/admin-settings");
    assert "/store/admin-settings"[1] != "/admin"[1];
  }

  /** `t` cannot occur where its first character never stands. */
  lemma NoOccurrence(s: string, t: string)
    requires 0 < |t| <= |s|
    requires t[0] !in s[..|s| - |t| + 1]
    ensures forall i: nat :: !OccursAt(s, t, i)
  {
  }

  lemma DomainExamples()
    ensures DomainOf("/admin/orders") == Admin
    ensures DomainOf("/store/carts") == Store
  {
    AuthenticatedPathsAreAdminDomain("/admin/orders", GET);
    assert "/store/carts"[..8] == "/store/c";
    NoOccurrence("/store/carts", "admin");
    DomainOfIff("/store/carts");
  }

  /** The bearer tokens `JwtTokenManager` holds, one per domain. */
  datatype JwtStore = JwtStore(admin: Option<string>, store: Option<string>)

  /** `JwtTokenManager.getJwt(domain)`. */
  function GetJwt(jwts: JwtStore, domain: Domain): Option<string>
  {
    match domain
    case Admin => jwts.admin
    case Store => jwts.store
  }
}
