/** Turning the claims of a validated OpenID (Keycloak) token into user
    details: the subject becomes the user id and the roles are collected from
    the realm and from two client sections of the claims. */
module OpenId {

  import opened Wrappers
  import Json
  import Users

  /** The standard claims the pipeline reads. */
  datatype StandardClaims = StandardClaims(sub: string, exp: int)

  /** Standard claims plus every other claim, as a JSON tree. */
  datatype ExtendedClaims = ExtendedClaims(standardClaims: StandardClaims, extendedClaims: Json.Value)

  const REALM_ROLES: seq<string> := ["realm_access", "roles"]

  /** The clients whose roles are collected, in this order. */
  const CLIENTS: seq<string> := ["services", "drogue"]

  function ClientRolesPath(client: string): seq<string>
  {
    ["resource_access", client, "roles"]
  }

  /** The array found at `path`, or nothing when the path is missing or does
      not lead to an array. */
  function ArrayAt(v: Json.Value, path: seq<string>): seq<Json.Value>
  {
    match Json.AsArray(Json.Path(v, path))
    case Some(items) => items
    case None => []
  }

  /** `filter_map(as_str)`: the string entries of an array, in order. */
  function StringEntries(items: seq<Json.Value>): (r: seq<string>)
    ensures |r| <= |items|
    ensures forall s :: s in r <==> Json.String(s) in items
  {
    if items == [] then []
    else
      var rest := StringEntries(items[1..]);
      assert items == [items[0]] + items[1..];
      match Json.AsStr(items[0])
      case Some(s) => [s] + rest
      case None => rest
  }

  /** A single entry is kept exactly when it is a string. */
  lemma StringEntriesSingle(v: Json.Value)
    ensures v.String? ==> StringEntries([v]) == [v.s]
    ensures !v.String? ==> StringEntries([v]) == []
  {
    assert [v][1..] == [];
  }

  /** Filtering distributes over concatenation, so the kept entries stay in
      the order of the array. */
  lemma {:induction false} StringEntriesAppend(a: seq<Json.Value>, b: seq<Json.Value>)
    ensures StringEntries(a + b) == StringEntries(a) + StringEntries(b)
    decreases |a|
  {
    if a == [] {
      assert a + b == b;
    } else {
      assert (a + b)[0] == a[0];
      assert (a + b)[1..] == a[1..] + b;
      StringEntriesAppend(a[1..], b);
    }
  }

  /** Every string entry is kept as often as it occurs and nothing else is. */
  lemma {:induction false} StringEntriesCount(items: seq<Json.Value>, s: string)
    ensures multiset(StringEntries(items))[s] == multiset(items)[Json.String(s)]
  {
    if items != [] {
      StringEntriesCount(items[1..], s);
      assert items == [items[0]] + items[1..];
    }
  }

  /** The roles at `path`. */
  function RolesAt(v: Json.Value, path: seq<string>): seq<string>
  {
    StringEntries(ArrayAt(v, path))
  }

  /** The roles of the first clients of `clients`, client after client. */
  function ClientRoles(v: Json.Value, clients: seq<string>): seq<string>
    decreases |clients|
  {
    if clients == [] then []
    else ClientRoles(v, clients[..|clients| - 1]) + RolesAt(v, ClientRolesPath(clients[|clients| - 1]))
  }

  /** All roles granted by a token. */
  function ClaimRoles(claims: ExtendedClaims): seq<string>
  {
    RolesAt(claims.extendedClaims, REALM_ROLES) + ClientRoles(claims.extendedClaims, CLIENTS)
  }

  /** `From<ExtendedClaims> for UserDetails`, as the value it produces. */
  function ToUserDetails(claims: ExtendedClaims): (d: Users.UserDetails)
    ensures d.userId == claims.standardClaims.sub
    ensures d.claims.None?
  {
    Users.UserDetails(claims.standardClaims.sub, ClaimRoles(claims), None)
  }

  /** The roles come from `realm_access.roles`, then
      `resource_access.services.roles`, then `resource_access.drogue.roles`. */
  lemma ClaimRolesOrder(claims: ExtendedClaims)
    ensures var v := claims.extendedClaims;
      ClaimRoles(claims) ==
        RolesAt(v, ["realm_access", "roles"])
        + RolesAt(v, ["resource_access", "services", "roles"])
        + RolesAt(v, ["resource_access", "drogue", "roles"])
  {
    var v := claims.extendedClaims;
    assert CLIENTS[..1] == ["services"];
    assert CLIENTS[..0] == [];
    assert ClientRoles(v, CLIENTS) == ClientRoles(v, ["services"]) + RolesAt(v, ClientRolesPath("drogue"));
  }

  /** A role occurs in the result exactly as often as it occurs as a string
      entry of the three arrays together: duplicates are kept, other entries
      and missing or non-array paths contribute nothing. */
  lemma RoleCount(claims: ExtendedClaims, role: string)
    ensures var v := claims.extendedClaims;
      multiset(ClaimRoles(claims))[role] ==
        multiset(ArrayAt(v, ["realm_access", "roles"]))[Json.String(role)]
        + multiset(ArrayAt(v, ["resource_access", "services", "roles"]))[Json.String(role)]
        + multiset(ArrayAt(v, ["resource_access", "drogue", "roles"]))[Json.String(role)]
  {
    var v := claims.extendedClaims;
    ClaimRolesOrder(claims);
    StringEntriesCount(ArrayAt(v, ["realm_access", "roles"]), role);
    StringEntriesCount(ArrayAt(v, ["resource_access", "services", "roles"]), role);
    StringEntriesCount(ArrayAt(v, ["resource_access", "drogue", "roles"]), role);
  }

  /** The conversion as the source writes it: a mutable role list, extended
      by the realm roles and then by the roles of each client in turn. */
  method UserDetailsFrom(claims: ExtendedClaims) returns (d: Users.UserDetails)
    ensures d == ToUserDetails(claims)
  {
    var v := claims.extendedClaims;
    var roles: seq<string> := [];

    var r := Json.Path(v, REALM_ROLES);
    match Json.AsArray(r) {
      case Some(items) => roles := roles + StringEntries(items);
      case None =>
    }

    for k := 0 to |CLIENTS|
      invariant roles == RolesAt(v, REALM_ROLES) + ClientRoles(v, CLIENTS[..k])
    {
      var client := CLIENTS[k];
      r := Json.Path(v, ClientRolesPath(client));
      match Json.AsArray(r) {
        case Some(items) => roles := roles + StringEntries(items);
        case None =>
      }
      assert CLIENTS[..k + 1][..k] == CLIENTS[..k];
    }
    assert CLIENTS[..|CLIENTS|] == CLIENTS;

    d := Users.UserDetails(claims.standardClaims.sub, roles, None);
  }
}
