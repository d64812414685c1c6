/**
 The reconciliation of the identity realm: a plan of printed actions from a snapshot,
 and their application, over an abstract realm.
 */
module KeycloakSync {
  import opened Outcomes

  const MANAGEMENT_CLIENT := "tradingng-user-admin"
  const WEB_CLIENT := "tradingng-web"
  const REALM_MANAGEMENT := "realm-management"
  const LEGACY_ROLES: set<string> := {"Analyst", "Viewer"}
  const REVIEW_SCOPE := "assessments:review"
  const MANAGE_SCOPE := "users:manage"
  const REQUIRED_SCOPES: set<string> := {REVIEW_SCOPE, MANAGE_SCOPE}
  const REQUIRED_SERVICE_ROLES: set<string> := {"query-users", "view-users", "manage-users", "view-realm"}

  datatype User = User(id: string, enabled: bool, roles: set<string>)

  /** Roles, client scopes and clients by name; what the web client and the service account were given. */
  datatype Realm = Realm(
    roles: set<string>,
    scopes: set<string>,
    clients: set<string>,
    webScopes: set<string>,
    serviceRoles: set<string>,
    users: seq<User>)

  // ---------------------------------------------------------------------
  // Actions and their texts
  // ---------------------------------------------------------------------

  datatype Action =
    | CreateRole(role: string)
    | CreateScope(scope: string)
    | CreateClient
    | GrantServiceRoles
    | AttachWebScope(scope: string)
    | MigrateUser(id: string, role: string)
    | LogoutUser(id: string)
    | RemoveRole(role: string)

  function KindOf(a: Action): string {
    match a
    case CreateRole(_) => "create_role"
    case CreateScope(_) => "create_scope"
    case CreateClient => "create_client"
    case GrantServiceRoles => "grant_service_roles"
    case AttachWebScope(_) => "attach_web_scope"
    case MigrateUser(_, _) => "migrate_user"
    case LogoutUser(_) => "logout_user"
    case RemoveRole(_) => "remove_role"
  }

  function ValueOf(a: Action): string {
    match a
    case CreateRole(role) => role
    case CreateScope(scope) => scope
    case CreateClient => MANAGEMENT_CLIENT
    case GrantServiceRoles => MANAGEMENT_CLIENT
    case AttachWebScope(scope) => scope
    case MigrateUser(id, role) => id + ":" + role
    case LogoutUser(id) => id
    case RemoveRole(role) => role
  }

  function Show(a: Action): string {
    KindOf(a) + ":" + ValueOf(a)
  }

  /** The place of the first colon, or the length. */
  function FirstColon(s: string): (n: nat)
    ensures n <= |s| && (n < |s| ==> s[n] == ':') && forall i :: 0 <= i < n ==> s[i] != ':'
  {
    if |s| == 0 || s[0] == ':' then 0 else 1 + FirstColon(s[1..])
  }

  /** The place of the last colon, or the length when there is none. */
  function LastColon(s: string): (n: nat)
    ensures n <= |s| && (n < |s| ==> s[n] == ':') && forall i :: n < i < |s| ==> s[i] != ':'
    ensures n == |s| ==> forall i :: 0 <= i < |s| ==> s[i] != ':'
  {
    if |s| == 0 then 0
    else if s[|s| - 1] == ':' then |s| - 1
    else
      var n := LastColon(s[..|s| - 1]);
      if n == |s| - 1 then |s| else n
  }

  datatype Parsed = Parsed(kind: string, value: string, secondary: Option<string>)

  /** `parse_action`: the kind ends at the first colon, the role of a migration starts at the last. */
  function ParseAction(text: string): Result<Parsed, string> {
    var n := FirstColon(text);
    if n == |text| || n == 0 || n == |text| - 1 then Err("invalid reconciliation action")
    else
      var kind, value := text[..n], text[n + 1..];
      if kind == "migrate_user" then
        var m := LastColon(value);
        if m == |value| || m == 0 || value[m + 1..] !in {"Admin", "User"} then Err("invalid user migration action")
        else Ok(Parsed(kind, value[..m], Some(value[m + 1..])))
      else Ok(Parsed(kind, value, None))
  }

  function ParsedForm(a: Action): Parsed {
    match a
    case MigrateUser(id, role) => Parsed(KindOf(a), id, Some(role))
    case _ => Parsed(KindOf(a), ValueOf(a), None)
  }

  predicate NamesSomething(a: Action) {
    match a
    case CreateRole(role) => role != ""
    case CreateScope(scope) => scope != ""
    case AttachWebScope(scope) => scope != ""
    case MigrateUser(id, role) => id != "" && role in {"Admin", "User"}
    case LogoutUser(id) => id != ""
    case RemoveRole(role) => role != ""
    case _ => true
  }

  lemma KindsHaveNoColon(a: Action)
    ensures KindOf(a) != "" && forall i :: 0 <= i < |KindOf(a)| ==> KindOf(a)[i] != ':'
    ensures KindOf(a) == "migrate_user" <==> a.MigrateUser?
  {
    assert |"migrate_user"| == 12 && |"create_role"| == 11 && |"create_scope"| == 12 && |"create_client"| == 13
      && |"grant_service_roles"| == 19 && |"attach_web_scope"| == 16 && |"logout_user"| == 11 && |"remove_role"| == 11;
    assert "create_scope"[0] == 'c' && "migrate_user"[0] == 'm';
  }

  lemma LastColonOf(id: string, role: string)
    requires forall i :: 0 <= i < |role| ==> role[i] != ':'
    ensures var s := id + ":" + role; LastColon(s) == |id| && s[..|id|] == id && s[|id| + 1..] == role
  {
    var s := id + ":" + role;
    assert s[|id|] == ':';
    assert forall i :: |id| < i < |s| ==> s[i] == role[i - |id| - 1];
  }

  lemma RolesHaveNoColon(role: string)
    requires role in {"Admin", "User"}
    ensures forall i :: 0 <= i < |role| ==> role[i] != ':'
  {
  }

  lemma FirstColonOf(kind: string, value: string)
    requires forall i :: 0 <= i < |kind| ==> kind[i] != ':'
    ensures var s := kind + ":" + value; FirstColon(s) == |kind| && s[..|kind|] == kind && s[|kind| + 1..] == value
  {
    var s := kind + ":" + value;
    assert s[|kind|] == ':';
    assert forall i :: 0 <= i < |kind| ==> s[i] == kind[i];
  }

  /** How a text with a proper kind is read. */
  function ParseValue(kind: string, value: string): Result<Parsed, string> {
    if value == "" then Err("invalid reconciliation action")
    else if kind == "migrate_user" then
      var m := LastColon(value);
      if m == |value| || m == 0 || value[m + 1..] !in {"Admin", "User"} then Err("invalid user migration action")
      else Ok(Parsed(kind, value[..m], Some(value[m + 1..])))
    else Ok(Parsed(kind, value, None))
  }

  lemma ShownParts(a: Action)
    ensures ParseAction(Show(a)) == ParseValue(KindOf(a), ValueOf(a))
  {
    KindsHaveNoColon(a);
    hide KindOf, ValueOf;
    FirstColonOf(KindOf(a), ValueOf(a));
  }

  /** An action parses back to itself exactly when it names something, even when user ids contain colons. */
  lemma ShownActionParses(a: Action)
    ensures ParseAction(Show(a)) == Ok(ParsedForm(a)) <==> NamesSomething(a)
  {
    ShownParts(a);
    KindsHaveNoColon(a);
    hide KindOf, ParseAction;
    if a.MigrateUser? && a.role in {"Admin", "User"} {
      RolesHaveNoColon(a.role);
      LastColonOf(a.id, a.role);
    }
  }

  predicate HasProperRole(a: Action) {
    a.MigrateUser? ==> a.role in {"Admin", "User"}
  }

  /** An action with a proper role that names nothing is refused. */
  lemma UnnamedIsRefused(a: Action)
    requires HasProperRole(a) && !NamesSomething(a)
    ensures ParseAction(Show(a)).Err?
  {
    ShownParts(a);
    if a.MigrateUser? { EmptyIdDoesNotParse(a.role); }
  }

  /** With an empty user id neither a migration nor a logout can be read back. */
  lemma EmptyIdDoesNotParse(role: string)
    requires role in {"Admin", "User"}
    ensures ParseAction(Show(MigrateUser("", role))).Err? && ParseAction(Show(LogoutUser(""))).Err?
  {
    ShownParts(MigrateUser("", role));
    ShownParts(LogoutUser(""));
    hide ParseAction;
    RolesHaveNoColon(role);
    LastColonOf("", role);
  }

  // ---------------------------------------------------------------------
  // The plan
  // ---------------------------------------------------------------------

  /** What the snapshot reads: attachments of clients that do not exist are not seen. */
  function Snapshot(r: Realm): Result<Realm, string> {
    if MANAGEMENT_CLIENT in r.clients && REALM_MANAGEMENT !in r.clients then Err("expected one Keycloak client")
    else
      Ok(r.(webScopes := if WEB_CLIENT in r.clients then r.webScopes else {},
            serviceRoles := if MANAGEMENT_CLIENT in r.clients then r.serviceRoles else {}))
  }

  predicate HasEnabledAdmin(users: seq<User>) {
    exists i :: 0 <= i < |users| && users[i].enabled && "Admin" in users[i].roles
  }

  function When(b: bool, a: Action): seq<Action> {
    if b then [a] else []
  }

  function TargetRole(u: User): string {
    if "Admin" in u.roles then "Admin" else "User"
  }

  predicate IsLegacy(u: User) {
    u.roles * LEGACY_ROLES != {}
  }

  function PlanUser(u: User): seq<Action> {
    if IsLegacy(u) then [MigrateUser(u.id, TargetRole(u)), LogoutUser(u.id)] else []
  }

  function PlanUsers(users: seq<User>): seq<Action> {
    if |users| == 0 then [] else PlanUsers(users[..|users| - 1]) + PlanUser(users[|users| - 1])
  }

  function PlanCreations(s: Realm): seq<Action> {
    When("User" !in s.roles, CreateRole("User"))
    + When(REVIEW_SCOPE !in s.scopes, CreateScope(REVIEW_SCOPE))
    + When(MANAGE_SCOPE !in s.scopes, CreateScope(MANAGE_SCOPE))
    + When(MANAGEMENT_CLIENT !in s.clients, CreateClient)
  }

  function PlanGrants(s: Realm): seq<Action> {
    When(!(s.serviceRoles >= REQUIRED_SERVICE_ROLES), GrantServiceRoles)
    + When(REVIEW_SCOPE !in s.webScopes, AttachWebScope(REVIEW_SCOPE))
    + When(MANAGE_SCOPE !in s.webScopes, AttachWebScope(MANAGE_SCOPE))
  }

  function PlanRemovals(s: Realm): seq<Action> {
    When("Analyst" in s.roles, RemoveRole("Analyst")) + When("Viewer" in s.roles, RemoveRole("Viewer"))
  }

  /** `plan`. */
  function Plan(s: Realm): Result<seq<Action>, string> {
    if !HasEnabledAdmin(s.users) then Err("at least one enabled Admin is required")
    else Ok(PlanCreations(s) + PlanGrants(s) + PlanUsers(s.users) + PlanRemovals(s))
  }

  predicate HoldsLegacyRole(u: User) {
    "Analyst" in u.roles || "Viewer" in u.roles
  }

  /** What a realm needs, read off the realm alone. */
  ghost predicate IsNeeded(s: Realm, a: Action) {
    match a
    case CreateRole(role) => role == "User" && "User" !in s.roles
    case CreateScope(scope) => (scope == REVIEW_SCOPE || scope == MANAGE_SCOPE) && scope !in s.scopes
    case CreateClient => MANAGEMENT_CLIENT !in s.clients
    case GrantServiceRoles =>
      exists role :: role in {"query-users", "view-users", "manage-users", "view-realm"} && role !in s.serviceRoles
    case AttachWebScope(scope) => (scope == REVIEW_SCOPE || scope == MANAGE_SCOPE) && scope !in s.webScopes
    case MigrateUser(id, role) => IsUserNeed(s.users, a)
    case LogoutUser(id) => IsUserNeed(s.users, a)
    case RemoveRole(role) => (role == "Analyst" || role == "Viewer") && role in s.roles
  }

  /** The migration of a user with a legacy role, to Admin for whoever is one, or that user's logout. */
  ghost predicate IsNeedOf(u: User, a: Action) {
    && HoldsLegacyRole(u)
    && (a == LogoutUser(u.id) || a == MigrateUser(u.id, if "Admin" in u.roles then "Admin" else "User"))
  }

  ghost predicate IsUserNeed(users: seq<User>, a: Action) {
    exists i :: 0 <= i < |users| && IsNeedOf(users[i], a)
  }

  /** Migrations and logouts come in pairs: right behind each migration the same user is logged out. */
  ghost predicate LogsOutMigrated(actions: seq<Action>) {
    && (forall k :: 0 <= k < |actions| && actions[k].MigrateUser? ==>
          k + 1 < |actions| && actions[k + 1] == LogoutUser(actions[k].id))
    && (forall k :: 0 <= k < |actions| && actions[k].LogoutUser? ==>
          k > 0 && actions[k - 1].MigrateUser? && actions[k - 1].id == actions[k].id)
  }

  lemma PairsInParts(a: seq<Action>, b: seq<Action>)
    requires LogsOutMigrated(a) && LogsOutMigrated(b)
    ensures LogsOutMigrated(a + b)
  {
    var c := a + b;
    forall k | 0 <= k < |c| && c[k].MigrateUser? ensures k + 1 < |c| && c[k + 1] == LogoutUser(c[k].id) {
      if k >= |a| { assert c[k] == b[k - |a|]; }
    }
    forall k | 0 <= k < |c| && c[k].LogoutUser?
      ensures k > 0 && c[k - 1].MigrateUser? && c[k - 1].id == c[k].id
    {
      if k >= |a| { assert c[k] == b[k - |a|] && c[k - 1] == b[k - |a| - 1]; }
    }
  }

  lemma {:induction false} UsersArePlanned(users: seq<User>)
    ensures forall a :: a in PlanUsers(users) <==> IsUserNeed(users, a)
    ensures LogsOutMigrated(PlanUsers(users))
  {
    if |users| > 0 {
      hide PlanUser, LogsOutMigrated, IsUserNeed;
      var before, last := users[..|users| - 1], users[|users| - 1];
      UsersArePlanned(before);
      OneUserIsPlanned(last);
      PairsInParts(PlanUsers(before), PlanUser(last));
      forall a ensures a in PlanUsers(users) <==> IsUserNeed(users, a) {
        OneMoreUser(users, a);
      }
    } else {
      hide PlanUser;
    }
  }

  lemma OneUserIsPlanned(u: User)
    ensures forall a :: a in PlanUser(u) <==> IsNeedOf(u, a)
    ensures LogsOutMigrated(PlanUser(u))
  {
    LegacyRoles(u);
    hide IsLegacy;
  }

  lemma LegacyRoles(u: User)
    ensures IsLegacy(u) <==> HoldsLegacyRole(u)
  {
    if IsLegacy(u) {
      var role :| role in u.roles * LEGACY_ROLES;
    }
    assert "Analyst" in LEGACY_ROLES && "Viewer" in LEGACY_ROLES;
    if "Analyst" in u.roles { assert "Analyst" in u.roles * LEGACY_ROLES; }
    if "Viewer" in u.roles { assert "Viewer" in u.roles * LEGACY_ROLES; }
  }

  lemma OneMoreUser(users: seq<User>, a: Action)
    requires |users| > 0
    ensures IsUserNeed(users, a) <==>
            IsUserNeed(users[..|users| - 1], a) || IsNeedOf(users[|users| - 1], a)
  {
    hide IsNeedOf;
    var before := users[..|users| - 1];
    assert forall i :: 0 <= i < |before| ==> before[i] == users[i];
  }

  lemma FixedNeeds(s: Realm, a: Action)
    ensures a in PlanCreations(s) <==> IsNeeded(s, a) && (a.CreateRole? || a.CreateScope? || a.CreateClient?)
    ensures a in PlanGrants(s) <==> IsNeeded(s, a) && (a.GrantServiceRoles? || a.AttachWebScope?)
    ensures a in PlanRemovals(s) <==> IsNeeded(s, a) && a.RemoveRole?
  {
    assert REQUIRED_SERVICE_ROLES == {"query-users", "view-users", "manage-users", "view-realm"};
    assert |"Analyst"| == 7 && |"Viewer"| == 6 && |REVIEW_SCOPE| == 18 && |MANAGE_SCOPE| == 12;
  }

  lemma NeedsByKind(s: Realm, a: Action)
    ensures (a in PlanCreations(s) || a in PlanGrants(s) || a in PlanUsers(s.users) || a in PlanRemovals(s))
            <==> IsNeeded(s, a)
  {
    UsersArePlanned(s.users);
    hide PlanCreations, PlanGrants, PlanRemovals, PlanUsers, IsUserNeed, LogsOutMigrated;
    FixedNeeds(s, a);
    if a.MigrateUser? || a.LogoutUser? {
      assert IsNeeded(s, a) <==> IsUserNeed(s.users, a);
    } else {
      OnlyUserActions(s.users, a);
    }
  }

  lemma OnlyUserActions(users: seq<User>, a: Action)
    ensures IsUserNeed(users, a) ==> a.MigrateUser? || a.LogoutUser?
  {
  }

  lemma NoUsersNoPairs(actions: seq<Action>)
    requires forall a :: a in actions ==> !a.MigrateUser? && !a.LogoutUser?
    ensures LogsOutMigrated(actions)
  {
  }

  lemma FixedPairs(s: Realm)
    ensures LogsOutMigrated(PlanCreations(s)) && LogsOutMigrated(PlanGrants(s)) && LogsOutMigrated(PlanRemovals(s))
  {
    hide PlanCreations, PlanGrants, PlanRemovals, IsNeeded, LogsOutMigrated;
    forall a ensures (a in PlanCreations(s) || a in PlanGrants(s) || a in PlanRemovals(s)) ==>
                       !a.MigrateUser? && !a.LogoutUser?
    {
      FixedNeeds(s, a);
    }
    NoUsersNoPairs(PlanCreations(s));
    NoUsersNoPairs(PlanGrants(s));
    NoUsersNoPairs(PlanRemovals(s));
  }

  /** A plan holds exactly what the realm needs, and logs every migrated user out right behind the migration. */
  lemma PlanIsWhatIsNeeded(s: Realm, actions: seq<Action>)
    requires Plan(s) == Ok(actions)
    ensures forall a :: a in actions <==> IsNeeded(s, a)
    ensures LogsOutMigrated(actions)
  {
    hide PlanCreations, PlanGrants, PlanRemovals, PlanUsers, IsNeeded, LogsOutMigrated, HasEnabledAdmin;
    var creations, grants, users, removals :=
      PlanCreations(s), PlanGrants(s), PlanUsers(s.users), PlanRemovals(s);
    forall a ensures a in actions <==> IsNeeded(s, a) {
      NeedsByKind(s, a);
    }
    UsersArePlanned(s.users);
    FixedPairs(s);
    PairsInParts(creations, grants);
    PairsInParts(creations + grants, users);
    PairsInParts(creations + grants + users, removals);
  }

  // ---------------------------------------------------------------------
  // Applying actions
  // ---------------------------------------------------------------------

  function WithRoles(users: seq<User>, id: string, roles: set<string>): seq<User> {
    seq(|users|, i requires 0 <= i < |users| => if users[i].id == id then users[i].(roles := roles) else users[i])
  }

  function WithoutRole(users: seq<User>, role: string): seq<User> {
    seq(|users|, i requires 0 <= i < |users| => users[i].(roles := users[i].roles - {role}))
  }

  function FindUser(users: seq<User>, id: string): Option<User> {
    if |users| == 0 then None else if users[0].id == id then Some(users[0]) else FindUser(users[1..], id)
  }

  function Check(b: bool, r: Realm): Result<Realm, string> {
    if b then Ok(r) else Err("refused by Keycloak")
  }

  /** One action; Keycloak refuses to create what exists and to use what does not. */
  function Apply(r: Realm, a: Action): Result<Realm, string> {
    match a
    case CreateRole(role) => Check(role !in r.roles, r.(roles := r.roles + {role}))
    case CreateScope(scope) => Check(scope !in r.scopes, r.(scopes := r.scopes + {scope}))
    case CreateClient =>
      Check(MANAGEMENT_CLIENT !in r.clients, r.(clients := r.clients + {MANAGEMENT_CLIENT}, serviceRoles := {}))
    case GrantServiceRoles =>
      Check(MANAGEMENT_CLIENT in r.clients && REALM_MANAGEMENT in r.clients,
            r.(serviceRoles := r.serviceRoles + REQUIRED_SERVICE_ROLES))
    case AttachWebScope(scope) =>
      Check(WEB_CLIENT in r.clients && scope in r.scopes, r.(webScopes := r.webScopes + {scope}))
    case MigrateUser(id, role) =>
      (match FindUser(r.users, id)
       case None => Err("refused by Keycloak")
       case Some(u) =>
         Check(role in u.roles || role in r.roles,
               r.(users := WithRoles(r.users, id, u.roles - LEGACY_ROLES + {role}))))
    case LogoutUser(id) => Check(FindUser(r.users, id).Some?, r)
    case RemoveRole(role) =>
      Check(role in r.roles, r.(roles := r.roles - {role}, users := WithoutRole(r.users, role)))
  }

  function ApplyAll(r: Realm, actions: seq<Action>): Result<Realm, string> {
    if |actions| == 0 then Ok(r)
    else
      match ApplyAll(r, actions[..|actions| - 1])
      case Err(e) => Err(e)
      case Ok(u) => Apply(u, actions[|actions| - 1])
  }

  lemma {:induction false} ApplyInParts(r: Realm, a: seq<Action>, b: seq<Action>)
    ensures ApplyAll(r, a + b) == match ApplyAll(r, a) case Err(e) => Err(e) case Ok(u) => ApplyAll(u, b)
  {
    if |b| == 0 {
      assert a + b == a;
    } else {
      assert (a + b)[..|a + b| - 1] == a + b[..|b| - 1];
      ApplyInParts(r, a, b[..|b| - 1]);
    }
  }

  // ---------------------------------------------------------------------
  // One pass
  // ---------------------------------------------------------------------

  /** Ids are distinct, and users hold only roles of the realm. */
  ghost predicate IsWellFormed(r: Realm) {
    && (forall i, j :: 0 <= i < j < |r.users| ==> r.users[i].id != r.users[j].id)
    && forall i :: 0 <= i < |r.users| ==> r.users[i].roles <= r.roles
  }

  lemma {:induction false} FoundUser(users: seq<User>, i: nat)
    requires i < |users| && forall j, k :: 0 <= j < k < |users| ==> users[j].id != users[k].id
    ensures FindUser(users, users[i].id) == Some(users[i])
  {
    if i > 0 {
      assert users[0].id != users[i].id;
      FoundUser(users[1..], i - 1);
    }
  }

  function Migrated(u: User): User {
    if IsLegacy(u) then u.(roles := u.roles - LEGACY_ROLES + {TargetRole(u)}) else u
  }

  /** The users while the first `k` have been migrated. */
  function MigratedUpTo(users: seq<User>, k: nat): seq<User> {
    seq(|users|, i requires 0 <= i < |users| => if i < k then Migrated(users[i]) else users[i])
  }

  lemma MigrateOne(r: Realm, users: seq<User>, k: nat)
    requires k < |users| && r.users == MigratedUpTo(users, k) && "User" in r.roles
    requires forall i, j :: 0 <= i < j < |users| ==> users[i].id != users[j].id
    ensures ApplyAll(r, PlanUser(users[k])) == Ok(r.(users := MigratedUpTo(users, k + 1)))
  {
    var u := users[k];
    if IsLegacy(u) {
      FoundUser(r.users, k);
      var migrate, logout := MigrateUser(u.id, TargetRole(u)), LogoutUser(u.id);
      var after := r.(users := WithRoles(r.users, u.id, u.roles - LEGACY_ROLES + {TargetRole(u)}));
      assert after.users == MigratedUpTo(users, k + 1);
      assert after.users[k].id == u.id;
      FoundUser(after.users, k);
      assert PlanUser(u)[..1] == [migrate] && [migrate][..0] == [];
      assert Apply(r, migrate) == Ok(after);
      assert ApplyAll(r, []) == Ok(r);
      assert ApplyAll(r, [migrate]) == Ok(after);
    } else {
      assert MigratedUpTo(users, k + 1) == MigratedUpTo(users, k);
      assert ApplyAll(r, []) == Ok(r);
    }
  }

  lemma {:induction false} MigrateAll(r: Realm, users: seq<User>, k: nat)
    requires k <= |users| && r.users == users && "User" in r.roles
    requires forall i, j :: 0 <= i < j < |users| ==> users[i].id != users[j].id
    ensures ApplyAll(r, PlanUsers(users[..k])) == Ok(r.(users := MigratedUpTo(users, k)))
  {
    if k == 0 {
      assert MigratedUpTo(users, 0) == users;
    } else {
      hide MigratedUpTo, PlanUser, ApplyAll;
      MigrateAll(r, users, k - 1);
      assert users[..k][..k - 1] == users[..k - 1];
      MigrateOne(r.(users := MigratedUpTo(users, k - 1)), users, k - 1);
      ApplyInParts(r, PlanUsers(users[..k - 1]), PlanUser(users[k - 1]));
    }
  }

  lemma ApplyOne(r: Realm, b: bool, a: Action)
    ensures ApplyAll(r, When(b, a)) == if b then Apply(r, a) else Ok(r)
  {
    assert [a][..0] == [];
    assert ApplyAll(r, []) == Ok(r);
  }

  /** The realm after the creations. */
  function Created(r: Realm): Realm {
    r.(roles := r.roles + {"User"}, scopes := r.scopes + REQUIRED_SCOPES, clients := r.clients + {MANAGEMENT_CLIENT},
       serviceRoles := if MANAGEMENT_CLIENT in r.clients then r.serviceRoles else {})
  }

  lemma CreationsSucceed(r: Realm, s: Realm)
    requires Snapshot(r) == Ok(s)
    ensures ApplyAll(r, PlanCreations(s)) == Ok(Created(r))
  {
    var a := When("User" !in s.roles, CreateRole("User"));
    var b := When(REVIEW_SCOPE !in s.scopes, CreateScope(REVIEW_SCOPE));
    var c := When(MANAGE_SCOPE !in s.scopes, CreateScope(MANAGE_SCOPE));
    var d := When(MANAGEMENT_CLIENT !in s.clients, CreateClient);
    var r1 := r.(roles := r.roles + {"User"});
    var r2 := r1.(scopes := r.scopes + {REVIEW_SCOPE});
    var r3 := r1.(scopes := r.scopes + {REVIEW_SCOPE} + {MANAGE_SCOPE});
    assert REVIEW_SCOPE != MANAGE_SCOPE by { assert REVIEW_SCOPE[0] != MANAGE_SCOPE[0]; }
    ApplyOne(r, "User" !in s.roles, CreateRole("User"));
    assert "User" in r.roles ==> r1 == r by { if "User" in r.roles { assert r.roles + {"User"} == r.roles; } }
    ApplyOne(r1, REVIEW_SCOPE !in s.scopes, CreateScope(REVIEW_SCOPE));
    assert REVIEW_SCOPE in r.scopes ==> r2 == r1 by {
      if REVIEW_SCOPE in r.scopes { assert r.scopes + {REVIEW_SCOPE} == r.scopes; }
    }
    ApplyOne(r2, MANAGE_SCOPE !in s.scopes, CreateScope(MANAGE_SCOPE));
    assert MANAGE_SCOPE in r.scopes ==> r3 == r2 by {
      if MANAGE_SCOPE in r.scopes { assert r2.scopes + {MANAGE_SCOPE} == r2.scopes; }
    }
    ApplyOne(r3, MANAGEMENT_CLIENT !in s.clients, CreateClient);
    assert r3.scopes == r.scopes + REQUIRED_SCOPES;
    assert MANAGEMENT_CLIENT in r.clients ==> Created(r) == r3 by {
      if MANAGEMENT_CLIENT in r.clients { assert r.clients + {MANAGEMENT_CLIENT} == r.clients; }
    }
    ApplyInParts(r, a, b);
    ApplyInParts(r, a + b, c);
    ApplyInParts(r, a + b + c, d);
  }

  /** The realm after the grants. */
  function Granted(r: Realm): Realm {
    r.(serviceRoles := r.serviceRoles + REQUIRED_SERVICE_ROLES, webScopes := r.webScopes + REQUIRED_SCOPES)
  }

  lemma {:induction false} AttachOne(r: Realm, s: Realm, scope: string)
    requires scope in r.scopes && (WEB_CLIENT in r.clients ==> s.webScopes <= r.webScopes)
    requires WEB_CLIENT !in r.clients ==> scope !in s.webScopes
    ensures ApplyAll(r, When(scope !in s.webScopes, AttachWebScope(scope))) ==
            if WEB_CLIENT in r.clients then Ok(r.(webScopes := r.webScopes + {scope})) else Err("refused by Keycloak")
  {
    ApplyOne(r, scope !in s.webScopes, AttachWebScope(scope));
    if scope in s.webScopes { assert r.webScopes + {scope} == r.webScopes; }
  }

  /** The grants succeed exactly when both given clients exist. */
  lemma GrantsSucceedWithClients(r: Realm, s: Realm)
    requires Snapshot(r) == Ok(s)
    ensures ApplyAll(Created(r), PlanGrants(s)) ==
            if WEB_CLIENT in r.clients && REALM_MANAGEMENT in r.clients then Ok(Granted(Created(r)))
            else Err("refused by Keycloak")
  {
    ClientsDiffer();
    var u := Created(r);
    var grant := !(s.serviceRoles >= REQUIRED_SERVICE_ROLES);
    var a := When(grant, GrantServiceRoles);
    var b := When(REVIEW_SCOPE !in s.webScopes, AttachWebScope(REVIEW_SCOPE));
    var c := When(MANAGE_SCOPE !in s.webScopes, AttachWebScope(MANAGE_SCOPE));
    ApplyInParts(u, a, b);
    ApplyInParts(u, a + b, c);
    ApplyOne(u, grant, GrantServiceRoles);
    if REALM_MANAGEMENT in r.clients {
      var u1 := u.(serviceRoles := u.serviceRoles + REQUIRED_SERVICE_ROLES);
      if !grant { assert u.serviceRoles + REQUIRED_SERVICE_ROLES == u.serviceRoles; }
      assert ApplyAll(u, a) == Ok(u1);
      AttachOne(u1, s, REVIEW_SCOPE);
      if WEB_CLIENT in r.clients {
        var u2 := u1.(webScopes := u1.webScopes + {REVIEW_SCOPE});
        AttachOne(u2, s, MANAGE_SCOPE);
        assert u2.webScopes + {MANAGE_SCOPE} == u.webScopes + REQUIRED_SCOPES;
      }
    } else {
      assert "view-realm" in REQUIRED_SERVICE_ROLES;
    }
  }

  lemma ClientsDiffer()
    ensures WEB_CLIENT != MANAGEMENT_CLIENT && REALM_MANAGEMENT != MANAGEMENT_CLIENT
  {
    assert WEB_CLIENT[10] == 'w' && MANAGEMENT_CLIENT[10] == 'u' && REALM_MANAGEMENT[0] == 'r';
  }

  lemma NoLegacyLeft(u: User)
    ensures Migrated(u).roles * LEGACY_ROLES == {}
    ensures "Admin" in Migrated(u).roles <==> "Admin" in u.roles
    ensures !IsLegacy(Migrated(u)) && Migrated(u).id == u.id && Migrated(u).enabled == u.enabled
  {
    assert "Admin" !in LEGACY_ROLES && "User" !in LEGACY_ROLES by {
      assert "Admin"[1] == 'd' && "Analyst"[1] == 'n' && "Viewer"[0] == 'V' && "User"[0] == 'U';
    }
  }

  lemma RemovalKeepsMigrated(users: seq<User>, role: string)
    requires role in LEGACY_ROLES
    ensures WithoutRole(MigratedUpTo(users, |users|), role) == MigratedUpTo(users, |users|)
  {
    var m := MigratedUpTo(users, |users|);
    forall i | 0 <= i < |m| ensures m[i].roles - {role} == m[i].roles {
      NoLegacyLeft(users[i]);
      WithoutForeign(m[i].roles, LEGACY_ROLES, role);
    }
  }

  lemma WithoutForeign(roles: set<string>, others: set<string>, role: string)
    requires roles * others == {} && role in others
    ensures roles - {role} == roles
  {
    assert role in roles ==> role in roles * others;
  }

  lemma RemovalsSucceed(r: Realm, s: Realm, users: seq<User>)
    requires r.users == MigratedUpTo(users, |users|) && r.roles == s.roles + {"User"}
    ensures ApplyAll(r, PlanRemovals(s)) == Ok(r.(roles := r.roles - LEGACY_ROLES))
  {
    assert "Analyst" != "Viewer" && "User" != "Analyst" && "User" != "Viewer" by {
      assert "Analyst"[0] == 'A' && "Viewer"[0] == 'V' && "User"[0] == 'U';
    }
    var a, b := When("Analyst" in s.roles, RemoveRole("Analyst")), When("Viewer" in s.roles, RemoveRole("Viewer"));
    var r1 := r.(roles := r.roles - {"Analyst"});
    RemovalKeepsMigrated(users, "Analyst");
    RemovalKeepsMigrated(users, "Viewer");
    ApplyOne(r, "Analyst" in s.roles, RemoveRole("Analyst"));
    if "Analyst" !in s.roles { assert r.roles - {"Analyst"} == r.roles; }
    ApplyOne(r1, "Viewer" in s.roles, RemoveRole("Viewer"));
    if "Viewer" !in s.roles { assert r1.roles - {"Viewer"} == r1.roles; }
    assert r1.roles - {"Viewer"} == r.roles - LEGACY_ROLES;
    ApplyInParts(r, a, b);
  }

  /** What one pass makes of a realm. */
  function Reconciled(r: Realm): Realm {
    var g := Granted(Created(r));
    g.(users := MigratedUpTo(r.users, |r.users|), roles := g.roles - LEGACY_ROLES)
  }

  /** The planned actions, in their order, never need what is not there yet, exactly when both given clients exist. */
  lemma PassSucceeds(r: Realm, s: Realm)
    requires IsWellFormed(r) && Snapshot(r) == Ok(s) && HasEnabledAdmin(r.users)
    ensures ApplyAll(r, Plan(s).value) ==
            if WEB_CLIENT in r.clients && REALM_MANAGEMENT in r.clients then Ok(Reconciled(r))
            else Err("refused by Keycloak")
  {
    hide ApplyAll, PlanCreations, PlanGrants, PlanUsers, PlanRemovals;
    var a, b, c, d := PlanCreations(s), PlanGrants(s), PlanUsers(s.users), PlanRemovals(s);
    ApplyInParts(r, a, b);
    ApplyInParts(r, a + b, c);
    ApplyInParts(r, a + b + c, d);
    CreationsSucceed(r, s);
    GrantsSucceedWithClients(r, s);
    if WEB_CLIENT in r.clients && REALM_MANAGEMENT in r.clients {
      var g := Granted(Created(r));
      MigrateAll(g, r.users, |r.users|);
      assert r.users[..|r.users|] == s.users;
      RemovalsSucceed(g.(users := MigratedUpTo(r.users, |r.users|)), s, r.users);
    }
  }

  /** Snapshot, plan and apply. */
  function OnePass(r: Realm): Result<Realm, string> {
    match Snapshot(r)
    case Err(e) => Err(e)
    case Ok(s) => match Plan(s) case Err(e) => Err(e) case Ok(actions) => ApplyAll(r, actions)
  }

  lemma {:induction false} NothingToMigrate(users: seq<User>)
    requires forall i :: 0 <= i < |users| ==> !IsLegacy(users[i])
    ensures PlanUsers(users) == []
  {
    if |users| > 0 { NothingToMigrate(users[..|users| - 1]); }
  }

  lemma ReconciledNeedsNothing(r: Realm, s: Realm)
    requires Snapshot(r) == Ok(s) && HasEnabledAdmin(r.users) && WEB_CLIENT in r.clients
             && REALM_MANAGEMENT in r.clients
    ensures var u := Reconciled(r); Snapshot(u) == Ok(u) && Plan(u) == Ok([])
  {
    ClientsDiffer();
    var u := Reconciled(r);
    forall i | 0 <= i < |u.users| ensures !IsLegacy(u.users[i]) { NoLegacyLeft(r.users[i]); }
    NothingToMigrate(u.users);
    var i :| 0 <= i < |r.users| && r.users[i].enabled && "Admin" in r.users[i].roles;
    NoLegacyLeft(r.users[i]);
    assert u.users[i].enabled && "Admin" in u.users[i].roles;
    assert "User" in u.roles by { assert "User"[0] == 'U' && "Analyst"[0] == 'A' && "Viewer"[0] == 'V'; }
    assert REVIEW_SCOPE in u.scopes && MANAGE_SCOPE in u.scopes && MANAGEMENT_CLIENT in u.clients;
    assert REVIEW_SCOPE in u.webScopes && MANAGE_SCOPE in u.webScopes && u.serviceRoles >= REQUIRED_SERVICE_ROLES;
    assert "Analyst" !in u.roles && "Viewer" !in u.roles;
  }

  function AdminHolders(users: seq<User>): set<string> {
    set i | 0 <= i < |users| && "Admin" in users[i].roles :: users[i].id
  }

  lemma AdminHoldersStay(users: seq<User>)
    ensures AdminHolders(MigratedUpTo(users, |users|)) == AdminHolders(users)
  {
    var m := MigratedUpTo(users, |users|);
    forall i | 0 <= i < |users|
      ensures m[i].id == users[i].id && ("Admin" in m[i].roles <==> "Admin" in users[i].roles)
    {
      NoLegacyLeft(users[i]);
    }
    forall id ensures id in AdminHolders(m) <==> id in AdminHolders(users) {
      if id in AdminHolders(m) {
        var i :| 0 <= i < |m| && "Admin" in m[i].roles && m[i].id == id;
        assert users[i].id == id && "Admin" in users[i].roles;
      }
      if id in AdminHolders(users) {
        var i :| 0 <= i < |users| && "Admin" in users[i].roles && users[i].id == id;
        assert m[i].id == id && "Admin" in m[i].roles;
      }
    }
  }

  /**
   Users keep their place, id and all roles but the legacy ones; only who held a legacy role
   may gain one, and a user who was Admin gains none.
   */
  ghost predicate OnlyLegacyRolesChange(users: seq<User>, after: seq<User>) {
    && |after| == |users|
    && forall i :: 0 <= i < |users| ==>
         && after[i].id == users[i].id && after[i].enabled == users[i].enabled
         && after[i].roles * LEGACY_ROLES == {}
         && users[i].roles - LEGACY_ROLES <= after[i].roles <= users[i].roles + {"User"}
         && (users[i].roles * LEGACY_ROLES == {} || "Admin" in users[i].roles ==>
               after[i].roles == users[i].roles - LEGACY_ROLES)
         && (users[i].roles * LEGACY_ROLES != {} && "Admin" !in users[i].roles ==> "User" in after[i].roles)
  }

  lemma OtherRolesStay(users: seq<User>)
    ensures OnlyLegacyRolesChange(users, MigratedUpTo(users, |users|))
  {
    forall i | 0 <= i < |users| ensures Migrated(users[i]).roles * LEGACY_ROLES == {} { NoLegacyLeft(users[i]); }
    assert "Admin" !in LEGACY_ROLES by { assert "Admin"[1] == 'd' && "Analyst"[1] == 'n' && "Viewer"[0] == 'V'; }
    forall i | 0 <= i < |users| && !IsLegacy(users[i]) ensures users[i].roles - LEGACY_ROLES == users[i].roles {
      WithoutAll(users[i].roles, LEGACY_ROLES);
    }
  }

  lemma WithoutAll(roles: set<string>, others: set<string>)
    requires roles * others == {}
    ensures roles - others == roles
  {
    forall x | x in roles ensures x in roles - others {
      assert x in others ==> x in roles * others;
    }
  }

  /**
   One pass converges: it succeeds exactly when some enabled user is Admin and both given
   clients exist, and then a second plan is empty and the same users hold Admin.
   */
  lemma OnePassConverges(r: Realm)
    requires IsWellFormed(r)
    ensures OnePass(r).Ok? <==> HasEnabledAdmin(r.users) && WEB_CLIENT in r.clients && REALM_MANAGEMENT in r.clients
    ensures OnePass(r).Ok? ==>
              var u := OnePass(r).value;
              && Snapshot(u) == Ok(u) && Plan(u) == Ok([]) && OnePass(u) == Ok(u)
              && AdminHolders(u.users) == AdminHolders(r.users)
              && OnlyLegacyRolesChange(r.users, u.users)
              && r.scopes <= u.scopes && r.clients <= u.clients && r.webScopes <= u.webScopes
              && r.roles - LEGACY_ROLES <= u.roles
  {
    hide ApplyAll, PlanCreations, PlanGrants, PlanUsers, PlanRemovals;
    ClientsDiffer();
    match Snapshot(r) {
      case Err(_) =>
      case Ok(s) =>
        if HasEnabledAdmin(r.users) {
          PassSucceeds(r, s);
          if WEB_CLIENT in r.clients && REALM_MANAGEMENT in r.clients {
            ReconciledNeedsNothing(r, s);
            AdminHoldersStay(r.users);
            OtherRolesStay(r.users);
            NoActions(Reconciled(r));
          }
        }
    }
  }

  lemma NoActions(r: Realm)
    ensures ApplyAll(r, []) == Ok(r)
  {
  }

  ghost predicate AllNamed(actions: seq<Action>) {
    forall a :: a in actions ==> NamesSomething(a)
  }

  ghost predicate AllProper(actions: seq<Action>) {
    forall a :: a in actions ==> HasProperRole(a)
  }

  lemma NamedInParts(a: seq<Action>, b: seq<Action>)
    ensures AllNamed(a + b) <==> AllNamed(a) && AllNamed(b)
    ensures AllProper(a) && AllProper(b) ==> AllProper(a + b)
  {
    hide NamesSomething, HasProperRole;
    if AllNamed(a + b) {
      forall x | x in a ensures NamesSomething(x) { assert x in a + b; }
      forall x | x in b ensures NamesSomething(x) { assert x in a + b; }
    }
  }

  /** Users without a legacy role may lack an id: nothing is planned for them. */
  predicate LegacyUsersHaveIds(users: seq<User>) {
    forall i :: 0 <= i < |users| && IsLegacy(users[i]) ==> users[i].id != ""
  }

  lemma OneUserIsNamed(u: User)
    ensures AllNamed(PlanUser(u)) <==> (IsLegacy(u) ==> u.id != "")
    ensures AllProper(PlanUser(u))
  {
    if IsLegacy(u) { assert LogoutUser(u.id) in PlanUser(u); }
  }

  lemma {:induction false} UserActionsAreNamed(users: seq<User>)
    ensures AllNamed(PlanUsers(users)) <==> LegacyUsersHaveIds(users)
    ensures AllProper(PlanUsers(users))
  {
    hide IsLegacy, NamesSomething, HasProperRole, PlanUser;
    if |users| > 0 {
      var before, last := users[..|users| - 1], users[|users| - 1];
      UserActionsAreNamed(before);
      OneUserIsNamed(last);
      NamedInParts(PlanUsers(before), PlanUser(last));
      hide AllNamed, AllProper;
      assert forall i :: 0 <= i < |before| ==> before[i] == users[i];
      assert LegacyUsersHaveIds(users) <==> LegacyUsersHaveIds(before) && (IsLegacy(last) ==> last.id != "");
    }
  }

  lemma FixedActionsAreNamed(s: Realm)
    ensures AllNamed(PlanCreations(s)) && AllNamed(PlanGrants(s)) && AllNamed(PlanRemovals(s))
    ensures AllProper(PlanCreations(s)) && AllProper(PlanGrants(s)) && AllProper(PlanRemovals(s))
  {
  }

  lemma PlanIsNamed(s: Realm)
    requires HasEnabledAdmin(s.users)
    ensures AllNamed(Plan(s).value) <==> LegacyUsersHaveIds(s.users)
    ensures AllProper(Plan(s).value)
  {
    UserActionsAreNamed(s.users);
    FixedActionsAreNamed(s);
    hide PlanUsers, PlanCreations, PlanGrants, PlanRemovals, AllNamed, AllProper, LegacyUsersHaveIds, HasEnabledAdmin;
    var a, b, c, d := PlanCreations(s), PlanGrants(s), PlanUsers(s.users), PlanRemovals(s);
    NamedInParts(a, b);
    NamedInParts(a + b, c);
    NamedInParts(a + b + c, d);
  }

  /** Every printed action of a plan parses back if and only if no legacy user lacks an id. */
  lemma PlannedActionsParse(s: Realm)
    requires HasEnabledAdmin(s.users)
    ensures (forall a :: a in Plan(s).value ==> ParseAction(Show(a)) == Ok(ParsedForm(a))) <==>
              LegacyUsersHaveIds(s.users)
  {
    PlanIsNamed(s);
    hide Plan, LegacyUsersHaveIds, NamesSomething, ParseAction, Show, ParsedForm, HasEnabledAdmin;
    forall a ensures ParseAction(Show(a)) == Ok(ParsedForm(a)) <==> NamesSomething(a) { ShownActionParses(a); }
  }

  // ---------------------------------------------------------------------
  // Applying printed actions
  // ---------------------------------------------------------------------

  /** The dispatch of `apply` on the kind. */
  function Dispatch(p: Parsed): Result<Action, string> {
    if p.kind == "create_role" then Ok(CreateRole(p.value))
    else if p.kind == "create_scope" then Ok(CreateScope(p.value))
    else if p.kind == "create_client" then Ok(CreateClient)
    else if p.kind == "grant_service_roles" then Ok(GrantServiceRoles)
    else if p.kind == "attach_web_scope" then Ok(AttachWebScope(p.value))
    else if p.kind == "migrate_user" then
      match p.secondary
      case Some(role) => Ok(MigrateUser(p.value, role))
      case None => Err("unsupported reconciliation action")
    else if p.kind == "logout_user" then Ok(LogoutUser(p.value))
    else if p.kind == "remove_role" then Ok(RemoveRole(p.value))
    else Err("unsupported reconciliation action")
  }

  function Read(text: string): Result<Action, string> {
    match ParseAction(text) case Err(e) => Err(e) case Ok(p) => Dispatch(p)
  }

  lemma DispatchInverts(a: Action)
    ensures Dispatch(ParsedForm(a)) == Ok(a)
  {
    assert |"migrate_user"| == 12 && |"create_role"| == 11 && |"create_scope"| == 12 && |"create_client"| == 13
      && |"grant_service_roles"| == 19 && |"attach_web_scope"| == 16 && |"logout_user"| == 11 && |"remove_role"| == 11;
    assert "create_scope"[0] == 'c' && "migrate_user"[0] == 'm' && "create_role"[0] == 'c' && "logout_user"[0] == 'l'
           && "remove_role"[0] == 'r';
  }

  /** The realm as far as the texts could be applied, and whether all of them could. */
  function ApplyTexts(r: Realm, texts: seq<string>): (Realm, bool) {
    if |texts| == 0 then (r, true)
    else
      var (u, ok) := ApplyTexts(r, texts[..|texts| - 1]);
      if !ok then (u, false)
      else
        match Read(texts[|texts| - 1])
        case Err(_) => (u, false)
        case Ok(a) => match Apply(u, a) case Err(_) => (u, false) case Ok(v) => (v, true)
  }

  function ShowAll(actions: seq<Action>): seq<string> {
    seq(|actions|, i requires 0 <= i < |actions| => Show(actions[i]))
  }

  /** A printed action is read back as itself, or refused when it names nothing. */
  lemma PrintedIsRead(a: Action)
    requires HasProperRole(a)
    ensures if NamesSomething(a) then Read(Show(a)) == Ok(a) else Read(Show(a)).Err?
  {
    hide Dispatch, ParseAction, NamesSomething, Show, ParsedForm, HasProperRole;
    ShownActionParses(a);
    DispatchInverts(a);
    if !NamesSomething(a) { UnnamedIsRefused(a); }
  }

  /** Applying printed actions is applying the actions, as long as each names something. */
  lemma {:induction false} PrintedActionsApply(r: Realm, actions: seq<Action>)
    requires AllProper(actions)
    ensures ApplyTexts(r, ShowAll(actions)).1 <==> ApplyAll(r, actions).Ok? && AllNamed(actions)
    ensures ApplyTexts(r, ShowAll(actions)).1 ==> ApplyTexts(r, ShowAll(actions)).0 == ApplyAll(r, actions).value
  {
    if |actions| > 0 {
      hide Apply, Read, NamesSomething, Show, HasProperRole;
      var before, last := actions[..|actions| - 1], actions[|actions| - 1];
      assert ShowAll(actions)[..|actions| - 1] == ShowAll(before);
      assert actions == before + [last];
      NamedInParts(before, [last]);
      PrintedActionsApply(r, before);
      PrintedIsRead(last);
      assert AllNamed([last]) <==> NamesSomething(last);
    }
  }

  /**
   The live pass over printed actions succeeds exactly when both given clients exist and no
   legacy user lacks an id; then it converges as the plan does.
   */
  lemma LivePassConverges(r: Realm, s: Realm)
    requires IsWellFormed(r) && Snapshot(r) == Ok(s) && HasEnabledAdmin(r.users)
    ensures var (u, ok) := ApplyTexts(r, ShowAll(Plan(s).value));
            && (ok <==> WEB_CLIENT in r.clients && REALM_MANAGEMENT in r.clients && LegacyUsersHaveIds(r.users))
            && (ok ==> OnePass(r) == Ok(u) && Snapshot(u) == Ok(u) && Plan(u) == Ok([]))
  {
    assert s.users == r.users;
    PlanIsNamed(s);
    PassSucceeds(r, s);
    assert OnePass(r) == ApplyAll(r, Plan(s).value);
    hide *;
    PrintedActionsApply(r, Plan(s).value);
    if WEB_CLIENT in r.clients && REALM_MANAGEMENT in r.clients { ReconciledNeedsNothing(r, s); }
  }

  class LiveSynchronizer {
    var realm: Realm

    constructor (realm: Realm)
      ensures this.realm == realm
    {
      this.realm := realm;
    }

    /** `apply`: stops at the first action that cannot be read or that Keycloak refuses. */
    method ApplyActions(texts: seq<string>) returns (ok: bool)
      modifies this
      ensures (realm, ok) == ApplyTexts(old(realm), texts)
    {
      for k := 0 to |texts|
        invariant (realm, true) == ApplyTexts(old(realm), texts[..k])
      {
        hide Apply, Read;
        assert texts[..k + 1][..k] == texts[..k];
        var action := Read(texts[k]);
        if action.Err? {
          Stopped(old(realm), texts, k + 1);
          return false;
        }
        var applied := Apply(realm, action.value);
        if applied.Err? {
          Stopped(old(realm), texts, k + 1);
          return false;
        }
        realm := applied.value;
      }
      assert texts[..|texts|] == texts;
      return true;
    }
  }

  /** What follows a stop is not applied. */
  lemma {:induction false} Stopped(r: Realm, texts: seq<string>, k: nat)
    requires k <= |texts| && !ApplyTexts(r, texts[..k]).1
    ensures ApplyTexts(r, texts) == ApplyTexts(r, texts[..k])
    decreases |texts| - k
  {
    if k == |texts| {
      assert texts[..k] == texts;
    } else {
      assert texts[..k + 1][..k] == texts[..k];
      Stopped(r, texts, k + 1);
    }
  }
}
