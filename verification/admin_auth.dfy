/** The administrators' session: two fixed accounts, a login that writes the
    account record and a token to the browser's local storage, reading the
    session back, logging out and the permission check. Stored JSON is kept
    as the record it encodes; text that is not such a record does not parse. */
module AdminAuth {
  import opened Common

  datatype AdminUser = AdminUser(id: string, email: string, fullName: string, role: string,
                                 permissions: seq<string>, lastLogin: string, status: string)

  /** A local-storage value: plain text, or the JSON text of an account record. */
  datatype Stored = Text(text: string) | Json(admin: AdminUser)

  const UserKey: string := "admin_user"
  const TokenKey: string := "admin_token"

  const SuperAdminRole: string := "super_admin"
  const SuperAdminToken: string := "admin-token-123"
  const SupportToken: string := "support-token-123"
  const BadCredentials: string := "אימייל או סיסמה שגויים"
  const NotLoggedIn: string := "לא מחובר"
  /** What `JSON.parse` throws on text that is not an account record. */
  const Unparsable: string := "invalid JSON"

  function SuperAdmin(now: string): AdminUser {
    AdminUser("admin-123", "admin@beventx.com", "מנהל המערכת", SuperAdminRole,
              ["manage_users", "manage_events", "manage_payments", "manage_content", "manage_settings", "view_analytics"],
              now, "active")
  }

  function Support(now: string): AdminUser {
    AdminUser("support-123", "support@beventx.com", "תמיכה טכנית", "support",
              ["view_users", "view_events", "view_payments", "manage_content"],
              now, "active")
  }

  /** The account and token for a pair of credentials: only the two fixed
      pairs are known. */
  function Account(email: string, password: string, now: string): (r: Option<(AdminUser, string)>)
    ensures r.Some? <==> (email == "admin@beventx.com" && password == "Admin123!")
                         || (email == "support@beventx.com" && password == "Support123!")
    ensures r.Some? ==> r.value.0.email == email && r.value.0.lastLogin == now && r.value.1 != ""
  {
    if email == "admin@beventx.com" && password == "Admin123!" then Some((SuperAdmin(now), SuperAdminToken))
    else if email == "support@beventx.com" && password == "Support123!" then Some((Support(now), SupportToken))
    else None
  }

  /** A stored value is truthy unless it is the empty string. */
  predicate StoredTruthy(items: map<string, Stored>, k: string) {
    k in items && !(items[k].Text? && items[k].text == "")
  }

  /** The storage after a login with those credentials, if they are known. */
  function LoggedIn(items: map<string, Stored>, email: string, password: string, now: string): map<string, Stored> {
    var acc := Account(email, password, now);
    if acc.None? then items else items[UserKey := Json(acc.value.0)][TokenKey := Text(acc.value.1)]
  }

  /** `getCurrentAdmin` on the storage: fails unless both keys hold truthy
      values, and otherwise returns the stored record. */
  function Current(items: map<string, Stored>): (r: Result<AdminUser>)
    ensures r.Ok? ==> StoredTruthy(items, TokenKey) && UserKey in items && items[UserKey] == Json(r.value)
    ensures !StoredTruthy(items, TokenKey) || !StoredTruthy(items, UserKey) ==> r == Err(NotLoggedIn)
  {
    if !StoredTruthy(items, TokenKey) || !StoredTruthy(items, UserKey) then Err(NotLoggedIn)
    else match items[UserKey]
      case Json(a) => Ok(a)
      case Text(_) => Err(Unparsable)
  }

  /** `hasPermission`: every permission for a super administrator, the listed
      ones for anyone else, none when no one is logged in. */
  function Permitted(items: map<string, Stored>, permission: string): (ok: bool)
    ensures Current(items).Err? ==> !ok
    ensures Current(items).Ok? && Current(items).value.role == SuperAdminRole ==> ok
    ensures Current(items).Ok? && Current(items).value.role != SuperAdminRole ==>
      (ok <==> permission in Current(items).value.permissions)
  {
    var admin := Current(items);
    if admin.Err? then false
    else admin.value.role == SuperAdminRole || permission in admin.value.permissions
  }

  /** After a successful login the session reads back the account just
      stored; unknown credentials leave the storage as it was. */
  lemma {:induction false} LoginThenCurrent(items: map<string, Stored>, email: string, password: string, now: string)
    ensures Account(email, password, now).Some? ==>
      Current(LoggedIn(items, email, password, now)) == Ok(Account(email, password, now).value.0)
    ensures Account(email, password, now).None? ==> LoggedIn(items, email, password, now) == items
  {
    var acc := Account(email, password, now);
    if acc.Some? {
      var m := LoggedIn(items, email, password, now);
      assert m[TokenKey] == Text(acc.value.1);
      assert m[UserKey] == Json(acc.value.0);
    }
  }

  /** Nothing ties the stored record to the token or to a login: any
      non-empty token beside a record whose role is `super_admin` passes
      every permission check, whatever the record's other fields hold. */
  lemma {:induction false} StoredRoleIsTrusted(items: map<string, Stored>, token: string, a: AdminUser, permission: string)
    requires token != "" && a.role == SuperAdminRole
    ensures Current(items[TokenKey := Text(token)][UserKey := Json(a)]) == Ok(a)
    ensures Permitted(items[TokenKey := Text(token)][UserKey := Json(a)], permission)
  {
  }

  /** After logging out no one is logged in and no permission holds. */
  lemma {:induction false} LogoutThenNone(items: map<string, Stored>, permission: string)
    ensures Current(items - {TokenKey, UserKey}) == Err(NotLoggedIn)
    ensures !Permitted(items - {TokenKey, UserKey}, permission)
  {
  }

  /** The support account manages content but not users; the super
      administrator may do anything. */
  lemma {:induction false} SupportPermissions(items: map<string, Stored>, now: string, permission: string)
    ensures var m := LoggedIn(items, "support@beventx.com", "Support123!", now);
      Permitted(m, "manage_content") && !Permitted(m, "manage_users")
    ensures Permitted(LoggedIn(items, "admin@beventx.com", "Admin123!", now), permission)
  {
    LoginThenCurrent(items, "support@beventx.com", "Support123!", now);
    LoginThenCurrent(items, "admin@beventx.com", "Admin123!", now);
    assert "manage_content" in Support(now).permissions;
  }

  class AdminStore {
    var items: map<string, Stored>

    constructor (initial: map<string, Stored>)
      ensures items == initial
    {
      items := initial;
    }

    /** `authenticateAdmin`: a known pair stores the account and its token and
        returns the account; any other pair fails and writes nothing. */
    method Authenticate(email: string, password: string, now: string) returns (r: Result<AdminUser>)
      modifies this
      ensures items == LoggedIn(old(items), email, password, now)
      ensures Account(email, password, now).Some? ==> r == Ok(Account(email, password, now).value.0)
      ensures Account(email, password, now).None? ==> r == Err(BadCredentials) && items == old(items)
      ensures r.Ok? ==> CurrentAdmin() == r
    {
      var acc := Account(email, password, now);
      if acc.None? {
        return Err(BadCredentials);
      }
      items := items[UserKey := Json(acc.value.0)];
      items := items[TokenKey := Text(acc.value.1)];
      r := Ok(acc.value.0);
      LoginThenCurrent(old(items), email, password, now);
    }

    function CurrentAdmin(): Result<AdminUser>
      reads this
    {
      Current(items)
    }

    function HasPermission(permission: string): bool
      reads this
    {
      Permitted(items, permission)
    }

    /** `logoutAdmin`: both keys are removed and nothing else. */
    method Logout()
      modifies this
      ensures items == old(items) - {TokenKey, UserKey}
      ensures CurrentAdmin() == Err(NotLoggedIn)
    {
      items := items - {TokenKey};
      items := items - {UserKey};
      assert items == old(items) - {TokenKey, UserKey};
      LogoutThenNone(old(items), "");
    }
  }
}
