/**
 * The bearer-token middleware and the role guards that follow it. The
 * token check is a parameter (`validate`) standing for the JWT service;
 * the header parsing and the role decisions are modelled exactly.
 */
module AuthGuard {
  import opened Wrappers
  import opened Text
  import opened Gin
  import Permissions

  /** The claims a valid token carries. */
  datatype Claims = Claims(userId: string, email: string, roles: seq<string>)

  /** The header split on single spaces must be exactly "Bearer" and a token. */
  function BearerToken(header: string): Option<string> {
    var parts := Split(header, ' ');
    if |parts| == 2 && parts[0] == "Bearer" then Some(parts[1]) else None
  }

  /**
   * A header is accepted exactly when it is "Bearer", one space and a token
   * without spaces: the scheme is case-sensitive and runs of spaces are refused.
   */
  lemma BearerTokenMeaning(header: string, t: string)
    ensures BearerToken(header) == Some(t) <==> header == "Bearer " + t && ' ' !in t
  {
    if BearerToken(header) == Some(t) {
      var parts := Split(header, ' ');
      JoinSplit(header, ' ');
      assert Join(parts, [' ']) == parts[0] + [' '] + Join(parts[1..], [' ']);
      assert parts[1..] == [t];
    }
    if header == "Bearer " + t && ' ' !in t {
      assert header == "Bearer" + [' '] + t;
      SplitAtFirst("Bearer", ' ', t);
      SplitWithoutSeparator(t, ' ');
    }
  }

  /** Headers that differ from the accepted form only in case or spacing are refused. */
  lemma BearerTokenStrict(t: string)
    requires ' ' !in t
    ensures BearerToken("bearer " + t).None?
    ensures BearerToken("Bearer  " + t).None?
    ensures BearerToken("Bearer").None?
  {
    assert "bearer " + t == "bearer" + [' '] + t;
    SplitAtFirst("bearer", ' ', t);
    assert "Bearer  " + t == "Bearer" + [' '] + (" " + t);
    SplitAtFirst("Bearer", ' ', " " + t);
    assert " " + t == [] + [' '] + t;
    SplitAtFirst([], ' ', t);
    SplitWithoutSeparator("Bearer", ' ');
  }

  /** The context after a valid token: user ID, email and roles. */
  function WithClaims(st: State, cl: Claims): State {
    st.(values := st.values["userID" := Text(cl.userId)]["email" := Text(cl.email)]["roles" := Texts(cl.roles)])
  }

  /** AuthMiddleware's decision over the Authorization header. */
  function AuthSpec(st: State, header: string, validate: string -> Result<Claims>): State {
    if header == "" then Fail(st, 401, "Authorization header missing")
    else match BearerToken(header)
      case None => Fail(st, 401, "Invalid authorization format")
      case Some(t) =>
        match validate(t)
        case Err(_) => Fail(st, 401, "Invalid or expired token")
        case Ok(cl) => Continue(WithClaims(st, cl))
  }

  /** AuthMiddleware on a context. */
  method AuthMiddleware(c: Context, validate: string -> Result<Claims>)
    modifies c
    ensures c.St() == AuthSpec(old(c.St()), c.GetHeader("Authorization"), validate)
  {
    var header := c.GetHeader("Authorization");
    if header == "" {
      c.ErrorResponse(401, "Authorization header missing");
      c.Abort();
      return;
    }
    var parts := Split(header, ' ');
    if |parts| != 2 || parts[0] != "Bearer" {
      c.ErrorResponse(401, "Invalid authorization format");
      c.Abort();
      return;
    }
    var token := parts[1];
    var claims := validate(token);
    if claims.Err? {
      c.ErrorResponse(401, "Invalid or expired token");
      c.Abort();
      return;
    }
    c.Set("userID", Text(claims.value.userId));
    c.Set("email", Text(claims.value.email));
    c.Set("roles", Texts(claims.value.roles));
    c.Next();
  }

  /**
   * The request goes on exactly when the header carries a bearer token the
   * validator accepts; the context then holds that token's user ID, email and
   * roles. Every other request stops with 401. No other key is written; in
   * particular "user" is never set.
   */
  lemma AuthOutcome(st: State, header: string, validate: string -> Result<Claims>)
    requires !st.aborted && !st.next
    ensures var r := AuthSpec(st, header, validate);
      && (r.next <==> exists t :: header == "Bearer " + t && ' ' !in t && validate(t).Ok?)
      && (!r.next ==> StoppedWith(r, 401) && r.values == st.values)
      && (r.next ==> (!r.aborted && r.response == st.response &&
           exists t :: header == "Bearer " + t && ' ' !in t && validate(t).Ok? && r == Continue(WithClaims(st, validate(t).value))))
      && (forall k :: k != "userID" && k != "email" && k != "roles" ==>
            (k in r.values <==> k in st.values) && (k in st.values ==> r.values[k] == st.values[k]))
      && r.headers == st.headers
  {
    if header != "" && BearerToken(header).Some? {
      BearerTokenMeaning(header, BearerToken(header).value);
    }
    if exists t :: header == "Bearer " + t && ' ' !in t && validate(t).Ok? {
      var t :| header == "Bearer " + t && ' ' !in t && validate(t).Ok?;
      BearerTokenMeaning(header, t);
    }
  }

  /** The "roles" value, when present, is a string list, as AuthMiddleware stores it. */
  predicate RolesAreStrings(st: State) {
    "roles" in st.values ==> st.values["roles"].Texts?
  }

  /** RoleRequired's decision: the role must appear in the list exactly, letter case included. */
  function RoleSpec(st: State, role: string): State
    requires RolesAreStrings(st)
  {
    if "roles" !in st.values then Fail(st, 401, "Unauthorized")
    else if role in st.values["roles"].items then Continue(st)
    else Fail(st, 403, "Permission denied: Required role not found")
  }

  /** RoleRequired on a context: a search of the user's roles. */
  method RoleRequired(c: Context, role: string)
    requires RolesAreStrings(c.St())
    modifies c
    ensures c.St() == RoleSpec(old(c.St()), role)
  {
    var v := c.Get("roles");
    if v.None? {
      c.ErrorResponse(401, "Unauthorized");
      c.Abort();
      return;
    }
    var userRoles := v.value.items;
    var i := 0;
    while i < |userRoles|
      invariant 0 <= i <= |userRoles|
      invariant role !in userRoles[..i]
      invariant c.St() == old(c.St())
    {
      if userRoles[i] == role {
        c.Next();
        return;
      }
      assert userRoles[..i + 1] == userRoles[..i] + [userRoles[i]];
      i := i + 1;
    }
    assert userRoles[..i] == userRoles;
    c.ErrorResponse(403, "Permission denied: Required role not found");
    c.Abort();
  }

  /** Some user role equals some required role. */
  predicate Overlap(userRoles: seq<string>, required: seq<string>) {
    exists i, j :: 0 <= i < |userRoles| && 0 <= j < |required| && userRoles[i] == required[j]
  }

  /** AnyRoleRequired's decision. */
  function AnyRoleSpec(st: State, required: seq<string>): State
    requires RolesAreStrings(st)
  {
    if "roles" !in st.values then Fail(st, 401, "Unauthorized")
    else if Overlap(st.values["roles"].items, required) then Continue(st)
    else Fail(st, 403, "Permission denied: Required role not found")
  }

  /** AnyRoleRequired on a context: the nested search over user roles and required roles. */
  method AnyRoleRequired(c: Context, required: seq<string>)
    requires RolesAreStrings(c.St())
    modifies c
    ensures c.St() == AnyRoleSpec(old(c.St()), required)
  {
    var v := c.Get("roles");
    if v.None? {
      c.ErrorResponse(401, "Unauthorized");
      c.Abort();
      return;
    }
    var userRoles := v.value.items;
    var i := 0;
    while i < |userRoles|
      invariant 0 <= i <= |userRoles|
      invariant forall a, b :: 0 <= a < i && 0 <= b < |required| ==> userRoles[a] != required[b]
      invariant c.St() == old(c.St())
    {
      var j := 0;
      while j < |required|
        invariant 0 <= j <= |required|
        invariant forall b :: 0 <= b < j ==> userRoles[i] != required[b]
        invariant c.St() == old(c.St())
      {
        if userRoles[i] == required[j] {
          c.Next();
          return;
        }
        j := j + 1;
      }
      i := i + 1;
    }
    c.ErrorResponse(403, "Permission denied: Required role not found");
    c.Abort();
  }

  /** IsOrganizer: admin or organizer. */
  function IsOrganizerSpec(st: State): State
    requires RolesAreStrings(st)
  {
    AnyRoleSpec(st, ["admin", "organizer"])
  }

  /** IsAdmin: admin. */
  function IsAdminSpec(st: State): State
    requires RolesAreStrings(st)
  {
    RoleSpec(st, "admin")
  }

  /** The two guards in terms of the role list: 401 without roles, otherwise pass or 403. */
  lemma GuardsMeaning(st: State)
    requires RolesAreStrings(st) && "roles" in st.values && !st.next
    ensures var rs := st.values["roles"].items;
      && (IsOrganizerSpec(st).next <==> "admin" in rs || "organizer" in rs)
      && (IsAdminSpec(st).next <==> "admin" in rs)
      && (!IsOrganizerSpec(st).next ==> StoppedWith(IsOrganizerSpec(st), 403))
      && (!IsAdminSpec(st).next ==> StoppedWith(IsAdminSpec(st), 403))
  {
    var rs := st.values["roles"].items;
    var req := ["admin", "organizer"];
    if "admin" in rs {
      var i :| 0 <= i < |rs| && rs[i] == "admin";
      assert rs[i] == req[0];
    } else if "organizer" in rs {
      var i :| 0 <= i < |rs| && rs[i] == "organizer";
      assert rs[i] == req[1];
    }
  }

  /** Without roles in the context both guards answer 401. */
  lemma GuardsWithoutRoles(st: State, role: string, required: seq<string>)
    requires "roles" !in st.values && !st.next
    ensures !RoleSpec(st, role).next && !AnyRoleSpec(st, required).next
    ensures StoppedWith(RoleSpec(st, role), 401) && StoppedWith(AnyRoleSpec(st, required), 401)
  {
  }

  /**
   * RoleRequired compares exactly, unlike HasRole: a token whose only role is
   * "Admin" is refused by IsAdmin, while HasRole accepts a user whose role is
   * named "Admin" for "admin".
   */
  lemma RoleRequiredIsCaseSensitive(st: State)
    requires st == Initial.(values := map["roles" := Texts(["Admin"])])
    ensures StoppedWith(IsAdminSpec(st), 403)
    ensures Permissions.HasRole(Some(Permissions.Account("", [Permissions.Role("Admin", [])])), "admin")
  {
    assert "Admin"[0] != "admin"[0];
    assert "admin" !in ["Admin"];
    var u := Permissions.Account("", [Permissions.Role("Admin", [])]);
    Permissions.HasRoleMeaning(Some(u), "admin");
    assert ToLower("Admin") == "admin";
    assert ToLower(u.roles[0].name) == ToLower("admin");
  }

  /** GetUserFromToken's decision: like AuthMiddleware, but every failure goes on unauthenticated. */
  function OptionalAuthSpec(st: State, header: string, validate: string -> Result<Claims>): State {
    if header == "" then Continue(st)
    else match BearerToken(header)
      case None => Continue(st)
      case Some(t) =>
        match validate(t)
        case Err(_) => Continue(st)
        case Ok(cl) => Continue(WithClaims(st, cl).(values := WithClaims(st, cl).values["authenticated" := Flag(true)]))
  }

  /** GetUserFromToken on a context. */
  method GetUserFromToken(c: Context, validate: string -> Result<Claims>)
    modifies c
    ensures c.St() == OptionalAuthSpec(old(c.St()), c.GetHeader("Authorization"), validate)
  {
    var header := c.GetHeader("Authorization");
    if header == "" {
      c.Next();
      return;
    }
    var parts := Split(header, ' ');
    if |parts| != 2 || parts[0] != "Bearer" {
      c.Next();
      return;
    }
    var claims := validate(parts[1]);
    if claims.Err? {
      c.Next();
      return;
    }
    c.Set("userID", Text(claims.value.userId));
    c.Set("email", Text(claims.value.email));
    c.Set("roles", Texts(claims.value.roles));
    c.Set("authenticated", Flag(true));
    c.Next();
  }

  /**
   * GetUserFromToken never aborts and never writes a response; it marks the
   * context authenticated exactly when AuthMiddleware would have let the
   * request through, and otherwise leaves the values untouched.
   */
  lemma OptionalAuthNeverAborts(st: State, header: string, validate: string -> Result<Claims>)
    requires !st.next
    ensures var r := OptionalAuthSpec(st, header, validate);
      && r.next && r.aborted == st.aborted && r.response == st.response && r.headers == st.headers
      && (AuthSpec(st, header, validate).next ==>
            "authenticated" in r.values && r.values["authenticated"] == Flag(true)
            && r.values - {"authenticated"} == AuthSpec(st, header, validate).values - {"authenticated"})
      && (!AuthSpec(st, header, validate).next ==> r.values == st.values)
  {
  }
}
