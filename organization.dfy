/**
 * The organization-owner guard. It reads a user record under the context
 * key "user", requires a role named exactly "organizer" or "admin", lets an
 * admin through for any organization, and lets an organizer through only
 * for an organization whose organizer is that user. The organizations
 * table is a parameter, keyed by organization ID.
 */
module OrgGuard {
  import opened Wrappers
  import opened Gin
  import Permissions
  import AuthGuard

  /** Some role is named exactly `name`, letter case included. */
  predicate HasRoleNamed(roles: seq<Permissions.Role>, name: string) {
    exists k :: 0 <= k < |roles| && roles[k].name == name
  }

  /** What the guard decides: stop with a status and message, or go on, storing the organization when there is one. */
  datatype Verdict = Deny(status: int, message: string) | Admit(org: Option<Organization>)

  /** The decision chain after the user record is in hand; `id` is the user's ID. */
  function OwnerVerdict(id: string, organizer: bool, admin: bool,
                        orgID: string, orgs: map<string, Organization>): Verdict {
    if !organizer && !admin then Deny(403, "Access denied: requires organizer role")
    else if orgID == "" then Deny(400, "Organization ID is required")
    else if admin then Admit(None)
    else if orgID !in orgs then Deny(404, "Organization not found")
    else if orgs[orgID].organizerId != id then
      Deny(403, "Access denied: you are not the organizer of this organization")
    else Admit(Some(orgs[orgID]))
  }

  /** A verdict carried out on the context. */
  function Enact(st: State, v: Verdict): State {
    match v
    case Deny(status, message) => Fail(st, status, message)
    case Admit(None) => Continue(st)
    case Admit(Some(o)) => Continue(st.(values := st.values["organization" := OrgRecord(o)]))
  }

  function OwnerDecision(st: State, id: string, organizer: bool, admin: bool,
                         orgID: string, orgs: map<string, Organization>): State {
    Enact(st, OwnerVerdict(id, organizer, admin, orgID, orgs))
  }

  /** IsOrganizerOfOrganization's decision, reading the "user" key. */
  function OrgSpec(st: State, orgID: string, orgs: map<string, Organization>): State {
    if "user" !in st.values then Fail(st, 401, "User not authenticated")
    else if !st.values["user"].UserRecord? then Fail(st, 500, "Failed to get user information")
    else
      var u := st.values["user"].user;
      OwnerDecision(st, u.id, HasRoleNamed(u.roles, "organizer"), HasRoleNamed(u.roles, "admin"), orgID, orgs)
  }

  /** IsOrganizerOfOrganization on a context: the role flags are set by a loop over the user's roles. */
  method IsOrganizerOfOrganization(c: Context, orgs: map<string, Organization>)
    modifies c
    ensures c.St() == OrgSpec(old(c.St()), Param(c.request, "id"), orgs)
  {
    var v := c.Get("user");
    if v.None? {
      c.ErrorResponse(401, "User not authenticated");
      c.Abort();
      return;
    }
    if !v.value.UserRecord? {
      c.ErrorResponse(500, "Failed to get user information");
      c.Abort();
      return;
    }
    var user := v.value.user;
    var hasOrganizerRole := false;
    var hasAdminRole := false;
    var i := 0;
    while i < |user.roles|
      invariant 0 <= i <= |user.roles|
      invariant hasOrganizerRole <==> exists k :: 0 <= k < i && user.roles[k].name == "organizer"
      invariant hasAdminRole <==> exists k :: 0 <= k < i && user.roles[k].name == "admin"
      invariant c.St() == old(c.St())
    {
      if user.roles[i].name == "organizer" {
        hasOrganizerRole := true;
      }
      if user.roles[i].name == "admin" {
        hasAdminRole := true;
      }
      i := i + 1;
    }
    if !hasOrganizerRole && !hasAdminRole {
      c.ErrorResponse(403, "Access denied: requires organizer role");
      c.Abort();
      return;
    }
    var orgID := Param(c.request, "id");
    if orgID == "" {
      c.ErrorResponse(400, "Organization ID is required");
      c.Abort();
      return;
    }
    if hasAdminRole {
      c.Next();
      return;
    }
    if orgID !in orgs {
      c.ErrorResponse(404, "Organization not found");
      c.Abort();
      return;
    }
    var organization := orgs[orgID];
    if organization.organizerId != user.id {
      c.ErrorResponse(403, "Access denied: you are not the organizer of this organization");
      c.Abort();
      return;
    }
    c.Set("organization", OrgRecord(organization));
    c.Next();
  }

  /** A context holding the user record `u`. */
  predicate HoldsUser(st: State, u: Permissions.Account) {
    "user" in st.values && st.values["user"] == UserRecord(u)
  }

  /** Without a user record the guard answers 401, before looking at roles or the ID. */
  lemma OrgSpecUnauthenticated(st: State, orgID: string, orgs: map<string, Organization>)
    requires "user" !in st.values && !st.next
    ensures StoppedWith(OrgSpec(st, orgID, orgs), 401) && !OrgSpec(st, orgID, orgs).next
  {
  }

  /** The role check comes first: a user with neither role gets 403 even when the ID is missing. */
  lemma OrgSpecRoleBeforeId(st: State, u: Permissions.Account, orgID: string, orgs: map<string, Organization>)
    requires HoldsUser(st, u) && !st.next
    requires !HasRoleNamed(u.roles, "organizer") && !HasRoleNamed(u.roles, "admin")
    ensures StoppedWith(OrgSpec(st, orgID, orgs), 403) && !OrgSpec(st, orgID, orgs).next
  {
  }

  /** A holder of either role without an ID gets 400. */
  lemma OrgSpecMissingId(st: State, u: Permissions.Account, orgs: map<string, Organization>)
    requires HoldsUser(st, u) && !st.next
    requires HasRoleNamed(u.roles, "organizer") || HasRoleNamed(u.roles, "admin")
    ensures StoppedWith(OrgSpec(st, "", orgs), 400) && !OrgSpec(st, "", orgs).next
  {
  }

  /** An admin passes for every non-empty ID, whatever the organizations table holds. */
  lemma OrgSpecAdminPasses(st: State, u: Permissions.Account, orgID: string, orgs: map<string, Organization>)
    requires HoldsUser(st, u) && HasRoleNamed(u.roles, "admin") && orgID != "" && !st.aborted
    ensures OrgSpec(st, orgID, orgs) == Continue(st)
  {
  }

  /**
   * An organizer who is not an admin passes exactly when the organization
   * exists and names that user as its organizer, and the organization is then
   * stored under "organization"; a missing organization is 404, another
   * organizer's organization 403.
   */
  lemma OrgSpecOrganizer(st: State, u: Permissions.Account, orgID: string, orgs: map<string, Organization>)
    requires HoldsUser(st, u) && HasRoleNamed(u.roles, "organizer") && !HasRoleNamed(u.roles, "admin")
    requires orgID != "" && !st.aborted && !st.next
    ensures var r := OrgSpec(st, orgID, orgs);
      && (Passed(r) <==> orgID in orgs && orgs[orgID].organizerId == u.id)
      && (Passed(r) ==> r.values == st.values["organization" := OrgRecord(orgs[orgID])])
      && (orgID !in orgs ==> StoppedWith(r, 404))
      && (orgID in orgs && orgs[orgID].organizerId != u.id ==> StoppedWith(r, 403))
  {
  }

  /** AuthMiddleware, then (if it passed) IsOrganizerOfOrganization: the middleware order of the organization routes. */
  function OrgRouteAsWritten(st: State, header: string, validate: string -> Result<AuthGuard.Claims>,
                             orgID: string, orgs: map<string, Organization>): State {
    var a := AuthGuard.AuthSpec(st, header, validate);
    if a.aborted then a else OrgSpec(Handoff(a), orgID, orgs)
  }

  /**
   * AuthMiddleware stores "userID", "email" and "roles" but never "user", so
   * on the organization routes every request ends with 401, whatever its
   * token, roles or organization.
   */
  lemma OrgRouteAlwaysUnauthorized(st: State, header: string, validate: string -> Result<AuthGuard.Claims>,
                                   orgID: string, orgs: map<string, Organization>)
    requires "user" !in st.values && !st.aborted && !st.next
    ensures StoppedWith(OrgRouteAsWritten(st, header, validate, orgID, orgs), 401)
    ensures !Passed(OrgRouteAsWritten(st, header, validate, orgID, orgs))
  {
    AuthGuard.AuthOutcome(st, header, validate);
    var a := AuthGuard.AuthSpec(st, header, validate);
    if !a.aborted {
      assert "user" !in Handoff(a).values;
    }
  }

  /** The corrected guard: it reads the user ID and roles AuthMiddleware stores. */
  function OrgSpecFromClaims(st: State, orgID: string, orgs: map<string, Organization>): State {
    if "userID" !in st.values || "roles" !in st.values then Fail(st, 401, "User not authenticated")
    else if !st.values["userID"].Text? || !st.values["roles"].Texts? then
      Fail(st, 500, "Failed to get user information")
    else
      var roles := st.values["roles"].items;
      OwnerDecision(st, st.values["userID"].s, "organizer" in roles, "admin" in roles, orgID, orgs)
  }

  function OrgRouteCorrected(st: State, header: string, validate: string -> Result<AuthGuard.Claims>,
                             orgID: string, orgs: map<string, Organization>): State {
    var a := AuthGuard.AuthSpec(st, header, validate);
    if a.aborted then a else OrgSpecFromClaims(Handoff(a), orgID, orgs)
  }

  /** The user record the claims describe: its ID and roles without permissions. */
  function ClaimsUser(cl: AuthGuard.Claims): Permissions.Account {
    Permissions.Account(cl.userId, seq(|cl.roles|, i requires 0 <= i < |cl.roles| => Permissions.Role(cl.roles[i], [])))
  }

  lemma ClaimsUserRoles(cl: AuthGuard.Claims, name: string)
    ensures HasRoleNamed(ClaimsUser(cl).roles, name) <==> name in cl.roles
  {
    var rs := ClaimsUser(cl).roles;
    if name in cl.roles {
      var i :| 0 <= i < |cl.roles| && cl.roles[i] == name;
      assert rs[i].name == name;
    }
  }

  /**
   * On a request with a valid token, the corrected route answers exactly as
   * the original guard would for the user record the token describes: same
   * response, same abort, same hand-on.
   */
  lemma CorrectedRouteDecidesLikeOriginal(st: State, t: string, validate: string -> Result<AuthGuard.Claims>,
                                          orgID: string, orgs: map<string, Organization>)
    requires !st.aborted && !st.next && ' ' !in t && validate(t).Ok?
    ensures var r := OrgRouteCorrected(st, "Bearer " + t, validate, orgID, orgs);
      var u := ClaimsUser(validate(t).value);
      var o := OrgSpec(st.(values := st.values["user" := UserRecord(u)]), orgID, orgs);
      r.response == o.response && r.aborted == o.aborted && r.next == o.next
  {
    var cl := validate(t).value;
    AuthGuard.BearerTokenMeaning("Bearer " + t, t);
    var s1 := AuthGuard.WithClaims(st, cl);
    assert Handoff(AuthGuard.AuthSpec(st, "Bearer " + t, validate)) == s1;
    var organizer, admin := "organizer" in cl.roles, "admin" in cl.roles;
    assert OrgRouteCorrected(st, "Bearer " + t, validate, orgID, orgs)
      == OwnerDecision(s1, cl.userId, organizer, admin, orgID, orgs);
    var s2 := st.(values := st.values["user" := UserRecord(ClaimsUser(cl))]);
    ClaimsUserRoles(cl, "organizer");
    ClaimsUserRoles(cl, "admin");
    assert OrgSpec(s2, orgID, orgs) == OwnerDecision(s2, cl.userId, organizer, admin, orgID, orgs);
    EnactIgnoresValues(s1, s2, OwnerVerdict(cl.userId, organizer, admin, orgID, orgs));
  }

  /** How a verdict leaves the response, the abort and the hand-on does not depend on the context's values. */
  lemma EnactIgnoresValues(s1: State, s2: State, v: Verdict)
    requires s1.response == s2.response && s1.aborted == s2.aborted && s1.next == s2.next
    ensures Enact(s1, v).response == Enact(s2, v).response
    ensures Enact(s1, v).aborted == Enact(s2, v).aborted && Enact(s1, v).next == Enact(s2, v).next
  {
  }

  /** With the correction, the organizer named by an existing organization gets through and the organization is stored. */
  lemma CorrectedRouteAdmitsOwner(st: State, t: string, validate: string -> Result<AuthGuard.Claims>,
                                  orgID: string, orgs: map<string, Organization>)
    requires !st.aborted && !st.next && ' ' !in t && validate(t).Ok?
    requires "organizer" in validate(t).value.roles
    requires orgID != "" && orgID in orgs && orgs[orgID].organizerId == validate(t).value.userId
    ensures var r := OrgRouteCorrected(st, "Bearer " + t, validate, orgID, orgs);
      Passed(r) && ("admin" !in validate(t).value.roles ==>
        "organization" in r.values && r.values["organization"] == OrgRecord(orgs[orgID]))
  {
    AuthGuard.BearerTokenMeaning("Bearer " + t, t);
  }
}
