/** Role-based authorization predicates of the OAuth service (fastapi-oauth/app/authz.py). */
module Authz {
  import opened Common

  /** The three roles a user document may hold. */
  datatype Role = HrAdmin | Manager | Employee

  function RoleName(r: Role): (s: string)
    ensures s in {"HR_ADMIN", "MANAGER", "EMPLOYEE"}
    ensures s == "HR_ADMIN" <==> r == HrAdmin
    ensures s == "MANAGER" <==> r == Manager
    ensures s == "EMPLOYEE" <==> r == Employee
  {
    match r
    case HrAdmin => "HR_ADMIN"
    case Manager => "MANAGER"
    case Employee => "EMPLOYEE"
  }

  /** The authenticated caller as the dependency chain hands it over. */
  datatype AuthUser = AuthUser(uid: string, email: Option<string>, roles: seq<string>)

  datatype Denied = Forbidden  // HTTP 403 "Insuficientes permisos"

  datatype Decision = Admit(user: AuthUser) | Deny(reason: Denied)

  /** `any(r in held for r in allowed)`, scanning `allowed` left to right. */
  function AnyHeld(allowed: seq<string>, held: set<string>): (b: bool)
    ensures b <==> exists i :: 0 <= i < |allowed| && allowed[i] in held
  {
    if allowed == [] then false
    else if allowed[0] in held then true
    else
      var rest := AnyHeld(allowed[1..], held);
      assert forall i :: 1 <= i < |allowed| ==> allowed[i] == allowed[1..][i - 1];
      rest
  }

  /** `set(user_roles or [])`: a missing role list holds nothing. */
  function HeldRoles(userRoles: Option<seq<string>>): (s: set<string>)
    ensures userRoles.None? ==> s == {}
    ensures userRoles.Some? ==> forall r :: r in s <==> r in userRoles.value
  {
    if userRoles.None? then {} else set r | r in userRoles.value
  }

  /** True iff some allowed role is among the user's roles. */
  function HasAnyRole(userRoles: Option<seq<string>>, allowed: seq<string>): (b: bool)
    ensures b <==> userRoles.Some? && exists r :: r in allowed && r in userRoles.value
    ensures userRoles.None? || userRoles == Some([]) || allowed == [] ==> !b
  {
    var held := HeldRoles(userRoles);
    var b := AnyHeld(allowed, held);
    assert b ==> exists r :: r in allowed && r in held;
    assert (exists r :: r in allowed && r in held) ==> b by {
      if r :| r in allowed && r in held {
        var i :| 0 <= i < |allowed| && allowed[i] == r;
      }
    }
    b
  }

  function Names(allowed: seq<Role>): (names: seq<string>)
    ensures |names| == |allowed|
    ensures forall i :: 0 <= i < |allowed| ==> names[i] == RoleName(allowed[i])
  {
    if allowed == [] then [] else [RoleName(allowed[0])] + Names(allowed[1..])
  }

  /** The guard built by `require_roles(*allowed)`, applied to one caller. */
  function RequireRoles(allowed: seq<Role>, user: AuthUser): (d: Decision)
    ensures d.Admit? <==> exists i :: 0 <= i < |allowed| && RoleName(allowed[i]) in user.roles
    ensures d.Admit? ==> d.user == user
  {
    var names := Names(allowed);
    if HasAnyRole(Some(user.roles), names) then
      assert exists r :: r in names && r in user.roles;
      Admit(user)
    else
      assert forall i :: 0 <= i < |allowed| ==> names[i] in names;
      Deny(Forbidden)
  }

  /** The guard built by `require_self_or_roles(ownerParam, *allowed)`: `params` are the
      request parameters the guard is given by keyword. */
  function RequireSelfOrRoles(ownerParam: string, allowed: seq<Role>, user: AuthUser,
                              params: map<string, string>): (d: Decision)
    ensures var owner := if ownerParam in params then Some(params[ownerParam]) else None;
            d.Admit? <==> (Given(owner) && owner.value == user.uid)
                          || HasAnyRole(Some(user.roles), Names(allowed))
    ensures d.Admit? ==> d.user == user
  {
    var owner := if ownerParam in params then Some(params[ownerParam]) else None;
    if Given(owner) && owner.value == user.uid then Admit(user)
    else if HasAnyRole(Some(user.roles), Names(allowed)) then Admit(user)
    else Deny(Forbidden)
  }

  /** A missing or empty owner parameter never grants access by itself. */
  lemma EmptyOwnerGrantsNothing(ownerParam: string, allowed: seq<Role>, user: AuthUser,
                                params: map<string, string>)
    requires ownerParam !in params || params[ownerParam] == ""
    ensures RequireSelfOrRoles(ownerParam, allowed, user, params).Admit?
            <==> RequireRoles(allowed, user).Admit?
  {
    var names := Names(allowed);
    if RequireRoles(allowed, user).Admit? {
      var i :| 0 <= i < |allowed| && RoleName(allowed[i]) in user.roles;
      assert names[i] in names;
    }
  }
}
