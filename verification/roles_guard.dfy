/** `RolesGuard.canActivate`: the declared roles of a route against the role in
    the authenticated user's token. */
module RolesGuard {
  import opened Common
  import opened Jwt

  /** `reflector.getAllAndOverride(ROLES_KEY, [handler, class])`: the handler's
      metadata when it has any, else the class's. */
  function RequiredRoles(handlerRoles: Option<seq<string>>, classRoles: Option<seq<string>>): (r: Option<seq<string>>)
    ensures handlerRoles.Some? ==> r == handlerRoles
    ensures handlerRoles.None? ==> r == classRoles
  {
    if handlerRoles.Some? then handlerRoles else classRoles
  }

  /** No roles declared, or an empty list. */
  predicate Open(required: Option<seq<string>>) {
    required.None? || |required.value| == 0
  }

  function CanActivate(handlerRoles: Option<seq<string>>, classRoles: Option<seq<string>>, user: Option<Claims>): (r: Result<bool>)
    ensures r.Ok? ==> r.value
    ensures Open(RequiredRoles(handlerRoles, classRoles)) ==> r == Ok(true)
    ensures !Open(RequiredRoles(handlerRoles, classRoles)) && user.None? ==> r == Err(Unauthorized("Unauthorized"))
    ensures !Open(RequiredRoles(handlerRoles, classRoles)) && user.Some? && user.value.role == "" ==>
      r == Err(Forbidden("Role not found in token"))
    ensures !Open(RequiredRoles(handlerRoles, classRoles)) && user.Some? && user.value.role != "" ==>
      (r.Ok? <==> user.value.role in RequiredRoles(handlerRoles, classRoles).value)
    ensures r.Err? && user.Some? && user.value.role != "" ==> r.error == Forbidden("Access denied")
  {
    var required := RequiredRoles(handlerRoles, classRoles);
    if Open(required) then Ok(true)
    else if user.None? then Err(Unauthorized("Unauthorized"))
    else if user.value.role == "" then Err(Forbidden("Role not found in token"))
    else if user.value.role !in required.value then Err(Forbidden("Access denied"))
    else Ok(true)
  }

  /** The guard lets a request through exactly when the route is open or the
      token's role is one of the declared roles. */
  lemma AllowedIff(handlerRoles: Option<seq<string>>, classRoles: Option<seq<string>>, user: Option<Claims>)
    ensures CanActivate(handlerRoles, classRoles, user).Ok? <==>
      var required := RequiredRoles(handlerRoles, classRoles);
      Open(required) || (user.Some? && user.value.role != "" && user.value.role in required.value)
  {
  }

  /** Class-level roles are irrelevant once the handler declares its own. */
  lemma HandlerOverridesClass(handlerRoles: seq<string>, classA: Option<seq<string>>, classB: Option<seq<string>>, user: Option<Claims>)
    ensures CanActivate(Some(handlerRoles), classA, user) == CanActivate(Some(handlerRoles), classB, user)
  {
  }
}
