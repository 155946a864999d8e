/** The `isAdmin` middleware, which runs after `authenticate` on the admin routes. */
module AdminGate {
  import opened Store
  import opened Http
  import Auth
  import UserModel

  const NotLoadedMessage: string := "Internal error: usuário não carregado"
  const DeniedMessage: string := "Acesso negado. Administradores apenas."

  /** No attached user is a server error, a non-admin role is refused, an admin passes. */
  function IsAdmin(user: Option<PublicUser>): (g: GateOutcome)
    ensures g.Next? <==> user.Some? && user.value.role == AdminRole
    ensures user.None? ==> g == Halt(500, NotLoadedMessage)
    ensures user.Some? && user.value.role != AdminRole ==> g == Halt(403, DeniedMessage)
  {
    if user.None? then Halt(500, NotLoadedMessage)
    else if user.value.role != AdminRole then Halt(403, DeniedMessage)
    else Next
  }

  /**
   * After `authenticate` has admitted a request, `isAdmin` passes it exactly
   * when the stored row of the token's user has the role "admin".
   */
  lemma AdminAfterAuthentication(users: map<UserId, User>, header: Option<string>, verify: string -> Auth.Claims)
    requires Auth.Authentication(users, header, verify).Admitted?
    ensures var step := Auth.Authentication(users, header, verify);
      IsAdmin(Some(step.user)).Next? <==> users[step.id].role == AdminRole
  {
  }

  /** A user created without an explicit role gets the default "user" and is refused by `isAdmin`. */
  lemma DefaultRoleIsNotAdmin(id: UserId, nu: UserModel.NewUser, now: Time)
    requires nu.role.Absent?
    ensures IsAdmin(Some(PublicOf(UserModel.InsertedUser(id, nu, now)))) == Halt(403, DeniedMessage)
  {
  }
}
