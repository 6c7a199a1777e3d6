/**
 * `JwtStrategy.validate`: what a verified token's payload turns into. The
 * signature and expiry checks happen before it and are not part of this
 * model.
 */
module JwtStrategy {
  import opened Wrappers
  import opened Entities
  import opened Store
  import opened AuthService

  /** The user attached to an authenticated request. */
  datatype Principal =
    | EmitterPrincipal(emitentId: Id, email: string, name: string, role: string)
    | AdminPrincipal(adminId: Id, username: string, adminEmail: Option<string>, role: string)

  /**
   * An unknown role, then a subject missing from the store its role names,
   * are unauthorized; otherwise the stored emitter or administrator is
   * projected to its key, email, name or username, and the token's role.
   */
  function Validate(emitters: seq<Emitter>, admins: seq<Admin>, payload: Payload): (r: Result<Principal, Error>)
    ensures payload.role != "emitter" && payload.role != "admin" ==> r == Failure(Unauthorized(UnknownRole))
    ensures (payload.role == "emitter" || payload.role == "admin") ==>
      (ValidateUserById(emitters, admins, payload.sub, payload.role).None? <==> r == Failure(Unauthorized(UserNotFound)))
    ensures payload.role == "emitter" && EmittersKeyed(emitters) ==>
      && (r.Success? <==> payload.sub < |emitters|)
      && (r.Success? ==> r.value == EmitterPrincipal(payload.sub, emitters[payload.sub].email, emitters[payload.sub].name, "emitter"))
    ensures payload.role == "admin" && AdminsKeyed(admins) ==>
      && (r.Success? <==> payload.sub < |admins|)
      && (r.Success? ==> r.value == AdminPrincipal(payload.sub, admins[payload.sub].username, admins[payload.sub].email, "admin"))
  {
    if payload.role != "emitter" && payload.role != "admin" then Failure(Unauthorized(UnknownRole))
    else
      match ValidateUserById(emitters, admins, payload.sub, payload.role)
      case None => Failure(Unauthorized(UserNotFound))
      case Some(user) =>
        if payload.role == "emitter" then
          Success(EmitterPrincipal(user.emitter.emitentId, user.emitter.email, user.emitter.name, payload.role))
        else
          Success(AdminPrincipal(user.admin.adminId, user.admin.username, user.admin.email, payload.role))
  }

  /** A token issued at emitter login or registration names a stored emitter and validates to it. */
  lemma EmitterTokensValidate(emitters: seq<Emitter>, admins: seq<Admin>, k: nat)
    requires EmittersKeyed(emitters) && k < |emitters|
    ensures Validate(emitters, admins, EmitterPayload(emitters[k]))
      == Success(EmitterPrincipal(k, emitters[k].email, emitters[k].name, "emitter"))
  {
  }

  /**
   * An administrator's token carries the role stored on its row: it
   * validates when that role is "admin", and is refused as an unknown role
   * when the row holds anything but "admin" or "emitter".
   */
  lemma AdminTokensValidate(emitters: seq<Emitter>, admins: seq<Admin>, k: nat)
    requires AdminsKeyed(admins) && k < |admins|
    ensures admins[k].role == "admin" ==>
      Validate(emitters, admins, AdminPayload(admins[k])) == Success(AdminPrincipal(k, admins[k].username, admins[k].email, "admin"))
    ensures admins[k].role != "admin" && admins[k].role != "emitter" ==>
      Validate(emitters, admins, AdminPayload(admins[k])) == Failure(Unauthorized(UnknownRole))
  {
  }
}
