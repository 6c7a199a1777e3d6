/** The body of `POST /auth/admin/login`. */
module LoginAdminDto {
  import opened Wrappers
  import opened Validation

  datatype LoginAdmin = LoginAdmin(username: Option<string>, email: Option<string>, password: string)

  predicate Valid(d: LoginAdmin, fmt: FormatChecks)
  {
    && (d.username.None? || LengthIn(d.username.value, 3, 50))
    && (d.email.None? || (fmt.isEmail(d.email.value) && |d.email.value| <= 255))
    && |d.password| >= 8
  }

  /** Leaving out both identifiers passes validation; the service refuses it instead. */
  lemma NoIdentifierPasses(password: string, fmt: FormatChecks)
    requires |password| >= 8
    ensures Valid(LoginAdmin(None, None, password), fmt)
  {
  }
}
