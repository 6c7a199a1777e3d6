/** The body of `POST /auth/emitter/login`. */
module LoginEmitterDto {
  import opened Validation

  datatype LoginEmitter = LoginEmitter(email: string, password: string)

  /** The message shared by a malformed email and a short password. */
  const BadFormat: string := "Некорректный формат email или пароль"

  /** The library's default message for `MaxLength(255)`. */
  const EmailTooLong: string := "email must be shorter than or equal to 255 characters"

  /** The messages validation reports, in the order the constraints are declared. */
  function Messages(d: LoginEmitter, fmt: FormatChecks): (msgs: seq<string>)
    ensures msgs == [] <==> fmt.isEmail(d.email) && |d.email| <= 255 && |d.password| >= 8
    ensures BadFormat in msgs <==> !fmt.isEmail(d.email) || |d.password| < 8
    ensures EmailTooLong in msgs <==> |d.email| > 255
  {
    (if fmt.isEmail(d.email) then [] else [BadFormat])
    + (if |d.email| <= 255 then [] else [EmailTooLong])
    + (if |d.password| >= 8 then [] else [BadFormat])
  }

  /**
   * A caller cannot tell from the messages whether the email or the password
   * was at fault: a bad email with a good password and a good email with a
   * short password report the same thing.
   */
  lemma SameMessageForEitherFault(good: LoginEmitter, bad: LoginEmitter, fmt: FormatChecks)
    requires fmt.isEmail(good.email) && |good.email| <= 255 && |good.password| < 8
    requires !fmt.isEmail(bad.email) && |bad.email| <= 255 && |bad.password| >= 8
    ensures Messages(good, fmt) == Messages(bad, fmt) == [BadFormat]
  {
  }
}
