/** The body of `POST /auth/emitter/register`. */
module RegisterEmitterDto {
  import opened Wrappers
  import opened Validation

  datatype RegisterEmitter = RegisterEmitter(
    name: string,
    email: string,
    password: string,
    inn: Option<string>,
    ogrnOgrnip: Option<string>,
    legalAddress: Option<string>,
    actualAddress: Option<string>,
    phone: Option<string>,
    website: Option<string>,
    description: Option<string>,
    logoUrl: Option<string>)

  /** The field decorators, each as declared; absent optional fields are not checked. */
  predicate Valid(d: RegisterEmitter, fmt: FormatChecks)
  {
    && LengthIn(d.name, 2, 255)
    && fmt.isEmail(d.email) && |d.email| <= 255
    && |d.password| >= 8
    && (d.inn.None? || InnPattern(d.inn.value))
    && (d.ogrnOgrnip.None? || OgrnPattern(d.ogrnOgrnip.value))
    && (d.website.None? || fmt.isUrl(d.website.value))
    && (d.logoUrl.None? || fmt.isUrl(d.logoUrl.value))
  }

  /**
   * What an accepted registration looks like: a name of 2 to 255 characters,
   * an email address of at most 255, a password of at least 8 (nothing about
   * its composition), an INN of exactly 10 or 12 decimal digits and an OGRN of
   * exactly 13 or 15 when given, URLs for the website and the logo when given,
   * and no condition at all on the addresses, phone and description.
   */
  lemma {:induction false} ValidMeans(d: RegisterEmitter, fmt: FormatChecks)
    ensures Valid(d, fmt) <==>
      && 2 <= |d.name| <= 255
      && fmt.isEmail(d.email) && |d.email| <= 255
      && |d.password| >= 8
      && (d.inn.Some? ==> (|d.inn.value| == 10 || |d.inn.value| == 12) && AllDigits(d.inn.value))
      && (d.ogrnOgrnip.Some? ==> (|d.ogrnOgrnip.value| == 13 || |d.ogrnOgrnip.value| == 15) && AllDigits(d.ogrnOgrnip.value))
      && (d.website.Some? ==> fmt.isUrl(d.website.value))
      && (d.logoUrl.Some? ==> fmt.isUrl(d.logoUrl.value))
  {
    if d.inn.Some? {
      InnPatternMeans(d.inn.value);
    }
    if d.ogrnOgrnip.Some? {
      OgrnPatternMeans(d.ogrnOgrnip.value);
    }
  }

  /** The optional text fields take any string: changing them never changes the verdict. */
  lemma FreeTextIsUnchecked(d: RegisterEmitter, fmt: FormatChecks, legal: Option<string>, actual: Option<string>, phone: Option<string>, description: Option<string>)
    ensures Valid(d, fmt) == Valid(d.(legalAddress := legal, actualAddress := actual, phone := phone, description := description), fmt)
  {
  }
}
