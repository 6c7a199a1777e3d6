/**
 * The body of `PUT /profile/emitter`. It declares no email, password, status
 * or rejection-reason field. Every field may be left out or sent as JSON
 * `null`; `@IsOptional` skips the checks for both.
 */
module UpdateEmitterProfileDto {
  import opened Validation

  /** A field of a JSON body: left out, sent as `null`, or sent with a value. */
  datatype Field<T> = Absent | Null | Sent(value: T)

  datatype UpdateEmitterProfile = UpdateEmitterProfile(
    name: Field<string>,
    inn: Field<string>,
    ogrnOgrnip: Field<string>,
    legalAddress: Field<string>,
    actualAddress: Field<string>,
    phone: Field<string>,
    website: Field<string>,
    description: Field<string>,
    logoUrl: Field<string>)

  /** The update that supplies nothing. */
  function NoChanges(): UpdateEmitterProfile
  {
    UpdateEmitterProfile(Absent, Absent, Absent, Absent, Absent, Absent, Absent, Absent, Absent)
  }

  predicate Valid(d: UpdateEmitterProfile, fmt: FormatChecks)
  {
    && (!d.name.Sent? || LengthIn(d.name.value, 2, 255))
    && (!d.inn.Sent? || InnPattern(d.inn.value))
    && (!d.ogrnOgrnip.Sent? || OgrnPattern(d.ogrnOgrnip.value))
    && (!d.website.Sent? || fmt.isUrl(d.website.value))
    && (!d.logoUrl.Sent? || fmt.isUrl(d.logoUrl.value))
  }

  /**
   * Every field is optional, each checked only when sent with a value, with
   * the same rules as at registration; a `null` passes for every field,
   * the name included.
   */
  lemma {:induction false} ValidMeans(d: UpdateEmitterProfile, fmt: FormatChecks)
    ensures Valid(d, fmt) <==>
      && (d.name.Sent? ==> 2 <= |d.name.value| <= 255)
      && (d.inn.Sent? ==> (|d.inn.value| == 10 || |d.inn.value| == 12) && AllDigits(d.inn.value))
      && (d.ogrnOgrnip.Sent? ==> (|d.ogrnOgrnip.value| == 13 || |d.ogrnOgrnip.value| == 15) && AllDigits(d.ogrnOgrnip.value))
      && (d.website.Sent? ==> fmt.isUrl(d.website.value))
      && (d.logoUrl.Sent? ==> fmt.isUrl(d.logoUrl.value))
  {
    if d.inn.Sent? {
      InnPatternMeans(d.inn.value);
    }
    if d.ogrnOgrnip.Sent? {
      OgrnPatternMeans(d.ogrnOgrnip.value);
    }
  }

  /** An empty update passes validation. */
  lemma EmptyUpdateIsValid(fmt: FormatChecks)
    ensures Valid(NoChanges(), fmt)
  {
  }

  /** Nulls are never checked: blanking any field, the name included, keeps a valid update valid. */
  lemma NullsPassValidation(d: UpdateEmitterProfile, fmt: FormatChecks)
    requires Valid(d, fmt)
    ensures Valid(d.(name := Null, inn := Null, ogrnOgrnip := Null, website := Null, logoUrl := Null), fmt)
  {
  }
}
