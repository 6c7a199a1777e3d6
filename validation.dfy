/**
 * The building blocks the request DTOs are declared with: optional fields,
 * length bounds, the digit patterns for tax identifiers, integer checks on
 * JSON numbers, and the library format checks (email, URL, UUID), which the
 * model takes as given predicates.
 */
module Validation {
  import opened Wrappers

  /** `IsEmail`, `IsUrl` and `IsUUID` of the validator library, left uninterpreted. */
  datatype FormatChecks = FormatChecks(isEmail: string -> bool, isUrl: string -> bool, isUuid: string -> bool)

  /** `MinLength(lo)` and `MaxLength(hi)` together. */
  predicate LengthIn(s: string, lo: nat, hi: nat)
  {
    lo <= |s| <= hi
  }

  /** `IsInt` on a JSON number. */
  predicate IsInt(x: real)
  {
    x.Floor as real == x
  }

  predicate IsDigit(c: char)
  {
    '0' <= c <= '9'
  }

  predicate AllDigits(s: string)
  {
    forall i :: 0 <= i < |s| ==> IsDigit(s[i])
  }

  /** The regular expression `\d{n}` anchored at both ends. */
  predicate DigitRun(s: string, n: nat)
  {
    if n == 0 then s == []
    else s != [] && IsDigit(s[0]) && DigitRun(s[1..], n - 1)
  }

  /** `^\d{n}$` holds exactly of the strings of `n` decimal digits. */
  lemma {:induction false} DigitRunMeans(s: string, n: nat)
    ensures DigitRun(s, n) <==> |s| == n && AllDigits(s)
  {
    if n > 0 && s != [] {
      DigitRunMeans(s[1..], n - 1);
      if |s| == n && AllDigits(s) {
        assert AllDigits(s[1..]) by {
          forall i | 0 <= i < |s[1..]| ensures IsDigit(s[1..][i]) {
            assert s[1..][i] == s[i + 1];
          }
        }
      }
    }
  }

  /** INN: `^(\d{10}|\d{12})$`. */
  predicate InnPattern(s: string)
  {
    DigitRun(s, 10) || DigitRun(s, 12)
  }

  /** OGRN / OGRNIP: `^(\d{13}|\d{15})$`. */
  predicate OgrnPattern(s: string)
  {
    DigitRun(s, 13) || DigitRun(s, 15)
  }

  lemma InnPatternMeans(s: string)
    ensures InnPattern(s) <==> (|s| == 10 || |s| == 12) && AllDigits(s)
  {
    DigitRunMeans(s, 10);
    DigitRunMeans(s, 12);
  }

  lemma OgrnPatternMeans(s: string)
    ensures OgrnPattern(s) <==> (|s| == 13 || |s| == 15) && AllDigits(s)
  {
    DigitRunMeans(s, 13);
    DigitRunMeans(s, 15);
  }
}
