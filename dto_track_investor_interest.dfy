/** The body of `POST /emitters/:id/track-interest`. */
module TrackInvestorInterestDto {
  import opened Wrappers
  import opened Validation

  datatype TrackInvestorInterest = TrackInvestorInterest(name: string, email: string, phone: Option<string>)

  predicate Valid(d: TrackInvestorInterest, fmt: FormatChecks)
  {
    && |d.name| <= 255
    && fmt.isEmail(d.email) && |d.email| <= 255
    && (d.phone.None? || |d.phone.value| <= 20)
  }

  /** An empty name passes (there is no minimum length), a 21-character phone does not. */
  lemma Bounds(d: TrackInvestorInterest, fmt: FormatChecks)
    requires Valid(d, fmt)
    ensures Valid(d.(name := ""), fmt)
    ensures Valid(d.(phone := None), fmt)
    ensures forall p: string :: |p| == 21 ==> !Valid(d.(phone := Some(p)), fmt)
  {
  }
}
