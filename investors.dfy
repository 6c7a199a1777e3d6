/**
 * `InvestorsService`: the record of investors who showed interest, one per
 * email address. A repeated interest refreshes the stored name and phone.
 */
module InvestorsService {
  import opened Wrappers
  import opened Entities
  import opened Store
  import opened Collections
  import opened TrackInvestorInterestDto

  function WithEmail(email: string): Investor -> bool
  {
    (v: Investor) => v.email == email
  }

  /** `findOne({ where: { email } })`. */
  function IndexOfEmail(rows: seq<Investor>, email: string): (r: Option<nat>)
    ensures r.Some? ==> r.value < |rows| && rows[r.value].email == email
    ensures r.None? <==> forall j :: 0 <= j < |rows| ==> rows[j].email != email
  {
    var r := FirstIndex(rows, WithEmail(email));
    assert r.Some? ==> WithEmail(email)(rows[r.value]);
    assert r.None? ==> forall j :: 0 <= j < |rows| ==> !WithEmail(email)(rows[j]);
    r
  }

  /** JavaScript's `phone || null`: an absent or empty phone becomes NULL. */
  function OrNull(phone: Option<string>): (r: Option<string>)
    ensures r.Some? <==> phone.Some? && phone.value != ""
    ensures r.Some? ==> r == phone
  {
    if phone.Some? && phone.value != "" then phone else None
  }

  /** The investors table after `createInvestorInterest(d)`. */
  function Upsert(rows: seq<Investor>, d: TrackInvestorInterest): seq<Investor>
  {
    match IndexOfEmail(rows, d.email)
    case Some(k) => rows[k := rows[k].(name := d.name, phone := OrNull(d.phone))]
    case None => rows + [Investor(|rows|, d.name, d.email, d.phone, "investor")]
  }

  /** An investor already on file keeps its key, email and role; its name is replaced and its phone becomes the new one or NULL. */
  lemma UpsertUpdatesExisting(rows: seq<Investor>, d: TrackInvestorInterest, k: nat)
    requires EmailsUnique(rows) && k < |rows| && rows[k].email == d.email
    ensures |Upsert(rows, d)| == |rows|
    ensures Upsert(rows, d)[k] == rows[k].(name := d.name, phone := OrNull(d.phone))
    ensures forall j :: 0 <= j < |rows| && j != k ==> Upsert(rows, d)[j] == rows[j]
  {
    var found := IndexOfEmail(rows, d.email);
    assert found.Some?;
    assert found.value == k;
  }

  /** A new email adds one investor with the supplied data, phone as given, role "investor". */
  lemma UpsertInsertsNew(rows: seq<Investor>, d: TrackInvestorInterest)
    requires forall j :: 0 <= j < |rows| ==> rows[j].email != d.email
    ensures Upsert(rows, d) == rows + [Investor(|rows|, d.name, d.email, d.phone, "investor")]
  {
  }

  /** The upsert keeps keys and the unique email column, and leaves exactly one investor with the email. */
  lemma UpsertKeepsValid(rows: seq<Investor>, d: TrackInvestorInterest)
    requires InvestorsKeyed(rows) && EmailsUnique(rows)
    ensures InvestorsKeyed(Upsert(rows, d)) && EmailsUnique(Upsert(rows, d))
    ensures Count(Upsert(rows, d), WithEmail(d.email)) == 1
  {
    var r := Upsert(rows, d);
    match IndexOfEmail(rows, d.email)
    case Some(k) =>
      UpsertUpdatesExisting(rows, d, k);
      assert forall j :: 0 <= j < |r| && j != k ==> !WithEmail(d.email)(r[j]);
      CountOne(r, WithEmail(d.email), k);
    case None =>
      assert forall j :: 0 <= j < |rows| ==> r[j] == rows[j];
      assert forall j :: 0 <= j < |r| && j != |rows| ==> !WithEmail(d.email)(r[j]);
      CountOne(r, WithEmail(d.email), |rows|);
  }

  /**
   * Showing interest twice with the same email leaves one investor with it,
   * and the second call changes nothing unless the phone was the empty
   * string (stored as given on insert, turned into NULL on update).
   */
  lemma UpsertTwice(rows: seq<Investor>, d: TrackInvestorInterest)
    requires InvestorsKeyed(rows) && EmailsUnique(rows)
    ensures Count(Upsert(Upsert(rows, d), d), WithEmail(d.email)) == 1
    ensures d.phone != Some("") ==> Upsert(Upsert(rows, d), d) == Upsert(rows, d)
  {
    UpsertKeepsValid(rows, d);
    var once := Upsert(rows, d);
    UpsertKeepsValid(once, d);
    var k := IndexOfEmail(once, d.email);
    assert k.Some?;
    UpsertUpdatesExisting(once, d, k.value);
    if d.phone != Some("") {
      match IndexOfEmail(rows, d.email)
      case Some(k0) =>
        UpsertUpdatesExisting(rows, d, k0);
      case None =>
    }
  }

  /** With an empty phone the second call does change the table: "" becomes NULL. */
  lemma EmptyPhoneIsNotIdempotent()
    ensures var d := TrackInvestorInterest("Ivan", "ivan@example.com", Some(""));
      Upsert([], d)[0].phone == Some("") && Upsert(Upsert([], d), d)[0].phone == None
  {
    var d := TrackInvestorInterest("Ivan", "ivan@example.com", Some(""));
    assert IndexOfEmail(Upsert([], d), d.email) == Some(0);
  }

  /** `createInvestorInterest`: update the investor with this email in place, or insert a new one. */
  method CreateInvestorInterest(investors: InvestorTable, d: TrackInvestorInterest) returns (saved: Investor)
    requires investors.Valid()
    modifies investors
    ensures investors.Valid()
    ensures investors.rows == Upsert(old(investors.rows), d)
    ensures saved.email == d.email && saved.name == d.name && saved in investors.rows
  {
    var found := IndexOfEmail(investors.rows, d.email);
    if found.Some? {
      var investor := investors.rows[found.value];
      investor := investor.(name := d.name);
      investor := investor.(phone := OrNull(d.phone));
      investors.rows := investors.rows[found.value := investor];
      saved := investor;
    } else {
      saved := Investor(|investors.rows|, d.name, d.email, d.phone, "investor");
      investors.rows := investors.rows + [saved];
    }
    UpsertKeepsValid(old(investors.rows), d);
  }
}
