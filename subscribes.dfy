/**
 * `SubscribesService`: the placement ledger. Activation charges 100 per day,
 * records a completed payment and appends a period that starts today or, when
 * a period is still running, the day after the furthest-reaching one. Reading
 * the current period expires a stale one lazily.
 *
 * Dates are day numbers and `today` is the day the request runs in; the
 * request's instant lies strictly after that day's midnight, so a period with
 * `endDate <= today` has ended (`end_date < now`) and one with
 * `endDate > today` is running (`end_date >= now`).
 */
module SubscribesService {
  import opened Wrappers
  import opened Entities
  import opened Store
  import opened Decimal
  import opened PaymentsService
  import ActivateSubscriptionDto
  import opened Validation

  /** The one rate the code charges, per day of placement. */
  const PricePerDay: int := 100

  datatype Tariff = Tariff(id: string, name: string, description: string, price: int, durationDays: int)

  /** `getTariffInfo`: the single fixed tariff shown to emitters. */
  function GetTariffInfo(): (t: Tariff)
    ensures t.price == PricePerDay && t.durationDays == 1
  {
    Tariff("a1b2c3d4-e5f6-7890-1234-567890abcdef", "Базовое размещение",
      "Размещение вашей компании на платформе.", 100, 1)
  }

  predicate ActiveOf(s: Subscribe, emitentId: Id)
  {
    s.emitentId == emitentId && s.paymentStatus == Active
  }

  /** The emitter has an active period that is still running. */
  predicate HasLive(rows: seq<Subscribe>, emitentId: Id, today: Day)
  {
    exists j :: 0 <= j < |rows| && ActiveOf(rows[j], emitentId) && rows[j].endDate > today
  }

  /**
   * `findOne({ where: { emitent_id, payment_status: 'active' }, order: { end_date: 'DESC' } })`:
   * the active period of the emitter reaching furthest (the earliest such row on a tie).
   */
  function LatestActive(rows: seq<Subscribe>, emitentId: Id): (r: Option<nat>)
    ensures r.Some? ==> r.value < |rows| && ActiveOf(rows[r.value], emitentId)
    ensures r.Some? ==> forall j :: 0 <= j < |rows| && ActiveOf(rows[j], emitentId) ==> rows[j].endDate <= rows[r.value].endDate
    ensures r.None? <==> forall j :: 0 <= j < |rows| ==> !ActiveOf(rows[j], emitentId)
    decreases |rows|
  {
    if rows == [] then None
    else
      var last := |rows| - 1;
      var best := LatestActive(rows[..last], emitentId);
      assert forall j :: 0 <= j < last ==> rows[..last][j] == rows[j];
      if !ActiveOf(rows[last], emitentId) then best
      else if best.Some? && rows[best.value].endDate >= rows[last].endDate then best
      else Some(last)
  }

  /**
   * The stacking rule: today, unless an active period is still running, in
   * which case the day after the furthest-reaching one ends. The new period
   * never starts in the past and never overlaps a running period.
   */
  function StartDate(rows: seq<Subscribe>, emitentId: Id, today: Day): (start: Day)
    ensures start >= today
    ensures start == today <==> !HasLive(rows, emitentId, today)
    ensures forall j :: 0 <= j < |rows| && ActiveOf(rows[j], emitentId) && rows[j].endDate > today ==> rows[j].endDate < start
    ensures start > today ==> exists j :: 0 <= j < |rows| && ActiveOf(rows[j], emitentId) && start == rows[j].endDate + 1
  {
    match LatestActive(rows, emitentId)
    case None => today
    case Some(k) => if rows[k].endDate > today then rows[k].endDate + 1 else today
  }

  /** `Размещение на ${duration_days} дней`. */
  function TariffName(durationDays: int): string
  {
    "Размещение на " + IntToString(durationDays) + " дней"
  }

  /**
   * `activateSubscription`. An unknown emitter is refused before anything is
   * written. Otherwise a completed payment, dated today, of the advertised
   * tariff's daily price for each of the `durationDays` days is recorded, and
   * a new active period of `durationDays` days linked to it is appended after
   * the existing rows, which stay as they were. The two saves are separate:
   * an amount too large for its column stores nothing, but a duration outside
   * the `int` column fails after the payment is stored, leaving it without a
   * period.
   */
  method ActivateSubscription(emitters: EmitterTable, payments: PaymentTable, subscribes: SubscribeTable,
                              emitentId: Id, durationDays: int, today: Day) returns (r: Result<Subscribe, Error>)
    requires emitters.Valid() && payments.Valid() && subscribes.Valid()
    modifies payments, subscribes
    ensures payments.Valid() && subscribes.Valid()
    ensures r.Failure? <==> IndexById(emitters.rows, emitentId).None? || !IsInt32(durationDays)
    ensures IndexById(emitters.rows, emitentId).None? ==>
      && r == Failure(NotFound(EmitterNotFound))
      && payments.rows == old(payments.rows) && subscribes.rows == old(subscribes.rows)
    ensures IndexById(emitters.rows, emitentId).Some? && !FitsDecimal18_2(durationDays * GetTariffInfo().price) ==>
      && r == Failure(InternalServerError(ValueTooLong))
      && payments.rows == old(payments.rows) && subscribes.rows == old(subscribes.rows)
    ensures IndexById(emitters.rows, emitentId).Some? && FitsDecimal18_2(durationDays * GetTariffInfo().price) && !IsInt32(durationDays) ==>
      && r == Failure(InternalServerError(ValueTooLong))
      && payments.rows == old(payments.rows) + [Payment(|old(payments.rows)|, durationDays * GetTariffInfo().price, today, Completed)]
      && subscribes.rows == old(subscribes.rows)
    ensures r.Success? ==>
      && payments.rows == old(payments.rows) + [Payment(|old(payments.rows)|, durationDays * GetTariffInfo().price, today, Completed)]
      && subscribes.rows == old(subscribes.rows) + [r.value]
    ensures r.Success? ==> var s := r.value;
      && s.subscribeId == |old(subscribes.rows)|
      && s.emitentId == emitentId
      && s.tariffName == TariffName(durationDays)
      && s.durationDays == durationDays
      && s.paymentId == |old(payments.rows)|
      && s.startDate == StartDate(old(subscribes.rows), emitentId, today)
      && s.endDate == s.startDate + durationDays
      && s.paymentStatus == Active
      && s.paymentAmount == durationDays * GetTariffInfo().price
  {
    var pricePerDay := 100;
    var emitter := IndexById(emitters.rows, emitentId);
    if emitter.None? {
      return Failure(NotFound(EmitterNotFound));
    }
    var amount := durationDays * pricePerDay;
    var endDate := today + durationDays;
    var paid := CreatePayment(payments, amount, today, Completed);
    if paid.Failure? {
      return Failure(paid.error);
    }
    var payment := paid.value;
    var existing := LatestActive(subscribes.rows, emitentId);
    var actualStartDate := today;
    if existing.Some? && subscribes.rows[existing.value].endDate > today {
      actualStartDate := subscribes.rows[existing.value].endDate + 1;
      endDate := actualStartDate + durationDays;
    }
    if !IsInt32(durationDays) {
      return Failure(InternalServerError(ValueTooLong));
    }
    var s := Subscribe(|subscribes.rows|, emitentId, TariffName(durationDays), durationDays,
      payment.paymentId, actualStartDate, endDate, Active, amount);
    subscribes.rows := subscribes.rows + [s];
    r := Success(s);
  }

  /**
   * Validation does not keep a duration inside the `int` column: three
   * thousand million days passes the body's checks, and an activation with it
   * for a known emitter stores the payment and then fails.
   */
  lemma ValidDurationCanOrphanPayment(d: ActivateSubscriptionDto.ActivateSubscription, fmt: FormatChecks)
    requires fmt.isUuid(d.tariffId) && d.durationDays == 3_000_000_000.0
    ensures ActivateSubscriptionDto.Valid(d, fmt)
    ensures d.durationDays.Floor == 3_000_000_000 && !IsInt32(d.durationDays.Floor)
    ensures FitsDecimal18_2(d.durationDays.Floor * GetTariffInfo().price)
  {
  }

  /** What `getCurrentSubscription` returns: the furthest-reaching active period, unless it has ended. */
  function CurrentSubscription(rows: seq<Subscribe>, emitentId: Id, today: Day): (r: Option<Subscribe>)
    ensures r.Some? <==> HasLive(rows, emitentId, today)
    ensures r.Some? ==> ActiveOf(r.value, emitentId) && r.value.endDate > today && r.value in rows
    ensures r.Some? ==> forall j :: 0 <= j < |rows| && ActiveOf(rows[j], emitentId) ==> rows[j].endDate <= r.value.endDate
  {
    match LatestActive(rows, emitentId)
    case None => None
    case Some(k) => if rows[k].endDate <= today then None else Some(rows[k])
  }

  /**
   * The ledger after `getCurrentSubscription`. Nothing changes while a period
   * is running or when the emitter has no active period; otherwise the
   * furthest-reaching active period, which has then ended, is switched to
   * `disable` and no other row changes.
   */
  function AfterRead(rows: seq<Subscribe>, emitentId: Id, today: Day): (r: seq<Subscribe>)
    ensures |r| == |rows|
    ensures forall j :: 0 <= j < |rows| && r[j] != rows[j] ==>
      ActiveOf(rows[j], emitentId) && rows[j].endDate <= today && r[j] == rows[j].(paymentStatus := Disable)
    ensures forall i, j :: 0 <= i < |rows| && 0 <= j < |rows| && r[i] != rows[i] && r[j] != rows[j] ==> i == j
    ensures CurrentSubscription(rows, emitentId, today).Some? ==> r == rows
    ensures (forall j :: 0 <= j < |rows| ==> !ActiveOf(rows[j], emitentId)) ==> r == rows
    ensures CurrentSubscription(rows, emitentId, today).None? && (exists j :: 0 <= j < |rows| && ActiveOf(rows[j], emitentId)) ==>
      exists k ::
        && 0 <= k < |rows| && ActiveOf(rows[k], emitentId)
        && r == rows[k := rows[k].(paymentStatus := Disable)]
        && forall j :: 0 <= j < |rows| && ActiveOf(rows[j], emitentId) ==> rows[j].endDate <= rows[k].endDate
  {
    match LatestActive(rows, emitentId)
    case None => rows
    case Some(k) => if rows[k].endDate <= today then rows[k := rows[k].(paymentStatus := Disable)] else rows
  }

  /** `getCurrentSubscription`: the lookup, with the lazy expiry written back. */
  method GetCurrentSubscription(subscribes: SubscribeTable, emitentId: Id, today: Day) returns (r: Option<Subscribe>)
    requires subscribes.Valid()
    modifies subscribes
    ensures subscribes.Valid()
    ensures r == CurrentSubscription(old(subscribes.rows), emitentId, today)
    ensures subscribes.rows == AfterRead(old(subscribes.rows), emitentId, today)
  {
    var found := LatestActive(subscribes.rows, emitentId);
    if found.None? {
      return None;
    }
    var subscription := subscribes.rows[found.value];
    if subscription.endDate <= today {
      subscription := subscription.(paymentStatus := Disable);
      subscribes.rows := subscribes.rows[found.value := subscription];
      return None;
    }
    r := Some(subscription);
  }

  /**
   * A read never changes what the next read answers: the write-back only
   * disables a period that had already ended, so no running period appears or
   * disappears.
   */
  lemma ReadIsStable(rows: seq<Subscribe>, emitentId: Id, today: Day)
    ensures CurrentSubscription(AfterRead(rows, emitentId, today), emitentId, today) == CurrentSubscription(rows, emitentId, today)
  {
  }

  /**
   * But the write-back is not done once and for all: with two ended active
   * periods, each read disables one of them, so the second read writes again.
   */
  lemma SecondReadCanStillWrite()
    ensures var rows := [Subscribe(0, 7, "", 1, 0, 1, 2, Active, 100), Subscribe(1, 7, "", 1, 1, 2, 3, Active, 100)];
      var once := AfterRead(rows, 7, 10);
      once != rows && AfterRead(once, 7, 10) != once
  {
    var rows := [Subscribe(0, 7, "", 1, 0, 1, 2, Active, 100), Subscribe(1, 7, "", 1, 1, 2, 3, Active, 100)];
    assert LatestActive(rows, 7) == Some(1);
    var once := AfterRead(rows, 7, 10);
    assert once[1].paymentStatus == Disable;
    assert LatestActive(once, 7) == Some(0);
  }

  /** Reads of one emitter's period leave every other emitter's rows alone. */
  lemma ReadIsLocal(rows: seq<Subscribe>, emitentId: Id, today: Day, j: nat)
    requires j < |rows| && rows[j].emitentId != emitentId
    ensures AfterRead(rows, emitentId, today)[j] == rows[j]
  {
  }
}
