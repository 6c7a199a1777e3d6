/**
 * The database tables the services share, one class per table. Tables whose
 * rows carry a generated primary key keep their rows in insertion order with
 * the key equal to the position; `financial_data` and `analitics` are keyed by
 * their unique `emitent_id` column.
 */
module Store {
  import opened Wrappers
  import opened Entities
  import opened Collections

  /** Two emitters that may share the table: `name` and `email` are unique, and so are non-NULL `inn` and `ogrn_ogrnip`. */
  predicate NoClash(a: Emitter, b: Emitter)
  {
    && a.email != b.email
    && a.name != b.name
    && (a.inn.None? || a.inn != b.inn)
    && (a.ogrnOgrnip.None? || a.ogrnOgrnip != b.ogrnOgrnip)
  }

  predicate UniqueColumns(rows: seq<Emitter>)
  {
    forall i, j :: 0 <= i < |rows| && 0 <= j < |rows| && i != j ==> NoClash(rows[i], rows[j])
  }

  /** `e` may be stored at position `k` (or appended, when `k == |rows|`) without breaking a unique column. */
  predicate FitsAt(rows: seq<Emitter>, k: nat, e: Emitter)
  {
    forall j :: 0 <= j < |rows| && j != k ==> NoClash(e, rows[j]) && NoClash(rows[j], e)
  }

  /** An optional value that a `varchar(n)` column can hold: NULL, or at most `n` characters. */
  predicate FitsWidth(s: Option<string>, n: nat)
  {
    s.None? || |s.value| <= n
  }

  /**
   * The declared widths of the bounded columns of `emitents`: `varchar(255)`
   * for name, email, password, website and logo_url, `varchar(12)` for inn,
   * `varchar(15)` for ogrn_ogrnip and `varchar(20)` for phone. The address,
   * description and rejection-reason columns are unbounded `text`.
   */
  predicate WithinWidths(e: Emitter)
  {
    && |e.name| <= 255 && |e.email| <= 255 && |e.password| <= 255
    && FitsWidth(e.inn, 12) && FitsWidth(e.ogrnOgrnip, 15) && FitsWidth(e.phone, 20)
    && FitsWidth(e.website, 255) && FitsWidth(e.logoUrl, 255)
  }

  /** A value a PostgreSQL `int` column holds: a 32-bit signed integer. */
  predicate IsInt32(n: int)
  {
    -0x8000_0000 <= n < 0x8000_0000
  }

  /** A whole amount a `decimal(18,2)` column holds: at most 16 digits before the point. */
  predicate FitsDecimal18_2(x: int)
  {
    -10_000_000_000_000_000 < x < 10_000_000_000_000_000
  }

  predicate EmittersKeyed(rows: seq<Emitter>)
  {
    forall i :: 0 <= i < |rows| ==> rows[i].emitentId == i
  }

  /** Position of the emitter with primary key `id`. */
  function IndexById(rows: seq<Emitter>, id: Id): (r: Option<nat>)
    ensures r.Some? ==> r.value < |rows| && rows[r.value].emitentId == id
    ensures r.None? <==> forall j :: 0 <= j < |rows| ==> rows[j].emitentId != id
    ensures EmittersKeyed(rows) ==> (r.Some? <==> id < |rows|)
  {
    assert EmittersKeyed(rows) && id < |rows| ==> rows[id].emitentId == id;
    FirstIndex(rows, (e: Emitter) => e.emitentId == id)
  }

  /** `emitents`: the account store of issuing companies. */
  class EmitterTable {
    var rows: seq<Emitter>

    ghost predicate Valid()
      reads this
    {
      && EmittersKeyed(rows) && UniqueColumns(rows)
      && forall i :: 0 <= i < |rows| ==> WithinWidths(rows[i])
    }

    constructor ()
      ensures Valid() && rows == []
    {
      rows := [];
    }

    /**
     * `save` of a new entity: the database assigns the next key, or refuses a
     * value wider than its column, or a duplicate unique column.
     */
    method Insert(e: Emitter) returns (r: Result<Emitter, Error>)
      requires Valid()
      modifies this
      ensures Valid()
      ensures var saved := e.(emitentId := |old(rows)|);
        if !WithinWidths(saved)
        then r == Failure(InternalServerError(ValueTooLong)) && rows == old(rows)
        else if FitsAt(old(rows), |old(rows)|, saved)
        then r == Success(saved) && rows == old(rows) + [saved]
        else r == Failure(InternalServerError(UniqueViolation)) && rows == old(rows)
    {
      var saved := e.(emitentId := |rows|);
      if !WithinWidths(saved) {
        r := Failure(InternalServerError(ValueTooLong));
      } else if FitsAt(rows, |rows|, saved) {
        rows := rows + [saved];
        r := Success(saved);
      } else {
        r := Failure(InternalServerError(UniqueViolation));
      }
    }

    /** `save` of a loaded entity: the row at `k` is overwritten, unless a value is too wide or a unique column would clash. */
    method Save(k: nat, e: Emitter) returns (r: Result<Emitter, Error>)
      requires Valid() && k < |rows| && e.emitentId == k
      modifies this
      ensures Valid()
      ensures if !WithinWidths(e)
        then r == Failure(InternalServerError(ValueTooLong)) && rows == old(rows)
        else if FitsAt(old(rows), k, e)
        then r == Success(e) && rows == old(rows)[k := e]
        else r == Failure(InternalServerError(UniqueViolation)) && rows == old(rows)
    {
      if !WithinWidths(e) {
        r := Failure(InternalServerError(ValueTooLong));
      } else if FitsAt(rows, k, e) {
        rows := rows[k := e];
        r := Success(e);
      } else {
        r := Failure(InternalServerError(UniqueViolation));
      }
    }
  }

  predicate AdminsKeyed(rows: seq<Admin>)
  {
    forall i :: 0 <= i < |rows| ==> rows[i].adminId == i
  }

  /** The unique `username` column of `admin`. */
  predicate AdminUsernamesUnique(rows: seq<Admin>)
  {
    forall i, j :: 0 <= i < |rows| && 0 <= j < |rows| && i != j ==> rows[i].username != rows[j].username
  }

  /** The unique, nullable `email` column of `admin`: any number of NULLs, no repeated address. */
  predicate AdminEmailsUnique(rows: seq<Admin>)
  {
    forall i, j :: 0 <= i < |rows| && 0 <= j < |rows| && i != j && rows[i].email.Some? ==> rows[i].email != rows[j].email
  }

  /** `admin`: administrator accounts, created outside the services modelled here. */
  class AdminTable {
    var rows: seq<Admin>

    ghost predicate Valid()
      reads this
    {
      AdminsKeyed(rows) && AdminUsernamesUnique(rows) && AdminEmailsUnique(rows)
    }

    constructor ()
      ensures Valid() && rows == []
    {
      rows := [];
    }
  }

  /** `financial_data`, keyed by its unique `emitent_id`. */
  class FinancialDataTable {
    var rows: map<Id, FinancialData>

    ghost predicate Valid()
      reads this
    {
      forall id :: id in rows ==> rows[id].emitentId == id
    }

    constructor ()
      ensures Valid() && rows == map[]
    {
      rows := map[];
    }
  }

  /** `analitics`, keyed by its unique `emitent_id`. */
  class AnaliticsTable {
    var rows: map<Id, Analitics>

    ghost predicate Valid()
      reads this
    {
      forall id :: id in rows ==> rows[id].emitentId == id
    }

    constructor ()
      ensures Valid() && rows == map[]
    {
      rows := map[];
    }
  }

  /** `subscribes`: the append-only ledger of placement periods; `duration_days` is an `int`, `payment_amount` a `decimal(18,2)`. */
  class SubscribeTable {
    var rows: seq<Subscribe>

    ghost predicate Valid()
      reads this
    {
      forall i :: 0 <= i < |rows| ==>
        rows[i].subscribeId == i && IsInt32(rows[i].durationDays) && FitsDecimal18_2(rows[i].paymentAmount)
    }

    constructor ()
      ensures Valid() && rows == []
    {
      rows := [];
    }
  }

  /** `payments`; `amount` is a `decimal(18,2)`. */
  class PaymentTable {
    var rows: seq<Payment>

    ghost predicate Valid()
      reads this
    {
      forall i :: 0 <= i < |rows| ==> rows[i].paymentId == i && FitsDecimal18_2(rows[i].amount)
    }

    constructor ()
      ensures Valid() && rows == []
    {
      rows := [];
    }
  }

  predicate InvestorsKeyed(rows: seq<Investor>)
  {
    forall i :: 0 <= i < |rows| ==> rows[i].investorId == i
  }

  /** The unique `email` column of `investors`. */
  predicate EmailsUnique(rows: seq<Investor>)
  {
    forall i, j :: 0 <= i < |rows| && 0 <= j < |rows| && i != j ==> rows[i].email != rows[j].email
  }

  /** `investors`, with `email` unique. */
  class InvestorTable {
    var rows: seq<Investor>

    ghost predicate Valid()
      reads this
    {
      InvestorsKeyed(rows) && EmailsUnique(rows)
    }

    constructor ()
      ensures Valid() && rows == []
    {
      rows := [];
    }
  }
}
