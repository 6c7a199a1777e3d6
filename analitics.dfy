/**
 * `AnaliticsService`: per-emitter counters of detail-page views and of
 * investor clicks through to the company. Counters start at zero and only
 * ever go up by one.
 */
module AnaliticsService {
  import opened Wrappers
  import opened Entities
  import opened Store

  datatype Counter = PageViews | ExternalLinkClicks

  /**
   * `increment({emitent_id}, column, 1)`: an UPDATE adding one to the chosen
   * column of the emitter's row. With no such row it updates nothing.
   */
  function Bumped(rows: map<Id, Analitics>, emitentId: Id, c: Counter): (r: map<Id, Analitics>)
    ensures r.Keys == rows.Keys
    ensures forall id :: id in rows && id != emitentId ==> r[id] == rows[id]
    ensures emitentId in rows ==> r[emitentId].emitentId == rows[emitentId].emitentId
    ensures emitentId in rows && c == PageViews ==>
      r[emitentId].pageViews == rows[emitentId].pageViews + 1
      && r[emitentId].externalLinkClicks == rows[emitentId].externalLinkClicks
    ensures emitentId in rows && c == ExternalLinkClicks ==>
      r[emitentId].externalLinkClicks == rows[emitentId].externalLinkClicks + 1
      && r[emitentId].pageViews == rows[emitentId].pageViews
    ensures emitentId !in rows ==> r == rows
  {
    if emitentId !in rows then rows
    else
      var a := rows[emitentId];
      rows[emitentId := match c
        case PageViews => a.(pageViews := a.pageViews + 1)
        case ExternalLinkClicks => a.(externalLinkClicks := a.externalLinkClicks + 1)]
  }

  /** No counter of any emitter is lower in `after` than in `before`, and no record went missing. */
  predicate NeverDecreases(before: map<Id, Analitics>, after: map<Id, Analitics>)
  {
    forall id :: id in before ==>
      id in after
      && after[id].pageViews >= before[id].pageViews
      && after[id].externalLinkClicks >= before[id].externalLinkClicks
  }

  /** Any sequence of increments leaves every counter at least where it was. */
  lemma {:induction false} BumpsNeverDecrease(rows: map<Id, Analitics>, steps: seq<(Id, Counter)>)
    ensures NeverDecreases(rows, Replay(rows, steps))
    ensures Replay(rows, steps).Keys == rows.Keys
  {
    if steps != [] {
      var next := Bumped(rows, steps[0].0, steps[0].1);
      BumpsNeverDecrease(next, steps[1..]);
    }
  }

  /** The table after the given increments, in order. */
  function Replay(rows: map<Id, Analitics>, steps: seq<(Id, Counter)>): map<Id, Analitics>
    decreases |steps|
  {
    if steps == [] then rows else Replay(Bumped(rows, steps[0].0, steps[0].1), steps[1..])
  }

  /** `createInitialAnalitics`: a zeroed record for `emitentId`; a second one violates the unique `emitent_id`. */
  method CreateInitialAnalitics(analitics: AnaliticsTable, emitentId: Id) returns (r: Result<Analitics, Error>)
    requires analitics.Valid()
    modifies analitics
    ensures analitics.Valid()
    ensures r.Success? <==> emitentId !in old(analitics.rows)
    ensures r.Success? ==> r.value == Analitics(emitentId, 0, 0) && analitics.rows == old(analitics.rows)[emitentId := r.value]
    ensures r.Failure? ==> r.error == InternalServerError(UniqueViolation) && analitics.rows == old(analitics.rows)
  {
    if emitentId in analitics.rows {
      return Failure(InternalServerError(UniqueViolation));
    }
    var a := Analitics(emitentId, 0, 0);
    analitics.rows := analitics.rows[emitentId := a];
    r := Success(a);
  }

  /** `incrementPageViews`. */
  method IncrementPageViews(analitics: AnaliticsTable, emitentId: Id)
    requires analitics.Valid()
    modifies analitics
    ensures analitics.Valid()
    ensures analitics.rows == Bumped(old(analitics.rows), emitentId, PageViews)
  {
    analitics.rows := Bumped(analitics.rows, emitentId, PageViews);
  }

  /** `incrementExternalLinkClicks`. */
  method IncrementExternalLinkClicks(analitics: AnaliticsTable, emitentId: Id)
    requires analitics.Valid()
    modifies analitics
    ensures analitics.Valid()
    ensures analitics.rows == Bumped(old(analitics.rows), emitentId, ExternalLinkClicks)
  {
    analitics.rows := Bumped(analitics.rows, emitentId, ExternalLinkClicks);
  }
}
