/*
 * models/store/store.model.js and the remaining half of
 * services/store/store.service.js: the operating status, the next opening
 * time over the weekly operatingHours, and the store statistics guard. The
 * clock is split into the parameters `day` (Date.prototype.getDay, Sunday 0)
 * and `time` (the "HH:MM:SS" string of toLocaleTimeString).
 */
module Stores {
  import opened Common
  import Reviews

  const MSG_STORE_NOT_FOUND: string := "Store not found"
  /** isOpen calls toLocaleLowerCase on a Date, which has no such method. */
  const MSG_NO_LOCALE_LOWER: string := "now.toLocaleLowerCase is not a function"

  datatype StoreStatus = Active | Inactive | Suspended | Pending

  /** One weekday's entry of operatingHours. */
  datatype DayHours = DayHours(open: Option<string>, close: Option<string>)

  /** The first seven keys of operatingHours, monday first, in schema order. */
  type Week = w: seq<DayHours> | |w| == 7 witness [DayHours(None, None), DayHours(None, None), DayHours(None, None),
    DayHours(None, None), DayHours(None, None), DayHours(None, None), DayHours(None, None)]

  /** getOperatingStatus: any status but 'active' is reported as stored; an active store reaches isOpen, which throws. */
  function OperatingStatus(status: StoreStatus): (r: Result<StoreStatus>)
    ensures r.Ok? <==> status != Active
    ensures r.Ok? ==> r.value == status
    ensures r.Fail? ==> r.error == Thrown(MSG_NO_LOCALE_LOWER)
  {
    if status != Active then Ok(status) else Fail(Thrown(MSG_NO_LOCALE_LOWER))
  }

  /** The opening found: how many days ahead of today, and the stored opening time. */
  datatype Opening = Opening(daysAhead: nat, time: string)

  predicate OpensOn(week: Week, key: int)
    requires 0 <= key < 7
  {
    Truthy(week[key].open)
  }

  /** `(day + i) % 7`, the key position the loop reads for offset i from weekday number `day`. */
  function KeyAt(day: int, i: int): (k: int)
    requires 0 <= day < 7 && 0 <= i <= 7
    ensures 0 <= k < 7 && k == (day + i) % 7
  {
    if day + i < 7 then day + i else day + i - 7
  }

  /** The loop over offsets i, i+1, ..., 7: the first key position with an opening time. */
  function FirstOpenFrom(week: Week, day: int, i: nat): (r: Option<Opening>)
    requires 0 <= day < 7 && 1 <= i
    decreases 8 - i
  {
    if i > 7 then None
    else if OpensOn(week, KeyAt(day, i)) then Some(Opening(i, week[KeyAt(day, i)].open.value))
    else FirstOpenFrom(week, day, i + 1)
  }

  /** getNextOpeningTime with operatingHours read by key position `day`, as written. */
  function NextOpening(week: Week, day: int, time: string): Option<Opening>
    requires 0 <= day < 7
  {
    if OpensOn(week, day) && LexLess(time, week[day].open.value) then Some(Opening(0, week[day].open.value))
    else FirstOpenFrom(week, day, 1)
  }

  /**
   * The loop of getNextOpeningTime, with its early return, reading each
   * date's own weekday entry (NextOpening is the lookup as written).
   */
  method GetNextOpeningTime(week: Week, day: int, time: string) returns (r: Option<Opening>)
    requires 0 <= day < 7
    ensures r == NextOpeningCorrected(week, day, time)
  {
    var today := KeyOfWeekday(day);
    if OpensOn(week, today) && LexLess(time, week[today].open.value) {
      return Some(Opening(0, week[today].open.value));
    }
    var i := 1;
    while i <= 7
      invariant 1 <= i <= 8
      invariant FirstOpenFrom(week, today, 1) == FirstOpenFrom(week, today, i)
    {
      var next := KeyAt(today, i);
      if OpensOn(week, next) {
        return Some(Opening(i, week[next].open.value));
      }
      i := i + 1;
    }
    r := None;
  }

  /** The offsets 1..7 reach every key position once, the last one being today's. */
  lemma {:induction false} FirstOpenFromNone(week: Week, day: int, i: nat)
    requires 0 <= day < 7 && 1 <= i <= 8
    ensures FirstOpenFrom(week, day, i).None? <==> forall j :: i <= j <= 7 ==> !OpensOn(week, KeyAt(day, j))
    decreases 8 - i
  {
    if i <= 7 {
      FirstOpenFromNone(week, day, i + 1);
    }
  }

  /** Each key position is reached by exactly one offset in 1..7. */
  lemma KeyReached(day: int, key: int)
    requires 0 <= day < 7 && 0 <= key < 7
    ensures var j := if key > day then key - day else key - day + 7;
            1 <= j <= 7 && KeyAt(day, j) == key
  {
  }

  /** No opening at all exactly when none of the seven days has an opening time. */
  lemma NextOpeningNoneIff(week: Week, day: int, time: string)
    requires 0 <= day < 7
    ensures NextOpening(week, day, time).None? <==> forall k :: 0 <= k < 7 ==> !OpensOn(week, k)
  {
    FirstOpenFromNone(week, day, 1);
    if NextOpening(week, day, time).None? {
      forall k | 0 <= k < 7 ensures !OpensOn(week, k) {
        KeyReached(day, k);
      }
    }
  }

  /** A later opening is the first opening day in offset order, dated that many days ahead. */
  lemma {:induction false} FirstOpenFromIsFirst(week: Week, day: int, i: nat)
    requires 0 <= day < 7 && 1 <= i
    ensures var r := FirstOpenFrom(week, day, i);
            r.Some? ==> i <= r.value.daysAhead <= 7 &&
                        OpensOn(week, KeyAt(day, r.value.daysAhead)) &&
                        r.value.time == week[KeyAt(day, r.value.daysAhead)].open.value &&
                        forall j :: i <= j < r.value.daysAhead ==> !OpensOn(week, KeyAt(day, j))
    decreases 8 - i
  {
    if i <= 7 && !OpensOn(week, KeyAt(day, i)) {
      FirstOpenFromIsFirst(week, day, i + 1);
    }
  }

  /** The weekday (getDay numbering) whose operatingHours key sits at position `key`: monday is 1. */
  function WeekdayOfKey(key: int): (d: int)
    requires 0 <= key < 7
    ensures 0 <= d < 7 && d == (key + 1) % 7
  {
    if key == 6 then 0 else key + 1
  }

  /** The key position of weekday `d` (getDay numbering): sunday is the last key. */
  function KeyOfWeekday(d: int): (key: int)
    requires 0 <= d < 7
    ensures 0 <= key < 7 && WeekdayOfKey(key) == d
  {
    if d == 0 then 6 else d - 1
  }

  /** getNextOpeningTime reading each date's own weekday entry. */
  function NextOpeningCorrected(week: Week, day: int, time: string): Option<Opening>
    requires 0 <= day < 7
  {
    NextOpening(week, KeyOfWeekday(day), time)
  }

  /** Corrected: the opening returned belongs to the weekday of the date returned. */
  lemma CorrectedOpeningMatchesWeekday(week: Week, day: int, time: string)
    requires 0 <= day < 7
    ensures var r := NextOpeningCorrected(week, day, time);
            r.Some? ==> r.value.daysAhead <= 7 &&
                        var key := KeyOfWeekday(KeyAt(day, r.value.daysAhead));
                        OpensOn(week, key) && r.value.time == week[key].open.value
  {
    var r := NextOpeningCorrected(week, day, time);
    FirstOpenFromIsFirst(week, KeyOfWeekday(day), 1);
    if r.Some? {
      KeyShift(day, r.value.daysAhead);
    }
  }

  lemma KeyShift(day: int, i: nat)
    requires 0 <= day < 7 && i <= 7
    ensures KeyAt(KeyOfWeekday(day), i) == KeyOfWeekday(KeyAt(day, i))
  {
  }

  /** A week where only sunday has hours. */
  function SundayOnly(open: string): Week
  {
    [DayHours(None, None), DayHours(None, None), DayHours(None, None), DayHours(None, None),
     DayHours(None, None), DayHours(None, None), DayHours(Some(open), Some("17:00:00"))]
  }

  /**
   * As written, on a Sunday before a Sunday-only opening the lookup reads
   * monday's entry for today and reports sunday's time six days ahead, a
   * Saturday; the corrected lookup finds today's opening.
   */
  lemma SundayReadsMondayAsWritten()
    ensures NextOpening(SundayOnly("09:00:00"), 0, "08:00:00") == Some(Opening(6, "09:00:00"))
    ensures NextOpeningCorrected(SundayOnly("09:00:00"), 0, "08:00:00") == Some(Opening(0, "09:00:00"))
  {
    var w := SundayOnly("09:00:00");
    assert LexLess("08:00:00", "09:00:00");
    assert !OpensOn(w, 0) && !OpensOn(w, 5) && OpensOn(w, 6);
    assert FirstOpenFrom(w, 0, 5) == FirstOpenFrom(w, 0, 6);
  }

  /** A stored store: the fields getStoreStats reads. */
  datatype Store = Store(id: string, status: StoreStatus, week: Week)

  /** getStoreStats: "Store not found" for an unknown id, otherwise the review statistics. */
  function StoreStats(stores: seq<Store>, id: string, reviews: seq<Reviews.Review>): (r: Result<Reviews.Stats>)
    ensures r.Fail? <==> forall k :: 0 <= k < |stores| ==> stores[k].id != id
    ensures r.Fail? ==> r.error == Thrown(MSG_STORE_NOT_FOUND)
    ensures r.Ok? ==> r.value == Reviews.ReviewStats(reviews)
  {
    if FindIndex(stores, (s: Store) => s.id == id) < 0 then Fail(Thrown(MSG_STORE_NOT_FOUND))
    else Ok(Reviews.ReviewStats(reviews))
  }
}
