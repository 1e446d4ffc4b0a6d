/** Session calendar: when a leg is open, and the scan for its next open. An
    instant is a day number and a time of day on the leg's own clock; weekday 0
    is a Monday. */
module MarketClock {
  import opened Basics

  const DAY: int := 86_400_000_000

  datatype Instant = Instant(day: int, tod: int)

  predicate Proper(t: Instant) {
    0 <= t.tod < DAY
  }

  predicate Before(a: Instant, b: Instant) {
    a.day < b.day || (a.day == b.day && a.tod < b.tod)
  }

  function Weekday(day: int): int {
    day % 7
  }

  // ---------- india ----------

  datatype IndiaHours = IndiaHours(open: int, close: int, weekdays: set<int>, holidays: set<int>)

  predicate DayOk(h: IndiaHours, day: int) {
    Weekday(day) in h.weekdays && day !in h.holidays
  }

  predicate IndiaOpen(h: IndiaHours, t: Instant) {
    DayOk(h, t.day) && h.open <= t.tod < h.close
  }

  predicate IndiaConfigured(h: IndiaHours) {
    0 <= h.open < DAY && 0 <= h.close < DAY
  }

  /** The leg is open on a trading weekday that is no holiday, from the opening time on
      and before the closing time; weekdays repeat every seven days. */
  lemma {:induction false} OpenHoursIff(h: IndiaHours, t: Instant, week: int, dow: int)
    requires 0 <= dow < 7 && t.day == 7 * week + dow
    ensures IndiaOpen(h, t) <==> dow in h.weekdays && t.day !in h.holidays && t.tod >= h.open && t.tod < h.close
    ensures DayOk(h, t.day) <==> dow in h.weekdays && t.day !in h.holidays
  {
  }

  /** No instant after a and before b is open. */
  ghost predicate ClosedBetween(isOpen: Instant -> bool, a: Instant, b: Instant) {
    forall t :: Before(a, t) && Before(t, b) ==> !isOpen(t)
  }

  /** No allowed day of the range opens after now. */
  ghost predicate NoOpening(h: IndiaHours, now: Instant, upTo: int) {
    forall d :: now.day <= d < upTo && DayOk(h, d) ==> !Before(now, Instant(d, h.open))
  }

  /** The scan over 370 days: the opening time of the first allowed day that opens
      after now; `None`, the RuntimeError of an empty year, exactly when there is
      none. While the leg is closed that is the least open instant after now, and
      there is none exactly when no instant of the scanned days is open. A session
      that closes before it opens is announced and yet never open. */
  method IndiaNextOpen(h: IndiaHours, now: Instant) returns (r: Option<Instant>)
    requires IndiaConfigured(h) && Proper(now)
    ensures r.None? <==> NoOpening(h, now, now.day + 370)
    ensures r.Some? ==> DayOk(h, r.value.day) && r.value.tod == h.open && NoOpening(h, now, r.value.day)
    ensures r.Some? ==> Before(now, r.value) && (IndiaOpen(h, r.value) <==> h.open < h.close)
    ensures r.Some? && !IndiaOpen(h, now) ==> ClosedBetween(t => IndiaOpen(h, t), now, r.value)
    ensures h.open < h.close && !IndiaOpen(h, now) ==>
              (r.None? <==> ClosedBetween(t => IndiaOpen(h, t), now, Instant(now.day + 370, 0)))
  {
    for add := 0 to 370
      invariant NoOpening(h, now, now.day + add)
    {
      var d := now.day + add;
      if DayOk(h, d) {
        var candidate := Instant(d, h.open);
        if Before(now, candidate) {
          if h.open < h.close {
            assert IndiaOpen(h, candidate) && Before(candidate, Instant(now.day + 370, 0));
          }
          return Some(candidate);
        }
      }
    }
    return None;
  }

  function IndiaNextClose(h: IndiaHours, now: Instant): Option<Instant> {
    if !IndiaOpen(h, now) then None else Some(Instant(now.day, h.close))
  }

  /** From an open instant to the next close the leg is open throughout, and at the
      close it no longer is. */
  lemma {:induction false} NextCloseEndsTheSession(h: IndiaHours, now: Instant, t: Instant)
    requires IndiaNextClose(h, now).Some?
    requires t == now || Before(now, t)
    ensures var c := IndiaNextClose(h, now).value;
            Before(now, c) && !IndiaOpen(h, c) && (Before(t, c) ==> IndiaOpen(h, t))
  {
  }

  // ---------- forex ----------

  datatype FxHours = FxHours(openDow: int, open: int, closeDow: int, close: int)

  predicate FxConfigured(h: FxHours) {
    0 <= h.open < DAY && 0 <= h.close < DAY
  }

  predicate FxOpen(h: FxHours, t: Instant) {
    var dow := Weekday(t.day);
    && !(dow < h.openDow || dow > h.closeDow)
    && !(dow == h.openDow && t.tod < h.open)
    && !(dow == h.closeDow && t.tod >= h.close)
  }

  /** The leg is open from its opening instant of the week on, until the closing one. */
  lemma {:induction false} FxHoursIff(h: FxHours, t: Instant, week: int)
    requires 7 * week <= t.day < 7 * week + 7
    ensures var opens, closes := Instant(7 * week + h.openDow, h.open), Instant(7 * week + h.closeDow, h.close);
            FxOpen(h, t) <==> (t == opens || Before(opens, t)) && Before(t, closes)
    ensures FxOpen(h, t) ==> h.openDow <= h.closeDow && h.closeDow >= 0 && h.openDow < 7
  {
  }

  /** The week window opens before it closes. */
  predicate FxWindow(h: FxHours) {
    0 <= h.openDow <= h.closeDow && (h.openDow == h.closeDow ==> h.open < h.close)
  }

  lemma {:induction false} WeekStart(day: int, dow: int)
    requires 0 <= dow < 7
    ensures Weekday(day - (Weekday(day) - dow)) == dow
  {
  }

  /** The scan over 8 days fails only for a weekday that does not exist; while the
      leg is closed it finds the least open instant after now. */
  method FxNextOpen(h: FxHours, now: Instant) returns (r: Option<Instant>)
    requires FxConfigured(h) && Proper(now)
    ensures r.None? <==> !(0 <= h.openDow < 7)
    ensures r.Some? ==> Before(now, r.value) && (FxOpen(h, r.value) <==> FxWindow(h))
    ensures r.Some? && !FxOpen(h, now) ==> ClosedBetween(t => FxOpen(h, t), now, r.value)
  {
    for add := 0 to 8
      invariant forall d :: now.day <= d < now.day + add && Weekday(d) == h.openDow ==>
                              !Before(now, Instant(d, h.open))
    {
      var d := now.day + add;
      if Weekday(d) == h.openDow {
        var candidate := Instant(d, h.open);
        if Before(now, candidate) {
          if !FxOpen(h, now) {
            FxClosedUntil(h, now, candidate);
          }
          return Some(candidate);
        }
      }
    }
    if 0 <= h.openDow < 7 {
      var next := now.day + 1 + (h.openDow - Weekday(now.day + 1)) % 7;
      assert Weekday(next) == h.openDow && now.day < next < now.day + 8;
      assert Before(now, Instant(next, h.open));
    }
    return None;
  }

  lemma {:induction false} FxClosedUntil(h: FxHours, now: Instant, r: Instant)
    requires FxConfigured(h) && Proper(now) && !FxOpen(h, now)
    requires Weekday(r.day) == h.openDow && r.tod == h.open && Before(now, r)
    requires forall d :: now.day <= d < r.day && Weekday(d) == h.openDow ==> !Before(now, Instant(d, h.open))
    ensures ClosedBetween(t => FxOpen(h, t), now, r)
  {
    forall t | Before(now, t) && Before(t, r)
      ensures !FxOpen(h, t)
    {
      var weekStart := t.day - (Weekday(t.day) - h.openDow);
      if 0 <= h.openDow < 7 {
        WeekStart(t.day, h.openDow);
      }
      assert Weekday(weekStart) == h.openDow;
    }
  }
}
