/**
 * Repeating calendar events (apps/remote/server/calendar-recurrence.ts): a window of days is computed for a range and only
 * those days are expanded.  It must agree with expanding every day, in any zone, across gaps and overlaps of local time.
 * Dates are day numbers; instants are milliseconds; a zone is a pair of conversions.
 */
module CalendarRecurrence {
  import opened Options

  const DAY: int := 86_400_000

  type TimeOfDay = t: int | 0 <= t < DAY

  datatype Wall = Wall(date: int, time: TimeOfDay)

  /** `toWall` is `toZonedDateTimeISO`; `toInstant` is `toZonedDateTime` with its default disambiguation. */
  datatype Zone = Zone(toWall: int -> Wall, toInstant: Wall -> int)

  type Zones = string -> Zone

  /** An ISO date for all-day events, an ISO instant for the others. */
  datatype Value = Day(date: int) | Moment(instant: int)

  datatype Repeat = Daily | Weekly

  datatype Id = Own(id: string) | Occurrence(series: string, start: Value)

  datatype Event = Event(
    id: Id, body: string, start: Value, end: Value, zone: string, allDay: bool, updated: int,
    repeat: Option<Repeat>, repeatUntil: Option<int>, exceptions: seq<Exception>, occurrenceStart: Option<Value>)

  /** An entry of `exceptions`, in insertion order; no replacement means the occurrence was deleted. */
  datatype Exception = Exception(original: Value, replacement: Option<Event>)

  // ---------------------------------------------------------------- zones

  function UtcDate(instant: int): int { instant / DAY }

  /**
   * What is assumed of a zone: local and UTC dates differ by at most a day; around a transition the local date of an
   * earlier instant is at most a day ahead; and a wall time shown by some instant exists.
   */
  ghost predicate Reasonable(z: Zone) {
    && (forall i: int :: UtcDate(i) - 1 <= z.toWall(i).date <= UtcDate(i) + 1)
    && (forall i: int, j: int :: i < j ==> z.toWall(i).date <= z.toWall(j).date + 1)
    && (forall w: Wall, i: int :: i < z.toInstant(w) ==> z.toWall(i).date <= w.date + 1)
    && (forall w: Wall, i: int :: z.toInstant(w) < i ==> w.date <= z.toWall(i).date + 1)
    && (forall i: int :: z.toWall(z.toInstant(z.toWall(i))) == z.toWall(i))
  }

  const HOUR: int := 3_600_000

  /** The wall that a count of milliseconds shows without any offset, and back. */
  function Plain(i: int): Wall { Wall(i / DAY, i % DAY) }

  function Count(w: Wall): int { w.date * DAY + w.time }

  lemma PlainCount(i: int)
    ensures Count(Plain(i)) == i
  {}

  lemma CountPlain(w: Wall)
    ensures Plain(Count(w)) == w
  {}

  function Utc(): Zone { Zone(i => Plain(i), w => Count(w)) }

  lemma UtcIsReasonable()
    ensures Reasonable(Utc())
  {
    forall i: int ensures Utc().toWall(Utc().toInstant(Utc().toWall(i))) == Utc().toWall(i) { PlainCount(i); }
  }

  /** What clocks show that go forward by an hour at instant 0; a time in the gap is read an hour later. */
  function ShownAt(i: int): int { if i < 0 then i else i + HOUR }

  function InstantOf(w: Wall): int { if Count(w) < HOUR then Count(w) else Count(w) - HOUR }

  function Forward(): Zone { Zone(i => Plain(ShownAt(i)), w => InstantOf(w)) }

  lemma DatesNear(a: int, b: int)
    requires a <= b + DAY
    ensures a / DAY <= b / DAY + 1
  {}

  /** Dates shown at two instants, or at an instant and in a wall, are near when those are. */
  lemma ForwardNear(i: int, j: int)
    ensures UtcDate(i) - 1 <= Plain(ShownAt(i)).date <= UtcDate(i) + 1
    ensures i < j ==> Plain(ShownAt(i)).date <= Plain(ShownAt(j)).date + 1
  {
    DatesNear(ShownAt(i), i);
    DatesNear(i, ShownAt(i));
    if i < j { DatesNear(ShownAt(i), ShownAt(j)); }
  }

  lemma ForwardNearWall(i: int, w: Wall)
    ensures i < InstantOf(w) ==> Plain(ShownAt(i)).date <= w.date + 1
    ensures InstantOf(w) < i ==> w.date <= Plain(ShownAt(i)).date + 1
  {
    CountPlain(w);
    assert Count(w) / DAY == w.date;
    if i < InstantOf(w) { DatesNear(ShownAt(i), Count(w)); }
    if InstantOf(w) < i { DatesNear(Count(w), ShownAt(i)); }
  }

  lemma ForwardReturns(i: int)
    ensures Plain(ShownAt(InstantOf(Plain(ShownAt(i))))) == Plain(ShownAt(i))
  {
    PlainCount(ShownAt(i));
  }

  /** A zone whose clocks go forward like that. */
  ghost predicate GoesForward(z: Zone) {
    (forall i: int :: z.toWall(i) == Plain(ShownAt(i))) && (forall w: Wall :: z.toInstant(w) == InstantOf(w))
  }

  /** Gaps are reasonable too, and half past midnight of that day is in one. */
  lemma GapIsReasonable(z: Zone)
    requires GoesForward(z)
    ensures Reasonable(z) && forall i: int :: z.toWall(i) != Wall(0, 1_800_000)
  {
    forall i: int, j: int
      ensures UtcDate(i) - 1 <= z.toWall(i).date <= UtcDate(i) + 1 && (i < j ==> z.toWall(i).date <= z.toWall(j).date + 1)
    {
      ForwardNear(i, j);
    }
    forall w: Wall, i: int
      ensures (i < z.toInstant(w) ==> z.toWall(i).date <= w.date + 1) && (z.toInstant(w) < i ==> w.date <= z.toWall(i).date + 1)
    {
      ForwardNearWall(i, w);
    }
    forall i: int ensures z.toWall(z.toInstant(z.toWall(i))) == z.toWall(i) && z.toWall(i) != Wall(0, 1_800_000) {
      ForwardReturns(i);
      PlainCount(ShownAt(i));
      assert Count(Wall(0, 1_800_000)) == 1_800_000;
    }
  }

  lemma ForwardGoesForward()
    ensures GoesForward(Forward()) && Reasonable(Forward())
  {
    GapIsReasonable(Forward());
  }

  // ---------------------------------------------------------------- expansion

  /** The value has the kind its event needs; anything else makes Temporal throw. */
  predicate Fits(e: Event, v: Value) {
    if e.allDay then v.Day? else v.Moment?
  }

  predicate WellFormed(e: Event) {
    Fits(e, e.start) && Fits(e, e.end)
  }

  function Overlaps(e: Event, from: int, to: int): bool {
    match (e.start, e.end)
    case (Day(start), Day(end)) => end > UtcDate(from) && start < UtcDate(to)
    case (Moment(start), Moment(end)) => end > from && start < to
    case _ => false
  }

  function WallOf(tz: Zones, e: Event, v: Value): Wall
    requires Fits(e, v)
  {
    match v
    case Day(date) => Wall(date, 0)
    case Moment(i) => tz(e.zone).toWall(i)
  }

  function Step(e: Event): (step: int)
    ensures step == 1 || step == 7
  {
    if e.repeat == Some(Weekly) then 7 else 1
  }

  function Plus(w: Wall, days: int): Wall { Wall(w.date + days, w.time) }

  function AtDay(tz: Zones, e: Event, days: int): Option<Event>
    requires WellFormed(e)
  {
    var start, end := Plus(WallOf(tz, e, e.start), days), Plus(WallOf(tz, e, e.end), days);
    var zone := tz(e.zone);
    if e.repeatUntil.Some? && start.date > e.repeatUntil.value then None
    else if !e.allDay && zone.toWall(zone.toInstant(start)) != start then None
    else
      var value := if e.allDay then Day(start.date) else if days == 0 then e.start else Moment(zone.toInstant(start));
      var until := if e.allDay then Day(end.date) else if days == 0 then e.end else Moment(zone.toInstant(end));
      Some(e.(exceptions := [], id := Occurrence(SeriesId(e), value), occurrenceStart := Some(value), start := value, end := until))
  }

  function SeriesId(e: Event): string {
    match e.id case Own(id) => id case Occurrence(series, _) => series
  }

  function OwnedOccurrence(tz: Zones, e: Event, v: Value): Option<Event>
    requires WellFormed(e)
  {
    if e.repeat.None? || !Fits(e, v) then None
    else
      var days := WallOf(tz, e, v).date - WallOf(tz, e, e.start).date;
      if days < 0 || days % Step(e) != 0 then None
      else
        var o := AtDay(tz, e, days);
        if o.Some? && o.value.start == v then o else None
  }

  predicate Excepted(xs: seq<Exception>, v: Value) {
    exists i :: 0 <= i < |xs| && xs[i].original == v
  }

  /** The occurrence of one day, if the range shows it. */
  function Shown(tz: Zones, e: Event, from: int, to: int, days: int): seq<Event>
    requires WellFormed(e)
  {
    Visible(e.exceptions, AtDay(tz, e, days), from, to)
  }

  function Visible(xs: seq<Exception>, o: Option<Event>, from: int, to: int): seq<Event> {
    if o.Some? && !Excepted(xs, o.value.start) && Overlaps(o.value, from, to) then [o.value] else []
  }

  /** The naive expansion: every multiple of the step from `days` to `until`. */
  function Naive(tz: Zones, e: Event, from: int, to: int, days: int, until: int): seq<Event>
    requires WellFormed(e)
    decreases until - days
  {
    if days > until then [] else Shown(tz, e, from, to, days) + Naive(tz, e, from, to, days + Step(e), until)
  }

  function Moved(tz: Zones, e: Event, x: Exception, from: int, to: int): seq<Event>
    requires WellFormed(e)
  {
    if x.replacement.Some? && OwnedOccurrence(tz, e, x.original).Some? && Overlaps(x.replacement.value, from, to)
    then [x.replacement.value.(repeat := e.repeat, repeatUntil := e.repeatUntil,
            id := Occurrence(SeriesId(e), x.original), occurrenceStart := Some(x.original))]
    else []
  }

  function Replacements(tz: Zones, e: Event, xs: seq<Exception>, from: int, to: int): seq<Event>
    requires WellFormed(e)
  {
    if xs == [] then []
    else Moved(tz, e, xs[0], from, to) + Replacements(tz, e, xs[1..], from, to)
  }

  function First(tz: Zones, e: Event, from: int): int
    requires WellFormed(e)
  {
    var start, end := WallOf(tz, e, e.start), WallOf(tz, e, e.end);
    var n := (tz(e.zone).toWall(from).date - start.date - (end.date - start.date + 1)) / Step(e) * Step(e);
    if n < 0 then 0 else n
  }

  function Last(tz: Zones, e: Event, to: int): int
    requires WellFormed(e)
  {
    tz(e.zone).toWall(to).date + 1 - WallOf(tz, e, e.start).date
  }

  // ---------------------------------------------------------------- the window loses nothing

  lemma FirstIsMultiple(tz: Zones, e: Event, from: int)
    requires WellFormed(e)
    ensures First(tz, e, from) >= 0 && First(tz, e, from) % Step(e) == 0
  {}

  lemma RoundedDown(x: int, step: int)
    requires step == 1 || step == 7
    ensures x / step * step <= x
  {}

  /** The range starts at most a day after the local end of a shown occurrence, and ends at most a day before its local start. */
  lemma ShownNearRange(tz: Zones, e: Event, from: int, to: int, days: int)
    requires WellFormed(e) && Reasonable(tz(e.zone)) && Shown(tz, e, from, to, days) != []
    ensures tz(e.zone).toWall(from).date <= WallOf(tz, e, e.end).date + days + 1
    ensures WallOf(tz, e, e.start).date + days <= tz(e.zone).toWall(to).date + 1
  {
    var z := tz(e.zone);
    var start, end := Plus(WallOf(tz, e, e.start), days), Plus(WallOf(tz, e, e.end), days);
    assert start.date <= z.toWall(to).date + 1;
    assert z.toWall(from).date <= end.date + 1;
  }

  /** A shown occurrence lies inside the window. */
  lemma ShownInWindow(tz: Zones, e: Event, from: int, to: int, days: int)
    requires WellFormed(e) && Reasonable(tz(e.zone)) && days >= 0 && Shown(tz, e, from, to, days) != []
    ensures First(tz, e, from) <= days <= Last(tz, e, to)
  {
    ShownNearRange(tz, e, from, to, days);
    var start, end := WallOf(tz, e, e.start).date, WallOf(tz, e, e.end).date;
    RoundedDown(tz(e.zone).toWall(from).date - start - (end - start + 1), Step(e));
  }

  lemma {:induction false} NaiveSkips(tz: Zones, e: Event, from: int, to: int, days: int, first: int, until: int)
    requires WellFormed(e) && 0 <= days <= first && days % Step(e) == 0 && first % Step(e) == 0
    requires forall d :: days <= d < first ==> Shown(tz, e, from, to, d) == []
    ensures Naive(tz, e, from, to, days, until) == Naive(tz, e, from, to, first, until)
    decreases first - days
  {
    if days < first {
      assert days + Step(e) <= first;
      if days <= until {
        NaiveSkips(tz, e, from, to, days + Step(e), first, until);
      }
    }
  }

  lemma {:induction false} NaiveStops(tz: Zones, e: Event, from: int, to: int, days: int, last: int, until: int)
    requires WellFormed(e) && last <= until && days >= 0
    requires forall d :: d >= 0 && last < d ==> Shown(tz, e, from, to, d) == []
    ensures Naive(tz, e, from, to, days, until) == Naive(tz, e, from, to, days, last)
    decreases until - days
  {
    if days <= until { NaiveStops(tz, e, from, to, days + Step(e), last, until); }
  }

  /** Windowed expansion equals the naive one, however far that goes. */
  lemma WindowIsComplete(tz: Zones, e: Event, from: int, to: int, until: int)
    requires WellFormed(e) && Reasonable(tz(e.zone)) && Last(tz, e, to) <= until
    ensures Naive(tz, e, from, to, First(tz, e, from), Last(tz, e, to)) == Naive(tz, e, from, to, 0, until)
  {
    var first, last := First(tz, e, from), Last(tz, e, to);
    FirstIsMultiple(tz, e, from);
    forall d | d >= 0 && !(first <= d <= last) ensures Shown(tz, e, from, to, d) == [] {
      if Shown(tz, e, from, to, d) != [] { ShownInWindow(tz, e, from, to, d); }
    }
    NaiveSkips(tz, e, from, to, 0, first, until);
    NaiveStops(tz, e, from, to, first, last, until);
  }

  /** `ownedOccurrences` as one value. */
  function Expansion(tz: Zones, e: Event, from: int, to: int): seq<Event>
    requires WellFormed(e)
  {
    if e.repeat.None? then (if Overlaps(e, from, to) then [e] else [])
    else Naive(tz, e, from, to, First(tz, e, from), Last(tz, e, to)) + Replacements(tz, e, e.exceptions, from, to)
  }

  /** The two loops of the source. */
  method OwnedOccurrences(tz: Zones, e: Event, from: int, to: int) returns (result: seq<Event>)
    requires WellFormed(e)
    ensures result == Expansion(tz, e, from, to)
  {
    if e.repeat.None? { return if Overlaps(e, from, to) then [e] else []; }
    var start, end := WallOf(tz, e, e.start), WallOf(tz, e, e.end);
    var lower, upper := tz(e.zone).toWall(from).date, tz(e.zone).toWall(to).date + 1;
    var durationDays := end.date - start.date + 1;
    var first := (lower - start.date - durationDays) / Step(e) * Step(e);
    if first < 0 { first := 0; }
    var last := upper - start.date;
    result := OccurrencesOfDays(tz, e, from, to, first, last);
    var moved := MovedOccurrences(tz, e, from, to);
    result := result + moved;
  }

  method OccurrencesOfDays(tz: Zones, e: Event, from: int, to: int, first: int, last: int) returns (result: seq<Event>)
    requires WellFormed(e)
    ensures result == Naive(tz, e, from, to, first, last)
  {
    result := [];
    var days := first;
    while days <= last
      invariant result + Naive(tz, e, from, to, days, last) == Naive(tz, e, from, to, first, last)
      decreases last - days
    {
      ghost var before := result;
      result := PushVisible(result, e.exceptions, AtDay(tz, e, days), from, to);
      NaiveFrom(tz, e, from, to, days, last);
      Reassociate(before, Shown(tz, e, from, to, days), Naive(tz, e, from, to, days + Step(e), last));
      days := days + Step(e);
    }
  }

  method PushVisible(events: seq<Event>, xs: seq<Exception>, occurrence: Option<Event>, from: int, to: int) returns (result: seq<Event>)
    ensures result == events + Visible(xs, occurrence, from, to)
  {
    result := events;
    if occurrence.Some? && !Excepted(xs, occurrence.value.start) && Overlaps(occurrence.value, from, to) {
      result := result + [occurrence.value];
    }
  }

  method MovedOccurrences(tz: Zones, e: Event, from: int, to: int) returns (result: seq<Event>)
    requires WellFormed(e)
    ensures result == Replacements(tz, e, e.exceptions, from, to)
  {
    result := [];
    for i := 0 to |e.exceptions|
      invariant result + Replacements(tz, e, e.exceptions[i..], from, to) == Replacements(tz, e, e.exceptions, from, to)
    {
      var x := e.exceptions[i];
      assert e.exceptions[i..][1..] == e.exceptions[i + 1..];
      Reassociate(result, Moved(tz, e, x, from, to), Replacements(tz, e, e.exceptions[i + 1..], from, to));
      if x.replacement.Some? && OwnedOccurrence(tz, e, x.original).Some? && Overlaps(x.replacement.value, from, to) {
        result := result + [x.replacement.value.(repeat := e.repeat, repeatUntil := e.repeatUntil,
                              id := Occurrence(SeriesId(e), x.original), occurrenceStart := Some(x.original))];
      }
    }
  }

  lemma Reassociate<T>(a: seq<T>, b: seq<T>, c: seq<T>)
    ensures a + (b + c) == a + b + c && a + [] == a
  {}

  // ---------------------------------------------------------------- occurrences are found again

  /** The wall date of an occurrence's start counts its days. */
  lemma StartCountsDays(tz: Zones, e: Event, days: int)
    requires WellFormed(e) && AtDay(tz, e, days).Some?
    ensures
      var v := AtDay(tz, e, days).value.start;
      Fits(e, v) && WallOf(tz, e, v).date - WallOf(tz, e, e.start).date == days
  {}

  /** A wall time that some instant shows. */
  ghost predicate Exists(z: Zone, w: Wall) {
    exists i: int :: z.toWall(i) == w
  }

  predicate Returns(z: Zone, w: Wall) { z.toWall(z.toInstant(w)) == w }

  /** Converting a wall time to an instant and back gives it again exactly if some instant shows it. */
  lemma ExistingWallsReturn(z: Zone, w: Wall)
    requires Reasonable(z)
    ensures Returns(z, w) <==> Exists(z, w)
  {
    if i: int :| z.toWall(i) == w { assert z.toWall(z.toInstant(z.toWall(i))) == z.toWall(i); }
  }

  ghost predicate KeepsWallTimes(tz: Zones, e: Event, days: int, startExists: bool, endExists: bool)
    requires WellFormed(e)
  {
    var start, end := Plus(WallOf(tz, e, e.start), days), Plus(WallOf(tz, e, e.end), days);
    var o := AtDay(tz, e, days);
    && (o.Some? <==> !(e.repeatUntil.Some? && start.date > e.repeatUntil.value) && (e.allDay || startExists))
    && (o.Some? ==> WellFormed(o.value) && WallOf(tz, o.value, o.value.start) == start)
    && (o.Some? && (e.allDay || endExists) ==> WallOf(tz, o.value, o.value.end) == end)
  }

  lemma ReturningWallsAreKept(tz: Zones, e: Event, days: int, startExists: bool, endExists: bool)
    requires WellFormed(e)
    requires startExists <==> Returns(tz(e.zone), Plus(WallOf(tz, e, e.start), days))
    requires endExists <==> Returns(tz(e.zone), Plus(WallOf(tz, e, e.end), days))
    ensures KeepsWallTimes(tz, e, days, startExists, endExists)
  {}

  /** An occurrence is its series under its own id, without exceptions; the first keeps the stored values as they are. */
  lemma OccurrencesKeepTheRest(tz: Zones, e: Event, days: int)
    requires WellFormed(e) && AtDay(tz, e, days).Some?
    ensures var o := AtDay(tz, e, days).value;
      && o == e.(id := Occurrence(SeriesId(e), o.start), occurrenceStart := Some(o.start), exceptions := [], start := o.start, end := o.end)
      && (days == 0 ==> o.start == e.start && o.end == e.end)
      && (days != 0 && !e.allDay ==>
            o.start == Moment(tz(e.zone).toInstant(Plus(WallOf(tz, e, e.start), days)))
            && o.end == Moment(tz(e.zone).toInstant(Plus(WallOf(tz, e, e.end), days))))
  {}

  /**
   * Occurrences keep the series' wall times: one exists exactly on the days within `repeatUntil` on which its start time
   * exists, it starts at that time, and it ends at the series' end time if that exists on its day.
   */
  lemma OccurrencesKeepWallTimes(tz: Zones, e: Event, days: int)
    requires WellFormed(e) && Reasonable(tz(e.zone))
    ensures
      var start, end := Plus(WallOf(tz, e, e.start), days), Plus(WallOf(tz, e, e.end), days);
      KeepsWallTimes(tz, e, days, Exists(tz(e.zone), start), Exists(tz(e.zone), end))
  {
    var start, end := Plus(WallOf(tz, e, e.start), days), Plus(WallOf(tz, e, e.end), days);
    ExistingWallsReturn(tz(e.zone), start);
    ExistingWallsReturn(tz(e.zone), end);
    ReturningWallsAreKept(tz, e, days, Exists(tz(e.zone), start), Exists(tz(e.zone), end));
  }

  /** Days on which a series may occur: every day of a daily one, every seventh of a weekly one. */
  predicate Counted(e: Event, days: int) {
    days >= 0 && (e.repeat == Some(Weekly) ==> days % 7 == 0)
  }

  ghost predicate OccursOn(tz: Zones, e: Event, days: int, o: Event)
    requires WellFormed(e)
  {
    Counted(e, days) && AtDay(tz, e, days) == Some(o)
  }

  /** `ownedOccurrence` inverts `atDay`: it finds exactly the occurrences of the series, by their start. */
  lemma OccurrenceInverts(tz: Zones, e: Event, v: Value, o: Event)
    requires WellFormed(e) && e.repeat.Some?
    ensures OwnedOccurrence(tz, e, v) == Some(o) <==> o.start == v && exists days :: OccursOn(tz, e, days, o)
  {
    if OwnedOccurrence(tz, e, v) == Some(o) {
      var days := WallOf(tz, e, v).date - WallOf(tz, e, e.start).date;
      assert OccursOn(tz, e, days, o);
    }
    forall days | OccursOn(tz, e, days, o) && o.start == v ensures OwnedOccurrence(tz, e, v) == Some(o) {
      StartCountsDays(tz, e, days);
    }
  }

  // ---------------------------------------------------------------- ids of one expansion are distinct

  function Starts(events: seq<Event>): (starts: seq<Option<Value>>)
    ensures |starts| == |events| && forall i :: 0 <= i < |events| ==> starts[i] == events[i].occurrenceStart
  {
    seq(|events|, i requires 0 <= i < |events| => events[i].occurrenceStart)
  }

  ghost predicate Distinct<T>(s: seq<T>) {
    forall i, j :: 0 <= i < j < |s| ==> s[i] != s[j]
  }

  /** Object keys are distinct. */
  ghost predicate DistinctKeys(xs: seq<Exception>) {
    forall i, j :: 0 <= i < j < |xs| ==> xs[i].original != xs[j].original
  }

  /** Every event of an expansion of a series is named by its original start. */
  ghost predicate Named(e: Event, o: Event) {
    o.occurrenceStart.Some? && o.id == Occurrence(SeriesId(e), o.occurrenceStart.value)
  }

  /** An expanded occurrence from `days` on: named by its start, which is not excepted. */
  ghost predicate Expanded(tz: Zones, e: Event, o: Event, days: int)
    requires WellFormed(e)
  {
    && Named(e, o) && o.start == o.occurrenceStart.value && !Excepted(e.exceptions, o.start)
    && Fits(e, o.start) && WallOf(tz, e, o.start).date - WallOf(tz, e, e.start).date >= days
  }

  ghost predicate ExpandedAll(tz: Zones, e: Event, os: seq<Event>, days: int)
    requires WellFormed(e)
  {
    (forall o :: o in os ==> Expanded(tz, e, o, days)) && Distinct(Starts(os))
  }

  lemma ShownIsExpanded(tz: Zones, e: Event, from: int, to: int, days: int)
    requires WellFormed(e) && Shown(tz, e, from, to, days) != []
    ensures var o := AtDay(tz, e, days).value;
      Shown(tz, e, from, to, days) == [o] && Expanded(tz, e, o, days) && WallOf(tz, e, o.start).date - WallOf(tz, e, e.start).date == days
  {
    StartCountsDays(tz, e, days);
  }

  /** A later occurrence has another start. */
  lemma ExpandedBefore(tz: Zones, e: Event, o: Event, os: seq<Event>, days: int, next: int)
    requires WellFormed(e) && Expanded(tz, e, o, days) && ExpandedAll(tz, e, os, next) && days < next
    requires WallOf(tz, e, o.start).date - WallOf(tz, e, e.start).date == days
    ensures ExpandedAll(tz, e, [o] + os, days)
  {
    forall i | 0 <= i < |os| ensures os[i].occurrenceStart != o.occurrenceStart { assert Expanded(tz, e, os[i], next); }
    forall x | x in [o] + os ensures Expanded(tz, e, x, days) {
      if x != o { assert Expanded(tz, e, x, next); }
    }
    var starts := Starts([o] + os);
    assert forall i :: 0 < i < |starts| ==> starts[i] == Starts(os)[i - 1];
  }

  lemma {:induction false} NaiveFacts(tz: Zones, e: Event, from: int, to: int, days: int, until: int)
    requires WellFormed(e)
    ensures ExpandedAll(tz, e, Naive(tz, e, from, to, days, until), days)
    decreases until - days
  {
    if days <= until {
      var rest := Naive(tz, e, from, to, days + Step(e), until);
      NaiveFacts(tz, e, from, to, days + Step(e), until);
      NaiveFrom(tz, e, from, to, days, until);
      if Shown(tz, e, from, to, days) != [] {
        ShownIsExpanded(tz, e, from, to, days);
        ExpandedBefore(tz, e, AtDay(tz, e, days).value, rest, days, days + Step(e));
      } else {
        assert Naive(tz, e, from, to, days, until) == rest;
        forall o | o in rest ensures Expanded(tz, e, o, days) { assert Expanded(tz, e, o, days + Step(e)); }
      }
    }
  }

  lemma {:induction false} ReplacementFacts(tz: Zones, e: Event, xs: seq<Exception>, from: int, to: int)
    requires WellFormed(e) && DistinctKeys(xs)
    ensures
      var os := Replacements(tz, e, xs, from, to);
      && (forall o :: o in os ==> Named(e, o) && Excepted(xs, o.occurrenceStart.value))
      && Distinct(Starts(os))
  {
    if xs != [] {
      ReplacementFacts(tz, e, xs[1..], from, to);
      MovedBefore(tz, e, xs, Replacements(tz, e, xs[1..], from, to), from, to);
    }
  }

  lemma MovedBefore(tz: Zones, e: Event, xs: seq<Exception>, os: seq<Event>, from: int, to: int)
    requires WellFormed(e) && DistinctKeys(xs) && xs != [] && Distinct(Starts(os))
    requires forall o :: o in os ==> Named(e, o) && Excepted(xs[1..], o.occurrenceStart.value)
    ensures var all := Moved(tz, e, xs[0], from, to) + os;
      (forall o :: o in all ==> Named(e, o) && Excepted(xs, o.occurrenceStart.value)) && Distinct(Starts(all))
  {
    var head, x := Moved(tz, e, xs[0], from, to), xs[0];
    MovedStart(tz, e, x, from, to);
    forall o | o in os ensures Excepted(xs, o.occurrenceStart.value) && o.occurrenceStart != Some(x.original) { LaterException(xs, o.occurrenceStart.value); }
    forall o | o in head ensures Named(e, o) && Excepted(xs, o.occurrenceStart.value) { assert xs[0].original == x.original; }
    StartsAdd(head, os);
    forall i | 0 <= i < |os| ensures Starts(os)[i] != Some(x.original) { assert os[i] in os; }
    forall i | 0 <= i < |head| ensures Starts(head)[i] == Some(x.original) { assert head[i] in head; }
  }

  lemma LaterException(xs: seq<Exception>, v: Value)
    requires DistinctKeys(xs) && xs != [] && Excepted(xs[1..], v)
    ensures Excepted(xs, v) && v != xs[0].original
  {
    var i :| 0 <= i < |xs[1..]| && xs[1..][i].original == v;
    assert xs[i + 1] == xs[1..][i];
  }

  lemma StartsAdd(a: seq<Event>, b: seq<Event>)
    ensures Starts(a + b) == Starts(a) + Starts(b)
  {}

  /** Occurrence ids in one expansion are distinct, replacements included. */
  lemma IdsAreDistinct(tz: Zones, e: Event, from: int, to: int)
    requires WellFormed(e) && e.repeat.Some? && DistinctKeys(e.exceptions)
    ensures forall i, j :: 0 <= i < j < |Expansion(tz, e, from, to)| ==>
      Expansion(tz, e, from, to)[i].id != Expansion(tz, e, from, to)[j].id
  {
    var a := Naive(tz, e, from, to, First(tz, e, from), Last(tz, e, to));
    var b := Replacements(tz, e, e.exceptions, from, to);
    NaiveFacts(tz, e, from, to, First(tz, e, from), Last(tz, e, to));
    ReplacementFacts(tz, e, e.exceptions, from, to);
    var all: seq<Event> := a + b;
    forall i, j | 0 <= i < j < |all| ensures all[i].id != all[j].id {
      assert Named(e, all[i]) && Named(e, all[j]) by { InEither(a, b, i); InEither(a, b, j); }
      if j < |a| {
        assert Starts(a)[i] != Starts(a)[j];
      } else if |a| <= i {
        assert Starts(b)[i - |a|] != Starts(b)[j - |a|];
      } else {
        assert a[i] in a && b[j - |a|] in b;
      }
    }
  }

  lemma InEither<T>(a: seq<T>, b: seq<T>, i: int)
    requires 0 <= i < |a + b|
    ensures (a + b)[i] in a || (a + b)[i] in b
  {}

  // ---------------------------------------------------------------- changing one occurrence

  /** `{ ...exceptions, [original]: replacement }` */
  function WithException(xs: seq<Exception>, v: Value, replacement: Option<Event>): seq<Exception> {
    if xs == [] then [Exception(v, replacement)]
    else if xs[0].original == v then [Exception(v, replacement)] + xs[1..]
    else [xs[0]] + WithException(xs[1..], v, replacement)
  }

  /** The occurrence that began at `v` is replaced, or deleted. */
  function EditOccurrence(e: Event, v: Value, replacement: Option<Event>, now: int): Event {
    e.(updated := now, exceptions := WithException(e.exceptions, v, replacement))
  }

  function DeleteOccurrence(e: Event, v: Value, now: int): Event { EditOccurrence(e, v, None, now) }

  /** Everything but the occurrence that began at `v`. */
  function Without(events: seq<Event>, v: Value): seq<Event> {
    if events == [] then []
    else (if events[0].occurrenceStart == Some(v) then [] else [events[0]]) + Without(events[1..], v)
  }

  /** The occurrence that began at `v` alone. */
  function Only(events: seq<Event>, v: Value): seq<Event> {
    if events == [] then []
    else (if events[0].occurrenceStart == Some(v) then [events[0]] else []) + Only(events[1..], v)
  }

  /** Events up to the time of their last change, which occurrences copy from their series. */
  function Unstamped(events: seq<Event>): (plain: seq<Event>)
    ensures |plain| == |events| && forall i :: 0 <= i < |events| ==> plain[i] == events[i].(updated := 0)
  {
    seq(|events|, i requires 0 <= i < |events| => events[i].(updated := 0))
  }

  lemma UnstampedAdds(a: seq<Event>, b: seq<Event>)
    ensures Unstamped(a + b) == Unstamped(a) + Unstamped(b)
  {}

  lemma {:induction false} WithoutAdds(a: seq<Event>, b: seq<Event>, v: Value)
    ensures Without(a + b, v) == Without(a, v) + Without(b, v)
  {
    if a == [] {
      assert a + b == b;
    } else {
      assert (a + b)[1..] == a[1..] + b;
      WithoutAdds(a[1..], b, v);
      Reassociate(if a[0].occurrenceStart == Some(v) then [] else [a[0]], Without(a[1..], v), Without(b, v));
    }
  }

  lemma {:induction false} OnlyAdds(a: seq<Event>, b: seq<Event>, v: Value)
    ensures Only(a + b, v) == Only(a, v) + Only(b, v)
  {
    if a == [] {
      assert a + b == b;
    } else {
      assert (a + b)[1..] == a[1..] + b;
      OnlyAdds(a[1..], b, v);
      Reassociate(if a[0].occurrenceStart == Some(v) then [a[0]] else [], Only(a[1..], v), Only(b, v));
    }
  }

  lemma {:induction false} NothingOnly(events: seq<Event>, v: Value)
    requires Only(events, v) == []
    ensures Without(events, v) == events
  {
    if events != [] { NothingOnly(events[1..], v); }
  }

  /** At most one event. */
  lemma OneEvent(events: seq<Event>, v: Value)
    requires |events| <= 1
    ensures events != [] && events[0].occurrenceStart == Some(v) ==> Without(events, v) == [] && Only(events, v) == events
    ensures events == [] || events[0].occurrenceStart != Some(v) ==> Without(events, v) == events && Only(events, v) == []
  {
    if events != [] { assert events[1..] == []; }
  }

  lemma {:induction false} ExceptedWith(xs: seq<Exception>, v: Value, replacement: Option<Event>, x: Value)
    ensures Excepted(WithException(xs, v, replacement), x) <==> x == v || Excepted(xs, x)
  {
    var ys := WithException(xs, v, replacement);
    if xs == [] {
      assert ys[0].original == v;
    } else {
      ExceptedWith(xs[1..], v, replacement, x);
      assert Excepted(xs, x) <==> xs[0].original == x || Excepted(xs[1..], x) by { ExceptedCons(xs, x); }
      ExceptedCons(ys, x);
      if xs[0].original == v { assert ys[1..] == xs[1..]; } else { assert ys[1..] == WithException(xs[1..], v, replacement); }
    }
  }

  lemma ExceptedCons(xs: seq<Exception>, x: Value)
    requires xs != []
    ensures Excepted(xs, x) <==> xs[0].original == x || Excepted(xs[1..], x)
  {
    if Excepted(xs, x) && xs[0].original != x {
      var i :| 0 <= i < |xs| && xs[i].original == x;
      assert xs[1..][i - 1].original == x;
    }
    if Excepted(xs[1..], x) {
      var i :| 0 <= i < |xs[1..]| && xs[1..][i].original == x;
      assert xs[i + 1].original == x;
    }
  }

  /** Day by day: the occurrence that began at `v` is no longer shown by its day, and the others are. */
  lemma ShownAfterEdit(tz: Zones, e: Event, v: Value, replacement: Option<Event>, now: int, from: int, to: int, days: int)
    requires WellFormed(e)
    ensures Unstamped(Shown(tz, EditOccurrence(e, v, replacement, now), from, to, days)) == Unstamped(Without(Shown(tz, e, from, to, days), v))
    ensures Only(Shown(tz, EditOccurrence(e, v, replacement, now), from, to, days), v) == []
  {
    var o := AtDay(tz, e, days);
    if o.Some? {
      StartsAsNamed(tz, e, days);
      SameDay(tz, e, v, replacement, now, days);
      VisibleAfterEdit(e.exceptions, o.value, v, replacement, now, from, to);
    }
  }

  lemma StartsAsNamed(tz: Zones, e: Event, days: int)
    requires WellFormed(e) && AtDay(tz, e, days).Some?
    ensures AtDay(tz, e, days).value.occurrenceStart == Some(AtDay(tz, e, days).value.start)
  {}

  lemma SameDay(tz: Zones, e: Event, v: Value, replacement: Option<Event>, now: int, days: int)
    requires WellFormed(e)
    ensures var o, o' := AtDay(tz, e, days), AtDay(tz, EditOccurrence(e, v, replacement, now), days);
      o' == if o.Some? then Some(o.value.(updated := now)) else None
  {}

  lemma VisibleAfterEdit(xs: seq<Exception>, o: Event, v: Value, replacement: Option<Event>, now: int, from: int, to: int)
    requires o.occurrenceStart == Some(o.start)
    ensures var after := Visible(WithException(xs, v, replacement), Some(o.(updated := now)), from, to);
      Unstamped(after) == Unstamped(Without(Visible(xs, Some(o), from, to), v)) && Only(after, v) == []
  {
    ExceptedWith(xs, v, replacement, o.start);
    OneEvent(Visible(xs, Some(o), from, to), v);
    OneEvent(Visible(WithException(xs, v, replacement), Some(o.(updated := now)), from, to), v);
  }

  lemma {:induction false} NaiveAfterEdit(tz: Zones, e: Event, v: Value, replacement: Option<Event>, now: int, from: int, to: int, days: int, until: int)
    requires WellFormed(e)
    ensures Unstamped(Naive(tz, EditOccurrence(e, v, replacement, now), from, to, days, until)) == Unstamped(Without(Naive(tz, e, from, to, days, until), v))
    ensures Only(Naive(tz, EditOccurrence(e, v, replacement, now), from, to, days, until), v) == []
    decreases until - days
  {
    if days <= until {
      NaiveAfterEdit(tz, e, v, replacement, now, from, to, days + Step(e), until);
      ShownAfterEdit(tz, e, v, replacement, now, from, to, days);
      NaiveTogether(tz, e, EditOccurrence(e, v, replacement, now), v, from, to, days, until);
    }
  }

  /** Two versions of a series agree from a day on as they do on that day and from the next on. */
  lemma NaiveTogether(tz: Zones, e: Event, e': Event, v: Value, from: int, to: int, days: int, until: int)
    requires WellFormed(e) && WellFormed(e') && Step(e') == Step(e) && days <= until
    requires Unstamped(Shown(tz, e', from, to, days)) == Unstamped(Without(Shown(tz, e, from, to, days), v))
    requires Only(Shown(tz, e', from, to, days), v) == []
    requires Unstamped(Naive(tz, e', from, to, days + Step(e), until)) == Unstamped(Without(Naive(tz, e, from, to, days + Step(e), until), v))
    requires Only(Naive(tz, e', from, to, days + Step(e), until), v) == []
    ensures Unstamped(Naive(tz, e', from, to, days, until)) == Unstamped(Without(Naive(tz, e, from, to, days, until), v))
    ensures Only(Naive(tz, e', from, to, days, until), v) == []
  {
    var next := days + Step(e);
    EditedTogether(Shown(tz, e', from, to, days), Naive(tz, e', from, to, next, until), Shown(tz, e, from, to, days), Naive(tz, e, from, to, next, until), v);
    NaiveFrom(tz, e, from, to, days, until);
    NaiveFrom(tz, e', from, to, days, until);
  }

  lemma NaiveFrom(tz: Zones, e: Event, from: int, to: int, days: int, until: int)
    requires WellFormed(e) && days <= until
    ensures Naive(tz, e, from, to, days, until) == Shown(tz, e, from, to, days) + Naive(tz, e, from, to, days + Step(e), until)
  {}

  lemma EditedTogether(a': seq<Event>, b': seq<Event>, a: seq<Event>, b: seq<Event>, v: Value)
    requires Unstamped(a') == Unstamped(Without(a, v)) && Unstamped(b') == Unstamped(Without(b, v))
    requires Only(a', v) == [] && Only(b', v) == []
    ensures Unstamped(a' + b') == Unstamped(Without(a + b, v)) && Only(a' + b', v) == []
  {
    OnlyAdds(a', b', v);
    WithoutAdds(a, b, v);
    UnstampedAdds(a', b');
    UnstampedAdds(Without(a, v), Without(b, v));
  }

  lemma SameOwned(tz: Zones, e: Event, v: Value, replacement: Option<Event>, now: int, x: Value)
    requires WellFormed(e)
    ensures OwnedOccurrence(tz, EditOccurrence(e, v, replacement, now), x).Some? == OwnedOccurrence(tz, e, x).Some?
  {}

  lemma MovedStart(tz: Zones, e: Event, x: Exception, from: int, to: int)
    requires WellFormed(e)
    ensures |Moved(tz, e, x, from, to)| <= 1
    ensures forall o :: o in Moved(tz, e, x, from, to) ==> o.occurrenceStart == Some(x.original) && Named(e, o)
  {}

  lemma SameMoved(tz: Zones, e: Event, v: Value, replacement: Option<Event>, now: int, x: Exception, from: int, to: int)
    requires WellFormed(e)
    ensures Moved(tz, EditOccurrence(e, v, replacement, now), x, from, to) == Moved(tz, e, x, from, to)
  {
    SameOwned(tz, e, v, replacement, now, x.original);
  }

  /** The replacement takes the place of an earlier one, or comes last; the other replacements stay. */
  lemma {:induction false} ReplacementsAfterEdit(tz: Zones, e: Event, v: Value, replacement: Option<Event>, now: int, xs: seq<Exception>, from: int, to: int)
    requires WellFormed(e) && DistinctKeys(xs)
    decreases |xs|, 1
    ensures var after := Replacements(tz, EditOccurrence(e, v, replacement, now), WithException(xs, v, replacement), from, to);
      Without(after, v) == Without(Replacements(tz, e, xs, from, to), v) && Only(after, v) == Moved(tz, e, Exception(v, replacement), from, to)
  {
    var e', mine := EditOccurrence(e, v, replacement, now), Exception(v, replacement);
    SameMoved(tz, e, v, replacement, now, mine, from, to);
    MovedStart(tz, e, mine, from, to);
    OneEvent(Moved(tz, e, mine, from, to), v);
    if xs == [] {
      assert WithException(xs, v, replacement) == [mine] && [mine][1..] == [];
      assert Replacements(tz, e', [mine], from, to) == Moved(tz, e, mine, from, to);
    } else if xs[0].original == v {
      ReplacedFirst(tz, e, v, replacement, now, xs, from, to);
    } else {
      ReplacedLater(tz, e, v, replacement, now, xs, from, to);
    }
  }

  lemma ReplacedFirst(tz: Zones, e: Event, v: Value, replacement: Option<Event>, now: int, xs: seq<Exception>, from: int, to: int)
    requires WellFormed(e) && DistinctKeys(xs) && xs != [] && xs[0].original == v
    ensures var after := Replacements(tz, EditOccurrence(e, v, replacement, now), WithException(xs, v, replacement), from, to);
      Without(after, v) == Without(Replacements(tz, e, xs, from, to), v) && Only(after, v) == Moved(tz, e, Exception(v, replacement), from, to)
  {
    var mine, rest := Exception(v, replacement), xs[1..];
    assert ([mine] + rest)[1..] == rest;
    SameMoved(tz, e, v, replacement, now, mine, from, to);
    ReplacementsUntouched(tz, e, v, replacement, now, rest, from, to);
    MovedStart(tz, e, mine, from, to);
    MovedStart(tz, e, xs[0], from, to);
    OneEvent(Moved(tz, e, mine, from, to), v);
    OneEvent(Moved(tz, e, xs[0], from, to), v);
    WithoutAdds(Moved(tz, e, mine, from, to), Replacements(tz, e, rest, from, to), v);
    OnlyAdds(Moved(tz, e, mine, from, to), Replacements(tz, e, rest, from, to), v);
    WithoutAdds(Moved(tz, e, xs[0], from, to), Replacements(tz, e, rest, from, to), v);
    OnlyAdds(Moved(tz, e, xs[0], from, to), Replacements(tz, e, rest, from, to), v);
  }

  lemma {:induction false} ReplacedLater(tz: Zones, e: Event, v: Value, replacement: Option<Event>, now: int, xs: seq<Exception>, from: int, to: int)
    requires WellFormed(e) && DistinctKeys(xs) && xs != [] && xs[0].original != v
    decreases |xs|, 0
    ensures var after := Replacements(tz, EditOccurrence(e, v, replacement, now), WithException(xs, v, replacement), from, to);
      Without(after, v) == Without(Replacements(tz, e, xs, from, to), v) && Only(after, v) == Moved(tz, e, Exception(v, replacement), from, to)
  {
    var e', x, rest := EditOccurrence(e, v, replacement, now), xs[0], xs[1..];
    assert ([x] + WithException(rest, v, replacement))[1..] == WithException(rest, v, replacement);
    ReplacementsAfterEdit(tz, e, v, replacement, now, rest, from, to);
    SameMoved(tz, e, v, replacement, now, x, from, to);
    MovedStart(tz, e, x, from, to);
    OneEvent(Moved(tz, e, x, from, to), v);
    WithoutAdds(Moved(tz, e, x, from, to), Replacements(tz, e, rest, from, to), v);
    OnlyAdds(Moved(tz, e, x, from, to), Replacements(tz, e, rest, from, to), v);
    WithoutAdds(Moved(tz, e, x, from, to), Replacements(tz, e', WithException(rest, v, replacement), from, to), v);
    OnlyAdds(Moved(tz, e, x, from, to), Replacements(tz, e', WithException(rest, v, replacement), from, to), v);
  }

  lemma {:induction false} ReplacementsUntouched(tz: Zones, e: Event, v: Value, replacement: Option<Event>, now: int, xs: seq<Exception>, from: int, to: int)
    requires WellFormed(e) && forall i :: 0 <= i < |xs| ==> xs[i].original != v
    ensures Replacements(tz, EditOccurrence(e, v, replacement, now), xs, from, to) == Replacements(tz, e, xs, from, to)
    ensures Without(Replacements(tz, e, xs, from, to), v) == Replacements(tz, e, xs, from, to) && Only(Replacements(tz, e, xs, from, to), v) == []
  {
    if xs != [] {
      SameMoved(tz, e, v, replacement, now, xs[0], from, to);
      ReplacementsUntouched(tz, e, v, replacement, now, xs[1..], from, to);
      MovedStart(tz, e, xs[0], from, to);
      OneEvent(Moved(tz, e, xs[0], from, to), v);
      WithoutAdds(Moved(tz, e, xs[0], from, to), Replacements(tz, e, xs[1..], from, to), v);
      OnlyAdds(Moved(tz, e, xs[0], from, to), Replacements(tz, e, xs[1..], from, to), v);
    }
  }

  /**
   * Changing one occurrence changes no other in any expansion, up to `updated`; in its own place stands what replaces it, if the
   * range shows that.
   */
  lemma EditChangesOne(tz: Zones, e: Event, v: Value, replacement: Option<Event>, now: int, from: int, to: int)
    requires WellFormed(e) && e.repeat.Some? && DistinctKeys(e.exceptions)
    ensures var after := Expansion(tz, EditOccurrence(e, v, replacement, now), from, to);
      Unstamped(Without(after, v)) == Unstamped(Without(Expansion(tz, e, from, to), v))
      && Only(after, v) == Moved(tz, e, Exception(v, replacement), from, to)
  {
    var first, last := First(tz, e, from), Last(tz, e, to);
    SameWindow(tz, e, v, replacement, now, from, to);
    NaiveAfterEdit(tz, e, v, replacement, now, from, to, first, last);
    ReplacementsAfterEdit(tz, e, v, replacement, now, e.exceptions, from, to);
    BothParts(tz, e, EditOccurrence(e, v, replacement, now), v, from, to);
  }

  lemma SameWindow(tz: Zones, e: Event, v: Value, replacement: Option<Event>, now: int, from: int, to: int)
    requires WellFormed(e)
    ensures var e' := EditOccurrence(e, v, replacement, now);
      WellFormed(e') && First(tz, e', from) == First(tz, e, from) && Last(tz, e', to) == Last(tz, e, to)
  {}

  /** Two versions of a series with the same window agree as their two parts do. */
  lemma BothParts(tz: Zones, e: Event, e': Event, v: Value, from: int, to: int)
    requires WellFormed(e) && WellFormed(e') && e.repeat.Some? && e'.repeat.Some?
    requires First(tz, e', from) == First(tz, e, from) && Last(tz, e', to) == Last(tz, e, to)
    requires Unstamped(Naive(tz, e', from, to, First(tz, e, from), Last(tz, e, to)))
          == Unstamped(Without(Naive(tz, e, from, to, First(tz, e, from), Last(tz, e, to)), v))
    requires Only(Naive(tz, e', from, to, First(tz, e, from), Last(tz, e, to)), v) == []
    requires Without(Replacements(tz, e', e'.exceptions, from, to), v) == Without(Replacements(tz, e, e.exceptions, from, to), v)
    ensures Unstamped(Without(Expansion(tz, e', from, to), v)) == Unstamped(Without(Expansion(tz, e, from, to), v))
    ensures Only(Expansion(tz, e', from, to), v) == Only(Replacements(tz, e', e'.exceptions, from, to), v)
  {
    ghost var first, last := First(tz, e, from), Last(tz, e, to);
    EditedApart(Naive(tz, e', from, to, first, last), Replacements(tz, e', e'.exceptions, from, to),
                Naive(tz, e, from, to, first, last), Replacements(tz, e, e.exceptions, from, to), v);
  }

  lemma EditedApart(a': seq<Event>, b': seq<Event>, a: seq<Event>, b: seq<Event>, v: Value)
    requires Unstamped(a') == Unstamped(Without(a, v)) && Only(a', v) == [] && Without(b', v) == Without(b, v)
    ensures Unstamped(Without(a' + b', v)) == Unstamped(Without(a + b, v)) && Only(a' + b', v) == Only(b', v)
  {
    NothingOnly(a', v);
    WithoutAdds(a', b', v);
    OnlyAdds(a', b', v);
    WithoutAdds(a, b, v);
    OnlyAdds(a, b, v);
    UnstampedAdds(a', Without(b', v));
    UnstampedAdds(Without(a, v), Without(b, v));
  }

  /** Patching an occurrence puts the new values in its place in every expansion that shows them, under its own id and start. */
  lemma PatchReplacesOne(tz: Zones, e: Event, v: Value, r: Event, now: int, from: int, to: int)
    requires WellFormed(e) && e.repeat.Some? && DistinctKeys(e.exceptions) && OwnedOccurrence(tz, e, v).Some?
    ensures var after := Expansion(tz, EditOccurrence(e, v, Some(r), now), from, to);
      Unstamped(Without(after, v)) == Unstamped(Without(Expansion(tz, e, from, to), v))
      && if Overlaps(r, from, to)
         then |Only(after, v)| == 1 && Only(after, v)[0].body == r.body && Only(after, v)[0].start == r.start && Only(after, v)[0].end == r.end
              && Only(after, v)[0].id == Occurrence(SeriesId(e), v) && Only(after, v)[0].occurrenceStart == Some(v)
         else Only(after, v) == []
  {
    EditChangesOne(tz, e, v, Some(r), now, from, to);
  }

  /** Deleting one occurrence removes just that one from every expansion; the others are equal up to `updated`. */
  lemma DeletionRemovesOne(tz: Zones, e: Event, v: Value, now: int, from: int, to: int)
    requires WellFormed(e) && e.repeat.Some? && DistinctKeys(e.exceptions)
    ensures Unstamped(Expansion(tz, DeleteOccurrence(e, v, now), from, to)) == Unstamped(Without(Expansion(tz, e, from, to), v))
  {
    EditChangesOne(tz, e, v, None, now, from, to);
    NothingOnly(Expansion(tz, DeleteOccurrence(e, v, now), from, to), v);
  }
}
