/** What an expansion holds (apps/remote/server/calendar-recurrence.ts), said without its window and its loops. */
module CalendarExpansions {
  import opened Options
  import opened CalendarRecurrence

  /** The range shows an event that ends after its start and begins before its end; of all-day events the UTC dates count. */
  predicate InRange(o: Event, from: int, to: int) {
    match (o.start, o.end)
    case (Moment(start), Moment(end)) => end > from && start < to
    case (Day(start), Day(end)) => end > from / 86_400_000 && start < to / 86_400_000
    case _ => false
  }

  ghost predicate Free(e: Event, v: Value) {
    forall x :: x in e.exceptions ==> x.original != v
  }

  /** An occurrence that the range shows in its own place. */
  ghost predicate ShownInPlace(tz: Zones, e: Event, from: int, to: int, o: Event)
    requires WellFormed(e)
  {
    (exists days :: OccursOn(tz, e, days, o)) && Free(e, o.start) && InRange(o, from, to)
  }

  /** What stands for a replaced occurrence, if the range shows the replacement. */
  ghost predicate Replaced(tz: Zones, e: Event, from: int, to: int, x: Exception, o: Event)
    requires WellFormed(e)
  {
    && x.replacement.Some? && InRange(x.replacement.value, from, to)
    && (exists days, p :: OccursOn(tz, e, days, p) && p.start == x.original)
    && o == x.replacement.value.(repeat := e.repeat, repeatUntil := e.repeatUntil,
              id := Occurrence(SeriesId(e), x.original), occurrenceStart := Some(x.original))
  }

  lemma OverlapsInRange(o: Event, from: int, to: int)
    ensures Overlaps(o, from, to) == InRange(o, from, to)
  {}

  lemma CountedSteps(e: Event, days: int)
    requires days >= 0
    ensures Counted(e, days) <==> days % Step(e) == 0
  {}

  lemma ShownIsPlain(tz: Zones, e: Event, from: int, to: int, days: int)
    requires WellFormed(e) && Counted(e, days)
    ensures forall o :: o in Shown(tz, e, from, to, days) <==> AtDay(tz, e, days) == Some(o) && Free(e, o.start) && InRange(o, from, to)
  {
    if AtDay(tz, e, days).Some? { OverlapsInRange(AtDay(tz, e, days).value, from, to); }
    var o := AtDay(tz, e, days);
    if o.Some? { ExceptedIsNotFree(e, o.value.start); }
  }

  lemma ExceptedIsNotFree(e: Event, v: Value)
    ensures Excepted(e.exceptions, v) <==> !Free(e, v)
  {}

  lemma {:induction false} NaiveIsPlain(tz: Zones, e: Event, from: int, to: int, days: int, until: int, o: Event)
    requires WellFormed(e) && days >= 0 && days % Step(e) == 0 && o in Naive(tz, e, from, to, days, until)
    ensures ShownInPlace(tz, e, from, to, o)
    decreases until - days
  {
    NaiveFrom(tz, e, from, to, days, until);
    CountedSteps(e, days);
    ShownIsPlain(tz, e, from, to, days);
    if o in Shown(tz, e, from, to, days) {
      assert OccursOn(tz, e, days, o);
    } else {
      NaiveIsPlain(tz, e, from, to, days + Step(e), until, o);
    }
  }

  lemma NextStep(e: Event, days: int, d: int)
    requires days < d && days % Step(e) == 0 && d % Step(e) == 0
    ensures days + Step(e) <= d && (days + Step(e)) % Step(e) == 0
  {}

  lemma {:induction false} NaiveHolds(tz: Zones, e: Event, from: int, to: int, days: int, until: int, d: int, o: Event)
    requires WellFormed(e) && 0 <= days <= d <= until && days % Step(e) == 0 && d % Step(e) == 0
    requires o in Shown(tz, e, from, to, d)
    ensures o in Naive(tz, e, from, to, days, until)
    decreases d - days
  {
    NaiveFrom(tz, e, from, to, days, until);
    if days < d {
      NextStep(e, days, d);
      NaiveHolds(tz, e, from, to, days + Step(e), until, d, o);
    }
  }

  function Date(tz: Zones, e: Event, o: Event): int
    requires WellFormed(e)
  {
    if Fits(e, o.start) then WallOf(tz, e, o.start).date else 0
  }

  ghost predicate ByDate(tz: Zones, e: Event, os: seq<Event>)
    requires WellFormed(e)
  {
    forall i, j :: 0 <= i < j < |os| ==> Date(tz, e, os[i]) < Date(tz, e, os[j])
  }

  ghost predicate FromDay(tz: Zones, e: Event, os: seq<Event>, days: int)
    requires WellFormed(e)
  {
    forall o :: o in os ==> Date(tz, e, o) >= WallOf(tz, e, e.start).date + days
  }

  lemma NaiveFromDay(tz: Zones, e: Event, from: int, to: int, days: int, until: int)
    requires WellFormed(e)
    ensures FromDay(tz, e, Naive(tz, e, from, to, days, until), days)
  {
    var os := Naive(tz, e, from, to, days, until);
    NaiveFacts(tz, e, from, to, days, until);
    forall o | o in os ensures Date(tz, e, o) >= WallOf(tz, e, e.start).date + days { assert Expanded(tz, e, o, days); }
  }

  lemma {:induction false} NaiveByDate(tz: Zones, e: Event, from: int, to: int, days: int, until: int)
    requires WellFormed(e)
    ensures ByDate(tz, e, Naive(tz, e, from, to, days, until))
    decreases until - days
  {
    if days <= until {
      NaiveByDate(tz, e, from, to, days + Step(e), until);
      DayBefore(tz, e, from, to, days, until);
    }
  }

  lemma DayBefore(tz: Zones, e: Event, from: int, to: int, days: int, until: int)
    requires WellFormed(e) && days <= until && ByDate(tz, e, Naive(tz, e, from, to, days + Step(e), until))
    ensures ByDate(tz, e, Naive(tz, e, from, to, days, until))
  {
    NaiveFrom(tz, e, from, to, days, until);
    NaiveFromDay(tz, e, from, to, days + Step(e), until);
    ShownBefore(tz, e, from, to, days, days + Step(e), Naive(tz, e, from, to, days + Step(e), until));
  }

  lemma ShownBefore(tz: Zones, e: Event, from: int, to: int, days: int, next: int, rest: seq<Event>)
    requires WellFormed(e) && days < next && ByDate(tz, e, rest) && FromDay(tz, e, rest, next)
    ensures ByDate(tz, e, Shown(tz, e, from, to, days) + rest)
  {
    if Shown(tz, e, from, to, days) != [] {
      ShownIsExpanded(tz, e, from, to, days);
      var o := AtDay(tz, e, days).value;
      EarlierFirst(tz, e, o, rest);
    } else {
      assert Shown(tz, e, from, to, days) + rest == rest;
    }
  }

  lemma EarlierFirst(tz: Zones, e: Event, o: Event, rest: seq<Event>)
    requires WellFormed(e) && ByDate(tz, e, rest) && forall p :: p in rest ==> Date(tz, e, o) < Date(tz, e, p)
    ensures ByDate(tz, e, [o] + rest)
  {
    var os := [o] + rest;
    forall i, j | 0 <= i < j < |os| ensures Date(tz, e, os[i]) < Date(tz, e, os[j]) {
      assert os[j] == rest[j - 1];
      if i > 0 { assert os[i] == rest[i - 1]; }
    }
  }

  /** The windowed loop returns exactly the plain occurrences that the range shows, by date. */
  lemma WindowIsExact(tz: Zones, e: Event, from: int, to: int)
    requires WellFormed(e) && Reasonable(tz(e.zone))
    ensures var os := Naive(tz, e, from, to, First(tz, e, from), Last(tz, e, to));
      ByDate(tz, e, os) && forall o :: o in os <==> ShownInPlace(tz, e, from, to, o)
  {
    var first, last := First(tz, e, from), Last(tz, e, to);
    FirstIsMultiple(tz, e, from);
    NaiveByDate(tz, e, from, to, first, last);
    forall o ensures o in Naive(tz, e, from, to, first, last) <==> ShownInPlace(tz, e, from, to, o) {
      if o in Naive(tz, e, from, to, first, last) { NaiveIsPlain(tz, e, from, to, first, last, o); }
      if ShownInPlace(tz, e, from, to, o) {
        var days :| OccursOn(tz, e, days, o);
        ShownIsPlain(tz, e, from, to, days);
        ShownInWindow(tz, e, from, to, days);
        CountedSteps(e, days);
        NaiveHolds(tz, e, from, to, first, last, days, o);
      }
    }
  }

  lemma MovedIsReplaced(tz: Zones, e: Event, x: Exception, from: int, to: int, o: Event)
    requires WellFormed(e) && e.repeat.Some?
    ensures o in Moved(tz, e, x, from, to) <==> Replaced(tz, e, from, to, x, o)
  {
    if x.replacement.Some? { OverlapsInRange(x.replacement.value, from, to); }
    if OwnedOccurrence(tz, e, x.original).Some? {
      OccurrenceInverts(tz, e, x.original, OwnedOccurrence(tz, e, x.original).value);
    }
    forall days, p | OccursOn(tz, e, days, p) && p.start == x.original ensures OwnedOccurrence(tz, e, x.original) == Some(p) {
      OccurrenceInverts(tz, e, x.original, p);
    }
  }

  lemma {:induction false} ReplacementsAreExact(tz: Zones, e: Event, xs: seq<Exception>, from: int, to: int, o: Event)
    requires WellFormed(e) && e.repeat.Some?
    ensures o in Replacements(tz, e, xs, from, to) <==> exists x :: x in xs && Replaced(tz, e, from, to, x, o)
  {
    if xs != [] {
      MovedIsReplaced(tz, e, xs[0], from, to, o);
      ReplacementsAreExact(tz, e, xs[1..], from, to, o);
      assert xs == [xs[0]] + xs[1..];
    }
  }

  /**
   * An expansion is two lists: by date, exactly the occurrences of the series that no exception names and the range shows; and
   * exactly the replacements that the range shows of occurrences the series has.  An event that does not repeat is shown as it is.
   */
  lemma ExpansionIsExact(tz: Zones, e: Event, from: int, to: int) returns (plain: seq<Event>, moved: seq<Event>)
    requires WellFormed(e) && Reasonable(tz(e.zone))
    ensures e.repeat.None? ==> Expansion(tz, e, from, to) == if InRange(e, from, to) then [e] else []
    ensures e.repeat.Some? ==>
      && Expansion(tz, e, from, to) == plain + moved
      && ByDate(tz, e, plain)
      && (forall o :: o in plain <==> ShownInPlace(tz, e, from, to, o))
      && (forall o :: o in moved <==> exists x :: x in e.exceptions && Replaced(tz, e, from, to, x, o))
  {
    OverlapsInRange(e, from, to);
    plain, moved := Naive(tz, e, from, to, First(tz, e, from), Last(tz, e, to)), Replacements(tz, e, e.exceptions, from, to);
    if e.repeat.Some? {
      WindowIsExact(tz, e, from, to);
      forall o ensures o in moved <==> exists x :: x in e.exceptions && Replaced(tz, e, from, to, x, o) {
        ReplacementsAreExact(tz, e, e.exceptions, from, to, o);
      }
    }
  }
}
