/**
 * The two pages that list events (app.py): `index` shows the nearest
 * upcoming event and its moon phase, `wydarzenia` shows upcoming events
 * soonest first and past events newest first, after annotating every record.
 * The clock reading `now` is a parameter.
 */
module Listing {

  import opened Wrappers
  import opened MoonPhase
  import opened Events

  /** `a` may stand before `b`: by date ascending, or descending (`reverse=True`). */
  predicate InOrder(a: Event, b: Event, descending: bool)
  {
    if descending then a.date >= b.date else a.date <= b.date
  }

  predicate Sorted(s: seq<Event>, descending: bool)
  {
    forall i, j :: 0 <= i < j < |s| ==> InOrder(s[i], s[j], descending)
  }

  /** The comprehension `[e for e in events if (e['date'] > now) == upcoming]`. */
  function Select(events: seq<Event>, now: int, upcoming: bool): (r: seq<Event>)
    ensures forall e :: e in r ==> e in events && (e.date > now) == upcoming
    ensures forall e :: e in events && (e.date > now) == upcoming ==> e in r
  {
    if events == [] then []
    else if (events[0].date > now) == upcoming then [events[0]] + Select(events[1..], now, upcoming)
    else Select(events[1..], now, upcoming)
  }

  /**
   * Inserts `x` into a sorted list ahead of the first element it may precede,
   * so ahead of any element with the same date.
   */
  function Insert(x: Event, s: seq<Event>, descending: bool): (r: seq<Event>)
    requires Sorted(s, descending)
    ensures Sorted(r, descending)
    ensures multiset(r) == multiset(s) + multiset{x}
  {
    if s == [] || InOrder(x, s[0], descending) then
      PrependSorted(x, s, descending);
      [x] + s
    else
      var rest := Insert(x, s[1..], descending);
      assert s == [s[0]] + s[1..];
      forall e | e in rest ensures InOrder(s[0], e, descending) {
        assert e in multiset(rest);
      }
      PrependSorted(s[0], rest, descending);
      [s[0]] + rest
  }

  /** A sorted list stays sorted under a head that may precede each of its elements. */
  lemma PrependSorted(a: Event, t: seq<Event>, descending: bool)
    requires Sorted(t, descending)
    requires forall e :: e in t ==> InOrder(a, e, descending)
    ensures Sorted([a] + t, descending)
  {
  }

  /**
   * `sorted(s, key=lambda x: x['date'], reverse=descending)`. Python's sort
   * is stable in both directions: events with equal dates keep their order.
   */
  function SortByDate(s: seq<Event>, descending: bool): (r: seq<Event>)
    ensures Sorted(r, descending)
    ensures multiset(r) == multiset(s)
  {
    if s == [] then []
    else
      assert s == [s[0]] + s[1..];
      Insert(s[0], SortByDate(s[1..], descending), descending)
  }

  /** The events of `s` that fall on exactly `date`, in the order of `s`. */
  function OnDate(s: seq<Event>, date: int): seq<Event>
  {
    if s == [] then [] else (if s[0].date == date then [s[0]] else []) + OnDate(s[1..], date)
  }

  /** `upcoming` of `wydarzenia` (and `upcoming_events` of `index`). */
  function Upcoming(events: seq<Event>, now: int): (r: seq<Event>)
    ensures Sorted(r, false)
    ensures forall e :: e in r ==> e in events && e.date > now
    ensures forall e :: e in events && e.date > now ==> e in r
  {
    var selected := Select(events, now, true);
    var r := SortByDate(selected, false);
    assert forall e :: e in r ==> e in multiset(selected);
    assert forall e :: e in selected ==> e in multiset(r);
    r
  }

  /** `past` of `wydarzenia`. */
  function Past(events: seq<Event>, now: int): (r: seq<Event>)
    ensures Sorted(r, true)
    ensures forall e :: e in r ==> e in events && e.date <= now
    ensures forall e :: e in events && e.date <= now ==> e in r
  {
    var selected := Select(events, now, false);
    var r := SortByDate(selected, true);
    assert forall e :: e in r ==> e in multiset(selected);
    assert forall e :: e in selected ==> e in multiset(r);
    r
  }

  /** `next_event` of `index`: the first upcoming event, if there is one. */
  function NextEvent(events: seq<Event>, now: int): (r: Option<Event>)
    ensures r.None? <==> forall e :: e in events ==> e.date <= now
    ensures r.Some? ==> r.value in events && r.value.date > now
    ensures r.Some? ==> forall e :: e in events && e.date > now ==> r.value.date <= e.date
  {
    var upcoming := Upcoming(events, now);
    if |upcoming| > 0 then
      assert forall e :: e in upcoming ==> upcoming[0].date <= e.date by {
        forall e | e in upcoming ensures upcoming[0].date <= e.date {
          var k :| 0 <= k < |upcoming| && upcoming[k] == e;
          assert k == 0 || InOrder(upcoming[0], upcoming[k], false);
        }
      }
      Some(upcoming[0])
    else
      None
  }

  // ---------------------------------------------------------------------
  // Partition and stability

  lemma {:induction false} SelectPartition(events: seq<Event>, now: int)
    ensures multiset(Select(events, now, true)) + multiset(Select(events, now, false)) == multiset(events)
  {
    if events != [] {
      SelectPartition(events[1..], now);
      assert events == [events[0]] + events[1..];
    }
  }

  /** Upcoming and past events together are the event list, each event as often as it is listed. */
  lemma UpcomingAndPastPartition(events: seq<Event>, now: int)
    ensures multiset(Upcoming(events, now) + Past(events, now)) == multiset(events)
    ensures forall e :: e in Upcoming(events, now) ==> e !in Past(events, now)
  {
    SelectPartition(events, now);
  }

  /** Every listed event is in the event list and every event is listed. */
  lemma ListedAreEvents(events: seq<Event>, now: int)
    ensures forall e :: e in Upcoming(events, now) + Past(events, now) ==> e in events
    ensures forall e :: e in events ==> e in Upcoming(events, now) + Past(events, now)
  {
  }

  lemma OnDateCons(a: Event, t: seq<Event>, date: int)
    ensures OnDate([a] + t, date) == (if a.date == date then [a] else []) + OnDate(t, date)
  {
  }

  lemma {:induction false} InsertOnDate(x: Event, s: seq<Event>, descending: bool, date: int)
    requires Sorted(s, descending)
    ensures OnDate(Insert(x, s, descending), date) == (if x.date == date then [x] else []) + OnDate(s, date)
  {
    if s == [] || InOrder(x, s[0], descending) {
      OnDateCons(x, s, date);
    } else {
      var rest := Insert(x, s[1..], descending);
      assert Insert(x, s, descending) == [s[0]] + rest;
      InsertOnDate(x, s[1..], descending, date);
      OnDateCons(s[0], rest, date);
      assert s == [s[0]] + s[1..];
      OnDateCons(s[0], s[1..], date);
      assert s[0].date != x.date;
    }
  }

  /** Sorting keeps the relative order of events that share a date. */
  lemma {:induction false} SortIsStable(s: seq<Event>, descending: bool, date: int)
    ensures OnDate(SortByDate(s, descending), date) == OnDate(s, date)
  {
    if s != [] {
      SortIsStable(s[1..], descending, date);
      InsertOnDate(s[0], SortByDate(s[1..], descending), descending, date);
    }
  }

  lemma {:induction false} SelectOnDate(s: seq<Event>, now: int, upcoming: bool, date: int)
    ensures OnDate(Select(s, now, upcoming), date) == if (date > now) == upcoming then OnDate(s, date) else []
  {
    if s != [] {
      SelectOnDate(s[1..], now, upcoming, date);
      if (s[0].date > now) == upcoming {
        assert ([s[0]] + Select(s[1..], now, upcoming))[1..] == Select(s[1..], now, upcoming);
      }
    }
  }

  /**
   * Events on one date appear in the listing in the order of the event list;
   * the date decides whether they are upcoming or past.
   */
  lemma ListingIsStable(events: seq<Event>, now: int, date: int)
    ensures OnDate(Upcoming(events, now), date) == if date > now then OnDate(events, date) else []
    ensures OnDate(Past(events, now), date) == if date <= now then OnDate(events, date) else []
  {
    SortIsStable(Select(events, now, true), false, date);
    SelectOnDate(events, now, true, date);
    SortIsStable(Select(events, now, false), true, date);
    SelectOnDate(events, now, false, date);
  }

  /** Of several events on the earliest upcoming date, the home page shows the one listed first. */
  lemma NextEventIsFirstListed(events: seq<Event>, now: int)
    requires NextEvent(events, now).Some?
    ensures var e := NextEvent(events, now).value; OnDate(events, e.date) != [] && OnDate(events, e.date)[0] == e
  {
    var upcoming := Upcoming(events, now);
    var e := upcoming[0];
    ListingIsStable(events, now, e.date);
  }

  // ---------------------------------------------------------------------
  // The two pages

  /** What `index` passes to its template. */
  datatype HomeView = HomeView(nextEvent: Option<Event>, moonPhase: Option<Phase>)

  /** `index`: the nearest upcoming event and the moon phase on its date. */
  function HomePage(events: seq<Event>, now: int, fraction: int -> real): (h: HomeView)
    ensures h.nextEvent == NextEvent(events, now)
    ensures h.moonPhase.Some? <==> h.nextEvent.Some?
    ensures h.nextEvent.Some? ==> h.moonPhase.value == MoonPhaseOn(fraction, h.nextEvent.value.date)
  {
    var next := NextEvent(events, now);
    if next.Some? then HomeView(next, Some(MoonPhaseOn(fraction, next.value.date)))
    else HomeView(None, None)
  }

  /**
   * `wydarzenia`: splits the events at `now`, then annotates every record of
   * `upcoming + past` in place.
   */
  method EventsPage(events: seq<Event>, now: int, fraction: int -> real)
    returns (upcoming: seq<Event>, past: seq<Event>)
    modifies events
    ensures upcoming == Upcoming(events, now) && past == Past(events, now)
    ensures forall e :: e in events ==> e.Annotated(now, fraction)
    ensures forall e :: e in upcoming ==> e.isPast == Some(false)
    ensures forall e :: e in past ==> e.isPast == Some(true)
  {
    upcoming := Upcoming(events, now);
    past := Past(events, now);
    var listed := upcoming + past;
    ListedAreEvents(events, now);
    assert forall e :: e in listed ==> e in events;
    AnnotateAll(listed, now, fraction);
    forall e | e in events ensures e.Annotated(now, fraction) {
      assert e in listed;
    }
    forall e | e in upcoming ensures e.isPast == Some(false) {
      assert e in listed && e.date > now;
    }
    forall e | e in past ensures e.isPast == Some(true) {
      assert e in listed && e.date <= now;
    }
  }
}

