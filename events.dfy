/**
 * The event records of `EVENTS` (app.py) and the loop of `wydarzenia` that
 * writes derived keys into each record in place.
 *
 * A record is an object: the keys the seed list defines are constant fields
 * (nothing in the application assigns them), and the four keys the listing
 * loop adds are mutable fields that are absent (`None`) until it runs.
 * Dates are timestamps in seconds.
 */
module Events {

  import opened Wrappers
  import opened MoonPhase

  class Event {
    const id: int
    const title: string
    const date: int
    const location: string
    const description: string
    const duration: string
    const spotsTotal: int
    const spotsTaken: int
    const image: Option<string>

    // Keys the listing loop adds.
    var moonPhase: Option<Phase>
    var isPast: Option<bool>
    var spotsAvailable: Option<int>
    var isFull: Option<bool>

    constructor (id: int, title: string, date: int, location: string, description: string,
                 duration: string, spotsTotal: int, spotsTaken: int, image: Option<string>)
      ensures this.id == id && this.title == title && this.date == date
      ensures this.location == location && this.description == description && this.duration == duration
      ensures this.spotsTotal == spotsTotal && this.spotsTaken == spotsTaken && this.image == image
      ensures moonPhase.None? && isPast.None? && spotsAvailable.None? && isFull.None?
    {
      this.id, this.title, this.date := id, title, date;
      this.location, this.description, this.duration := location, description, duration;
      this.spotsTotal, this.spotsTaken, this.image := spotsTotal, spotsTaken, image;
      moonPhase, isPast, spotsAvailable, isFull := None, None, None, None;
    }

    /** The four derived keys hold what the listing loop computes for `now`. */
    ghost predicate Annotated(now: int, fraction: int -> real)
      reads this
    {
      && moonPhase == Some(MoonPhaseOn(fraction, date))
      && isPast == Some(date <= now)
      && spotsAvailable == Some(spotsTotal - spotsTaken)
      && isFull == Some(spotsTaken >= spotsTotal)
    }

    /** One pass of the loop body: writes the four keys of this record. */
    method Annotate(now: int, fraction: int -> real)
      modifies this
      ensures Annotated(now, fraction)
    {
      moonPhase := Some(MoonPhaseOn(fraction, date));
      isPast := Some(date <= now);
      spotsAvailable := Some(spotsTotal - spotsTaken);
      isFull := Some(spotsTaken >= spotsTotal);
    }
  }

  /** The derived keys agree with one another: full exactly when no spot is left. */
  lemma FullIffNoSpotsLeft(e: Event, now: int, fraction: int -> real)
    requires e.Annotated(now, fraction)
    ensures e.isFull.value <==> e.spotsAvailable.value <= 0
  {
  }

  /**
   * The listing loop: every record of `events` is annotated, in order; the
   * records not yet reached keep their earlier keys.
   */
  method AnnotateAll(events: seq<Event>, now: int, fraction: int -> real)
    modifies events
    ensures forall e :: e in events ==> e.Annotated(now, fraction)
  {
    for i := 0 to |events|
      invariant forall k :: 0 <= k < i ==> events[k].Annotated(now, fraction)
      invariant forall k :: i <= k < |events| && events[k] !in events[..i] ==> unchanged(events[k])
    {
      events[i].Annotate(now, fraction);
      assert events[..i + 1] == events[..i] + [events[i]];
    }
  }

  /** 2025-11-21 18:00, 2025-12-03 18:00 and 2026-01-20 09:00, read as UTC. */
  const FirstCircleDate: int := 1763748000
  const AromatherapyDate: int := 1764784800
  const WinterCircleDate: int := 1768899600

  /** The seed list `EVENTS`. */
  method Seed() returns (events: seq<Event>)
    ensures |events| == 3
    ensures forall e :: e in events ==> fresh(e)
    ensures forall e :: e in events ==> e.moonPhase.None? && e.isPast.None? && e.spotsAvailable.None? && e.isFull.None?
    ensures events[0] != events[1] && events[1] != events[2] && events[0] != events[2]
    ensures events[0].id == 1 && events[0].date == FirstCircleDate
    ensures events[0].spotsTotal == 10 && events[0].spotsTaken == 3
    ensures events[1].id == 2 && events[1].date == AromatherapyDate
    ensures events[1].spotsTotal == 20 && events[1].spotsTaken == 0
    ensures events[2].id == 3 && events[2].date == WinterCircleDate
    ensures events[2].spotsTotal == 10 && events[2].spotsTaken == 2 && events[2].image.None?
  {
    var first := new Event(1, "Męski Krąg Mocy", FirstCircleDate,
      "Motylarnia, Długołęka, Wiejska 9",
      "Pierwsze spotkanie tego Kręgu. Serdecznie zapraszam",
      "3 godziny", 10, 3, Some("kragmocy1.png"));
    var aroma := new Event(2, "Aromaterapia jako wsparcie dla ciała i ducha", AromatherapyDate,
      "Motylarnia, Długołęka, Wiejska 9",
      "Odkryj moc czystych ekstaktów ziołowych zamkniętych w olejku eterycznym. Poznaj ich działanie dla ciała i ducha. Stwórz swoją własną kompozycję.",
      "2 godziny", 20, 0, Some("air_doterra.jpg"));
    var winter := new Event(3, "Zimowy Krąg w Górach", WinterCircleDate,
      "Bieszczady",
      "Weekendowy wyjazd do gór. Wędrówki, rozmowy przy ognisku, sauna i lodowata kąpiel.",
      "2 dni", 10, 2, None);
    events := [first, aroma, winter];
  }
}
