/**
 * The seed list as the site showed it when the server clock read
 * 2025-12-01 00:00. The clock's naive local reading is encoded like the seed
 * dates, as if it were UTC.
 */
module SeedListing {

  import opened Wrappers
  import opened Events
  import opened Listing

  const DecemberFirst: int := 1764547200

  method ListSeedOnDecemberFirst() returns (upcoming: seq<Event>, past: seq<Event>, next: Option<Event>)
    ensures |upcoming| == 2 && upcoming[0].id == 2 && upcoming[1].id == 3
    ensures |past| == 1 && past[0].id == 1
    ensures next.Some? && next.value.id == 2
  {
    var events := Seed();
    var first, aroma, winter := events[0], events[1], events[2];
    assert events[1..] == [aroma, winter] && [aroma, winter][1..] == [winter] && [winter][1..] == [];
    assert Select([winter], DecemberFirst, true) == [winter];
    assert Select([aroma, winter], DecemberFirst, true) == [aroma, winter];
    assert Select(events, DecemberFirst, true) == [aroma, winter];
    assert Select([winter], DecemberFirst, false) == [];
    assert Select([aroma, winter], DecemberFirst, false) == [];
    assert Select(events, DecemberFirst, false) == [first];
    assert SortByDate([winter], false) == [winter];
    assert SortByDate([aroma, winter], false) == [aroma, winter];
    assert SortByDate([first], true) == [first];
    upcoming := Upcoming(events, DecemberFirst);
    past := Past(events, DecemberFirst);
    next := NextEvent(events, DecemberFirst);
  }
}
