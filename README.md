# KragMocy event pages — a Dafny model

KragMocy is a small Flask site for a men's circle ("Krąg Mocy"). Its logic
lives in `app.py`: a hard-coded list of events (`EVENTS`), a moon-phase
label for each event date (`get_moon_phase`), and two pages that list the
events — the home page (`index`), which shows the nearest upcoming event and
its moon phase, and the events page (`wydarzenia`), which shows upcoming
events soonest first and past events newest first after writing derived
keys (`moon_phase`, `is_past`, `spots_available`, `is_full`) into every
event record in place.

This project models that logic:

- `moon_phase.dfy` (module `MoonPhase`): the classification of
  `get_moon_phase`. Its inputs are the ephemeris readings — the illuminated
  fraction of the Moon's disk now and one day later. The illumination
  percentage is `today * 100`; the Moon is waning when tomorrow's fraction is
  lower. Names are a datatype, emoji the characters U+1F311..U+1F318, each
  assigned per branch as in the source. The first if/elif chain returns an
  `Option`, so that "some branch is always taken" is a proved property.
- `events.dfy` (module `Events`): the event record as a class. The keys of
  the seed list are `const` fields, since nothing in the application assigns
  them; the four keys the listing adds are mutable `Option` fields, `None`
  until the listing loop has run. Also the listing loop itself, and the seed
  list `EVENTS`. Dates are timestamps in seconds.
- `listing.dfy` (module `Listing`): the comprehensions and `sorted` calls of
  `index` and `wydarzenia` as functions. `sorted` is modelled as a stable
  insertion sort, since Python's sort keeps equal keys in their input order,
  including with `reverse=True`. The two pages are `HomePage` (a function)
  and `EventsPage` (a method that annotates the records in place).
- `seed_listing.dfy` (module `SeedListing`): the seed list as the events page
  splits it when the server clock reads 2025-12-01 00:00.
- `wrappers.dfy` (module `Wrappers`): `Option`, for Python's `None`.

The clock (`datetime.now()`) and the ephemeris (`ephem.Moon`) are
parameters: `now` is the server's naive local clock reading encoded like the seed dates, and `fraction: int -> real` gives the
illuminated fraction at a timestamp.

## Model

| member | source | states |
|---|---|---|
| MoonPhase.WaxingChain | app.py:21-38 | some branch of the first chain always applies (the final `>= 99` test closes it), and the emoji it assigns is the one paired with its name |
| MoonPhase.WaningOverride | app.py:43-54 | the waning chain changes the name and emoji only for illumination in [1, 99); outside that band the waxing result stands |
| MoonPhase.Classify | app.py:20-54 | name and emoji always agree; when not waning the result is the waxing chain's; below 1 and from 99 up it is the waxing chain's even when waning |
| MoonPhase.GetMoonPhase | app.py:10-60 | the reported illumination is the fraction times 100 (so within 0..100 for a fraction in 0..1); the name is the classification of that percentage with "waning" meaning tomorrow's raw fraction is lower; name and emoji agree |
| MoonPhase.MoonPhaseOn | app.py:15-42 | the phase for a date is `get_moon_phase` on the ephemeris readings at that date and one day (86400 s) later: illumination is the fraction at the date times 100, the name is the classification of that percentage with waning meaning the later reading is lower, and name and emoji agree |
| MoonPhase.GlyphOfInjective | app.py:21-54 | each of the eight names has its own emoji, so the emoji identifies the name |
| MoonPhase.WaxingBands | app.py:21-38 | when not waning: Nów exactly below 1, Przybywający sierp exactly on [1, 25), Pierwsza kwadra on [25, 45), Przybywający garb on [45, 55), Pełnia from 55 up |
| MoonPhase.WaningBands | app.py:41-54 | when waning: Nów exactly below 1, Malejący sierp exactly on [1, 25], Ostatnia kwadra on (25, 55], Malejący garb on (55, 99), Pełnia from 99 up |
| MoonPhase.NamesMatchDirection | app.py:21-54 | a waning day never gets a waxing-only name and a waxing day never gets a waning-only name |
| MoonPhase.DirectionSensitiveBoundaries | app.py:24-53 | exactly 25 is Pierwsza kwadra waxing but Malejący sierp waning; exactly 55 is Pełnia waxing but Ostatnia kwadra waning; waning at 99 stays Pełnia while 98.9 is Malejący garb; 0.999 is Nów and 1.0 is not |
| MoonPhase.WaxingFollowsCycle | app.py:21-38 | when waxing, more illumination never gives an earlier name in the lunar cycle, and never a name past Pełnia |
| MoonPhase.WaningFollowsCycle | app.py:41-54 | when waning, less illumination never gives an earlier name in the cycle Pełnia, Malejący garb, Ostatnia kwadra, Malejący sierp, Nów |
| Events.Event.constructor | app.py:65-75 | a record holds the seed keys given and none of the derived keys yet |
| Events.Event.Annotate | app.py:130-133 | afterwards the record's moon phase is the phase of its date, `is_past` is `date <= now`, `spots_available` is `spots_total - spots_taken` without clamping, `is_full` is `spots_taken >= spots_total` |
| Events.FullIffNoSpotsLeft | app.py:132-133 | on an annotated record, `is_full` holds exactly when `spots_available <= 0` |
| Events.AnnotateAll | app.py:129-133 | after the loop every record in the list is annotated for `now`; records not yet reached are untouched during the loop, no other object changes, and the seed keys never change |
| Events.Seed | app.py:64-98 | the seed list has three distinct, newly made records with ids 1, 2, 3, their dates and their seat counts, none of the derived keys yet; the third has no image |
| Listing.Select | app.py:125-126 | the comprehension keeps exactly the events on the requested side of `now` (after it, or at or before it) |
| Listing.Insert | app.py:125-126 | inserting into a date-sorted list keeps it sorted and adds exactly the one event |
| Listing.SortByDate | app.py:125-126 | the result is sorted by date in the requested direction and is a permutation of the input |
| Listing.SortIsStable | app.py:125-126 | events with the same date keep their input order, in both directions |
| Listing.Upcoming | app.py:125 | upcoming events are sorted by ascending date and are exactly the events dated after `now` |
| Listing.Past | app.py:126 | past events are sorted newest first and are exactly the events dated at or before `now` |
| Listing.SelectPartition | app.py:125-126 | the two comprehensions split the list: together they hold every event as often as it is listed |
| Listing.UpcomingAndPastPartition | app.py:125-126 | upcoming followed by past is a permutation of the event list, and no event is in both |
| Listing.ListedAreEvents | app.py:125-129 | the records the loop visits are the events of the list, all of them |
| Listing.SelectOnDate | app.py:125-126 | filtering keeps the events of one date in list order, all or none depending on the date's side of `now` |
| Listing.ListingIsStable | app.py:125-126 | in each of the two lists, events on one date appear in the order of the event list |
| Listing.NextEvent | app.py:104-105 | there is no next event exactly when no event is after `now`; otherwise it is a listed event after `now` no later than any other such event |
| Listing.NextEventIsFirstListed | app.py:104-105 | among events on the earliest upcoming date, the home page shows the one listed first |
| Listing.HomePage | app.py:102-118 | the home page has a moon phase exactly when it has a next event, and that phase is the one for the next event's date |
| Listing.EventsPage | app.py:122-138 | returns the upcoming and past lists; afterwards every event is annotated for `now`, upcoming ones with `is_past` false and past ones with `is_past` true |
| SeedListing.ListSeedOnDecemberFirst | app.py:64-126 | on 2025-12-01 the seed list splits into upcoming events 2 then 3 and past event 1, and the home page shows event 2 |

## Left out

- `ephem.Moon(date).moon_phase` (app.py:15, 18, 41): an astronomical library computing in floating point; the model takes the illuminated fraction as a function of the timestamp.
- `round(illumination, 1)` (app.py:59): floating-point rounding; `MoonPhase.GetMoonPhase` reports the unrounded percentage.
- Floating point in general: the model's reals are exact and have no NaN. A NaN reading would fail every test of the first chain in the source and leave `phase_name` unbound; `MoonPhase.WaxingChain` is total over the reals.
- `datetime.now()` (app.py:104, 124): a parameter `now`. In `index` the comprehension calls `datetime.now()` once per event, so each event may be compared with a slightly later clock reading; the model uses one reading.
- Dates: timestamps in seconds, reading the naive datetimes of the seed list as UTC; the one-day step of `ephem.Date(date) + 1` is 86400 seconds.
- Time zones: `datetime.now()` returns naive local time, so the split compares the seed datetimes in local wall-clock time, while `ephem` reads the same naive datetimes as UTC. On the model's single timeline `now` is the local wall-clock reading encoded as if it were UTC; the offset between the two readings is not modelled.
- `strftime` (app.py:109): library date formatting, not modelled.
- Flask routing, `render_template` and the static pages (app.py:101-161): web glue; `HomePage` and `EventsPage` return what is passed to the templates.
- The unused `openpyxl` import (app.py:5).
- `init_db.py` and `add_contact_table.py`: database table creation and seeding through an ORM (`db`, `Event`, `Registration`, `ContactMessage`) that `app.py` does not define; database I/O is not part of this model.
- `config.example.py`: constant settings only.
- Registrations, seat increments, duplicate checks, commit retries, contact messages and e-mail: `init_db.py` and `add_contact_table.py` import `Registration` and `ContactMessage`, but `app.py` defines no registration, seat-increment, retry, contact or e-mail code, so there is nothing of them to model.
- Seed keys (`id`, `title`, `date`, the seat counts, ...) are `const` fields: no code in `app.py` assigns them, so their being unchanged by the listing is enforced by Dafny's typing rather than stated as a postcondition.
- Records that stay in the global `EVENTS` list keep their derived keys between requests in the source; the model states only what one call of `EventsPage` writes.
