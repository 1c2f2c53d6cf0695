/**
 * The moon-phase classification of `get_moon_phase` (app.py).
 *
 * The astronomical library is not modelled: the caller supplies the
 * illuminated fraction of the Moon's disk (0..1) today and one day later.
 * From them the source derives the illumination percentage and whether the
 * Moon is waning, and maps the two to a phase name and an emoji.
 */
module MoonPhase {

  import opened Wrappers

  /** The eight phase names the site displays. */
  datatype PhaseName =
    | NewMoon
    | WaxingCrescent
    | FirstQuarter
    | WaxingGibbous
    | FullMoon
    | WaningGibbous
    | LastQuarter
    | WaningCrescent

  /** The Polish label shown for each name. */
  function Label(n: PhaseName): string
  {
    match n
    case NewMoon => "Nów"
    case WaxingCrescent => "Przybywający sierp"
    case FirstQuarter => "Pierwsza kwadra"
    case WaxingGibbous => "Przybywający garb"
    case FullMoon => "Pełnia"
    case WaningGibbous => "Malejący garb"
    case LastQuarter => "Ostatnia kwadra"
    case WaningCrescent => "Malejący sierp"
  }

  // The eight moon emoji, U+1F311 to U+1F318.
  const NewMoonEmoji: char := '\U{1F311}'
  const WaxingCrescentEmoji: char := '\U{1F312}'
  const FirstQuarterEmoji: char := '\U{1F313}'
  const WaxingGibbousEmoji: char := '\U{1F314}'
  const FullMoonEmoji: char := '\U{1F315}'
  const WaningGibbousEmoji: char := '\U{1F316}'
  const LastQuarterEmoji: char := '\U{1F317}'
  const WaningCrescentEmoji: char := '\U{1F318}'

  /** The one emoji that belongs to each name. */
  function GlyphOf(n: PhaseName): char
  {
    match n
    case NewMoon => NewMoonEmoji
    case WaxingCrescent => WaxingCrescentEmoji
    case FirstQuarter => FirstQuarterEmoji
    case WaxingGibbous => WaxingGibbousEmoji
    case FullMoon => FullMoonEmoji
    case WaningGibbous => WaningGibbousEmoji
    case LastQuarter => LastQuarterEmoji
    case WaningCrescent => WaningCrescentEmoji
  }

  /** The pair the source assigns in each branch (`emoji`, `phase_name`). */
  datatype Shown = Shown(emoji: char, name: PhaseName)

  /** The dictionary `get_moon_phase` returns (illumination unrounded). */
  datatype Phase = Phase(emoji: char, name: PhaseName, illumination: real)

  /**
   * The first if/elif chain, on the illumination percentage. `None` stands
   * for "no branch was taken", which in the source would leave `phase_name`
   * unbound; the chain is closed by its last test, so that never happens.
   */
  function WaxingChain(illumination: real): (r: Option<Shown>)
    ensures r.Some?
    ensures r.value.emoji == GlyphOf(r.value.name)
  {
    if illumination < 1.0 then Some(Shown(NewMoonEmoji, NewMoon))
    else if illumination < 25.0 then Some(Shown(WaxingCrescentEmoji, WaxingCrescent))
    else if illumination < 45.0 then Some(Shown(FirstQuarterEmoji, FirstQuarter))
    else if illumination < 55.0 then Some(Shown(WaxingGibbousEmoji, WaxingGibbous))
    else if illumination < 99.0 then Some(Shown(FullMoonEmoji, FullMoon))
    else if illumination >= 99.0 then Some(Shown(FullMoonEmoji, FullMoon))
    else None
  }

  /**
   * The second chain, taken only on a waning day: it overwrites the pair for
   * four bands of illumination and leaves `current` as it is otherwise.
   */
  function WaningOverride(illumination: real, current: Shown): (r: Shown)
    ensures r != current ==> 1.0 <= illumination < 99.0
  {
    if 55.0 < illumination < 99.0 then Shown(WaningGibbousEmoji, WaningGibbous)
    else if 45.0 < illumination <= 55.0 then Shown(LastQuarterEmoji, LastQuarter)
    else if 25.0 < illumination <= 45.0 then Shown(LastQuarterEmoji, LastQuarter)
    else if 1.0 <= illumination <= 25.0 then Shown(WaningCrescentEmoji, WaningCrescent)
    else current
  }

  /** Name and emoji for an illumination percentage and a waxing/waning flag. */
  function Classify(illumination: real, waning: bool): (r: Shown)
    ensures r.emoji == GlyphOf(r.name)
    ensures !waning ==> r == WaxingChain(illumination).value
    ensures waning && (illumination < 1.0 || illumination >= 99.0) ==> r == WaxingChain(illumination).value
  {
    var waxing := WaxingChain(illumination).value;
    if waning then WaningOverride(illumination, waxing) else waxing
  }

  /**
   * `get_moon_phase` on the ephemeris output: `today` and `tomorrow` are the
   * illuminated fractions (`moon_phase`) now and one day later.
   */
  function GetMoonPhase(today: real, tomorrow: real): (p: Phase)
    ensures p.illumination == today * 100.0
    ensures 0.0 <= today <= 1.0 ==> 0.0 <= p.illumination <= 100.0
    ensures p.emoji == GlyphOf(p.name)
    ensures p.name == Classify(today * 100.0, tomorrow < today).name
  {
    var illumination := today * 100.0;
    var shown := Classify(illumination, tomorrow < today);
    Phase(shown.emoji, shown.name, illumination)
  }

  /** Seconds in the one day `ephem.Date(date) + 1` steps forward. */
  const SecondsPerDay: int := 86400

  /**
   * The phase for a timestamp (seconds), given the ephemeris as a function
   * from a timestamp to the illuminated fraction at that instant.
   */
  function MoonPhaseOn(fraction: int -> real, date: int): (p: Phase)
    ensures p == GetMoonPhase(fraction(date), fraction(date + SecondsPerDay))
    ensures p.illumination == fraction(date) * 100.0
    ensures p.name == Classify(fraction(date) * 100.0, fraction(date + SecondsPerDay) < fraction(date)).name
    ensures p.emoji == GlyphOf(p.name)
  {
    GetMoonPhase(fraction(date), fraction(date + SecondsPerDay))
  }

  // ---------------------------------------------------------------------
  // Properties of the classification

  /** Each name has its own emoji: the emoji alone tells the name. */
  lemma GlyphOfInjective(m: PhaseName, n: PhaseName)
    ensures GlyphOf(m) == GlyphOf(n) <==> m == n
  {
  }

  /** On a day that is not waning, the bands are exactly these half-open intervals. */
  lemma WaxingBands(i: real)
    ensures Classify(i, false).name == NewMoon <==> i < 1.0
    ensures Classify(i, false).name == WaxingCrescent <==> 1.0 <= i < 25.0
    ensures Classify(i, false).name == FirstQuarter <==> 25.0 <= i < 45.0
    ensures Classify(i, false).name == WaxingGibbous <==> 45.0 <= i < 55.0
    ensures Classify(i, false).name == FullMoon <==> i >= 55.0
  {
  }

  /** On a waning day, the bands are these intervals, closed at the top. */
  lemma WaningBands(i: real)
    ensures Classify(i, true).name == NewMoon <==> i < 1.0
    ensures Classify(i, true).name == WaningCrescent <==> 1.0 <= i <= 25.0
    ensures Classify(i, true).name == LastQuarter <==> 25.0 < i <= 55.0
    ensures Classify(i, true).name == WaningGibbous <==> 55.0 < i < 99.0
    ensures Classify(i, true).name == FullMoon <==> i >= 99.0
  {
  }

  /** The waxing-only names never appear on a waning day, and vice versa. */
  lemma NamesMatchDirection(i: real, waning: bool)
    ensures waning ==> Classify(i, waning).name !in {WaxingCrescent, FirstQuarter, WaxingGibbous}
    ensures !waning ==> Classify(i, waning).name !in {WaningGibbous, LastQuarter, WaningCrescent}
  {
  }

  /** The boundaries whose meaning depends on the direction. */
  lemma DirectionSensitiveBoundaries()
    ensures Classify(25.0, false).name == FirstQuarter && Classify(25.0, true).name == WaningCrescent
    ensures Classify(55.0, false).name == FullMoon && Classify(55.0, true).name == LastQuarter
    ensures Classify(99.0, true).name == FullMoon && Classify(98.9, true).name == WaningGibbous
    ensures Classify(0.999, true).name == NewMoon && Classify(1.0, true).name == WaningCrescent
  {
  }

  /** Position of a name in the lunar cycle, starting at the new moon. */
  function CycleRank(n: PhaseName): (k: nat)
    ensures k < 8
  {
    match n
    case NewMoon => 0
    case WaxingCrescent => 1
    case FirstQuarter => 2
    case WaxingGibbous => 3
    case FullMoon => 4
    case WaningGibbous => 5
    case LastQuarter => 6
    case WaningCrescent => 7
  }

  /** Waxing: more light never moves the name back in the cycle. */
  lemma WaxingFollowsCycle(i: real, j: real)
    requires i <= j
    ensures CycleRank(Classify(i, false).name) <= CycleRank(Classify(j, false).name)
    ensures CycleRank(Classify(j, false).name) <= CycleRank(FullMoon)
  {
  }

  /**
   * Waning: less light never moves the name back in the cycle, counting the
   * new moon that ends it as position 8.
   */
  lemma WaningFollowsCycle(i: real, j: real)
    requires i <= j
    ensures WaningRank(Classify(j, true).name) <= WaningRank(Classify(i, true).name)
    ensures CycleRank(FullMoon) <= WaningRank(Classify(i, true).name)
  {
  }

  /** CycleRank with the closing new moon of a waning Moon placed after the crescent. */
  function WaningRank(n: PhaseName): nat
  {
    if n == NewMoon then 8 else CycleRank(n)
  }
}
