/**
 * The offline "version 2" generator: one pass over a daily close/volume
 * series that turns every trading day into piano notes. The close picks the
 * pitch (rescaled into two octaves above middle C and snapped to C major),
 * the volume picks the velocity, and the trend of the close against the
 * mean of the three previous closes picks a major triad (rising) or a single
 * note (otherwise). Each day advances the clock by one note duration.
 */
module Generator {
  import opened Reductions
  import opened MusicTheory

  const OCTAVES: int := 2
  /** Length of every note and of every step of the clock, in seconds. */
  const NOTE_DURATION: real := 0.5
  /** The velocity range volumes are rescaled into. */
  const VELOCITY_LOW: int := 40
  const VELOCITY_HIGH: int := 100
  /** Number of previous closes the trend compares against. */
  const TREND_WINDOW: nat := 3
  const MIDI_MAX: int := 127
  /** Bound of the random velocity perturbation (both signs). */
  const MAX_VELOCITY_NOISE: int := 5
  /** Bound of the random start-time jitter (both signs), in seconds. */
  const MAX_START_JITTER: real := 0.05

  /** A piano note: MIDI velocity and pitch, start and end time in seconds. */
  datatype Note = Note(velocity: int, pitch: int, start: real, end: real)

  /** The downloaded history: closing price and traded volume of each day. */
  datatype Series = Series(closes: seq<real>, volumes: seq<real>)

  /** The random draws made for each day: a start-time jitter and a velocity perturbation. */
  datatype Humanization = Humanization(startJitter: seq<real>, velocityNoise: seq<int>)

  /**
   * What the generator needs of its input: a non-empty history (the minimum
   * of an empty series is an error), a volume for every close, closes and
   * volumes that are not constant (the rescaling divides by their range),
   * and one draw of each kind per day within the bounds of the random source.
   */
  predicate WellFormed(series: Series, noise: Humanization)
  {
    && |series.closes| > 0
    && |series.volumes| == |series.closes|
    && Min(series.closes) != Max(series.closes)
    && Min(series.volumes) != Max(series.volumes)
    && |noise.startJitter| == |series.closes|
    && |noise.velocityNoise| == |series.closes|
    && (forall i :: 0 <= i < |noise.startJitter| ==>
          -MAX_START_JITTER <= noise.startJitter[i] <= MAX_START_JITTER)
    && (forall i :: 0 <= i < |noise.velocityNoise| ==>
          -MAX_VELOCITY_NOISE <= noise.velocityNoise[i] <= MAX_VELOCITY_NOISE)
  }

  /** Python's `min(hi, max(lo, v))`. */
  function Clamp(v: int, lo: int, hi: int): (r: int)
    requires lo <= hi
    ensures lo <= r <= hi
    ensures lo <= v <= hi ==> r == v
    ensures v < lo ==> r == lo
    ensures hi < v ==> r == hi
  {
    if hi < (if lo < v then v else lo) then hi else if lo < v then v else lo
  }

  /** A close rescaled from the series' price range onto the two octaves above middle C, truncated. */
  function RawNote(price: real, minPrice: real, maxPrice: real): (r: int)
    requires minPrice != maxPrice
    ensures minPrice <= price <= maxPrice && minPrice < maxPrice ==>
      BASE_NOTE <= r <= BASE_NOTE + SEMITONES_PER_OCTAVE * OCTAVES
    ensures price == minPrice ==> r == BASE_NOTE
    ensures price == maxPrice ==> r == BASE_NOTE + SEMITONES_PER_OCTAVE * OCTAVES
  {
    Trunc(ScaleValue(price, minPrice, maxPrice,
                     BASE_NOTE as real, (BASE_NOTE + SEMITONES_PER_OCTAVE * OCTAVES) as real))
  }

  /** A volume rescaled from the series' volume range onto the velocity range, truncated. */
  function RawVelocity(volume: real, minVol: real, maxVol: real): (r: int)
    requires minVol != maxVol
    ensures minVol <= volume <= maxVol && minVol < maxVol ==> VELOCITY_LOW <= r <= VELOCITY_HIGH
    ensures volume == minVol ==> r == VELOCITY_LOW
    ensures volume == maxVol ==> r == VELOCITY_HIGH
  {
    Trunc(ScaleValue(volume, minVol, maxVol, VELOCITY_LOW as real, VELOCITY_HIGH as real))
  }

  /**
   * Close of day `i` minus the mean of the three previous closes; 0 for the
   * first three days. Once there is a window, the trend lies between the
   * close's distance above the window's highest close and its distance
   * above the window's lowest close.
   */
  function Trend(closes: seq<real>, i: nat): (r: real)
    requires i < |closes|
    ensures i < TREND_WINDOW ==> r == 0.0
    ensures i >= TREND_WINDOW ==>
      closes[i] - Max(closes[i - TREND_WINDOW..i]) <= r <= closes[i] - Min(closes[i - TREND_WINDOW..i])
  {
    if i >= TREND_WINDOW then closes[i] - Mean(closes[i - TREND_WINDOW..i]) else 0.0
  }

  /** What the loop decides for one day: pitch, velocity, start time and whether the trend is rising. */
  datatype Day = Day(pitch: int, velocity: int, start: real, rising: bool)

  /**
   * The decisions for day `i`, with the price and volume ranges of the whole
   * series: the velocity is a valid MIDI velocity, and the start lies within
   * the jitter bound of the day's step on the clock.
   */
  function DayOf(series: Series, noise: Humanization, i: nat): (d: Day)
    requires WellFormed(series, noise) && i < |series.closes|
    ensures 0 <= d.velocity <= MIDI_MAX
    ensures i as real * NOTE_DURATION - MAX_START_JITTER <= d.start <= i as real * NOTE_DURATION + MAX_START_JITTER
  {
    var closes, volumes := series.closes, series.volumes;
    Day(Quantize(RawNote(closes[i], Min(closes), Max(closes))),
        Clamp(RawVelocity(volumes[i], Min(volumes), Max(volumes)) + noise.velocityNoise[i], 0, MIDI_MAX),
        i as real * NOTE_DURATION + noise.startJitter[i],
        Trend(closes, i) > 0.0)
  }

  /** The decisions for every day of the series, in order; each day starts strictly after the one before. */
  function Days(series: Series, noise: Humanization): (r: seq<Day>)
    requires WellFormed(series, noise)
    ensures |r| == |series.closes|
    ensures forall i, j :: 0 <= i < j < |r| ==> r[i].start < r[j].start
  {
    DaysInStartOrder(series, noise);
    seq(|series.closes|, i requires 0 <= i < |series.closes| => DayOf(series, noise, i))
  }

  /** One note of the given velocity and timing for each pitch, in order. */
  function NotesOf(pitches: seq<int>, velocity: int, start: real): (r: seq<Note>)
    ensures |r| == |pitches|
    ensures forall k :: 0 <= k < |r| ==>
      r[k] == Note(velocity, pitches[k], start, start + NOTE_DURATION)
  {
    if pitches == [] then []
    else NotesOf(pitches[..|pitches| - 1], velocity, start)
         + [Note(velocity, pitches[|pitches| - 1], start, start + NOTE_DURATION)]
  }

  /**
   * The notes of one day: the major triad on its pitch when the trend rises,
   * the pitch alone otherwise. A rising day is three notes, a major third and
   * a perfect fifth above one another's root; any other day is one note. All
   * of a day's notes share its velocity and start, last one note duration
   * and lie within a fifth above its pitch.
   */
  function DayNotes(day: Day): (notes: seq<Note>)
    ensures |notes| == (if day.rising then 3 else 1)
    ensures notes[0].pitch == day.pitch
    ensures day.rising ==> notes[1].pitch == day.pitch + 4 && notes[2].pitch == day.pitch + 7
    ensures forall k :: 0 <= k < |notes| ==>
      && notes[k].velocity == day.velocity
      && notes[k].start == day.start
      && notes[k].end == day.start + NOTE_DURATION
      && day.pitch <= notes[k].pitch <= day.pitch + 7
  {
    var start := day.start;
    if day.rising then
      NotesOf(CreateChord(day.pitch, "major").value, day.velocity, start)
    else
      [Note(day.velocity, day.pitch, start, start + NOTE_DURATION)]
  }

  /** All notes of a run of days, in the order they are appended: one to three notes per day. */
  function Render(days: seq<Day>): (notes: seq<Note>)
    ensures |days| <= |notes| <= 3 * |days|
  {
    if days == [] then [] else Render(days[..|days| - 1]) + DayNotes(days[|days| - 1])
  }

  /** Helper: appending the next pitch's note extends the notes of a prefix of the pitches; the whole prefix gives all notes. */
  lemma NotesOfExtend(before: seq<Note>, pitches: seq<int>, j: nat, velocity: int, start: real)
    requires j <= |pitches|
    ensures j < |pitches| ==>
      (before + NotesOf(pitches[..j], velocity, start)) + [Note(velocity, pitches[j], start, start + NOTE_DURATION)]
        == before + NotesOf(pitches[..j + 1], velocity, start)
    ensures j == |pitches| ==> NotesOf(pitches[..j], velocity, start) == NotesOf(pitches, velocity, start)
  {
    if j < |pitches| {
      assert pitches[..j + 1][..j] == pitches[..j];
    } else {
      assert pitches[..j] == pitches;
    }
  }

  /** Helper: the notes of the first i + 1 days are those of the first i days followed by day i's; the whole prefix gives all notes. */
  lemma RenderExtend(days: seq<Day>, i: nat)
    requires i <= |days|
    ensures i < |days| ==> Render(days[..i + 1]) == Render(days[..i]) + DayNotes(days[i])
    ensures i == |days| ==> Render(days[..i]) == Render(days)
  {
    if i < |days| {
      assert days[..i + 1][..i] == days[..i];
    } else {
      assert days[..i] == days;
    }
  }

  /** Number of days whose trend is rising. */
  function RisingDays(days: seq<Day>): (r: nat)
    ensures r <= |days|
  {
    if days == [] then 0
    else RisingDays(days[..|days| - 1]) + (if days[|days| - 1].rising then 1 else 0)
  }

  /** The note list grows by three on each rising day and by one on every other day. */
  lemma {:induction false} RenderLength(days: seq<Day>)
    ensures |Render(days)| == |days| + 2 * RisingDays(days)
  {
    if days != [] {
      RenderLength(days[..|days| - 1]);
    }
  }

  /** Notes inherit the bounds of their days: the same velocity range, and pitches up to a fifth above. */
  lemma {:induction false} RenderRanges(days: seq<Day>, lowVelocity: int, highVelocity: int, lowPitch: int, highPitch: int)
    requires forall i :: 0 <= i < |days| ==>
      lowVelocity <= days[i].velocity <= highVelocity && lowPitch <= days[i].pitch <= highPitch
    ensures forall k :: 0 <= k < |Render(days)| ==>
      && lowVelocity <= Render(days)[k].velocity <= highVelocity
      && lowPitch <= Render(days)[k].pitch <= highPitch + 7
  {
    if days != [] {
      RenderRanges(days[..|days| - 1], lowVelocity, highVelocity, lowPitch, highPitch);
    }
  }

  /** No note starts later than the latest start of the days it comes from. */
  lemma {:induction false} RenderStartsBounded(days: seq<Day>, latest: real)
    requires forall i :: 0 <= i < |days| ==> days[i].start <= latest
    ensures forall k :: 0 <= k < |Render(days)| ==> Render(days)[k].start <= latest
  {
    if days != [] {
      RenderStartsBounded(days[..|days| - 1], latest);
    }
  }

  /** Days in order of start time give notes in order of start time. */
  lemma {:induction false} RenderInStartOrder(days: seq<Day>)
    requires forall i, j :: 0 <= i < j < |days| ==> days[i].start <= days[j].start
    ensures forall a, b :: 0 <= a < b < |Render(days)| ==> Render(days)[a].start <= Render(days)[b].start
  {
    if days != [] {
      var init, last := days[..|days| - 1], days[|days| - 1];
      RenderInStartOrder(init);
      RenderStartsBounded(init, last.start);
    }
  }

  /** Day `i`'s pitch lies on the scale, within the two octaves above middle C. */
  lemma DayPitch(series: Series, noise: Humanization, i: nat)
    requires WellFormed(series, noise) && i < |series.closes|
    ensures var pitch := DayOf(series, noise, i).pitch;
      && BASE_NOTE <= pitch <= BASE_NOTE + SEMITONES_PER_OCTAVE * OCTAVES
      && pitch % SEMITONES_PER_OCTAVE in SCALE
  {
    var closes := series.closes;
    var raw := RawNote(closes[i], Min(closes), Max(closes));
    assert BASE_NOTE <= raw <= BASE_NOTE + SEMITONES_PER_OCTAVE * OCTAVES;
    QuantizeRoundsDown(raw);
  }

  /**
   * Day `i`'s velocity is the rescaled volume plus the perturbation; the
   * clamp to [0, 127] never changes it, since the result stays in [35, 105].
   */
  lemma DayVelocity(series: Series, noise: Humanization, i: nat)
    requires WellFormed(series, noise) && i < |series.closes|
    ensures var volumes := series.volumes;
      && DayOf(series, noise, i).velocity
           == RawVelocity(volumes[i], Min(volumes), Max(volumes)) + noise.velocityNoise[i]
      && VELOCITY_LOW - MAX_VELOCITY_NOISE <= DayOf(series, noise, i).velocity <= VELOCITY_HIGH + MAX_VELOCITY_NOISE
  {
    var volumes := series.volumes;
    assert VELOCITY_LOW <= RawVelocity(volumes[i], Min(volumes), Max(volumes)) <= VELOCITY_HIGH;
  }

  /** For the first three days the trend is zero, so each of them is a single note. */
  lemma EarlyDaysAreSingleNotes(series: Series, noise: Humanization, i: nat)
    requires WellFormed(series, noise) && i < |series.closes| && i < TREND_WINDOW
    ensures Trend(series.closes, i) == 0.0 && !DayOf(series, noise, i).rising
    ensures |DayNotes(DayOf(series, noise, i))| == 1
  {
  }

  /** A close above each of the three previous closes is a rising trend; one at or below each of them is not. */
  lemma TrendFollowsWindow(closes: seq<real>, i: nat)
    requires TREND_WINDOW <= i < |closes|
    ensures (forall j :: i - TREND_WINDOW <= j < i ==> closes[j] < closes[i]) ==> Trend(closes, i) > 0.0
    ensures (forall j :: i - TREND_WINDOW <= j < i ==> closes[i] <= closes[j]) ==> Trend(closes, i) <= 0.0
  {
    var window := closes[i - TREND_WINDOW..i];
    var hi :| 0 <= hi < |window| && window[hi] == Max(window);
    var lo :| 0 <= lo < |window| && window[lo] == Min(window);
    assert window[hi] == closes[i - TREND_WINDOW + hi] && window[lo] == closes[i - TREND_WINDOW + lo];
  }

  /**
   * The jitter (at most 0.05 s either way) is smaller than half a step
   * (0.25 s), so day `i` starts strictly before day `j` whenever i < j.
   */
  lemma DaysInStartOrder(series: Series, noise: Humanization)
    requires WellFormed(series, noise)
    ensures forall i, j :: 0 <= i < j < |series.closes| ==>
      DayOf(series, noise, i).start < DayOf(series, noise, j).start
  {
    forall i, j | 0 <= i < j < |series.closes|
      ensures DayOf(series, noise, i).start < DayOf(series, noise, j).start
    {
      assert j as real * NOTE_DURATION - i as real * NOTE_DURATION == (j - i) as real * NOTE_DURATION;
    }
  }

  /**
   * The whole piece: as many notes as days plus two per rising day, every
   * velocity a valid MIDI velocity, every pitch within the two octaves above
   * middle C or a fifth above them, and notes in order of their start times.
   */
  lemma PieceBounds(series: Series, noise: Humanization)
    requires WellFormed(series, noise)
    ensures var notes := Render(Days(series, noise));
      && |notes| == |series.closes| + 2 * RisingDays(Days(series, noise))
      && (forall k :: 0 <= k < |notes| ==>
            && 0 <= notes[k].velocity <= MIDI_MAX
            && BASE_NOTE <= notes[k].pitch <= BASE_NOTE + SEMITONES_PER_OCTAVE * OCTAVES + 7)
      && (forall a, b :: 0 <= a < b < |notes| ==> notes[a].start <= notes[b].start)
  {
    var days := Days(series, noise);
    RenderLength(days);
    forall k | 0 <= k < |days|
      ensures 0 <= days[k].velocity <= MIDI_MAX
      ensures BASE_NOTE <= days[k].pitch <= BASE_NOTE + SEMITONES_PER_OCTAVE * OCTAVES
    {
      DayPitch(series, noise, k);
    }
    RenderRanges(days, 0, MIDI_MAX, BASE_NOTE, BASE_NOTE + SEMITONES_PER_OCTAVE * OCTAVES);
    DaysInStartOrder(series, noise);
    RenderInStartOrder(days);
  }

  /** The trend of day `i`: its close against the mean of the window of closes before it, once there is one. */
  method TrendOf(closes: seq<real>, i: nat) returns (trend: real)
    requires i < |closes|
    ensures trend == Trend(closes, i)
    ensures i < TREND_WINDOW ==> trend == 0.0
    ensures i >= TREND_WINDOW && (forall j :: i - TREND_WINDOW <= j < i ==> closes[j] < closes[i]) ==> trend > 0.0
    ensures i >= TREND_WINDOW && (forall j :: i - TREND_WINDOW <= j < i ==> closes[i] <= closes[j]) ==> trend <= 0.0
  {
    var trendWindow := TREND_WINDOW;
    if i >= trendWindow {
      trend := closes[i] - Mean(closes[i - trendWindow..i]);
    } else {
      trend := 0.0;
    }
    if i >= trendWindow {
      TrendFollowsWindow(closes, i);
    }
  }

  /**
   * One day's decisions, as the loop body computes them: the close rescaled
   * into a note and snapped to the scale, the volume rescaled into a
   * velocity, the trend against the mean of the three previous closes, the
   * jittered start time and the perturbed, clamped velocity.
   */
  method DecideDay(series: Series, noise: Humanization, i: nat, minPrice: real, maxPrice: real,
                   minVol: real, maxVol: real, currentTime: real) returns (day: Day)
    requires WellFormed(series, noise) && i < |series.closes|
    requires minPrice == Min(series.closes) && maxPrice == Max(series.closes)
    requires minVol == Min(series.volumes) && maxVol == Max(series.volumes)
    requires currentTime == i as real * NOTE_DURATION
    ensures day == DayOf(series, noise, i)
    ensures BASE_NOTE <= day.pitch <= BASE_NOTE + SEMITONES_PER_OCTAVE * OCTAVES
    ensures day.pitch % SEMITONES_PER_OCTAVE in SCALE
    ensures day.velocity == RawVelocity(series.volumes[i], minVol, maxVol) + noise.velocityNoise[i]
    ensures VELOCITY_LOW - MAX_VELOCITY_NOISE <= day.velocity <= VELOCITY_HIGH + MAX_VELOCITY_NOISE
    ensures currentTime - MAX_START_JITTER <= day.start <= currentTime + MAX_START_JITTER
  {
    DayPitch(series, noise, i);
    DayVelocity(series, noise, i);
    var closes, volumes := series.closes, series.volumes;
    var price, volume := closes[i], volumes[i];
    // map the price to a note of the scale
    var noteNumber := Quantize(RawNote(price, minPrice, maxPrice));
    // map the volume to a velocity
    var velocity := RawVelocity(volume, minVol, maxVol);
    var trend := TrendOf(closes, i);
    // humanization
    var startTime := currentTime + noise.startJitter[i];
    velocity := Clamp(velocity + noise.velocityNoise[i], 0, MIDI_MAX);
    day := Day(noteNumber, velocity, startTime, trend > 0.0);
    assert trend == Trend(closes, i);
    assert startTime == i as real * NOTE_DURATION + noise.startJitter[i];
  }

  /**
   * Appends one day's notes: on a rising trend one note per pitch of the
   * major triad on the day's pitch, otherwise the single note.
   */
  method PlayDay(notes: seq<Note>, day: Day) returns (extended: seq<Note>)
    ensures extended == notes + DayNotes(day)
  {
    extended := notes;
    if day.rising {
      var chord := CreateChord(day.pitch, "major");
      var pitches := chord.value;
      var j := 0;
      while j < |pitches|
        invariant 0 <= j <= |pitches|
        invariant extended == notes + NotesOf(pitches[..j], day.velocity, day.start)
      {
        NotesOfExtend(notes, pitches, j, day.velocity, day.start);
        extended := extended + [Note(day.velocity, pitches[j], day.start, day.start + NOTE_DURATION)];
        j := j + 1;
      }
      NotesOfExtend(notes, pitches, j, day.velocity, day.start);
    } else {
      extended := extended + [Note(day.velocity, day.pitch, day.start, day.start + NOTE_DURATION)];
    }
  }

  /**
   * The generation loop: each day is decided from the series and the random
   * draws, its notes are appended, and the clock advances by one note duration.
   */
  method Compose(series: Series, noise: Humanization) returns (notes: seq<Note>, currentTime: real)
    requires WellFormed(series, noise)
    ensures notes == Render(Days(series, noise))
    ensures currentTime == |series.closes| as real * NOTE_DURATION
  {
    var closes, volumes := series.closes, series.volumes;
    var minPrice, maxPrice := Min(closes), Max(closes);
    var minVol, maxVol := Min(volumes), Max(volumes);
    ghost var days := Days(series, noise);
    notes, currentTime := [], 0.0;
    var i := 0;
    while i < |closes|
      invariant 0 <= i <= |closes| == |days|
      invariant notes == Render(days[..i])
      invariant currentTime == i as real * NOTE_DURATION
    {
      var day := DecideDay(series, noise, i, minPrice, maxPrice, minVol, maxVol, currentTime);
      assert day == days[i];
      notes := PlayDay(notes, day);
      RenderExtend(days, i);
      currentTime := currentTime + NOTE_DURATION;
      i := i + 1;
    }
    RenderExtend(days, i);
  }
}
