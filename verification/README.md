# Market music, version 2 — a Dafny model

`V2.py` turns a daily stock history into a piano piece. Each trading day
becomes one step of the piece:

- The day's close is rescaled from the series' price range onto the two
  octaves above middle C. It is truncated to an integer and snapped to the
  C-major scale.
- The day's volume is rescaled onto the velocity range 40–100.
- The trend is the close minus the mean of the three previous closes. It is 0
  for the first three days.
- A random jitter is added to the start time. A random perturbation is added
  to the velocity, which is then clamped to 0–127.
- A rising trend emits the major triad on the snapped note. Any other trend
  emits the single note.
- The clock advances by one note duration, 0.5 s.

The model has three modules:

- `Reductions` (`reductions.dfy`): the numpy reductions the script uses,
  `np.min`, `np.max` and `np.mean`. They work on sequences of reals.
- `MusicTheory` (`music_theory.dfy`): the pure helpers.
  - `scale_value` is `ScaleValue`.
  - `int()` truncation is `Trunc`.
  - `quantize_to_scale` is `Quantize`, built on `NearestIndex`. `NearestIndex`
    is the first-minimum search done by `min(SCALE, key=...)`.
  - `create_chord` is `CreateChord`. For an unknown chord type it returns an
    error, because Python raises `UnboundLocalError` when `intervals` is never
    bound.
- `Generator` (`generator.dfy`): the generation loop of `main`.
  - `Compose` is the `for` loop. It appends notes to a growing sequence and
    advances `currentTime`.
  - `DecideDay` computes one day's decisions.
  - `TrendOf` computes the trend branch.
  - `PlayDay` appends the chord notes, one per pitch, or the single note.
  - The loop is proved against a specification. `DayOf` and `Days` give each
    day's decisions. `DayNotes` and `Render` give the notes of those days.
    The lemmas about `Render` give the shape of the piece: its length,
    velocity and pitch ranges, and start order.

The two random sources are passed in as `Humanization`: one jitter and one
perturbation per day. `WellFormed` requires each to lie within the bounds of
its random call. `WellFormed` also states what the script needs of its input
so that no call raises:

- the series is non-empty, because `np.min` of an empty array raises;
- there is one volume per close;
- neither the closes nor the volumes are constant. A constant series makes
  `scale_value` divide zero by zero, and `int()` of the resulting NaN raises.

## Model

| member | source | states |
|---|---|---|
| `Reductions.Min` | V2.py:46-47 | The minimum of a non-empty series is one of its elements, and no element is smaller |
| `Reductions.Max` | V2.py:46-47 | The maximum of a non-empty series is one of its elements, and no element is larger |
| `Reductions.Mean` | V2.py:67 | The mean of a non-empty series lies between its minimum and its maximum |
| `MusicTheory.ScaleValue` | V2.py:19-20 | The rescaling maps `min_val` to `new_min` and `max_val` to `new_max`. It maps a value inside a non-empty domain into the target range. It is undefined when the domain is a single point |
| `MusicTheory.ScaleValueRoundTrip` | V2.py:19-20 | Rescaling onto a non-empty range and back gives the original value |
| `MusicTheory.ScaleValueMonotonic` | V2.py:19-20 | Rescaling onto a range that is not reversed preserves the order of values |
| `MusicTheory.Trunc` | V2.py:57-63 | `int()` truncates toward zero. The result is within one of the argument and never further from zero than it, for both signs |
| `MusicTheory.NearestIndex` | V2.py:27 | `min` with a key returns an element at minimal distance from the target. Every element before it is strictly further away, so ties go to the first-listed one |
| `MusicTheory.Quantize` | V2.py:22-28 | The snapped note stays in the same octave, and its pitch class is a degree of the scale |
| `MusicTheory.ClosestDegree` | V2.py:26-27 | The degree chosen for each pitch class 0-11 is the pitch class itself on a white key. On a black key it is the degree one semitone below, because the lower of the two equally near degrees is listed first |
| `MusicTheory.QuantizeReference` | V2.py:22-28 | Reference definition: a white-key note is unchanged and a black-key note moves down one semitone |
| `MusicTheory.QuantizeRoundsDown` | V2.py:26-27 | The snapped note is the input or one semitone below it |
| `MusicTheory.QuantizeIsNearest` | V2.py:26-28 | No scale degree in the note's octave is closer to the note than the snapped note |
| `MusicTheory.QuantizeFixedPoints` | V2.py:22-28 | A note is unchanged exactly when its pitch class is a degree of the scale |
| `MusicTheory.QuantizeIdempotent` | V2.py:22-28 | Snapping an already snapped note changes nothing |
| `MusicTheory.CreateChord` | V2.py:30-35 | "major" and "minor" give three ascending notes: the root, then a third of 4 or 3 semitones, then the fifth at 7. Every other chord type is the unbound-variable error |
| `MusicTheory.MajorMinorDifferInThird` | V2.py:31-34 | The major and minor triads on one root share the root and the fifth. Their thirds differ by one semitone |
| `Generator.Clamp` | V2.py:73 | `min(127, max(0, v))` lies in [0, 127] and is `v` whenever `v` already does |
| `Generator.RawNote` | V2.py:57-58 | The truncated rescaled close lies in [60, 84]. The lowest close gives 60 and the highest gives 84 |
| `Generator.RawVelocity` | V2.py:62-63 | The truncated rescaled volume lies in [40, 100]. The lowest volume gives 40 and the highest gives 100 |
| `Generator.NotesOf` | V2.py:78-83 | One note per pitch, in order. Each note has the given velocity, starts at the given time and lasts one note duration |
| `Generator.Trend` | V2.py:65-69 | The trend is 0 for the first three days. After that it lies between the close minus the highest and the close minus the lowest of the three previous closes |
| `Generator.DayOf` | V2.py:53-73 | One day's decisions: a velocity that is a valid MIDI velocity, and a start within 0.05 s of the day's step on the clock |
| `Generator.Days` | V2.py:52-92 | One decision per day of the series. Each day starts strictly after the day before |
| `Generator.DayNotes` | V2.py:75-90 | A rising day gives three notes: root, +4 and +7. Any other day gives one note, at the day's pitch. All of a day's notes share its velocity and start time, last one note duration and lie within a fifth above the day's pitch |
| `Generator.Render` | V2.py:52-92 | The notes of a run of days, in append order: at least one and at most three per day |
| `Generator.RenderLength` | V2.py:52-92 | The note list grows by three per rising day and by one per other day |
| `Generator.RenderRanges` | V2.py:75-90 | Notes keep their day's velocity bounds. Their pitches lie at most a fifth above their day's pitch bounds |
| `Generator.RenderInStartOrder` | V2.py:72-92 | If the days are ordered by start time, so are the notes |
| `Generator.DayPitch` | V2.py:56-59 | Each day's pitch lies in [60, 84] and is on the C-major scale |
| `Generator.DayVelocity` | V2.py:61-73 | Each day's velocity is the rescaled volume plus the perturbation, and lies in [35, 105], so the clamp never changes it |
| `Generator.EarlyDaysAreSingleNotes` | V2.py:65-69 | For the first three days the trend is 0, so each of them is a single note |
| `Generator.TrendFollowsWindow` | V2.py:65-69 | A close above each of the three previous closes is a rising trend. A close at or below each of them is not |
| `Generator.DaysInStartOrder` | V2.py:72-92 | The jitter is smaller than half a step, so each day starts strictly after the day before |
| `Generator.PieceBounds` | V2.py:52-92 | The piece has one note per day plus two per rising day. Every velocity is in [0, 127]. Every pitch is in [60, 91]. The notes are in order of start time |
| `Generator.TrendOf` | V2.py:65-69 | The loop's trend branch computes `Trend`. It gives 0 for the first three days. After that, a close above all three previous closes is a rising trend, and a close at or below all of them is not |
| `Generator.DecideDay` | V2.py:53-73 | The loop body's computations give the day's decisions `DayOf`. The pitch lies in [60, 84] and is on the C-major scale. The velocity is the rescaled volume plus the perturbation and lies in [35, 105]. The start is within 0.05 s of the current time |
| `Generator.PlayDay` | V2.py:75-90 | The uptrend branch, with its inner loop over the chord, and the single-note branch each append exactly that day's notes |
| `Generator.Compose` | V2.py:46-92 | The loop produces the notes of all days in order and ends with the clock at the number of days times the note duration |

## Left out

- The download of the price history (`yf.download`). The closes and volumes are the input `Series`.
- The MIDI objects and the file write (`pretty_midi.PrettyMIDI`, `Instrument`, `midi.write`). A note is the plain `Note` datatype, and the piece is the sequence `Compose` returns.
- The final `print`.
- `random.uniform(-0.05, 0.05)` and `random.randint(-5, 5)` are not modelled as random sources. Their draws are inputs, one of each per day, required to lie in those bounds.
- An empty history is excluded by `WellFormed`. In the source, `np.min` of the empty array raises before the loop starts.
- Closes and volumes of different lengths are excluded by `WellFormed`. In the source, a shorter volume array raises an index error inside the loop. A longer one has its extra volumes left unplayed, though they still count toward the volume range.
- Floating point: prices, volumes, times and the mean are exact reals. Rounding, NaN and the accumulation error of `current_time` are not modelled. A constant series, which produces NaN in the source, is excluded by `WellFormed`.
- numpy's array semantics for `np.min`, `np.max` and `np.mean`. They are recursive functions on sequences of reals.
- The default argument `chord_type='major'` of `create_chord`. `CreateChord` always takes the chord type, and the loop passes "major", as the source does.
- The live streaming script (`V 2.5-Live-Updated.py`) is not part of this model.
