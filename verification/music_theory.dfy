/**
 * The pure helpers of the version-2 generator: linear rescaling of a value
 * into a new range, float-to-int truncation, snapping a MIDI note number to
 * the C-major scale, and building a major or minor triad.
 */
module MusicTheory {

  /** C-major scale degrees, in semitones above C, in the order they are searched. */
  const SCALE: seq<int> := [0, 2, 4, 5, 7, 9, 11]
  /** Middle C (C4). */
  const BASE_NOTE: int := 60
  const SEMITONES_PER_OCTAVE: int := 12

  function Abs(x: int): nat
  {
    if x < 0 then -x else x
  }

  /**
   * Linear interpolation of `val` from [minVal, maxVal] onto [newMin, newMax].
   * The division by `maxVal - minVal` makes it undefined for an empty domain.
   */
  function ScaleValue(val: real, minVal: real, maxVal: real, newMin: real, newMax: real): (r: real)
    requires maxVal != minVal
    ensures val == minVal ==> r == newMin
    ensures val == maxVal ==> r == newMax
    ensures minVal <= val <= maxVal && minVal < maxVal && newMin <= newMax ==> newMin <= r <= newMax
  {
    ShareWithin(val - minVal, maxVal - minVal, newMax - newMin);
    newMin + Share(val - minVal, maxVal - minVal, newMax - newMin)
  }

  /** The part of `width` that `offset` is of `span`: offset * width / span. */
  function Share(offset: real, span: real, width: real): real
    requires span != 0.0
  {
    offset * width / span
  }

  /** Helper: the whole span gets the whole width, and part of a positive span a part of a non-negative width. */
  lemma ShareWithin(offset: real, span: real, width: real)
    requires span != 0.0
    ensures offset == span ==> Share(offset, span, width) == width
    ensures 0.0 <= offset <= span && 0.0 < span && 0.0 <= width ==> 0.0 <= Share(offset, span, width) <= width
  {
    if offset == span {
      CancelFactor(span, width);
    }
    if 0.0 <= offset <= span && 0.0 < span && 0.0 <= width {
      FractionWithin(offset, span, width);
    }
  }

  /** Helper: multiplying by a non-zero factor and dividing by it again is the identity. */
  lemma CancelFactor(x: real, c: real)
    requires x != 0.0
    ensures x * c / x == c
  {
    assert x * c / x * x == x * c;
    assert (x * c / x - c) * x == 0.0;
  }

  /** Helper: for 0 <= a <= b and 0 < b, the product a * c / b lies in [0, c] whenever c >= 0. */
  lemma FractionWithin(a: real, b: real, c: real)
    requires 0.0 <= a <= b && 0.0 < b && 0.0 <= c
    ensures 0.0 <= a * c / b <= c
  {
    var q := a * c / b;
    assert q * b == a * c;
    assert (b - a) * c >= 0.0;
    assert (c - q) * b == b * c - a * c;
    if q < 0.0 {
      assert q * b < 0.0;
    }
  }

  /** Helper: dividing a product by a non-zero factor is the same as dividing one operand first. */
  lemma DivideFirst(x: real, w: real, m: real)
    requires m != 0.0
    ensures x * w / m == x / m * w
  {
    assert x / m * m == x;
    assert (x * w / m - x / m * w) * m == 0.0;
  }

  /** Helper: taking the share back from the new width onto the old span recovers the offset. */
  lemma ShareRoundTrip(offset: real, span: real, width: real)
    requires span != 0.0 && width != 0.0
    ensures Share(Share(offset, span, width), width, span) == offset
  {
    var t := offset / span;
    DivideFirst(offset, width, span);
    DivideFirst(t * width, span, width);
    CancelFactor(width, t);
    CancelFactor(span, t);
  }

  /** Rescaling onto a non-empty range and back again gives the original value. */
  lemma ScaleValueRoundTrip(val: real, minVal: real, maxVal: real, newMin: real, newMax: real)
    requires maxVal != minVal && newMax != newMin
    ensures ScaleValue(ScaleValue(val, minVal, maxVal, newMin, newMax), newMin, newMax, minVal, maxVal) == val
  {
    ShareRoundTrip(val - minVal, maxVal - minVal, newMax - newMin);
  }

  /** Helper: multiplying by a non-negative number keeps the order of values. */
  lemma MultiplyMonotonic(x: real, y: real, w: real)
    requires x <= y && w >= 0.0
    ensures x * w <= y * w
  {
    if x < y && w > 0.0 {
      assert (y - x) * w > 0.0;
    }
  }

  /** Helper: dividing by a positive number keeps the order of values. */
  lemma DivideMonotonic(x: real, y: real, c: real)
    requires x <= y && c > 0.0
    ensures x / c <= y / c
  {
    assert y / c - x / c == (y - x) / c;
  }

  /** Helper: a larger offset of a positive span gets a larger share of a non-negative width. */
  lemma ShareMonotonic(x: real, y: real, span: real, width: real)
    requires x <= y && span > 0.0 && width >= 0.0
    ensures Share(x, span, width) <= Share(y, span, width)
  {
    MultiplyMonotonic(x, y, width);
    DivideMonotonic(x * width, y * width, span);
  }

  /** Rescaling onto a range that is not reversed keeps the order of values. */
  lemma ScaleValueMonotonic(a: real, b: real, minVal: real, maxVal: real, newMin: real, newMax: real)
    requires minVal < maxVal && newMin <= newMax && a <= b
    ensures ScaleValue(a, minVal, maxVal, newMin, newMax) <= ScaleValue(b, minVal, maxVal, newMin, newMax)
  {
    ShareMonotonic(a - minVal, b - minVal, maxVal - minVal, newMax - newMin);
  }

  /** Conversion of a real to an integer by truncation toward zero. */
  function Trunc(x: real): (r: int)
    ensures 0.0 <= x ==> 0 <= r && r as real <= x < r as real + 1.0
    ensures x < 0.0 ==> r <= 0 && r as real - 1.0 < x <= r as real
  {
    if x >= 0.0 then x.Floor else -((-x).Floor)
  }

  /**
   * Index of the first element of `xs` closest to `target`: the
   * scan keeps its current best and replaces it only by a strictly closer
   * element, so among equally close elements the earliest one wins.
   */
  function NearestIndex(xs: seq<int>, target: int): (k: nat)
    requires |xs| > 0
    ensures k < |xs|
    ensures forall j :: 0 <= j < |xs| ==> Abs(xs[k] - target) <= Abs(xs[j] - target)
    ensures forall j :: 0 <= j < k ==> Abs(xs[k] - target) < Abs(xs[j] - target)
  {
    if |xs| == 1 then 0
    else
      var best := NearestIndex(xs[..|xs| - 1], target);
      if Abs(xs[|xs| - 1] - target) < Abs(xs[best] - target) then |xs| - 1 else best
  }

  /** Snaps a MIDI note number to the nearest C-major degree within its own octave. */
  function Quantize(note: int): (q: int)
    ensures q / SEMITONES_PER_OCTAVE == note / SEMITONES_PER_OCTAVE
    ensures q % SEMITONES_PER_OCTAVE in SCALE
  {
    var root := BASE_NOTE % SEMITONES_PER_OCTAVE;
    var octave := note / SEMITONES_PER_OCTAVE;
    var degree := note % SEMITONES_PER_OCTAVE - root;
    var closest := SCALE[NearestIndex(SCALE, degree)];
    octave * SEMITONES_PER_OCTAVE + root + closest
  }

  /** The pitch classes that are not in C major (the black keys C#, D#, F#, G#, A#). */
  predicate IsBlackKey(pitchClass: int)
  {
    pitchClass == 1 || pitchClass == 3 || pitchClass == 6 || pitchClass == 8 || pitchClass == 10
  }

  /** Helper: a pitch class that is itself a degree is matched to that degree. */
  lemma NearestOfDegree(d: int, j: int)
    requires 0 <= j < |SCALE| && SCALE[j] == d
    ensures SCALE[NearestIndex(SCALE, d)] == d
  {
    var k := NearestIndex(SCALE, d);
    assert Abs(SCALE[k] - d) <= Abs(SCALE[j] - d);
  }

  /** Helper: a pitch class between two adjacent degrees one semitone away goes to the lower one. */
  lemma NearestOfGap(d: int, lower: int)
    requires 0 <= lower && lower + 1 < |SCALE| && SCALE[lower] == d - 1 && SCALE[lower + 1] == d + 1
    ensures SCALE[NearestIndex(SCALE, d)] == d - 1
  {
    var k := NearestIndex(SCALE, d);
    assert Abs(SCALE[k] - d) <= Abs(SCALE[lower] - d);
    if k < lower {
      LowerDegreesAreLower(k, lower);
    } else if k > lower + 1 {
      LowerDegreesAreLower(lower + 1, k);
    }
  }

  /** The scale degree the search settles on for each pitch class. */
  lemma ClosestDegree(d: int)
    requires 0 <= d < SEMITONES_PER_OCTAVE
    ensures SCALE[NearestIndex(SCALE, d)] == if IsBlackKey(d) then d - 1 else d
  {
    if d == 0 { NearestOfDegree(d, 0); }
    else if d == 1 { NearestOfGap(d, 0); }
    else if d == 2 { NearestOfDegree(d, 1); }
    else if d == 3 { NearestOfGap(d, 1); }
    else if d == 4 { NearestOfDegree(d, 2); }
    else if d == 5 { NearestOfDegree(d, 3); }
    else if d == 6 { NearestOfGap(d, 3); }
    else if d == 7 { NearestOfDegree(d, 4); }
    else if d == 8 { NearestOfGap(d, 4); }
    else if d == 9 { NearestOfDegree(d, 5); }
    else if d == 10 { NearestOfGap(d, 5); }
    else { NearestOfDegree(d, 6); }
  }

  /** Helper: the scale degrees are listed in strictly ascending order. */
  lemma LowerDegreesAreLower(i: int, j: int)
    requires 0 <= i < j < |SCALE|
    ensures SCALE[i] < SCALE[j]
  {
  }

  /**
   * Reference definition: a note on a white key stays where it is and a note
   * on a black key goes down one semitone, because each black key lies
   * between two scale degrees at equal distance and the lower one is listed first.
   */
  lemma QuantizeReference(note: int)
    ensures Quantize(note) == if IsBlackKey(note % SEMITONES_PER_OCTAVE) then note - 1 else note
  {
    ClosestDegree(note % SEMITONES_PER_OCTAVE);
  }

  /** The snapped note is never above the input and at most one semitone below it. */
  lemma QuantizeRoundsDown(note: int)
    ensures 0 <= note - Quantize(note) <= 1
  {
    QuantizeReference(note);
  }

  /** Helper: a black key is at least one semitone away from every degree of the scale. */
  lemma DegreeDistance(d: int, s: int)
    requires s in SCALE
    ensures (if IsBlackKey(d) then 1 else 0) <= Abs(s - d)
  {
    if IsBlackKey(d) {
      assert s != d;
    }
  }

  /** Helper: the snapped note is one semitone off on a black key and exact on a white key. */
  lemma SnapDistance(note: int)
    ensures Abs(Quantize(note) - note) == if IsBlackKey(note % SEMITONES_PER_OCTAVE) then 1 else 0
  {
    QuantizeReference(note);
  }

  /** No degree of the scale in the note's octave is strictly closer than the snapped note. */
  lemma QuantizeIsNearest(note: int)
    ensures forall s :: s in SCALE ==>
      Abs(Quantize(note) - note) <= Abs(note / SEMITONES_PER_OCTAVE * SEMITONES_PER_OCTAVE + s - note)
  {
    SnapDistance(note);
    var d := note % SEMITONES_PER_OCTAVE;
    forall s | s in SCALE
      ensures Abs(Quantize(note) - note) <= Abs(note / SEMITONES_PER_OCTAVE * SEMITONES_PER_OCTAVE + s - note)
    {
      DegreeDistance(d, s);
    }
  }

  /** A note is left unchanged exactly when it already lies on the scale. */
  lemma QuantizeFixedPoints(note: int)
    ensures Quantize(note) == note <==> note % SEMITONES_PER_OCTAVE in SCALE
  {
    QuantizeReference(note);
  }

  /** Snapping twice is the same as snapping once. */
  lemma QuantizeIdempotent(note: int)
    ensures Quantize(Quantize(note)) == Quantize(note)
  {
    QuantizeFixedPoints(Quantize(note));
  }

  /** The error Python raises when a chord type matches no branch and `intervals` is never bound. */
  datatype ChordError = UnboundLocalError

  datatype Result<+T> = Ok(value: T) | Err(error: ChordError)

  /**
   * Root-position triad on `rootNote`. "major" stacks a major third (4
   * semitones) and "minor" a minor third (3); both add a perfect fifth (7).
   * Any other chord type is an error.
   */
  function CreateChord(rootNote: int, chordType: string): (r: Result<seq<int>>)
    ensures r.Ok? <==> chordType == "major" || chordType == "minor"
    ensures r.Ok? ==> |r.value| == 3 && r.value[0] == rootNote
    ensures r.Ok? ==> r.value[0] < r.value[1] < r.value[2] && r.value[2] - r.value[0] == 7
    ensures r.Ok? ==> (r.value[1] - r.value[0] == 4 <==> chordType == "major")
    ensures r.Ok? ==> (r.value[1] - r.value[0] == 3 <==> chordType == "minor")
  {
    if chordType == "major" then
      var intervals := [0, 4, 7];
      Ok(seq(|intervals|, i requires 0 <= i < |intervals| => rootNote + intervals[i]))
    else if chordType == "minor" then
      var intervals := [0, 3, 7];
      Ok(seq(|intervals|, i requires 0 <= i < |intervals| => rootNote + intervals[i]))
    else
      Err(UnboundLocalError)
  }

  /** The major and minor triads on one root share root and fifth and differ by a semitone in the third. */
  lemma MajorMinorDifferInThird(rootNote: int)
    ensures CreateChord(rootNote, "major").Ok? && CreateChord(rootNote, "minor").Ok?
    ensures CreateChord(rootNote, "major").value[0] == CreateChord(rootNote, "minor").value[0]
    ensures CreateChord(rootNote, "major").value[2] == CreateChord(rootNote, "minor").value[2]
    ensures CreateChord(rootNote, "major").value[1] == CreateChord(rootNote, "minor").value[1] + 1
  {
  }
}
