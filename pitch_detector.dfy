/** The discrete core of the tuner in services/MetronomeAudio.ts
    (autoCorrelate and the note lines of updateTuner): the silence gate,
    the edge trim, the autocorrelation sums, the skip over the initial
    descent and the search for the strongest lag, and the naming of a
    rounded note index. Samples are exact reals; the logarithms, the power,
    the square root and the parabolic refinement are outside this model. */
module PitchDetector {
  import opened Common

  /** The edge-trim threshold on sample magnitude. */
  const Threshold: real := 0.2
  /** The silence gate: RMS < 0.01, i.e. mean square < 0.0001. */
  const SilenceMeanSquare: real := 0.0001

  const NoteStrings: seq<string> := ["C", "C#", "D", "D#", "E", "F", "F#", "G", "G#", "A", "A#", "B"]

  /** The sum over j < m of b[j] * b[j + lag]. */
  function LagSum(b: seq<real>, lag: nat, m: nat): real
    requires lag + m <= |b|
  {
    if m == 0 then 0.0 else LagSum(b, lag, m - 1) + b[m - 1] * b[m - 1 + lag]
  }

  /** The signal energy: the sum of squares, the zero-lag autocorrelation. */
  function Energy(b: seq<real>): real
  {
    LagSum(b, 0, |b|)
  }

  lemma {:induction false} LagSumZeroNonNegative(b: seq<real>, m: nat)
    requires m <= |b|
    ensures LagSum(b, 0, m) >= 0.0
  {
    if m > 0 {
      LagSumZeroNonNegative(b, m - 1);
      SquareNonNegative(b[m - 1]);
    }
  }

  lemma SquareNonNegative(x: real)
    ensures x * x >= 0.0
  {
  }

  /** c is the unnormalised autocorrelation of b: c[i] sums b[j] * b[j + i]
      over every j that keeps j + i inside b. */
  ghost predicate IsAutocorrelation(b: seq<real>, c: seq<real>)
  {
    |c| == |b| && forall i :: 0 <= i < |c| ==> c[i] == LagSum(b, i, |b| - i)
  }

  /** r1 is the first index of the first half whose sample is quiet
      (magnitude below the threshold), or 0 when there is none. */
  ghost predicate IsTrimStart(buf: seq<real>, r1: int)
  {
    && 0 <= r1 && 2 * r1 < |buf|
    && (forall k :: 0 <= k < r1 ==> Abs(buf[k]) >= Threshold)
    && (Abs(buf[r1]) < Threshold ||
        (r1 == 0 && forall k :: 0 <= k < |buf| && 2 * k < |buf| ==> Abs(buf[k]) >= Threshold))
  }

  /** r2 is the last index whose sample is quiet, searching back from the
      end over indices k with 2k > |buf|; |buf| - 1 when there is none. */
  ghost predicate IsTrimEnd(buf: seq<real>, r2: int)
  {
    && 0 <= r2 <= |buf| - 1
    && (forall k :: r2 < k < |buf| ==> Abs(buf[k]) >= Threshold)
    && ((Abs(buf[r2]) < Threshold && 2 * r2 > |buf|) ||
        (r2 == |buf| - 1 && forall k :: 0 <= k < |buf| && 2 * k > |buf| ==> Abs(buf[k]) >= Threshold))
  }

  /** d ends the initial strictly descending run of c: every earlier value
      exceeds its successor, and d is the last index or c[d] <= c[d + 1]. */
  ghost predicate IsDescentEnd(c: seq<real>, d: int)
  {
    && 0 <= d && (d < |c| || d == 0)
    && (forall k :: 0 <= k < d ==> c[k] > c[k + 1])
    && (d + 1 < |c| ==> c[d] <= c[d + 1])
  }

  /** maxpos is the first index from d on holding the largest value of c
      there, considered only when it exceeds -1; -1 when none exceeds -1. */
  ghost predicate IsFirstArgMax(c: seq<real>, d: int, maxpos: int)
    requires 0 <= d
  {
    if maxpos == -1 then
      forall k :: d <= k < |c| ==> c[k] <= -1.0
    else
      && d <= maxpos < |c|
      && c[maxpos] > -1.0
      && (forall k :: d <= k < |c| ==> c[k] <= c[maxpos])
      && (forall k :: d <= k < maxpos ==> c[k] < c[maxpos])
  }

  /** The outcome of the discrete part of autoCorrelate: the frame is
      silent, or it has these trim bounds, autocorrelation, end of the
      initial descent and coarse period T0 = maxpos. */
  datatype Analysis =
    | Silent
    | Periodic(r1: nat, r2: nat, corr: seq<real>, d: nat, maxpos: int)

  /** The sum-of-squares loop of autoCorrelate. */
  method SumOfSquares(buf: seq<real>) returns (rms: real)
    ensures rms == Energy(buf)
  {
    rms := 0.0;
    for i := 0 to |buf|
      invariant rms == LagSum(buf, 0, i)
    {
      rms := rms + buf[i] * buf[i];
    }
  }

  /** The forward trim loop: for (i = 0; i < size/2; i++). */
  method TrimStart(buf: seq<real>) returns (r1: nat)
    requires |buf| >= 1
    ensures IsTrimStart(buf, r1)
  {
    r1 := 0;
    var i := 0;
    while 2 * i < |buf|
      invariant 0 <= i && (2 * i <= |buf| + 1)
      invariant forall k :: 0 <= k < i ==> Abs(buf[k]) >= Threshold
      invariant r1 == 0
    {
      if Abs(buf[i]) < Threshold {
        r1 := i;
        break;
      }
      i := i + 1;
    }
  }

  /** The backward trim loop: for (i = 1; i < size/2; i++) on buf[size - i]. */
  method TrimEnd(buf: seq<real>) returns (r2: nat)
    requires |buf| >= 1
    ensures IsTrimEnd(buf, r2)
  {
    var size := |buf|;
    r2 := size - 1;
    var i := 1;
    while 2 * i < size
      invariant 1 <= i && (2 * i <= size + 1)
      invariant forall k :: size - i < k < size ==> Abs(buf[k]) >= Threshold
      invariant r2 == size - 1
    {
      if Abs(buf[size - i]) < Threshold {
        r2 := size - i;
        break;
      }
      i := i + 1;
    }
  }

  /** The nested loops filling the lag array c. */
  method LagSums(b: seq<real>) returns (c: seq<real>)
    ensures IsAutocorrelation(b, c)
  {
    var size := |b|;
    var a := new real[size](_ => 0.0);
    for i := 0 to size
      invariant forall k :: 0 <= k < i ==> a[k] == LagSum(b, k, size - k)
      invariant forall k :: i <= k < size ==> a[k] == 0.0
    {
      for j := 0 to size - i
        invariant forall k :: 0 <= k < i ==> a[k] == LagSum(b, k, size - k)
        invariant forall k :: i < k < size ==> a[k] == 0.0
        invariant a[i] == LagSum(b, i, j)
      {
        a[i] := a[i] + b[j] * b[j + i];
      }
    }
    c := a[..];
  }

  /** while (c[d] > c[d+1]) d++; a comparison past the end is false. */
  method SkipDescent(c: seq<real>) returns (d: nat)
    ensures IsDescentEnd(c, d)
  {
    d := 0;
    while d + 1 < |c| && c[d] > c[d + 1]
      invariant d < |c| || d == 0
      invariant forall k :: 0 <= k < d ==> c[k] > c[k + 1]
    {
      d := d + 1;
    }
  }

  /** The search for the first strongest lag from d on. */
  method FirstArgMax(c: seq<real>, d: nat) returns (maxpos: int)
    ensures IsFirstArgMax(c, d, maxpos)
  {
    var maxval := -1.0;
    maxpos := -1;
    var i := d;
    while i < |c|
      invariant d <= i && (i <= |c| || i == d)
      invariant maxpos == -1 ==> maxval == -1.0 && forall k :: d <= k < i ==> c[k] <= -1.0
      invariant maxpos != -1 ==> d <= maxpos < i <= |c| && maxval == c[maxpos] && maxval > -1.0
      invariant forall k :: d <= k < i ==> c[k] <= maxval
      invariant maxpos != -1 ==> forall k :: d <= k < maxpos ==> c[k] < maxval
    {
      if c[i] > maxval {
        maxval := c[i];
        maxpos := i;
      }
      i := i + 1;
    }
  }

  /** The discrete part of autoCorrelate on one frame. The frame is
      reported silent exactly when its mean square is below 0.0001;
      otherwise the trimmed slice buf[r1..r2] is not empty and the result
      holds its autocorrelation and the coarse period search. */
  method AutoCorrelate(buf: seq<real>) returns (r: Analysis)
    requires |buf| >= 2
    ensures r.Silent? <==> Energy(buf) / |buf| as real < SilenceMeanSquare
    ensures r.Periodic? ==>
      && IsTrimStart(buf, r.r1) && IsTrimEnd(buf, r.r2) && r.r1 < r.r2
      && IsAutocorrelation(buf[r.r1..r.r2], r.corr)
      && IsDescentEnd(r.corr, r.d) && r.d < |r.corr|
      && IsFirstArgMax(r.corr, r.d, r.maxpos)
  {
    var size := |buf|;
    var rms := SumOfSquares(buf);
    if rms / size as real < SilenceMeanSquare {
      return Silent;
    }
    var r1 := TrimStart(buf);
    var r2 := TrimEnd(buf);
    var trimmed := buf[r1..r2];
    var c := LagSums(trimmed);
    var d := SkipDescent(c);
    var maxpos := FirstArgMax(c, d);
    r := Periodic(r1, r2, c, d, maxpos);
  }

  /** The trim and search characterisations each admit one result only, so
      the loops above compute exactly these indices. */
  lemma TrimStartUnique(buf: seq<real>, a: int, b: int)
    requires IsTrimStart(buf, a) && IsTrimStart(buf, b)
    ensures a == b
  {
  }

  lemma TrimEndUnique(buf: seq<real>, a: int, b: int)
    requires IsTrimEnd(buf, a) && IsTrimEnd(buf, b)
    ensures a == b
  {
  }

  lemma DescentEndUnique(c: seq<real>, a: int, b: int)
    requires IsDescentEnd(c, a) && IsDescentEnd(c, b)
    ensures a == b
  {
  }

  lemma FirstArgMaxUnique(c: seq<real>, d: nat, a: int, b: int)
    requires IsFirstArgMax(c, d, a) && IsFirstArgMax(c, d, b)
    ensures a == b
  {
  }

  /** The zero-lag autocorrelation is the energy of the slice, never negative. */
  lemma ZeroLagIsEnergy(b: seq<real>, c: seq<real>)
    requires IsAutocorrelation(b, c) && |c| > 0
    ensures c[0] == Energy(b) && c[0] >= 0.0
  {
    LagSumZeroNonNegative(b, |b|);
  }

  /** When the autocorrelation does not descend at all (d = 0), the peak
      search always finds a lag: no -1 period comes out of such a frame. */
  lemma PeakFoundWithoutDescent(b: seq<real>, c: seq<real>, maxpos: int)
    requires IsAutocorrelation(b, c) && |c| > 0
    requires IsFirstArgMax(c, 0, maxpos)
    ensures 0 <= maxpos < |c|
  {
    ZeroLagIsEnergy(b, c);
  }

  /** A frame whose samples are all zero has zero energy and is silent. */
  lemma {:induction false} ZeroFrameEnergy(buf: seq<real>, m: nat)
    requires m <= |buf|
    requires forall k :: 0 <= k < |buf| ==> buf[k] == 0.0
    ensures LagSum(buf, 0, m) == 0.0
  {
    if m > 0 {
      ZeroFrameEnergy(buf, m - 1);
    }
  }

  /** JavaScript's `%`: the remainder truncated towards zero, which takes
      the sign of the dividend. */
  function JsRemainder(a: int, n: int): (r: int)
    requires n > 0
    ensures -n < r < n
    ensures a >= 0 ==> r == a % n
    ensures a < 0 ==> r <= 0
  {
    if a >= 0 then a % n else -((-a) % n)
  }

  /** The pitch-class name updateTuner reads at noteStrings[noteIndex % 12]:
      None where that index lies outside the table (undefined). A remainder
      of -0 reads entry 0. */
  function NoteName(noteIndex: int): (r: Option<string>)
    ensures r.None? <==> noteIndex < 0 && noteIndex % 12 != 0
    ensures r.Some? ==> r.value in NoteStrings
  {
    var r := JsRemainder(noteIndex, 12);
    if 0 <= r then Some(NoteStrings[r]) else None
  }

  /** Math.floor(noteIndex / 12) - 1; Dafny's division by a positive
      divisor already rounds down. */
  function Octave(noteIndex: int): (r: int)
    ensures 12 * (r + 1) <= noteIndex < 12 * (r + 2)
  {
    noteIndex / 12 - 1
  }

  /** For a non-negative note index the name is the table entry of the pitch
      class, and pitch class and octave together give the index back. */
  lemma NoteLabelRoundTrip(k: int)
    requires k >= 0
    ensures NoteName(k) == Some(NoteStrings[k % 12])
    ensures 12 * (Octave(k) + 1) + k % 12 == k
  {
  }

  /** Twelve semitones up is the same name one octave higher. */
  lemma OctaveStep(k: int)
    requires k >= 0
    ensures NoteName(k + 12) == NoteName(k)
    ensures Octave(k + 12) == Octave(k) + 1
  {
  }

  /** Note index 69 is A4 and note index 60 is C4: the reference pitch and
      middle C. */
  lemma ReferenceNotes()
    ensures NoteName(69) == Some("A") && Octave(69) == 4
    ensures NoteName(60) == Some("C") && Octave(60) == 4
  {
  }

  /** A negative note index outside the multiples of 12 has no name. */
  lemma NegativeNoteNames(k: int)
    requires k < 0
    ensures NoteName(k).None? <==> k % 12 != 0
    ensures k % 12 == 0 ==> NoteName(k) == Some("C")
  {
  }
}
