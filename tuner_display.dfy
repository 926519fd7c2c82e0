/** The tuner panel: where the needle stands for a deviation in cents, when
    the reading counts as in tune, and how the deviation is printed. */
module TunerDisplay {
  import opened Common

  /** One tuner reading, as the engine reports it. */
  datatype TunerData = TunerData(note: string, octave: int, cents: real, frequency: real)

  /** The in-tune tolerance, in cents either side of the target note. */
  const InTuneCents: real := 5.0

  function Max(a: real, b: real): real { if a >= b then a else b }

  function Min(a: real, b: real): real { if a <= b then a else b }

  /** getNeedlePos: the needle's left position in percent of the panel. The
      deviation is clamped to [-50, 50] and shifted to [0, 100]. */
  function NeedlePos(cents: real): (p: real)
    ensures 0.0 <= p <= 100.0
    ensures -50.0 <= cents <= 50.0 ==> p == 50.0 + cents
    ensures cents <= -50.0 ==> p == 0.0
    ensures cents >= 50.0 ==> p == 100.0
  {
    var clamped := Max(-50.0, Min(50.0, cents));
    50.0 + clamped
  }

  /** A larger deviation never moves the needle left. */
  lemma NeedleMonotone(a: real, b: real)
    requires a <= b
    ensures NeedlePos(a) <= NeedlePos(b)
  {
  }

  /** isInTune: a reading is present and within the tolerance. */
  predicate IsInTune(data: Option<TunerData>)
  {
    data.Some? && Abs(data.value.cents) < InTuneCents
  }

  /** A reading is in tune exactly when the needle stands less than five
      percent from the centre mark; with no reading nothing is in tune. */
  lemma InTuneNeedleCentred(data: Option<TunerData>)
    ensures data.None? ==> !IsInTune(data)
    ensures data.Some? ==> (IsInTune(data) <==> Abs(NeedlePos(data.value.cents) - 50.0) < InTuneCents)
  {
  }

  /** The deviation text: a '+' for a sharp reading, then Math.round of
      the cents (flat readings get their '-' from the number itself). */
  function CentsLabel(cents: real): string
  {
    (if cents > 0.0 then "+" else "") + IntToString(JsRound(cents))
  }

  /** The label starts with '+' exactly when the reading is sharp, and with
      '-' exactly when it rounds to a negative number, that is below -0.5;
      readings in [-0.5, 0] show as unsigned. */
  lemma CentsLabelSign(cents: real)
    ensures |CentsLabel(cents)| >= 1
    ensures (CentsLabel(cents)[0] == '+') <==> cents > 0.0
    ensures (CentsLabel(cents)[0] == '-') <==> cents < -0.5
  {
    var n := JsRound(cents);
    IntToStringSign(n);
    if cents > 0.0 {
      assert n >= 0;
    } else {
      assert CentsLabel(cents) == IntToString(n);
      assert n < 0 <==> cents < -0.5;
    }
  }
}
