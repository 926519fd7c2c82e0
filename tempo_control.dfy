/** The tempo controls of the application component: the typed three-digit
    tempo buffer with its clamped commit and delayed auto-commit, the +/-1
    buttons, and the tap-tempo history. The bpm shown and sent to the engine
    stays within [MinBpm, MaxBpm] through all of them. */
module TempoControl {
  import opened Common

  const MinBpm: int := 10
  const MaxBpm: int := 999
  const DefaultBpm: int := 60
  /** The keypad accepts at most this many digits. */
  const MaxDigits: nat := 3
  /** A tap later than this many milliseconds after the previous one starts
      a new tap sequence. */
  const TapResetMs: int := 2000
  /** The tap history keeps at most this many timestamps. */
  const TapWindow: nat := 5

  /** The input buffer only ever receives digit characters. */
  type DigitString = s: string | IsDigitString(s) witness ""

  /** The two pieces of component state the tempo controls change. */
  datatype Entry = Entry(bpm: int, buffer: DigitString)

  predicate ValidEntry(e: Entry) {
    MinBpm <= e.bpm <= MaxBpm && |e.buffer| <= MaxDigits
  }

  function Initial(): (e: Entry)
    ensures ValidEntry(e) && e.bpm == DefaultBpm && e.buffer == []
  {
    Entry(DefaultBpm, "")
  }

  /** handleDigitPress: append the digit unless three digits are already typed. */
  function DigitPress(e: Entry, d: nat): (r: Entry)
    requires d < 10
    ensures r.bpm == e.bpm
    ensures |e.buffer| >= MaxDigits ==> r == e
    ensures |e.buffer| < MaxDigits ==>
      |r.buffer| == |e.buffer| + 1 && r.buffer[..|e.buffer|] == e.buffer
    ensures |e.buffer| < MaxDigits ==> ParseDigits(r.buffer) == 10 * ParseDigits(e.buffer) + d
  {
    if |e.buffer| >= MaxDigits then e
    else
      var b: DigitString := e.buffer + [DigitChar(d)];
      assert b[..|b| - 1] == e.buffer;
      Entry(e.bpm, b)
  }

  /** handleBackspace: drop the last character; nothing happens on an empty buffer. */
  function Backspace(e: Entry): (r: Entry)
    ensures r.bpm == e.bpm
    ensures e.buffer == [] ==> r == e
    ensures e.buffer != [] ==> r.buffer + [e.buffer[|e.buffer| - 1]] == e.buffer
  {
    if e.buffer == [] then e else Entry(e.bpm, e.buffer[..|e.buffer| - 1])
  }

  /** handleClear. */
  function Clear(e: Entry): (r: Entry)
    ensures r.bpm == e.bpm && r.buffer == []
  {
    Entry(e.bpm, "")
  }

  /** commitInput: nothing on an empty buffer; otherwise the parsed value,
      forced into range, becomes the tempo and the buffer is emptied. */
  function Commit(e: Entry): (r: Entry)
    ensures e.buffer == [] ==> r == e
    ensures e.buffer != [] ==> r.buffer == [] && MinBpm <= r.bpm <= MaxBpm
    ensures e.buffer != [] && MinBpm <= ParseDigits(e.buffer) <= MaxBpm ==>
      r.bpm == ParseDigits(e.buffer)
    ensures e.buffer != [] && ParseDigits(e.buffer) < MinBpm ==> r.bpm == MinBpm
  {
    if e.buffer == [] then e
    else Entry(Clamp(ParseDigits(e.buffer), MinBpm, MaxBpm), "")
  }

  /** The effect that fires 1200 ms after the last keystroke: it takes the
      typed value only when it is already a legal tempo. */
  function AutoCommit(e: Entry): (r: Entry)
    ensures r == e || (e.buffer != [] && r.buffer == [] &&
                       r.bpm == ParseDigits(e.buffer) && MinBpm <= r.bpm <= MaxBpm)
    ensures e.buffer != [] && MinBpm <= ParseDigits(e.buffer) <= MaxBpm ==> r.buffer == []
  {
    if e.buffer != [] && MinBpm <= ParseDigits(e.buffer) <= MaxBpm
    then Entry(ParseDigits(e.buffer), "")
    else e
  }

  /** adjustTempo(amount): clamped step, and any typed digits are discarded. */
  function Adjust(e: Entry, amount: int): (r: Entry)
    ensures r.buffer == [] && MinBpm <= r.bpm <= MaxBpm
    ensures MinBpm <= e.bpm + amount <= MaxBpm ==> r.bpm == e.bpm + amount
  {
    Entry(Clamp(e.bpm + amount, MinBpm, MaxBpm), "")
  }

  /** Every keypad and tempo operation keeps the entry state valid: the bpm
      stays in [10, 999] and the buffer holds at most three digits. */
  lemma EntryOperationsPreserveValid(e: Entry, d: nat, amount: int)
    requires ValidEntry(e) && d < 10
    ensures ValidEntry(DigitPress(e, d))
    ensures ValidEntry(Backspace(e))
    ensures ValidEntry(Clear(e))
    ensures ValidEntry(Commit(e))
    ensures ValidEntry(AutoCommit(e))
    ensures ValidEntry(Adjust(e, amount))
  {
  }

  /** Backspace undoes a digit press that was accepted. */
  lemma BackspaceUndoesDigit(e: Entry, d: nat)
    requires d < 10 && |e.buffer| < MaxDigits
    ensures Backspace(DigitPress(e, d)) == e
  {
    var r := DigitPress(e, d);
    assert r.buffer[..|r.buffer| - 1] == e.buffer;
  }

  /** Typing the decimal digits of a number and committing yields that
      number forced into range: what is typed is what is parsed. */
  lemma {:induction false} CommitTypedNumber(bpm: int, n: nat)
    ensures IsDigitString(NatToString(n)) && Commit(Entry(bpm, NatToString(n))).bpm == Clamp(n, MinBpm, MaxBpm)
  {
    ParseNatToString(n);
  }

  /** The auto-commit never disagrees with an explicit commit: when it fires
      it has the same effect, and afterwards an explicit commit changes nothing. */
  lemma AutoCommitAgreesWithCommit(e: Entry)
    ensures AutoCommit(e) != e ==> AutoCommit(e) == Commit(e)
    ensures Commit(AutoCommit(e)) == Commit(e)
  {
  }

  /** Committing twice is committing once. */
  lemma CommitIdempotent(e: Entry)
    ensures Commit(Commit(e)) == Commit(e)
  {
  }

  /** The +1 and -1 buttons undo each other away from the range ends, and
      saturate at them. */
  lemma AdjustInverse(e: Entry)
    requires ValidEntry(e)
    ensures e.bpm < MaxBpm ==> Adjust(Adjust(e, 1), -1).bpm == e.bpm
    ensures e.bpm > MinBpm ==> Adjust(Adjust(e, -1), 1).bpm == e.bpm
    ensures e.bpm == MaxBpm ==> Adjust(e, 1).bpm == MaxBpm
    ensures e.bpm == MinBpm ==> Adjust(e, -1).bpm == MinBpm
  {
  }

  /** A one-digit value is always below the minimum tempo, so the auto-commit
      waits for it: typing 5 leaves the buffer "5", while an explicit commit
      makes it 10. */
  lemma SingleDigitWaits(e: Entry, d: nat)
    requires d < 10 && e.buffer == []
    ensures AutoCommit(DigitPress(e, d)) == DigitPress(e, d)
    ensures Commit(DigitPress(e, d)).bpm == MinBpm
  {
  }

  /** The tempo estimate from a tap history: (n-1) intervals in
      last - first milliseconds, that is 60000 / (average interval), rounded.
      A zero total gives an infinite quotient in the source, which is never a
      legal tempo; it is None here. */
  function TapEstimate(times: seq<int>): (r: Option<int>)
    requires |times| >= 2
    ensures times[|times| - 1] == times[0] <==> r.None?
  {
    var total := times[|times| - 1] - times[0];
    if total == 0 then None
    else Some(JsRound(60000.0 / (total as real / (|times| - 1) as real)))
  }

  /** There are at least two taps and their estimate is a legal tempo. */
  predicate LegalEstimate(times: seq<int>) {
    |times| >= 2 && TapEstimate(times).Some? && MinBpm <= TapEstimate(times).value <= MaxBpm
  }

  /** The tempo after a tap: the estimate when it is a legal tempo, else the old one. */
  function TapOutcome(times: seq<int>, bpm: int): (r: int)
    ensures LegalEstimate(times) ==> r == TapEstimate(times).value
    ensures !LegalEstimate(times) ==> r == bpm
    ensures MinBpm <= bpm <= MaxBpm ==> MinBpm <= r <= MaxBpm
  {
    if |times| >= 2 then
      match TapEstimate(times)
      case Some(v) => if MinBpm <= v <= MaxBpm then v else bpm
      case None => bpm
    else bpm
  }

  /** The history after a tap that does not start a new sequence: the tap is
      appended and, past five entries, the oldest one is dropped (once, as
      the source's single shift does). From a history of at most five taps
      the result is the newest min(|times| + 1, 5) taps. */
  function AppendTap(times: seq<int>, now: int): (r: seq<int>)
    ensures |times| < TapWindow ==> r == times + [now]
    ensures |times| >= TapWindow ==> r == (times + [now])[1..]
    ensures |times| <= TapWindow ==> |r| <= TapWindow
    ensures |r| >= 1 && r[|r| - 1] == now
  {
    var t := times + [now];
    if |t| > TapWindow then t[1..] else t
  }

  /** Taps exactly p milliseconds apart estimate round(60000 / p), however
      many of them are in the history. */
  lemma EvenTapsEstimate(times: seq<int>, p: int)
    requires |times| >= 2 && p > 0
    requires forall i :: 0 <= i < |times| - 1 ==> times[i + 1] - times[i] == p
    ensures TapEstimate(times) == Some(JsRound(60000.0 / p as real))
  {
    var n := |times| - 1;
    var total := times[n] - times[0];
    EvenTapsSpan(times, p, n);
    assert total as real == n as real * p as real by {
      ProductAsReal(n, p);
    }
    assert total as real / n as real == p as real by {
      CancelFactor(n as real, p as real);
    }
    assert total != 0;
  }

  lemma ProductAsReal(n: int, p: int)
    ensures (n * p) as real == n as real * p as real
  {
  }

  lemma CancelFactor(n: real, p: real)
    requires n > 0.0
    ensures (n * p) / n == p
  {
  }

  lemma {:induction false} EvenTapsSpan(times: seq<int>, p: int, k: nat)
    requires k < |times|
    requires forall i :: 0 <= i < |times| - 1 ==> times[i + 1] - times[i] == p
    ensures times[k] - times[0] == k * p
  {
    if k > 0 {
      EvenTapsSpan(times, p, k - 1);
      assert times[k] - times[k - 1] == p;
    }
  }

  /** Two taps half a second apart give 120 bpm. */
  lemma HalfSecondTaps()
    ensures TapEstimate([1000, 1500]) == Some(120)
  {
  }

  /** The tap-tempo history kept across taps (tapTimesRef). */
  class TapTempo {
    var times: seq<int>

    ghost predicate Valid()
      reads this
    {
      |times| <= TapWindow
    }

    constructor()
      ensures times == [] && Valid()
    {
      times := [];
    }

    /** The summing loop of handleTap: the intervals between successive taps
        add up to the span from the first tap to the last (they telescope). */
    method SumIntervals() returns (total: int)
      requires |times| >= 1
      ensures total == times[|times| - 1] - times[0]
    {
      total := 0;
      var i := 1;
      while i < |times|
        invariant 1 <= i <= |times|
        invariant total == times[i - 1] - times[0]
      {
        total := total + (times[i] - times[i - 1]);
        i := i + 1;
      }
    }

    /** handleTap at time now (milliseconds) with the current tempo bpm;
        returns the tempo the component holds afterwards. */
    method Tap(now: int, bpm: int) returns (newBpm: int)
      modifies this`times
      ensures old(|times|) > 0 && now - old(times[|times| - 1]) > TapResetMs ==>
        times == [now] && newBpm == bpm
      ensures !(old(|times|) > 0 && now - old(times[|times| - 1]) > TapResetMs) ==>
        times == AppendTap(old(times), now) && newBpm == TapOutcome(times, bpm)
      ensures old(Valid()) ==> Valid()
      ensures MinBpm <= bpm <= MaxBpm ==> MinBpm <= newBpm <= MaxBpm
    {
      if |times| > 0 && now - times[|times| - 1] > TapResetMs {
        times := [now];
        newBpm := bpm;
        return;
      }
      times := times + [now];
      if |times| > TapWindow {
        times := times[1..];
      }
      newBpm := bpm;
      if |times| >= 2 {
        var total := SumIntervals();
        if total != 0 {
          var estimate := JsRound(60000.0 / (total as real / (|times| - 1) as real));
          if MinBpm <= estimate <= MaxBpm {
            newBpm := estimate;
          }
        }
      }
    }
  }
}
