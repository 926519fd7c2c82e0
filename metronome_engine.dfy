/** The metronome engine of services/MetronomeAudio.ts: the start/stop
    lifecycle, the look-ahead scheduler that requests clicks against the
    audio device's clock, the per-beat subdivision clicks, the table of
    sustained synth voices and the A440 tuning voice.

    The audio clock (audioContext.currentTime) is a parameter `now`; every
    click the engine asks the device to sound is appended, as a record,
    to the log `clicks`; a voice is its frequency and its target level. */
module MetronomeEngine {
  import opened Common

  datatype Subdivision = Quarter | Eighth | EighthTriplet | Sixteenth | Dotted

  /** One requested click: it sounds at `time`, with square-wave frequency
      `freq`, starting at gain `amp`; its gain decays for 0.03 s and its
      oscillator is stopped at `stopTime`, 0.01 s after that. */
  datatype Click = Click(time: real, freq: real, amp: real, stopTime: real)

  /** One sustained oscillator: its frequency and the gain it is ramped to. */
  datatype Voice = Voice(freq: real, level: real)

  const ScheduleAheadTime: real := 0.1
  const StartOffset: real := 0.05
  const MainFreq: real := 1500.0
  const SubFreq: real := 800.0
  const SubAmp: real := 0.6
  const ClickDuration: real := 0.03
  const SynthShare: real := 0.25
  const TuningShare: real := 0.5
  /** The frequency of the tuning note, A440. */
  const TuningFreq: real := 440.0

  /** The gain a sound starts at: the master volume times its own share. */
  function Gain(volume: real, share: real): real
  {
    volume * share
  }

  function SecondsPerBeat(tempo: real): (spb: real)
    requires tempo > 0.0
    ensures spb > 0.0
  {
    60.0 / tempo
  }

  /** The fractions of a beat at which the secondary clicks of a
      subdivision sound. */
  function SubdivisionOffsets(sub: Subdivision): (offs: seq<real>)
    ensures forall i :: 0 <= i < |offs| ==> 0.0 < offs[i] < 1.0
    ensures forall i, j :: 0 <= i < j < |offs| ==> offs[i] < offs[j]
    ensures (|offs| == 0) == (sub == Quarter)
  {
    match sub
    case Quarter => []
    case Eighth => [0.5]
    case EighthTriplet => [1.0 / 3.0, 2.0 / 3.0]
    case Sixteenth => [0.25, 0.50, 0.75]
    case Dotted => [0.75]
  }

  /** Into how many equal parts a plain subdivision cuts the beat. */
  function EvenParts(sub: Subdivision): nat
  {
    match sub
    case Quarter => 1
    case Eighth => 2
    case EighthTriplet => 3
    case Sixteenth => 4
    case Dotted => 0
  }

  /** Every mode but the dotted rhythm divides the beat into equal parts:
      its offsets are exactly k/n for k = 1 .. n-1. */
  lemma EvenSubdivisions(sub: Subdivision)
    requires sub != Dotted
    ensures var n := EvenParts(sub);
      |SubdivisionOffsets(sub)| == n - 1 &&
      forall k :: 0 <= k < n - 1 ==> SubdivisionOffsets(sub)[k] == (k + 1) as real / n as real
  {
  }

  /** The dotted rhythm sounds one secondary click, on the last sixteenth. */
  lemma DottedIsLastSixteenth()
    ensures SubdivisionOffsets(Dotted) == [SubdivisionOffsets(Sixteenth)[2]]
  {
  }

  /** The click playClick requests; the oscillator stops 10 ms after the decay. */
  function ClickAt(time: real, freq: real, amp: real): (c: Click)
    ensures c.time == time && c.freq == freq && c.amp == amp
    ensures c.stopTime == time + 0.04
  {
    Click(time, freq, amp, time + ClickDuration + 0.01)
  }

  /** The time of a click lying a fraction o of a beat after t. */
  function OffsetTime(t: real, spb: real, o: real): real
  {
    t + spb * o
  }

  /** The secondary clicks of a beat at t, one per offset, in order. */
  function SubClicks(t: real, spb: real, offs: seq<real>, amp: real): (cs: seq<Click>)
    ensures |cs| == |offs|
  {
    if offs == [] then []
    else [ClickAt(OffsetTime(t, spb, offs[0]), SubFreq, amp)] + SubClicks(t, spb, offs[1..], amp)
  }

  lemma {:induction false} SubClicksIndex(t: real, spb: real, offs: seq<real>, amp: real)
    ensures forall i :: 0 <= i < |offs| ==>
      SubClicks(t, spb, offs, amp)[i] == ClickAt(OffsetTime(t, spb, offs[i]), SubFreq, amp)
  {
    if offs != [] {
      SubClicksIndex(t, spb, offs[1..], amp);
    }
  }

  /** The clicks scheduleNote requests for a beat at `t`. */
  function BeatClicks(t: real, spb: real, sub: Subdivision, volume: real): seq<Click>
  {
    [ClickAt(t, MainFreq, Gain(volume, 1.0))] + SubClicks(t, spb, SubdivisionOffsets(sub), Gain(volume, SubAmp))
  }

  /** The i-th secondary click of a beat (i counted from 1). */
  lemma SubClickAt(t: real, spb: real, sub: Subdivision, volume: real, i: int)
    requires 1 <= i <= |SubdivisionOffsets(sub)|
    ensures |BeatClicks(t, spb, sub, volume)| == 1 + |SubdivisionOffsets(sub)|
    ensures BeatClicks(t, spb, sub, volume)[i] == ClickAt(t + spb * SubdivisionOffsets(sub)[i - 1], SubFreq, Gain(volume, SubAmp))
  {
    SubClicksIndex(t, spb, SubdivisionOffsets(sub), Gain(volume, SubAmp));
  }

  /** The clicks of a beat written out for each subdivision. */
  lemma BeatClicksCases(t: real, spb: real, sub: Subdivision, volume: real)
    ensures var main := ClickAt(t, MainFreq, Gain(volume, 1.0));
      var amp := Gain(volume, SubAmp);
      var cs := BeatClicks(t, spb, sub, volume);
      && (sub == Quarter ==> cs == [main])
      && (sub == Eighth ==> cs == [main, ClickAt(OffsetTime(t, spb, 0.5), SubFreq, amp)])
      && (sub == EighthTriplet ==> cs == [main, ClickAt(OffsetTime(t, spb, 1.0 / 3.0), SubFreq, amp),
                                                ClickAt(OffsetTime(t, spb, 2.0 / 3.0), SubFreq, amp)])
      && (sub == Sixteenth ==> cs == [main, ClickAt(OffsetTime(t, spb, 0.25), SubFreq, amp),
                                            ClickAt(OffsetTime(t, spb, 0.50), SubFreq, amp),
                                            ClickAt(OffsetTime(t, spb, 0.75), SubFreq, amp)])
      && (sub == Dotted ==> cs == [main, ClickAt(OffsetTime(t, spb, 0.75), SubFreq, amp)])
  {
    SubClicksIndex(t, spb, SubdivisionOffsets(sub), Gain(volume, SubAmp));
  }

  /** A beat is one main click at the beat, 1500 Hz and full volume, followed
      by the subdivision's 800 Hz clicks at 60% volume, all strictly inside
      the beat. */
  lemma BeatClicksShape(t: real, spb: real, sub: Subdivision, volume: real)
    requires spb > 0.0
    ensures var cs := BeatClicks(t, spb, sub, volume);
      && |cs| == 1 + |SubdivisionOffsets(sub)|
      && cs[0] == Click(t, 1500.0, volume, t + 0.04)
      && (forall i :: 1 <= i < |cs| ==>
            cs[i].time == t + spb * SubdivisionOffsets(sub)[i - 1] &&
            cs[i].freq == 800.0 && cs[i].amp == volume * 0.6 &&
            cs[i].stopTime == cs[i].time + 0.04 &&
            t < cs[i].time < t + spb)
  {
    var cs := BeatClicks(t, spb, sub, volume);
    var offs := SubdivisionOffsets(sub);
    assert |cs| == 1 + |offs|;
    assert cs[0] == ClickAt(t, MainFreq, Gain(volume, 1.0));
    forall i | 1 <= i < |cs|
      ensures cs[i].time == t + spb * offs[i - 1]
      ensures cs[i].freq == 800.0 && cs[i].amp == volume * 0.6
      ensures cs[i].stopTime == cs[i].time + 0.04
      ensures t < cs[i].time < t + spb
    {
      SubClickAt(t, spb, sub, volume, i);
      OffsetInsideBeat(t, spb, offs[i - 1]);
    }
  }

  /** The clicks of a beat are requested in strictly increasing time order. */
  lemma BeatClicksOrdered(t: real, spb: real, sub: Subdivision, volume: real)
    requires spb > 0.0
    ensures var cs := BeatClicks(t, spb, sub, volume);
      forall i, j :: 0 <= i < j < |cs| ==> cs[i].time < cs[j].time
  {
    var cs := BeatClicks(t, spb, sub, volume);
    var offs := SubdivisionOffsets(sub);
    forall i, j | 0 <= i < j < |cs|
      ensures cs[i].time < cs[j].time
    {
      SubClickAt(t, spb, sub, volume, j);
      OffsetInsideBeat(t, spb, offs[j - 1]);
      if i > 0 {
        SubClickAt(t, spb, sub, volume, i);
        OffsetsOrdered(spb, offs[i - 1], offs[j - 1]);
      }
    }
  }

  lemma OffsetInsideBeat(t: real, spb: real, o: real)
    requires spb > 0.0 && 0.0 < o < 1.0
    ensures t < t + spb * o < t + spb
  {
  }

  lemma OffsetsOrdered(spb: real, a: real, b: real)
    requires spb > 0.0 && a < b
    ensures spb * a < spb * b
  {
  }

  lemma DivUnique(y: real, s: real, q: real)
    requires s > 0.0 && q * s == y
    ensures q == y / s
  {
  }

  /** The time of the k-th beat after `start`, one beat lasting spb seconds. */
  function BeatTime(start: real, spb: real, k: nat): real
  {
    start + k as real * spb
  }

  lemma BeatTimeSucc(start: real, spb: real, k: nat)
    ensures BeatTime(start, spb, k) + spb == BeatTime(start, spb, k + 1)
    ensures BeatTime(start + spb, spb, k) == BeatTime(start, spb, k + 1)
  {
  }

  /** Number of whole beats of length spb that still start before `limit`
      when the next one starts at `start`: the measure of the scheduler loop. */
  function BeatsLeft(start: real, spb: real, limit: real): int
    requires spb > 0.0
  {
    -((start - limit) / spb).Floor
  }

  lemma BeatsLeftStep(start: real, spb: real, limit: real)
    requires spb > 0.0 && start < limit
    ensures BeatsLeft(start + spb, spb, limit) == BeatsLeft(start, spb, limit) - 1
    ensures BeatsLeft(start, spb, limit) >= 1
  {
    var q := (start - limit) / spb;
    assert q * spb == start - limit;
    assert (q + 1.0) * spb == start + spb - limit;
    DivUnique(start + spb - limit, spb, q + 1.0);
  }

  /** The beat times one scheduler tick requests: starting at `start`, one
      every spb seconds, as long as they fall before `limit`. */
  function TickBeats(start: real, spb: real, limit: real): seq<real>
    requires spb > 0.0
    decreases BeatsLeft(start, spb, limit)
  {
    if start >= limit then []
    else
      BeatsLeftStep(start, spb, limit);
      [start] + TickBeats(start + spb, spb, limit)
  }

  /** The beats of one tick are exactly spb apart, counted from the first
      pending beat, all fall inside the look-ahead window, and the next
      pending beat, right after the last one, falls outside it. */
  lemma {:induction false} TickBeatsSpacing(start: real, spb: real, limit: real)
    requires spb > 0.0
    ensures var bs := TickBeats(start, spb, limit);
      && (forall i :: 0 <= i < |bs| ==> bs[i] == BeatTime(start, spb, i) && bs[i] < limit)
      && BeatTime(start, spb, |bs|) >= limit
    decreases BeatsLeft(start, spb, limit)
  {
    var bs := TickBeats(start, spb, limit);
    if start < limit {
      BeatsLeftStep(start, spb, limit);
      var rest := TickBeats(start + spb, spb, limit);
      TickBeatsSpacing(start + spb, spb, limit);
      assert bs == [start] + rest;
      forall i | 1 <= i < |bs|
        ensures bs[i] == BeatTime(start, spb, i)
      {
        assert bs[i] == rest[i - 1];
        BeatTimeSucc(start, spb, i - 1);
      }
      BeatTimeSucc(start, spb, |rest|);
    }
  }

  /** The first beat at or past `limit`: where the next tick resumes. */
  function TickEnd(start: real, spb: real, limit: real): (next: real)
    requires spb > 0.0
    ensures next >= limit
    decreases BeatsLeft(start, spb, limit)
  {
    if start >= limit then start
    else
      BeatsLeftStep(start, spb, limit);
      TickEnd(start + spb, spb, limit)
  }

  /** The tick ends one beat after its last requested beat, that is |beats|
      beat lengths after the first pending one. */
  lemma {:induction false} TickEndAfterBeats(start: real, spb: real, limit: real)
    requires spb > 0.0
    ensures TickEnd(start, spb, limit) == BeatTime(start, spb, |TickBeats(start, spb, limit)|)
    decreases BeatsLeft(start, spb, limit)
  {
    if start < limit {
      BeatsLeftStep(start, spb, limit);
      TickEndAfterBeats(start + spb, spb, limit);
      BeatTimeSucc(start, spb, |TickBeats(start + spb, spb, limit)|);
      assert BeatTime(start + spb, spb, |TickBeats(start + spb, spb, limit)|)
          == BeatTime(start, spb, |TickBeats(start + spb, spb, limit)| + 1);
    }
  }

  /** Successive beats of one tick are exactly one beat length apart. */
  lemma TickBeatsConsecutive(start: real, spb: real, limit: real, i: nat)
    requires spb > 0.0
    requires i + 1 < |TickBeats(start, spb, limit)|
    ensures TickBeats(start, spb, limit)[i + 1] - TickBeats(start, spb, limit)[i] == spb
  {
    TickBeatsSpacing(start, spb, limit);
    BeatTimeSucc(start, spb, i);
  }

  /** A tick requests no beat at all exactly when the next pending beat is
      already outside the look-ahead window. */
  lemma TickBeatsEmpty(start: real, spb: real, limit: real)
    requires spb > 0.0
    ensures (TickBeats(start, spb, limit) == []) == (start >= limit)
  {
  }

  /** One iteration of the scheduler loop keeps the split of the tick's
      beats into those done and those still pending. */
  lemma TickStep(start: real, spb: real, limit: real, done: seq<real>, next: real)
    requires spb > 0.0 && next < limit
    requires TickBeats(start, spb, limit) == done + TickBeats(next, spb, limit)
    ensures TickBeats(start, spb, limit) == (done + [next]) + TickBeats(next + spb, spb, limit)
  {
    var rest := TickBeats(next + spb, spb, limit);
    assert TickBeats(next, spb, limit) == [next] + rest;
    assert done + ([next] + rest) == (done + [next]) + rest;
  }

  lemma RenderBeatsSnoc(beats: seq<real>, b: real, spb: real, sub: Subdivision, volume: real)
    ensures RenderBeats(beats + [b], spb, sub, volume) == RenderBeats(beats, spb, sub, volume) + BeatClicks(b, spb, sub, volume)
  {
    assert (beats + [b])[..|beats|] == beats;
  }

  /** All clicks requested for a sequence of beats, in order. */
  function RenderBeats(beats: seq<real>, spb: real, sub: Subdivision, volume: real): seq<Click>
  {
    if beats == [] then []
    else RenderBeats(beats[..|beats| - 1], spb, sub, volume) + BeatClicks(beats[|beats| - 1], spb, sub, volume)
  }

  /** n beats request n main clicks plus n times the subdivision's clicks. */
  lemma {:induction false} RenderBeatsCount(beats: seq<real>, spb: real, sub: Subdivision, volume: real)
    ensures |RenderBeats(beats, spb, sub, volume)| == |beats| * (1 + |SubdivisionOffsets(sub)|)
  {
    if beats != [] {
      var n := |beats| - 1;
      RenderBeatsCount(beats[..n], spb, sub, volume);
      assert |BeatClicks(beats[n], spb, sub, volume)| == 1 + |SubdivisionOffsets(sub)|;
      assert (n + 1) * (1 + |SubdivisionOffsets(sub)|) == n * (1 + |SubdivisionOffsets(sub)|) + (1 + |SubdivisionOffsets(sub)|);
    }
  }

  /** The engine object. Fields mirror the class in the source:
      contextReady stands for `audioContext !== null`, timerArmed for
      `timerID !== null`; `tuning` is the tuning oscillator with its gain
      (None while `tuningOsc` is null); `voices` is the synthOscillators map;
      pendingTuningCleanups counts the 150 ms timeouts that will clear the
      tuning voice. */
  class Engine {
    var contextReady: bool
    var isPlaying: bool
    var timerArmed: bool
    var beatInBar: int
    var tempo: real
    var nextNoteTime: real
    var volume: real
    var subdivision: Subdivision
    var voices: map<string, Voice>
    var tuning: Option<Voice>
    var pendingTuningCleanups: nat
    var clicks: seq<Click>

    /** The timer runs exactly while playing, the bar position never leaves
        0 (a 1/4 meter) and anything that sounds has an audio context. */
    ghost predicate Valid()
      reads this
    {
      && timerArmed == isPlaying
      && beatInBar == 0
      && (isPlaying ==> contextReady)
      && (voices != map[] ==> contextReady)
      && (tuning.Some? ==> contextReady)
    }

    constructor ()
      ensures Valid()
      ensures !contextReady && !isPlaying && !timerArmed && beatInBar == 0
      ensures tempo == 120.0 && nextNoteTime == 0.0 && volume == 0.8 && subdivision == Quarter
      ensures voices == map[] && tuning == None && pendingTuningCleanups == 0 && clicks == []
    {
      contextReady, isPlaying, timerArmed, beatInBar := false, false, false, 0;
      tempo, nextNoteTime, volume, subdivision := 120.0, 0.0, 0.8, Quarter;
      voices, tuning, pendingTuningCleanups := map[], None, 0;
      clicks := [];
    }

    /** initContext: creates the audio context on first use (resuming a
        suspended one is device plumbing). */
    method InitContext()
      modifies this`contextReady
      ensures contextReady
    {
      contextReady := true;
    }

    /** setTempo accepts any number. */
    method SetTempo(bpm: real)
      modifies this`tempo
      ensures tempo == bpm
    {
      tempo := bpm;
    }

    method SetSubdivision(sub: Subdivision)
      modifies this`subdivision
      ensures subdivision == sub
    {
      subdivision := sub;
    }

    /** setVolume retargets the gain of the tuning voice and of every synth
        voice; no voice is added, removed or retuned. */
    method SetVolume(vol: real)
      requires Valid()
      modifies this`volume, this`tuning, this`voices
      ensures Valid()
      ensures volume == vol
      ensures voices.Keys == old(voices).Keys
      ensures forall id :: id in voices ==> voices[id] == old(voices)[id].(level := Gain(vol, SynthShare))
      ensures tuning == if old(tuning).Some? && contextReady
        then Some(old(tuning).value.(level := Gain(vol, TuningShare))) else old(tuning)
    {
      volume := vol;
      if tuning.Some? && contextReady {
        tuning := Some(tuning.value.(level := Gain(vol, TuningShare)));
      }
      if contextReady {
        voices := map id | id in voices :: voices[id].(level := Gain(vol, SynthShare));
      }
    }

    /** start: a no-op while playing; otherwise the first beat is due 50 ms
        after the current audio time and the interval timer is armed. */
    method Start(now: real)
      requires Valid()
      modifies this`isPlaying, this`beatInBar, this`nextNoteTime, this`timerArmed, this`contextReady
      ensures Valid() && isPlaying && timerArmed
      ensures old(isPlaying) ==> nextNoteTime == old(nextNoteTime) && contextReady == old(contextReady)
      ensures !old(isPlaying) ==> contextReady && beatInBar == 0 && nextNoteTime == now + StartOffset
    {
      if isPlaying {
        return;
      }
      InitContext();
      isPlaying := true;
      beatInBar := 0;
      nextNoteTime := now + StartOffset;
      timerArmed := true;
    }

    /** stop: idempotent; afterwards nothing plays and no timer remains. */
    method Stop()
      requires Valid()
      modifies this`isPlaying, this`timerArmed
      ensures Valid() && !isPlaying && !timerArmed
    {
      isPlaying := false;
      if timerArmed {
        timerArmed := false;
      }
    }

    /** toggle: stops when playing, starts otherwise, and reports the new state. */
    method Toggle(now: real) returns (playing: bool)
      requires Valid()
      modifies this`isPlaying, this`beatInBar, this`nextNoteTime, this`timerArmed, this`contextReady
      ensures Valid()
      ensures playing == !old(isPlaying) && playing == isPlaying && timerArmed == playing
      ensures nextNoteTime == if old(isPlaying) then old(nextNoteTime) else now + StartOffset
      ensures contextReady == (old(contextReady) || !old(isPlaying))
    {
      if isPlaying {
        Stop();
      } else {
        Start(now);
      }
      playing := isPlaying;
    }

    /** playClick: requests one click, unless there is no audio context. */
    method PlayClick(time: real, freq: real, volMultiplier: real)
      modifies this`clicks
      ensures contextReady ==> clicks == old(clicks) + [ClickAt(time, freq, Gain(volume, volMultiplier))]
      ensures !contextReady ==> clicks == old(clicks)
    {
      if !contextReady {
        return;
      }
      clicks := clicks + [Click(time, freq, Gain(volume, volMultiplier), time + ClickDuration + 0.01)];
    }

    /** scheduleNote: the main click of a beat and its subdivision clicks.
        (The delayed beat notification for the display is not modelled.) */
    method ScheduleNote(time: real)
      requires tempo > 0.0
      modifies this`clicks
      ensures contextReady ==> clicks == old(clicks) + BeatClicks(time, SecondsPerBeat(tempo), subdivision, volume)
      ensures !contextReady ==> clicks == old(clicks)
    {
      ghost var spb := SecondsPerBeat(tempo);
      ghost var amp := Gain(volume, SubAmp);
      ghost var c0 := clicks;
      ghost var main := ClickAt(time, MainFreq, Gain(volume, 1.0));
      BeatClicksCases(time, spb, subdivision, volume);
      PlayClick(time, MainFreq, 1.0);
      if subdivision != Quarter {
        var secondsPerBeat := SecondsPerBeat(tempo);
        ghost var sub := (o: real) => ClickAt(OffsetTime(time, spb, o), SubFreq, amp);
        if subdivision == Eighth {
          PlayClick(time + (secondsPerBeat * 0.5), SubFreq, SubAmp);
          assert contextReady ==> clicks == c0 + [main, sub(0.5)];
        } else if subdivision == EighthTriplet {
          PlayClick(time + (secondsPerBeat * (1.0 / 3.0)), SubFreq, SubAmp);
          PlayClick(time + (secondsPerBeat * (2.0 / 3.0)), SubFreq, SubAmp);
          assert contextReady ==> clicks == c0 + [main, sub(1.0 / 3.0), sub(2.0 / 3.0)];
        } else if subdivision == Sixteenth {
          PlayClick(time + (secondsPerBeat * 0.25), SubFreq, SubAmp);
          PlayClick(time + (secondsPerBeat * 0.50), SubFreq, SubAmp);
          PlayClick(time + (secondsPerBeat * 0.75), SubFreq, SubAmp);
          assert contextReady ==> clicks == c0 + [main, sub(0.25), sub(0.50), sub(0.75)];
        } else if subdivision == Dotted {
          PlayClick(time + (secondsPerBeat * 0.75), SubFreq, SubAmp);
          assert contextReady ==> clicks == c0 + [main, sub(0.75)];
        }
      }
    }

    /** nextNote: advances by one beat at the current tempo; the bar position
        is reset as soon as it reaches 1. */
    method NextNote()
      requires tempo > 0.0
      modifies this`nextNoteTime, this`beatInBar
      ensures nextNoteTime == old(nextNoteTime) + SecondsPerBeat(tempo)
      ensures beatInBar == if old(beatInBar) + 1 == 1 then 0 else old(beatInBar) + 1
    {
      var secondsPerBeat := SecondsPerBeat(tempo);
      nextNoteTime := nextNoteTime + secondsPerBeat;
      beatInBar := beatInBar + 1;
      if beatInBar == 1 {
        beatInBar := 0;
      }
    }

    /** scheduler: requests every beat that falls inside the look-ahead
        window [.., now + 0.1) and leaves the next pending beat outside it.
        A positive tempo is needed for the loop to end. */
    method Scheduler(now: real)
      requires Valid() && tempo > 0.0
      modifies this`clicks, this`nextNoteTime, this`beatInBar
      ensures Valid()
      ensures var spb := SecondsPerBeat(tempo);
        var beats := if contextReady then TickBeats(old(nextNoteTime), spb, now + ScheduleAheadTime) else [];
        && clicks == old(clicks) + RenderBeats(beats, spb, subdivision, volume)
        && nextNoteTime == BeatTime(old(nextNoteTime), spb, |beats|)
      ensures contextReady ==> nextNoteTime >= now + ScheduleAheadTime
    {
      if !contextReady {
        return;
      }
      var spb := SecondsPerBeat(tempo);
      var limit := now + ScheduleAheadTime;
      ghost var start := nextNoteTime;
      ghost var done: seq<real> := [];
      ghost var c0 := clicks;
      while nextNoteTime < now + ScheduleAheadTime
        invariant beatInBar == 0
        invariant TickBeats(start, spb, limit) == done + TickBeats(nextNoteTime, spb, limit)
        invariant clicks == c0 + RenderBeats(done, spb, subdivision, volume)
        invariant TickEnd(start, spb, limit) == TickEnd(nextNoteTime, spb, limit)
        decreases BeatsLeft(nextNoteTime, spb, limit)
      {
        BeatsLeftStep(nextNoteTime, spb, limit);
        TickStep(start, spb, limit, done, nextNoteTime);
        RenderBeatsSnoc(done, nextNoteTime, spb, subdivision, volume);
        assert TickEnd(nextNoteTime, spb, limit) == TickEnd(nextNoteTime + spb, spb, limit);
        ScheduleNote(nextNoteTime);
        done := done + [nextNoteTime];
        NextNote();
      }
      assert TickBeats(nextNoteTime, spb, limit) == [];
      assert done + [] == done;
      assert TickEnd(nextNoteTime, spb, limit) == nextNoteTime;
      TickEndAfterBeats(start, spb, limit);
    }

    /** One firing of the interval timer: it only fires while armed. */
    method Tick(now: real)
      requires Valid() && (timerArmed ==> tempo > 0.0)
      modifies this`clicks, this`nextNoteTime, this`beatInBar
      ensures Valid()
      ensures !timerArmed ==> clicks == old(clicks) && nextNoteTime == old(nextNoteTime)
      ensures timerArmed ==> var spb := SecondsPerBeat(tempo);
        var beats := TickBeats(old(nextNoteTime), spb, now + ScheduleAheadTime);
        && clicks == old(clicks) + RenderBeats(beats, spb, subdivision, volume)
        && nextNoteTime == BeatTime(old(nextNoteTime), spb, |beats|)
        && nextNoteTime >= now + ScheduleAheadTime
    {
      if timerArmed {
        Scheduler(now);
      }
    }

    /** playSynthTone: starts a voice for an absent id and reports true; for
        an id already sounding it stops that voice instead and reports false. */
    method PlaySynthTone(id: string, freq: real) returns (started: bool)
      requires Valid()
      modifies this`voices, this`contextReady
      ensures Valid() && contextReady
      ensures started == (id !in old(voices))
      ensures voices == if started then old(voices)[id := Voice(freq, Gain(volume, SynthShare))] else old(voices) - {id}
    {
      InitContext();
      if id in voices {
        StopSynthTone(id);
        return false;
      }
      voices := voices[id := Voice(freq, Gain(volume, SynthShare))];
      return true;
    }

    /** stopSynthTone: removes the given voice; an unknown id is ignored. */
    method StopSynthTone(id: string)
      requires Valid()
      modifies this`voices
      ensures Valid()
      ensures voices == old(voices) - {id}
    {
      if id in voices {
        voices := voices - {id};
      }
    }

    /** stopAllSynthTones: stops every voice, one id at a time. */
    method StopAllSynthTones()
      requires Valid()
      modifies this`voices
      ensures Valid()
      ensures voices == map[]
    {
      var keys := voices.Keys;
      while keys != {}
        invariant Valid()
        invariant voices.Keys == keys
        decreases keys
      {
        var key :| key in keys;
        StopSynthTone(key);
        keys := keys - {key};
      }
    }

    /** toggleTuningNote: enabling while a tuning voice exists, or disabling
        while none exists, changes nothing. Disabling fades the voice out and
        leaves it in place until its 150 ms cleanup fires. */
    method ToggleTuningNote(enable: bool)
      requires Valid()
      modifies this`contextReady, this`tuning, this`pendingTuningCleanups
      ensures Valid() && contextReady
      ensures enable && old(tuning).Some? ==> tuning == old(tuning)
      ensures enable && old(tuning).None? ==> tuning == Some(Voice(TuningFreq, Gain(volume, TuningShare)))
      ensures enable ==> pendingTuningCleanups == old(pendingTuningCleanups)
      ensures !enable && old(tuning).Some? ==>
        tuning == Some(old(tuning).value.(level := 0.0)) && pendingTuningCleanups == old(pendingTuningCleanups) + 1
      ensures !enable && old(tuning).None? ==> tuning == None && pendingTuningCleanups == old(pendingTuningCleanups)
    {
      InitContext();
      if enable {
        if tuning.Some? {
          return;
        }
        tuning := Some(Voice(TuningFreq, Gain(volume, TuningShare)));
      } else {
        if tuning.Some? {
          tuning := Some(tuning.value.(level := 0.0));
          pendingTuningCleanups := pendingTuningCleanups + 1;
        }
      }
    }

    /** A 150 ms tuning cleanup timeout fires and forgets the tuning voice. */
    method TuningCleanup()
      requires Valid() && pendingTuningCleanups > 0
      modifies this`tuning, this`pendingTuningCleanups
      ensures Valid() && tuning == None
      ensures pendingTuningCleanups == old(pendingTuningCleanups) - 1
    {
      tuning := None;
      pendingTuningCleanups := pendingTuningCleanups - 1;
    }
  }
}
