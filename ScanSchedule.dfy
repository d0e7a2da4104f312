/**
 The step schedule of the simulated cardiac scan: a buffer of `samples`
 values is revealed in 100 growing prefixes ("reveal windows"), each step
 reports its progress, and every fifth step asks for a power-spectrum
 estimate over the window revealed so far.
 */
module ScanSchedule {

  /** Sampling rate of the simulated recording, in Hz. */
  const SampleRate: nat := 44100
  /** Length of the simulated recording, in seconds. */
  const Duration: nat := 10
  /** Number of acquisition steps in one scan. */
  const Steps: nat := 100
  /** A spectral estimate is requested on every step whose index is a multiple of this. */
  const SpectralPeriod: nat := 5
  /** Segment length asked of the Welch estimator. */
  const SegmentLength: nat := 1024
  /** Number of steps 0 <= i < Steps with i % SpectralPeriod == 0. */
  const SpectralCount: nat := (Steps + SpectralPeriod - 1) / SpectralPeriod

  /** `int(duration * sample_rate)`: the number of samples in the buffer. */
  function SampleCount(): (n: nat)
    ensures n % Steps == 0
    ensures n / SampleRate == Duration
  {
    Duration * SampleRate
  }

  /** `int(samples/100)`: the size of one reveal increment. */
  function ChunkSize(samples: nat): (c: nat)
    ensures c * Steps <= samples < c * Steps + Steps
  {
    samples / Steps
  }

  /** The end index of the window revealed at step `i` (0-based). */
  function Window(samples: nat, i: nat): (w: nat)
    ensures w <= samples
  {
    var grown := (i + 1) * ChunkSize(samples);
    if grown <= samples then grown else samples
  }

  /** What one step publishes: its progress value and the revealed window's end index. */
  datatype Frame = Frame(progress: nat, displaySamples: nat)

  /** A request for a spectral estimate over the first `windowLength` samples, made at step `step`. */
  datatype SpectralRequest = SpectralRequest(step: nat, windowLength: nat)

  /** The spectral requests of one scan in closed form: one per multiple of SpectralPeriod below Steps. */
  function SpectralSchedule(samples: nat): (s: seq<SpectralRequest>)
    ensures |s| == SpectralCount
  {
    seq(SpectralCount, k requires 0 <= k < SpectralCount =>
      SpectralRequest(SpectralPeriod * k, Window(samples, SpectralPeriod * k)))
  }

  /** The `min` never binds during the scan: step `i` reveals exactly `(i+1)` chunks. */
  lemma WindowIsWholeChunks(samples: nat, i: nat)
    requires i < Steps
    ensures Window(samples, i) == (i + 1) * ChunkSize(samples)
  {
    var c := ChunkSize(samples);
    calc {
      (i + 1) * c;
    <= { MulMonotone(i + 1, Steps, c); }
      Steps * c;
    <=
      samples;
    }
  }

  /** Consecutive windows differ by exactly one chunk. */
  lemma WindowGrowth(samples: nat, i: nat)
    requires i + 1 < Steps
    ensures Window(samples, i + 1) == Window(samples, i) + ChunkSize(samples)
  {
    WindowIsWholeChunks(samples, i);
    WindowIsWholeChunks(samples, i + 1);
  }

  /** No window ever shrinks, at any pair of steps. */
  lemma WindowMonotone(samples: nat, i: nat, j: nat)
    requires i <= j
    ensures Window(samples, i) <= Window(samples, j)
  {
    MulMonotone(i + 1, j + 1, ChunkSize(samples));
  }

  /** With at least one sample per step, the windows of a scan grow strictly. */
  lemma WindowStrictlyIncreasing(samples: nat, i: nat, j: nat)
    requires Steps <= samples
    requires i < j < Steps
    ensures Window(samples, i) < Window(samples, j)
  {
    var c := ChunkSize(samples);
    WindowIsWholeChunks(samples, i);
    WindowIsWholeChunks(samples, j);
    assert 1 <= c;
    MulMonotone(i + 2, j + 1, c);
    assert (i + 2) * c == (i + 1) * c + c;
  }

  /** The last window holds Steps whole chunks; it is the whole buffer exactly when Steps divides it. */
  lemma FinalWindow(samples: nat)
    ensures Window(samples, Steps - 1) == Steps * ChunkSize(samples)
    ensures Window(samples, Steps - 1) == samples <==> samples % Steps == 0
  {
    WindowIsWholeChunks(samples, Steps - 1);
  }

  /** For the fixed recording the last window covers the whole buffer. */
  lemma FixedScanCoversBuffer()
    ensures Window(SampleCount(), Steps - 1) == SampleCount()
    ensures forall i :: 0 <= i < Steps ==> Window(SampleCount(), i) == (i + 1) * 4410
  {
    FinalWindow(SampleCount());
    forall i | 0 <= i < Steps
      ensures Window(SampleCount(), i) == (i + 1) * 4410
    {
      WindowIsWholeChunks(SampleCount(), i);
    }
  }

  /** The last `samples % Steps` samples are never revealed; none when Steps divides the length. */
  lemma UnrevealedTail(samples: nat)
    ensures samples - Window(samples, Steps - 1) == samples % Steps
  {
    FinalWindow(samples);
  }

  /**
   The schedule requests a spectrum exactly on the multiples of SpectralPeriod,
   in increasing order, twenty times, including the first step and not the last.
   */
  lemma {:induction false} SpectralScheduleExact(samples: nat)
    ensures |SpectralSchedule(samples)| == 20
    ensures SpectralSchedule(samples)[0].step == 0
    ensures SpectralSchedule(samples)[|SpectralSchedule(samples)| - 1].step == 95
    ensures forall i :: 0 <= i < Steps ==>
      (i % SpectralPeriod == 0 <==> exists k :: 0 <= k < SpectralCount && SpectralSchedule(samples)[k].step == i)
    ensures forall k, l :: 0 <= k < l < SpectralCount ==>
      SpectralSchedule(samples)[k].step < SpectralSchedule(samples)[l].step
    ensures forall k :: 0 <= k < SpectralCount ==>
      SpectralSchedule(samples)[k].windowLength == Window(samples, SpectralSchedule(samples)[k].step)
  {
    var s := SpectralSchedule(samples);
    forall i | 0 <= i < Steps
      ensures i % SpectralPeriod == 0 <==> exists k :: 0 <= k < SpectralCount && s[k].step == i
    {
      if i % SpectralPeriod == 0 {
        var k := i / SpectralPeriod;
        assert s[k].step == i;
      }
    }
  }

  /** For the fixed recording every spectral window already holds a full Welch segment. */
  lemma FixedSpectralWindowsHoldSegment()
    ensures forall k :: 0 <= k < SpectralCount ==>
      SegmentLength <= SpectralSchedule(SampleCount())[k].windowLength
  {
    forall k | 0 <= k < SpectralCount
      ensures SegmentLength <= SpectralSchedule(SampleCount())[k].windowLength
    {
      WindowMonotone(SampleCount(), 0, SpectralPeriod * k);
      WindowIsWholeChunks(SampleCount(), 0);
    }
  }

  /**
   The acquisition loop: step `i` runs from 0 to Steps - 1, reports progress
   `i + 1`, reveals `min((i+1) * chunk, samples)` samples and, when `i` is a
   multiple of SpectralPeriod, requests a spectrum over the revealed window.
   */
  method Acquire(samples: nat) returns (frames: seq<Frame>, spectra: seq<SpectralRequest>)
    ensures |frames| == Steps
    ensures forall i :: 0 <= i < Steps ==> frames[i] == Frame(i + 1, Window(samples, i))
    ensures forall i, j :: 0 <= i <= j < Steps ==> frames[i].displaySamples <= frames[j].displaySamples
    ensures frames[Steps - 1].displaySamples == Steps * ChunkSize(samples)
    ensures spectra == SpectralSchedule(samples)
  {
    frames, spectra := [], [];
    var i := 0;
    while i < Steps
      invariant 0 <= i <= Steps
      invariant |frames| == i
      invariant forall j :: 0 <= j < i ==> frames[j] == Frame(j + 1, Window(samples, j))
      invariant |spectra| == (i + SpectralPeriod - 1) / SpectralPeriod
      invariant forall k :: 0 <= k < |spectra| ==>
        spectra[k] == SpectralRequest(SpectralPeriod * k, Window(samples, SpectralPeriod * k))
    {
      var progress := i + 1;
      var chunkSize := samples / Steps;
      var displaySamples := if (i + 1) * chunkSize <= samples then (i + 1) * chunkSize else samples;
      assert displaySamples == Window(samples, i);
      frames := frames + [Frame(progress, displaySamples)];
      SpectralCountStep(i);
      if i % SpectralPeriod == 0 {
        assert SpectralPeriod * |spectra| == i;
        spectra := spectra + [SpectralRequest(i, displaySamples)];
      }
      i := i + 1;
    }
    assert |spectra| == SpectralCount;
    forall i, j | 0 <= i <= j < Steps
      ensures frames[i].displaySamples <= frames[j].displaySamples
    {
      WindowMonotone(samples, i, j);
    }
    FinalWindow(samples);
  }

  /** How many multiples of SpectralPeriod lie below `i + 1`, given how many lie below `i`. */
  lemma SpectralCountStep(i: nat)
    ensures (i + SpectralPeriod) / SpectralPeriod
      == (i + SpectralPeriod - 1) / SpectralPeriod + (if i % SpectralPeriod == 0 then 1 else 0)
    ensures i % SpectralPeriod == 0 ==> SpectralPeriod * ((i + SpectralPeriod - 1) / SpectralPeriod) == i
  {
  }

  /** Multiplication by a natural number preserves order. */
  lemma MulMonotone(a: nat, b: nat, c: nat)
    requires a <= b
    ensures a * c <= b * c
  {
  }
}
