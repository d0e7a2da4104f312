/**
 One run of the scan as the start button triggers it: acquire the fixed
 ten-second recording in 100 steps, then score and band the biomarkers.
 The random draws (biomarkers and perturbation) are parameters.
 */
module CardioScan {
  import opened ScanSchedule
  import opened RiskScoring

  method Scan(markers: Biomarkers, perturbation: int)
    returns (frames: seq<Frame>, spectra: seq<SpectralRequest>, assessment: Assessment)
    requires InDrawnRange(markers)
    requires ValidPerturbation(perturbation)
    ensures |frames| == Steps
    ensures forall i :: 0 <= i < Steps ==> frames[i] == Frame(i + 1, (i + 1) * ChunkSize(SampleCount()))
    ensures frames[Steps - 1].displaySamples == SampleCount()
    ensures |spectra| == 20
    ensures forall k :: 0 <= k < |spectra| ==>
      && spectra[k].step == SpectralPeriod * k
      && spectra[k].windowLength == frames[SpectralPeriod * k].displaySamples
      && SegmentLength <= spectra[k].windowLength <= SampleCount()
    ensures assessment == Assess(markers, perturbation)
    ensures 8 <= assessment.score <= 82
  {
    frames, spectra := Acquire(SampleCount());
    FixedScanCoversBuffer();
    FixedSpectralWindowsHoldSegment();
    SpectralScheduleExact(SampleCount());
    assessment := Assess(markers, perturbation);
  }
}
