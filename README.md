# CardioScan LVNC scan pipeline — Dafny model

A Streamlit app runs the CardioScan LVNC detector. When the user presses "Start Cardiac Scan" it builds a
ten-second synthetic phonocardiogram sampled at 44100 Hz, which is 441000 samples. It then shows that recording
in 100 growing prefixes ("reveal windows"). After each step it reports progress. On every fifth step it asks
for a Welch power-spectrum estimate over the window shown so far. When the scan completes, it draws three
synthetic biomarkers and a small random perturbation. From these it computes a risk score out of 100. It then
shows the score in two bands with different thresholds: the metric card and the clinical recommendation. Each
biomarker also gets its own advisory flag.

This project models the exact, integer and rational parts of that flow:

- `ScanSchedule` (ScanSchedule.dfy) covers the acquisition loop. `Acquire` is a method whose `while` loop does what
  the scan loop does. Each step reports progress `i + 1` and reveals `min((i+1) * (samples div 100), samples)`
  samples. Each step with `i % 5 == 0` requests a spectrum over the window revealed so far. The method returns the
  published frames and spectral requests. It is proved against the window function `Window` and against
  `SpectralSchedule`, which lists the spectral requests in closed form. The lemmas beside them prove bounds, growth,
  monotonicity, final coverage and the exact spectral schedule.
- `RiskScoring` (RiskScoring.dfy) covers the diagnostic stage. The score is computed exactly over `real`, and
  Python's `int()` is modelled as truncation toward zero (`Truncate`). The module also holds both bands, the three
  advisory flags, and the recommendation headlines and clinical-action lists (`Headline`, `ClinicalActions`).
  `MetricLabel` gives the card texts.
- `CardioScan` (CardioScan.dfy) runs one whole scan on the fixed recording. The biomarker and perturbation draws are its parameters.

The sample count is a parameter of `Acquire`, so the lemmas can say what holds for every buffer length. They also
state separately what holds for the fixed 441000 samples. The model follows the code on three points that are
easy to misstate:

- Progress is `i + 1`, not `i`.
- The last window covers the whole buffer only when the sample count is a multiple of 100 (`FinalWindow`,
  `UnrevealedTail`). It does for 441000 (`FixedScanCoversBuffer`).
- The perturbation is `randint(0, 15)`, whose upper bound is exclusive, so it never reaches 15. With NC ratio 2.5,
  ejection fraction 35 and trabeculation 0.85, the largest score is therefore 72, not 73 (`WorkedExample`).

## Model

| member | source | states |
|---|---|---|
| ScanSchedule.SampleCount | lvnc-app.py:121-123 | the buffer holds ten seconds at 44100 Hz; the count is a multiple of the 100 steps |
| ScanSchedule.ChunkSize | lvnc-app.py:146 | the chunk is the largest c with 100*c <= samples, i.e. floor division by the step count |
| ScanSchedule.Window | lvnc-app.py:147 | a reveal window never exceeds the buffer length |
| ScanSchedule.WindowIsWholeChunks | lvnc-app.py:146-147 | for every step i < 100 the `min` never binds: the window is exactly (i+1) chunks |
| ScanSchedule.WindowGrowth | lvnc-app.py:146-147 | consecutive windows differ by exactly one chunk |
| ScanSchedule.WindowMonotone | lvnc-app.py:147 | no window shrinks: i <= j implies window(i) <= window(j), for any buffer length |
| ScanSchedule.WindowStrictlyIncreasing | lvnc-app.py:146-147 | with at least 100 samples, windows at steps i < j < 100 grow strictly |
| ScanSchedule.FinalWindow | lvnc-app.py:146-147 | the last window is 100 chunks, and equals the buffer length exactly when 100 divides it |
| ScanSchedule.FixedScanCoversBuffer | lvnc-app.py:121-147 | for the fixed 441000 samples, step i reveals (i+1)*4410 samples and the last step reveals all of them |
| ScanSchedule.UnrevealedTail | lvnc-app.py:146-147 | for any buffer length, exactly `samples mod 100` samples are never revealed (none when 100 divides the length) |
| ScanSchedule.SpectralSchedule | lvnc-app.py:166 | the closed-form spectral schedule has one request per multiple of 5 below 100 |
| ScanSchedule.SpectralScheduleExact | lvnc-app.py:140-167 | a spectrum is requested on step i < 100 iff i % 5 == 0; 20 requests, steps 0 to 95 in increasing order, each over that step's window |
| ScanSchedule.FixedSpectralWindowsHoldSegment | lvnc-app.py:166-167 | for the fixed recording every spectral window holds at least one 1024-sample Welch segment |
| ScanSchedule.Acquire | lvnc-app.py:140-185 | the loop publishes 100 frames, frame i carrying progress i+1 and window(i); windows never shrink; the last is 100 chunks; its spectral requests are exactly the closed-form schedule |
| RiskScoring.Truncate | lvnc-app.py:203 | `int()` truncates toward zero: the result is the integer part, below or above the argument by less than 1 depending on sign |
| RiskScoring.RawScore | lvnc-app.py:204-207 | on drawn inputs the weighted sum lies in [8, 83) |
| RiskScoring.RawScoreWeights | lvnc-app.py:204-207 | the sum is 0 at NC 1.5, EF 65, trabeculation 0, perturbation 0, and moves by exactly +30 per unit NC, -25/65 per unit EF, +20 per unit trabeculation, +1 per unit perturbation |
| RiskScoring.RiskScore | lvnc-app.py:203-208 | `min(100, int(sum))`: never above 100 nor above the truncated sum; equal to the truncated sum when that is below 100, and exactly 100 when the truncated sum is at least 100 |
| RiskScoring.TruncateMonotone | lvnc-app.py:203 | truncation toward zero is monotone |
| RiskScoring.RiskScoreRange | lvnc-app.py:198-208 | on the drawn biomarker ranges and perturbation 0..14, the sum lies in [8, 83), so the cap never binds, truncation equals floor, and the score is in [8, 82] |
| RiskScoring.RiskScoreMonotone | lvnc-app.py:203-207 | the score is non-decreasing in NC ratio, trabeculation and perturbation, and non-increasing in ejection fraction |
| RiskScoring.MetricCardBand | lvnc-app.py:215 | "High Risk" iff score > 60, "Moderate" iff 40 < score <= 60, "Low" iff score <= 40 |
| RiskScoring.RecommendationBand | lvnc-app.py:241-267 | urgent referral iff score > 70, moderate suspicion iff 45 < score <= 70, low probability iff score <= 45 |
| RiskScoring.MetricLabel | lvnc-app.py:215 | the card reads "High Risk", "Moderate" or "Low", one text per band |
| RiskScoring.Headline | lvnc-app.py:241-262 | one headline per recommendation band: high probability, moderate suspicion, low probability |
| RiskScoring.ClinicalActions | lvnc-app.py:245-266 | 2 to 4 actions; an urgent cardiology referral only in the urgent band, a contingent MRI only in the moderate band, routine follow-up only in the low band |
| RiskScoring.DisplayedTexts | lvnc-app.py:215-267 | the card text is "High Risk" iff score > 60 and "Moderate" iff 40 < score <= 60; the headline is high probability iff score > 70 and moderate suspicion iff 45 < score <= 70; an urgent referral is advised iff score > 70 |
| RiskScoring.BandsMonotone | lvnc-app.py:215-267 | both bands rise with the score |
| RiskScoring.BandsDisagreement | lvnc-app.py:215-267 | the metric card is never less severe than the recommendation and at most one level more; it is more severe exactly for scores in (60, 70] and (40, 45] |
| RiskScoring.NcAdvisory | lvnc-app.py:212 | ">2.0 suggests LVNC" iff the NC ratio is strictly above 2.0, otherwise "Normal" |
| RiskScoring.EfAdvisory | lvnc-app.py:213 | "Concern <40%" iff the ejection fraction is strictly below 40, otherwise "Normal" |
| RiskScoring.TrabAdvisory | lvnc-app.py:214 | "High" iff the trabeculation score is strictly above 0.7, otherwise "Normal" |
| RiskScoring.AdvisoryFlags | lvnc-app.py:212-214 | each of the three flags fires exactly on its own marker's strict threshold (NC > 2.0, EF < 40, trabeculation > 0.7) and reads "Normal" otherwise |
| RiskScoring.AdvisoriesAreLocal | lvnc-app.py:212-214 | each advisory depends only on its own biomarker |
| RiskScoring.Assess | lvnc-app.py:203-267 | on drawn inputs the published score is the integer part of the weighted sum, in [8, 82]; each band is computed from the score independently, with its own text, headline and action list; the flags are computed from the biomarkers, not from the score |
| RiskScoring.WorkedExample | lvnc-app.py:198-267 | NC 2.5, EF 35, trabeculation 0.85 give 58 ("Moderate", moderate suspicion) with perturbation 0 and 72 ("High Risk", urgent referral) with 14; all three flags fire |
| CardioScan.Scan | lvnc-app.py:109-267 | one scan of the fixed recording: 100 frames of (i+1)*4410 samples ending at the full buffer, 20 spectral requests on steps 5k, each over exactly that step's window ((5k+1)*4410 samples, at least 1024), and an assessment with score in [8, 82] |

## Left out

- Waveform synthesis (lvnc-app.py:124-137) is left out: the time axis, the sinusoids, the Gaussian noise and the
  random choice of the abnormal branch are floating-point and random. The abnormality masks `t > 5` and `t > 7`
  only select sample indices, and no modelled computation reads the samples.
- The Welch estimate itself (lvnc-app.py:167) is a SciPy call doing floating-point FFT numerics. The model records
  only when it is requested and over how many samples.
- The biomarker and perturbation draws (lvnc-app.py:198-200, 207) are parameters, with their ranges as
  preconditions. The biomarker ranges are taken closed. The noise and branch draws (lvnc-app.py:128, 131, 133) are
  not parameters of any member: they go out with the waveform synthesis.
- The score is computed over exact reals, not IEEE doubles. Double rounding could shift a sum that lies within
  one ulp of an integer, and the model does not capture that.
- ScanSchedule.ChunkSize: `int(samples/100)` divides in floating point and then truncates. The model uses integer
  division, which gives the same result for the fixed 441000 samples.
- CardioScan.Scan: the fixed scan duration and sample rate are constants. The sensitivity and scan-duration
  widgets (lvnc-app.py:71-72) are never read by the computation, so they are not modelled.
- The connection-status gate and all presentation are left out: the sidebar, the figures, the gauge, the metric
  styling, the progress bar and status text, `time.sleep`, and the static patient-history table (lines 1-104,
  149-163, 168-183, 185-189, 211-238, 272-311). Only the texts the bands and flags choose are modelled. The recommendation headlines are modelled by their words,
  without their emoji, their bold markdown and the alert style (error, warning, success) they are shown in.
