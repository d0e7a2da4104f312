/**
 The diagnostic stage that follows a scan: three biomarkers and a small
 integer perturbation are combined into a risk score out of 100, the score is
 placed in two independent three-way bands (the metric card and the clinical
 recommendation), and each biomarker gets its own advisory flag.
 */
module RiskScoring {

  /** The three synthetic biomarkers drawn after a scan completes. */
  datatype Biomarkers = Biomarkers(ncRatio: real, ejectionFraction: real, trabeculationScore: real)

  /** Lower and upper ends of the ranges the biomarkers are drawn from. */
  const NcLow: real := 1.5
  const NcHigh: real := 2.8
  const EfLow: real := 35.0
  const EfHigh: real := 65.0
  const TrabLow: real := 0.4
  const TrabHigh: real := 0.9
  /** The perturbation is drawn from 0 up to, but excluding, this bound. */
  const PerturbationBound: int := 15
  /** The score is capped at this value. */
  const MaxScore: int := 100

  /** The biomarkers lie in the ranges they are drawn from. */
  predicate InDrawnRange(b: Biomarkers) {
    && NcLow <= b.ncRatio <= NcHigh
    && EfLow <= b.ejectionFraction <= EfHigh
    && TrabLow <= b.trabeculationScore <= TrabHigh
  }

  /** The perturbation lies in the range `randint(0, 15)` draws from. */
  predicate ValidPerturbation(p: int) {
    0 <= p < PerturbationBound
  }

  /** Conversion of a real to an integer by truncation toward zero, as `int(x)` does. */
  function Truncate(x: real): (n: int)
    ensures 0.0 <= x ==> n as real <= x < n as real + 1.0
    ensures x < 0.0 ==> n as real - 1.0 < x <= n as real
  {
    if 0.0 <= x then x.Floor else -((-x).Floor)
  }

  /**
   The weighted sum before truncation and capping. On drawn inputs it lies in
   [8, 83): at least the trabeculation floor 20 * 0.4, and short of 83.
   */
  function RawScore(b: Biomarkers, p: int): (raw: real)
    ensures InDrawnRange(b) && ValidPerturbation(p) ==> 8.0 <= raw < 83.0
  {
    var efTerm := 25.0 * (1.0 - b.ejectionFraction / 65.0);
    assert InDrawnRange(b) ==> 0.0 <= efTerm <= 25.0 * 30.0 / 65.0 < 11.6 by {
      if InDrawnRange(b) {
        assert 35.0 / 65.0 <= b.ejectionFraction / 65.0 <= 1.0;
      }
    }
    30.0 * (b.ncRatio - 1.5) + efTerm + 20.0 * b.trabeculationScore + p as real
  }

  /**
   The weights of the sum: it is 0 for NC ratio 1.5, ejection fraction 65,
   trabeculation 0 and no perturbation, and each unit of NC ratio adds 30, of
   ejection fraction removes 25/65, of trabeculation adds 20, of perturbation adds 1.
   */
  lemma RawScoreWeights(b: Biomarkers, p: int, d: real)
    ensures RawScore(Biomarkers(1.5, 65.0, 0.0), 0) == 0.0
    ensures RawScore(b.(ncRatio := b.ncRatio + d), p) == RawScore(b, p) + 30.0 * d
    ensures RawScore(b.(ejectionFraction := b.ejectionFraction + d), p) == RawScore(b, p) - 25.0 * d / 65.0
    ensures RawScore(b.(trabeculationScore := b.trabeculationScore + d), p) == RawScore(b, p) + 20.0 * d
    ensures RawScore(b, p + 1) == RawScore(b, p) + 1.0
  {
  }

  /** The risk score: the truncated weighted sum, capped at MaxScore. */
  function RiskScore(b: Biomarkers, p: int): (score: int)
    ensures score <= MaxScore
    ensures score <= Truncate(RawScore(b, p))
    ensures Truncate(RawScore(b, p)) < MaxScore ==> score == Truncate(RawScore(b, p))
    ensures score == MaxScore ==> MaxScore <= Truncate(RawScore(b, p))
    ensures MaxScore <= Truncate(RawScore(b, p)) ==> score == MaxScore
  {
    var t := Truncate(RawScore(b, p));
    if t < MaxScore then t else MaxScore
  }

  /** Truncation toward zero never decreases as its argument grows. */
  lemma TruncateMonotone(x: real, y: real)
    requires x <= y
    ensures Truncate(x) <= Truncate(y)
  {
    if y < 0.0 {
      assert (-y).Floor <= (-x).Floor;
    } else if x < 0.0 {
      assert Truncate(x) <= 0;
    }
  }

  /**
   On drawn inputs the weighted sum lies in [8, 83), so the cap never binds,
   truncation equals floor, and the score is the integer part of the sum, between 8 and 82.
   */
  lemma RiskScoreRange(b: Biomarkers, p: int)
    requires InDrawnRange(b)
    requires ValidPerturbation(p)
    ensures 8.0 <= RawScore(b, p) < 83.0
    ensures RiskScore(b, p) == RawScore(b, p).Floor
    ensures RiskScore(b, p) as real <= RawScore(b, p) < RiskScore(b, p) as real + 1.0
    ensures 8 <= RiskScore(b, p) <= 82
  {
  }

  /**
   The score is non-decreasing in the NC ratio, the trabeculation score and
   the perturbation, and non-increasing in the ejection fraction.
   */
  lemma RiskScoreMonotone(b1: Biomarkers, p1: int, b2: Biomarkers, p2: int)
    requires b1.ncRatio <= b2.ncRatio
    requires b2.ejectionFraction <= b1.ejectionFraction
    requires b1.trabeculationScore <= b2.trabeculationScore
    requires p1 <= p2
    ensures RiskScore(b1, p1) <= RiskScore(b2, p2)
  {
    assert b2.ejectionFraction / 65.0 <= b1.ejectionFraction / 65.0;
    assert RawScore(b1, p1) <= RawScore(b2, p2);
    TruncateMonotone(RawScore(b1, p1), RawScore(b2, p2));
  }

  /** The band shown on the risk metric card. */
  datatype MetricBand = HighRisk | ModerateRisk | LowRisk

  /** The band of the clinical recommendation text. */
  datatype Recommendation = UrgentReferral | ModerateSuspicion | LowProbability

  /** The metric-card band: above 60 "High Risk", above 40 "Moderate", else "Low". */
  function MetricCardBand(score: int): (band: MetricBand)
    ensures band == HighRisk <==> 60 < score
    ensures band == ModerateRisk <==> 40 < score <= 60
    ensures band == LowRisk <==> score <= 40
  {
    if score > 60 then HighRisk else if score > 40 then ModerateRisk else LowRisk
  }

  /** The recommendation band: above 70 urgent referral, above 45 moderate suspicion, else low probability. */
  function RecommendationBand(score: int): (r: Recommendation)
    ensures r == UrgentReferral <==> 70 < score
    ensures r == ModerateSuspicion <==> 45 < score <= 70
    ensures r == LowProbability <==> score <= 45
  {
    if score > 70 then UrgentReferral else if score > 45 then ModerateSuspicion else LowProbability
  }

  /** The text shown on the metric card for each band. */
  function MetricLabel(band: MetricBand): (text: string)
    ensures text == "High Risk" <==> band == HighRisk
    ensures text == "Moderate" <==> band == ModerateRisk
    ensures text == "Low" <==> band == LowRisk
  {
    match band
    case HighRisk => "High Risk"
    case ModerateRisk => "Moderate"
    case LowRisk => "Low"
  }

  /** The headline of each recommendation. */
  function Headline(r: Recommendation): (text: string)
    ensures text == "High Probability of LVNC Detected" <==> r == UrgentReferral
    ensures text == "Moderate Suspicion for LVNC" <==> r == ModerateSuspicion
    ensures text == "Low Probability of LVNC" <==> r == LowProbability
  {
    match r
    case UrgentReferral => "High Probability of LVNC Detected"
    case ModerateSuspicion => "Moderate Suspicion for LVNC"
    case LowProbability => "Low Probability of LVNC"
  }

  /**
   The clinical actions listed under each recommendation: an urgent referral
   only in the urgent case, a cardiac MRI in the urgent case and as a
   contingency in the moderate case, and routine follow-up only in the low case.
   */
  function ClinicalActions(r: Recommendation): (actions: seq<string>)
    ensures 2 <= |actions| <= 4
    ensures "Urgent cardiology referral" in actions <==> r == UrgentReferral
    ensures "Cardiac MRI with contrast" in actions <==> r == UrgentReferral
    ensures "Consider cardiac MRI if symptoms progress" in actions <==> r == ModerateSuspicion
    ensures "Routine follow-up if symptomatic" in actions <==> r == LowProbability
  {
    match r
    case UrgentReferral =>
      ["Urgent cardiology referral", "Cardiac MRI with contrast",
       "24-hour Holter monitoring", "Family screening advised"]
    case ModerateSuspicion =>
      ["Echocardiogram with contrast", "ECG and clinical evaluation",
       "Consider cardiac MRI if symptoms progress"]
    case LowProbability =>
      ["Routine follow-up if symptomatic", "Re-evaluate if new symptoms emerge"]
  }

  /** Severity of a band, 0 for the lowest and 2 for the highest. */
  function MetricSeverity(band: MetricBand): (s: nat) {
    match band
    case LowRisk => 0
    case ModerateRisk => 1
    case HighRisk => 2
  }

  /** Severity of a recommendation, 0 for low probability and 2 for urgent referral. */
  function RecommendationSeverity(r: Recommendation): (s: nat) {
    match r
    case LowProbability => 0
    case ModerateSuspicion => 1
    case UrgentReferral => 2
  }

  /** Both bands rise with the score. */
  lemma BandsMonotone(s: int, t: int)
    requires s <= t
    ensures MetricSeverity(MetricCardBand(s)) <= MetricSeverity(MetricCardBand(t))
    ensures RecommendationSeverity(RecommendationBand(s)) <= RecommendationSeverity(RecommendationBand(t))
  {
  }

  /**
   The two bands use different thresholds: the metric card is never less
   severe than the recommendation, at most one level more severe, and it is
   more severe exactly on the scores in (60, 70] and (40, 45].
   */
  lemma BandsDisagreement(score: int)
    ensures RecommendationSeverity(RecommendationBand(score)) <= MetricSeverity(MetricCardBand(score))
    ensures MetricSeverity(MetricCardBand(score)) <= RecommendationSeverity(RecommendationBand(score)) + 1
    ensures (MetricCardBand(score) == HighRisk && RecommendationBand(score) == ModerateSuspicion)
      <==> 60 < score <= 70
    ensures (MetricCardBand(score) == ModerateRisk && RecommendationBand(score) == LowProbability)
      <==> 40 < score <= 45
  {
  }

  /** The texts the user sees for a score, by the two separate threshold pairs. */
  lemma DisplayedTexts(score: int)
    ensures MetricLabel(MetricCardBand(score)) == "High Risk" <==> 60 < score
    ensures MetricLabel(MetricCardBand(score)) == "Moderate" <==> 40 < score <= 60
    ensures MetricLabel(MetricCardBand(score)) == "Low" <==> score <= 40
    ensures Headline(RecommendationBand(score)) == "High Probability of LVNC Detected" <==> 70 < score
    ensures Headline(RecommendationBand(score)) == "Moderate Suspicion for LVNC" <==> 45 < score <= 70
    ensures Headline(RecommendationBand(score)) == "Low Probability of LVNC" <==> score <= 45
    ensures "Urgent cardiology referral" in ClinicalActions(RecommendationBand(score)) <==> 70 < score
  {
  }

  /** The text shown beside the NC ratio. */
  function NcAdvisory(nc: real): (text: string)
    ensures text == ">2.0 suggests LVNC" <==> 2.0 < nc
    ensures text != ">2.0 suggests LVNC" ==> text == "Normal"
  {
    if nc > 2.0 then ">2.0 suggests LVNC" else "Normal"
  }

  /** The text shown beside the ejection fraction. */
  function EfAdvisory(ef: real): (text: string)
    ensures text == "Concern <40%" <==> ef < 40.0
    ensures text != "Concern <40%" ==> text == "Normal"
  {
    if ef < 40.0 then "Concern <40%" else "Normal"
  }

  /** The text shown beside the trabeculation score. */
  function TrabAdvisory(trab: real): (text: string)
    ensures text == "High" <==> 0.7 < trab
    ensures text != "High" ==> text == "Normal"
  {
    if trab > 0.7 then "High" else "Normal"
  }

  /** The three advisory texts of one result. */
  datatype Advisories = Advisories(nc: string, ef: string, trab: string)

  /** Each flag fires on its own marker's strict threshold and reads "Normal" otherwise. */
  function AdvisoryFlags(b: Biomarkers): (flags: Advisories)
    ensures flags.nc == ">2.0 suggests LVNC" <==> 2.0 < b.ncRatio
    ensures flags.ef == "Concern <40%" <==> b.ejectionFraction < 40.0
    ensures flags.trab == "High" <==> 0.7 < b.trabeculationScore
    ensures flags.nc != ">2.0 suggests LVNC" ==> flags.nc == "Normal"
    ensures flags.ef != "Concern <40%" ==> flags.ef == "Normal"
    ensures flags.trab != "High" ==> flags.trab == "Normal"
  {
    Advisories(NcAdvisory(b.ncRatio), EfAdvisory(b.ejectionFraction), TrabAdvisory(b.trabeculationScore))
  }

  /** Each advisory depends on its own biomarker only, never on the score or on the other markers. */
  lemma AdvisoriesAreLocal(b1: Biomarkers, b2: Biomarkers)
    ensures b1.ncRatio == b2.ncRatio ==> AdvisoryFlags(b1).nc == AdvisoryFlags(b2).nc
    ensures b1.ejectionFraction == b2.ejectionFraction ==> AdvisoryFlags(b1).ef == AdvisoryFlags(b2).ef
    ensures b1.trabeculationScore == b2.trabeculationScore ==> AdvisoryFlags(b1).trab == AdvisoryFlags(b2).trab
  {
  }

  /** Everything published after a scan. */
  datatype Assessment = Assessment(
    score: int,
    metric: MetricBand,
    recommendation: Recommendation,
    cardText: string,
    headline: string,
    actions: seq<string>,
    advisories: Advisories)

  /** The diagnostic stage: score the biomarkers and band the score twice, independently. */
  function Assess(b: Biomarkers, p: int): (a: Assessment)
    requires InDrawnRange(b)
    requires ValidPerturbation(p)
    ensures 8 <= a.score <= 82
    ensures a.score as real <= RawScore(b, p) < a.score as real + 1.0
    ensures a.metric == MetricCardBand(a.score)
    ensures a.recommendation == RecommendationBand(a.score)
    ensures a.cardText == MetricLabel(a.metric)
    ensures a.headline == Headline(a.recommendation)
    ensures a.actions == ClinicalActions(a.recommendation)
    ensures a.advisories == AdvisoryFlags(b)
  {
    var score := RiskScore(b, p);
    RiskScoreRange(b, p);
    var metric := MetricCardBand(score);
    var recommendation := RecommendationBand(score);
    Assessment(score, metric, recommendation, MetricLabel(metric), Headline(recommendation),
               ClinicalActions(recommendation), AdvisoryFlags(b))
  }

  /**
   A worked example: NC ratio 2.5, ejection fraction 35 and trabeculation 0.85
   give a sum of 58.54 before the perturbation, so 58 with perturbation 0
   (both bands moderate) and 72 with the largest perturbation, 14
   (metric card "High Risk", urgent referral). All three advisories fire.
   */
  lemma WorkedExample()
    ensures Assess(Biomarkers(2.5, 35.0, 0.85), 0).score == 58
    ensures Assess(Biomarkers(2.5, 35.0, 0.85), 0).metric == ModerateRisk
    ensures Assess(Biomarkers(2.5, 35.0, 0.85), 0).recommendation == ModerateSuspicion
    ensures Assess(Biomarkers(2.5, 35.0, 0.85), 0).cardText == "Moderate"
    ensures Assess(Biomarkers(2.5, 35.0, 0.85), 14).score == 72
    ensures Assess(Biomarkers(2.5, 35.0, 0.85), 14).metric == HighRisk
    ensures Assess(Biomarkers(2.5, 35.0, 0.85), 14).recommendation == UrgentReferral
    ensures Assess(Biomarkers(2.5, 35.0, 0.85), 14).cardText == "High Risk"
    ensures Assess(Biomarkers(2.5, 35.0, 0.85), 14).headline == "High Probability of LVNC Detected"
    ensures AdvisoryFlags(Biomarkers(2.5, 35.0, 0.85))
      == Advisories(">2.0 suggests LVNC", "Concern <40%", "High")
  {
    var b := Biomarkers(2.5, 35.0, 0.85);
    assert RawScore(b, 0) == 761.0 / 13.0;
    assert RawScore(b, 14) == 943.0 / 13.0;
  }
}
