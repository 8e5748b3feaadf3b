/** The severity classifier `assess_severity` of app.py: a detection's
    confidence is split into three tiers by two fixed thresholds, and each
    tier carries a fixed assessment (name, CSS class, progress score and
    explanation). */
module Severity {

  /** The three severity tiers, in increasing order of severity. */
  datatype Tier = Low | Moderate | Severe

  /** The tuple `(severity, css, score, explanation)` returned by
      `assess_severity`; `name` is the tier's display name. */
  datatype Assessment = Assessment(tier: Tier, name: string, style: string, score: real, explanation: string)

  /** Lowest confidence classified Moderate (the first `conf < 0.40` test). */
  const MODERATE_THRESHOLD: real := 0.40
  /** Lowest confidence classified Severe (the second `conf < 0.70` test). */
  const SEVERE_THRESHOLD: real := 0.70

  /** Position of a tier in the order Low < Moderate < Severe. */
  function Rank(t: Tier): (r: nat)
    ensures r < 3
  {
    match t
    case Low => 0
    case Moderate => 1
    case Severe => 2
  }

  /** The tier names. */
  const LOW_NAME: string := "Low"
  const MODERATE_NAME: string := "Moderate"
  const SEVERE_NAME: string := "Severe"

  /** The string the page uses for a tier, both on screen and as the key of
      the recommendation and reconstruction tables. */
  function TierName(t: Tier): string
  {
    match t
    case Low => LOW_NAME
    case Moderate => MODERATE_NAME
    case Severe => SEVERE_NAME
  }

  /** The explanations shown for each tier. */
  const LOW_EXPLANATION: string := "Minor surface damage with no immediate safety risk."
  const MODERATE_EXPLANATION: string := "Damage may worsen and affect ride quality."
  const SEVERE_EXPLANATION: string := "Critical damage posing serious safety risks."

  /** The fixed tuple each tier of `assess_severity` returns. */
  function TierAssessment(t: Tier): (a: Assessment)
    ensures a.tier == t && a.name == TierName(t)
  {
    match t
    case Low => Assessment(Low, LOW_NAME, "low", 0.3, LOW_EXPLANATION)
    case Moderate => Assessment(Moderate, MODERATE_NAME, "moderate", 0.6, MODERATE_EXPLANATION)
    case Severe => Assessment(Severe, SEVERE_NAME, "severe", 0.9, SEVERE_EXPLANATION)
  }

  /** The half-open confidence band each tier covers. */
  predicate InBand(t: Tier, conf: real)
  {
    match t
    case Low => conf < MODERATE_THRESHOLD
    case Moderate => MODERATE_THRESHOLD <= conf < SEVERE_THRESHOLD
    case Severe => SEVERE_THRESHOLD <= conf
  }

  /** `assess_severity(conf)`: the if/elif/else chain of two strict
      comparisons. The result is the fixed tuple of the tier whose band
      holds `conf`. */
  function AssessSeverity(conf: real): (a: Assessment)
    ensures a == TierAssessment(a.tier)
    ensures InBand(a.tier, conf)
  {
    if conf < MODERATE_THRESHOLD then TierAssessment(Low)
    else if conf < SEVERE_THRESHOLD then TierAssessment(Moderate)
    else TierAssessment(Severe)
  }

  /** The bands are pairwise disjoint and cover every real: each confidence
      lies in exactly one band, and that band's tier is the one chosen. */
  lemma BandsPartition(conf: real, t: Tier)
    ensures InBand(t, conf) <==> AssessSeverity(conf).tier == t
  {
  }

  /** The thresholds belong to the upper band: exactly 0.40 is Moderate and
      exactly 0.70 is Severe; the ends of [0, 1] are Low and Severe. */
  lemma Boundaries()
    ensures AssessSeverity(0.0).tier == Low
    ensures AssessSeverity(0.39).tier == Low
    ensures AssessSeverity(0.40).tier == Moderate
    ensures AssessSeverity(0.69).tier == Moderate
    ensures AssessSeverity(0.70).tier == Severe
    ensures AssessSeverity(1.0).tier == Severe
  {
  }

  /** A higher confidence never gives a lower tier. */
  lemma Monotone(c1: real, c2: real)
    requires c1 <= c2
    ensures Rank(AssessSeverity(c1).tier) <= Rank(AssessSeverity(c2).tier)
  {
  }

  /** The progress score lies in [0, 1] and strictly increases with the tier. */
  lemma ScoreOrdered(t1: Tier, t2: Tier)
    ensures 0.0 <= TierAssessment(t1).score <= 1.0
    ensures Rank(t1) < Rank(t2) <==> TierAssessment(t1).score < TierAssessment(t2).score
  {
  }

  /** ASCII lower-casing of one character. */
  function LowerChar(c: char): char
  {
    if 'A' <= c <= 'Z' then (c as int + 32) as char else c
  }

  /** ASCII lower-casing, enough for the tier names. */
  function ToLower(s: string): (r: string)
    ensures |r| == |s|
    ensures forall i :: 0 <= i < |s| ==> r[i] == LowerChar(s[i])
  {
    if s == [] then [] else [LowerChar(s[0])] + ToLower(s[1..])
  }

  /** `ToLower(s)` is `r` as soon as the characters agree one by one. */
  lemma LowerEach(s: string, r: string)
    requires |s| == |r|
    requires forall i :: 0 <= i < |s| ==> LowerChar(s[i]) == r[i]
    ensures ToLower(s) == r
  {
  }

  /** The CSS class of every tier is its display name in lower case. */
  lemma StyleIsLowerName(t: Tier)
    ensures TierAssessment(t).style == ToLower(TierName(t))
  {
    match t
    case Low =>
      assert LowerChar('L') == 'l';
      LowerEach("Low", "low");
    case Moderate =>
      assert LowerChar('M') == 'm';
      LowerEach("Moderate", "moderate");
    case Severe =>
      assert LowerChar('S') == 's';
      LowerEach("Severe", "severe");
  }

  /** Tier names are distinct, so the name identifies the tier. */
  lemma TierNameInjective(t1: Tier, t2: Tier)
    ensures TierName(t1) == TierName(t2) <==> t1 == t2
  {
    if t1 != t2 {
      assert TierName(t1)[0] != TierName(t2)[0];
    }
  }
}
