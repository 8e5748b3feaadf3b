/** The maintenance recommendation `recommendation(label, severity)` of
    app.py: a nested table keyed by defect label and tier name, read with
    two `.get` calls so that any missing key yields the default action. */
module Recommendation {
  import opened Wrappers
  import opened Severity

  /** The defect classes the table knows. */
  datatype Defect = Crack | Pothole | Manhole

  /** The labels of the defect classes. */
  const CRACK_LABEL: string := "crack"
  const POTHOLE_LABEL: string := "pothole"
  const MANHOLE_LABEL: string := "manhole"

  /** The action returned when the label or the severity is not in the table. */
  const DEFAULT_ACTION: string := "Standard maintenance recommended."

  /** The nine actions of the table. */
  const CRACK_LOW: string := "Seal cracks to prevent water penetration."
  const CRACK_MODERATE: string := "Crack filling followed by surface overlay."
  const CRACK_SEVERE: string := "Immediate resurfacing required."
  const POTHOLE_LOW: string := "Temporary patch repair recommended."
  const POTHOLE_MODERATE: string := "Permanent patch repair with compaction."
  const POTHOLE_SEVERE: string := "Urgent full-depth reconstruction required."
  const MANHOLE_LOW: string := "Routine inspection advised."
  const MANHOLE_MODERATE: string := "Level adjustment and reinforcement needed."
  const MANHOLE_SEVERE: string := "Immediate structural correction required."

  /** The `actions` dictionary, keyed first by label, then by tier name. */
  const ACTIONS: map<string, map<string, string>> := map[
    CRACK_LABEL := map[
      LOW_NAME := CRACK_LOW,
      MODERATE_NAME := CRACK_MODERATE,
      SEVERE_NAME := CRACK_SEVERE],
    POTHOLE_LABEL := map[
      LOW_NAME := POTHOLE_LOW,
      MODERATE_NAME := POTHOLE_MODERATE,
      SEVERE_NAME := POTHOLE_SEVERE],
    MANHOLE_LABEL := map[
      LOW_NAME := MANHOLE_LOW,
      MODERATE_NAME := MANHOLE_MODERATE,
      SEVERE_NAME := MANHOLE_SEVERE]]

  /** `actions.get(label, {}).get(severity, default)`. */
  function Recommend(labelName: string, severity: string): string
  {
    var row := if labelName in ACTIONS then ACTIONS[labelName] else map[];
    if severity in row then row[severity] else DEFAULT_ACTION
  }

  /** The label the detector model reports for each known defect class. */
  function DefectLabel(d: Defect): string
  {
    match d
    case Crack => CRACK_LABEL
    case Pothole => POTHOLE_LABEL
    case Manhole => MANHOLE_LABEL
  }

  /** The defect class a label names, if any. */
  function ParseDefect(labelName: string): (r: Option<Defect>)
    ensures r.Some? ==> DefectLabel(r.value) == labelName
    ensures forall d: Defect :: DefectLabel(d) == labelName ==> r == Some(d)
  {
    if labelName == CRACK_LABEL then Some(Crack)
    else if labelName == POTHOLE_LABEL then Some(Pothole)
    else if labelName == MANHOLE_LABEL then Some(Manhole)
    else None
  }

  /** The tier a tier name denotes, if any. */
  function ParseTier(severity: string): (r: Option<Tier>)
    ensures r.Some? ==> TierName(r.value) == severity
    ensures forall t: Tier :: TierName(t) == severity ==> r == Some(t)
  {
    if severity == LOW_NAME then Some(Low)
    else if severity == MODERATE_NAME then Some(Moderate)
    else if severity == SEVERE_NAME then Some(Severe)
    else None
  }

  /** The nine table entries, written out as a reference definition over the
      closed enumerations. */
  function Action(d: Defect, t: Tier): (r: string)
    ensures r != DEFAULT_ACTION
  {
    match (d, t)
    case (Crack, Low) => CRACK_LOW
    case (Crack, Moderate) => CRACK_MODERATE
    case (Crack, Severe) => CRACK_SEVERE
    case (Pothole, Low) => POTHOLE_LOW
    case (Pothole, Moderate) => POTHOLE_MODERATE
    case (Pothole, Severe) => POTHOLE_SEVERE
    case (Manhole, Low) => MANHOLE_LOW
    case (Manhole, Moderate) => MANHOLE_MODERATE
    case (Manhole, Severe) => MANHOLE_SEVERE
  }

  /** The table holds exactly the three labels, each with exactly the three
      tier names. */
  lemma TableKeys()
    ensures ACTIONS.Keys == {CRACK_LABEL, POTHOLE_LABEL, MANHOLE_LABEL}
    ensures forall labelName :: labelName in ACTIONS ==> ACTIONS[labelName].Keys == {LOW_NAME, MODERATE_NAME, SEVERE_NAME}
  {
  }

  /** A known label with a known tier name reads its table entry. */
  lemma RecommendKnown(d: Defect, t: Tier)
    ensures Recommend(DefectLabel(d), TierName(t)) == Action(d, t)
  {
  }

  /** Any label or severity outside the table gives the default action. */
  lemma RecommendUnknown(labelName: string, severity: string)
    requires ParseDefect(labelName).None? || ParseTier(severity).None?
    ensures Recommend(labelName, severity) == DEFAULT_ACTION
  {
  }

  /** `recommendation` is total, and it is exactly the reference table on
      known pairs and the default elsewhere. */
  lemma RecommendCharacterised(labelName: string, severity: string)
    ensures Recommend(labelName, severity) ==
      match (ParseDefect(labelName), ParseTier(severity))
      case (Some(d), Some(t)) => Action(d, t)
      case _ => DEFAULT_ACTION
  {
    match (ParseDefect(labelName), ParseTier(severity))
    case (Some(d), Some(t)) =>
      RecommendKnown(d, t);
    case _ =>
      RecommendUnknown(labelName, severity);
  }

  /** The default action is returned exactly when the pair is not in the
      table. */
  lemma DefaultIffUnknown(labelName: string, severity: string)
    ensures Recommend(labelName, severity) == DEFAULT_ACTION <==>
      ParseDefect(labelName).None? || ParseTier(severity).None?
  {
    RecommendCharacterised(labelName, severity);
  }

  /** Two concrete calls: a severe pothole and an unknown label. */
  lemma Examples()
    ensures Recommend("pothole", "Severe") == "Urgent full-depth reconstruction required."
    ensures Recommend("unknown_label", "Low") == DEFAULT_ACTION
    ensures Recommend("crack", "severe") == DEFAULT_ACTION
  {
  }
}
