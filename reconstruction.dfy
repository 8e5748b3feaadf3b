/** The reconstruction plan lookup `reconstruction_steps(severity)` of
    app.py: a dictionary indexed by tier name, holding for each tier a
    titled, numbered list of remediation steps. Indexing a missing key
    raises `KeyError`. */
module Reconstruction {
  import opened Wrappers
  import opened Severity

  /** One numbered line of a plan, such as `2. Cleaning debris`. */
  datatype Step = Step(number: nat, action: string)

  /** A plan: its bold heading and its steps in order. */
  datatype Plan = Plan(title: string, steps: seq<Step>)

  /** The failure of the dictionary lookup, carrying the missing key. */
  datatype LookupError = KeyError(key: string)

  /** The plan for low severity. */
  const LOW_PLAN: Plan := Plan("Reconstruction Process (Low Severity)", [
    Step(1, "Visual inspection"),
    Step(2, "Cleaning debris"),
    Step(3, "Crack sealing / minor patching"),
    Step(4, "Periodic monitoring")])

  /** The plan for moderate severity. */
  const MODERATE_PLAN: Plan := Plan("Reconstruction Process (Moderate Severity)", [
    Step(1, "Detailed site inspection"),
    Step(2, "Marking damaged zones"),
    Step(3, "Crack filling / patch repair"),
    Step(4, "Surface overlay"),
    Step(5, "Compaction and leveling")])

  /** The plan for severe severity. */
  const SEVERE_PLAN: Plan := Plan("Reconstruction Process (Severe Severity)", [
    Step(1, "Traffic diversion and safety barricades"),
    Step(2, "Removal of damaged layers"),
    Step(3, "Structural base repair"),
    Step(4, "Full resurfacing"),
    Step(5, "Quality and load inspection")])

  /** The dictionary literal of `reconstruction_steps`. */
  const PLANS: map<string, Plan> := map[LOW_NAME := LOW_PLAN, MODERATE_NAME := MODERATE_PLAN, SEVERE_NAME := SEVERE_PLAN]

  /** `{...}[severity]`: the plan stored under the key, or `KeyError`. */
  function ReconstructionSteps(severity: string): (r: Result<Plan, LookupError>)
    ensures r.Failure? ==> r.error == KeyError(severity)
  {
    if severity in PLANS then Success(PLANS[severity]) else Failure(KeyError(severity))
  }

  /** The steps of a plan carry the numbers 1, 2, ..., n in order. */
  predicate NumberedFromOne(steps: seq<Step>)
  {
    forall i :: 0 <= i < |steps| ==> steps[i].number == i + 1
  }

  /** How many steps each tier's plan has. */
  function StepCount(t: Tier): nat
  {
    match t
    case Low => 4
    case Moderate => 5
    case Severe => 5
  }

  /** The lookup succeeds exactly for the three tier names. */
  lemma DefinedExactlyOnTierNames(severity: string)
    ensures ReconstructionSteps(severity).Success? <==> exists t: Tier :: TierName(t) == severity
  {
    if severity in PLANS {
      var t := if severity == LOW_NAME then Low else if severity == MODERATE_NAME then Moderate else Severe;
      assert TierName(t) == severity;
    }
  }

  /** Every tier's plan is found and numbers its steps 1..n, with n = 4 for
      Low and 5 for Moderate and Severe. */
  lemma PlanOfTier(t: Tier)
    ensures ReconstructionSteps(TierName(t)).Success?
    ensures var plan := ReconstructionSteps(TierName(t)).value;
      |plan.steps| == StepCount(t) && NumberedFromOne(plan.steps)
  {
    match t
    case Low => LowPlan();
    case Moderate => ModeratePlan();
    case Severe => SeverePlan();
  }

  /** Every tier's plan is headed by the tier's name. */
  lemma PlanTitle(t: Tier)
    ensures ReconstructionSteps(TierName(t)).Success?
    ensures ReconstructionSteps(TierName(t)).value.title == "Reconstruction Process (" + TierName(t) + " Severity)"
  {
    match t
    case Low => LowPlan();
    case Moderate => ModeratePlan();
    case Severe => SeverePlan();
  }

  /** The Low plan: four numbered steps. */
  lemma LowPlan()
    ensures "Low" in PLANS
    ensures PLANS["Low"].title == "Reconstruction Process (" + "Low" + " Severity)"
    ensures |PLANS["Low"].steps| == 4 && NumberedFromOne(PLANS["Low"].steps)
  {
  }

  /** The Moderate plan: five numbered steps. */
  lemma ModeratePlan()
    ensures "Moderate" in PLANS
    ensures PLANS["Moderate"].title == "Reconstruction Process (" + "Moderate" + " Severity)"
    ensures |PLANS["Moderate"].steps| == 5 && NumberedFromOne(PLANS["Moderate"].steps)
  {
  }

  /** The Severe plan: five numbered steps. */
  lemma SeverePlan()
    ensures "Severe" in PLANS
    ensures PLANS["Severe"].title == "Reconstruction Process (" + "Severe" + " Severity)"
    ensures |PLANS["Severe"].steps| == 5 && NumberedFromOne(PLANS["Severe"].steps)
  {
  }

  /** Any other key fails with `KeyError`, as in `reconstruction_steps("severe")`. */
  lemma UnknownKeyFails()
    ensures ReconstructionSteps("severe") == Failure(KeyError("severe"))
    ensures ReconstructionSteps("") == Failure(KeyError(""))
  {
  }
}
