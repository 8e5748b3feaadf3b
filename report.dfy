/** The results display of app.py: for each detection, in the detector's
    order, the page assesses its severity, looks up the recommended action
    and the reconstruction plan, shows a card, and appends one issue block
    to the list that becomes the downloadable report. */
module Report {
  import opened Wrappers
  import opened Severity
  import opened Recommendation
  import opened Reconstruction
  import opened Joining

  /** One detector box: the class label the model names and its confidence. */
  datatype Detection = Detection(labelName: string, confidence: real)

  /** What the page shows for one detection: the "Damage i" box, the
      progress bar's score (inside the assessment) and the expander's plan. */
  datatype Card = Card(damage: nat, kind: string, confidence: real, assessment: Assessment, action: string, plan: Plan)

  /** Separator placed between issue blocks by `"\n\n".join(issues)`. */
  const BLOCK_SEPARATOR: string := "\n\n"

  /** The report text before the timestamp. */
  const HEADER_TOP: string := "\nROAD CONDITION ANALYSIS REPORT\n------------------------------\nDate & Time: "

  /** The report text between the timestamp and the first issue block. */
  const HEADER_BOTTOM: string := "\n\nDetected Issues:\n----------------\n"

  /** The f-string of one issue block: `KIND | Severity: T`, then
      `Condition: E` and `Action: A` on their own lines. */
  function BlockText(kind: string, severity: string, condition: string, action: string): string
  {
    kind + " | Severity: " + severity + "\nCondition: " + condition + "\nAction: " + action
  }

  /** The card of the detection at zero-based position `i`. The severity is
      always a tier name, so the plan lookup cannot raise here. */
  function CardOf(i: nat, d: Detection, upper: string -> string): (c: Card)
    ensures c.damage == i + 1
    ensures c.kind == upper(d.labelName) && c.confidence == d.confidence
    ensures InBand(c.assessment.tier, d.confidence)
    ensures c.assessment == TierAssessment(c.assessment.tier)
    ensures c.action == Recommend(d.labelName, TierName(c.assessment.tier))
    ensures ReconstructionSteps(TierName(c.assessment.tier)) == Success(c.plan)
    ensures NumberedFromOne(c.plan.steps) && |c.plan.steps| == StepCount(c.assessment.tier)
  {
    var a := AssessSeverity(d.confidence);
    PlanOfTier(a.tier);
    Card(i + 1, upper(d.labelName), d.confidence, a, Recommend(d.labelName, a.name),
      ReconstructionSteps(a.name).value)
  }

  /** The cards of the detections, numbered from 1 in input order. */
  function Cards(ds: seq<Detection>, upper: string -> string): (cards: seq<Card>)
    ensures |cards| == |ds|
  {
    seq(|ds|, k requires 0 <= k < |ds| => CardOf(k, ds[k], upper))
  }

  /** The issue block appended for a card: the kind, severity, condition
      and action the card shows. */
  function BlockOf(c: Card): string
  {
    BlockText(c.kind, c.assessment.name, c.assessment.explanation, c.action)
  }

  /** The `issues` list: one block per card, in card order. */
  function IssueBlocks(cards: seq<Card>): (issues: seq<string>)
    ensures |issues| == |cards|
  {
    seq(|cards|, k requires 0 <= k < |cards| => BlockOf(cards[k]))
  }

  /** The cards of one more detection: the earlier cards, then its own. */
  lemma CardsSnoc(ds: seq<Detection>, i: nat, upper: string -> string)
    requires i < |ds|
    ensures Cards(ds[..i + 1], upper) == Cards(ds[..i], upper) + [CardOf(i, ds[i], upper)]
  {
    var l, r := Cards(ds[..i + 1], upper), Cards(ds[..i], upper) + [CardOf(i, ds[i], upper)];
    assert |l| == |r|;
    forall k | 0 <= k < |l| ensures l[k] == r[k] {
      assert ds[..i + 1][k] == ds[k];
    }
  }

  /** The report header around the timestamp. */
  function Header(timestamp: string): string
  {
    HEADER_TOP + timestamp + HEADER_BOTTOM
  }

  /** `report_text`: the fixed header followed by the joined issue blocks. */
  function ReportText(timestamp: string, issues: seq<string>): string
  {
    Header(timestamp) + Join(issues, BLOCK_SEPARATOR)
  }

  /** No detections: the report is the header alone. */
  lemma EmptyReport(timestamp: string, upper: string -> string)
    ensures ReportText(timestamp, IssueBlocks(Cards([], upper))) == Header(timestamp)
  {
  }

  /** Issue `i` sits in the report right after the header, the earlier
      issues and their separators. */
  lemma ReportPartAt(timestamp: string, issues: seq<string>, i: nat)
    requires i < |issues|
    ensures var start := |Header(timestamp)| + Offset(issues, BLOCK_SEPARATOR, i);
      && start + |issues[i]| <= |ReportText(timestamp, issues)|
      && ReportText(timestamp, issues)[start..start + |issues[i]|] == issues[i]
  {
    var h, j := Header(timestamp), Join(issues, BLOCK_SEPARATOR);
    assert ReportText(timestamp, issues) == h + j;
    PartAt(issues, BLOCK_SEPARATOR, i);
    SliceAfterPrefix(h, j, Offset(issues, BLOCK_SEPARATOR, i), |issues[i]|);
  }

  /** With at least one issue, the last issue block ends the report: no
      separator or other text follows it. */
  lemma ReportEndsWithLast(timestamp: string, issues: seq<string>)
    requires |issues| > 0
    ensures |Header(timestamp)| + Offset(issues, BLOCK_SEPARATOR, |issues| - 1) + |issues[|issues| - 1]|
      == |ReportText(timestamp, issues)|
  {
    LastPartEnds(issues, BLOCK_SEPARATOR);
  }

  /** Consecutive issue blocks are separated by exactly one blank line. */
  lemma ReportSeparatorAfter(timestamp: string, issues: seq<string>, i: nat)
    requires i + 1 < |issues|
    ensures var stop := |Header(timestamp)| + Offset(issues, BLOCK_SEPARATOR, i) + |issues[i]|;
      && stop + 2 <= |ReportText(timestamp, issues)|
      && ReportText(timestamp, issues)[stop..stop + 2] == "\n\n"
  {
    var h, j := Header(timestamp), Join(issues, BLOCK_SEPARATOR);
    assert ReportText(timestamp, issues) == h + j;
    SeparatorAfter(issues, BLOCK_SEPARATOR, i);
    SliceAfterPrefix(h, j, Offset(issues, BLOCK_SEPARATOR, i) + |issues[i]|, |BLOCK_SEPARATOR|);
  }

  /** The block of detection `i` sits in the report at the position of
      issue `i`. */
  lemma ReportBlockAt(timestamp: string, ds: seq<Detection>, upper: string -> string, i: nat)
    requires i < |ds|
    ensures var issues := IssueBlocks(Cards(ds, upper));
      var start := |Header(timestamp)| + Offset(issues, BLOCK_SEPARATOR, i);
      && start + |issues[i]| <= |ReportText(timestamp, issues)|
      && ReportText(timestamp, issues)[start..start + |issues[i]|] == BlockOf(CardOf(i, ds[i], upper))
  {
    ReportPartAt(timestamp, IssueBlocks(Cards(ds, upper)), i);
  }

  /** A block's text agrees with the classifier and the recommendation
      table: its tier is the one whose band holds the confidence, and its
      action is the table entry for a known label and the default otherwise. */
  lemma IssueBlockAgrees(i: nat, d: Detection, upper: string -> string)
    ensures exists t: Tier ::
      && InBand(t, d.confidence)
      && BlockOf(CardOf(i, d, upper)) ==
        upper(d.labelName) + " | Severity: " + TierName(t)
        + "\nCondition: " + TierAssessment(t).explanation
        + "\nAction: " + (match ParseDefect(d.labelName)
                          case Some(defect) => Action(defect, t)
                          case None => DEFAULT_ACTION)
  {
    var a := AssessSeverity(d.confidence);
    RecommendCharacterised(d.labelName, a.name);
    assert ParseTier(a.name) == Some(a.tier);
    assert InBand(a.tier, d.confidence);
  }

  /** The `for i, box in enumerate(boxes)` loop: one card and one issue
      block per detection, in order. */
  method AssessAll(ds: seq<Detection>, upper: string -> string)
    returns (issues: seq<string>, cards: seq<Card>)
    ensures cards == Cards(ds, upper)
    ensures issues == IssueBlocks(cards)
  {
    assert ds[..|ds|] == ds;
    issues, cards := [], [];
    var i := 0;
    while i < |ds|
      invariant 0 <= i <= |ds|
      invariant cards == Cards(ds[..i], upper)
      invariant issues == IssueBlocks(cards)
    {
      var d := ds[i];
      var a := AssessSeverity(d.confidence);
      var action := Recommend(d.labelName, a.name);
      var block := BlockText(upper(d.labelName), a.name, a.explanation, action);
      PlanOfTier(a.tier);
      var plan := ReconstructionSteps(a.name).value;
      var card := Card(i + 1, upper(d.labelName), d.confidence, a, action, plan);
      assert card == CardOf(i, d, upper);
      CardsSnoc(ds, i, upper);
      assert IssueBlocks(cards + [card]) == IssueBlocks(cards) + [block];
      issues := issues + [block];
      cards := cards + [card];
      i := i + 1;
    }
  }

  /** The results section: the cards the page shows and the `report_text`
      it stores, from the boxes of the first result. */
  method DisplayResults(boxes: Option<seq<Detection>>, upper: string -> string, timestamp: string)
    returns (cards: seq<Card>, report: string)
    ensures boxes.None? ==> cards == [] && report == Header(timestamp)
    ensures boxes.Some? ==> cards == Cards(boxes.value, upper)
    ensures report == ReportText(timestamp, IssueBlocks(cards))
  {
    var issues: seq<string> := [];
    cards := [];
    if boxes.Some? && |boxes.value| > 0 {
      issues, cards := AssessAll(boxes.value, upper);
    }
    report := HEADER_TOP + timestamp + HEADER_BOTTOM + Join(issues, BLOCK_SEPARATOR);
  }
}
