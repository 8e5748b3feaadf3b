# Road Surface Assessment — decision core

A model of the decision logic of the Road Surface Assessment Streamlit page
(`app.py`). The page runs an object detector on a road photograph. For every
detected box (a defect label such as `crack`, `pothole` or `manhole`, and a
confidence) it then:

- classifies the confidence into a severity tier (Low, Moderate, Severe),
  each with a fixed style tag, progress score and explanation;
- looks up a recommended action in a 3×3 table keyed by label and tier name,
  with a default action for anything outside the table;
- looks up the reconstruction plan of the tier, a titled list of numbered
  steps;
- shows a card ("Damage i") and appends one issue block
  `LABEL | Severity: T\nCondition: E\nAction: A` to a list.

Finally it builds the downloadable report: a fixed header with the date and
time, followed by the issue blocks joined by a blank line.

The modules follow that structure:

- `Severity` (`severity.dfy`): the classifier.
- `Recommendation` (`recommendation.dfy`): the action table.
- `Reconstruction` (`reconstruction.dfy`): the plan table.
- `Joining` (`joining.dfy`): Python's `sep.join` and where each part lands.
- `Report` (`report.dfy`): the display loop and the report text.
- `Wrappers` (`wrappers.dfy`): `Option` and `Result`.

The three helpers are pure, so they are functions. The display loop appends
to `issues` one detection at a time, so it is a method with a `while` loop
(`Report.AssessAll`). That method is proved equal to a per-detection mapping
(`Report.Cards`, `Report.IssueBlocks`). `Report.DisplayResults` adds the
no-boxes branch and the report concatenation.

Confidence is a `real`. The code only compares it against 0.40 and 0.70, so
no floating-point arithmetic is involved; how a double maps to a real is
stated under "## Left out". The plan lookup's `KeyError` is an
explicit `Failure(KeyError(key))`. Two things come in as parameters:

- the timestamp (`datetime.now()` in the source) is a string parameter;
- `str.upper()` is a function parameter `upper`.

## Model

| member | source | states |
|---|---|---|
| Severity.InBand | app.py:75-79 | the band of each tier (below 0.40, from 0.40 below 0.70, from 0.70); no contract of its own — `BandsPartition` proves the bands partition the reals and agree with `AssessSeverity` |
| Severity.AssessSeverity | app.py:74-80 | the result is the fixed tuple of one tier, and that tier's band (below 0.40, from 0.40 below 0.70, from 0.70) holds the confidence |
| Severity.TierAssessment | app.py:76-80 | each tier's fixed tuple carries that tier and its name |
| Severity.BandsPartition | app.py:74-80 | a confidence lies in a tier's band exactly when the classifier returns that tier, so the three bands partition the reals |
| Severity.Boundaries | app.py:75-80 | 0.0 and 0.39 are Low; exactly 0.40 and 0.69 are Moderate; exactly 0.70 and 1.0 are Severe |
| Severity.Monotone | app.py:75-80 | a higher confidence never gives a lower tier in the order Low < Moderate < Severe |
| Severity.ScoreOrdered | app.py:76-80 | every progress score lies in [0, 1], and one tier's score is below another's exactly when its tier is lower |
| Severity.StyleIsLowerName | app.py:76-80 | the style tag is the lower-case tier name |
| Severity.TierNameInjective | app.py:76-80 | two tiers have the same name only when they are the same tier |
| Recommendation.Recommend | app.py:82-100 | the nested `.get` lookup with the default; no contract of its own — `RecommendCharacterised` and `DefaultIffUnknown` characterise it on every label and severity |
| Recommendation.ParseDefect | app.py:84-94 | a label is recognised exactly when it is one of the three table labels, and it is read back as that defect |
| Recommendation.ParseTier | app.py:85-87 | a severity string is recognised exactly when it is one of the three tier names, and it is read back as that tier |
| Recommendation.Action | app.py:84-98 | no table entry equals the default action |
| Recommendation.TableKeys | app.py:83-99 | the table has exactly the labels crack, pothole and manhole, and each row has exactly the three tier names |
| Recommendation.RecommendKnown | app.py:83-100 | a known label with a tier name gives that table entry |
| Recommendation.RecommendUnknown | app.py:100 | an unknown label or an unknown severity gives "Standard maintenance recommended." |
| Recommendation.RecommendCharacterised | app.py:82-100 | the lookup is total: the table entry when label and severity are both known, and the default otherwise |
| Recommendation.DefaultIffUnknown | app.py:82-100 | the default is returned exactly when the label or the severity is unknown |
| Recommendation.Examples | app.py:89-100 | pothole with Severe gives "Urgent full-depth reconstruction required."; an unknown label and the lower-case "severe" both give the default |
| Reconstruction.ReconstructionSteps | app.py:102-127 | a failed lookup reports the missing key |
| Reconstruction.DefinedExactlyOnTierNames | app.py:102-127 | the plan lookup succeeds exactly on the three tier names |
| Reconstruction.PlanOfTier | app.py:102-127 | each tier has a plan whose steps are numbered 1..n in order, with n = 4 for Low and 5 for Moderate and Severe |
| Reconstruction.PlanTitle | app.py:104-126 | each plan is titled "Reconstruction Process (T Severity)" for its tier name T |
| Reconstruction.LowPlan | app.py:104-110 | the Low plan has its title and four steps numbered 1 to 4 |
| Reconstruction.ModeratePlan | app.py:111-118 | the Moderate plan has its title and five steps numbered 1 to 5 |
| Reconstruction.SeverePlan | app.py:119-126 | the Severe plan has its title and five steps numbered 1 to 5 |
| Reconstruction.UnknownKeyFails | app.py:127 | the lower-case "severe" and the empty string raise a key error |
| Joining.Join | app.py:227 | `sep.join(parts)`; no contract of its own — `PartAt`, `SeparatorAfter` and `LastPartEnds` together pin the joined string down as part 0, separator, part 1, ..., part n-1 |
| Joining.Offset | app.py:227 | where each part starts in the join; no contract of its own — `OffsetNext` relates consecutive offsets and `PartAt` places each part at its offset |
| Joining.OffsetNext | app.py:227 | in a join, each part starts right after the previous part and one separator |
| Joining.PartAt | app.py:227 | every part occurs in the join at its offset |
| Joining.SeparatorAfter | app.py:227 | every part but the last is followed by exactly one separator |
| Joining.LastPartEnds | app.py:227 | the last part ends the join |
| Report.CardOf | app.py:186-214 | a card is numbered one past its position and shows the upper-cased label and the detection's confidence; its assessment is the fixed tuple of the tier whose band holds the confidence; its action is the table lookup for the label and that tier's name; its plan is what the plan lookup returns for that tier name, which always succeeds and is numbered 1..n |
| Report.BlockText | app.py:193-197 | the issue f-string: the kind and its severity on one line, then the condition and the action on a line each; no contract of its own — `IssueBlockAgrees` states the text of every block |
| Report.BlockOf | app.py:193-197 | the issue block of a card, built from the same kind, severity, explanation and action the card shows; no contract of its own — `IssueBlockAgrees` and `ReportBlockAt` state its text and its place in the report |
| Report.Cards | app.py:185 | one card per detection |
| Report.IssueBlocks | app.py:193-197 | one issue block per card |
| Report.CardsSnoc | app.py:185 | the cards of one more detection are the earlier cards followed by the card of the new detection |
| Report.AssessAll | app.py:185-197 | the loop produces exactly the per-detection cards, in input order, and exactly one issue block per card |
| Report.DisplayResults | app.py:181-227 | with no box list there are no cards and the report is the header alone; with a box list (empty or not) the cards are the per-detection cards; in every case the report is the header followed by the issue blocks of the cards, joined |
| Report.Header | app.py:220-227 | the fixed report header around the timestamp; no contract of its own — `EmptyReport` and `ReportPartAt` place it at the start of the report |
| Report.ReportText | app.py:220-227 | header followed by `"\n\n".join(issues)`; no contract of its own — `ReportPartAt`, `ReportSeparatorAfter` and `ReportEndsWithLast` pin the report text down |
| Report.EmptyReport | app.py:220-227 | with no detections, the report is the header alone |
| Report.ReportPartAt | app.py:220-227 | each issue block occurs in the report after the header, the earlier blocks and their separators |
| Report.ReportSeparatorAfter | app.py:227 | consecutive issue blocks in the report are separated by exactly "\n\n" |
| Report.ReportEndsWithLast | app.py:227 | the last issue block ends the report |
| Report.ReportBlockAt | app.py:185-227 | the report's block for detection i is the issue block of that detection's card |
| Report.IssueBlockAgrees | app.py:190-197 | a block shows the upper-cased label, the tier whose band holds the confidence, that tier's explanation, and the table action for a known label or the default for any other |

## Left out

- The Streamlit user interface is not modelled: page configuration, CSS, title, file uploader, buttons, spinner, expander, the HTML card markup, `st.progress` and the footer. It is presentation only. A card keeps the values the page displays.
- Model loading and detector inference (`load_model`, `model(img_path)`, the annotated image) are not modelled. They are calls into a foreign library. A detection enters the model as a label and a confidence, so the class-index lookup `model.names[int(box.cls[0])]` is not modelled either.
- Image handling (opening, converting, thumbnailing, saving to a temporary file) is not modelled. It is I/O.
- The session-state flags that carry results across reruns are not modelled. The boxes of the first result are a parameter of `Report.DisplayResults`.
- `datetime.now()` is a timestamp string parameter, because it is nondeterministic.
- `str.upper()` is a function parameter, because Unicode case mapping is outside the model.
- The `{conf:.2f}` formatting of the confidence is not modelled. A card keeps the confidence as a real.
- Severity.AssessSeverity: a confidence is taken as the decimal real it is written as, and the thresholds as exactly 0.40 and 0.70. The source compares binary doubles, and the double written 0.70 lies just below 7/10. That one double is Severe in the source; its exact real value would be Moderate here. Every other double falls in the same tier in both.
- NaN confidences are not modelled. Confidence is a `real`, and every real falls into exactly one band. The source does not guard against out-of-range confidences either.
- Reconstruction.ReconstructionSteps: the plan is a title and numbered steps, not the markdown text. The bold markers, the line breaks and the trailing double spaces are left out, because only the page's markdown renderer consumes them.
