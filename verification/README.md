# ISA-Q scoring model

A Dafny model of the scoring core of the GÉNERA *Impact Self-Assessment*
questionnaire (ISA-Q). The application asks fifteen 6-point Likert items,
three for each of five dimensions (Autonomia e Competenza, Potere Personale,
Coerenza e Significato, Impatto e Futuro, Flessibilità Evolutiva). One item
per dimension is phrased negatively and is scored in reverse. The five
subtotals add up to a total, and an if/elif chain maps the total to one of six
feedback tiers, each with a title and a coloured box. After scoring, the
application builds a ten-cell row to append to a spreadsheet. Scoring is
skipped when any of the three demographic drop-downs still shows the
placeholder `"Seleziona..."`.

Modules, in the order the program runs:

- `Wrappers` (wrappers.dfy): `Option` and `Result`.
- `Questionnaire` (questionnaire.dfy): the dimensions in their fixed order and
  the question table. Each item records whether it is reversed and which
  dimension it measures. The wording is kept apart in `Text(i)`, which scoring
  never reads.
- `Scoring` (scoring.dfy):
  - `Effective` computes an item's contribution after reversal.
  - `Accumulate` and `Score` fold the scoring loop over the items. A missing
    answer makes the loop stop at the first absent index.
  - `Subtotal` is an independent closed form for each dimension's subtotal.
  - `Total` adds up the subtotals.
- `Feedback` (feedback.dfy):
  - `Classify` models the six-way chain and returns `Option<Tier>`.
  - `Lower` and `Upper` give each tier's range as a table.
  - `VerdictFor` gives the title and colour-class strings the chain leaves
    set.
  - `DisplayedBox` picks the box the results page draws.
- `Submission` (submission.dfy):
  - `Submit` runs the demographic guard, then scoring and classification,
    then builds the result row.
  - `ParseRow` reads a row back, so the row layout can be stated as a round
    trip.

Choices where the code leaves something implicit:

- A total outside [15,90] matches no branch of the chain. The title and
  colour class then stay empty, and the page draws the success box.
  `Classify` returns `None` in that case, and `DisplayedBoxMatchesTier`
  states the fall-through. `ValidSubmissionIsClassified` proves the case
  cannot happen when every answer is on the 1..6 scale.
- The lookup `responses[i]` raises on a missing key. The model returns
  `Err(MissingResponse(i))` for the first missing index.
- Scoring does not check the answers' range, because the slider supplies it.
  The model accepts any integer answer. Every bound is stated under the
  `ValidResponses` hypothesis, which means every answer is in 1..6.
- The question table `Questionnaire.Questions` is a constant. Its contents
  are pinned down item by item by `TableLayout`.

## Model

| member | source | states |
|---|---|---|
| `Questionnaire.NamesAreDistinct` | app.py:149-155 | the five dimension labels used as score keys are pairwise distinct |
| `Questionnaire.Rank` | app.py:149-155 | each dimension has a position in the fixed five-key order of the score dictionary |
| `Questionnaire.TableLayout` | app.py:107-132 | the table has 15 items; item i measures the dimension at position i / 3; it is reversed exactly when i % 3 == 2 |
| `Questionnaire.ItemLayout` | app.py:107-132 | the same layout, stated for one item |
| `Questionnaire.ItemsPerDimensionIsThree` | app.py:107-132 | each dimension is measured by exactly three items (3k, 3k+1, 3k+2); the only reversed one is 3k+2 |
| `Questionnaire.ReversedItemsAreLastOfEachBlock` | app.py:107-132 | the reversed items are exactly indices 2, 5, 8, 11 and 14 |
| `Scoring.Scores.Add` | app.py:161 | adding to one dimension's subtotal leaves the other four unchanged |
| `Scoring.Effective` | app.py:157-160 | a reversed item mirrors the answer on the 1..6 scale (1 + 6 − raw); any other item keeps it; answers on the scale give contributions on the scale |
| `Scoring.EffectiveInvolution` | app.py:159-160 | reverse-scoring twice gives back the raw answer |
| `Scoring.EffectiveOrder` | app.py:159-160 | a reversed item inverts the order of answers; a direct item preserves it |
| `Scoring.Accumulate` | app.py:149-161 | the loop over the first k items succeeds exactly when all k answers are present; otherwise it fails at the first missing index |
| `Scoring.Score` | app.py:157-161 | scoring succeeds exactly when all fifteen answers are present; a failure names an absent item index |
| `Scoring.StepChangesOnlyOwnDimension` | app.py:157-161 | one loop step raises only its item's dimension, by the item's effective value; the other four stay unchanged |
| `Scoring.AccumulateIsPartialSubtotal` | app.py:149-161 | after k steps, each subtotal is the sum of the contributions of that dimension's items below k (all subtotals start at 0) |
| `Scoring.ScoreIsSubtotal` | app.py:107-161 | for a complete response set, each subtotal is its two direct answers plus the mirrored answer of its reversed item |
| `Scoring.Total` | app.py:163 | the total is the sum of the five subtotals taken in the fixed dimension order |
| `Scoring.TotalIsSumOfContributions` | app.py:157-163 | the total equals the sum of every item's effective value |
| `Scoring.ScoreBounds` | app.py:138-163 | for answers in 1..6, every subtotal lies in [3,18] and the total in [15,90] |
| `Scoring.TotalBoundsAreTight` | app.py:157-163 | the totals 15 and 90 are both reached by valid answers |
| `Feedback.RangesAreContiguous` | app.py:170-220 | the tier ranges are non-empty, start at 15, end at 90, and each starts one past the previous one's end |
| `Feedback.Classify` | app.py:166-220 | the chain selects tier t exactly when the total lies in t's inclusive range; it selects nothing exactly when the total is outside [15,90] |
| `Feedback.SeverityOf` | app.py:170-220 | the two lowest tiers are warnings, the two middle ones info, the two highest success |
| `Feedback.ClassName` | app.py:170-220 | each severity's colour-class string is non-empty, so it never equals the class left when no branch matches |
| `Feedback.ClassNamesAreDistinct` | app.py:170-220 | different severities have different colour-class strings |
| `Feedback.DisplayedBoxInvertsClassName` | app.py:236-241 | the box chosen for a severity's class string is that severity's box |
| `Feedback.TitlesAreDistinct` | app.py:170-215 | the six tier titles are pairwise distinct |
| `Feedback.ExactlyOneTier` | app.py:170-220 | every total in [15,90] lies in exactly one range; no total outside [15,90] lies in any |
| `Feedback.ClassifyMonotone` | app.py:170-220 | a larger total never selects an earlier tier |
| `Feedback.SeverityBands` | app.py:170-220 | severity is warning for 15–45, info for 46–70 and success for 71–90 |
| `Feedback.VerdictFor` | app.py:166-220 | a classified total sets its tier's title and colour class; both strings stay empty exactly when no branch matches |
| `Feedback.DisplayedBox` | app.py:236-241 | "warning" and "info" select their own boxes; any other class, including "", selects the success box |
| `Feedback.DisplayedBoxMatchesTier` | app.py:166-241 | a classified total is drawn in its tier's box; an unclassified one is drawn in the success box with an empty title |
| `Feedback.BoundaryTitles` | app.py:170-220 | 15 and 30 give "Fase passiva profonda"; 31 gives "Fase tendenzialmente passiva"; 58 gives "Discontinuità attuativa"; 59 gives "Consapevolezza in crescita"; 90 gives "Molto performante"; 14 and 91 give none |
| `Submission.ResultRow` | app.py:251-258 | the row has 10 cells; cells 5..9 hold the subtotals in the fixed dimension order |
| `Submission.RowRoundTrip` | app.py:251-258 | reading the row back gives the timestamp, the three demographics, the total and the five subtotals |
| `Submission.Submit` | app.py:99-258 | a submission succeeds exactly when all three demographics are off the placeholder "Seleziona..." and all answers are present; it fails with the incomplete-demographics error exactly when some demographic is still the placeholder, before any scoring; with complete demographics a missing answer fails with the scoring error for the first missing index; on success each subtotal is the closed-form subtotal of the answers, the total is their sum, the tier and verdict are those of that total, and the row reads back to the computed fields |
| `Submission.ValidSubmissionIsClassified` | app.py:99-220 | with complete demographics and answers in 1..6, the submission succeeds, the total is in [15,90], and a tier and title are always found |
| `Submission.ResponsesOf` | app.py:134-138 | the form's response map has exactly the keys 0..n-1 and holds answer i under key i |
| `Submission.FormResponsesAreValid` | app.py:134-147 | fifteen slider answers give a complete response set on the 1..6 scale; with complete demographics the submission then succeeds and finds a tier, so the missing-answer path never arises from the form |
| `Submission.UniformScores` | app.py:157-163 | answering v to every item gives v + 7 in every dimension |
| `Submission.UniformSubmission` | app.py:157-258 | answering v to every item gives the total 5v + 35 and the verdict for it |
| `Submission.AllOnes` | app.py:157-220 | all answers 1 give 8 per dimension, a total of 40 and "Fase tendenzialmente passiva" |
| `Submission.AllSixes` | app.py:157-220 | all answers 6 give 13 per dimension, a total of 65 and "Consapevolezza in crescita" |

## Left out

- Spreadsheet append (`save_to_google_sheets`, app.py:21-36): network I/O, credential loading and calls into the Google client library. The model stops at the row that would be appended.
- Radar chart (`create_radar_chart`, app.py:39-62): floating-point plotting.
- Streamlit page calls (layout, markdown, drop-downs, sliders, form, metric, boxes, spinner): presentation only. The drop-down selections and slider values are inputs to `Submit`. The slider's 1..6 range is the `ValidResponses` hypothesis.
- The option lists of the three drop-downs (app.py:89-97): only the placeholder matters to the guard, so the demographics are plain strings.
- The clock (`datetime.now()`, app.py:248): the timestamp is a string parameter of `Submit`.
- The feedback body texts and the `COLORS` palette: a tier is identified by its title and severity.
- The question wording is not part of the `Question` record. It lives in `Text(i)` because scoring never reads it.
- Whether the spreadsheet write succeeds: the results page is shown either way, and the model does not track it.
