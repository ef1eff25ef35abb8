/** One questionnaire submission: the demographic guard, scoring, the
    feedback verdict and the result row appended to the spreadsheet. */
module Submission {
  import opened Wrappers
  import opened Questionnaire
  import opened Scoring
  import opened Feedback

  /** The placeholder every demographic drop-down starts on. */
  const Unselected: string := "Seleziona..."

  /** The three demographic selections: gender, age bracket, education. */
  datatype Demographics = Demographics(gender: string, age: string, education: string)

  /** All three drop-downs have been moved off the placeholder. */
  predicate DemographicsComplete(p: Demographics)
  {
    p.gender != Unselected && p.age != Unselected && p.education != Unselected
  }

  /** A spreadsheet cell: the row mixes strings and integers. */
  datatype Cell = Text(text: string) | Number(number: int)

  /** Number of cells in a result row. */
  const RowWidth: nat := 10

  /** The result row: timestamp, the three demographics, the total, then the
      five subtotals in the fixed dimension order. */
  function ResultRow(timestamp: string, p: Demographics, total: int, s: Scores): (row: seq<Cell>)
    ensures |row| == RowWidth
    ensures forall k :: 0 <= k < |Dimensions| ==> row[5 + k] == Number(s.Get(Dimensions[k]))
  {
    [ Text(timestamp), Text(p.gender), Text(p.age), Text(p.education), Number(total),
      Number(s.Get(Autonomy)), Number(s.Get(Power)), Number(s.Get(Coherence)),
      Number(s.Get(Impact)), Number(s.Get(Flexibility)) ]
  }

  /** The fields recoverable from a result row. */
  datatype RowFields = RowFields(timestamp: string, demographics: Demographics, total: int, scores: Scores)

  /** Reads a row back, failing on anything not shaped like a result row. */
  function ParseRow(row: seq<Cell>): Option<RowFields>
  {
    if |row| == RowWidth
       && row[0].Text? && row[1].Text? && row[2].Text? && row[3].Text?
       && row[4].Number? && row[5].Number? && row[6].Number? && row[7].Number?
       && row[8].Number? && row[9].Number?
    then
      Some(RowFields(row[0].text, Demographics(row[1].text, row[2].text, row[3].text), row[4].number,
                     Scores(row[5].number, row[6].number, row[7].number, row[8].number, row[9].number)))
    else None
  }

  /** The row keeps every field it is built from, in its place. */
  lemma RowRoundTrip(timestamp: string, p: Demographics, total: int, s: Scores)
    ensures ParseRow(ResultRow(timestamp, p, total, s)) == Some(RowFields(timestamp, p, total, s))
  {
  }

  /** Why a submission produced no result. */
  datatype SubmitError = IncompleteDemographics | InvalidResponses(cause: ScoreError)

  /** Everything a successful submission computes. */
  datatype Outcome = Outcome(scores: Scores, total: int, tier: Option<Tier>, verdict: Verdict, row: seq<Cell>)

  /** Handles a submitted form: reject incomplete demographics before any
      scoring, then score, classify and build the row to append. */
  function Submit(p: Demographics, responses: map<int, int>, timestamp: string): (r: Result<Outcome, SubmitError>)
    ensures r.Ok? <==> DemographicsComplete(p) && Complete(responses)
    ensures r == Err(IncompleteDemographics) <==> !DemographicsComplete(p)
    ensures DemographicsComplete(p) && !Complete(responses) ==>
              r == Err(InvalidResponses(Score(responses).error))
    ensures r.Ok? ==>
              && Complete(responses)
              && (forall d :: r.value.scores.Get(d) == Subtotal(responses, d))
              && r.value.total == Total(r.value.scores)
              && r.value.tier == Classify(r.value.total)
              && r.value.verdict == VerdictFor(r.value.total)
              && ParseRow(r.value.row) == Some(RowFields(timestamp, p, r.value.total, r.value.scores))
  {
    if !DemographicsComplete(p) then Err(IncompleteDemographics)
    else
      match Score(responses)
      case Err(e) => Err(InvalidResponses(e))
      case Ok(s) =>
        var total := Total(s);
        ScoreIsSubtotal(responses);
        RowRoundTrip(timestamp, p, total, s);
        Ok(Outcome(s, total, Classify(total), VerdictFor(total), ResultRow(timestamp, p, total, s)))
  }

  /** With complete demographics and every answer on the slider's scale, the
      submission succeeds, the total lies in [15,90], and a tier is always found. */
  lemma ValidSubmissionIsClassified(p: Demographics, responses: map<int, int>, timestamp: string)
    requires DemographicsComplete(p) && ValidResponses(responses)
    ensures Submit(p, responses, timestamp).Ok?
    ensures MinTotal <= Submit(p, responses, timestamp).value.total <= MaxTotal
    ensures Submit(p, responses, timestamp).value.tier.Some?
    ensures Submit(p, responses, timestamp).value.verdict.title != ""
  {
    ScoreBounds(responses);
  }

  /** The response map the form builds from the answers in item order. */
  function ResponsesOf(answers: seq<int>): (responses: map<int, int>)
    ensures forall k :: k in responses <==> 0 <= k < |answers|
    ensures forall i :: 0 <= i < |answers| ==> responses[i] == answers[i]
  {
    map i | 0 <= i < |answers| :: answers[i]
  }

  /** The form asks every item once on the slider, so the map it builds is a
      complete set of answers on the scale; with complete demographics such a
      submission never meets a missing answer and always finds a tier. */
  lemma FormResponsesAreValid(p: Demographics, answers: seq<int>, timestamp: string)
    requires |answers| == |Questions|
    requires forall i :: 0 <= i < |answers| ==> InScale(answers[i])
    ensures ValidResponses(ResponsesOf(answers))
    ensures DemographicsComplete(p) ==>
              Submit(p, ResponsesOf(answers), timestamp).Ok?
              && Submit(p, ResponsesOf(answers), timestamp).value.tier.Some?
  {
    var responses := ResponsesOf(answers);
    assert ValidResponses(responses);
    if DemographicsComplete(p) {
      ValidSubmissionIsClassified(p, responses, timestamp);
    }
  }

  /** The response set that gives the same answer `v` to all fifteen items. */
  function Uniform(v: int): map<int, int>
  {
    ResponsesOf(seq(|Questions|, _ => v))
  }

  /** Answering `v` everywhere puts `v + 7` in every dimension: two direct
      answers `v` and one mirrored answer `7 - v`. */
  lemma UniformScores(v: int)
    ensures Score(Uniform(v)) == Ok(Scores(v + 7, v + 7, v + 7, v + 7, v + 7))
  {
    var responses := Uniform(v);
    assert Complete(responses);
    ScoreIsSubtotal(responses);
    var s := Score(responses).value;
    assert s.Get(Autonomy) == s.Get(Power) == s.Get(Coherence) == s.Get(Impact) == s.Get(Flexibility) == v + 7;
  }

  /** A uniform answer `v` yields the total `5 * v + 35` and the verdict for it. */
  lemma UniformSubmission(p: Demographics, v: int, timestamp: string)
    requires DemographicsComplete(p)
    ensures var s := Scores(v + 7, v + 7, v + 7, v + 7, v + 7);
            Submit(p, Uniform(v), timestamp)
            == Ok(Outcome(s, 5 * v + 35, Classify(5 * v + 35), VerdictFor(5 * v + 35),
                          ResultRow(timestamp, p, 5 * v + 35, s)))
  {
    UniformScores(v);
  }

  /** Every answer 1: reversed items count 6, so each dimension is 8, the
      total is 40 and the tier is the second one. */
  lemma AllOnes(p: Demographics, timestamp: string)
    requires DemographicsComplete(p)
    ensures var r := Submit(p, Uniform(1), timestamp);
            && r.Ok?
            && r.value.scores == Scores(8, 8, 8, 8, 8)
            && r.value.total == 40
            && r.value.tier == Some(TendingPassive)
            && r.value.verdict.title == "IMPATTO LATENTE (Fase tendenzialmente passiva)"
  {
    BoundaryTitles();
    UniformSubmission(p, 1, timestamp);
  }

  /** Every answer 6: reversed items count 1, so each dimension is 13, the
      total is 65 and the tier is the fourth one. */
  lemma AllSixes(p: Demographics, timestamp: string)
    requires DemographicsComplete(p)
    ensures var r := Submit(p, Uniform(6), timestamp);
            && r.Ok?
            && r.value.scores == Scores(13, 13, 13, 13, 13)
            && r.value.total == 65
            && r.value.tier == Some(GrowingAwareness)
            && r.value.verdict.title == "IMPATTO EMERGENTE (Consapevolezza in crescita)"
  {
    BoundaryTitles();
    UniformSubmission(p, 6, timestamp);
  }
}
