/** Reverse-scoring of items and accumulation of the five dimension subtotals. */
module Scoring {
  import opened Wrappers
  import opened Questionnaire

  /** The five dimension subtotals, one field per dimension. */
  datatype Scores = Scores(autonomy: int, power: int, coherence: int, impact: int, flexibility: int)
  {
    /** The subtotal of dimension `d`. */
    function Get(d: Dimension): int
    {
      match d
      case Autonomy => autonomy
      case Power => power
      case Coherence => coherence
      case Impact => impact
      case Flexibility => flexibility
    }

    /** Adds `v` to the subtotal of `d`; every other subtotal is left alone. */
    function Add(d: Dimension, v: int): (s: Scores)
      ensures s.Get(d) == Get(d) + v
      ensures forall e :: e != d ==> s.Get(e) == Get(e)
    {
      match d
      case Autonomy => this.(autonomy := autonomy + v)
      case Power => this.(power := power + v)
      case Coherence => this.(coherence := coherence + v)
      case Impact => this.(impact := impact + v)
      case Flexibility => this.(flexibility := flexibility + v)
    }
  }

  /** Every subtotal starts at zero. */
  const Zero: Scores := Scores(0, 0, 0, 0, 0)

  /** The sum of the subtotals, taken over the dimensions in their fixed order. */
  function SumOver(s: Scores, ds: seq<Dimension>): int
  {
    if |ds| == 0 then 0 else s.Get(ds[0]) + SumOver(s, ds[1..])
  }

  /** The total score: the sum of the five dimension subtotals. */
  function Total(s: Scores): (t: int)
    ensures t == SumOver(s, Dimensions)
  {
    SumOverDimensionsIsFieldSum(s);
    s.autonomy + s.power + s.coherence + s.impact + s.flexibility
  }

  /** The value an answer contributes to its dimension: a reversed item
      mirrors the answer on the 1..6 scale, any other item keeps it. */
  function Effective(q: Question, raw: int): (v: int)
    ensures q.reversed ==> v == MinResponse + MaxResponse - raw
    ensures !q.reversed ==> v == raw
    ensures InScale(raw) ==> InScale(v)
  {
    if q.reversed then 7 - raw else raw
  }

  /** Scoring an item twice gives back the raw answer. */
  lemma EffectiveInvolution(q: Question, raw: int)
    ensures Effective(q, Effective(q, raw)) == raw
  {
  }

  /** A reversed item turns a stronger agreement into a smaller contribution;
      any other item keeps the order of the answers. */
  lemma EffectiveOrder(q: Question, a: int, b: int)
    requires a < b
    ensures q.reversed ==> Effective(q, a) > Effective(q, b)
    ensures !q.reversed ==> Effective(q, a) < Effective(q, b)
  {
  }

  /** The answers to the first `k` items are all present. */
  predicate Answered(responses: map<int, int>, k: nat)
  {
    forall i :: 0 <= i < k ==> i in responses
  }

  /** All fifteen items are answered. */
  predicate Complete(responses: map<int, int>)
  {
    Answered(responses, |Questions|)
  }

  /** All fifteen items are answered on the slider's scale. */
  predicate ValidResponses(responses: map<int, int>)
  {
    Complete(responses) && forall i :: 0 <= i < |Questions| ==> InScale(responses[i])
  }

  /** Why scoring failed: the answer to item `index` is not in the map. */
  datatype ScoreError = MissingResponse(index: nat)

  /** The scores after the scoring loop has processed items `0 .. k-1`.
      Looking up a missing answer aborts at the first index that is absent. */
  function Accumulate(responses: map<int, int>, k: nat): (r: Result<Scores, ScoreError>)
    requires k <= |Questions|
    ensures r.Ok? <==> Answered(responses, k)
    ensures r.Err? ==> var m := r.error.index;
              m < k && m !in responses && Answered(responses, m)
  {
    if k == 0 then Ok(Zero)
    else
      match Accumulate(responses, k - 1)
      case Err(e) => Err(e)
      case Ok(s) =>
        if k - 1 in responses then
          var q := Questions[k - 1];
          Ok(s.Add(q.dimension, Effective(q, responses[k - 1])))
        else
          Err(MissingResponse(k - 1))
  }

  /** Scores a whole response set. */
  function Score(responses: map<int, int>): (r: Result<Scores, ScoreError>)
    ensures r.Ok? <==> Complete(responses)
    ensures r.Err? ==> r.error.index < |Questions| && r.error.index !in responses
  {
    Accumulate(responses, |Questions|)
  }

  /** One step of the scoring loop changes only the subtotal of the item's
      own dimension, by the item's effective value. */
  lemma StepChangesOnlyOwnDimension(responses: map<int, int>, k: nat, e: Dimension)
    requires k < |Questions| && Answered(responses, k + 1)
    ensures Accumulate(responses, k + 1).value.Get(e) ==
            Accumulate(responses, k).value.Get(e) +
            (if e == Questions[k].dimension then Effective(Questions[k], responses[k]) else 0)
  {
  }

  /** The closed-form subtotal of `d`: its two direct items plus the mirror of
      its reversed item. */
  function Subtotal(responses: map<int, int>, d: Dimension): int
    requires Complete(responses)
  {
    var j := ItemsPerDimension * Rank(d);
    responses[j] + responses[j + 1] + (MinResponse + MaxResponse - responses[j + 2])
  }

  /** The part of `Subtotal(responses, d)` contributed by items below `k`. */
  function PartialSubtotal(responses: map<int, int>, d: Dimension, k: nat): int
    requires Answered(responses, k)
  {
    var j := ItemsPerDimension * Rank(d);
    (if j < k then responses[j] else 0)
    + (if j + 1 < k then responses[j + 1] else 0)
    + (if j + 2 < k then MinResponse + MaxResponse - responses[j + 2] else 0)
  }

  lemma {:induction false} AccumulateIsPartialSubtotal(responses: map<int, int>, k: nat, d: Dimension)
    requires k <= |Questions| && Answered(responses, k)
    ensures Accumulate(responses, k).value.Get(d) == PartialSubtotal(responses, d, k)
  {
    if k > 0 {
      var i := k - 1;
      AccumulateIsPartialSubtotal(responses, i, d);
      StepChangesOnlyOwnDimension(responses, i, d);
      ItemLayout(i);
      var j := ItemsPerDimension * Rank(d);
      if i / 3 == Rank(d) {
        assert i == j || i == j + 1 || i == j + 2;
      } else {
        assert Questions[i].dimension != d;
        assert i != j && i != j + 1 && i != j + 2;
      }
    }
  }

  /** Scoring a complete response set succeeds, and each dimension's subtotal
      is its two direct answers plus the mirrored answer of its reversed item. */
  lemma ScoreIsSubtotal(responses: map<int, int>)
    requires Complete(responses)
    ensures Score(responses).Ok?
    ensures forall d :: Score(responses).value.Get(d) == Subtotal(responses, d)
  {
    forall d {
      AccumulateIsPartialSubtotal(responses, |Questions|, d);
    }
  }

  /** Summing over the fixed dimension order adds each subtotal exactly once. */
  lemma SumOverDimensionsIsFieldSum(s: Scores)
    ensures SumOver(s, Dimensions) == s.autonomy + s.power + s.coherence + s.impact + s.flexibility
  {
    var ds := Dimensions;
    assert ds[1..][1..][1..][1..][1..] == [];
    calc {
      SumOver(s, ds);
      s.autonomy + SumOver(s, ds[1..]);
      s.autonomy + s.power + SumOver(s, ds[1..][1..]);
      s.autonomy + s.power + s.coherence + SumOver(s, ds[1..][1..][1..]);
      s.autonomy + s.power + s.coherence + s.impact + SumOver(s, ds[1..][1..][1..][1..]);
      s.autonomy + s.power + s.coherence + s.impact + s.flexibility + SumOver(s, ds[1..][1..][1..][1..][1..]);
    }
  }

  /** Sum of the effective values of items `0 .. k-1`. */
  function SumEffective(responses: map<int, int>, k: nat): int
    requires k <= |Questions| && Answered(responses, k)
  {
    if k == 0 then 0
    else SumEffective(responses, k - 1) + Effective(Questions[k - 1], responses[k - 1])
  }

  /** After `k` steps, the sum of the subtotals equals the sum of the effective
      values of items `0 .. k-1`. */
  lemma {:induction false} TotalIsSumOfContributions(responses: map<int, int>, k: nat)
    requires k <= |Questions| && Answered(responses, k)
    ensures Total(Accumulate(responses, k).value) == SumEffective(responses, k)
  {
    if k > 0 {
      TotalIsSumOfContributions(responses, k - 1);
      var s := Accumulate(responses, k - 1).value;
      var q := Questions[k - 1];
      var v := Effective(q, responses[k - 1]);
      assert Total(s.Add(q.dimension, v)) == Total(s) + v by {
        match q.dimension
        case Autonomy =>
        case Power =>
        case Coherence =>
        case Impact =>
        case Flexibility =>
      }
    }
  }

  /** For answers on the 1..6 scale every subtotal lies in [3,18] and the
      total in [15,90], the denominators the results page shows. */
  lemma ScoreBounds(responses: map<int, int>)
    requires ValidResponses(responses)
    ensures Score(responses).Ok?
    ensures forall d :: 3 <= Score(responses).value.Get(d) <= 18
    ensures 15 <= Total(Score(responses).value) <= 90
  {
    ScoreIsSubtotal(responses);
    var s := Score(responses).value;
    forall d
      ensures 3 <= s.Get(d) <= 18
    {
      var j := 3 * Rank(d);
      assert InScale(responses[j]) && InScale(responses[j + 1]) && InScale(responses[j + 2]);
    }
    assert 3 <= s.Get(Autonomy) <= 18 && 3 <= s.Get(Power) <= 18 && 3 <= s.Get(Coherence) <= 18
        && 3 <= s.Get(Impact) <= 18 && 3 <= s.Get(Flexibility) <= 18;
  }

  /** Both ends of the [15,90] range are reached. */
  lemma TotalBoundsAreTight()
    ensures var low := map i | 0 <= i < 15 :: if i % 3 == 2 then 6 else 1;
            ValidResponses(low) && Total(Score(low).value) == 15
    ensures var high := map i | 0 <= i < 15 :: if i % 3 == 2 then 1 else 6;
            ValidResponses(high) && Total(Score(high).value) == 90
  {
    var low := map i | 0 <= i < 15 :: if i % 3 == 2 then 6 else 1;
    var high := map i | 0 <= i < 15 :: if i % 3 == 2 then 1 else 6;
    ScoreIsSubtotal(low);
    ScoreIsSubtotal(high);
    var sl, sh := Score(low).value, Score(high).value;
    assert sl.Get(Autonomy) == sl.Get(Power) == sl.Get(Coherence) == sl.Get(Impact) == sl.Get(Flexibility) == 3;
    assert sh.Get(Autonomy) == sh.Get(Power) == sh.Get(Coherence) == sh.Get(Impact) == sh.Get(Flexibility) == 18;
  }
}
