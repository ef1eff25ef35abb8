/** Mapping of a total score to one of six feedback tiers, and the coloured
    box the results page shows it in. */
module Feedback {
  import opened Wrappers

  /** Visual severity of a tier's feedback box. */
  datatype Severity = Warning | Info | Success

  /** The six feedback tiers, from the lowest totals to the highest. */
  datatype Tier =
    | DeepPassive          // IMPATTO LATENTE (Fase passiva profonda)
    | TendingPassive       // IMPATTO LATENTE (Fase tendenzialmente passiva)
    | Discontinuous        // IMPATTO EMERGENTE (Discontinuità attuativa)
    | GrowingAwareness     // IMPATTO EMERGENTE (Consapevolezza in crescita)
    | Performing           // IMPATTO GENERATIVO (Performante)
    | HighlyPerforming     // IMPATTO GENERATIVO (Molto performante)

  /** Position of a tier in the chain, 0 for the lowest totals. */
  function Order(t: Tier): nat
  {
    match t
    case DeepPassive => 0
    case TendingPassive => 1
    case Discontinuous => 2
    case GrowingAwareness => 3
    case Performing => 4
    case HighlyPerforming => 5
  }

  /** The inclusive range of totals each tier covers. */
  function Lower(t: Tier): int
  {
    match t
    case DeepPassive => 15
    case TendingPassive => 31
    case Discontinuous => 46
    case GrowingAwareness => 59
    case Performing => 71
    case HighlyPerforming => 81
  }

  function Upper(t: Tier): int
  {
    match t
    case DeepPassive => 30
    case TendingPassive => 45
    case Discontinuous => 58
    case GrowingAwareness => 70
    case Performing => 80
    case HighlyPerforming => 90
  }

  /** The tier following `t` in the chain, if any. */
  function Next(t: Tier): Option<Tier>
  {
    match t
    case DeepPassive => Some(TendingPassive)
    case TendingPassive => Some(Discontinuous)
    case Discontinuous => Some(GrowingAwareness)
    case GrowingAwareness => Some(Performing)
    case Performing => Some(HighlyPerforming)
    case HighlyPerforming => None
  }

  const MinTotal: int := 15
  const MaxTotal: int := 90

  /** The title shown for a tier. */
  function Title(t: Tier): string
  {
    match t
    case DeepPassive => "IMPATTO LATENTE (Fase passiva profonda)"
    case TendingPassive => "IMPATTO LATENTE (Fase tendenzialmente passiva)"
    case Discontinuous => "IMPATTO EMERGENTE (Discontinuità attuativa)"
    case GrowingAwareness => "IMPATTO EMERGENTE (Consapevolezza in crescita)"
    case Performing => "IMPATTO GENERATIVO (Performante)"
    case HighlyPerforming => "IMPATTO GENERATIVO (Molto performante)"
  }

  /** The severity of a tier: the two lowest tiers warn, the two middle ones
      inform, the two highest succeed. */
  function SeverityOf(t: Tier): (s: Severity)
    ensures s == Warning <==> Order(t) <= 1
    ensures s == Info <==> 2 <= Order(t) <= 3
    ensures s == Success <==> 4 <= Order(t)
  {
    match t
    case DeepPassive | TendingPassive => Warning
    case Discontinuous | GrowingAwareness => Info
    case Performing | HighlyPerforming => Success
  }

  /** The colour-class string the results page stores for a severity. */
  function ClassName(s: Severity): (name: string)
    ensures name != ""
  {
    match s
    case Warning => "warning"
    case Info => "info"
    case Success => "success"
  }

  /** The tier ranges are non-empty, start at 15, end at 90, and each one
      begins right after the previous one ends: they partition [15,90]. */
  lemma RangesAreContiguous(t: Tier)
    ensures Lower(t) <= Upper(t)
    ensures Order(t) == 0 <==> Lower(t) == MinTotal
    ensures Next(t).None? <==> Upper(t) == MaxTotal
    ensures Next(t).Some? ==> Lower(Next(t).value) == Upper(t) + 1
                              && Order(Next(t).value) == Order(t) + 1
  {
  }

  /** The if/elif chain over the total: the first inclusive range that holds
      selects the tier; a total outside every range selects none. */
  function Classify(total: int): (r: Option<Tier>)
    ensures forall t :: r == Some(t) <==> Lower(t) <= total <= Upper(t)
    ensures r.None? <==> total < MinTotal || total > MaxTotal
  {
    if 15 <= total <= 30 then Some(DeepPassive)
    else if 31 <= total <= 45 then Some(TendingPassive)
    else if 46 <= total <= 58 then Some(Discontinuous)
    else if 59 <= total <= 70 then Some(GrowingAwareness)
    else if 71 <= total <= 80 then Some(Performing)
    else if 81 <= total <= 90 then Some(HighlyPerforming)
    else None
  }

  /** Every total in [15,90] lies in exactly one tier's range, and no total
      outside [15,90] lies in any. */
  lemma ExactlyOneTier(total: int)
    ensures MinTotal <= total <= MaxTotal ==>
              exists t :: Lower(t) <= total <= Upper(t)
    ensures forall t1, t2 :: Lower(t1) <= total <= Upper(t1) && Lower(t2) <= total <= Upper(t2) ==> t1 == t2
    ensures total < MinTotal || total > MaxTotal ==>
              forall t :: !(Lower(t) <= total <= Upper(t))
  {
    if MinTotal <= total <= MaxTotal {
      var t := Classify(total).value;
      assert Lower(t) <= total <= Upper(t);
    }
  }

  /** A larger total never selects an earlier tier. */
  lemma ClassifyMonotone(a: int, b: int)
    requires a <= b
    requires Classify(a).Some? && Classify(b).Some?
    ensures Order(Classify(a).value) <= Order(Classify(b).value)
  {
  }

  /** Totals 15..45 are shown as a warning, 46..70 as information and 71..90
      as success. */
  lemma SeverityBands(total: int)
    requires MinTotal <= total <= MaxTotal
    ensures SeverityOf(Classify(total).value) == Warning <==> total <= 45
    ensures SeverityOf(Classify(total).value) == Info <==> 46 <= total <= 70
    ensures SeverityOf(Classify(total).value) == Success <==> 71 <= total
  {
  }

  /** The title and colour class the chain leaves set; both stay empty when
      no branch matches. */
  datatype Verdict = Verdict(title: string, colorClass: string)

  function VerdictFor(total: int): (v: Verdict)
    ensures Classify(total).Some? ==>
              v.title == Title(Classify(total).value)
              && v.colorClass == ClassName(SeverityOf(Classify(total).value))
    ensures Classify(total).None? <==> v.title == ""
    ensures Classify(total).None? <==> v.colorClass == ""
  {
    match Classify(total)
    case Some(t) => Verdict(Title(t), ClassName(SeverityOf(t)))
    case None => Verdict("", "")
  }

  /** The box the results page draws: "warning" and "info" pick their own box,
      anything else falls through to the success box. */
  function DisplayedBox(colorClass: string): (s: Severity)
    ensures s == Warning <==> colorClass == ClassName(Warning)
    ensures s == Info <==> colorClass == ClassName(Info)
  {
    if colorClass == "warning" then Warning
    else if colorClass == "info" then Info
    else Success
  }

  /** Reading a severity's class name back through the display chain gives
      the severity again. */
  lemma DisplayedBoxInvertsClassName(s: Severity)
    ensures DisplayedBox(ClassName(s)) == s
  {
  }

  /** A classified total is drawn in its tier's box; an unclassified one is
      drawn, with an empty title, in the success box. */
  lemma DisplayedBoxMatchesTier(total: int)
    ensures Classify(total).Some? ==>
              DisplayedBox(VerdictFor(total).colorClass) == SeverityOf(Classify(total).value)
    ensures Classify(total).None? ==>
              DisplayedBox(VerdictFor(total).colorClass) == Success && VerdictFor(total).title == ""
  {
  }

  /** Different severities have different class names. */
  lemma ClassNamesAreDistinct(s1: Severity, s2: Severity)
    ensures ClassName(s1) == ClassName(s2) ==> s1 == s2
  {
  }

  /** Different tiers have different titles. */
  lemma TitlesAreDistinct(t1: Tier, t2: Tier)
    ensures Title(t1) == Title(t2) ==> t1 == t2
  {
  }

  /** The boundaries of the chain, checked at the totals where the tier changes. */
  lemma BoundaryTitles()
    ensures Title(Classify(15).value) == "IMPATTO LATENTE (Fase passiva profonda)"
    ensures Title(Classify(30).value) == "IMPATTO LATENTE (Fase passiva profonda)"
    ensures Title(Classify(31).value) == "IMPATTO LATENTE (Fase tendenzialmente passiva)"
    ensures Title(Classify(58).value) == "IMPATTO EMERGENTE (Discontinuità attuativa)"
    ensures Title(Classify(59).value) == "IMPATTO EMERGENTE (Consapevolezza in crescita)"
    ensures Title(Classify(90).value) == "IMPATTO GENERATIVO (Molto performante)"
    ensures Classify(14).None? && Classify(91).None?
    ensures Classify(40) == Some(TendingPassive) && Classify(65) == Some(GrowingAwareness)
  {
  }
}
