/** The fixed ISA-Q question table: fifteen Likert items over five dimensions. */
module Questionnaire {

  /** The five conceptual dimensions, declared in the order the score
      dictionary lists them. */
  datatype Dimension =
    | Autonomy      // Autonomia e Competenza
    | Power         // Potere Personale
    | Coherence     // Coerenza e Significato
    | Impact        // Impatto e Futuro
    | Flexibility   // Flessibilità Evolutiva

  /** The dimension's label as it appears in the table and as a score key. */
  function Name(d: Dimension): string
  {
    match d
    case Autonomy => "Autonomia e Competenza"
    case Power => "Potere Personale"
    case Coherence => "Coerenza e Significato"
    case Impact => "Impatto e Futuro"
    case Flexibility => "Flessibilità Evolutiva"
  }

  /** Distinct dimensions have distinct labels, so keying the subtotals by
      label gives every dimension a subtotal of its own. */
  lemma NamesAreDistinct(d: Dimension, e: Dimension)
    ensures Name(d) == Name(e) ==> d == e
  {
  }

  /** The fixed dimension order used by the score dictionary and the output row. */
  const Dimensions: seq<Dimension> := [Autonomy, Power, Coherence, Impact, Flexibility]

  /** Position of a dimension in `Dimensions`. */
  function Rank(d: Dimension): (k: nat)
    ensures k < |Dimensions| && Dimensions[k] == d
  {
    match d
    case Autonomy => 0
    case Power => 1
    case Coherence => 2
    case Impact => 3
    case Flexibility => 4
  }

  /** One item of the questionnaire as scoring sees it: whether it is phrased
      against its dimension (and so scored in reverse), and the dimension it
      measures. The wording of item `i` is `Text(i)`. */
  datatype Question = Question(reversed: bool, dimension: Dimension)

  /** Lowest and highest answer the response slider allows. */
  const MinResponse: int := 1
  const MaxResponse: int := 6

  /** Number of items that measure each dimension. */
  const ItemsPerDimension: nat := 3

  predicate InScale(raw: int)
  {
    MinResponse <= raw <= MaxResponse
  }

  /** The question table, in presentation order. */
  const Questions: seq<Question> := [
    Question(false, Autonomy),
    Question(false, Autonomy),
    Question(true, Autonomy),
    Question(false, Power),
    Question(false, Power),
    Question(true, Power),
    Question(false, Coherence),
    Question(false, Coherence),
    Question(true, Coherence),
    Question(false, Impact),
    Question(false, Impact),
    Question(true, Impact),
    Question(false, Flexibility),
    Question(false, Flexibility),
    Question(true, Flexibility)
  ]

  /** The wording shown for item `i`; scoring never reads it. */
  function Text(i: nat): string
    requires i < |Questions|
  {
    match i
    case 0 => "Sento che le mie attività quotidiane riflettono i miei valori e le mie convinzioni personali."
    case 1 => "Quando affronto un compito difficile, ho fiducia nella mia capacità di padroneggiarlo con le risorse a mia disposizione."
    case 2 => "Mi capita spesso di svolgere il mio lavoro solo perché mi è stato imposto, senza sentirlo veramente 'mio'."
    case 3 => "Di fronte a un problema lavorativo, mi attivo immediatamente per modificare gli elementi che sono sotto il mio controllo."
    case 4 => "Sento di avere l'autorità e la capacità necessarie per influenzare i processi decisionali che riguardano il mio ruolo."
    case 5 => "Ho la sensazione che la mia crescita professionale dipenda più dal caso o dalle decisioni altrui che dal mio impegno."
    case 6 => "Comprendo chiaramente come il mio lavoro si inserisce nel quadro generale e negli obiettivi dell'organizzazione."
    case 7 => "Considero le sfide lavorative come occasioni che valgono l'investimento di tempo ed energia."
    case 8 => "Molto spesso mi sembra che le richieste che ricevo siano confuse, imprevedibili o prive di una logica chiara."
    case 9 => "Mi impegno attivamente per trasmettere le mie conoscenze e competenze ai colleghi o ai collaboratori più giovani."
    case 10 => "Mi dà soddisfazione sapere che i risultati del mio lavoro avranno un impatto positivo sugli altri anche in futuro."
    case 11 => "Tendo a focalizzarmi esclusivamente sui miei task individuali, senza preoccuparmi della crescita del team o del contesto."
    case 12 => "Quando vivo un fallimento professionale, riesco a recuperare velocemente l'equilibrio e a ripartire."
    case 13 => "Considero i cambiamenti organizzativi inattesi come opportunità per sviluppare nuove competenze."
    case _ => "In periodi di forte stress, faccio fatica a trovare soluzioni creative e tendo a irrigidirmi sulle vecchie abitudini."
  }

  /** The indices of the items that measure `d`. */
  function ItemsOf(d: Dimension): set<nat>
  {
    set i: nat | i < |Questions| && Questions[i].dimension == d
  }

  /** The indices of the reverse-scored items. */
  function ReversedItems(): set<nat>
  {
    set i: nat | i < |Questions| && Questions[i].reversed
  }

  /** The table is laid out in blocks: item `i` measures the dimension at
      position `i / 3`, and the last item of each block is the reversed one. */
  lemma TableLayout()
    ensures |Questions| == ItemsPerDimension * |Dimensions| == 15
    ensures forall i :: 0 <= i < |Questions| ==>
              Questions[i].dimension == Dimensions[i / ItemsPerDimension]
    ensures forall i :: 0 <= i < |Questions| ==>
              (Questions[i].reversed <==> i % ItemsPerDimension == ItemsPerDimension - 1)
  {
  }

  /** The layout of `TableLayout`, for one item. */
  lemma ItemLayout(i: nat)
    requires i < |Questions|
    ensures Questions[i].dimension == Dimensions[i / ItemsPerDimension]
    ensures Questions[i].reversed <==> i % ItemsPerDimension == ItemsPerDimension - 1
  {
    TableLayout();
  }

  /** Every dimension is measured by exactly three consecutive items, and
      exactly one of them, the last, is reversed. */
  lemma ItemsPerDimensionIsThree(d: Dimension)
    ensures ItemsOf(d) == {3 * Rank(d), 3 * Rank(d) + 1, 3 * Rank(d) + 2}
    ensures |ItemsOf(d)| == ItemsPerDimension
    ensures ItemsOf(d) * ReversedItems() == {3 * Rank(d) + 2}
  {
    TableLayout();
    var j := 3 * Rank(d);
    forall i: nat | i in ItemsOf(d)
      ensures i == j || i == j + 1 || i == j + 2
    {
      assert Dimensions[i / 3] == d;
    }
    assert {j, j + 1, j + 2} <= ItemsOf(d);
  }

  /** The reversed items are exactly those at indices 2, 5, 8, 11 and 14. */
  lemma ReversedItemsAreLastOfEachBlock()
    ensures ReversedItems() == {2, 5, 8, 11, 14}
  {
    TableLayout();
    forall i: nat | i in ReversedItems()
      ensures i in {2, 5, 8, 11, 14}
    {
      assert i % 3 == 2;
    }
  }
}
