/** What comes with a provider's answer beside its text, and whether a run can be marked with it. */
module Answers {
  import opened Options
  import opened Texts

  datatype Numeric = Finite(value: real) | Infinite(negative: bool) | NotANumber

  /** One reported figure: a text is given by what `int` and `Decimal` make of it, if they accept it. */
  datatype Figure =
    | Missing
    | Compound
    | Figure(value: Numeric)
    | Words(asInt: Option<int>, asDecimal: Option<Numeric>)

  datatype Usage = Usage(prompt: Figure, completion: Figure, total: Figure, cost: Figure)

  /** The figures as they are handed to the marking. */
  datatype Figures = Figures(prompt: Option<int>, completion: Option<int>, total: Option<int>, cost: Option<Numeric>)

  /** Either a value, or an exception nobody handles. */
  datatype Read<+T> = Raises | Got(value: T)

  /** `int` of a number cuts off towards zero. */
  function Truncated(r: real): int {
    if r >= 0.0 then r.Floor else -(-r).Floor
  }

  function Counted(n: int): Option<int> {
    if n >= 0 then Some(n) else None
  }

  /** `_usage_int`: a list or an object cannot be looked up in a set, and `int` of an infinity overflows. */
  function ReadTokens(f: Figure): Read<Option<int>> {
    match f
    case Missing => Got(None)
    case Compound => Raises
    case Words(n, _) => Got(if n.Some? then Counted(n.value) else None)
    case Figure(Finite(r)) => Got(Counted(Truncated(r)))
    case Figure(Infinite(_)) => Raises
    case Figure(NotANumber) => Got(None)
  }

  /** `parsed if parsed >= 0 else None`, outside the `try`: comparing with a NaN raises. */
  function Charged(n: Numeric): Read<Option<Numeric>> {
    match n
    case NotANumber => Raises
    case Infinite(negative) => Got(if negative then None else Some(n))
    case Finite(r) => Got(if r >= 0.0 then Some(n) else None)
  }

  /** `_cost` */
  function ReadCost(f: Figure): Read<Option<Numeric>> {
    match f
    case Missing => Got(None)
    case Compound => Raises
    case Words(_, d) => if d.Some? then Charged(d.value) else Got(None)
    case Figure(n) => Charged(n)
  }

  function ReadUsage(u: Usage): Read<Figures> {
    var prompt, completion, total, cost := ReadTokens(u.prompt), ReadTokens(u.completion), ReadTokens(u.total), ReadCost(u.cost);
    if prompt.Raises? || completion.Raises? || total.Raises? || cost.Raises? then Raises
    else Got(Figures(prompt.value, completion.value, total.value, cost.value))
  }

  /** The largest count a column takes. */
  const MAX_TOKENS := 2147483647

  /** From here on a cost rounds to more digits than its column has. */
  const COST_LIMIT := 999999.9999995

  predicate TokensFit(n: Option<int>) {
    n.Some? ==> 0 <= n.value <= MAX_TOKENS
  }

  predicate CostFits(n: Option<Numeric>) {
    n.Some? ==> n.value.Finite? && 0.0 <= n.value.value < COST_LIMIT
  }

  /** The checks of the marking and the columns of the run. */
  predicate ColumnsHold(f: Figures) {
    TokensFit(f.prompt) && TokensFit(f.completion) && TokensFit(f.total) && CostFits(f.cost)
  }

  predicate UsageReads(u: Usage) {
    ReadUsage(u).Got? && ColumnsHold(ReadUsage(u).value)
  }

  /** The figures for tokens that do no harm. */
  predicate HarmlessTokens(f: Figure) {
    match f
    case Missing => true
    case Compound => false
    case Words(n, _) => n.Some? ==> n.value <= MAX_TOKENS
    case Figure(Finite(r)) => r < 2147483648.0
    case Figure(n) => n.NotANumber?
  }

  /** The figures for the cost that do no harm. */
  predicate HarmlessCost(f: Figure) {
    match f
    case Missing => true
    case Compound => false
    case Words(_, d) => d.Some? ==> HarmlessAmount(d.value)
    case Figure(n) => HarmlessAmount(n)
  }

  predicate HarmlessAmount(n: Numeric) {
    match n
    case NotANumber => false
    case Infinite(negative) => negative
    case Finite(r) => r < COST_LIMIT
  }

  /** A reported usage can be read and stored exactly if each of its four figures does no harm. */
  lemma UsageReadsIff(u: Usage)
    ensures UsageReads(u) <==>
              HarmlessTokens(u.prompt) && HarmlessTokens(u.completion) && HarmlessTokens(u.total) && HarmlessCost(u.cost)
  {
  }

  /** The name of the answering model, unless it has a character that cannot be encoded. */
  type ModelName = Option<string>

  /** What a run can be marked with: at most 200 characters, none of them NUL. */
  predicate NameFits(name: ModelName) {
    name.Some? && |Strip(name.value)| <= 200 && '\0' !in Strip(name.value)
  }

  /** What comes with an answer. `storable`: no text of the reply has a NUL or a character that cannot be encoded. */
  datatype Terms = Terms(model: ModelName, usage: Usage, storable: bool)

  /** A run can be marked as successful with an answer on these terms. */
  predicate Marks(t: Terms) {
    NameFits(t.model) && UsageReads(t.usage) && t.storable
  }

  /** An answer can be recorded as a success exactly if name, figures and texts all fit their columns. */
  lemma MarksIff(t: Terms)
    ensures Marks(t) <==>
              && t.storable && t.model.Some? && |Strip(t.model.value)| <= 200 && '\0' !in Strip(t.model.value)
              && HarmlessTokens(t.usage.prompt) && HarmlessTokens(t.usage.completion) && HarmlessTokens(t.usage.total)
              && HarmlessCost(t.usage.cost)
  {
    UsageReadsIff(t.usage);
    hide UsageReads;
    hide HarmlessTokens;
    hide HarmlessCost;
  }
}
