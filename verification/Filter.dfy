/**
 * The transaction filter (`FilterData`): the option strings a user picks per
 * field, the predicate text the source builds from them for the persistent
 * store, and the meaning of that predicate on a persisted transaction.
 *
 * The model has two layers. `CreatePredicate` follows the source step by step,
 * appending format fragments and arguments to an accumulator. `Clauses` lists
 * the same conditions as data, and `Holds` gives each one its meaning. The
 * lemmas show that the first layer is the rendering of the second, and that
 * the conditions mean what the per-field rules say.
 */
module Filter {
  import opened Wrappers
  import opened Text
  import opened Transactions

  // Raw strings of the three option enumerations.
  const NoneOption := "none"
  const BeforeOption := "before"
  const AfterOption := "after"
  const BetweenOption := "between"
  const EqualsOption := "equals"
  const GreaterOption := "greater than"
  const LessOption := "less than"
  const ContainsOption := "contains"

  const FilterDateOptions: seq<string> := [NoneOption, BeforeOption, AfterOption, BetweenOption]
  const FilterNumberOptions: seq<string> := [NoneOption, EqualsOption, GreaterOption, LessOption, BetweenOption]
  const FilterStringOptions: seq<string> := [NoneOption, EqualsOption, ContainsOption]

  /**
   * The stored filter fields. Options stay raw strings because the source
   * dispatches on strings: a string that names no case is accepted and ignored.
   */
  datatype FilterData = FilterData(
    dateFilterOption: string, startDate: int, endDate: int,
    categoryFilterOption: string, categoryText: string,
    amountFilterOption: string, amount: int, amountOther: int,
    vendorFilterOption: string, vendorText: string)

  /** The filter made by the argument-less initialiser; `now` is the current date. */
  function DefaultFilter(now: int): (f: FilterData)
    ensures !IsActive(f)
  {
    FilterData(NoneOption, now, now, NoneOption, "", NoneOption, 0, 0, NoneOption, "")
  }

  /** Some field option names a case that adds a condition. */
  predicate IsActive(f: FilterData)
  {
    || f.dateFilterOption in FilterDateOptions[1..]
    || f.categoryFilterOption in FilterStringOptions[1..]
    || f.amountFilterOption in FilterNumberOptions[1..]
    || f.vendorFilterOption in FilterStringOptions[1..]
  }

  /* ---------------- The predicate text, built as the source builds it ---------------- */

  /** An entry of the argument array: a `%K` key or a `%@` value. */
  datatype Argument = KeyArgument(key: Attribute) | ValueArgument(value: Value)

  /** The format string and argument array handed to the predicate constructor. */
  datatype PredicateText = PredicateText(format: string, arguments: seq<Argument>)

  const EmptyPredicate := PredicateText("", [])
  const Conjunction := " AND "

  /** Appends one fragment, preceded by the conjunction unless the format is still empty. */
  function AppendClause(p: PredicateText, fragment: string, args: seq<Argument>): PredicateText
  {
    PredicateText(p.format + (if p.format != "" then Conjunction else "") + fragment, p.arguments + args)
  }

  function DateKeyValue(d: int): seq<Argument>
  {
    [KeyArgument(Date), ValueArgument(DateValue(d))]
  }

  /** The `switch dateFilterOption` step. */
  function AddDateClause(p: PredicateText, f: FilterData): PredicateText
  {
    var o := f.dateFilterOption;
    if o == NoneOption then p
    else if o == BeforeOption then AppendClause(p, "%K <= %@", DateKeyValue(f.startDate))
    else if o == AfterOption then AppendClause(p, "%K >= %@", DateKeyValue(f.startDate))
    else if o == BetweenOption then
      AppendClause(p, "%K >= %@ AND %K <= %@", DateKeyValue(f.startDate) + DateKeyValue(f.endDate))
    else p
  }

  /** The `switch` step shared by the category and the vendor field. */
  function AddTextClause(p: PredicateText, option: string, key: Attribute, text: string): PredicateText
  {
    if option == NoneOption then p
    else if option == EqualsOption then
      AppendClause(p, "%K == %@", [KeyArgument(key), ValueArgument(TextValue(text))])
    else if option == ContainsOption then
      AppendClause(p, "%K CONTAINS[cd] %@", [KeyArgument(key), ValueArgument(TextValue(text))])
    else p
  }

  function AmountKeyValue(a: int): seq<Argument>
  {
    [KeyArgument(Amount), ValueArgument(AmountValue(a))]
  }

  /** The `switch amountFilterOption` step. */
  function AddAmountClause(p: PredicateText, f: FilterData): PredicateText
  {
    var o := f.amountFilterOption;
    if o == NoneOption then p
    else if o == EqualsOption then AppendClause(p, "%K == %@", AmountKeyValue(f.amount))
    else if o == GreaterOption then AppendClause(p, "%K > %@", AmountKeyValue(f.amount))
    else if o == LessOption then AppendClause(p, "%K < %@", AmountKeyValue(f.amount))
    else if o == BetweenOption then
      AppendClause(p, "%K BETWEEN {%@, %@}", AmountKeyValue(f.amount) + [ValueArgument(AmountValue(f.amountOther))])
    else p
  }

  /** The four field steps, in the source's order. */
  function FieldPredicate(f: FilterData): PredicateText
  {
    var p0 := AddDateClause(EmptyPredicate, f);
    var p1 := AddTextClause(p0, f.categoryFilterOption, Category, f.categoryText);
    var p2 := AddAmountClause(p1, f);
    AddTextClause(p2, f.vendorFilterOption, Vendor, f.vendorText)
  }

  /**
   * `createPredicateForTransactionsFromFilterOptions`. The predicate
   * constructor is handed only well-formed fragments, so the result is nil
   * exactly when no field produced a condition.
   */
  function CreatePredicate(f: FilterData, transactionOwner: string): Option<PredicateText>
  {
    FinishPredicate(FieldPredicate(f), transactionOwner)
  }

  /** The tail of the source function: give up on an empty format, then add the owner. */
  function FinishPredicate(p: PredicateText, transactionOwner: string): Option<PredicateText>
  {
    if p.format == "" then None
    else
      var q := if transactionOwner != "" then
                 AppendClause(p, "%K == %@", [KeyArgument(Owner), ValueArgument(TextValue(transactionOwner))])
               else p;
      Some(q)
  }

  /* ---------------- The same conditions as data ---------------- */

  datatype Comparison = AtMost | AtLeast | EqualTo | Above | Below | ContainsFolded

  /** One comparison of the predicate: a key compared with one value, or a `BETWEEN` range. */
  datatype Clause =
    | Compare(key: Attribute, op: Comparison, operand: Value)
    | Within(key: Attribute, low: Value, high: Value)

  function DateClauses(f: FilterData): seq<Clause>
  {
    var o := f.dateFilterOption;
    if o == BeforeOption then [Compare(Date, AtMost, DateValue(f.startDate))]
    else if o == AfterOption then [Compare(Date, AtLeast, DateValue(f.startDate))]
    else if o == BetweenOption then
      [Compare(Date, AtLeast, DateValue(f.startDate)), Compare(Date, AtMost, DateValue(f.endDate))]
    else []
  }

  function TextClauses(option: string, key: Attribute, text: string): seq<Clause>
  {
    if option == EqualsOption then [Compare(key, EqualTo, TextValue(text))]
    else if option == ContainsOption then [Compare(key, ContainsFolded, TextValue(text))]
    else []
  }

  function AmountClauses(f: FilterData): seq<Clause>
  {
    var o := f.amountFilterOption;
    if o == EqualsOption then [Compare(Amount, EqualTo, AmountValue(f.amount))]
    else if o == GreaterOption then [Compare(Amount, Above, AmountValue(f.amount))]
    else if o == LessOption then [Compare(Amount, Below, AmountValue(f.amount))]
    else if o == BetweenOption then [Within(Amount, AmountValue(f.amount), AmountValue(f.amountOther))]
    else []
  }

  /** The field conditions in the order date, category, amount, vendor. */
  function FieldClauses(f: FilterData): seq<Clause>
  {
    DateClauses(f) + TextClauses(f.categoryFilterOption, Category, f.categoryText)
    + AmountClauses(f) + TextClauses(f.vendorFilterOption, Vendor, f.vendorText)
  }

  function OwnerClause(owner: string): Clause
  {
    Compare(Owner, EqualTo, TextValue(owner))
  }

  /** The conditions of the predicate, or `None` when no field condition was produced. */
  function Clauses(f: FilterData, owner: string): Option<seq<Clause>>
  {
    WithOwner(FieldClauses(f), owner)
  }

  function WithOwner(fields: seq<Clause>, owner: string): Option<seq<Clause>>
  {
    if fields == [] then None
    else Some(fields + (if owner != "" then [OwnerClause(owner)] else []))
  }

  /* ---------------- Rendering conditions as predicate text ---------------- */

  function OperatorText(op: Comparison): string
  {
    match op
    case AtMost => " <= "
    case AtLeast => " >= "
    case EqualTo => " == "
    case Above => " > "
    case Below => " < "
    case ContainsFolded => " CONTAINS[cd] "
  }

  function Fragment(c: Clause): string
  {
    match c
    case Compare(_, op, _) => "%K" + OperatorText(op) + "%@"
    case Within(_, _, _) => "%K BETWEEN {" + "%@" + ", " + "%@" + "}"
  }

  function ClauseArguments(c: Clause): seq<Argument>
  {
    match c
    case Compare(k, _, v) => [KeyArgument(k), ValueArgument(v)]
    case Within(k, lo, hi) => [KeyArgument(k), ValueArgument(lo), ValueArgument(hi)]
  }

  /** Appends the clauses one after another with `AppendClause`. */
  function AppendClauses(p: PredicateText, cs: seq<Clause>): PredicateText
    decreases |cs|
  {
    if |cs| == 0 then p
    else
      var last := cs[|cs| - 1];
      AppendClause(AppendClauses(p, cs[..|cs| - 1]), Fragment(last), ClauseArguments(last))
  }

  function Render(cs: seq<Clause>): PredicateText
  {
    AppendClauses(EmptyPredicate, cs)
  }

  /* ---------------- Meaning of a condition ---------------- */

  predicate CompareNumbers(x: int, op: Comparison, y: int)
  {
    match op
    case AtMost => x <= y
    case AtLeast => x >= y
    case EqualTo => x == y
    case Above => x > y
    case Below => x < y
    case ContainsFolded => false
  }

  /**
   * `v op operand`: numbers compare numerically, texts by equality or folded
   * containment. Foundation's substring search finds nothing for an empty
   * search string, so `CONTAINS[cd]` with an empty operand holds of no text.
   */
  predicate Satisfies(v: Value, op: Comparison, operand: Value)
  {
    match (v, operand)
    case (DateValue(x), DateValue(y)) => CompareNumbers(x, op, y)
    case (AmountValue(x), AmountValue(y)) => CompareNumbers(x, op, y)
    case (TextValue(x), TextValue(y)) =>
      (op == EqualTo && x == y) || (op == ContainsFolded && y != "" && IsSubstring(Fold(y), Fold(x)))
    case _ => false
  }

  /** The condition holds of a persisted transaction; `BETWEEN` includes both ends. */
  predicate Holds(c: Clause, t: StoredTransaction)
  {
    match c
    case Compare(k, op, v) => Satisfies(ValueForKey(t, k), op, v)
    case Within(k, lo, hi) => Satisfies(ValueForKey(t, k), AtLeast, lo) && Satisfies(ValueForKey(t, k), AtMost, hi)
  }

  predicate HoldsAll(cs: seq<Clause>, t: StoredTransaction)
  {
    forall i :: 0 <= i < |cs| ==> Holds(cs[i], t)
  }

  /** The predicate built for `f` and `owner` exists and selects `t`. */
  predicate Matches(t: StoredTransaction, f: FilterData, owner: string)
  {
    var cs := Clauses(f, owner);
    cs.Some? && HoldsAll(cs.value, t)
  }

  /* ---------------- The per-field rules, stated directly ---------------- */

  predicate DateRule(f: FilterData, d: int)
  {
    var o := f.dateFilterOption;
    if o == BeforeOption then d <= f.startDate
    else if o == AfterOption then d >= f.startDate
    else if o == BetweenOption then f.startDate <= d && d <= f.endDate
    else true
  }

  predicate TextRule(option: string, text: string, field: string)
  {
    if option == EqualsOption then field == text
    else if option == ContainsOption then text != "" && IsSubstring(Fold(text), Fold(field))
    else true
  }

  predicate AmountRule(f: FilterData, a: int)
  {
    var o := f.amountFilterOption;
    if o == EqualsOption then a == f.amount
    else if o == GreaterOption then a > f.amount
    else if o == LessOption then a < f.amount
    else if o == BetweenOption then f.amount <= a && a <= f.amountOther
    else true
  }

  /** Every field rule and the owner scope accept `t`. */
  predicate FilterRules(f: FilterData, owner: string, t: StoredTransaction)
  {
    && DateRule(f, t.record.date)
    && TextRule(f.categoryFilterOption, f.categoryText, t.record.category)
    && AmountRule(f, t.record.amount)
    && TextRule(f.vendorFilterOption, f.vendorText, t.record.vendor)
    && (owner != "" ==> t.owner == owner)
  }
}
