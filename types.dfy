/**
 * The records of the pen catalogue: criteria with their per-value score
 * tables, items with their specs, pairwise criterion comparisons and
 * filter rules (src/lib/types.ts).
 */
module Types {
  import opened Wrappers

  /**
   * A JavaScript value as it can appear as an item spec or as a filter
   * operand. Items declare their specs as strings or null, but the filter
   * engine also inspects numbers and arrays, so the model admits them.
   * `Undefined` is what reading a missing key yields.
   */
  datatype Value =
    | Undefined
    | Null
    | Str(s: string)
    | Num(n: real)
    | List(elems: seq<Value>)

  /** One entry of a criterion's value table: its display label and its 1-5 score. */
  datatype CriterionValue = CriterionValue(value: string, score: real)

  /** A weighted evaluation dimension with a table of per-value scores. */
  datatype Criterion = Criterion(
    id: string,
    name: string,
    description: Option<string>,
    weight: real,
    values: map<string, CriterionValue>,
    defaultScore: real)

  /** A catalogue entry; `specs` maps a criterion id to the item's value for it. */
  datatype Item = Item(
    id: string,
    name: string,
    cost: real,
    description: Option<string>,
    url: Option<string>,
    specs: map<string, Value>)

  /** Which side of a pairwise comparison is preferred. */
  datatype Preference = A | B | Equal

  datatype CriterionComparison = CriterionComparison(
    criterionAId: string,
    criterionBId: string,
    preference: Preference)

  /**
   * The operator of a filter rule: the seven the filter engine recognises,
   * plus any other name, which it lets through. `Other` carries only names
   * none of the seven cases matches (`Filtering.OperatorOf` decodes a name).
   */
  datatype FilterOp =
    | Equals
    | Greater
    | Less
    | Contains
    | In
    | Has
    | HasAny
    | Other(name: string)

  datatype FilterRule = FilterRule(attribute: string, operator: FilterOp, value: Value)

  /** `item.specs[key]`: the stored value, or `Undefined` when the key is absent. */
  function SpecOf(item: Item, key: string): (v: Value)
    ensures key !in item.specs ==> v == Undefined
  {
    if key in item.specs then item.specs[key] else Undefined
  }

  /** The set of criterion ids that occur in `cs`. */
  function IdSet(cs: seq<Criterion>): set<string>
  {
    set c | c in cs :: c.id
  }

  /** No two criteria of `cs` share an id. */
  predicate DistinctIds(cs: seq<Criterion>)
  {
    forall i, j :: 0 <= i < j < |cs| ==> cs[i].id != cs[j].id
  }
}
