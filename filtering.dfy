/**
 * The filter and search engine (src/lib/filtering.ts): conjunctive
 * attribute/operator/value rules over the catalogue, and a case-insensitive
 * free-text search. Both keep the matching items in catalogue order.
 */
module Filtering {
  import opened Wrappers
  import opened Types
  import opened Text
  import opened Seqs

  /**
   * `a === b` and the element comparison of `Array.prototype.includes`
   * (SameValueZero). Arrays are objects and compare by identity; every array
   * operand of the engine is a distinct object, so an array equals nothing.
   */
  predicate SameValue(a: Value, b: Value)
  {
    !a.List? && a == b
  }

  /** `list.includes(v)`. */
  predicate ListIncludes(list: seq<Value>, v: Value)
  {
    exists e :: e in list && SameValue(e, v)
  }

  /** The operator strings the filter's `switch` has a case for. */
  predicate KnownOperatorName(name: string)
  {
    name in {"equals", "greater", "less", "contains", "in", "has", "has_any"}
  }

  /**
   * The `switch (filter.operator)` dispatch: a name with a case selects that
   * case, any other name falls to `default` and is kept as `Other`.
   */
  function OperatorOf(name: string): (op: FilterOp)
    ensures op.Other? <==> !KnownOperatorName(name)
    ensures op.Other? ==> op.name == name
  {
    match name
    case "equals" => Equals
    case "greater" => Greater
    case "less" => Less
    case "contains" => Contains
    case "in" => In
    case "has" => Has
    case "has_any" => HasAny
    case _ => Other(name)
  }

  /** The operator string a rule is written with. */
  function NameOf(op: FilterOp): string
  {
    match op
    case Equals => "equals"
    case Greater => "greater"
    case Less => "less"
    case Contains => "contains"
    case In => "in"
    case Has => "has"
    case HasAny => "has_any"
    case Other(name) => name
  }

  /** Decoding a rule's operator string gives back the operator, and the dispatch is one-to-one on names. */
  lemma OperatorNameRoundTrip(op: FilterOp, name: string)
    requires op.Other? ==> !KnownOperatorName(op.name)
    ensures OperatorOf(NameOf(op)) == op
    ensures NameOf(OperatorOf(name)) == name
  {
  }

  /**
   * The rules the engine evaluates without throwing or coercing: `contains`
   * calls `toLowerCase` on the rule value, so it must be a string, and
   * `greater`/`less` compare against a number.
   */
  predicate WellFormedRule(rule: FilterRule)
  {
    && (rule.operator.Contains? ==> rule.value.Str?)
    && (rule.operator.Greater? || rule.operator.Less? ==> rule.value.Num?)
    && (rule.operator.Other? ==> !KnownOperatorName(rule.operator.name))
  }

  predicate WellFormedRules(rules: seq<FilterRule>)
  {
    forall i :: 0 <= i < |rules| ==> WellFormedRule(rules[i])
  }

  /**
   * One rule, judged against `item.specs[rule.attribute]`. The `Str?`/`Num?`
   * tests on the rule value are implied by `WellFormedRule`.
   */
  predicate Passes(item: Item, rule: FilterRule)
  {
    var value := SpecOf(item, rule.attribute);
    match rule.operator
    case Equals => SameValue(value, rule.value)
    case Greater => value.Num? && rule.value.Num? && value.n > rule.value.n
    case Less => value.Num? && rule.value.Num? && value.n < rule.value.n
    case Contains => value.Str? && rule.value.Str? && Includes(Lower(value.s), Lower(rule.value.s))
    case In => rule.value.List? && ListIncludes(rule.value.elems, value)
    case Has => value.List? && ListIncludes(value.elems, rule.value)
    case HasAny =>
      value.List? && rule.value.List? && exists f :: f in rule.value.elems && ListIncludes(value.elems, f)
    case Other(_) => true
  }

  /** `filters.every(...)`: the item satisfies every rule. */
  predicate PassesAll(item: Item, rules: seq<FilterRule>)
  {
    forall i :: 0 <= i < |rules| ==> Passes(item, rules[i])
  }

  /**
   * `applyFilters(items, filters)`: the items that satisfy every rule, in
   * catalogue order, each exactly as often as in the catalogue.
   */
  function ApplyFilters(items: seq<Item>, rules: seq<FilterRule>): (r: seq<Item>)
    requires WellFormedRules(rules)
    ensures forall it :: it in r <==> it in items && PassesAll(it, rules)
    ensures IsSubsequence(r, items)
    ensures forall it :: multiset(r)[it] == if PassesAll(it, rules) then multiset(items)[it] else 0
  {
    KeepIsSubsequence(items, it => PassesAll(it, rules));
    KeepCount(items, it => PassesAll(it, rules));
    Keep(items, it => PassesAll(it, rules))
  }

  /** With no rules every item passes: the catalogue comes back unchanged. */
  lemma NoRulesKeepsAll(items: seq<Item>)
    ensures ApplyFilters(items, []) == items
  {
    KeepAll(items, it => PassesAll(it, []));
  }

  /** Filtering by `a` and then by `b` is filtering once by `a + b`. */
  lemma FiltersCompose(items: seq<Item>, a: seq<FilterRule>, b: seq<FilterRule>)
    requires WellFormedRules(a) && WellFormedRules(b)
    ensures WellFormedRules(a + b)
    ensures ApplyFilters(ApplyFilters(items, a), b) == ApplyFilters(items, a + b)
  {
    forall it: Item ensures PassesAll(it, a + b) == (PassesAll(it, a) && PassesAll(it, b)) {
      if PassesAll(it, a) && PassesAll(it, b) {
        forall i | 0 <= i < |a + b| ensures Passes(it, (a + b)[i]) {
          if i >= |a| { assert (a + b)[i] == b[i - |a|]; }
        }
      }
      if PassesAll(it, a + b) {
        forall i | 0 <= i < |a| ensures Passes(it, a[i]) {
          assert (a + b)[i] == a[i];
        }
        forall i | 0 <= i < |b| ensures Passes(it, b[i]) {
          assert (a + b)[|a| + i] == b[i];
        }
      }
    }
    KeepKeep(items, it => PassesAll(it, a), it => PassesAll(it, b), it => PassesAll(it, a + b));
  }

  /** The seven operators and the fall-through arm, each as the condition under which a one-rule filter keeps an item. */
  lemma OperatorSemantics(item: Item, attribute: string, v: Value)
    ensures Passes(item, FilterRule(attribute, Equals, v)) <==> !v.List? && SpecOf(item, attribute) == v
    ensures Passes(item, FilterRule(attribute, Equals, Null)) <==> attribute in item.specs && item.specs[attribute] == Null
    ensures v.Num? ==> (Passes(item, FilterRule(attribute, Greater, v)) <==> exists n :: SpecOf(item, attribute) == Num(n) && n > v.n)
    ensures v.Num? ==> (Passes(item, FilterRule(attribute, Less, v)) <==> exists n :: SpecOf(item, attribute) == Num(n) && n < v.n)
    ensures v.Str? ==> (Passes(item, FilterRule(attribute, Contains, v)) <==>
                         exists s :: SpecOf(item, attribute) == Str(s) && Includes(Lower(s), Lower(v.s)))
    ensures Passes(item, FilterRule(attribute, In, v)) <==>
              v.List? && !SpecOf(item, attribute).List? && SpecOf(item, attribute) in v.elems
    ensures Passes(item, FilterRule(attribute, Has, v)) <==>
              SpecOf(item, attribute).List? && !v.List? && v in SpecOf(item, attribute).elems
    ensures Passes(item, FilterRule(attribute, HasAny, v)) <==>
              SpecOf(item, attribute).List? && v.List? &&
              exists f :: f in v.elems && !f.List? && f in SpecOf(item, attribute).elems
    ensures forall name :: !KnownOperatorName(name) ==>
              OperatorOf(name).Other? && Passes(item, FilterRule(attribute, OperatorOf(name), v))
  {
    var value := SpecOf(item, attribute);
    if value.List? && v.List? {
      if exists f :: f in v.elems && ListIncludes(value.elems, f) {
        var f :| f in v.elems && ListIncludes(value.elems, f);
        var e :| e in value.elems && SameValue(e, f);
        assert f in value.elems;
      }
    }
  }

  /** An `in` rule over the filling system keeps exactly the piston and vacuum fillers. */
  lemma FillingSystemExample(items: seq<Item>)
    ensures var rule := FilterRule("filling_system", In, List([Str("piston"), Str("vacuum")]));
            forall it :: it in ApplyFilters(items, [rule]) <==>
              it in items && SpecOf(it, "filling_system") in {Str("piston"), Str("vacuum")}
  {
    var rule := FilterRule("filling_system", In, List([Str("piston"), Str("vacuum")]));
    forall it: Item ensures PassesAll(it, [rule]) <==> SpecOf(it, "filling_system") in {Str("piston"), Str("vacuum")} {
      OperatorSemantics(it, "filling_system", rule.value);
      assert PassesAll(it, [rule]) <==> Passes(it, rule) by {
        assert [rule][0] == rule;
      }
      var v := SpecOf(it, "filling_system");
      assert v in rule.value.elems <==> v == Str("piston") || v == Str("vacuum");
    }
  }

  /**
   * `item` matches the already lower-cased search `term`: its name, its
   * description or one of its string specs contains the term, ignoring case.
   */
  predicate MatchesTerm(item: Item, term: string)
  {
    || Includes(Lower(item.name), term)
    || (item.description.Some? && Includes(Lower(item.description.value), term))
    || exists k :: k in item.specs && item.specs[k].Str? && Includes(Lower(item.specs[k].s), term)
  }

  /**
   * `searchItems(items, searchTerm)`: a blank term returns the catalogue;
   * otherwise the items matching the lower-cased (untrimmed) term, in order.
   */
  function SearchItems(items: seq<Item>, searchTerm: string): (r: seq<Item>)
    ensures AllWhitespace(searchTerm) ==> r == items
    ensures !AllWhitespace(searchTerm) ==>
              forall it :: it in r <==> it in items && MatchesTerm(it, Lower(searchTerm))
    ensures IsSubsequence(r, items)
    ensures !AllWhitespace(searchTerm) ==>
              forall it :: multiset(r)[it] == if MatchesTerm(it, Lower(searchTerm)) then multiset(items)[it] else 0
  {
    TrimEmptyIff(searchTerm);
    if Trim(searchTerm) == [] then
      KeepAll(items, it => true);
      KeepIsSubsequence(items, it => true);
      items
    else
      KeepIsSubsequence(items, it => MatchesTerm(it, Lower(searchTerm)));
      KeepCount(items, it => MatchesTerm(it, Lower(searchTerm)));
      Keep(items, it => MatchesTerm(it, Lower(searchTerm)))
  }

  /** Search ignores case: two terms with the same lower-case form find the same items. */
  lemma SearchIgnoresCase(items: seq<Item>, t1: string, t2: string)
    requires Lower(t1) == Lower(t2)
    ensures SearchItems(items, t1) == SearchItems(items, t2)
  {
    LowerKeepsWhitespace(t1);
    LowerKeepsWhitespace(t2);
    TrimEmptyIff(t1);
    TrimEmptyIff(t2);
    if !AllWhitespace(t1) {
      KeepAgree(items, it => MatchesTerm(it, Lower(t1)), it => MatchesTerm(it, Lower(t2)));
    }
  }

  /** "RESIN" and "resin" find the same pens. */
  lemma SearchResinExample(items: seq<Item>)
    ensures SearchItems(items, "RESIN") == SearchItems(items, "resin")
  {
    assert Lower("RESIN") == "resin";
    SearchIgnoresCase(items, "RESIN", "resin");
  }
}
