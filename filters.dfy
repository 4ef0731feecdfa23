/**
 * The filter translator: parsed search filters become post-aggregation
 * conditions, one per filter and in the same order, with dotted field names
 * flattened and unknown operators read as equality.
 */
module Filters {
  import opened Snuba

  /** A filter as the search parser delivers it: field name, operator symbol and value. */
  datatype SearchFilter = SearchFilter(key: string, operator: string, value: Value)

  const OPERATOR_MAP: map<string, Op> := map[
    "=" := EQ,
    "!=" := NEQ,
    ">" := GT,
    ">=" := GTE,
    "<" := LT,
    "<=" := LTE
  ]

  /** The map's keys are the six comparison symbols, and each maps to the operator written that way. */
  lemma OperatorMapInvertsSymbol()
    ensures OPERATOR_MAP.Keys == {"=", "!=", ">", ">=", "<", "<="}
    ensures forall k :: k in OPERATOR_MAP ==> Symbol(OPERATOR_MAP[k]) == k && OPERATOR_MAP[k] != IN
  {
  }

  /**
   * `OPERATOR_MAP.get(symbol, "=")`. The fallback in the source is the text
   * "=", which is the value of the equality operator; it is modelled as EQ.
   */
  function ResolveOperator(symbol: string): (op: Op)
    ensures op != IN
    ensures Symbol(op) == (if symbol in OPERATOR_MAP then symbol else "=")
  {
    if symbol in OPERATOR_MAP then OPERATOR_MAP[symbol] else EQ
  }

  /** Every comparison operator is recovered from its own symbol. */
  lemma ResolveSymbolRoundTrip(op: Op)
    requires op != IN
    ensures ResolveOperator(Symbol(op)) == op
  {
  }

  /** An operator outside the six known symbols is read as equality. */
  lemma UnknownOperatorIsEquality(symbol: string)
    requires symbol !in {"=", "!=", ">", ">=", "<", "<="}
    ensures ResolveOperator(symbol) == EQ
  {
  }

  /** `key.replace(".", "_")`: nested field names become flat column names. */
  function FlatColumnName(key: string): (r: string)
    ensures |r| == |key|
    ensures forall i :: 0 <= i < |key| ==> r[i] == (if key[i] == '.' then '_' else key[i])
  {
    if key == [] then []
    else (if key[0] == '.' then "_" else [key[0]]) + FlatColumnName(key[1..])
  }

  /** A flat name has no dots, and flattening it again changes nothing. */
  lemma FlatColumnNameIsFlat(key: string)
    ensures '.' !in FlatColumnName(key)
    ensures FlatColumnName(FlatColumnName(key)) == FlatColumnName(key)
  {
    var r := FlatColumnName(key);
    assert forall i :: 0 <= i < |r| ==> r[i] != '.';
  }

  /** A name without dots is kept as it is. */
  lemma FlatNameUnchanged(key: string)
    requires '.' !in key
    ensures FlatColumnName(key) == key
  {
  }

  lemma FlatColumnNameExample()
    ensures FlatColumnName("user.id") == "user_id"
  {
  }

  /**
   * The condition one filter becomes: the filter's value, untouched, compared
   * against a dot-free column as long as the key, by the filter's operator
   * when it is known and by equality otherwise.
   */
  function TranslateFilter(f: SearchFilter): (c: Condition)
    ensures c.rhs == f.value
    ensures c.lhs.Column? && '.' !in c.lhs.name && |c.lhs.name| == |f.key|
    ensures Symbol(c.op) == (if f.operator in OPERATOR_MAP then f.operator else "=")
  {
    FlatColumnNameIsFlat(f.key);
    Condition(Column(FlatColumnName(f.key)), ResolveOperator(f.operator), f.value)
  }

  /** `search_filters_to_snuba_filters`, as the sequence it yields. */
  function SnubaFilters(filters: seq<SearchFilter>): (r: seq<Condition>)
    ensures |r| == |filters|
    ensures forall i :: 0 <= i < |filters| ==> r[i] == TranslateFilter(filters[i])
  {
    if filters == [] then [] else [TranslateFilter(filters[0])] + SnubaFilters(filters[1..])
  }

  /** Translation keeps order: translating a concatenation concatenates the translations. */
  lemma SnubaFiltersAppend(a: seq<SearchFilter>, b: seq<SearchFilter>)
    ensures SnubaFilters(a + b) == SnubaFilters(a) + SnubaFilters(b)
  {
    var whole, parts := SnubaFilters(a + b), SnubaFilters(a) + SnubaFilters(b);
    forall i | 0 <= i < |whole| ensures whole[i] == parts[i] {
      if i < |a| {
        assert (a + b)[i] == a[i];
      } else {
        assert (a + b)[i] == b[i - |a|];
      }
    }
  }

  /** Each condition compares the filter's own value, untouched, against a dot-free column. */
  lemma TranslatedConditionShape(filters: seq<SearchFilter>, i: int)
    requires 0 <= i < |filters|
    ensures var c := SnubaFilters(filters)[i];
      && c.rhs == filters[i].value
      && c.lhs.Column? && '.' !in c.lhs.name && |c.lhs.name| == |filters[i].key|
      && c.op != IN
  {
    FlatColumnNameIsFlat(filters[i].key);
  }

  /** The generator's loop: one condition appended per filter, in order. */
  method SearchFiltersToSnubaFilters(filters: seq<SearchFilter>) returns (conditions: seq<Condition>)
    ensures conditions == SnubaFilters(filters)
  {
    conditions := [];
    for i := 0 to |filters|
      invariant |conditions| == i
      invariant forall k :: 0 <= k < i ==> conditions[k] == TranslateFilter(filters[k])
    {
      var f := filters[i];
      var op := ResolveOperator(f.operator);
      var column := FlatColumnName(f.key);
      conditions := conditions + [Condition(Column(column), op, f.value)];
    }
  }
}
