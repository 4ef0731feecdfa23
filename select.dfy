/**
 * The select list of the replay query: the replay id, one representative
 * value per scalar attribute, the two IP addresses in text form, the
 * flattened trace ids, and the time, url and segment aggregates.
 */
module Select {
  import opened Wrappers
  import opened Snuba

  /** Python truthiness of an optional string: present and non-empty. */
  predicate Truthy(s: Option<string>) {
    s.Some? && s.value != ""
  }

  /** The engine functions that reduce the rows of a group to one value. */
  const GROUP_FUNCTIONS: set<string> :=
    {"groupUniqArray", "groupUniqArrayArray", "min", "max", "groupArray", "count"}

  /** The names the time aggregates are selected under; `duration` refers to them. */
  const TIME_AGGREGATES: set<string> := {"started_at", "finished_at"}

  /**
   * An expression is computed per group: it calls a group function somewhere,
   * or refers by name to one of the time aggregates.
   */
  predicate Aggregated(e: Expr)
    decreases e, 1
  {
    match e
    case Column(n) => n in TIME_AGGREGATES
    case Function(f, ps, _) => f in GROUP_FUNCTIONS || SomeAggregated(ps)
    case _ => false
  }

  /** Some expression of the list is computed per group. */
  predicate SomeAggregated(ps: seq<Expr>)
    decreases ps, 0
  {
    |ps| > 0 && (Aggregated(ps[0]) || SomeAggregated(ps[1..]))
  }

  /** `_grouped_unique_values`: the unique values of a column within a group. */
  function GroupedUniqueValues(columnName: string, aliased: bool): Expr {
    Function("groupUniqArray", [Column(columnName)], if aliased then Some(columnName) else None)
  }

  /** `_grouped_unique_scalar_value`: the first of the column's unique values. */
  function GroupedUniqueScalarValue(columnName: string, alias: Option<string>, aliased: bool): Expr {
    Function(
      "arrayElement",
      [GroupedUniqueValues(columnName, false), IntLit(1)],
      if aliased then Some(if Truthy(alias) then alias.value else columnName) else None)
  }

  /**
   * The unique values are a group function over the column itself, computed
   * per group, and named by the column when `aliased`.
   */
  lemma GroupedUniqueValuesShape(columnName: string, aliased: bool)
    ensures var e := GroupedUniqueValues(columnName, aliased);
      && e.Function? && e.fname in GROUP_FUNCTIONS && e.parameters == [Column(columnName)]
      && Aggregated(e)
      && OutputName(e) == (if aliased then Some(columnName) else None)
  {
  }

  /**
   * The scalar is element 1 of the unnamed unique-values array, so it is
   * computed per group. It is named by the explicit alias when that is a
   * non-empty string, else by the column's own name, and is unnamed when
   * `aliased` is false.
   */
  lemma GroupedUniqueScalarValueShape(columnName: string, alias: Option<string>, aliased: bool)
    ensures var e := GroupedUniqueScalarValue(columnName, alias, aliased);
      && e.Function? && e.fname == "arrayElement"
      && e.parameters == [GroupedUniqueValues(columnName, false), IntLit(1)]
      && OutputName(e.parameters[0]) == None
      && Aggregated(e)
      && (aliased && !Truthy(alias) ==> OutputName(e) == Some(columnName))
      && (aliased && Truthy(alias) ==> OutputName(e) == alias)
      && (!aliased ==> OutputName(e) == None)
  {
    ScalarIsAggregated(columnName, alias, aliased);
  }

  /** The common case: aliased, under the column's own name. */
  function Scalar(columnName: string): Expr {
    GroupedUniqueScalarValue(columnName, None, true)
  }

  /** `make_select_statement`: the grouping key, then one item per response field. */
  function MakeSelectStatement(): (sel: seq<Expr>)
    ensures |sel| == 24
  {
    [
      Column("replay_id"),
      Scalar("title"),
      GroupedUniqueScalarValue("project_id", Some("agg_project_id"), true),
      Scalar("platform"),
      Scalar("environment"),
      Scalar("release"),
      Scalar("dist"),
      Function("IPv4NumToString", [GroupedUniqueScalarValue("ip_address_v4", None, false)], Some("ip_address_v4")),
      Function("IPv6NumToString", [GroupedUniqueScalarValue("ip_address_v6", None, false)], Some("ip_address_v6")),
      Scalar("user"),
      Scalar("user_id"),
      Scalar("user_email"),
      Scalar("user_name"),
      Scalar("sdk_name"),
      Scalar("sdk_version"),
      Scalar("tags.key"),
      Scalar("tags.value"),
      Function(
        "arrayMap",
        [
          Lambda(["trace_id"], Function("toString", [Identifier("trace_id")], None)),
          Function("groupUniqArrayArray", [Column("trace_ids")], None)
        ],
        Some("trace_ids")),
      Function("min", [Column("timestamp")], Some("started_at")),
      Function("max", [Column("timestamp")], Some("finished_at")),
      Function("dateDiff", [StrLit("second"), Column("started_at"), Column("finished_at")], Some("duration")),
      Function("groupArray", [Column("url")], Some("urls")),
      Function("count", [Column("url")], Some("count_urls")),
      Function("count", [Column("sequence_id")], Some("count_segments"))
    ]
  }

  /** The columns of a result row, in select order. */
  const RESPONSE_FIELDS: seq<string> := [
    "replay_id", "title", "agg_project_id", "platform", "environment", "release", "dist",
    "ip_address_v4", "ip_address_v6", "user", "user_id", "user_email", "user_name",
    "sdk_name", "sdk_version", "tags.key", "tags.value", "trace_ids",
    "started_at", "finished_at", "duration", "urls", "count_urls", "count_segments"
  ]

  lemma LeadingItemsNamed(i: int)
    requires 0 <= i < 12
    ensures OutputName(MakeSelectStatement()[i]) == Some(RESPONSE_FIELDS[i])
  {
  }

  lemma TrailingItemsNamed(i: int)
    requires 12 <= i < 24
    ensures OutputName(MakeSelectStatement()[i]) == Some(RESPONSE_FIELDS[i])
  {
  }

  /** The result columns are the response fields, in order, and the list starts with the grouping key. */
  lemma SelectStatementNames()
    ensures var sel := MakeSelectStatement();
      && |sel| == |RESPONSE_FIELDS|
      && sel[0] == Column("replay_id")
      && forall i :: 0 <= i < |sel| ==> OutputName(sel[i]) == Some(RESPONSE_FIELDS[i])
  {
    var sel := MakeSelectStatement();
    forall i | 0 <= i < |sel| ensures OutputName(sel[i]) == Some(RESPONSE_FIELDS[i]) {
      if i < 12 {
        LeadingItemsNamed(i);
      } else {
        TrailingItemsNamed(i);
      }
    }
  }

  lemma ScalarIsAggregated(columnName: string, alias: Option<string>, aliased: bool)
    ensures Aggregated(GroupedUniqueScalarValue(columnName, alias, aliased))
  {
    assert Aggregated(GroupedUniqueScalarValue(columnName, alias, aliased).parameters[0]);
  }

  lemma ScalarItemsAggregated(i: int)
    requires 1 <= i < 17 && i != 7 && i != 8
    ensures Aggregated(MakeSelectStatement()[i])
  {
    var sel := MakeSelectStatement();
    if i == 2 {
      ScalarIsAggregated("project_id", Some("agg_project_id"), true);
    } else {
      ScalarIsAggregated(OutputName(sel[i]).value, None, true);
    }
  }

  lemma CallOnAggregateIsAggregated(f: string, p: Expr, alias: Option<string>)
    requires Aggregated(p)
    ensures Aggregated(Function(f, [p], alias))
  {
    assert [p][0] == p;
  }

  lemma AddressItemsAggregated(i: int)
    requires i == 7 || i == 8
    ensures Aggregated(MakeSelectStatement()[i])
  {
    var c := if i == 7 then "ip_address_v4" else "ip_address_v6";
    var f := if i == 7 then "IPv4NumToString" else "IPv6NumToString";
    ScalarIsAggregated(c, None, false);
    CallOnAggregateIsAggregated(f, GroupedUniqueScalarValue(c, None, false), Some(c));
    assert MakeSelectStatement()[i] == Function(f, [GroupedUniqueScalarValue(c, None, false)], Some(c));
  }

  lemma TrailingItemsAggregated(i: int)
    requires 17 <= i < 24
    ensures Aggregated(MakeSelectStatement()[i])
  {
    var sel := MakeSelectStatement();
    if i == 17 || i == 20 {
      assert Aggregated(sel[i].parameters[1]);
    }
  }

  /**
   * Every item after the grouping key is computed per group; the two names
   * `duration` refers to are those of the `min` and `max` of the timestamp.
   */
  lemma SelectStatementAggregates()
    ensures var sel := MakeSelectStatement();
      && (forall i :: 1 <= i < |sel| ==> Aggregated(sel[i]))
      && sel[18] == Function("min", [Column("timestamp")], Some("started_at"))
      && sel[19] == Function("max", [Column("timestamp")], Some("finished_at"))
  {
    var sel := MakeSelectStatement();
    forall i | 1 <= i < |sel| ensures Aggregated(sel[i]) {
      if i == 7 || i == 8 {
        AddressItemsAggregated(i);
      } else if i < 17 {
        ScalarItemsAggregated(i);
      } else {
        TrailingItemsAggregated(i);
      }
    }
  }

  // Reference meaning of a unique-scalar reduction on one group, following
  // the example in the source's comments: [1, 2, 2, 3, 3, 3, null] gives the
  // unique values [1, 2, 3] and then the scalar 1. Nulls are `None`.

  /** The non-null values of a group, each once, in order of first appearance. */
  function UniqueValues(group: seq<Option<Value>>): (u: seq<Value>)
    ensures forall i, j :: 0 <= i < j < |u| ==> u[i] != u[j]
    ensures forall x :: x in u <==> Some(x) in group
  {
    if group == [] then []
    else
      var rest := UniqueValues(group[1..]);
      match group[0]
      case None => rest
      case Some(x) => [x] + RemoveAll(rest, x)
  }

  function RemoveAll(s: seq<Value>, x: Value): (r: seq<Value>)
    requires forall i, j :: 0 <= i < j < |s| ==> s[i] != s[j]
    ensures forall i, j :: 0 <= i < j < |r| ==> r[i] != r[j]
    ensures forall y :: y in r <==> y in s && y != x
  {
    if s == [] then []
    else if s[0] == x then RemoveAll(s[1..], x)
    else
      assert s[0] !in s[1..] by {
        forall i | 0 <= i < |s[1..]| ensures s[1..][i] != s[0] { assert s[1..][i] == s[i + 1]; }
      }
      [s[0]] + RemoveAll(s[1..], x)
  }

  /** The representative value of a group: the first of its unique values, one of the group's values. */
  function FirstUniqueValue(group: seq<Option<Value>>): (r: Option<Value>)
    ensures r.Some? ==> r in group
    ensures r.None? <==> forall x :: Some(x) !in group
  {
    var u := UniqueValues(group);
    if u == [] then None else Some(u[0])
  }

  /** The representative is the group's first non-null value; there is none only when all are null. */
  lemma {:induction false} FirstUniqueIsFirstNonNull(group: seq<Option<Value>>)
    ensures FirstUniqueValue(group).None? <==> forall i :: 0 <= i < |group| ==> group[i].None?
    ensures FirstUniqueValue(group).Some? ==>
      exists k :: 0 <= k < |group| && group[k] == FirstUniqueValue(group)
        && forall i :: 0 <= i < k ==> group[i].None?
  {
    if group != [] {
      FirstUniqueIsFirstNonNull(group[1..]);
      if group[0].None? {
        if FirstUniqueValue(group).Some? {
          var k :| 0 <= k < |group[1..]| && group[1..][k] == FirstUniqueValue(group[1..])
            && forall i :: 0 <= i < k ==> group[1..][i].None?;
          assert group[k + 1] == FirstUniqueValue(group);
        } else {
          forall i | 0 <= i < |group| ensures group[i].None? {
            if i > 0 { assert group[i] == group[1..][i - 1]; }
          }
        }
      }
    }
  }

  /** The example of the source's comment: [1, 2, 2, 3, 3, 3, null] reduces to 1. */
  lemma FirstUniqueExample()
    ensures FirstUniqueValue([Some(IntV(1)), Some(IntV(2)), Some(IntV(2)), Some(IntV(3)),
                              Some(IntV(3)), Some(IntV(3)), None]) == Some(IntV(1))
  {
    var g := [Some(IntV(1)), Some(IntV(2)), Some(IntV(2)), Some(IntV(3)), Some(IntV(3)), Some(IntV(3)), None];
    FirstUniqueIsFirstNonNull(g);
    assert g[0] == Some(IntV(1));
  }
}
