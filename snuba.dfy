/**
 * The shapes of the query-builder library the replay query is written in:
 * columns, function calls, conditions, orderings, the query itself and the
 * request that wraps it. Only their structure is modelled; what the query
 * engine does with a function call is not.
 */
module Snuba {
  import opened Wrappers

  /** A selectable or comparable expression. */
  datatype Expr =
    | Column(name: string)
    | Function(fname: string, parameters: seq<Expr>, alias: Option<string>)
    | Identifier(ident: string)
    | Lambda(bindings: seq<string>, body: Expr)
    | IntLit(i: int)
    | StrLit(s: string)

  /** Comparison operators. */
  datatype Op = EQ | NEQ | GT | GTE | LT | LTE | IN

  /** The textual value each operator carries in the library's `Op` enum. */
  function Symbol(op: Op): string {
    match op
    case EQ => "="
    case NEQ => "!="
    case GT => ">"
    case GTE => ">="
    case LT => "<"
    case LTE => "<="
    case IN => "IN"
  }

  datatype Direction = ASC | DESC

  datatype OrderBy = OrderBy(exp: Expr, direction: Direction)

  /**
   * Right-hand sides of conditions and values of result columns. Datetimes
   * are represented by an integer timestamp.
   */
  datatype Value =
    | IntV(i: int)
    | StrV(s: string)
    | IntsV(ints: seq<int>)
    | StrsV(strs: seq<string>)
    | TimeV(t: int)

  datatype Condition = Condition(lhs: Expr, op: Op, rhs: Value)

  /** A query against one entity; `limit` and `offset` are absent unless given. */
  datatype Query = Query(
    entity: string,
    select: seq<Expr>,
    where: seq<Condition>,
    having: seq<Condition>,
    orderby: seq<OrderBy>,
    groupby: seq<Expr>,
    granularity: int,
    limit: Option<int>,
    offset: Option<int>)

  /** What is handed to the query engine. */
  datatype Request = Request(dataset: string, appId: string, query: Query)

  /** The name under which a selected expression appears in a result row, if any. */
  function OutputName(e: Expr): Option<string> {
    match e
    case Column(n) => Some(n)
    case Function(_, _, alias) => alias
    case _ => None
  }

  // Row-level meaning of the conditions a `where` clause is made of: the
  // column comparisons below, on the raw rows of the entity.

  type Row = map<string, Value>

  /** The integer a value is compared by, when it is ordered. */
  function Ordinal(v: Value): Option<int> {
    match v
    case IntV(i) => Some(i)
    case TimeV(t) => Some(t)
    case _ => None
  }

  function Compare(op: Op, a: int, b: int): bool {
    match op
    case EQ => a == b
    case NEQ => a != b
    case GT => a > b
    case GTE => a >= b
    case LT => a < b
    case LTE => a <= b
    case IN => false
  }

  /** Whether `row` satisfies a condition whose left-hand side is a column. */
  predicate Holds(row: Row, c: Condition) {
    && c.lhs.Column?
    && c.lhs.name in row
    && var v := row[c.lhs.name];
       match c.op
       case EQ => v == c.rhs
       case NEQ => v != c.rhs
       case IN =>
         || (v.IntV? && c.rhs.IntsV? && v.i in c.rhs.ints)
         || (v.StrV? && c.rhs.StrsV? && v.s in c.rhs.strs)
       case _ =>
         && Ordinal(v).Some? && Ordinal(c.rhs).Some?
         && v.TimeV? == c.rhs.TimeV?
         && Compare(c.op, Ordinal(v).value, Ordinal(c.rhs).value)
  }

  /** A conjunctive clause: every condition holds. */
  predicate HoldsAll(row: Row, cs: seq<Condition>) {
    forall i :: 0 <= i < |cs| ==> Holds(row, cs[i])
  }

  lemma {:induction false} HoldsAllAppend(row: Row, a: seq<Condition>, b: seq<Condition>)
    ensures HoldsAll(row, a + b) <==> HoldsAll(row, a) && HoldsAll(row, b)
  {
    if HoldsAll(row, a) && HoldsAll(row, b) {
      forall i | 0 <= i < |a + b| ensures Holds(row, (a + b)[i]) {
        if i < |a| { assert (a + b)[i] == a[i]; } else { assert (a + b)[i] == b[i - |a|]; }
      }
    }
    if HoldsAll(row, a + b) {
      forall i | 0 <= i < |a| ensures Holds(row, a[i]) { assert (a + b)[i] == a[i]; }
      forall i | 0 <= i < |b| ensures Holds(row, b[i]) { assert (a + b)[|a| + i] == b[i]; }
    }
  }
}
