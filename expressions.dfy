/**
 * The query builder the core drives, reduced to what the core can observe:
 * a predicate expression is a log of `(op, field, args)` conditions, and a
 * query is a log of the shaping calls made on it.
 */
module Expressions {
  import opened PhpValues
  import opened DateTokens

  /** An argument passed to a predicate builder call. */
  datatype Arg =
    | NullArg
    | BoolArg(b: bool)
    | NumArg(n: Numeric)
    | StrArg(s: string)
    | DateArg(d: Date)
    | DatePairArg(first: Date, last: Date)
    | ListArg(items: seq<string>)
    | RawArg(r: Raw)

  /** The comparison builders a filter may name by key: `lt`, `lte`, `gt`, `gte`. */
  predicate IsComparisonKey(k: Option<string>) {
    k == Some("lt") || k == Some("lte") || k == Some("gt") || k == Some("gte")
  }

  /** One call such as `$expression->eq('Users.age', 5)`: `Condition("eq", "Users.age", [5])`. */
  datatype Condition = Condition(op: string, field: string, args: seq<Arg>)

  /** A `QueryExpression`: the conditions appended to it so far, in call order. */
  class QueryExpression {
    var conditions: seq<Condition>

    constructor ()
      ensures conditions == []
    {
      conditions := [];
    }

    /** Any predicate builder call (`eq`, `isNull`, `between`, `like`, `in`, ...). */
    method Add(c: Condition)
      modifies this
      ensures conditions == old(conditions) + [c]
    {
      conditions := conditions + [c];
    }

    /** `count()`: the number of conditions. */
    function Count(): nat
      reads this
    {
      |conditions|
    }
  }

  /** The argument of an `order()` call. */
  datatype OrderArg =
    | ByDirection(entries: Entries)  // field => direction
    | ByNames(names: seq<string>)    // a list of field names

  /** A shaping call made on a query. */
  datatype QueryOp =
    | Select(fields: seq<string>)
    | Order(arg: OrderArg)
    | Contain(relations: seq<string>)
    | Where(conditions: seq<Condition>)

  /** A query under construction: the log of calls made on it. */
  class Query {
    var log: seq<QueryOp>

    constructor (log: seq<QueryOp>)
      ensures this.log == log
    {
      this.log := log;
    }

    method Select(fields: seq<string>)
      modifies this
      ensures log == old(log) + [QueryOp.Select(fields)]
    {
      log := log + [QueryOp.Select(fields)];
    }

    method Order(arg: OrderArg)
      modifies this
      ensures log == old(log) + [QueryOp.Order(arg)]
    {
      log := log + [QueryOp.Order(arg)];
    }

    method Contain(relations: seq<string>)
      modifies this
      ensures log == old(log) + [QueryOp.Contain(relations)]
    {
      log := log + [QueryOp.Contain(relations)];
    }

    /** `where($expression)`, recording the conditions the expression holds. */
    method Where(e: QueryExpression)
      modifies this
      ensures log == old(log) + [QueryOp.Where(e.conditions)]
    {
      log := log + [QueryOp.Where(e.conditions)];
    }

    /** `newExpr()`: a fresh, empty expression; the query is not changed. */
    method NewExpr() returns (e: QueryExpression)
      ensures fresh(e) && e.conditions == []
    {
      e := new QueryExpression();
    }
  }
}
