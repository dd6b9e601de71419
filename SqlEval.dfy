/** A reference semantics for the expressions the single-value rewrite
    builds, evaluated over one group of rows: the group is given as the
    values its aggregate operand takes on each row (NULL as None). It covers
    literals, COUNT(*), COUNT(x), MIN(x), the simple CASE, VALUES, UNION ALL
    and scalar subqueries. */
module SqlEval {
  import opened Results
  import opened SqlAst

  datatype EvalError =
    | MoreThanOneRow       // a scalar subquery returned several rows
    | Unsupported          // a node outside this semantics

  /** The single-value aggregate: NULL for no row, the row's value for one
      row, an error for several. */
  function SingleValue(rows: seq<Option<int>>): Result<Option<int>, EvalError>
  {
    if |rows| == 0 then Ok(None)
    else if |rows| == 1 then Ok(rows[0])
    else Err(MoreThanOneRow)
  }

  function NonNullCount(rows: seq<Option<int>>): (n: nat)
    ensures n <= |rows|
  {
    if |rows| == 0 then 0
    else NonNullCount(rows[..|rows| - 1]) + (if rows[|rows| - 1].Some? then 1 else 0)
  }

  function MinOf(a: Option<int>, b: Option<int>): Option<int>
  {
    if a.None? then b
    else if b.None? then a
    else if b.value < a.value then b
    else a
  }

  /** MIN over the non-null values; NULL if there are none. */
  function MinValue(rows: seq<Option<int>>): Option<int>
  {
    if |rows| == 0 then None
    else MinOf(MinValue(rows[..|rows| - 1]), rows[|rows| - 1])
  }

  function LiteralValue(l: Literal): Option<int>
  {
    match l
    case ExactNumeric(n) => Some(n)
    case ApproxNumeric(n) => Some(n)
    case _ => None
  }

  /** SQL equality in a CASE: NULL matches nothing. */
  predicate Matches(a: Option<int>, b: Option<int>)
  {
    a.Some? && b.Some? && a.value == b.value
  }

  /** The rows a query expression yields: VALUES gives one, UNION ALL
      concatenates. */
  function QueryRows(q: SqlNode): Result<seq<Option<int>>, EvalError>
  {
    match q
    case Call(VALUES, ops) =>
      if |ops| == 1 && ops[0].Lit? then Ok([LiteralValue(ops[0].lit)]) else Err(Unsupported)
    case Call(UNION_ALL, ops) =>
      if |ops| != 2 then Err(Unsupported)
      else (
        match QueryRows(ops[0])
        case Err(e) => Err(e)
        case Ok(l) =>
          match QueryRows(ops[1])
          case Err(e) => Err(e)
          case Ok(r) => Ok(l + r))
    case _ => Err(Unsupported)
  }

  /** The value of an expression over the group `rows`. */
  function Eval(e: SqlNode, rows: seq<Option<int>>): Result<Option<int>, EvalError>
    decreases e, 1
  {
    match e
    case Lit(l) => Ok(LiteralValue(l))
    case Call(COUNT, ops) =>
      if |ops| != 1 then Err(Unsupported)
      else if ops[0] == Star then Ok(Some(|rows|))
      else Ok(Some(NonNullCount(rows)))
    case Call(MIN, ops) =>
      if |ops| != 1 || ops[0] == Star then Err(Unsupported) else Ok(MinValue(rows))
    case Call(SCALAR_QUERY, ops) =>
      if |ops| != 1 then Err(Unsupported)
      else (
        match QueryRows(ops[0])
        case Err(err) => Err(err)
        case Ok(r) => SingleValue(r))
    case Case(value, whens, thens, _) =>
      if |whens| != |thens| then Err(Unsupported)
      else (
        match Eval(value, rows)
        case Err(err) => Err(err)
        case Ok(x) => EvalCase(e, x, 0, rows))
    case _ => Err(Unsupported)
  }

  /** The first WHEN from `i` on that matches `x` picks its THEN; the ELSE
      otherwise. */
  function EvalCase(c: SqlNode, x: Option<int>, i: nat, rows: seq<Option<int>>): Result<Option<int>, EvalError>
    requires c.Case? && |c.whenList| == |c.thenList| && i <= |c.whenList|
    decreases c, 0, |c.whenList| - i
  {
    if i == |c.whenList| then Eval(c.elseExpr, rows)
    else
      match Eval(c.whenList[i], rows)
      case Err(err) => Err(err)
      case Ok(w) => if Matches(x, w) then Eval(c.thenList[i], rows) else EvalCase(c, x, i + 1, rows)
  }
}
