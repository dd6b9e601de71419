/** The slice of the SQL syntax tree and of the dialect interface that the
    PostgreSQL and HSQLDB dialect hooks read and build: literals, calls, CASE,
    data-type specs, what an unparse hook hands to the writer, and the
    dialect's feature flags. */
module SqlAst {
  import opened Types
  import opened Results

  /** Literals. Numeric literals carry the value of their digits. */
  datatype Literal =
    | NullLiteral
    | ExactNumeric(n: int)
    | ApproxNumeric(n: int)
    | CharString(text: string)
    | TimeUnitSymbol(unit: TimeUnitRange)

  /** Operators the hooks inspect or create. */
  datatype Operator =
    | FLOOR | COUNT | MIN | SINGLE_VALUE | SCALAR_QUERY | UNION_ALL | VALUES
    | OtherOperator(name: string)

  /** Syntax nodes. `Call` is a basic call; `Case` is the CASE expression node
      (a call, but not a basic one). */
  datatype SqlNode =
    | Lit(lit: Literal)
    | Identifier(names: seq<string>)
    | Star
    | Call(op: Operator, operands: seq<SqlNode>)
    | Case(value: SqlNode, whenList: seq<SqlNode>, thenList: seq<SqlNode>, elseExpr: SqlNode)

  /** The exceptions a hook can raise. */
  datatype SqlError =
    | ClassCast(expected: string)
    | AssertionError(message: string)
    | IndexOutOfBounds(index: int)

  /** A dialect hook either answers itself or defers to the generic dialect
      (`super`), whose answer is not part of this model. */
  datatype Hook<T> = Overridden(value: T) | Inherited

  /** `new SqlDataTypeSpec(new SqlIdentifier(name), -1, -1, null, null)`. */
  datatype DataTypeSpec = DataTypeSpec(typeName: string, precision: int, scale: int)

  function NamedSpec(name: string): DataTypeSpec
  {
    DataTypeSpec(name, -1, -1)
  }

  /** What an unparse hook hands to the writer. */
  datatype Unparsed =
    | DefaultUnparse(call: SqlNode)
        // `super.unparseCall(writer, call, ...)`
    | DatetimeFunction(funName: string, call: SqlNode, datetimeFirst: bool)
        // `SqlFloorFunction.unparseDatetimeFunction(writer, call, funName, datetimeFirst)`
    | FetchUsingLimit(offset: Option<SqlNode>, fetch: Option<SqlNode>)
        // `unparseFetchUsingLimit(writer, offset, fetch)`

  datatype IntervalParameterStrategy = CAST | MULTIPLICATION | NONE

  /** The feature flags a dialect may override. */
  datatype DialectFlags = DialectFlags(
    supportsCharSet: Hook<bool>,
    supportsWindowFunctions: Hook<bool>,
    intervalParameterStrategy: Hook<IntervalParameterStrategy>,
    supportsNestedArrays: Hook<bool>,
    requiresAliasForFromItems: Hook<bool>,
    supportsNestedAggregations: Hook<bool>)

  /** `((SqlLiteral) node).getValueAs(TimeUnitRange.class)`: a node that is
      not a literal fails the cast, a literal that holds no time unit fails
      the conversion. */
  function TimeUnitOf(node: SqlNode): (r: Result<TimeUnitRange, SqlError>)
    ensures r.Ok? <==> node.Lit? && node.lit.TimeUnitSymbol?
    ensures r.Ok? ==> node == Lit(TimeUnitSymbol(r.value))
    ensures !node.Lit? ==> r == Err(ClassCast("SqlLiteral"))
  {
    match node
    case Lit(TimeUnitSymbol(u)) => Ok(u)
    case Lit(_) => Err(AssertionError("cannot cast literal as TimeUnitRange"))
    case _ => Err(ClassCast("SqlLiteral"))
  }

  /** `SqlFloorFunction.replaceTimeUnitOperand(call, text, pos)`: the same
      operator applied to the first operand and a character-string literal
      holding `text`. */
  function ReplaceTimeUnitOperand(call: SqlNode, text: string): (r: SqlNode)
    requires call.Call? && |call.operands| >= 1
    ensures r.Call? && r.op == call.op && |r.operands| == 2
    ensures r.operands[0] == call.operands[0] && r.operands[1] == Lit(CharString(text))
  {
    Call(call.op, [call.operands[0], Lit(CharString(text))])
  }

  /** A `SqlCall`, the node kind `unparseCall` receives: a basic call or a
      CASE expression. */
  predicate IsSqlCall(node: SqlNode)
  {
    node.Call? || node.Case?
  }

  /** A FLOOR call with exactly the two operands the FLOOR hooks rewrite. */
  predicate IsFloorWithUnit(node: SqlNode)
  {
    node.Call? && node.op == FLOOR && |node.operands| == 2
  }

  /** The FLOOR hook shared by both dialects: a FLOOR call with exactly two
      operands is handed to `unparseDatetimeFunction` under `funName`, with its
      time unit replaced by the text `token` gives for it; everything else is
      unparsed by the generic dialect, CASE expressions included. */
  function UnparseFloor(call: SqlNode, funName: string, datetimeFirst: bool,
                        token: TimeUnitRange -> Result<string, SqlError>): (r: Result<Unparsed, SqlError>)
    requires IsSqlCall(call)
  {
    if !IsFloorWithUnit(call) then Ok(DefaultUnparse(call))
    else
      match TimeUnitOf(call.operands[1])
      case Err(e) => Err(e)
      case Ok(unit) =>
        match token(unit)
        case Err(e) => Err(e)
        case Ok(text) => Ok(DatetimeFunction(funName, ReplaceTimeUnitOperand(call, text), datetimeFirst))
  }

  /** The FLOOR hook rewrites exactly the two-operand FLOOR calls: anything
      else goes to the generic dialect untouched; a FLOOR(x, unit) becomes the
      named datetime function over x and the unit's text, or fails as the
      unit's lookup or the operand's cast fails. */
  lemma UnparseFloorRouting(call: SqlNode, funName: string, datetimeFirst: bool,
                            token: TimeUnitRange -> Result<string, SqlError>)
    requires IsSqlCall(call)
    ensures !IsFloorWithUnit(call) <==> UnparseFloor(call, funName, datetimeFirst, token) == Ok(DefaultUnparse(call))
    ensures IsFloorWithUnit(call) && call.operands[1].Lit? && call.operands[1].lit.TimeUnitSymbol? ==>
              var unit := call.operands[1].lit.unit;
              UnparseFloor(call, funName, datetimeFirst, token) ==
                (if token(unit).Ok?
                 then Ok(DatetimeFunction(funName, Call(FLOOR, [call.operands[0], Lit(CharString(token(unit).value))]), datetimeFirst))
                 else Err(token(unit).error))
    ensures IsFloorWithUnit(call) && !call.operands[1].Lit? ==>
              UnparseFloor(call, funName, datetimeFirst, token) == Err(ClassCast("SqlLiteral"))
  {
  }
}
