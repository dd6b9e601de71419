/** The HSQLDB dialect hooks (HsqldbSqlDialect): cast specs, the time-unit
    token table and the FLOOR rewrite to TRUNC, LIMIT-style pagination, the
    single-value CASE rewrite, and the feature flags. */
module HsqldbDialect {
  import opened Types
  import opened Results
  import opened SqlAst
  import opened SqlEval

  // ---------------------------------------------------------------------
  // Flags.

  /** The flags HSQLDB overrides; the rest keep the default. */
  function Flags(): (f: DialectFlags)
    ensures f.supportsCharSet == Overridden(false)
    ensures f.supportsWindowFunctions == Overridden(false)
    ensures f.intervalParameterStrategy == Overridden(NONE)
    ensures f.supportsNestedArrays == Inherited
    ensures f.requiresAliasForFromItems == Inherited
    ensures f.supportsNestedAggregations == Inherited
  {
    DialectFlags(
      supportsCharSet := Overridden(false),
      supportsWindowFunctions := Overridden(false),
      intervalParameterStrategy := Overridden(NONE),
      supportsNestedArrays := Inherited,
      requiresAliasForFromItems := Inherited,
      supportsNestedAggregations := Inherited)
  }

  // ---------------------------------------------------------------------
  // Cast specs.

  /** `getCastSpec`: every array is flagged `_LONGVARCHAR`, multimedia types
      `_BLOB`, the thirteen interval types `INTERVAL`; every other type is
      left to the generic dialect. */
  function CastSpec(t: RelType): (r: Hook<DataTypeSpec>)
    ensures r.Overridden? <==> t.ArrayOf? || IsMultimedia(t.PolyTypeOf()) || IsInterval(t.PolyTypeOf())
    ensures r.Overridden? ==> r.value.precision == -1 && r.value.scale == -1
  {
    var p := t.PolyTypeOf();
    if p == ARRAY then Overridden(NamedSpec("_LONGVARCHAR"))
    else if IsMultimedia(p) then Overridden(NamedSpec("_BLOB"))
    else if IsInterval(p) then Overridden(NamedSpec("INTERVAL"))
    else Inherited
  }

  /** The array cast spec ignores the component type and the nesting depth. */
  lemma ArrayCastSpecUniform(t: RelType, u: RelType)
    requires t.ArrayOf? && u.ArrayOf?
    ensures CastSpec(t) == CastSpec(u) == Overridden(NamedSpec("_LONGVARCHAR"))
  {
  }

  /** Multimedia and interval types, whatever their name. */
  lemma ScalarCastSpecs(s: ScalarType)
    ensures IsMultimedia(s) ==> CastSpec(Scalar(s)) == Overridden(NamedSpec("_BLOB"))
    ensures IsInterval(s) ==> CastSpec(Scalar(s)) == Overridden(NamedSpec("INTERVAL"))
  {
  }

  // ---------------------------------------------------------------------
  // FLOOR.

  /** `convertTimeUnit`: HSQLDB's TRUNC format token of a time unit. */
  function ConvertTimeUnit(u: TimeUnitRange): (r: Result<string, SqlError>)
    ensures r.Ok? <==> u == YEAR || u == MONTH || u == DAY || u == WEEK || u == HOUR || u == MINUTE || u == SECOND
    ensures r.Err? ==> r.error == AssertionError("could not convert time unit to HSQLDB equivalent: " + UnitName(u))
  {
    match u
    case YEAR => Ok("YYYY")
    case MONTH => Ok("MM")
    case DAY => Ok("DD")
    case WEEK => Ok("WW")
    case HOUR => Ok("HH24")
    case MINUTE => Ok("MI")
    case SECOND => Ok("SS")
    case _ => Err(AssertionError("could not convert time unit to HSQLDB equivalent: " + UnitName(u)))
  }

  /** The token table is one-to-one: distinct supported units get distinct
      tokens, so TRUNC never confuses two units. */
  lemma ConvertTimeUnitInjective(u: TimeUnitRange, v: TimeUnitRange)
    requires ConvertTimeUnit(u).Ok? && ConvertTimeUnit(v).Ok?
    ensures ConvertTimeUnit(u) == ConvertTimeUnit(v) <==> u == v
  {
  }

  /** `unparseCall`: FLOOR(x, unit) becomes TRUNC with the unit's HSQLDB
      token, datetime operand first; every other call, CASE included, is
      unparsed generically. */
  function UnparseCall(call: SqlNode): Result<Unparsed, SqlError>
    requires IsSqlCall(call)
  {
    UnparseFloor(call, "TRUNC", true, ConvertTimeUnit)
  }

  /** HSQLDB's FLOOR rewrite: a two-operand FLOOR is TRUNC with the unit's
      token when the table has one and fails with the table's assertion
      otherwise; other calls, other arities and CASE expressions go to the
      generic dialect. */
  lemma UnparseCallFloor(call: SqlNode)
    requires IsSqlCall(call)
    ensures !IsFloorWithUnit(call) <==> UnparseCall(call) == Ok(DefaultUnparse(call))
    ensures call.Case? ==> UnparseCall(call) == Ok(DefaultUnparse(call))
    ensures IsFloorWithUnit(call) && call.operands[1].Lit? && call.operands[1].lit.TimeUnitSymbol? ==>
              var unit := call.operands[1].lit.unit;
              && (ConvertTimeUnit(unit).Ok? ==>
                    UnparseCall(call) ==
                      Ok(DatetimeFunction("TRUNC", Call(FLOOR, [call.operands[0], Lit(CharString(ConvertTimeUnit(unit).value))]), true)))
              && (ConvertTimeUnit(unit).Err? ==> UnparseCall(call) == Err(ConvertTimeUnit(unit).error))
  {
    UnparseFloorRouting(call, "TRUNC", true, ConvertTimeUnit);
  }

  /** FLOOR(x TO YEAR) is handed over as TRUNC(x, 'YYYY'). */
  lemma FloorToYear(x: SqlNode)
    ensures UnparseCall(Call(FLOOR, [x, Lit(TimeUnitSymbol(YEAR))])) ==
              Ok(DatetimeFunction("TRUNC", Call(FLOOR, [x, Lit(CharString("YYYY"))]), true))
  {
  }

  // ---------------------------------------------------------------------
  // Pagination.

  /** `unparseOffsetFetch`: always the LIMIT form, whatever is present. */
  function UnparseOffsetFetch(offset: Option<SqlNode>, fetch: Option<SqlNode>): (r: Unparsed)
    ensures r.FetchUsingLimit? && r.offset == offset && r.fetch == fetch
  {
    FetchUsingLimit(offset, fetch)
  }

  // ---------------------------------------------------------------------
  // The single-value rewrite.

  /** The scalar subquery that fails at run time: (VALUES 0) UNION ALL
      (VALUES 0) yields two rows. */
  function TwoRowSubquery(): SqlNode
  {
    var unionOperand := Call(VALUES, [Lit(ApproxNumeric(0))]);
    Call(SCALAR_QUERY, [Call(UNION_ALL, [unionOperand, unionOperand])])
  }

  /** The CASE expression the rewrite builds around a cardinality test. */
  function SingleValueCase(count: SqlNode, operand: SqlNode): SqlNode
  {
    Case(count,
         [Lit(ExactNumeric(0)), Lit(ExactNumeric(1))],
         [Lit(NullLiteral), Call(MIN, [operand])],
         TwoRowSubquery())
  }

  /** `rewriteSingleValueExpr` as written: the CASE tests COUNT(operand),
      which counts the non-null values only. The argument must be a basic
      call with an operand. */
  function RewriteSingleValueExpr(aggCall: SqlNode): Result<SqlNode, SqlError>
  {
    if !aggCall.Call? then Err(ClassCast("SqlBasicCall"))
    else if |aggCall.operands| == 0 then Err(IndexOutOfBounds(0))
    else
      var operand := aggCall.operands[0];
      Ok(SingleValueCase(Call(COUNT, [operand]), operand))
  }

  /** The rewrite with the cardinality test its own comment describes:
      COUNT(*), which counts the rows. */
  function RewriteSingleValueExprCorrected(aggCall: SqlNode): Result<SqlNode, SqlError>
  {
    if !aggCall.Call? then Err(ClassCast("SqlBasicCall"))
    else if |aggCall.operands| == 0 then Err(IndexOutOfBounds(0))
    else Ok(SingleValueCase(Call(COUNT, [Star]), aggCall.operands[0]))
  }

  /** The ELSE branch yields two rows, so it always fails. */
  lemma TwoRowSubqueryFails(rows: seq<Option<int>>)
    ensures QueryRows(TwoRowSubquery().operands[0]) == Ok([Some(0), Some(0)])
    ensures Eval(TwoRowSubquery(), rows) == Err(MoreThanOneRow)
  {
    var unionOperand := Call(VALUES, [Lit(ApproxNumeric(0))]);
    assert QueryRows(unionOperand) == Ok([Some(0)]);
    assert QueryRows(Call(UNION_ALL, [unionOperand, unionOperand])) == Ok([Some(0)] + [Some(0)]);
    assert [Some(0)] + [Some(0)] == [Some(0), Some(0)];
  }

  /** The CASE built around a cardinality test that evaluates to `n`: NULL for
      0, the operand's MIN for 1, the subquery's error otherwise. */
  lemma {:induction false} EvalSingleValueCase(count: SqlNode, operand: SqlNode, rows: seq<Option<int>>, n: nat)
    requires operand != Star && Eval(count, rows) == Ok(Some(n))
    ensures Eval(SingleValueCase(count, operand), rows) ==
              if n == 0 then Ok(None) else if n == 1 then Ok(MinValue(rows)) else Err(MoreThanOneRow)
  {
    var c := SingleValueCase(count, operand);
    TwoRowSubqueryFails(rows);
    assert Eval(c.whenList[0], rows) == Ok(Some(0));
    assert Eval(c.whenList[1], rows) == Ok(Some(1));
    assert Eval(c.thenList[0], rows) == Ok(None);
    assert Eval(c.thenList[1], rows) == Ok(MinValue(rows));
    assert EvalCase(c, Some(n), 2, rows) == Err(MoreThanOneRow);
    assert EvalCase(c, Some(n), 1, rows) == if n == 1 then Ok(MinValue(rows)) else Err(MoreThanOneRow);
    assert EvalCase(c, Some(n), 0, rows) == if n == 0 then Ok(None) else EvalCase(c, Some(n), 1, rows);
    assert Eval(c, rows) == EvalCase(c, Some(n), 0, rows);
  }

  /** Shape of the rewrite: a CASE on COUNT of the call's first operand, WHEN
      0 THEN NULL, WHEN 1 THEN MIN of that operand, ELSE a scalar subquery
      over two single-row VALUES; a non-call fails the cast and an
      operand-less call the index. */
  lemma RewriteShape(aggCall: SqlNode)
    ensures RewriteSingleValueExpr(aggCall).Ok? <==> aggCall.Call? && |aggCall.operands| > 0
    ensures !aggCall.Call? ==> RewriteSingleValueExpr(aggCall) == Err(ClassCast("SqlBasicCall"))
    ensures RewriteSingleValueExpr(aggCall).Ok? ==>
              var e := RewriteSingleValueExpr(aggCall).value;
              && e.Case?
              && e.value == Call(COUNT, [aggCall.operands[0]])
              && |e.whenList| == |e.thenList| == 2
              && e.whenList == [Lit(ExactNumeric(0)), Lit(ExactNumeric(1))]
              && e.thenList == [Lit(NullLiteral), Call(MIN, [aggCall.operands[0]])]
              && QueryRows(e.elseExpr.operands[0]) == Ok([Some(0), Some(0)])
  {
    TwoRowSubqueryFails([]);
  }

  /** The CASE the rewrite builds is a call the dialect's `unparseCall`
      receives, and it hands it to the generic dialect unchanged. */
  lemma RewrittenCaseUnparsedGenerically(aggCall: SqlNode)
    requires RewriteSingleValueExpr(aggCall).Ok?
    ensures IsSqlCall(RewriteSingleValueExpr(aggCall).value)
    ensures UnparseCall(RewriteSingleValueExpr(aggCall).value) == Ok(DefaultUnparse(RewriteSingleValueExpr(aggCall).value))
  {
  }

  lemma {:induction false} NonNullCountAll(rows: seq<Option<int>>)
    requires forall r :: 0 <= r < |rows| ==> rows[r].Some?
    ensures NonNullCount(rows) == |rows|
  {
    if |rows| > 0 {
      NonNullCountAll(rows[..|rows| - 1]);
    }
  }

  lemma SingletonMin(v: Option<int>)
    ensures MinValue([v]) == v
  {
    assert [v][..0] == [];
  }

  /** The corrected rewrite evaluates to the single-value aggregate on every
      group: NULL for none, the value for one row, the subquery's
      several-rows error otherwise. */
  lemma CorrectedRewriteIsSingleValue(aggCall: SqlNode, rows: seq<Option<int>>)
    requires aggCall.Call? && |aggCall.operands| > 0 && aggCall.operands[0] != Star
    ensures Eval(RewriteSingleValueExprCorrected(aggCall).value, rows) == SingleValue(rows)
  {
    EvalSingleValueCase(Call(COUNT, [Star]), aggCall.operands[0], rows, |rows|);
    if |rows| == 1 {
      SingletonMin(rows[0]);
      assert rows == [rows[0]];
    }
  }

  /** As written, the rewrite agrees with the single-value aggregate on
      groups whose operand is never NULL. */
  lemma RewriteAgreesWithoutNulls(aggCall: SqlNode, rows: seq<Option<int>>)
    requires aggCall.Call? && |aggCall.operands| > 0 && aggCall.operands[0] != Star
    requires forall r :: 0 <= r < |rows| ==> rows[r].Some?
    ensures Eval(RewriteSingleValueExpr(aggCall).value, rows) == SingleValue(rows)
  {
    NonNullCountAll(rows);
    var operand := aggCall.operands[0];
    assert Eval(Call(COUNT, [operand]), rows) == Ok(Some(|rows|));
    EvalSingleValueCase(Call(COUNT, [operand]), operand, rows, |rows|);
    if |rows| == 1 {
      SingletonMin(rows[0]);
      assert rows == [rows[0]];
    }
  }

  /** As written, a group of two rows whose operand is NULL on one and 5 on
      the other evaluates to 5, where the single-value aggregate must fail. */
  lemma RewriteAsWrittenMissesNullRow(x: SqlNode)
    requires x != Star
    ensures var rows := [None, Some(5)];
            && Eval(RewriteSingleValueExpr(Call(SINGLE_VALUE, [x])).value, rows) == Ok(Some(5))
            && SingleValue(rows) == Err(MoreThanOneRow)
  {
    var rows: seq<Option<int>> := [None, Some(5)];
    var first: seq<Option<int>> := [None];
    assert rows[..1] == first && first[..0] == [];
    assert NonNullCount(rows) == 1;
    assert MinValue(first) == None;
    assert MinValue(rows) == Some(5);
    assert Eval(Call(COUNT, [x]), rows) == Ok(Some(1));
    EvalSingleValueCase(Call(COUNT, [x]), x, rows, 1);
  }
}
