/** The PostgreSQL dialect hooks (PostgresqlSqlDialect): the type system's
    precision override, cast specs with the nested-array bracket loop, array
    component type names, the feature flags, and the FLOOR rewrite to
    DATE_TRUNC. */
module PostgresqlDialect {
  import opened Types
  import opened Results
  import opened SqlAst
  import JdbcTypes

  // ---------------------------------------------------------------------
  // Type system.

  /** The largest VARCHAR length PostgreSQL declares: 10 MiB. */
  const MaxVarcharPrecision: int := 10 * 1024 * 1024

  /** `POSTGRESQL_TYPE_SYSTEM.getMaxPrecision`: VARCHAR is capped at 10 MiB,
      every other type keeps the default type system's precision. */
  function MaxPrecision(t: PolyType, defaultPrecision: PolyType -> int): (r: int)
    ensures t == VARCHAR ==> r == 10485760
    ensures t != VARCHAR ==> r == defaultPrecision(t)
  {
    match t
    case VARCHAR => MaxVarcharPrecision
    case _ => defaultPrecision(t)
  }

  /** The PostgreSQL type system differs from the default one at VARCHAR only,
      whatever the default is. */
  lemma MaxPrecisionOverridesOnlyVarchar(defaultPrecision: PolyType -> int)
    ensures forall t :: MaxPrecision(t, defaultPrecision) != defaultPrecision(t) ==> t == VARCHAR
    ensures defaultPrecision(VARCHAR) != 10485760 ==> MaxPrecision(VARCHAR, defaultPrecision) != defaultPrecision(VARCHAR)
  {
  }

  // ---------------------------------------------------------------------
  // Cast specs.

  /** `n` pairs of brackets. */
  function Brackets(n: nat): (r: string)
    ensures |r| == 2 * n
  {
    if n == 0 then "" else Brackets(n - 1) + "[]"
  }

  /** The keyword of an array's innermost component type. */
  function ArrayKeyword(t: ScalarType): string
  {
    match t
    case TINYINT => "_smallint"
    case DOUBLE => "_double precision"
    case _ => "_" + Name(t)
  }

  /** Reference definition of `getCastSpec`: arrays are cast to the keyword of
      their innermost component followed by one `[]` per level of nesting;
      TINYINT widens to smallint, DOUBLE is `double precision`, multimedia
      types are byte arrays, the thirteen interval types are `interval`;
      every other type is left to the generic dialect. */
  function CastSpec(t: RelType): Hook<DataTypeSpec>
  {
    match t
    case ArrayOf(_) => Overridden(NamedSpec(ArrayKeyword(Innermost(t)) + Brackets(Depth(t))))
    case Scalar(s) =>
      if s == TINYINT then Overridden(NamedSpec("_smallint"))
      else if s == DOUBLE then Overridden(NamedSpec("_double precision"))
      else if IsMultimedia(s) then Overridden(NamedSpec("_BYTEA"))
      else if IsInterval(s) then Overridden(NamedSpec("interval"))
      else Inherited
  }

  /** `getCastSpec`: the source's switch, its case groups tested in turn;
      the ARRAY case is `ArrayCastSpec`. */
  method GetCastSpec(t: RelType) returns (spec: Hook<DataTypeSpec>)
    ensures spec == CastSpec(t)
  {
    var polyType := t.PolyTypeOf();
    var castSpec: string;
    if polyType == TINYINT {
      castSpec := "_smallint";
    } else if polyType == DOUBLE {
      castSpec := "_double precision";
    } else if IsMultimedia(polyType) {
      castSpec := "_BYTEA";
    } else if polyType == ARRAY {
      castSpec := ArrayCastSpec(t);
    } else if IsInterval(polyType) {
      castSpec := "interval";
    } else {
      return Inherited;
    }
    return Overridden(NamedSpec(castSpec));
  }

  /** The ARRAY case of `getCastSpec`: walks the component chain down to the
      innermost non-array type, appending a bracket pair per level, and
      prefixes that type's keyword. */
  method ArrayCastSpec(t: RelType) returns (castSpec: string)
    requires t.ArrayOf?
    ensures castSpec == ArrayKeyword(Innermost(t)) + Brackets(Depth(t))
  {
    var tt := t;
    var brackets := "[]";
    var k: nat := 1;
    while tt.component.PolyTypeOf() == ARRAY
      invariant tt.ArrayOf?
      invariant Depth(tt) + k - 1 == Depth(t) && Innermost(tt) == Innermost(t)
      invariant brackets == Brackets(k)
      decreases Depth(tt)
    {
      tt := tt.component;
      brackets := brackets + "[]";
      k := k + 1;
    }
    var inner := tt.component.PolyTypeOf();
    assert inner == Innermost(t);
    match inner {
      case TINYINT =>
        castSpec := "_smallint" + brackets;
      case DOUBLE =>
        castSpec := "_double precision" + brackets;
      case _ =>
        castSpec := "_" + Name(inner) + brackets;
    }
  }

  /** An array cast spec is its innermost component's keyword followed by
      exactly Depth(t) bracket pairs. */
  lemma ArrayCastSpecBrackets(t: RelType)
    requires t.ArrayOf?
    ensures CastSpec(t).Overridden?
    ensures var name := CastSpec(t).value.typeName;
            var kw := ArrayKeyword(Innermost(t));
            && |name| == |kw| + 2 * Depth(t)
            && name[..|kw|] == kw
            && (forall i :: 0 <= i < Depth(t) ==> name[|kw| + 2 * i] == '[' && name[|kw| + 2 * i + 1] == ']')
  {
    var kw := ArrayKeyword(Innermost(t));
    var br := Brackets(Depth(t));
    var name := kw + br;
    assert CastSpec(t) == Overridden(NamedSpec(name));
    assert name[..|kw|] == kw;
    BracketPairs(Depth(t));
    forall i | 0 <= i < Depth(t)
      ensures name[|kw| + 2 * i] == '[' && name[|kw| + 2 * i + 1] == ']'
    {
      assert name[|kw| + 2 * i] == br[2 * i];
      assert name[|kw| + 2 * i + 1] == br[2 * i + 1];
    }
  }

  /** Arrays of TINYINT and DOUBLE spell their component as the scalar cast
      spec does (`_smallint`, `_double precision`), brackets following. */
  lemma ArrayKeywordMatchesScalar(t: RelType)
    requires t.ArrayOf? && (Innermost(t) == TINYINT || Innermost(t) == DOUBLE)
    ensures CastSpec(t).Overridden? && CastSpec(Scalar(Innermost(t))).Overridden?
    ensures var name := CastSpec(t).value.typeName;
            var scalar := CastSpec(Scalar(Innermost(t))).value.typeName;
            |scalar| <= |name| && name[..|scalar|] == scalar
  {
    var scalar := CastSpec(Scalar(Innermost(t))).value.typeName;
    assert scalar == ArrayKeyword(Innermost(t));
    var name := scalar + Brackets(Depth(t));
    assert CastSpec(t).value.typeName == name;
    assert name[..|scalar|] == scalar;
  }

  /** Brackets(n) is n `[]` pairs. */
  lemma {:induction false} BracketPairs(n: nat)
    ensures forall i :: 0 <= i < n ==> Brackets(n)[2 * i] == '[' && Brackets(n)[2 * i + 1] == ']'
  {
    if n > 0 {
      BracketPairs(n - 1);
      assert Brackets(n) == Brackets(n - 1) + "[]";
    }
  }

  /** A deeper array differs from a shallower one over the same innermost type
      only in the number of bracket pairs. */
  lemma CastSpecDepthOnly(t: RelType, u: RelType)
    requires t.ArrayOf? && u.ArrayOf? && Innermost(t) == Innermost(u)
    ensures Depth(t) == Depth(u) <==> CastSpec(t) == CastSpec(u)
  {
    if CastSpec(t) == CastSpec(u) {
      assert |CastSpec(t).value.typeName| == |CastSpec(u).value.typeName|;
    }
  }

  /** The scalar cases: TINYINT, DOUBLE, the four multimedia types and the
      thirteen interval types are overridden; every other scalar type is left
      to the generic dialect. */
  lemma ScalarCastSpecs(s: ScalarType)
    ensures CastSpec(Scalar(s)).Overridden? <==> s == TINYINT || s == DOUBLE || IsMultimedia(s) || IsInterval(s)
    ensures IsMultimedia(s) ==> CastSpec(Scalar(s)) == Overridden(NamedSpec("_BYTEA"))
    ensures IsInterval(s) ==> CastSpec(Scalar(s)) == Overridden(NamedSpec("interval"))
    ensures CastSpec(Scalar(s)).Overridden? ==> CastSpec(Scalar(s)).value.precision == -1 && CastSpec(Scalar(s)).value.scale == -1
  {
  }

  // ---------------------------------------------------------------------
  // Array component type names.

  /** `getArrayComponentTypeString`: PostgreSQL's own names for the JDBC
      types it spells differently. */
  function ArrayComponentTypeString(t: JdbcTypes.SqlType): (r: Hook<string>)
    ensures r.Overridden? <==> t == JdbcTypes.TINYINT || t == JdbcTypes.DOUBLE
    ensures t == JdbcTypes.TINYINT ==> r == Overridden("int2")
    ensures t == JdbcTypes.DOUBLE ==> r == Overridden("float8")
  {
    match t
    case TINYINT => Overridden("int2")
    case DOUBLE => Overridden("float8")
    case _ => Inherited
  }

  // ---------------------------------------------------------------------
  // Flags and unparsing.

  /** The flags PostgreSQL overrides; window functions keep the default. */
  function Flags(): (f: DialectFlags)
    ensures f.supportsCharSet == Overridden(false)
    ensures f.intervalParameterStrategy == Overridden(CAST)
    ensures f.supportsNestedArrays == Overridden(true)
    ensures f.requiresAliasForFromItems == Overridden(true)
    ensures f.supportsNestedAggregations == Overridden(false)
    ensures f.supportsWindowFunctions == Inherited
  {
    DialectFlags(
      supportsCharSet := Overridden(false),
      supportsWindowFunctions := Inherited,
      intervalParameterStrategy := Overridden(CAST),
      supportsNestedArrays := Overridden(true),
      requiresAliasForFromItems := Overridden(true),
      supportsNestedAggregations := Overridden(false))
  }

  /** The time unit's own name, which PostgreSQL's DATE_TRUNC accepts. */
  function UnitToken(u: TimeUnitRange): Result<string, SqlError>
  {
    Ok(UnitName(u))
  }

  /** `unparseCall`: FLOOR(x, unit) becomes DATE_TRUNC with the unit's name,
      datetime operand not first; every other call, CASE included, is
      unparsed generically. */
  function UnparseCall(call: SqlNode): Result<Unparsed, SqlError>
    requires IsSqlCall(call)
  {
    UnparseFloor(call, "DATE_TRUNC", false, UnitToken)
  }

  /** PostgreSQL's FLOOR rewrite never fails on a time-unit literal: every
      unit is passed by its own name to DATE_TRUNC. Other calls, other
      arities and CASE expressions go to the generic dialect. */
  lemma UnparseCallFloor(call: SqlNode)
    requires IsSqlCall(call)
    ensures !IsFloorWithUnit(call) <==> UnparseCall(call) == Ok(DefaultUnparse(call))
    ensures call.Case? ==> UnparseCall(call) == Ok(DefaultUnparse(call))
    ensures IsFloorWithUnit(call) && call.operands[1].Lit? && call.operands[1].lit.TimeUnitSymbol? ==>
              UnparseCall(call) ==
                Ok(DatetimeFunction("DATE_TRUNC",
                     Call(FLOOR, [call.operands[0], Lit(CharString(UnitName(call.operands[1].lit.unit)))]), false))
    ensures UnparseCall(call).Err? ==>
              IsFloorWithUnit(call) && !(call.operands[1].Lit? && call.operands[1].lit.TimeUnitSymbol?)
  {
    UnparseFloorRouting(call, "DATE_TRUNC", false, UnitToken);
  }

  /** FLOOR(x TO YEAR) is handed over as DATE_TRUNC over x and 'YEAR'. */
  lemma FloorToYear(x: SqlNode)
    ensures UnparseCall(Call(FLOOR, [x, Lit(TimeUnitSymbol(YEAR))])) ==
              Ok(DatetimeFunction("DATE_TRUNC", Call(FLOOR, [x, Lit(CharString("YEAR"))]), false))
  {
  }
}
