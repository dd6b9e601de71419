/** The Cottontail value coercion matrix: converts a value declared with a
    source PolyType into the Java representation the destination PolyType
    needs, element by element for lists (CottontailTypeConversionUtil). */
module CottontailTypeConversion {
  import opened Types
  import opened Results

  /** A Java object as the matrix sees it. Float and Double hold the exact
      value of the float or double, which is integral here since every one
      comes from an integral value; BigDecimal values have scale 0. */
  datatype Value =
    | Null
    | Bool(b: bool)
    | Byte(i8: Int8)
    | Short(i16: Int16)
    | Int(i32: Int32)
    | Long(i64: Int64)
    | Decimal(unscaled: int)
    | Float(f: int)
    | Double(d: int)
    | Str(s: string)
    | List(elems: seq<Value>)
    | Other(className: string)

  /** The exceptions the conversion raises. */
  datatype ConversionError =
      /** IllegalArgumentException: "Cannot convert from type: <in>" */
    | UnsupportedSource(inType: PolyType)
      /** IllegalArgumentException: "Cannot convert <in> to type: <out>" */
    | UnsupportedTarget(inType: PolyType, outType: PolyType)
      /** ClassCastException: the scalar is not of the source type's Java class */
    | ClassCast(inType: PolyType, value: Value)
      /** NullPointerException: a null scalar is unboxed */
    | NullPointer(inType: PolyType, outType: PolyType)

  /** The twelve source types `convertValue` dispatches on. */
  predicate IsHandledSource(t: PolyType)
  {
    (t.BOOLEAN? || t.TINYINT? || t.SMALLINT? || t.INTEGER? || t.BIGINT? || t.DECIMAL? || t.REAL? || t.DOUBLE? || t.DATE? || t.TIME? || t.TIMESTAMP? || t.VARCHAR?)
  }

  /** Destinations that hold a number. */
  predicate IsNumericTarget(t: PolyType)
  {
    (t.TINYINT? || t.SMALLINT? || t.INTEGER? || t.BIGINT? || t.DECIMAL? || t.REAL? || t.DOUBLE?)
  }

  // ---------------------------------------------------------------------
  // Reference definitions the conversion is measured against.

  /** The destination type a (non-null, non-list) Java value represents. */
  function TypeOfValue(v: Value): Option<PolyType>
  {
    match v
    case Bool(_) => Some(BOOLEAN)
    case Byte(_) => Some(TINYINT)
    case Short(_) => Some(SMALLINT)
    case Int(_) => Some(INTEGER)
    case Long(_) => Some(BIGINT)
    case Decimal(_) => Some(DECIMAL)
    case Float(_) => Some(REAL)
    case Double(_) => Some(DOUBLE)
    case Str(_) => Some(VARCHAR)
    case _ => None
  }

  /** The number a numeric Java value stands for. */
  function NumericValue(v: Value): Option<int>
  {
    match v
    case Byte(n) => Some(n)
    case Short(n) => Some(n)
    case Int(n) => Some(n)
    case Long(n) => Some(n)
    case Decimal(n) => Some(n)
    case Float(n) => Some(n)
    case Double(n) => Some(n)
    case _ => None
  }

  /** The (source, destination) pairs the matrix populates for scalars. */
  predicate Supported(inType: PolyType, outType: PolyType)
  {
    match inType
    case BOOLEAN => outType == BOOLEAN || outType == VARCHAR || IsNumericTarget(outType)
    case TINYINT => outType == VARCHAR || IsNumericTarget(outType)
    case SMALLINT => (outType.SMALLINT? || outType.INTEGER?)
    case INTEGER => (outType.INTEGER? || outType.BIGINT? || outType.DECIMAL? || outType.REAL? || outType.DOUBLE?)
    case _ => false
  }

  /** A non-null scalar of the Java class the source type is cast to. */
  predicate IsScalarOf(v: Value, t: PolyType)
  {
    match t
    case BOOLEAN => v.Bool?
    case TINYINT => v.Byte?
    case SMALLINT => v.Short?
    case INTEGER => v.Int?
    case _ => !v.List? && !v.Null?
  }

  /** A value built from lists only, with no scalar anywhere inside. */
  predicate ListsOnly(v: Value)
    decreases v
  {
    v.List? && forall i :: 0 <= i < |v.elems| ==> ListsOnly(v.elems[i])
  }

  // ---------------------------------------------------------------------
  // Decimal rendering (String.valueOf of a byte) and its inverse.

  function DigitChar(d: nat): char
    requires d < 10
  {
    "0123456789"[d]
  }

  function DigitValue(c: char): nat
  {
    if '0' <= c <= '9' then (c - '0') as nat else 0
  }

  function NatDigits(n: nat): (s: string)
    ensures |s| > 0 && s[0] != '-'
    decreases n
  {
    if n < 10 then [DigitChar(n)] else NatDigits(n / 10) + [DigitChar(n % 10)]
  }

  /** Java's decimal rendering of an integer. */
  function DecimalString(n: int): string
  {
    if n < 0 then "-" + NatDigits(-n) else NatDigits(n)
  }

  function ParseNat(s: string): nat
    decreases |s|
  {
    if |s| == 0 then 0 else ParseNat(s[..|s| - 1]) * 10 + DigitValue(s[|s| - 1])
  }

  /** Reads back a decimal rendering. */
  function ParseDecimal(s: string): int
  {
    if |s| > 0 && s[0] == '-' then -(ParseNat(s[1..]) as int) else ParseNat(s)
  }

  lemma {:induction false} ParseNatDigits(n: nat)
    ensures ParseNat(NatDigits(n)) == n
    decreases n
  {
    var s := NatDigits(n);
    if n >= 10 {
      ParseNatDigits(n / 10);
      assert s[..|s| - 1] == NatDigits(n / 10);
    }
  }

  /** The rendering is read back as the number it renders. */
  lemma ParseDecimalString(n: int)
    ensures ParseDecimal(DecimalString(n)) == n
  {
    if n < 0 {
      var m: nat := -n;
      var digits := NatDigits(m);
      ParseNatDigits(m);
      var s := "-" + digits;
      assert s[1..] == digits;
      assert ParseDecimal(s) == -(ParseNat(digits) as int);
      assert DecimalString(n) == s;
    } else {
      ParseNatDigits(n);
      assert DecimalString(n) == NatDigits(n);
    }
  }

  // ---------------------------------------------------------------------
  // The `(float)` cast of an int: IEEE 754 single precision keeps a 24-bit
  // significand and rounds to nearest, ties to even. Every int lies well
  // inside the float range, so the result is always an integral float.

  /** The gap between adjacent floats around the magnitude m: 1 below 2^24,
      doubling with each binade above. */
  function FloatSpacing(m: nat): (s: nat)
    ensures s >= 1
    ensures s == 1 <==> m < 0x100_0000
    ensures s > 1 ==> 0x80_0000 * s <= m < 0x100_0000 * s
    decreases m
  {
    if m < 0x100_0000 then 1 else 2 * FloatSpacing(m / 2)
  }

  /** The float nearest to the magnitude m, ties going to the even significand. */
  function RoundMagnitude(m: nat): (f: nat)
    ensures m < 0x100_0000 ==> f == m
    ensures 2 * (f - m) <= FloatSpacing(m) && 2 * (m - f) <= FloatSpacing(m)
  {
    var s := FloatSpacing(m);
    var q := m / s;
    var r := m % s;
    assert m == q * s + r && 0 <= r < s;
    assert (q + 1) * s == q * s + s;
    if 2 * r > s || (2 * r == s && q % 2 == 1) then (q + 1) * s else q * s
  }

  /** Java's `(float)` cast of an int, as the exact value of the float. */
  function FloatOfInt(n: Int32): (f: int)
    ensures -0x100_0000 < n < 0x100_0000 ==> f == n
    ensures var gap := FloatSpacing(if n < 0 then -(n as int) else n);
            2 * (f - n) <= gap && 2 * (n - f) <= gap
    ensures (f < 0 <==> n < 0) && (f == 0 <==> n == 0)
  {
    var rounded: int := RoundMagnitude(if n < 0 then -(n as int) else n);
    if n < 0 then -rounded else rounded
  }

  /** The cast is not exact above 2^24: 2^24 + 1 rounds down to the even
      2^24, 2^24 + 3 rounds up to the even 2^24 + 4. */
  lemma FloatOfIntRounds()
    ensures FloatOfInt(0x100_0001) == 0x100_0000
    ensures FloatOfInt(0x100_0003) == 0x100_0004
    ensures FloatOfInt(-0x100_0001) == -0x100_0000
  {
    assert FloatSpacing(0x80_0000) == 1;
    assert FloatSpacing(0x100_0001) == 2 && FloatSpacing(0x100_0003) == 2;
  }

  // ---------------------------------------------------------------------
  // The scalar switches.

  /** The widening casts `(short)`, `(int)`, `(long)`, `BigDecimal.valueOf`,
      `(float)`, `(double)` of an integral value. */
  function Widen(n: Int16, outType: PolyType): (r: Value)
    requires (outType.SMALLINT? || outType.INTEGER? || outType.BIGINT? || outType.DECIMAL? || outType.REAL? || outType.DOUBLE?)
  {
    match outType
    case SMALLINT => Short(n)
    case INTEGER => Int(n)
    case BIGINT => Long(n)
    case DECIMAL => Decimal(n)
    case REAL => Float(n)
    case DOUBLE => Double(n)
  }

  /** `fromBoolean` on a value that is not a list. */
  function FromBooleanScalar(value: Value, outType: PolyType): Result<Value, ConversionError>
  {
    if !(value.Null? || value.Bool?) then Err(ClassCast(BOOLEAN, value))
    else if outType == BOOLEAN then Ok(value)
    else if !(IsNumericTarget(outType) || outType == VARCHAR) then Err(UnsupportedTarget(BOOLEAN, outType))
    else if value.Null? then Err(NullPointer(BOOLEAN, outType))
    else if outType == VARCHAR then Ok(Str(if value.b then "true" else "false"))
    else if outType == TINYINT then Ok(Byte(if value.b then 1 else 0))
    else Ok(Widen(if value.b then 1 else 0, outType))
  }

  /** `fromTinyint` on a value that is not a list. `String.valueOf` of a null
      Byte is the text "null". */
  function FromTinyintScalar(value: Value, outType: PolyType): Result<Value, ConversionError>
  {
    if !(value.Null? || value.Byte?) then Err(ClassCast(TINYINT, value))
    else if outType == TINYINT then Ok(value)
    else if outType == VARCHAR then Ok(Str(if value.Null? then "null" else DecimalString(value.i8)))
    else if !IsNumericTarget(outType) then Err(UnsupportedTarget(TINYINT, outType))
    else if value.Null? then Err(NullPointer(TINYINT, outType))
    else Ok(Widen(value.i8, outType))
  }

  /** `fromSmallint` on a value that is not a list. */
  function FromSmallintScalar(value: Value, outType: PolyType): Result<Value, ConversionError>
  {
    if !(value.Null? || value.Short?) then Err(ClassCast(SMALLINT, value))
    else if outType == SMALLINT then Ok(value)
    else if outType != INTEGER then Err(UnsupportedTarget(SMALLINT, outType))
    else if value.Null? then Err(NullPointer(SMALLINT, outType))
    else Ok(Int(value.i16))
  }

  /** `fromInt` on a value that is not a list. */
  function FromIntScalar(value: Value, outType: PolyType): Result<Value, ConversionError>
  {
    if !(value.Null? || value.Int?) then Err(ClassCast(INTEGER, value))
    else if outType == INTEGER then Ok(value)
    else if !(outType.BIGINT? || outType.DECIMAL? || outType.REAL? || outType.DOUBLE?) then Err(UnsupportedTarget(INTEGER, outType))
    else if value.Null? then Err(NullPointer(INTEGER, outType))
    else
      var n := value.i32;
      match outType
      case BIGINT => Ok(Long(n))
      case DECIMAL => Ok(Decimal(n))
      case REAL => Ok(Float(FloatOfInt(n)))
      case DOUBLE => Ok(Double(n))
  }

  /** The scalar branch of `fromX` for the source type `inType`; the eight
      sources without any populated cell reject every scalar. */
  function ConvertScalar(inType: PolyType, value: Value, outType: PolyType): (r: Result<Value, ConversionError>)
    requires IsHandledSource(inType)
    ensures r.Err? ==> !r.error.UnsupportedSource? && r.error.inType == inType
  {
    match inType
    case BOOLEAN => FromBooleanScalar(value, outType)
    case TINYINT => FromTinyintScalar(value, outType)
    case SMALLINT => FromSmallintScalar(value, outType)
    case INTEGER => FromIntScalar(value, outType)
    case _ => Err(UnsupportedTarget(inType, outType))
  }

  // ---------------------------------------------------------------------
  // Lists.

  /** The first failure of a sequence of results, or all their values. */
  function Collect<T, E>(rs: seq<Result<T, E>>): (r: Result<seq<T>, E>)
    ensures r.Ok? <==> forall i :: 0 <= i < |rs| ==> rs[i].Ok?
    ensures r.Ok? ==> |r.value| == |rs| && forall i :: 0 <= i < |rs| ==> r.value[i] == rs[i].value
    ensures r.Err? ==> exists k :: 0 <= k < |rs| && rs[k] == Err(r.error) && forall j :: 0 <= j < k ==> rs[j].Ok?
  {
    if |rs| == 0 then Ok([])
    else if rs[0].Err? then Err(rs[0].error)
    else
      match Collect(rs[1..])
      case Ok(vs) => Ok([rs[0].value] + vs)
      case Err(e) =>
        assert forall j :: 1 <= j < |rs| ==> rs[j] == rs[1..][j - 1];
        Err(e)
  }

  /** The list handling every `fromX` shares: a list becomes the list of its
      converted elements, in order (nested lists recursively), and fails with
      its first failing element; a scalar goes to the switch `f`. */
  function MapScalars(f: Value -> Result<Value, ConversionError>, value: Value): Result<Value, ConversionError>
    decreases value, 1
  {
    if value.List? then
      match Collect(ElementResults(f, value))
      case Ok(vs) => Ok(List(vs))
      case Err(e) => Err(e)
    else
      f(value)
  }

  /** The results for a list's elements, in order. */
  function ElementResults(f: Value -> Result<Value, ConversionError>, value: Value): seq<Result<Value, ConversionError>>
    requires value.List?
    decreases value, 0
  {
    seq(|value.elems|, i requires 0 <= i < |value.elems| => MapScalars(f, value.elems[i]))
  }

  /** The scalar switch of the handled source type `inType`. */
  function Switch(inType: PolyType, outType: PolyType): Value -> Result<Value, ConversionError>
    requires IsHandledSource(inType)
  {
    x => ConvertScalar(inType, x, outType)
  }

  /** `convertValue`: dispatch on the source type first, then on the
      destination inside the source's `fromX`. */
  function Convert(inType: PolyType, value: Value, outType: PolyType): Result<Value, ConversionError>
  {
    if IsHandledSource(inType) then MapScalars(Switch(inType, outType), value)
    else Err(UnsupportedSource(inType))
  }

  /** `convertValue`. */
  method ConvertValue(value: Value, inType: PolyType, outType: PolyType) returns (r: Result<Value, ConversionError>)
    ensures r == Convert(inType, value, outType)
  {
    if !IsHandledSource(inType) {
      return Err(UnsupportedSource(inType));
    }
    r := ConvertFrom(value, inType, outType);
  }

  /** One `fromX` helper: the list loop that builds `returnList` by `add`,
      recursing into each element; a scalar goes to the switch. */
  method ConvertFrom(value: Value, inType: PolyType, outType: PolyType) returns (r: Result<Value, ConversionError>)
    requires IsHandledSource(inType)
    ensures r == MapScalars(Switch(inType, outType), value)
    decreases value
  {
    ghost var f := Switch(inType, outType);
    if !value.List? {
      return ConvertScalar(inType, value, outType);
    }
    var valueList := value.elems;
    ghost var rs := ElementResults(f, value);
    var returnList: seq<Value> := [];
    var i := 0;
    while i < |valueList|
      invariant 0 <= i <= |valueList|
      invariant forall j :: 0 <= j < i ==> rs[j].Ok?
      invariant |returnList| == i && forall j :: 0 <= j < i ==> returnList[j] == rs[j].value
    {
      var inner := ConvertFrom(valueList[i], inType, outType);
      if inner.Err? {
        CollectStopsAt(rs, i);
        return Err(inner.error);
      }
      returnList := returnList + [inner.value];
      i := i + 1;
    }
    assert Collect(rs).value == returnList;
    r := Ok(List(returnList));
  }

  /** Collecting stops at the first failure. */
  lemma CollectStopsAt<T, E>(rs: seq<Result<T, E>>, i: nat)
    requires i < |rs| && rs[i].Err? && forall j :: 0 <= j < i ==> rs[j].Ok?
    ensures Collect(rs) == Err(rs[i].error)
  {
    var c := Collect(rs);
    assert !rs[i].Ok?;
    assert c.Err?;
    var k :| 0 <= k < |rs| && rs[k] == Err(c.error) && forall j :: 0 <= j < k ==> rs[j].Ok?;
    assert k == i;
  }

  // ---------------------------------------------------------------------
  // Properties of the matrix.

  /** An error no scalar conversion raises is never raised for a list. */
  lemma {:induction false} MapScalarsAvoids(f: Value -> Result<Value, ConversionError>, value: Value, e: ConversionError)
    requires forall x: Value :: !x.List? ==> f(x) != Err(e)
    ensures MapScalars(f, value) != Err(e)
    decreases value
  {
    if value.List? {
      var rs := ElementResults(f, value);
      var c := Collect(rs);
      if c.Err? && c.error == e {
        var k :| 0 <= k < |rs| && rs[k] == Err(c.error) && forall j :: 0 <= j < k ==> rs[j].Ok?;
        MapScalarsAvoids(f, value.elems[k], e);
      }
    }
  }

  /** Only the twelve handled source types get past the first switch. */
  lemma UnhandledSourceFails(inType: PolyType, value: Value, outType: PolyType)
    ensures Convert(inType, value, outType) == Err(UnsupportedSource(inType)) <==> !IsHandledSource(inType)
  {
    if IsHandledSource(inType) {
      var f := Switch(inType, outType);
      forall x: Value | !x.List?
        ensures f(x) != Err(UnsupportedSource(inType))
      {
        assert f(x) == ConvertScalar(inType, x, outType);
      }
      MapScalarsAvoids(f, value, UnsupportedSource(inType));
    }
  }

  /** A non-null scalar of the source's class converts exactly when the pair
      is populated; otherwise the error names both types. */
  lemma ScalarSupportMatrix(inType: PolyType, value: Value, outType: PolyType)
    requires IsHandledSource(inType) && IsScalarOf(value, inType)
    ensures Convert(inType, value, outType).Ok? <==> Supported(inType, outType)
    ensures !Supported(inType, outType) ==> Convert(inType, value, outType) == Err(UnsupportedTarget(inType, outType))
  {
    ScalarGoesToSwitch(inType, value, outType);
    ScalarRow(inType, value, outType);
  }

  /** A value that is not a list goes straight to the scalar switch. */
  lemma ScalarGoesToSwitch(inType: PolyType, value: Value, outType: PolyType)
    requires IsHandledSource(inType) && !value.List?
    ensures Convert(inType, value, outType) == ConvertScalar(inType, value, outType)
    ensures inType == BOOLEAN ==> Convert(inType, value, outType) == FromBooleanScalar(value, outType)
    ensures inType == TINYINT ==> Convert(inType, value, outType) == FromTinyintScalar(value, outType)
    ensures inType == SMALLINT ==> Convert(inType, value, outType) == FromSmallintScalar(value, outType)
    ensures inType == INTEGER ==> Convert(inType, value, outType) == FromIntScalar(value, outType)
    ensures !(inType.BOOLEAN? || inType.TINYINT? || inType.SMALLINT? || inType.INTEGER?) ==>
              Convert(inType, value, outType) == Err(UnsupportedTarget(inType, outType))
  {
    assert Convert(inType, value, outType) == Switch(inType, outType)(value);
  }

  /** Every successful scalar conversion produces the Java class of the
      destination type, and numbers keep their value, except an int cast to
      REAL, which becomes the nearest float: exact up to 2^24 in magnitude and
      off by at most half the float spacing beyond. */
  lemma ConversionLandsInDestination(inType: PolyType, value: Value, outType: PolyType)
    requires IsScalarOf(value, inType) && Convert(inType, value, outType).Ok?
    ensures TypeOfValue(Convert(inType, value, outType).value) == Some(outType)
    ensures IsNumericTarget(outType) && inType != BOOLEAN && !(inType == INTEGER && outType == REAL) ==>
              NumericValue(Convert(inType, value, outType).value) == NumericValue(value)
    ensures inType == INTEGER && outType == REAL ==>
              Convert(inType, value, outType) == Ok(Float(FloatOfInt(value.i32)))
    ensures inType == INTEGER && outType == REAL && -0x100_0000 < value.i32 < 0x100_0000 ==>
              NumericValue(Convert(inType, value, outType).value) == NumericValue(value)
    ensures IsNumericTarget(outType) && inType == BOOLEAN ==>
              NumericValue(Convert(inType, value, outType).value) == Some(if value.b then 1 else 0)
  {
    if IsHandledSource(inType) {
      ScalarGoesToSwitch(inType, value, outType);
      ScalarRow(inType, value, outType);
    } else {
      assert false;
    }
  }

  /** One row of the matrix, on a non-null scalar of the source's class: the
      switch succeeds exactly on the populated cells, with a value of the
      destination's class that keeps the number, except that an int cast to
      REAL becomes the nearest float. */
  lemma ScalarRow(inType: PolyType, value: Value, outType: PolyType)
    requires IsHandledSource(inType) && IsScalarOf(value, inType)
    ensures var r := ConvertScalar(inType, value, outType);
            && (r.Ok? <==> Supported(inType, outType))
            && (!Supported(inType, outType) ==> r == Err(UnsupportedTarget(inType, outType)))
            && (r.Ok? ==> TypeOfValue(r.value) == Some(outType))
            && (r.Ok? && IsNumericTarget(outType) && inType != BOOLEAN && !(inType == INTEGER && outType == REAL) ==>
                  NumericValue(r.value) == NumericValue(value))
            && (r.Ok? && IsNumericTarget(outType) && inType == BOOLEAN ==> NumericValue(r.value) == Some(if value.b then 1 else 0))
            && (inType == INTEGER && outType == REAL ==> r == Ok(Float(FloatOfInt(value.i32))))
  {
    if inType == BOOLEAN {
      BooleanScalarRow(value, outType);
    } else if inType == TINYINT {
      TinyintScalarRow(value, outType);
    } else if inType == SMALLINT {
      SmallintScalarRow(value, outType);
    } else if inType == INTEGER {
      IntScalarRow(value, outType);
    } else {
      assert ConvertScalar(inType, value, outType) == Err(UnsupportedTarget(inType, outType));
    }
  }

  lemma SmallintScalarRow(value: Value, outType: PolyType)
    requires value.Short?
    ensures var r := ConvertScalar(SMALLINT, value, outType);
            && (r.Ok? <==> Supported(SMALLINT, outType))
            && (!Supported(SMALLINT, outType) ==> r == Err(UnsupportedTarget(SMALLINT, outType)))
            && (r.Ok? ==> TypeOfValue(r.value) == Some(outType) && NumericValue(r.value) == NumericValue(value))
  {
    assert ConvertScalar(SMALLINT, value, outType) == FromSmallintScalar(value, outType);
  }

  /** The int row: exact at BIGINT, DECIMAL and DOUBLE, the nearest float at
      REAL. */
  lemma IntScalarRow(value: Value, outType: PolyType)
    requires value.Int?
    ensures var r := ConvertScalar(INTEGER, value, outType);
            && (r.Ok? <==> Supported(INTEGER, outType))
            && (!Supported(INTEGER, outType) ==> r == Err(UnsupportedTarget(INTEGER, outType)))
            && (r.Ok? ==> TypeOfValue(r.value) == Some(outType))
            && (r.Ok? && outType != REAL ==> NumericValue(r.value) == NumericValue(value))
            && (outType == REAL ==> r == Ok(Float(FloatOfInt(value.i32))))
  {
    assert ConvertScalar(INTEGER, value, outType) == FromIntScalar(value, outType);
  }

  lemma BooleanScalarRow(value: Value, outType: PolyType)
    requires value.Bool?
    ensures var r := ConvertScalar(BOOLEAN, value, outType);
            && (r.Ok? <==> Supported(BOOLEAN, outType))
            && (!Supported(BOOLEAN, outType) ==> r == Err(UnsupportedTarget(BOOLEAN, outType)))
            && (r.Ok? ==> TypeOfValue(r.value) == Some(outType))
            && (r.Ok? && IsNumericTarget(outType) ==> NumericValue(r.value) == Some(if value.b then 1 else 0))
  {
    var r := FromBooleanScalar(value, outType);
    assert ConvertScalar(BOOLEAN, value, outType) == r;
    if IsNumericTarget(outType) && outType != TINYINT {
      assert r == Ok(Widen(if value.b then 1 else 0, outType));
    }
  }

  lemma TinyintScalarRow(value: Value, outType: PolyType)
    requires value.Byte?
    ensures var r := ConvertScalar(TINYINT, value, outType);
            && (r.Ok? <==> Supported(TINYINT, outType))
            && (!Supported(TINYINT, outType) ==> r == Err(UnsupportedTarget(TINYINT, outType)))
            && (r.Ok? ==> TypeOfValue(r.value) == Some(outType))
            && (r.Ok? && IsNumericTarget(outType) ==> NumericValue(r.value) == NumericValue(value))
  {
    var r := FromTinyintScalar(value, outType);
    assert ConvertScalar(TINYINT, value, outType) == r;
    if IsNumericTarget(outType) && outType != TINYINT {
      assert r == Ok(Widen(value.i8, outType));
    }
  }

  /** The boolean row of the matrix: 1 / 1.0 / "true" for true, 0 / 0.0 /
      "false" for false, identity to BOOLEAN, failure elsewhere. */
  lemma BooleanRow(b: bool, outType: PolyType)
    ensures outType == BOOLEAN ==> Convert(BOOLEAN, Bool(b), outType) == Ok(Bool(b))
    ensures outType == TINYINT ==> Convert(BOOLEAN, Bool(b), outType) == Ok(Byte(if b then 1 else 0))
    ensures outType == SMALLINT ==> Convert(BOOLEAN, Bool(b), outType) == Ok(Short(if b then 1 else 0))
    ensures outType == INTEGER ==> Convert(BOOLEAN, Bool(b), outType) == Ok(Int(if b then 1 else 0))
    ensures outType == BIGINT ==> Convert(BOOLEAN, Bool(b), outType) == Ok(Long(if b then 1 else 0))
    ensures outType == DECIMAL ==> Convert(BOOLEAN, Bool(b), outType) == Ok(Decimal(if b then 1 else 0))
    ensures outType == REAL ==> Convert(BOOLEAN, Bool(b), outType) == Ok(Float(if b then 1 else 0))
    ensures outType == DOUBLE ==> Convert(BOOLEAN, Bool(b), outType) == Ok(Double(if b then 1 else 0))
    ensures outType == VARCHAR ==> Convert(BOOLEAN, Bool(b), outType) == Ok(Str(if b then "true" else "false"))
    ensures !Supported(BOOLEAN, outType) ==>
              Convert(BOOLEAN, Bool(b), outType) == Err(UnsupportedTarget(BOOLEAN, outType))
  {
    ScalarGoesToSwitch(BOOLEAN, Bool(b), outType);
    var r := FromBooleanScalar(Bool(b), outType);
    if IsNumericTarget(outType) && outType != TINYINT {
      assert r == Ok(Widen(if b then 1 else 0, outType));
    }
  }

  /** The tinyint row: identity, value-preserving widening, a decimal
      rendering that reads back as the byte, and failure elsewhere (BOOLEAN
      included). */
  lemma TinyintRow(n: Int8, outType: PolyType)
    ensures outType == TINYINT ==> Convert(TINYINT, Byte(n), outType) == Ok(Byte(n))
    ensures (outType.SMALLINT? || outType.INTEGER? || outType.BIGINT? || outType.DECIMAL? || outType.REAL? || outType.DOUBLE?) ==>
              Convert(TINYINT, Byte(n), outType).Ok? &&
              NumericValue(Convert(TINYINT, Byte(n), outType).value) == Some(n)
    ensures outType == VARCHAR ==>
              Convert(TINYINT, Byte(n), outType) == Ok(Str(DecimalString(n))) &&
              ParseDecimal(Convert(TINYINT, Byte(n), outType).value.s) == n
    ensures !Supported(TINYINT, outType) ==>
              Convert(TINYINT, Byte(n), outType) == Err(UnsupportedTarget(TINYINT, outType))
  {
    ScalarGoesToSwitch(TINYINT, Byte(n), outType);
    if outType == VARCHAR {
      ParseDecimalString(n);
    }
  }

  /** A null scalar: only the identity conversions and the tinyint rendering
      survive; the others unbox it and fail. */
  lemma NullScalar(inType: PolyType, outType: PolyType)
    requires (inType.BOOLEAN? || inType.TINYINT? || inType.SMALLINT? || inType.INTEGER?) && Supported(inType, outType)
    ensures Convert(inType, Null, outType) ==
              if outType == inType then Ok(Null)
              else if inType == TINYINT && outType == VARCHAR then Ok(Str("null"))
              else Err(NullPointer(inType, outType))
  {
    ScalarGoesToSwitch(inType, Null, outType);
  }

  /** A list converts exactly when every element converts; the result has the
      same length and holds, at each position, the conversion of the element
      there; otherwise the call fails with the first failing element's error. */
  lemma ListPointwise(inType: PolyType, xs: seq<Value>, outType: PolyType)
    requires IsHandledSource(inType)
    ensures Convert(inType, List(xs), outType).Ok? <==> forall i :: 0 <= i < |xs| ==> Convert(inType, xs[i], outType).Ok?
    ensures Convert(inType, List(xs), outType).Ok? ==>
              Convert(inType, List(xs), outType).value.List? &&
              |Convert(inType, List(xs), outType).value.elems| == |xs| &&
              forall i :: 0 <= i < |xs| ==>
                Convert(inType, List(xs), outType).value.elems[i] == Convert(inType, xs[i], outType).value
    ensures Convert(inType, List(xs), outType).Err? ==>
              exists k :: 0 <= k < |xs| && Convert(inType, xs[k], outType) == Err(Convert(inType, List(xs), outType).error) &&
                forall j :: 0 <= j < k ==> Convert(inType, xs[j], outType).Ok?
  {
    var rs := ElementResults(Switch(inType, outType), List(xs));
    assert forall i :: 0 <= i < |xs| ==> rs[i] == Convert(inType, xs[i], outType);
  }

  /** The eight sources without populated cells reject every scalar, yet a
      value made of lists only (the empty list, say) converts to itself. */
  lemma {:induction false} EmptyCellsAcceptOnlyLists(inType: PolyType, value: Value, outType: PolyType)
    requires IsHandledSource(inType) && !(inType.BOOLEAN? || inType.TINYINT? || inType.SMALLINT? || inType.INTEGER?)
    ensures Convert(inType, value, outType).Ok? <==> ListsOnly(value)
    ensures ListsOnly(value) ==> Convert(inType, value, outType) == Ok(value)
    decreases value
  {
    if value.List? {
      var xs := value.elems;
      forall i | 0 <= i < |xs|
        ensures Convert(inType, xs[i], outType).Ok? <==> ListsOnly(xs[i])
        ensures ListsOnly(xs[i]) ==> Convert(inType, xs[i], outType) == Ok(xs[i])
      {
        EmptyCellsAcceptOnlyLists(inType, xs[i], outType);
      }
      ListPointwise(inType, xs, outType);
      if ListsOnly(value) {
        var r := Convert(inType, value, outType);
        assert r.value.elems == xs;
      }
    }
  }
}
