/** The canonical type vocabulary the translation core dispatches on: the
    PolyType enumeration, relational data types with array components, the
    time-unit ranges of FLOOR calls, and the JDBC type names used for array
    components. */
module Types {

  /** Java's byte, short, int and long. */
  type Int8 = x: int | -0x80 <= x < 0x80
  type Int16 = x: int | -0x8000 <= x < 0x8000
  type Int32 = x: int | -0x8000_0000 <= x < 0x8000_0000
  type Int64 = x: int | -0x8000_0000_0000_0000 <= x < 0x8000_0000_0000_0000

  /** Canonical types. ARRAY never stands alone: an array type is a RelType
      with a component (see below). */
  datatype PolyType =
    | BOOLEAN | TINYINT | SMALLINT | INTEGER | BIGINT | DECIMAL | FLOAT | REAL | DOUBLE
    | DATE | TIME | TIME_WITH_LOCAL_TIME_ZONE | TIMESTAMP | TIMESTAMP_WITH_LOCAL_TIME_ZONE
    | INTERVAL_YEAR | INTERVAL_YEAR_MONTH | INTERVAL_MONTH | INTERVAL_DAY | INTERVAL_DAY_HOUR
    | INTERVAL_DAY_MINUTE | INTERVAL_DAY_SECOND | INTERVAL_HOUR | INTERVAL_HOUR_MINUTE
    | INTERVAL_HOUR_SECOND | INTERVAL_MINUTE | INTERVAL_MINUTE_SECOND | INTERVAL_SECOND
    | CHAR | VARCHAR | BINARY | VARBINARY | NULL | ANY | SYMBOL | MULTISET | ARRAY | MAP
    | DISTINCT | STRUCTURED | ROW | OTHER | CURSOR | COLUMN_LIST | DYNAMIC_STAR | GEOMETRY
    | FILE | IMAGE | VIDEO | SOUND | JSON

  /** The name of a type constant, as `PolyType.getName()` gives it. */
  function Name(t: PolyType): string
  {
    match t
    case BOOLEAN => "BOOLEAN"
    case TINYINT => "TINYINT"
    case SMALLINT => "SMALLINT"
    case INTEGER => "INTEGER"
    case BIGINT => "BIGINT"
    case DECIMAL => "DECIMAL"
    case FLOAT => "FLOAT"
    case REAL => "REAL"
    case DOUBLE => "DOUBLE"
    case DATE => "DATE"
    case TIME => "TIME"
    case TIME_WITH_LOCAL_TIME_ZONE => "TIME_WITH_LOCAL_TIME_ZONE"
    case TIMESTAMP => "TIMESTAMP"
    case TIMESTAMP_WITH_LOCAL_TIME_ZONE => "TIMESTAMP_WITH_LOCAL_TIME_ZONE"
    case INTERVAL_YEAR => "INTERVAL_YEAR"
    case INTERVAL_YEAR_MONTH => "INTERVAL_YEAR_MONTH"
    case INTERVAL_MONTH => "INTERVAL_MONTH"
    case INTERVAL_DAY => "INTERVAL_DAY"
    case INTERVAL_DAY_HOUR => "INTERVAL_DAY_HOUR"
    case INTERVAL_DAY_MINUTE => "INTERVAL_DAY_MINUTE"
    case INTERVAL_DAY_SECOND => "INTERVAL_DAY_SECOND"
    case INTERVAL_HOUR => "INTERVAL_HOUR"
    case INTERVAL_HOUR_MINUTE => "INTERVAL_HOUR_MINUTE"
    case INTERVAL_HOUR_SECOND => "INTERVAL_HOUR_SECOND"
    case INTERVAL_MINUTE => "INTERVAL_MINUTE"
    case INTERVAL_MINUTE_SECOND => "INTERVAL_MINUTE_SECOND"
    case INTERVAL_SECOND => "INTERVAL_SECOND"
    case CHAR => "CHAR"
    case VARCHAR => "VARCHAR"
    case BINARY => "BINARY"
    case VARBINARY => "VARBINARY"
    case NULL => "NULL"
    case ANY => "ANY"
    case SYMBOL => "SYMBOL"
    case MULTISET => "MULTISET"
    case ARRAY => "ARRAY"
    case MAP => "MAP"
    case DISTINCT => "DISTINCT"
    case STRUCTURED => "STRUCTURED"
    case ROW => "ROW"
    case OTHER => "OTHER"
    case CURSOR => "CURSOR"
    case COLUMN_LIST => "COLUMN_LIST"
    case DYNAMIC_STAR => "DYNAMIC_STAR"
    case GEOMETRY => "GEOMETRY"
    case FILE => "FILE"
    case IMAGE => "IMAGE"
    case VIDEO => "VIDEO"
    case SOUND => "SOUND"
    case JSON => "JSON"
  }

  /** The thirteen interval types, which every dialect casts with one keyword. */
  predicate IsInterval(t: PolyType)
  {
    (t.INTERVAL_YEAR_MONTH? || t.INTERVAL_DAY? || t.INTERVAL_DAY_HOUR? || t.INTERVAL_DAY_MINUTE? || t.INTERVAL_DAY_SECOND? || t.INTERVAL_HOUR_MINUTE? || t.INTERVAL_HOUR? || t.INTERVAL_HOUR_SECOND? || t.INTERVAL_MINUTE? || t.INTERVAL_MONTH? || t.INTERVAL_SECOND? || t.INTERVAL_MINUTE_SECOND? || t.INTERVAL_YEAR?)
  }

  /** The multimedia types, stored as binary large objects. */
  predicate IsMultimedia(t: PolyType)
  {
    (t.FILE? || t.IMAGE? || t.VIDEO? || t.SOUND?)
  }

  /** A scalar type is any type but ARRAY. */
  type ScalarType = t: PolyType | t != ARRAY witness BOOLEAN

  /** A relational data type: a scalar, or an array of a component type. */
  datatype RelType = Scalar(scalar: ScalarType) | ArrayOf(component: RelType)
  {
    /** `RelDataType.getPolyType()`. */
    function PolyTypeOf(): (r: PolyType)
      ensures r == ARRAY <==> ArrayOf?
    {
      if ArrayOf? then ARRAY else scalar
    }
  }

  /** Number of array levels around the innermost scalar component. */
  function Depth(t: RelType): (n: nat)
    ensures n == 0 <==> t.Scalar?
  {
    match t
    case Scalar(_) => 0
    case ArrayOf(c) => 1 + Depth(c)
  }

  /** The innermost scalar component of a (possibly nested) array type. */
  function Innermost(t: RelType): ScalarType
  {
    match t
    case Scalar(s) => s
    case ArrayOf(c) => Innermost(c)
  }

  /** Time-unit ranges that a FLOOR call may name (avatica's TimeUnitRange). */
  datatype TimeUnitRange =
    | YEAR | YEAR_TO_MONTH | MONTH | DAY | DAY_TO_HOUR | DAY_TO_MINUTE | DAY_TO_SECOND
    | HOUR | HOUR_TO_MINUTE | HOUR_TO_SECOND | MINUTE | MINUTE_TO_SECOND | SECOND
    | ISOYEAR | QUARTER | WEEK | MILLISECOND | MICROSECOND | NANOSECOND
    | DOW | ISODOW | DOY | EPOCH | DECADE | CENTURY | MILLENNIUM

  /** `TimeUnitRange.name()`. */
  function UnitName(u: TimeUnitRange): string
  {
    match u
    case YEAR => "YEAR"
    case YEAR_TO_MONTH => "YEAR_TO_MONTH"
    case MONTH => "MONTH"
    case DAY => "DAY"
    case DAY_TO_HOUR => "DAY_TO_HOUR"
    case DAY_TO_MINUTE => "DAY_TO_MINUTE"
    case DAY_TO_SECOND => "DAY_TO_SECOND"
    case HOUR => "HOUR"
    case HOUR_TO_MINUTE => "HOUR_TO_MINUTE"
    case HOUR_TO_SECOND => "HOUR_TO_SECOND"
    case MINUTE => "MINUTE"
    case MINUTE_TO_SECOND => "MINUTE_TO_SECOND"
    case SECOND => "SECOND"
    case ISOYEAR => "ISOYEAR"
    case QUARTER => "QUARTER"
    case WEEK => "WEEK"
    case MILLISECOND => "MILLISECOND"
    case MICROSECOND => "MICROSECOND"
    case NANOSECOND => "NANOSECOND"
    case DOW => "DOW"
    case ISODOW => "ISODOW"
    case DOY => "DOY"
    case EPOCH => "EPOCH"
    case DECADE => "DECADE"
    case CENTURY => "CENTURY"
    case MILLENNIUM => "MILLENNIUM"
  }
}

/** JDBC type names (avatica's SqlType), the vocabulary of array component
    type strings. */
module JdbcTypes {

  datatype SqlType =
    | BIT | BOOLEAN | TINYINT | SMALLINT | INTEGER | BIGINT | FLOAT | REAL | DOUBLE
    | NUMERIC | DECIMAL | CHAR | VARCHAR | LONGVARCHAR | DATE | TIME | TIMESTAMP
    | BINARY | VARBINARY | LONGVARBINARY | NULL | OTHER | BLOB | CLOB | ARRAY
}
