# Polypheny-DB translation core, modelled in Dafny

This project models four small translation components of Polypheny-DB. Each
one turns planner-level input into something the target store understands,
or converts a value:

- **Cottontail value coercion** (`CottontailTypeConversionUtil`). It converts
  a Java value declared with a source `PolyType` into the Java value of a
  destination `PolyType`. It dispatches on the source type first and the
  destination second, maps lists element by element, and throws for every
  pair it does not populate. Modelled in `TypeConversion.dfy` (module
  `CottontailTypeConversion`).
- **MongoDB aggregate** (`MongoAggregate`). The constructor validates
  eagerly: no DISTINCT call and SIMPLE grouping only. `copy` turns a failure
  into an internal error. `implement` emits a `$group` stage and, when the
  group set is not empty, a `$project` fix-up stage. It also records the
  physical field names it reads in the implementor. The `toMongo` dispatch
  table produces each accumulator. Modelled in `MongoAggregate.dfy`. The
  implementor is a class whose `stages` and `physicalMapper` sequences its
  methods append to. `implement` is a method whose loops build the stage
  entries, and `toMongo` is a method that records the field it reads. Because
  the source's `$project` fix-up is wrong for some group sets (see Findings),
  `implement` is modelled twice: `ImplementAsWritten` follows the source and
  `Implement` uses the corrected fix-up.
- **SQL dialect hooks for PostgreSQL and HSQLDB**
  (`PostgresqlSqlDialect`, `HsqldbSqlDialect`). These cover:
  - cast specs, including PostgreSQL's loop that adds a bracket pair per
    level of array nesting;
  - PostgreSQL's VARCHAR precision;
  - array component type names;
  - the FLOOR-to-`DATE_TRUNC`/`TRUNC` rewrite and HSQLDB's truncation-token
    table;
  - HSQLDB's LIMIT-style pagination;
  - HSQLDB's single-value `CASE` rewrite;
  - the constant feature flags.

  The syntax-tree slice they share is in `SqlAst.dfy`; the dialects are in
  `PostgresqlDialect.dfy` and `HsqldbDialect.dfy`. `SqlEval.dfy` gives a
  small reference semantics for the expressions the single-value rewrite
  builds, so that the rewrite can be compared with the aggregate it
  replaces.
- **Cottontail request builders** (`Linq4JFixer`). These route atomic and
  compound predicates into their slots, wrap a filter in a `Where`, and build
  kNN requests with a default `k`, optional query and weight vectors and a
  closed table of distance names. Modelled in `Linq4JFixer.dfy`, with the
  protobuf messages as datatypes and the untyped `Object` arguments as the
  datatype `Obj`.

`Types.dfy` holds the shared enumerations: `PolyType`, relational types with
array components, `TimeUnitRange` and the JDBC `SqlType`. It also holds the
Java integer widths as subset types. `Results.dfy` holds `Result` and
`Option`.

Every Java exception becomes an `Err` value naming the exception, e.g.
`ClassCast`, `NullPointer`, `AssertionError` or `IllegalArgument`, with the
message where the source builds one. A hook that defers to the generic
dialect (`super`) returns `Inherited`. A hook that hands work to the SQL
writer returns a description of the call it makes (`Unparsed`).

## Model

| member | source | states |
|---|---|---|
| CottontailTypeConversion.ConvertValue | cottontail-adapter/src/main/java/org/polypheny/db/adapter/cottontail/util/CottontailTypeConversionUtil.java:29-61 | `convertValue` dispatches on the source type and returns exactly the specification function `Convert` |
| CottontailTypeConversion.ConvertFrom | cottontail-adapter/src/main/java/org/polypheny/db/adapter/cottontail/util/CottontailTypeConversionUtil.java:64-74 | the list loop of a `fromX` helper builds its result list by appending, stopping at the first failing element; the result is the list-mapping of the scalar switch |
| CottontailTypeConversion.Collect | cottontail-adapter/src/main/java/org/polypheny/db/adapter/cottontail/util/CottontailTypeConversionUtil.java:66-74 | collecting element results succeeds iff every element succeeds, keeps length and order, and otherwise reports the first failure |
| CottontailTypeConversion.UnhandledSourceFails | cottontail-adapter/src/main/java/org/polypheny/db/adapter/cottontail/util/CottontailTypeConversionUtil.java:33-60 | the call fails with "Cannot convert from type" exactly when the source type is not one of the twelve handled types |
| CottontailTypeConversion.MapScalarsAvoids | cottontail-adapter/src/main/java/org/polypheny/db/adapter/cottontail/util/CottontailTypeConversionUtil.java:66-74 | an error no scalar conversion raises is never raised for a list either |
| CottontailTypeConversion.ScalarSupportMatrix | cottontail-adapter/src/main/java/org/polypheny/db/adapter/cottontail/util/CottontailTypeConversionUtil.java:77-332 | a non-null scalar of the source's Java class converts iff the (source, destination) pair is populated; an unpopulated pair throws "Cannot convert … to type" |
| CottontailTypeConversion.CollectStopsAt | cottontail-adapter/src/main/java/org/polypheny/db/adapter/cottontail/util/CottontailTypeConversionUtil.java:66-74 | when element i is the first to fail, the list fails with element i's error |
| CottontailTypeConversion.ScalarGoesToSwitch | cottontail-adapter/src/main/java/org/polypheny/db/adapter/cottontail/util/CottontailTypeConversionUtil.java:29-61 | `convertValue` hands a non-list value of a handled source type to that type's scalar switch (`fromBoolean`, `fromTinyint`, `fromSmallint`, `fromInt`); the other handled sources have no populated scalar cell and throw "Cannot convert … to type" |
| CottontailTypeConversion.ScalarRow | cottontail-adapter/src/main/java/org/polypheny/db/adapter/cottontail/util/CottontailTypeConversionUtil.java:77-188 | a scalar of the source's Java class converts iff the pair is populated and lands in the destination's Java class; it keeps its number (booleans as 1 or 0), except that an int cast to REAL becomes `FloatOfInt` of it, the nearest float |
| CottontailTypeConversion.BooleanScalarRow | cottontail-adapter/src/main/java/org/polypheny/db/adapter/cottontail/util/CottontailTypeConversionUtil.java:77-98 | a boolean converts iff the destination is in the boolean row; it lands in the destination's class as 1 or 0 at numeric destinations |
| CottontailTypeConversion.TinyintScalarRow | cottontail-adapter/src/main/java/org/polypheny/db/adapter/cottontail/util/CottontailTypeConversionUtil.java:114-134 | a byte converts iff the destination is in the tinyint row; it lands in the destination's class and keeps its number |
| CottontailTypeConversion.SmallintScalarRow | cottontail-adapter/src/main/java/org/polypheny/db/adapter/cottontail/util/CottontailTypeConversionUtil.java:149-158 | a short converts only to SMALLINT and INTEGER, keeping its number; every other destination throws |
| CottontailTypeConversion.IntScalarRow | cottontail-adapter/src/main/java/org/polypheny/db/adapter/cottontail/util/CottontailTypeConversionUtil.java:173-188 | an int converts only to INTEGER, BIGINT, DECIMAL, REAL and DOUBLE; BIGINT, DECIMAL and DOUBLE keep its number, REAL holds the nearest float (`FloatOfInt`); every other destination throws |
| CottontailTypeConversion.ConversionLandsInDestination | cottontail-adapter/src/main/java/org/polypheny/db/adapter/cottontail/util/CottontailTypeConversionUtil.java:77-188 | every successful scalar conversion yields the Java class of the destination type; numeric destinations keep the source's number and booleans become 1 or 0, except int to REAL, which is the nearest float and keeps the number only below 2^24 in magnitude |
| CottontailTypeConversion.FloatSpacing | cottontail-adapter/src/main/java/org/polypheny/db/adapter/cottontail/util/CottontailTypeConversionUtil.java:181-182 | the gap between adjacent floats is 1 below 2^24 and otherwise a spacing s with 2^23·s ≤ m < 2^24·s, i.e. a 24-bit significand |
| CottontailTypeConversion.RoundMagnitude | cottontail-adapter/src/main/java/org/polypheny/db/adapter/cottontail/util/CottontailTypeConversionUtil.java:181-182 | the rounded magnitude is exact below 2^24 and within half a float spacing of the input |
| CottontailTypeConversion.FloatOfInt | cottontail-adapter/src/main/java/org/polypheny/db/adapter/cottontail/util/CottontailTypeConversionUtil.java:181-182 | the `(float)` cast of an int is exact strictly inside ±2^24, within half a spacing of the int elsewhere, and keeps its sign and zero |
| CottontailTypeConversion.FloatOfIntRounds | cottontail-adapter/src/main/java/org/polypheny/db/adapter/cottontail/util/CottontailTypeConversionUtil.java:181-182 | 16777217 casts to 16777216 and 16777219 to 16777220 (ties to even), so the REAL cell is not exact above 2^24 |
| CottontailTypeConversion.BooleanRow | cottontail-adapter/src/main/java/org/polypheny/db/adapter/cottontail/util/CottontailTypeConversionUtil.java:77-98 | true gives 1 / 1.0 / "true" and false gives 0 / 0.0 / "false" at the numeric and VARCHAR destinations; BOOLEAN is the identity; any other destination throws |
| CottontailTypeConversion.TinyintRow | cottontail-adapter/src/main/java/org/polypheny/db/adapter/cottontail/util/CottontailTypeConversionUtil.java:114-134 | TINYINT is the identity; the six wider numeric destinations keep the value; VARCHAR is `DecimalString` of the byte, as `String.valueOf(byte)` renders it, and reads back as the value; any other destination, BOOLEAN included, throws |
| CottontailTypeConversion.ParseDecimalString | cottontail-adapter/src/main/java/org/polypheny/db/adapter/cottontail/util/CottontailTypeConversionUtil.java:130-131 | the decimal rendering of any integer reads back as that integer |
| CottontailTypeConversion.ParseNatDigits | cottontail-adapter/src/main/java/org/polypheny/db/adapter/cottontail/util/CottontailTypeConversionUtil.java:130-131 | the digits of a natural number read back as that number |
| CottontailTypeConversion.NatDigits | cottontail-adapter/src/main/java/org/polypheny/db/adapter/cottontail/util/CottontailTypeConversionUtil.java:130-131 | the digit string of a natural number is non-empty and has no sign |
| CottontailTypeConversion.NullScalar | cottontail-adapter/src/main/java/org/polypheny/db/adapter/cottontail/util/CottontailTypeConversionUtil.java:77-188 | on a populated pair, a null scalar survives only the identity conversions and the tinyint-to-VARCHAR rendering ("null"); every other pair unboxes it and throws a NullPointerException |
| CottontailTypeConversion.ListPointwise | cottontail-adapter/src/main/java/org/polypheny/db/adapter/cottontail/util/CottontailTypeConversionUtil.java:66-74 | a list converts iff each element converts; the result has the same length with element i converted from element i; otherwise the first failing element's error is raised |
| CottontailTypeConversion.EmptyCellsAcceptOnlyLists | cottontail-adapter/src/main/java/org/polypheny/db/adapter/cottontail/util/CottontailTypeConversionUtil.java:192-332 | for BIGINT through VARCHAR sources, a value converts iff it is built from lists only (the empty list among them), and then it converts to itself |
| MongoAggregate.Create | mongodb-adapter/src/main/java/org/polypheny/db/adapter/mongodb/MongoAggregate.java:60-76 | construction succeeds iff no call is DISTINCT and the group type is SIMPLE; any DISTINCT call gives "distinct aggregation not supported", and otherwise a non-SIMPLE group type gives "unsupported group type: <type>"; every failure is an InvalidRelException |
| MongoAggregate.CopyNeverInvalidRel | mongodb-adapter/src/main/java/org/polypheny/db/adapter/mongodb/MongoAggregate.java:79-87 | `copy` succeeds exactly when construction does, with the same node, and otherwise raises an AssertionError whose message is the InvalidRelException's `toString()` (its class name, then its message) |
| MongoAggregate.AccumulatorOkIffKnown | mongodb-adapter/src/main/java/org/polypheny/db/adapter/mongodb/MongoAggregate.java:150-187 | the accumulator exists iff the aggregate function is in the operator table; COUNT() is `{$sum: 1}`; any other function raises an AssertionError |
| MongoAggregate.AccumulatorFollowsTable | mongodb-adapter/src/main/java/org/polypheny/db/adapter/mongodb/MongoAggregate.java:150-184 | for a function in the table, with the argument count the source asserts, the accumulator exists and opens with `{` and the table's operator (`$sum`, `$min`, `$max` or `$avg`) |
| MongoAggregate.ToMongo | mongodb-adapter/src/main/java/org/polypheny/db/adapter/mongodb/MongoAggregate.java:150-188 | `toMongo` returns the table's accumulator and appends to the physical mapper exactly the input field it reads (none for COUNT()) |
| MongoAggregate.Implementor.Add | mongodb-adapter/src/main/java/org/polypheny/db/adapter/mongodb/MongoAggregate.java:115 | adding a stage appends it and leaves the physical mapper alone |
| MongoAggregate.Implementor.MapField | mongodb-adapter/src/main/java/org/polypheny/db/adapter/mongodb/MongoAggregate.java:100 | mapping a field appends its name and leaves the stages alone |
| MongoAggregate.GroupKey | mongodb-adapter/src/main/java/org/polypheny/db/adapter/mongodb/MongoAggregate.java:97-111 | the key loop renders the `_id` entry of the group specification and maps each grouped input field once, in ascending index order |
| MongoAggregate.KeyEntries | mongodb-adapter/src/main/java/org/polypheny/db/adapter/mongodb/MongoAggregate.java:103-109 | one key entry per grouped column |
| MongoAggregate.GroupedNames | mongodb-adapter/src/main/java/org/polypheny/db/adapter/mongodb/MongoAggregate.java:104-108 | one mapped input name per grouped column |
| MongoAggregate.CallEntry | mongodb-adapter/src/main/java/org/polypheny/db/adapter/mongodb/MongoAggregate.java:113 | one call's entry is named by its output position and holds its accumulator, extending the entries before it; a rejected call is the failure of the whole call list; the mapper grows by exactly that call's field |
| MongoAggregate.CallEntries | mongodb-adapter/src/main/java/org/polypheny/db/adapter/mongodb/MongoAggregate.java:112-114 | the call loop renders one `$group` field per call, or fails at the first unknown function, and maps the fields the calls read |
| MongoAggregate.EntryAccepted | mongodb-adapter/src/main/java/org/polypheny/db/adapter/mongodb/MongoAggregate.java:113 | an accepted call appends its entry, named by output position \|groupSet\|+c, and its input field |
| MongoAggregate.EntryRejected | mongodb-adapter/src/main/java/org/polypheny/db/adapter/mongodb/MongoAggregate.java:113 | a rejected call's error is the error of the whole call list, and no later call maps a field |
| MongoAggregate.CallFieldsStep | mongodb-adapter/src/main/java/org/polypheny/db/adapter/mongodb/MongoAggregate.java:112-114 | one more call appends its entry or turns the result into its failure; its input field is recorded in both cases |
| MongoAggregate.LayoutStep | mongodb-adapter/src/main/java/org/polypheny/db/adapter/mongodb/MongoAggregate.java:112-114 | appending the next call's accumulator under the next output name keeps every entry named by its position and holding its call's accumulator |
| MongoAggregate.RenderAllAppend | mongodb-adapter/src/main/java/org/polypheny/db/adapter/mongodb/MongoAggregate.java:113 | rendering one more field appends its rendering to the list |
| MongoAggregate.CallFields | mongodb-adapter/src/main/java/org/polypheny/db/adapter/mongodb/MongoAggregate.java:112-114 | on success there is one field per processed call |
| MongoAggregate.CallFieldsLayout | mongodb-adapter/src/main/java/org/polypheny/db/adapter/mongodb/MongoAggregate.java:96-114 | the call fields exist iff every call is in the table; call c is named by output name \|groupSet\|+c and holds its accumulator |
| MongoAggregate.CallFieldsFailure | mongodb-adapter/src/main/java/org/polypheny/db/adapter/mongodb/MongoAggregate.java:185-187 | a failure names the first unknown aggregate function, after only known ones: "unknown aggregate <name>" |
| MongoAggregate.FailurePersists | mongodb-adapter/src/main/java/org/polypheny/db/adapter/mongodb/MongoAggregate.java:112-114 | once a call fails, later calls change neither the error nor the mapped fields |
| MongoAggregate.GroupStageKey | mongodb-adapter/src/main/java/org/polypheny/db/adapter/mongodb/MongoAggregate.java:97-111 | the `$group` stage has `_id` first and then one field per call; a single column gives `_id` the scalar `$<name>`, several give an object of `<name>: "$<name>"` entries, none gives `{}` |
| MongoAggregate.GroupStageCall | mongodb-adapter/src/main/java/org/polypheny/db/adapter/mongodb/MongoAggregate.java:112-114 | call c's `$group` field is named by output name \|groupSet\|+c and holds its accumulator |
| MongoAggregate.GroupThenOptionalProject | mongodb-adapter/src/main/java/org/polypheny/db/adapter/mongodb/MongoAggregate.java:115-146 | for `implement` with the corrected fix-up: the stages exist iff every call is known; then exactly one `$group` stage comes first, and a `$project` stage follows iff the group set is non-empty |
| MongoAggregate.Fixups | mongodb-adapter/src/main/java/org/polypheny/db/adapter/mongodb/MongoAggregate.java:116-143 | the source's fix-up loops with the corrected lookup produce the rendering of the corrected fix-up fields (see Findings) |
| MongoAggregate.CallFixups | mongodb-adapter/src/main/java/org/polypheny/db/adapter/mongodb/MongoAggregate.java:139-142 | one fix-up per aggregate call |
| MongoAggregate.FixupReadsWhatGroupWrote | mongodb-adapter/src/main/java/org/polypheny/db/adapter/mongodb/MongoAggregate.java:116-143 | with one group column, every output field gets a fix-up, field 0 from `$_id` and the others from themselves; with several, `_id: 0` comes first, then each grouped field from `$_id.<the key name the $group stage wrote>`, then each call output from itself |
| MongoAggregate.GroupStageOf | mongodb-adapter/src/main/java/org/polypheny/db/adapter/mongodb/MongoAggregate.java:96-115 | the `$group` stage text is the rendering of the key entry followed by the call entries, or the first unknown function's failure; the mapper grows by the grouped fields and then the calls' fields |
| MongoAggregate.Implement | mongodb-adapter/src/main/java/org/polypheny/db/adapter/mongodb/MongoAggregate.java:90-147 | `implement` with the corrected fix-up appends exactly the specified stages, or none when a call is unknown, and appends to the physical mapper the group fields and then the calls' fields |
| MongoAggregate.FixupLength | mongodb-adapter/src/main/java/org/polypheny/db/adapter/mongodb/MongoAggregate.java:132-143 | with several group columns, the fix-up has one entry per output field after a leading `_id: 0` |
| MongoAggregate.FixupEntry | mongodb-adapter/src/main/java/org/polypheny/db/adapter/mongodb/MongoAggregate.java:117-143 | output field k of the fix-up is named after itself and read from `$_id` (one group column, k = 0), from `$_id.<grouped input name>` (several columns, k a group position) or from itself (k a call position) |
| MongoAggregate.FixupAsWrittenMisnamesFields | mongodb-adapter/src/main/java/org/polypheny/db/adapter/mongodb/MongoAggregate.java:135-138 | with group set {1, 2}, the fix-ups as written read `c` from `$_id.c` and `cnt` twice, and never produce `b` |
| MongoAggregate.FixupCorrectedOnSameNode | mongodb-adapter/src/main/java/org/polypheny/db/adapter/mongodb/MongoAggregate.java:131-143 | on the same node, the corrected fix-ups are `_id: 0`, then `b`, `c` from `$_id` and `cnt` from itself |
| MongoAggregate.GroupFixupsAsWrittenShape | mongodb-adapter/src/main/java/org/polypheny/db/adapter/mongodb/MongoAggregate.java:135-138 | as written, the grouped fix-ups exist iff every group column's input index is an output position; entry j reads output name `outNames[gs[j]]`; otherwise the first column past the output names is the IndexOutOfBounds failure |
| MongoAggregate.AsWrittenAgreesOnLeadingGroups | mongodb-adapter/src/main/java/org/polypheny/db/adapter/mongodb/MongoAggregate.java:131-143 | when the group set is columns 0, 1, … and those output names are the input names, the fix-up as written equals the corrected one |
| MongoAggregate.GroupFixupAsWrittenStep | mongodb-adapter/src/main/java/org/polypheny/db/adapter/mongodb/MongoAggregate.java:135-138 | one pass of the as-written group loop over a column in range appends that column's fix-up |
| MongoAggregate.GroupFixupEntriesAsWritten | mongodb-adapter/src/main/java/org/polypheny/db/adapter/mongodb/MongoAggregate.java:135-138 | the as-written group loop renders the grouped fix-ups, or throws IndexOutOfBounds at the first column past the output names |
| MongoAggregate.FixupsAsWritten | mongodb-adapter/src/main/java/org/polypheny/db/adapter/mongodb/MongoAggregate.java:116-143 | the as-written fix-up list is `_id: 0`, the grouped fix-ups as written and the call fix-ups (one group column: the same as corrected), or the as-written failure |
| MongoAggregate.ImplementAsWritten | mongodb-adapter/src/main/java/org/polypheny/db/adapter/mongodb/MongoAggregate.java:90-147 | `implement` as written: no stage and the call's error for an unknown function; otherwise `$group` is appended, then either the `$project` of the as-written fix-up (non-empty group set) or the fix-up's IndexOutOfBounds is raised with `$group` already appended; the physical mapper grows as in `Implement` |
| MongoAggregate.ImplementAgreesOnLeadingGroups | mongodb-adapter/src/main/java/org/polypheny/db/adapter/mongodb/MongoAggregate.java:90-147 | on a group set of columns 0, 1, … that keep their input names, `implement` as written appends the same stages and fails the same way as the corrected one |
| MongoAggregate.ImplementAsWrittenThrowsAfterGroup | mongodb-adapter/src/main/java/org/polypheny/db/adapter/mongodb/MongoAggregate.java:115-138 | with several group columns, one of them past the output names, and only known calls, `implement` as written appends only `$group` and then raises IndexOutOfBounds |
| MongoAggregate.FixupAsWrittenOutOfBounds | mongodb-adapter/src/main/java/org/polypheny/db/adapter/mongodb/MongoAggregate.java:135-138 | with group set {0, 5} and two output fields, the fix-ups as written index past the output names |
| MongoAggregate.RenderAll | mongodb-adapter/src/main/java/org/polypheny/db/adapter/mongodb/MongoAggregate.java:115 | renders every field, keeping their order |
| PostgresqlDialect.MaxPrecision | core/src/main/java/org/polypheny/db/sql/dialect/PostgresqlSqlDialect.java:62-77 | VARCHAR's maximum precision is 10·1024·1024; every other type keeps the default type system's value |
| PostgresqlDialect.MaxPrecisionOverridesOnlyVarchar | core/src/main/java/org/polypheny/db/sql/dialect/PostgresqlSqlDialect.java:65-75 | whatever the default is, the PostgreSQL type system differs from it at VARCHAR at most |
| PostgresqlDialect.GetCastSpec | core/src/main/java/org/polypheny/db/sql/dialect/PostgresqlSqlDialect.java:112-169 | the cast-spec switch returns the reference cast spec for every type |
| PostgresqlDialect.ArrayCastSpec | core/src/main/java/org/polypheny/db/sql/dialect/PostgresqlSqlDialect.java:130-148 | the ARRAY loop yields the innermost component's keyword followed by one `[]` per level of nesting |
| PostgresqlDialect.ArrayKeywordMatchesScalar | core/src/main/java/org/polypheny/db/sql/dialect/PostgresqlSqlDialect.java:116-148 | an array of TINYINT or DOUBLE spells its component exactly as the scalar cast spec of that type does, brackets following |
| PostgresqlDialect.Brackets | core/src/main/java/org/polypheny/db/sql/dialect/PostgresqlSqlDialect.java:131-136 | n bracket pairs are 2n characters |
| PostgresqlDialect.BracketPairs | core/src/main/java/org/polypheny/db/sql/dialect/PostgresqlSqlDialect.java:131-136 | n bracket pairs are `[` `]` alternating |
| PostgresqlDialect.ArrayCastSpecBrackets | core/src/main/java/org/polypheny/db/sql/dialect/PostgresqlSqlDialect.java:130-148 | an array's cast spec is the innermost component's keyword (`_smallint`, `_double precision` or `_<name>`) followed by one `[]` per nesting level |
| PostgresqlDialect.CastSpecDepthOnly | core/src/main/java/org/polypheny/db/sql/dialect/PostgresqlSqlDialect.java:130-148 | two arrays over the same innermost type have equal cast specs iff they are nested equally deep |
| PostgresqlDialect.ScalarCastSpecs | core/src/main/java/org/polypheny/db/sql/dialect/PostgresqlSqlDialect.java:116-165 | a scalar is overridden iff it is TINYINT, DOUBLE, multimedia or an interval type; multimedia gives `_BYTEA`, intervals give `interval`; all specs have no precision or scale |
| PostgresqlDialect.ArrayComponentTypeString | core/src/main/java/org/polypheny/db/sql/dialect/PostgresqlSqlDialect.java:172-182 | TINYINT is `int2` and DOUBLE is `float8`; every other type is left to the default |
| PostgresqlDialect.Flags | core/src/main/java/org/polypheny/db/sql/dialect/PostgresqlSqlDialect.java:94-194 | no character sets, CAST interval parameters, nested arrays, aliases required on FROM items, no nested aggregations; window functions left to the default |
| PostgresqlDialect.UnparseCallFloor | core/src/main/java/org/polypheny/db/sql/dialect/PostgresqlSqlDialect.java:197-216 | exactly the two-operand FLOOR calls are rewritten, to DATE_TRUNC over the operand and the unit's own name (datetime operand not first); every other SqlCall, CASE included, goes to the generic dialect; any failure is a unit operand that is not a time-unit literal |
| PostgresqlDialect.FloorToYear | core/src/main/java/org/polypheny/db/sql/dialect/PostgresqlSqlDialect.java:206-210 | FLOOR(x TO YEAR) becomes DATE_TRUNC over x and 'YEAR' |
| SqlAst.TimeUnitOf | core/src/main/java/org/polypheny/db/sql/dialect/PostgresqlSqlDialect.java:206-207 | reading the unit succeeds exactly on a time-unit literal and gives its unit; a node that is not a literal fails the cast |
| SqlAst.ReplaceTimeUnitOperand | core/src/main/java/org/polypheny/db/sql/dialect/PostgresqlSqlDialect.java:209 | the replaced call keeps the operator and first operand, with the unit operand replaced by the given text |
| SqlAst.UnparseFloorRouting | core/src/main/java/org/polypheny/db/sql/dialect/HsqldbSqlDialect.java:132-151 | the shared FLOOR hook rewrites exactly the two-operand FLOOR calls and hands every other SqlCall, CASE included, to the generic dialect; to the named function over the operand and the unit's token, or fails as the token lookup or the literal cast fails |
| HsqldbDialect.Flags | core/src/main/java/org/polypheny/db/sql/dialect/HsqldbSqlDialect.java:75-90 | no character sets, no window functions, interval strategy NONE; the other flags are left to the default |
| HsqldbDialect.CastSpec | core/src/main/java/org/polypheny/db/sql/dialect/HsqldbSqlDialect.java:93-128 | a type is overridden iff it is an array, multimedia or an interval type, always with no precision or scale |
| HsqldbDialect.ArrayCastSpecUniform | core/src/main/java/org/polypheny/db/sql/dialect/HsqldbSqlDialect.java:97-100 | every array casts to `_LONGVARCHAR`, whatever its component type and depth |
| HsqldbDialect.ScalarCastSpecs | core/src/main/java/org/polypheny/db/sql/dialect/HsqldbSqlDialect.java:101-124 | multimedia types cast to `_BLOB`, the thirteen interval types to `INTERVAL` |
| HsqldbDialect.ConvertTimeUnit | core/src/main/java/org/polypheny/db/sql/dialect/HsqldbSqlDialect.java:189-208 | the token exists iff the unit is YEAR, MONTH, DAY, WEEK, HOUR, MINUTE or SECOND (YYYY, MM, DD, WW, HH24, MI, SS); any other unit raises the AssertionError naming it |
| HsqldbDialect.ConvertTimeUnitInjective | core/src/main/java/org/polypheny/db/sql/dialect/HsqldbSqlDialect.java:189-204 | distinct supported units get distinct tokens |
| HsqldbDialect.UnparseCallFloor | core/src/main/java/org/polypheny/db/sql/dialect/HsqldbSqlDialect.java:131-151 | exactly the two-operand FLOOR calls are rewritten, to TRUNC over the operand and the unit's HSQLDB token (datetime operand first); every other SqlCall, CASE included, goes to the generic dialect; unsupported units raise the token table's error |
| HsqldbDialect.FloorToYear | core/src/main/java/org/polypheny/db/sql/dialect/HsqldbSqlDialect.java:140-145 | FLOOR(x TO YEAR) becomes TRUNC over x and 'YYYY' |
| HsqldbDialect.UnparseOffsetFetch | core/src/main/java/org/polypheny/db/sql/dialect/HsqldbSqlDialect.java:154-157 | OFFSET/FETCH is always handed to the LIMIT form, with both parts unchanged |
| HsqldbDialect.RewrittenCaseUnparsedGenerically | core/src/main/java/org/polypheny/db/sql/dialect/HsqldbSqlDialect.java:131-151 | the CASE the single-value rewrite builds is a SqlCall, and `unparseCall` hands it to the generic dialect unchanged |
| HsqldbDialect.RewriteShape | core/src/main/java/org/polypheny/db/sql/dialect/HsqldbSqlDialect.java:160-186 | the rewrite succeeds iff its argument is a basic call with an operand; it builds CASE COUNT(operand) WHEN 0 THEN NULL WHEN 1 THEN MIN(operand) ELSE a scalar subquery over (VALUES 0) UNION ALL (VALUES 0) |
| HsqldbDialect.TwoRowSubqueryFails | core/src/main/java/org/polypheny/db/sql/dialect/HsqldbSqlDialect.java:164-181 | the ELSE subquery yields two rows, so evaluating it always fails |
| HsqldbDialect.EvalSingleValueCase | core/src/main/java/org/polypheny/db/sql/dialect/HsqldbSqlDialect.java:171-181 | the CASE gives NULL when its count is 0, the minimum when it is 1 and the cardinality error otherwise |
| HsqldbDialect.NonNullCountAll | core/src/main/java/org/polypheny/db/sql/dialect/HsqldbSqlDialect.java:173 | with no NULL operand, COUNT(operand) counts every row |
| HsqldbDialect.SingletonMin | core/src/main/java/org/polypheny/db/sql/dialect/HsqldbSqlDialect.java:179 | MIN over one row is that row's value |
| HsqldbDialect.RewriteAgreesWithoutNulls | core/src/main/java/org/polypheny/db/sql/dialect/HsqldbSqlDialect.java:160-186 | as written, the rewrite equals SINGLE_VALUE on groups whose operand is never NULL |
| HsqldbDialect.RewriteAsWrittenMissesNullRow | core/src/main/java/org/polypheny/db/sql/dialect/HsqldbSqlDialect.java:171-173 | as written, a group with rows NULL and 5 yields 5 where SINGLE_VALUE raises the more-than-one-row error |
| HsqldbDialect.CorrectedRewriteIsSingleValue | core/src/main/java/org/polypheny/db/sql/dialect/HsqldbSqlDialect.java:165-170 | with COUNT(*), as the source's own comment describes, the rewrite equals SINGLE_VALUE on every group |
| Linq4JFixer.GenerateCompoundPredicate | cottontail-adapter/src/main/java/org/polypheny/db/adapter/cottontail/util/Linq4JFixer.java:92-115 | the predicate carries the given operator; each side goes to the atomic slot iff it is atomic and to the compound slot otherwise; anything else fails the cast |
| Linq4JFixer.GenerateAtomicPredicate | cottontail-adapter/src/main/java/org/polypheny/db/adapter/cottontail/util/Linq4JFixer.java:118-132 | the predicate carries the attribute, negation flag and operator, with exactly the one given datum; a missing argument or wrong class fails |
| Linq4JFixer.GenerateWhere | cottontail-adapter/src/main/java/org/polypheny/db/adapter/cottontail/util/Linq4JFixer.java:135-145 | an atomic predicate goes to the atomic slot, a compound one to the compound slot; anything else raises "Not a proper filter expression!" |
| Linq4JFixer.Lower | cottontail-adapter/src/main/java/org/polypheny/db/adapter/cottontail/util/Linq4JFixer.java:92-132 | a test becomes an atomic predicate and a combination a compound one |
| Linq4JFixer.LowerRoundTrip | cottontail-adapter/src/main/java/org/polypheny/db/adapter/cottontail/util/Linq4JFixer.java:92-132 | every filter built by the predicate builders reads back as itself, so no slot is lost or swapped |
| Linq4JFixer.WhereRoundTrip | cottontail-adapter/src/main/java/org/polypheny/db/adapter/cottontail/util/Linq4JFixer.java:135-145 | the WHERE clause built for any filter succeeds and reads back as that filter |
| Linq4JFixer.GetDistance | cottontail-adapter/src/main/java/org/polypheny/db/adapter/cottontail/util/Linq4JFixer.java:194-209 | a null norm fails the switch; an unknown norm raises "Unknown norm: <norm>" |
| Linq4JFixer.DistanceNames | cottontail-adapter/src/main/java/org/polypheny/db/adapter/cottontail/util/Linq4JFixer.java:194-209 | exactly L1, L2, L2SQUARED, CHISQUARED and COSINE are accepted, and the lookup inverts each distance's name |
| Linq4JFixer.KnnFields | cottontail-adapter/src/main/java/org/polypheny/db/adapter/cottontail/util/Linq4JFixer.java:158-191 | the request names the column, uses the given k or 1000000 (never 2³¹−1), holds one query or weight vector when given and none when null, and fails on an unknown norm |
| Linq4JFixer.KnnRejects | cottontail-adapter/src/main/java/org/polypheny/db/adapter/cottontail/util/Linq4JFixer.java:164-188 | a null column, a column or k of the wrong class, or a null distance fails the request, with the error of the first failing step |

## Left out

- `core/src/main/java/org/polypheny/db/config/RuntimeConfig.java` is not part of this model. It is a settings registry with no translation logic.
- The `Linq4JFixer` accessors `getXData` / `getXVector` are one-line casts over gRPC getters. The payloads of `Data` and `Vector` are opaque integer sequences.
- REAL and DOUBLE results of the coercion matrix hold the exact value of the Java float or double. Every such value comes from a boolean, byte, short or int, so it is integral and within range. Byte, short and boolean casts and every DOUBLE cast are exact. The int→REAL cast rounds to a 24-bit significand, and `FloatOfInt` models that rounding. Float and double payloads are not modelled beyond these integral values.
- The planner trait assertions in the `MongoAggregate` constructor are not modelled, nor is `implementor.visitChild`. Both belong to the planner and the child operators.
- The group type is an input of `MongoAggregate.Create`. The planner's derivation of it from the grouping sets is not modelled.
- The Java `assert args.size() == 1` statements in `toMongo` are preconditions of `MongoAggregate.ToMongo`. They are not modelled as run-time failures.
- `MongoAggregate.Implementor.Add` drops the unused `op` argument of `implementor.add`.
- MongoAggregate.Implement, `MongoAggregate.Stages` and MongoAggregate.GroupThenOptionalProject describe `implement` with the corrected `$project` fix-up, not the source's. With several group columns the source looks output names up by input index, so on a group set such as {1, 2} it projects the wrong fields, and on {0, 5} with two outputs it throws IndexOutOfBounds after `$group` is appended. That behaviour is `MongoAggregate.ImplementAsWritten`, with `FixupsAsWritten` and `SourceFixupFieldsAsWritten`. `ImplementAgreesOnLeadingGroups` says when the two agree.
- MongoAggregate.GroupThenOptionalProject: its one-`$group`-then-optional-`$project` shape is proved of the corrected stages. As written, `implement` can instead end with only `$group` appended and an IndexOutOfBounds (`ImplementAsWrittenThrowsAfterGroup`).
- MongoAggregate.Create: the constructor's `indicator` flag is taken to be false. With `indicator` true the row type holds one indicator field per group column between the keys and the calls, and the call entries would be named from there. `WellFormed` encodes the flag's absence: there is one output name per group column and one per call.
- `MongoRules.quote` and `MongoRules.maybeQuote` are not defined by the node. They are the two functions of a `Quoting` parameter, so every MongoDB property holds whatever they return. `Util.toString` is `Braces`, which joins with `, ` between `{` and `}`. `mongoFieldNames` is replaced by the name sequences given as inputs.
- `super.getCastSpec`, `super.unparseCall`, `unparseFetchUsingLimit` and the default flag values are foreign. The model records that the hook defers (`Inherited`, `DefaultUnparse`, `FetchUsingLimit`) and not what those return.
- `PostgresqlDialect.MaxPrecision` takes the default type system's precision as a parameter.
- `SqlFloorFunction.unparseDatetimeFunction` and the `SqlWriter` output are not modelled. The model records the function name, the rewritten call and the datetime-first flag passed to them.
- `SqlAst.ReplaceTimeUnitOperand` is a stand-in for `SqlFloorFunction.replaceTimeUnitOperand`. It replaces the unit operand by a character-string literal and drops the parser position.
- The single-value rewrite is compared with SINGLE_VALUE under a small evaluator. In that evaluator a group is the sequence of its operand's per-row values, NULL or an integer.
- The `log.debug` call in `rewriteSingleValueExpr` is not modelled.
- The `TODO FINISH` gaps in `fromSmallint` and `fromInt` throw in the model just as in the source. No conversion the code lacks is added.

## Findings

| source | as written | input that shows it | evidently intended | confidence | as-written member | corrected member |
|---|---|---|---|---|---|---|
| mongodb-adapter/src/main/java/org/polypheny/db/adapter/mongodb/MongoAggregate.java:135-138 | with several group columns, each grouped fix-up indexes the output names by the column's input index (`outNames.get(group)`) | group set {1, 2} over inputs a, b, c with outputs b, c, cnt: fix-ups c←$_id.c, cnt←$_id.cnt, cnt←$cnt, so `b` is lost and `cnt` duplicated; group set {0, 5} with two outputs indexes past the end | the j-th grouped output `outNames[j]` is read from `$_id.<the key the $group stage wrote>` | high, not executed | MongoAggregate.FixupAsWrittenMisnamesFields | MongoAggregate.FixupReadsWhatGroupWrote |
| core/src/main/java/org/polypheny/db/sql/dialect/HsqldbSqlDialect.java:171-173 | the CASE tests COUNT(operand), which skips rows where the operand is NULL | a group whose operand is NULL on one row and 5 on another: the rewrite yields 5 instead of raising the more-than-one-row error | CASE COUNT(*), as the comment above the code says | medium, not executed | HsqldbDialect.RewriteAsWrittenMissesNullRow | HsqldbDialect.CorrectedRewriteIsSingleValue |
