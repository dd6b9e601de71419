/** The MongoDB aggregate compiler (MongoAggregate): eager validation at
    construction, `copy`, and `implement`, which emits one `$group` stage and,
    for a non-empty group set, a `$project` fix-up stage. */
module MongoAggregate {
  import opened Results

  // ---------------------------------------------------------------------
  // Rendering helpers (stand-ins for MongoRules and Util.toString).

  /** `MongoRules.quote` and `MongoRules.maybeQuote`, which the node calls but
      does not define: every property below holds whatever they return. */
  datatype Quoting = Quoting(quote: string -> string, maybeQuote: string -> string)

  function Join(xs: seq<string>, sep: string): string
  {
    if |xs| == 0 then "" else if |xs| == 1 then xs[0] else xs[0] + sep + Join(xs[1..], sep)
  }

  /** `Util.toString(list, "{", ", ", "}")`. */
  function Braces(xs: seq<string>): string
  {
    "{" + Join(xs, ", ") + "}"
  }

  /** One `name: expression` entry of a stage document. */
  datatype Field = Field(name: string, expr: string)

  function Render(f: Field): string
  {
    f.name + ": " + f.expr
  }

  function RenderAll(fs: seq<Field>): (r: seq<string>)
    ensures |r| == |fs| && forall i :: 0 <= i < |fs| ==> r[i] == Render(fs[i])
  {
    seq(|fs|, i requires 0 <= i < |fs| => Render(fs[i]))
  }

  lemma RenderAllAppend(fs: seq<Field>, f: Field)
    ensures RenderAll(fs + [f]) == RenderAll(fs) + [Render(f)]
  {
  }

  // ---------------------------------------------------------------------
  // The node and its validation.

  datatype AggFunction = COUNT | SUM | SUM0 | MIN | MAX | AVG | SINGLE_VALUE | OtherAggFunction(name: string)

  datatype AggregateCall = AggregateCall(aggregation: AggFunction, argList: seq<nat>, distinct: bool)

  datatype GroupType = SIMPLE | ROLLUP | CUBE | OTHER

  function GroupTypeName(t: GroupType): string
  {
    match t
    case SIMPLE => "SIMPLE"
    case ROLLUP => "ROLLUP"
    case CUBE => "CUBE"
    case OTHER => "OTHER"
  }

  /** An aggregate node that passed construction. */
  datatype MongoAggregate = MongoAggregate(groupSet: seq<nat>, groupType: GroupType, aggCalls: seq<AggregateCall>)

  datatype AggregateError =
    | InvalidRel(message: string)
    | AssertionError(message: string)
    | IndexOutOfBounds(index: int)

  const DistinctMessage := "distinct aggregation not supported"

  /** The constructor's checks: no DISTINCT call, then a SIMPLE group type. */
  function Create(groupSet: seq<nat>, groupType: GroupType, aggCalls: seq<AggregateCall>): (r: Result<MongoAggregate, AggregateError>)
    ensures r.Ok? <==> (forall i :: 0 <= i < |aggCalls| ==> !aggCalls[i].distinct) && groupType == SIMPLE
    ensures r.Ok? ==> r.value == MongoAggregate(groupSet, groupType, aggCalls)
    ensures r.Err? ==> r.error.InvalidRel?
    ensures (exists i :: 0 <= i < |aggCalls| && aggCalls[i].distinct) ==> r == Err(InvalidRel(DistinctMessage))
    ensures (forall i :: 0 <= i < |aggCalls| ==> !aggCalls[i].distinct) && groupType != SIMPLE ==>
              r == Err(InvalidRel("unsupported group type: " + GroupTypeName(groupType)))
  {
    if exists i :: 0 <= i < |aggCalls| && aggCalls[i].distinct then Err(InvalidRel(DistinctMessage))
    else if groupType != SIMPLE then Err(InvalidRel("unsupported group type: " + GroupTypeName(groupType)))
    else Ok(MongoAggregate(groupSet, groupType, aggCalls))
  }

  /** `Throwable.toString()` of an InvalidRelException: its class name, then
      its message. */
  function InvalidRelText(message: string): string
  {
    "org.polypheny.db.rel.InvalidRelException: " + message
  }

  /** `copy`: builds a new node; a rejection becomes an internal error whose
      message is the rejection's `toString()`. */
  function Copy(groupSet: seq<nat>, groupType: GroupType, aggCalls: seq<AggregateCall>): Result<MongoAggregate, AggregateError>
  {
    match Create(groupSet, groupType, aggCalls)
    case Ok(a) => Ok(a)
    case Err(e) => Err(AssertionError(InvalidRelText(e.message)))
  }

  /** `copy` succeeds exactly when construction does, with the same node, and
      never surfaces the rejection itself. */
  lemma CopyNeverInvalidRel(groupSet: seq<nat>, groupType: GroupType, aggCalls: seq<AggregateCall>)
    ensures Copy(groupSet, groupType, aggCalls).Ok? <==> Create(groupSet, groupType, aggCalls).Ok?
    ensures Copy(groupSet, groupType, aggCalls).Ok? ==> Copy(groupSet, groupType, aggCalls) == Create(groupSet, groupType, aggCalls)
    ensures Copy(groupSet, groupType, aggCalls).Err? ==>
              Copy(groupSet, groupType, aggCalls) == Err(AssertionError(InvalidRelText(Create(groupSet, groupType, aggCalls).error.message)))
  {
  }

  // ---------------------------------------------------------------------
  // What `implement` requires of the planner.

  predicate StrictlyIncreasing(s: seq<nat>)
  {
    forall i, j :: 0 <= i < j < |s| ==> s[i] < s[j]
  }

  /** The argument count each known aggregate function asserts. */
  predicate ArityOk(c: AggregateCall)
  {
    match c.aggregation
    case COUNT => |c.argList| <= 1
    case OtherAggFunction(_) => true
    case _ => |c.argList| == 1
  }

  /** The group set is an ascending set of input columns, every argument is an
      input column, and the output row has one field per group column and one
      per call. */
  predicate WellFormed(agg: MongoAggregate, inNames: seq<string>, outNames: seq<string>)
  {
    && StrictlyIncreasing(agg.groupSet)
    && (forall j :: 0 <= j < |agg.groupSet| ==> agg.groupSet[j] < |inNames|)
    && |outNames| == |agg.groupSet| + |agg.aggCalls|
    && (forall c :: 0 <= c < |agg.aggCalls| ==> ArityOk(agg.aggCalls[c]))
    && (forall c, a :: 0 <= c < |agg.aggCalls| && 0 <= a < |agg.aggCalls[c].argList| ==>
          agg.aggCalls[c].argList[a] < |inNames|)
  }

  // ---------------------------------------------------------------------
  // `toMongo`: the aggregate-function dispatch table.

  /** The accumulator text of one call. */
  function Accumulator(q: Quoting, aggregation: AggFunction, inNames: seq<string>, args: seq<nat>): Result<string, AggregateError>
    requires ArityOk(AggregateCall(aggregation, args, false))
    requires forall a :: 0 <= a < |args| ==> args[a] < |inNames|
  {
    match aggregation
    case COUNT =>
      if |args| == 0 then Ok("{$sum: 1}")
      else Ok("{$sum: {$cond: [ {$eq: [" + q.quote(inNames[args[0]]) + ", null]}, 0, 1]}}")
    case SUM => Ok("{$sum: " + q.maybeQuote("$" + inNames[args[0]]) + "}")
    case SUM0 => Ok("{$sum: " + q.maybeQuote("$" + inNames[args[0]]) + "}")
    case MIN => Ok("{$min: " + q.maybeQuote("$" + inNames[args[0]]) + "}")
    case MAX => Ok("{$max: " + q.maybeQuote("$" + inNames[args[0]]) + "}")
    case AVG => Ok("{$avg: " + q.maybeQuote("$" + inNames[args[0]]) + "}")
    case SINGLE_VALUE => Ok("{$sum:" + q.maybeQuote("$" + inNames[args[0]]) + "}")
    case OtherAggFunction(name) => Err(AssertionError("unknown aggregate " + name))
  }

  /** The input field a call records in the physical mapper. */
  function Mapped(aggregation: AggFunction, inNames: seq<string>, args: seq<nat>): seq<string>
    requires forall a :: 0 <= a < |args| ==> args[a] < |inNames|
  {
    if aggregation.OtherAggFunction? || |args| == 0 then [] else [inNames[args[0]]]
  }

  /** Reference table: the MongoDB accumulator operator of each function. */
  function OperatorOf(aggregation: AggFunction): Option<string>
  {
    match aggregation
    case COUNT => Some("$sum")
    case SUM => Some("$sum")
    case SUM0 => Some("$sum")
    case SINGLE_VALUE => Some("$sum")
    case MIN => Some("$min")
    case MAX => Some("$max")
    case AVG => Some("$avg")
    case OtherAggFunction(_) => None
  }

  /** The dispatch succeeds exactly for the functions in the table; any
      other function is an internal error. */
  lemma AccumulatorOkIffKnown(q: Quoting, aggregation: AggFunction, inNames: seq<string>, args: seq<nat>)
    requires ArityOk(AggregateCall(aggregation, args, false))
    requires forall a :: 0 <= a < |args| ==> args[a] < |inNames|
    ensures Accumulator(q, aggregation, inNames, args).Ok? <==> OperatorOf(aggregation).Some?
    ensures aggregation == COUNT && |args| == 0 ==> Accumulator(q, aggregation, inNames, args) == Ok("{$sum: 1}")
    ensures aggregation.OtherAggFunction? ==> Accumulator(q, aggregation, inNames, args).error.AssertionError?
  {
  }

  /** The accumulator the dispatch emits opens with its function's operator. */
  lemma AccumulatorFollowsTable(q: Quoting, aggregation: AggFunction, inNames: seq<string>, args: seq<nat>)
    requires ArityOk(AggregateCall(aggregation, args, false))
    requires forall a :: 0 <= a < |args| ==> args[a] < |inNames|
    requires OperatorOf(aggregation).Some?
    ensures Accumulator(q, aggregation, inNames, args).Ok?
    ensures var op := "{" + OperatorOf(aggregation).value;
            |op| <= |Accumulator(q, aggregation, inNames, args).value| &&
            Accumulator(q, aggregation, inNames, args).value[..|op|] == op
  {
    var acc := Accumulator(q, aggregation, inNames, args);
    var op := "{" + OperatorOf(aggregation).value;
    if aggregation == COUNT && |args| == 0 {
      assert op == "{$sum" == "{$sum: 1}"[..5];
    } else if aggregation == COUNT {
      var lead := "{$sum: {$cond: [ {$eq: [";
      assert op == "{$sum" == lead[..5];
      OpensWith(op, lead, q.quote(inNames[args[0]]), ", null]}, 0, 1]}}");
    } else {
      var lead := match aggregation
        case MIN => "{$min: "
        case MAX => "{$max: "
        case AVG => "{$avg: "
        case SINGLE_VALUE => "{$sum:"
        case _ => "{$sum: ";
      assert op == lead[..|op|];
      assert acc.value == lead + q.maybeQuote("$" + inNames[args[0]]) + "}";
      OpensWith(op, lead, q.maybeQuote("$" + inNames[args[0]]), "}");
    }
  }

  /** A text that opens with `p` still does after two more pieces. */
  lemma OpensWith(p: string, lead: string, x: string, y: string)
    requires |p| <= |lead| && lead[..|p|] == p
    ensures |p| <= |lead + x + y| && (lead + x + y)[..|p|] == p
  {
    assert (lead + x + y)[..|p|] == lead[..|p|];
  }

  // ---------------------------------------------------------------------
  // The stages `implement` emits.

  /** The `$group` key of the group set: a scalar for one column, otherwise an
      object with one `name: "$name"` entry per grouped column, ascending. */
  function KeyEntries(q: Quoting, groupSet: seq<nat>, inNames: seq<string>): (r: seq<string>)
    requires forall j :: 0 <= j < |groupSet| ==> groupSet[j] < |inNames|
    ensures |r| == |groupSet|
  {
    seq(|groupSet|, j requires 0 <= j < |groupSet| => Render(Field(inNames[groupSet[j]], q.quote("$" + inNames[groupSet[j]]))))
  }

  function GroupIdField(q: Quoting, groupSet: seq<nat>, inNames: seq<string>): Field
    requires forall j :: 0 <= j < |groupSet| ==> groupSet[j] < |inNames|
  {
    if |groupSet| == 1 then Field("_id", q.maybeQuote("$" + inNames[groupSet[0]]))
    else Field("_id", Braces(KeyEntries(q, groupSet, inNames)))
  }

  /** The entries of the first `n` calls, named from output position
      |groupSet| on, or the failure of the first unknown function. */
  function CallFields(q: Quoting, agg: MongoAggregate, inNames: seq<string>, outNames: seq<string>, n: nat): (r: Result<seq<Field>, AggregateError>)
    requires WellFormed(agg, inNames, outNames) && n <= |agg.aggCalls|
    ensures r.Ok? ==> |r.value| == n
  {
    if n == 0 then Ok([])
    else
      match CallFields(q, agg, inNames, outNames, n - 1)
      case Err(e) => Err(e)
      case Ok(fs) =>
        var c := agg.aggCalls[n - 1];
        match Accumulator(q, c.aggregation, inNames, c.argList)
        case Err(e) => Err(e)
        case Ok(acc) => Ok(fs + [Field(q.maybeQuote(outNames[|agg.groupSet| + n - 1]), acc)])
  }

  /** What the first `n` calls add to the physical mapper, up to the first
      unknown function. */
  function CallsMapped(q: Quoting, agg: MongoAggregate, inNames: seq<string>, outNames: seq<string>, n: nat): seq<string>
    requires WellFormed(agg, inNames, outNames) && n <= |agg.aggCalls|
  {
    if n == 0 then []
    else if CallFields(q, agg, inNames, outNames, n - 1).Err? then CallsMapped(q, agg, inNames, outNames, n - 1)
    else
      var c := agg.aggCalls[n - 1];
      CallsMapped(q, agg, inNames, outNames, n - 1) + Mapped(c.aggregation, inNames, c.argList)
  }

  /** One more call: its entry is appended, or its failure becomes the
      result, and its input field is recorded either way. */
  lemma CallFieldsStep(q: Quoting, agg: MongoAggregate, inNames: seq<string>, outNames: seq<string>, c: nat)
    requires WellFormed(agg, inNames, outNames) && c < |agg.aggCalls|
    requires CallFields(q, agg, inNames, outNames, c).Ok?
    ensures var call := agg.aggCalls[c];
            var acc := Accumulator(q, call.aggregation, inNames, call.argList);
            && (acc.Err? ==> CallFields(q, agg, inNames, outNames, c + 1) == Err(acc.error))
            && (acc.Ok? ==>
                  CallFields(q, agg, inNames, outNames, c + 1) ==
                  Ok(CallFields(q, agg, inNames, outNames, c).value + [Field(q.maybeQuote(outNames[|agg.groupSet| + c]), acc.value)]))
            && CallsMapped(q, agg, inNames, outNames, c + 1) ==
                 CallsMapped(q, agg, inNames, outNames, c) + Mapped(call.aggregation, inNames, call.argList)
  {
    assert |agg.groupSet| + (c + 1) - 1 == |agg.groupSet| + c;
  }

  /** The grouped input columns, in ascending order. */
  function GroupedNames(groupSet: seq<nat>, inNames: seq<string>): (r: seq<string>)
    requires forall j :: 0 <= j < |groupSet| ==> groupSet[j] < |inNames|
    ensures |r| == |groupSet|
  {
    seq(|groupSet|, j requires 0 <= j < |groupSet| => inNames[groupSet[j]])
  }

  /** The entries of the `$group` stage. */
  function GroupFields(q: Quoting, agg: MongoAggregate, inNames: seq<string>, outNames: seq<string>): Result<seq<Field>, AggregateError>
    requires WellFormed(agg, inNames, outNames)
  {
    match CallFields(q, agg, inNames, outNames, |agg.aggCalls|)
    case Err(e) => Err(e)
    case Ok(fs) => Ok([GroupIdField(q, agg.groupSet, inNames)] + fs)
  }

  /** The fix-up entries. With one group column: one entry per output field,
      the first read from `$_id`. Otherwise: `_id: 0`, then each grouped field
      from the key the `$group` stage wrote, then each call output from
      itself (corrected form, see SourceFixupFieldsAsWritten). */
  function FixupFields(q: Quoting, agg: MongoAggregate, inNames: seq<string>, outNames: seq<string>): seq<Field>
    requires WellFormed(agg, inNames, outNames)
  {
    var gs := agg.groupSet;
    if |gs| == 1 then
      seq(|outNames|, index requires 0 <= index < |outNames| =>
        Field(q.maybeQuote(outNames[index]), q.maybeQuote("$" + (if index == 0 then "_id" else outNames[index]))))
    else
      [Field("_id", "0")]
      + seq(|gs|, j requires 0 <= j < |gs| => Field(q.maybeQuote(outNames[j]), q.maybeQuote("$_id." + inNames[gs[j]])))
      + CallFixups(q, agg, outNames)
  }

  /** The fix-up of the call outputs for several group columns: each read
      from the entry of the same name. */
  function CallFixups(q: Quoting, agg: MongoAggregate, outNames: seq<string>): (r: seq<Field>)
    requires |outNames| == |agg.groupSet| + |agg.aggCalls|
    ensures |r| == |agg.aggCalls|
  {
    var gs := agg.groupSet;
    seq(|agg.aggCalls|, c requires 0 <= c < |agg.aggCalls| =>
      Field(q.maybeQuote(outNames[|gs| + c]), q.maybeQuote("$" + outNames[|gs| + c])))
  }

  function GroupStage(fields: seq<Field>): string
  {
    "{$group: " + Braces(RenderAll(fields)) + "}"
  }

  function ProjectStage(fields: seq<Field>): string
  {
    "{$project: " + Braces(RenderAll(fields)) + "}"
  }

  /** All stages `implement` appends with the corrected fix-up, or the
      failure it raises. */
  function Stages(q: Quoting, agg: MongoAggregate, inNames: seq<string>, outNames: seq<string>): Result<seq<string>, AggregateError>
    requires WellFormed(agg, inNames, outNames)
  {
    match GroupFields(q, agg, inNames, outNames)
    case Err(e) => Err(e)
    case Ok(fs) =>
      Ok([GroupStage(fs)] + if |agg.groupSet| == 0 then [] else [ProjectStage(FixupFields(q, agg, inNames, outNames))])
  }

  /** All the physical mapper records, including on failure. */
  function AllMapped(q: Quoting, agg: MongoAggregate, inNames: seq<string>, outNames: seq<string>): seq<string>
    requires WellFormed(agg, inNames, outNames)
  {
    GroupedNames(agg.groupSet, inNames) + CallsMapped(q, agg, inNames, outNames, |agg.aggCalls|)
  }

  // ---------------------------------------------------------------------
  // Properties of the emitted stages.

  predicate KnownFunction(c: AggregateCall)
  {
    OperatorOf(c.aggregation).Some?
  }

  /** The call entries are named from output position |groupSet| on, in call
      order, each holding its call's accumulator, and they exist exactly when
      every call names a known function. */
  lemma {:induction false} CallFieldsLayout(q: Quoting, agg: MongoAggregate, inNames: seq<string>, outNames: seq<string>, n: nat)
    requires WellFormed(agg, inNames, outNames) && n <= |agg.aggCalls|
    ensures var r := CallFields(q, agg, inNames, outNames, n);
            && (r.Ok? <==> forall c :: 0 <= c < n ==> KnownFunction(agg.aggCalls[c]))
            && (r.Ok? ==> forall c :: 0 <= c < n ==>
                  r.value[c].name == q.maybeQuote(outNames[|agg.groupSet| + c]) &&
                  Accumulator(q, agg.aggCalls[c].aggregation, inNames, agg.aggCalls[c].argList) == Ok(r.value[c].expr))
  {
    if n > 0 {
      CallFieldsLayout(q, agg, inNames, outNames, n - 1);
      var r := CallFields(q, agg, inNames, outNames, n);
      var prev := CallFields(q, agg, inNames, outNames, n - 1);
      if prev.Err? {
        assert r == prev;
      } else {
        var c := agg.aggCalls[n - 1];
        var acc := Accumulator(q, c.aggregation, inNames, c.argList);
        CallFieldsStep(q, agg, inNames, outNames, n - 1);
        AccumulatorOkIffKnown(q, c.aggregation, inNames, c.argList);
        if acc.Ok? {
          LayoutStep(q, agg, inNames, outNames, n, prev.value, acc.value);
        }
      }
    }
  }

  /** The layout of `n - 1` entries carries over to `n` when the last call's
      accumulator is appended. */
  lemma LayoutStep(q: Quoting, agg: MongoAggregate, inNames: seq<string>, outNames: seq<string>, n: nat, prev: seq<Field>, acc: string)
    requires WellFormed(agg, inNames, outNames) && 0 < n <= |agg.aggCalls| && |prev| == n - 1
    requires forall c :: 0 <= c < n - 1 ==>
               prev[c].name == q.maybeQuote(outNames[|agg.groupSet| + c]) &&
               Accumulator(q, agg.aggCalls[c].aggregation, inNames, agg.aggCalls[c].argList) == Ok(prev[c].expr)
    requires Accumulator(q, agg.aggCalls[n - 1].aggregation, inNames, agg.aggCalls[n - 1].argList) == Ok(acc)
    ensures var r := prev + [Field(q.maybeQuote(outNames[|agg.groupSet| + n - 1]), acc)];
            forall c :: 0 <= c < n ==>
              r[c].name == q.maybeQuote(outNames[|agg.groupSet| + c]) &&
              Accumulator(q, agg.aggCalls[c].aggregation, inNames, agg.aggCalls[c].argList) == Ok(r[c].expr)
  {
    var r := prev + [Field(q.maybeQuote(outNames[|agg.groupSet| + n - 1]), acc)];
    forall c | 0 <= c < n
      ensures r[c].name == q.maybeQuote(outNames[|agg.groupSet| + c])
      ensures Accumulator(q, agg.aggCalls[c].aggregation, inNames, agg.aggCalls[c].argList) == Ok(r[c].expr)
    {
      if c < n - 1 {
        assert r[c] == prev[c];
      } else {
        assert |agg.groupSet| + c == |agg.groupSet| + n - 1;
      }
    }
  }

  /** A failure is the first unknown function's. */
  lemma {:induction false} CallFieldsFailure(q: Quoting, agg: MongoAggregate, inNames: seq<string>, outNames: seq<string>, n: nat)
    requires WellFormed(agg, inNames, outNames) && n <= |agg.aggCalls|
    requires CallFields(q, agg, inNames, outNames, n).Err?
    ensures exists c :: 0 <= c < n && agg.aggCalls[c].aggregation.OtherAggFunction? &&
              (forall d :: 0 <= d < c ==> KnownFunction(agg.aggCalls[d])) &&
              CallFields(q, agg, inNames, outNames, n).error ==
                AssertionError("unknown aggregate " + agg.aggCalls[c].aggregation.name)
  {
    var prev := CallFields(q, agg, inNames, outNames, n - 1);
    if prev.Err? {
      CallFieldsFailure(q, agg, inNames, outNames, n - 1);
      assert CallFields(q, agg, inNames, outNames, n) == prev;
    } else {
      CallFieldsLayout(q, agg, inNames, outNames, n - 1);
      var c := agg.aggCalls[n - 1];
      CallFieldsStep(q, agg, inNames, outNames, n - 1);
      AccumulatorOkIffKnown(q, c.aggregation, inNames, c.argList);
      assert c.aggregation.OtherAggFunction?;
      assert CallFields(q, agg, inNames, outNames, n).error == AssertionError("unknown aggregate " + c.aggregation.name);
    }
  }

  /** `implement` emits exactly one `$group` stage, followed by a `$project`
      stage if and only if the group set is non-empty; it fails exactly when a
      call names an unknown function. */
  lemma GroupThenOptionalProject(q: Quoting, agg: MongoAggregate, inNames: seq<string>, outNames: seq<string>)
    requires WellFormed(agg, inNames, outNames)
    ensures Stages(q, agg, inNames, outNames).Ok? <==> forall c :: 0 <= c < |agg.aggCalls| ==> KnownFunction(agg.aggCalls[c])
    ensures Stages(q, agg, inNames, outNames).Ok? ==>
              var st := Stages(q, agg, inNames, outNames).value;
              && |st| == (if |agg.groupSet| == 0 then 1 else 2)
              && |st[0]| >= 9 && st[0][..9] == "{$group: "
              && (|st| == 2 ==> |st[1]| >= 11 && st[1][..11] == "{$project: ")
  {
    CallFieldsLayout(q, agg, inNames, outNames, |agg.aggCalls|);
    var r := Stages(q, agg, inNames, outNames);
    if r.Ok? {
      var fs := GroupFields(q, agg, inNames, outNames).value;
      var group := GroupStage(fs);
      var body := Braces(RenderAll(fs)) + "}";
      assert group == "{$group: " + body;
      assert group[..9] == "{$group: ";
      if |agg.groupSet| != 0 {
        var project := ProjectStage(FixupFields(q, agg, inNames, outNames));
        var pbody := Braces(RenderAll(FixupFields(q, agg, inNames, outNames))) + "}";
        assert project == "{$project: " + pbody;
        assert project[..11] == "{$project: ";
        assert r.value == [group, project];
      } else {
        assert r.value == [group];
      }
    }
  }

  /** The `$group` stage opens with its `_id` key: a scalar for one group
      column, an object of one entry per grouped column in ascending order
      otherwise, `{}` for none. */
  lemma GroupStageKey(q: Quoting, agg: MongoAggregate, inNames: seq<string>, outNames: seq<string>)
    requires WellFormed(agg, inNames, outNames)
    requires GroupFields(q, agg, inNames, outNames).Ok?
    ensures var fs := GroupFields(q, agg, inNames, outNames).value;
            && |fs| == 1 + |agg.aggCalls|
            && fs[0].name == "_id"
            && (|agg.groupSet| == 1 ==> fs[0].expr == q.maybeQuote("$" + inNames[agg.groupSet[0]]))
            && (|agg.groupSet| == 0 ==> fs[0].expr == "{}")
            && (|agg.groupSet| > 1 ==> fs[0].expr == Braces(KeyEntries(q, agg.groupSet, inNames)))
  {
    if |agg.groupSet| == 0 {
      assert KeyEntries(q, agg.groupSet, inNames) == [];
      assert Braces([]) == "{" + "" + "}" == "{}";
    }
  }

  /** After the key, the `$group` stage holds one entry per call: call `c` is
      named by output position |groupSet| + c and holds its accumulator. */
  lemma GroupStageCall(q: Quoting, agg: MongoAggregate, inNames: seq<string>, outNames: seq<string>, c: nat)
    requires WellFormed(agg, inNames, outNames) && c < |agg.aggCalls|
    requires GroupFields(q, agg, inNames, outNames).Ok?
    ensures var fs := GroupFields(q, agg, inNames, outNames).value;
            && 1 + c < |fs|
            && fs[1 + c].name == q.maybeQuote(outNames[|agg.groupSet| + c])
            && Accumulator(q, agg.aggCalls[c].aggregation, inNames, agg.aggCalls[c].argList) == Ok(fs[1 + c].expr)
  {
    CallFieldsLayout(q, agg, inNames, outNames, |agg.aggCalls|);
    var cf := CallFields(q, agg, inNames, outNames, |agg.aggCalls|).value;
    var fs := GroupFields(q, agg, inNames, outNames).value;
    assert fs == [GroupIdField(q, agg.groupSet, inNames)] + cf;
    assert fs[1 + c] == cf[c];
  }

  /** The fix-up projects every output field once, in order, and reads each
      from what the `$group` stage wrote: the scalar key for the first field of
      a one-column group, the key object's entry for a grouped field
      otherwise, and the call's own entry for a call output. */
  lemma FixupReadsWhatGroupWrote(q: Quoting, agg: MongoAggregate, inNames: seq<string>, outNames: seq<string>)
    requires WellFormed(agg, inNames, outNames) && |agg.groupSet| > 0
    ensures var fx := FixupFields(q, agg, inNames, outNames);
            var skip := if |agg.groupSet| == 1 then 0 else 1;
            && |fx| == skip + |outNames|
            && (skip == 1 ==> fx[0] == Field("_id", "0"))
            && (forall k :: 0 <= k < |outNames| ==> fx[skip + k].name == q.maybeQuote(outNames[k]))
            && (skip == 0 ==> fx[0].expr == q.maybeQuote("$_id"))
            && (skip == 1 ==> forall j :: 0 <= j < |agg.groupSet| ==>
                  fx[1 + j].expr == q.maybeQuote("$_id." + GroupedNames(agg.groupSet, inNames)[j]) &&
                  KeyEntries(q, agg.groupSet, inNames)[j] ==
                    Render(Field(GroupedNames(agg.groupSet, inNames)[j], q.quote("$" + GroupedNames(agg.groupSet, inNames)[j]))))
            && (forall k :: |agg.groupSet| <= k < |outNames| ==> fx[skip + k].expr == q.maybeQuote("$" + outNames[k]))
  {
    var gs := agg.groupSet;
    var fx := FixupFields(q, agg, inNames, outNames);
    var skip := if |gs| == 1 then 0 else 1;
    if |gs| > 1 {
      FixupLength(q, agg, inNames, outNames);
    } else {
      FixupEntry(q, agg, inNames, outNames, 0);
    }
    forall k | 0 <= k < |outNames|
      ensures fx[skip + k].name == q.maybeQuote(outNames[k])
      ensures |gs| <= k ==> fx[skip + k].expr == q.maybeQuote("$" + outNames[k])
      ensures skip == 1 && k < |gs| ==> fx[1 + k].expr == q.maybeQuote("$_id." + GroupedNames(gs, inNames)[k])
    {
      FixupEntry(q, agg, inNames, outNames, k);
    }
  }

  /** With several group columns the fix-up opens with `_id: 0`. */
  lemma FixupLength(q: Quoting, agg: MongoAggregate, inNames: seq<string>, outNames: seq<string>)
    requires WellFormed(agg, inNames, outNames) && |agg.groupSet| > 1
    ensures var fx := FixupFields(q, agg, inNames, outNames);
            |fx| == 1 + |outNames| && fx[0] == Field("_id", "0")
  {
  }

  /** Output field `k` of the fix-up: named after itself, read from the
      scalar key, the key object's entry or its own entry. */
  lemma FixupEntry(q: Quoting, agg: MongoAggregate, inNames: seq<string>, outNames: seq<string>, k: nat)
    requires WellFormed(agg, inNames, outNames) && |agg.groupSet| > 0 && k < |outNames|
    ensures var fx := FixupFields(q, agg, inNames, outNames);
            var gs := agg.groupSet;
            var skip := if |gs| == 1 then 0 else 1;
            && skip + k < |fx|
            && fx[skip + k].name == q.maybeQuote(outNames[k])
            && (|gs| == 1 && k == 0 ==> fx[k].expr == q.maybeQuote("$_id"))
            && (|gs| > 1 && k < |gs| ==> fx[1 + k].expr == q.maybeQuote("$_id." + inNames[gs[k]]))
            && (|gs| <= k ==> fx[skip + k].expr == q.maybeQuote("$" + outNames[k]))
  {
    var gs := agg.groupSet;
    var fx := FixupFields(q, agg, inNames, outNames);
    if |gs| == 1 {
      assert "$" + "_id" == "$_id";
    } else {
      var keys := seq(|gs|, j requires 0 <= j < |gs| => Field(q.maybeQuote(outNames[j]), q.maybeQuote("$_id." + inNames[gs[j]])));
      var calls := CallFixups(q, agg, outNames);
      assert fx == [Field("_id", "0")] + keys + calls;
      if k < |gs| {
        assert fx[1 + k] == keys[k];
      } else {
        assert fx[1 + k] == calls[k - |gs|];
      }
    }
  }

  /** The fix-up of the grouped fields for several group columns as the
      source writes it: the output name is looked up by the group column's
      input index rather than by its position. */
  function GroupFixupsAsWritten(q: Quoting, gs: seq<nat>, outNames: seq<string>): Result<seq<Field>, AggregateError>
  {
    if gs == [] then Ok([])
    else if gs[0] >= |outNames| then Err(IndexOutOfBounds(gs[0]))
    else
      match GroupFixupsAsWritten(q, gs[1..], outNames)
      case Err(e) => Err(e)
      case Ok(rest) => Ok([Field(q.maybeQuote(outNames[gs[0]]), q.maybeQuote("$_id." + outNames[gs[0]]))] + rest)
  }

  /** The whole fix-up for several group columns, as written. */
  function SourceFixupFieldsAsWritten(q: Quoting, agg: MongoAggregate, inNames: seq<string>, outNames: seq<string>): Result<seq<Field>, AggregateError>
    requires WellFormed(agg, inNames, outNames) && |agg.groupSet| != 1
  {
    var gs := agg.groupSet;
    match GroupFixupsAsWritten(q, gs, outNames)
    case Err(e) => Err(e)
    case Ok(gf) =>
      Ok([Field("_id", "0")] + gf + CallFixups(q, agg, outNames))
  }

  /** The fix-up `implement` builds as written: for one group column the
      source and the corrected form agree; otherwise the as-written layout. */
  function FixupFieldsAsWritten(q: Quoting, agg: MongoAggregate, inNames: seq<string>, outNames: seq<string>): Result<seq<Field>, AggregateError>
    requires WellFormed(agg, inNames, outNames)
  {
    if |agg.groupSet| == 1 then Ok(FixupFields(q, agg, inNames, outNames))
    else SourceFixupFieldsAsWritten(q, agg, inNames, outNames)
  }

  /** As written, the grouped fix-ups exist iff every group column's input
      index is also an output position; entry j then reads output name
      `outNames[gs[j]]`, and otherwise the first column past the output
      names is the failure. */
  lemma {:induction false} GroupFixupsAsWrittenShape(q: Quoting, gs: seq<nat>, outNames: seq<string>)
    ensures GroupFixupsAsWritten(q, gs, outNames).Ok? <==> forall j :: 0 <= j < |gs| ==> gs[j] < |outNames|
    ensures GroupFixupsAsWritten(q, gs, outNames).Ok? ==>
              var v := GroupFixupsAsWritten(q, gs, outNames).value;
              |v| == |gs| &&
              forall j :: 0 <= j < |gs| ==> v[j] == Field(q.maybeQuote(outNames[gs[j]]), q.maybeQuote("$_id." + outNames[gs[j]]))
    ensures GroupFixupsAsWritten(q, gs, outNames).Err? ==>
              exists j :: 0 <= j < |gs| && gs[j] >= |outNames| && (forall i :: 0 <= i < j ==> gs[i] < |outNames|) &&
                GroupFixupsAsWritten(q, gs, outNames) == Err(IndexOutOfBounds(gs[j]))
  {
    if gs != [] {
      GroupFixupsAsWrittenShape(q, gs[1..], outNames);
      var r := GroupFixupsAsWritten(q, gs, outNames);
      var rest := GroupFixupsAsWritten(q, gs[1..], outNames);
      if gs[0] >= |outNames| {
        assert r == Err(IndexOutOfBounds(gs[0]));
      } else if rest.Err? {
        var j :| 0 <= j < |gs[1..]| && gs[1..][j] >= |outNames| && (forall i :: 0 <= i < j ==> gs[1..][i] < |outNames|) &&
                 rest == Err(IndexOutOfBounds(gs[1..][j]));
        assert gs[1 + j] >= |outNames|;
        assert forall i :: 0 <= i < 1 + j ==> gs[i] < |outNames| by {
          forall i | 0 <= i < 1 + j ensures gs[i] < |outNames| {
            if i > 0 { assert gs[i] == gs[1..][i - 1]; }
          }
        }
        assert r == Err(IndexOutOfBounds(gs[1 + j]));
      } else {
        forall j | 0 <= j < |gs| ensures gs[j] < |outNames| {
          if j > 0 { assert gs[j] == gs[1..][j - 1]; }
        }
        var f := Field(q.maybeQuote(outNames[gs[0]]), q.maybeQuote("$_id." + outNames[gs[0]]));
        assert r.value == [f] + rest.value;
        forall j | 0 <= j < |gs|
          ensures r.value[j] == Field(q.maybeQuote(outNames[gs[j]]), q.maybeQuote("$_id." + outNames[gs[j]]))
        {
          if j > 0 { assert r.value[j] == rest.value[j - 1] && gs[j] == gs[1..][j - 1]; }
        }
      }
    }
  }

  /** When the group set is a leading run of input columns 0, 1, ... whose
      output names are their input names, the fix-up as written is the
      corrected one. */
  lemma AsWrittenAgreesOnLeadingGroups(q: Quoting, agg: MongoAggregate, inNames: seq<string>, outNames: seq<string>)
    requires WellFormed(agg, inNames, outNames)
    requires forall j :: 0 <= j < |agg.groupSet| ==> agg.groupSet[j] == j && outNames[j] == inNames[j]
    ensures FixupFieldsAsWritten(q, agg, inNames, outNames) == Ok(FixupFields(q, agg, inNames, outNames))
  {
    var gs := agg.groupSet;
    if |gs| != 1 {
      GroupFixupsAsWrittenShape(q, gs, outNames);
      var keys := seq(|gs|, j requires 0 <= j < |gs| => Field(q.maybeQuote(outNames[j]), q.maybeQuote("$_id." + inNames[gs[j]])));
      var gf := GroupFixupsAsWritten(q, gs, outNames).value;
      assert gf == keys;
    }
  }

  /** Grouping on input columns 1 and 2 with a COUNT(*), output fields b, c,
      cnt: the fix-up as written projects "c" and then "cnt" twice (once from
      a key the `$group` stage never wrote) and loses "b". */
  lemma FixupAsWrittenMisnamesFields(q: Quoting)
    ensures var agg := MongoAggregate([1, 2], SIMPLE, [AggregateCall(COUNT, [], false)]);
            var inNames := ["a", "b", "c"];
            var outNames := ["b", "c", "cnt"];
            && WellFormed(agg, inNames, outNames)
            && SourceFixupFieldsAsWritten(q, agg, inNames, outNames) ==
                 Ok([Field("_id", "0"),
                     Field(q.maybeQuote("c"), q.maybeQuote("$_id.c")),
                     Field(q.maybeQuote("cnt"), q.maybeQuote("$_id.cnt")),
                     Field(q.maybeQuote("cnt"), q.maybeQuote("$cnt"))])
  {
    var gs: seq<nat> := [1, 2];
    var agg := MongoAggregate(gs, SIMPLE, [AggregateCall(COUNT, [], false)]);
    var inNames := ["a", "b", "c"];
    var outNames := ["b", "c", "cnt"];
    assert WellFormed(agg, inNames, outNames);
    var c := Field(q.maybeQuote("c"), q.maybeQuote("$_id.c"));
    var cnt := Field(q.maybeQuote("cnt"), q.maybeQuote("$_id.cnt"));
    assert "$_id." + "c" == "$_id.c" && "$_id." + "cnt" == "$_id.cnt" && "$" + "cnt" == "$cnt";
    var last: seq<nat> := [2];
    assert gs[1..] == last && last[1..] == [];
    assert gs[0] == 1 && outNames[1] == "c" && last[0] == 2 && outNames[2] == "cnt";
    assert GroupFixupsAsWritten(q, [], outNames) == Ok([]);
    assert GroupFixupsAsWritten(q, last, outNames) == Ok([cnt] + []);
    assert [cnt] + [] == [cnt];
    assert GroupFixupsAsWritten(q, gs, outNames) == Ok([c] + [cnt]);
    var calls := CallFixups(q, agg, outNames);
    assert calls == [Field(q.maybeQuote("cnt"), q.maybeQuote("$cnt"))];
    assert SourceFixupFieldsAsWritten(q, agg, inNames, outNames) == Ok([Field("_id", "0")] + ([c] + [cnt]) + calls);
    assert [Field("_id", "0")] + ([c] + [cnt]) + calls == [Field("_id", "0"), c, cnt, Field(q.maybeQuote("cnt"), q.maybeQuote("$cnt"))];
  }

  /** On the same node the corrected fix-up projects b, c and cnt, each from
      what the `$group` stage wrote. */
  lemma FixupCorrectedOnSameNode(q: Quoting)
    ensures var agg := MongoAggregate([1, 2], SIMPLE, [AggregateCall(COUNT, [], false)]);
            var inNames := ["a", "b", "c"];
            var outNames := ["b", "c", "cnt"];
            && WellFormed(agg, inNames, outNames)
            && FixupFields(q, agg, inNames, outNames) ==
                 [Field("_id", "0"),
                  Field(q.maybeQuote("b"), q.maybeQuote("$_id.b")),
                  Field(q.maybeQuote("c"), q.maybeQuote("$_id.c")),
                  Field(q.maybeQuote("cnt"), q.maybeQuote("$cnt"))]
  {
    var gs: seq<nat> := [1, 2];
    var agg := MongoAggregate(gs, SIMPLE, [AggregateCall(COUNT, [], false)]);
    var inNames := ["a", "b", "c"];
    var outNames := ["b", "c", "cnt"];
    assert WellFormed(agg, inNames, outNames);
    assert "$_id." + "b" == "$_id.b" && "$_id." + "c" == "$_id.c" && "$" + "cnt" == "$cnt";
    var calls := CallFixups(q, agg, outNames);
    assert calls == [Field(q.maybeQuote("cnt"), q.maybeQuote("$cnt"))];
    var keys := seq(2, j requires 0 <= j < 2 => Field(q.maybeQuote(outNames[j]), q.maybeQuote("$_id." + inNames[gs[j]])));
    assert keys == [Field(q.maybeQuote("b"), q.maybeQuote("$_id.b")), Field(q.maybeQuote("c"), q.maybeQuote("$_id.c"))];
    assert FixupFields(q, agg, inNames, outNames) == [Field("_id", "0")] + keys + calls;
  }

  /** Grouping on input columns 0 and 5 with no call: the fix-up as written
      reads output position 5 of a two-field row and fails. */
  lemma FixupAsWrittenOutOfBounds(q: Quoting)
    ensures var agg := MongoAggregate([0, 5], SIMPLE, []);
            var inNames := ["a", "b", "c", "d", "e", "f"];
            var outNames := ["a", "f"];
            && WellFormed(agg, inNames, outNames)
            && SourceFixupFieldsAsWritten(q, agg, inNames, outNames) == Err(IndexOutOfBounds(5))
  {
    var outNames := ["a", "f"];
    assert [0, 5][1..] == [5];
    assert GroupFixupsAsWritten(q, [5], outNames) == Err(IndexOutOfBounds(5));
  }

  // ---------------------------------------------------------------------
  // The implementor and `implement`.

  /** The state `implement` appends to: the pipeline stages and the physical
      field mapper. */
  class Implementor {
    var stages: seq<string>
    var physicalMapper: seq<string>

    constructor ()
      ensures stages == [] && physicalMapper == []
    {
      stages := [];
      physicalMapper := [];
    }

    /** `implementor.add(null, stage)`. */
    method Add(stage: string)
      modifies this
      ensures stages == old(stages) + [stage] && physicalMapper == old(physicalMapper)
    {
      stages := stages + [stage];
    }

    /** `implementor.physicalMapper.add(name)`. */
    method MapField(name: string)
      modifies this
      ensures physicalMapper == old(physicalMapper) + [name] && stages == old(stages)
    {
      physicalMapper := physicalMapper + [name];
    }
  }

  /** `toMongo`: the accumulator of one call, recording its input field. */
  method ToMongo(q: Quoting, aggregation: AggFunction, inNames: seq<string>, args: seq<nat>, implementor: Implementor)
    returns (r: Result<string, AggregateError>)
    requires ArityOk(AggregateCall(aggregation, args, false))
    requires forall a :: 0 <= a < |args| ==> args[a] < |inNames|
    modifies implementor
    ensures r == Accumulator(q, aggregation, inNames, args)
    ensures implementor.physicalMapper == old(implementor.physicalMapper) + Mapped(aggregation, inNames, args)
    ensures implementor.stages == old(implementor.stages)
  {
    r := Accumulator(q, aggregation, inNames, args);
    if r.Ok? && |args| > 0 {
      implementor.MapField(inNames[args[0]]);
    }
  }

  /** Once a call fails, every longer prefix fails with the same error and
      maps nothing more. */
  lemma {:induction false} FailurePersists(q: Quoting, agg: MongoAggregate, inNames: seq<string>, outNames: seq<string>, n: nat, m: nat)
    requires WellFormed(agg, inNames, outNames) && n <= m <= |agg.aggCalls|
    requires CallFields(q, agg, inNames, outNames, n).Err?
    ensures CallFields(q, agg, inNames, outNames, m) == CallFields(q, agg, inNames, outNames, n)
    ensures CallsMapped(q, agg, inNames, outNames, m) == CallsMapped(q, agg, inNames, outNames, n)
    decreases m - n
  {
    if n < m {
      FailurePersists(q, agg, inNames, outNames, n + 1, m);
    }
  }

  /** The group-key part of `implement`: the `_id` entry, recording every
      grouped input field in ascending order. */
  method GroupKey(q: Quoting, gs: seq<nat>, inNames: seq<string>, implementor: Implementor) returns (idEntry: string)
    requires forall j :: 0 <= j < |gs| ==> gs[j] < |inNames|
    modifies implementor
    ensures idEntry == Render(GroupIdField(q, gs, inNames))
    ensures implementor.physicalMapper == old(implementor.physicalMapper) + GroupedNames(gs, inNames)
    ensures implementor.stages == old(implementor.stages)
  {
    if |gs| == 1 {
      var inName := inNames[gs[0]];
      idEntry := Render(Field("_id", q.maybeQuote("$" + inName)));
      implementor.MapField(inName);
      return;
    }
    var keys: seq<string> := [];
    var k := 0;
    while k < |gs|
      invariant 0 <= k <= |gs|
      invariant keys == KeyEntries(q, gs, inNames)[..k]
      invariant implementor.physicalMapper == old(implementor.physicalMapper) + GroupedNames(gs, inNames)[..k]
      invariant implementor.stages == old(implementor.stages)
    {
      var group := gs[k];
      var inName := inNames[group];
      keys := keys + [Render(Field(inName, q.quote("$" + inName)))];
      implementor.MapField(inName);
      assert GroupedNames(gs, inNames)[..k + 1] == GroupedNames(gs, inNames)[..k] + [inName];
      k := k + 1;
    }
    assert keys == KeyEntries(q, gs, inNames);
    assert GroupedNames(gs, inNames)[..|gs|] == GroupedNames(gs, inNames);
    idEntry := Render(Field("_id", Braces(keys)));
  }

  /** A call the dispatch accepts extends the entries of the calls before it. */
  lemma EntryAccepted(q: Quoting, agg: MongoAggregate, inNames: seq<string>, outNames: seq<string>, c: nat, fields: seq<Field>, acc: string)
    requires WellFormed(agg, inNames, outNames) && c < |agg.aggCalls|
    requires CallFields(q, agg, inNames, outNames, c) == Ok(fields)
    requires Accumulator(q, agg.aggCalls[c].aggregation, inNames, agg.aggCalls[c].argList) == Ok(acc)
    ensures CallFields(q, agg, inNames, outNames, c + 1) == Ok(fields + [Field(q.maybeQuote(outNames[|agg.groupSet| + c]), acc)])
    ensures CallsMapped(q, agg, inNames, outNames, c + 1) ==
              CallsMapped(q, agg, inNames, outNames, c) + Mapped(agg.aggCalls[c].aggregation, inNames, agg.aggCalls[c].argList)
  {
    assert |agg.groupSet| + (c + 1) - 1 == |agg.groupSet| + c;
  }

  /** A call the dispatch rejects is the failure of the whole node, and the
      mapper grows no further. */
  lemma EntryRejected(q: Quoting, agg: MongoAggregate, inNames: seq<string>, outNames: seq<string>, c: nat, e: AggregateError)
    requires WellFormed(agg, inNames, outNames) && c < |agg.aggCalls|
    requires CallFields(q, agg, inNames, outNames, c).Ok?
    requires Accumulator(q, agg.aggCalls[c].aggregation, inNames, agg.aggCalls[c].argList) == Err(e)
    ensures CallFields(q, agg, inNames, outNames, |agg.aggCalls|) == Err(e)
    ensures CallsMapped(q, agg, inNames, outNames, |agg.aggCalls|) ==
              CallsMapped(q, agg, inNames, outNames, c) + Mapped(agg.aggCalls[c].aggregation, inNames, agg.aggCalls[c].argList)
  {
    assert CallFields(q, agg, inNames, outNames, c + 1) == Err(e);
    FailurePersists(q, agg, inNames, outNames, c + 1, |agg.aggCalls|);
  }

  /** One aggregate call of `implement`: its entry, named by its output
      position, or the failure that aborts the node. */
  method CallEntry(q: Quoting, agg: MongoAggregate, inNames: seq<string>, outNames: seq<string>, c: nat,
                   ghost fields: seq<Field>, ghost base: seq<string>, implementor: Implementor)
    returns (e: Result<Field, AggregateError>)
    requires WellFormed(agg, inNames, outNames) && c < |agg.aggCalls|
    requires CallFields(q, agg, inNames, outNames, c) == Ok(fields)
    requires implementor.physicalMapper == base + CallsMapped(q, agg, inNames, outNames, c)
    modifies implementor
    ensures e.Ok? ==> CallFields(q, agg, inNames, outNames, c + 1) == Ok(fields + [e.value]) &&
                      implementor.physicalMapper == base + CallsMapped(q, agg, inNames, outNames, c + 1)
    ensures e.Err? ==> CallFields(q, agg, inNames, outNames, |agg.aggCalls|) == Err(e.error) &&
                       implementor.physicalMapper == base + CallsMapped(q, agg, inNames, outNames, |agg.aggCalls|)
    ensures implementor.stages == old(implementor.stages)
  {
    var call := agg.aggCalls[c];
    var acc := ToMongo(q, call.aggregation, inNames, call.argList, implementor);
    if acc.Err? {
      EntryRejected(q, agg, inNames, outNames, c, acc.error);
      return Err(acc.error);
    }
    EntryAccepted(q, agg, inNames, outNames, c, fields, acc.value);
    e := Ok(Field(q.maybeQuote(outNames[|agg.groupSet| + c]), acc.value));
  }

  /** The aggregate-call part of `implement`: one entry per call, named by the
      running output position, which starts at |groupSet|. */
  method CallEntries(q: Quoting, agg: MongoAggregate, inNames: seq<string>, outNames: seq<string>, implementor: Implementor)
    returns (r: Result<seq<string>, AggregateError>)
    requires WellFormed(agg, inNames, outNames)
    modifies implementor
    ensures CallFields(q, agg, inNames, outNames, |agg.aggCalls|).Ok? ==>
              r == Ok(RenderAll(CallFields(q, agg, inNames, outNames, |agg.aggCalls|).value))
    ensures CallFields(q, agg, inNames, outNames, |agg.aggCalls|).Err? ==>
              r == Err(CallFields(q, agg, inNames, outNames, |agg.aggCalls|).error)
    ensures implementor.physicalMapper ==
              old(implementor.physicalMapper) + CallsMapped(q, agg, inNames, outNames, |agg.aggCalls|)
    ensures implementor.stages == old(implementor.stages)
  {
    var list: seq<string> := [];
    var c := 0;
    ghost var fields: seq<Field> := [];
    ghost var base := implementor.physicalMapper;
    while c < |agg.aggCalls|
      invariant 0 <= c <= |agg.aggCalls|
      invariant CallFields(q, agg, inNames, outNames, c) == Ok(fields)
      invariant list == RenderAll(fields)
      invariant implementor.physicalMapper == base + CallsMapped(q, agg, inNames, outNames, c)
      invariant implementor.stages == old(implementor.stages)
    {
      var e := CallEntry(q, agg, inNames, outNames, c, fields, base, implementor);
      if e.Err? {
        return Err(e.error);
      }
      RenderAllAppend(fields, e.value);
      fields := fields + [e.value];
      list := list + [Render(e.value)];
      c := c + 1;
    }
    r := Ok(list);
  }

  /** The corrected fix-up entries, built by the source's loops with each
      grouped field looked up by its position (see FixupsAsWritten for the
      lookup the source makes). */
  method Fixups(q: Quoting, agg: MongoAggregate, inNames: seq<string>, outNames: seq<string>) returns (fixups: seq<string>)
    requires WellFormed(agg, inNames, outNames)
    ensures fixups == RenderAll(FixupFields(q, agg, inNames, outNames))
  {
    var gs := agg.groupSet;
    if |gs| == 1 {
      return seq(|outNames|, index requires 0 <= index < |outNames| =>
        Render(Field(q.maybeQuote(outNames[index]), q.maybeQuote("$" + (if index == 0 then "_id" else outNames[index])))));
    }
    ghost var all := RenderAll(FixupFields(q, agg, inNames, outNames));
    assert all[0] == Render(Field("_id", "0")) == "_id: 0";
    fixups := ["_id: 0"];
    var i := 0;
    while i < |gs|
      invariant 0 <= i <= |gs|
      invariant fixups == all[..1 + i]
    {
      var group := gs[i];
      fixups := fixups + [Render(Field(q.maybeQuote(outNames[i]), q.maybeQuote("$_id." + inNames[group])))];
      i := i + 1;
    }
    var c := 0;
    while c < |agg.aggCalls|
      invariant 0 <= c <= |agg.aggCalls| && i == |gs| + c
      invariant fixups == all[..1 + i]
    {
      var outName := outNames[i];
      fixups := fixups + [Render(Field(q.maybeQuote(outName), q.maybeQuote("$" + outName)))];
      i := i + 1;
      c := c + 1;
    }
    assert all[..1 + i] == all;
  }

  /** The `$group` stage of `implement`, built from the group key and the
      call entries; records the fields it reads, including on failure. */
  method GroupStageOf(q: Quoting, agg: MongoAggregate, inNames: seq<string>, outNames: seq<string>, implementor: Implementor)
    returns (r: Result<string, AggregateError>)
    requires WellFormed(agg, inNames, outNames)
    modifies implementor
    ensures GroupFields(q, agg, inNames, outNames).Ok? ==> r == Ok(GroupStage(GroupFields(q, agg, inNames, outNames).value))
    ensures GroupFields(q, agg, inNames, outNames).Err? ==> r == Err(GroupFields(q, agg, inNames, outNames).error)
    ensures implementor.physicalMapper == old(implementor.physicalMapper) + AllMapped(q, agg, inNames, outNames)
    ensures implementor.stages == old(implementor.stages)
  {
    ghost var calls := CallFields(q, agg, inNames, outNames, |agg.aggCalls|);
    var idEntry := GroupKey(q, agg.groupSet, inNames, implementor);
    var entries := CallEntries(q, agg, inNames, outNames, implementor);
    if entries.Err? {
      return Err(entries.error);
    }
    ghost var fields := [GroupIdField(q, agg.groupSet, inNames)] + calls.value;
    var list := [idEntry] + entries.value;
    assert list == RenderAll(fields);
    r := Ok("{$group: " + Braces(list) + "}");
  }

  /** `implement` with the corrected fix-up: appends the `$group` stage and,
      for a non-empty group set, the `$project` fix-up; records the fields it
      reads. An unknown function aborts before any stage is appended.
      ImplementAsWritten is the source's own fix-up. */
  method Implement(q: Quoting, agg: MongoAggregate, inNames: seq<string>, outNames: seq<string>, implementor: Implementor)
    returns (r: Result<(), AggregateError>)
    requires WellFormed(agg, inNames, outNames)
    modifies implementor
    ensures Stages(q, agg, inNames, outNames).Ok? ==>
              r.Ok? && implementor.stages == old(implementor.stages) + Stages(q, agg, inNames, outNames).value
    ensures Stages(q, agg, inNames, outNames).Err? ==>
              r == Err(Stages(q, agg, inNames, outNames).error) && implementor.stages == old(implementor.stages)
    ensures implementor.physicalMapper == old(implementor.physicalMapper) + AllMapped(q, agg, inNames, outNames)
  {
    var groupStage := GroupStageOf(q, agg, inNames, outNames, implementor);
    if groupStage.Err? {
      return Err(groupStage.error);
    }
    implementor.Add(groupStage.value);
    var fixups := Fixups(q, agg, inNames, outNames);
    if |agg.groupSet| != 0 {
      implementor.Add("{$project: " + Braces(fixups) + "}");
    }
    r := Ok(());
  }

  // ---------------------------------------------------------------------
  // `implement` as written, with the source's fix-up.

  /** The entries `acc` already built, in front of what the rest yields. */
  function Prepend(acc: seq<Field>, rest: Result<seq<Field>, AggregateError>): Result<seq<Field>, AggregateError>
  {
    match rest
    case Err(e) => Err(e)
    case Ok(v) => Ok(acc + v)
  }

  /** One grouped fix-up of the loop as written, for a column within range. */
  lemma GroupFixupAsWrittenStep(q: Quoting, gs: seq<nat>, outNames: seq<string>, i: nat, acc: seq<Field>)
    requires i < |gs| && gs[i] < |outNames|
    ensures Prepend(acc, GroupFixupsAsWritten(q, gs[i..], outNames)) ==
            Prepend(acc + [Field(q.maybeQuote(outNames[gs[i]]), q.maybeQuote("$_id." + outNames[gs[i]]))],
                    GroupFixupsAsWritten(q, gs[i + 1..], outNames))
  {
    assert gs[i..][0] == gs[i] && gs[i..][1..] == gs[i + 1..];
    var f := Field(q.maybeQuote(outNames[gs[i]]), q.maybeQuote("$_id." + outNames[gs[i]]));
    var rest := GroupFixupsAsWritten(q, gs[i + 1..], outNames);
    if rest.Ok? {
      assert acc + ([f] + rest.value) == (acc + [f]) + rest.value;
    }
  }

  /** The grouped fix-ups of the loop as written, each output name looked up
      by the group column's input index. */
  method GroupFixupEntriesAsWritten(q: Quoting, gs: seq<nat>, outNames: seq<string>)
    returns (r: Result<seq<string>, AggregateError>)
    ensures GroupFixupsAsWritten(q, gs, outNames).Ok? ==> r == Ok(RenderAll(GroupFixupsAsWritten(q, gs, outNames).value))
    ensures GroupFixupsAsWritten(q, gs, outNames).Err? ==> r == Err(GroupFixupsAsWritten(q, gs, outNames).error)
  {
    var entries: seq<string> := [];
    ghost var acc: seq<Field> := [];
    assert gs[0..] == gs;
    assert Prepend([], GroupFixupsAsWritten(q, gs, outNames)) == GroupFixupsAsWritten(q, gs, outNames) by {
      if GroupFixupsAsWritten(q, gs, outNames).Ok? {
        assert [] + GroupFixupsAsWritten(q, gs, outNames).value == GroupFixupsAsWritten(q, gs, outNames).value;
      }
    }
    var i := 0;
    while i < |gs|
      invariant 0 <= i <= |gs|
      invariant GroupFixupsAsWritten(q, gs, outNames) == Prepend(acc, GroupFixupsAsWritten(q, gs[i..], outNames))
      invariant entries == RenderAll(acc)
    {
      var group := gs[i];
      if group >= |outNames| {
        assert gs[i..][0] == group;
        return Err(IndexOutOfBounds(group));
      }
      var f := Field(q.maybeQuote(outNames[group]), q.maybeQuote("$_id." + outNames[group]));
      GroupFixupAsWrittenStep(q, gs, outNames, i, acc);
      RenderAllAppend(acc, f);
      acc := acc + [f];
      entries := entries + [Render(f)];
      i := i + 1;
    }
    assert gs[i..] == [] && acc + [] == acc;
    r := Ok(entries);
  }

  /** The fix-up entries as `implement` builds them: for several group
      columns, each grouped field is looked up by its input index. */
  method FixupsAsWritten(q: Quoting, agg: MongoAggregate, inNames: seq<string>, outNames: seq<string>)
    returns (r: Result<seq<string>, AggregateError>)
    requires WellFormed(agg, inNames, outNames)
    ensures FixupFieldsAsWritten(q, agg, inNames, outNames).Ok? ==>
              r == Ok(RenderAll(FixupFieldsAsWritten(q, agg, inNames, outNames).value))
    ensures FixupFieldsAsWritten(q, agg, inNames, outNames).Err? ==>
              r == Err(FixupFieldsAsWritten(q, agg, inNames, outNames).error)
  {
    var gs := agg.groupSet;
    if |gs| == 1 {
      var fixups := Fixups(q, agg, inNames, outNames);
      assert FixupFieldsAsWritten(q, agg, inNames, outNames) == Ok(FixupFields(q, agg, inNames, outNames));
      return Ok(fixups);
    }
    var keys := GroupFixupEntriesAsWritten(q, gs, outNames);
    if keys.Err? {
      return Err(keys.error);
    }
    ghost var head := [Field("_id", "0")] + GroupFixupsAsWritten(q, gs, outNames).value;
    var fixups := ["_id: 0"] + keys.value;
    assert Render(Field("_id", "0")) == "_id: 0";
    forall k | 0 <= k < |head| ensures fixups[k] == Render(head[k]) {
      if k > 0 { assert fixups[k] == keys.value[k - 1] && head[k] == GroupFixupsAsWritten(q, gs, outNames).value[k - 1]; }
    }
    assert fixups == RenderAll(head);
    ghost var calls := CallFixups(q, agg, outNames);
    var i := |gs|;
    var c := 0;
    while c < |agg.aggCalls|
      invariant 0 <= c <= |agg.aggCalls| && i == |gs| + c
      invariant fixups == RenderAll(head + calls[..c])
    {
      var outName := outNames[i];
      var f := Field(q.maybeQuote(outName), q.maybeQuote("$" + outName));
      assert f == calls[c];
      RenderAllAppend(head + calls[..c], f);
      assert head + calls[..c + 1] == head + calls[..c] + [f];
      fixups := fixups + [Render(f)];
      i := i + 1;
      c := c + 1;
    }
    assert calls[..c] == calls;
    r := Ok(fixups);
  }

  /** What `implement` as written leaves behind: the stages it appended and
      whether it returned or threw. */
  datatype Outcome = Outcome(appended: seq<string>, result: Result<(), AggregateError>)

  /** `implement` as written: an unknown function aborts before any stage;
      a fix-up that reads past the output names throws after `$group` has
      been appended. */
  function ImplementOutcome(q: Quoting, agg: MongoAggregate, inNames: seq<string>, outNames: seq<string>): Outcome
    requires WellFormed(agg, inNames, outNames)
  {
    match GroupFields(q, agg, inNames, outNames)
    case Err(e) => Outcome([], Err(e))
    case Ok(fs) =>
      match FixupFieldsAsWritten(q, agg, inNames, outNames)
      case Err(e) => Outcome([GroupStage(fs)], Err(e))
      case Ok(fx) => Outcome([GroupStage(fs)] + (if |agg.groupSet| == 0 then [] else [ProjectStage(fx)]), Ok(()))
  }

  /** `implement` exactly as the source writes it, fix-up included. */
  method ImplementAsWritten(q: Quoting, agg: MongoAggregate, inNames: seq<string>, outNames: seq<string>, implementor: Implementor)
    returns (r: Result<(), AggregateError>)
    requires WellFormed(agg, inNames, outNames)
    modifies implementor
    ensures r == ImplementOutcome(q, agg, inNames, outNames).result
    ensures implementor.stages == old(implementor.stages) + ImplementOutcome(q, agg, inNames, outNames).appended
    ensures implementor.physicalMapper == old(implementor.physicalMapper) + AllMapped(q, agg, inNames, outNames)
  {
    var groupStage := GroupStageOf(q, agg, inNames, outNames, implementor);
    if groupStage.Err? {
      return Err(groupStage.error);
    }
    implementor.Add(groupStage.value);
    var fixups := FixupsAsWritten(q, agg, inNames, outNames);
    if fixups.Err? {
      return Err(fixups.error);
    }
    if |agg.groupSet| != 0 {
      implementor.Add("{$project: " + Braces(fixups.value) + "}");
    }
    r := Ok(());
  }

  /** As written, `implement` behaves as the corrected one exactly when its
      fix-up does; in particular on a leading run of group columns that keep
      their input names. */
  lemma ImplementAgreesOnLeadingGroups(q: Quoting, agg: MongoAggregate, inNames: seq<string>, outNames: seq<string>)
    requires WellFormed(agg, inNames, outNames)
    requires forall j :: 0 <= j < |agg.groupSet| ==> agg.groupSet[j] == j && outNames[j] == inNames[j]
    ensures Stages(q, agg, inNames, outNames).Ok? ==>
              ImplementOutcome(q, agg, inNames, outNames) == Outcome(Stages(q, agg, inNames, outNames).value, Ok(()))
    ensures Stages(q, agg, inNames, outNames).Err? ==>
              ImplementOutcome(q, agg, inNames, outNames) == Outcome([], Err(Stages(q, agg, inNames, outNames).error))
  {
    AsWrittenAgreesOnLeadingGroups(q, agg, inNames, outNames);
  }

  /** As written, several group columns one of which lies past the output
      names make `implement` throw IndexOutOfBounds with the `$group` stage
      already appended (when every call is known). */
  lemma ImplementAsWrittenThrowsAfterGroup(q: Quoting, agg: MongoAggregate, inNames: seq<string>, outNames: seq<string>)
    requires WellFormed(agg, inNames, outNames) && |agg.groupSet| > 1
    requires GroupFields(q, agg, inNames, outNames).Ok?
    requires exists j :: 0 <= j < |agg.groupSet| && agg.groupSet[j] >= |outNames|
    ensures ImplementOutcome(q, agg, inNames, outNames).appended == [GroupStage(GroupFields(q, agg, inNames, outNames).value)]
    ensures ImplementOutcome(q, agg, inNames, outNames).result.Err?
    ensures ImplementOutcome(q, agg, inNames, outNames).result.error.IndexOutOfBounds?
  {
    GroupFixupsAsWrittenShape(q, agg.groupSet, outNames);
  }
}
