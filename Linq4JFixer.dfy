/** The Cottontail request builders that generated query code calls
    (Linq4JFixer): boolean predicates, the WHERE wrapper and kNN requests,
    built from untyped arguments into the wire-format messages. */
module Linq4JFixer {
  import opened Results
  import Types

  // ---------------------------------------------------------------------
  // Wire-format messages.

  /** A literal datum and a query vector; their payload is not inspected. */
  datatype Data = Data(payload: seq<int>)
  datatype Vector = Vector(elements: seq<int>)

  /** Comparison operators of atomic predicates, kept by name. */
  datatype AtomicOperator = AtomicOperator(name: string)

  datatype CompoundOperator = AND | OR

  datatype AtomicPredicate = AtomicPredicate(attribute: string, not: bool, op: AtomicOperator, data: seq<Data>)

  /** One side of a compound predicate: the atomic slot or the compound slot. */
  datatype Side = AtomicSide(atomic: AtomicPredicate) | CompoundSide(compound: CompoundPredicate)

  datatype CompoundPredicate = CompoundPredicate(op: CompoundOperator, left: Side, right: Side)

  datatype Where = AtomicWhere(atomic: AtomicPredicate) | CompoundWhere(compound: CompoundPredicate)

  datatype Distance = L1 | L2 | L2SQUARED | CHISQUARED | COSINE

  datatype Knn = Knn(attribute: string, k: Types.Int32, query: seq<Vector>, weights: seq<Vector>, distance: Distance)

  /** The untyped arguments the builders receive. */
  datatype Obj =
    | NullObj
    | AtomicObj(atomic: AtomicPredicate)
    | CompoundObj(compound: CompoundPredicate)
    | AtomicOperatorObj(atomicOp: AtomicOperator)
    | CompoundOperatorObj(compoundOp: CompoundOperator)
    | DataObj(datum: Data)
    | VectorObj(vector: Vector)
    | StringObj(s: string)
    | IntegerObj(i: Types.Int32)
    | OtherObj(className: string)

  datatype FixerError =
    | ClassCast(target: string)
    | NullPointer                  // a message setter given null
    | IllegalArgument(message: string)
    | Runtime(message: string)

  // ---------------------------------------------------------------------
  // Predicates.

  /** `generateCompoundPredicate`: an atomic side goes to the atomic slot,
      anything else is cast to a compound predicate for the compound slot. */
  function GenerateCompoundPredicate(operator: Obj, left: Obj, right: Obj): (r: Result<CompoundPredicate, FixerError>)
    ensures r.Ok? <==> operator.CompoundOperatorObj? && (left.AtomicObj? || left.CompoundObj?) && (right.AtomicObj? || right.CompoundObj?)
    ensures r.Ok? ==> r.value.op == operator.compoundOp
    ensures r.Ok? ==> (left.AtomicObj? <==> r.value.left.AtomicSide?) && (right.AtomicObj? <==> r.value.right.AtomicSide?)
    ensures r.Ok? && left.AtomicObj? ==> r.value.left.atomic == left.atomic
    ensures r.Ok? && left.CompoundObj? ==> r.value.left.compound == left.compound
    ensures r.Ok? && right.AtomicObj? ==> r.value.right.atomic == right.atomic
    ensures r.Ok? && right.CompoundObj? ==> r.value.right.compound == right.compound
  {
    var op :- CastCompoundOperator(operator);
    var l :- SideOf(left);
    var rt :- SideOf(right);
    Ok(CompoundPredicate(op, l, rt))
  }

  function CastCompoundOperator(o: Obj): Result<CompoundOperator, FixerError>
  {
    match o
    case CompoundOperatorObj(op) => Ok(op)
    case NullObj => Err(NullPointer)
    case _ => Err(ClassCast("CompoundBooleanPredicate.Operator"))
  }

  function SideOf(o: Obj): Result<Side, FixerError>
  {
    match o
    case AtomicObj(a) => Ok(AtomicSide(a))
    case CompoundObj(c) => Ok(CompoundSide(c))
    case NullObj => Err(NullPointer)
    case _ => Err(ClassCast("CompoundBooleanPredicate"))
  }

  /** `generateAtomicPredicate`: the casts of the operator and the datum come
      first, then every setter rejects null. */
  function GenerateAtomicPredicate(attribute: Option<string>, not: Option<bool>, operator: Obj, data: Obj): (r: Result<AtomicPredicate, FixerError>)
    ensures r.Ok? <==> attribute.Some? && not.Some? && operator.AtomicOperatorObj? && data.DataObj?
    ensures r.Ok? ==> r.value == AtomicPredicate(attribute.value, not.value, operator.atomicOp, [data.datum])
    ensures !(operator.NullObj? || operator.AtomicOperatorObj?) ==> r == Err(ClassCast("AtomicLiteralBooleanPredicate.Operator"))
  {
    if !(operator.NullObj? || operator.AtomicOperatorObj?) then Err(ClassCast("AtomicLiteralBooleanPredicate.Operator"))
    else if !(data.NullObj? || data.DataObj?) then Err(ClassCast("Data"))
    else if data.NullObj? || not.None? || attribute.None? || operator.NullObj? then Err(NullPointer)
    else Ok(AtomicPredicate(attribute.value, not.value, operator.atomicOp, [data.datum]))
  }

  /** `generateWhere`. */
  function GenerateWhere(filterExpression: Obj): (r: Result<Where, FixerError>)
    ensures r.Ok? <==> filterExpression.AtomicObj? || filterExpression.CompoundObj?
    ensures filterExpression.AtomicObj? ==> r == Ok(AtomicWhere(filterExpression.atomic))
    ensures filterExpression.CompoundObj? ==> r == Ok(CompoundWhere(filterExpression.compound))
    ensures r.Err? ==> r.error == Runtime("Not a proper filter expression!")
  {
    match filterExpression
    case AtomicObj(a) => Ok(AtomicWhere(a))
    case CompoundObj(c) => Ok(CompoundWhere(c))
    case _ => Err(Runtime("Not a proper filter expression!"))
  }

  // ---------------------------------------------------------------------
  // Predicate trees: the builders used bottom-up lose no structure.

  /** A boolean filter as the generated code composes it. */
  datatype Filter =
    | Test(attribute: string, not: bool, op: AtomicOperator, datum: Data)
    | Combine(connective: CompoundOperator, left: Filter, right: Filter)

  /** The argument the generated code passes for a filter: its predicate,
      built bottom-up. */
  function Lower(f: Filter): (r: Obj)
    ensures f.Test? <==> r.AtomicObj?
    ensures f.Combine? <==> r.CompoundObj?
  {
    match f
    case Test(attribute, not, op, datum) =>
      AtomicObj(GenerateAtomicPredicate(Some(attribute), Some(not), AtomicOperatorObj(op), DataObj(datum)).value)
    case Combine(op, left, right) =>
      CompoundObj(GenerateCompoundPredicate(CompoundOperatorObj(op), Lower(left), Lower(right)).value)
  }

  /** Reads a filter back from an atomic predicate holding one datum. */
  function DecodeAtomic(a: AtomicPredicate): Option<Filter>
  {
    if |a.data| == 1 then Some(Test(a.attribute, a.not, a.op, a.data[0])) else None
  }

  /** Reads a filter back from a compound predicate's slots. */
  function DecodeCompound(c: CompoundPredicate): Option<Filter>
  {
    match (DecodeSide(c.left), DecodeSide(c.right))
    case (Some(l), Some(r)) => Some(Combine(c.op, l, r))
    case _ => None
  }

  function DecodeSide(s: Side): Option<Filter>
  {
    match s
    case AtomicSide(a) => DecodeAtomic(a)
    case CompoundSide(c) => DecodeCompound(c)
  }

  /** Reads a filter back from a WHERE clause. */
  function DecodeWhere(w: Where): Option<Filter>
  {
    match w
    case AtomicWhere(a) => DecodeAtomic(a)
    case CompoundWhere(c) => DecodeCompound(c)
  }

  /** Every filter survives the builders: the WHERE clause built from its
      lowered predicate reads back as the same filter. */
  lemma {:induction false} WhereRoundTrip(f: Filter)
    ensures GenerateWhere(Lower(f)).Ok?
    ensures DecodeWhere(GenerateWhere(Lower(f)).value) == Some(f)
  {
    LowerRoundTrip(f);
  }

  lemma {:induction false} LowerRoundTrip(f: Filter)
    ensures Lower(f).AtomicObj? ==> DecodeAtomic(Lower(f).atomic) == Some(f)
    ensures Lower(f).CompoundObj? ==> DecodeCompound(Lower(f).compound) == Some(f)
  {
    match f
    case Test(_, _, _, _) =>
    case Combine(op, left, right) =>
      LowerRoundTrip(left);
      LowerRoundTrip(right);
      var c := Lower(f).compound;
      assert DecodeSide(c.left) == Some(left);
      assert DecodeSide(c.right) == Some(right);
  }

  // ---------------------------------------------------------------------
  // kNN requests.

  /** The `k` used when the query gives none. */
  const DefaultK: Types.Int32 := 1000000

  /** `getDistance`: the five distance names, case-sensitive. */
  function GetDistance(norm: Option<string>): (r: Result<Distance, FixerError>)
    ensures norm.None? ==> r == Err(NullPointer)
    ensures r.Err? && norm.Some? ==> r.error == IllegalArgument("Unknown norm: " + norm.value)
  {
    match norm
    case None => Err(NullPointer)
    case Some(s) =>
      if s == "L1" then Ok(L1)
      else if s == "L2" then Ok(L2)
      else if s == "L2SQUARED" then Ok(L2SQUARED)
      else if s == "CHISQUARED" then Ok(CHISQUARED)
      else if s == "COSINE" then Ok(COSINE)
      else Err(IllegalArgument("Unknown norm: " + s))
  }

  /** The wire name of each distance. */
  function DistanceName(d: Distance): string
  {
    match d
    case L1 => "L1"
    case L2 => "L2"
    case L2SQUARED => "L2SQUARED"
    case CHISQUARED => "CHISQUARED"
    case COSINE => "COSINE"
  }

  /** `getDistance` accepts exactly the five names and inverts DistanceName. */
  lemma DistanceNames(norm: string, d: Distance)
    ensures GetDistance(Some(DistanceName(d))) == Ok(d)
    ensures GetDistance(Some(norm)).Ok? ==> DistanceName(GetDistance(Some(norm)).value) == norm
    ensures GetDistance(Some(norm)).Ok? <==> norm in {"L1", "L2", "L2SQUARED", "CHISQUARED", "COSINE"}
  {
  }

  function CastString(o: Obj): Result<Option<string>, FixerError>
  {
    match o
    case NullObj => Ok(None)
    case StringObj(s) => Ok(Some(s))
    case _ => Err(ClassCast("String"))
  }

  /** An optional vector: absent when null. */
  function CastVector(o: Obj): Result<seq<Vector>, FixerError>
  {
    match o
    case NullObj => Ok([])
    case VectorObj(v) => Ok([v])
    case _ => Err(ClassCast("Vector"))
  }

  /** `generateKnn`. */
  function GenerateKnn(column: Obj, k: Obj, distance: Obj, target: Obj, weights: Obj): (r: Result<Knn, FixerError>)
  {
    var attribute :- CastString(column);
    if attribute.None? then Err(NullPointer)
    else
      var kValue :-
        match k
        case NullObj => Ok(DefaultK)
        case IntegerObj(i) => Ok(i)
        case _ => Err(ClassCast("Integer"));
      var query :- CastVector(target);
      var weightList :- CastVector(weights);
      var norm :- CastString(distance);
      var d :- GetDistance(norm);
      Ok(Knn(attribute.value, kValue, query, weightList, d))
  }

  /** A kNN request on well-typed arguments: it names the column, takes the
      given `k` or the finite default, holds one query and one weight vector
      exactly when they are given, and uses the named distance; an unknown
      distance name fails the whole request. */
  lemma KnnFields(column: string, k: Obj, distance: string, target: Obj, weights: Obj)
    requires k.NullObj? || k.IntegerObj?
    requires target.NullObj? || target.VectorObj?
    requires weights.NullObj? || weights.VectorObj?
    ensures var r := GenerateKnn(StringObj(column), k, StringObj(distance), target, weights);
            && (r.Ok? <==> GetDistance(Some(distance)).Ok?)
            && (r.Err? ==> r.error == IllegalArgument("Unknown norm: " + distance))
            && (r.Ok? ==>
                  && r.value.attribute == column
                  && r.value.k == (if k.IntegerObj? then k.i else DefaultK)
                  && (k.NullObj? ==> r.value.k != 0x7FFF_FFFF)
                  && r.value.query == (if target.VectorObj? then [target.vector] else [])
                  && r.value.weights == (if weights.VectorObj? then [weights.vector] else [])
                  && r.value.distance == GetDistance(Some(distance)).value)
  {
  }

  /** A null column or distance, or an argument of the wrong class, fails the
      request. */
  lemma KnnRejects(column: Obj, k: Obj, distance: Obj, target: Obj, weights: Obj)
    ensures column.NullObj? ==> GenerateKnn(column, k, distance, target, weights) == Err(NullPointer)
    ensures !(column.NullObj? || column.StringObj?) ==> GenerateKnn(column, k, distance, target, weights) == Err(ClassCast("String"))
    ensures column.StringObj? && !(k.NullObj? || k.IntegerObj?) ==> GenerateKnn(column, k, distance, target, weights) == Err(ClassCast("Integer"))
    ensures column.StringObj? && (k.NullObj? || k.IntegerObj?) && (target.NullObj? || target.VectorObj?) &&
            (weights.NullObj? || weights.VectorObj?) && distance.NullObj? ==>
              GenerateKnn(column, k, distance, target, weights) == Err(NullPointer)
  {
  }
}
