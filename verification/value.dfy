/**
  The interpreter's `Value`: a sum of Unit, Boolean, Integer, Array, Tuple,
  Structure and Enumeration, and the operators on it.

  Every operator first checks the variants of its operands, then either
  delegates to the Boolean or Integer payload (a constraint-system gadget)
  or returns a typed error naming the offending operand. The gadgets
  themselves are not modelled: their operations are the function-valued
  fields of `Gadgets`, which may fail, and every operator takes the record
  as a parameter.
 */
module Values {
  import opened Wrappers

  /** The surface language's type variants, as far as values carry them. */
  datatype TypeVariant =
    | UnitType
    | BooleanType
    | IntegerUnsigned(bitlength: nat)
    | IntegerSigned(bitlength: nat)
    | FieldType
    | ArrayType(element: TypeVariant, size: nat)
    | TupleType(elements: seq<TypeVariant>)
    | StructureType(fields: seq<(string, TypeVariant)>)

  /** The Integer gadget's payload: a concrete value with its declared type. */
  datatype IntegerValue = IntegerValue(value: int, isSigned: bool, bitlength: nat)

  /** A runtime value. Arrays and tuples hold their elements in push order,
      structures their fields in declaration order. */
  datatype Value =
    | Unit
    | Boolean(boolean: bool)
    | Integer(integer: IntegerValue)
    | Array(elements: seq<Value>)
    | Tuple(items: seq<Value>)
    | Structure(fields: seq<(string, Value)>)
    | Enumeration(discriminant: nat)

  /** Errors raised inside the payload gadgets; their causes are not modelled. */
  datatype BooleanError = BooleanError(message: string)
  datatype IntegerError = IntegerError(message: string)
  datatype ArrayError = ArrayError(message: string)
  datatype StructureError = StructureError(message: string)

  /** The value layer's error: a rejected operand, or a wrapped gadget error. */
  datatype Error =
    | ExpectedBoolean(operator: string, found: Value)
    | ExpectedInteger(operator: string, found: Value)
    | OperandTypesMismatch(left: Value, right: Value)
    | BooleanFailure(booleanError: BooleanError)
    | IntegerFailure(integerError: IntegerError)
    | ArrayFailure(arrayError: ArrayError)
    | StructureFailure(structureError: StructureError)

  /**
    The payload operations the value layer delegates to. Allocating a
    constant Boolean either fails or yields exactly that Boolean, so those
    two report only their failure; a push that returns `None` has accepted
    the element and appended it.
   */
  datatype Gadgets = Gadgets(
    booleanFromBool: bool -> Option<BooleanError>,
    booleanFromLiteral: bool -> Option<BooleanError>,
    integerFromLiteral: string -> Result<IntegerValue, IntegerError>,
    integerFromUsize: nat -> Result<IntegerValue, IntegerError>,
    booleanType: bool -> TypeVariant,
    integerType: IntegerValue -> TypeVariant,
    arrayType: seq<Value> -> TypeVariant,
    tupleType: seq<Value> -> TypeVariant,
    structureType: seq<(string, Value)> -> TypeVariant,
    integerSameType: (IntegerValue, IntegerValue) -> bool,
    arraySameType: (seq<Value>, seq<Value>) -> bool,
    tupleSameType: (seq<Value>, seq<Value>) -> bool,
    structureSameType: (seq<(string, Value)>, seq<(string, Value)>) -> bool,
    arrayPush: (seq<Value>, Value) -> Option<ArrayError>,
    structurePush: (seq<(string, Value)>, string, Value) -> Option<StructureError>,
    booleanOr: (bool, bool) -> Result<bool, BooleanError>,
    booleanXor: (bool, bool) -> Result<bool, BooleanError>,
    booleanAnd: (bool, bool) -> Result<bool, BooleanError>,
    booleanEquals: (bool, bool) -> Result<bool, BooleanError>,
    booleanNotEquals: (bool, bool) -> Result<bool, BooleanError>,
    booleanNot: bool -> Result<bool, BooleanError>,
    integerEquals: (IntegerValue, IntegerValue) -> Result<bool, IntegerError>,
    integerNotEquals: (IntegerValue, IntegerValue) -> Result<bool, IntegerError>,
    integerGreaterEquals: (IntegerValue, IntegerValue) -> Result<bool, IntegerError>,
    integerLesserEquals: (IntegerValue, IntegerValue) -> Result<bool, IntegerError>,
    integerGreater: (IntegerValue, IntegerValue) -> Result<bool, IntegerError>,
    integerLesser: (IntegerValue, IntegerValue) -> Result<bool, IntegerError>,
    integerAdd: (IntegerValue, IntegerValue) -> Result<IntegerValue, IntegerError>,
    integerSubtract: (IntegerValue, IntegerValue) -> Result<IntegerValue, IntegerError>,
    integerMultiply: (IntegerValue, IntegerValue) -> Result<IntegerValue, IntegerError>,
    integerDivide: (IntegerValue, IntegerValue) -> Result<IntegerValue, IntegerError>,
    integerModulo: (IntegerValue, IntegerValue) -> Result<IntegerValue, IntegerError>,
    integerNegate: IntegerValue -> Result<IntegerValue, IntegerError>,
    integerCast: (IntegerValue, TypeVariant) -> Result<IntegerValue, IntegerError>
  )

  // ---------------------------------------------------------------------
  // Result lifting: `.map(Self::Boolean).map_err(Error::Boolean)` and kin.
  // ---------------------------------------------------------------------

  function LiftBoolean(r: Result<bool, BooleanError>): Result<Value, Error> {
    r.Map(b => Boolean(b)).MapErr(e => BooleanFailure(e))
  }

  function LiftComparison(r: Result<bool, IntegerError>): Result<Value, Error> {
    r.Map(b => Boolean(b)).MapErr(e => IntegerFailure(e))
  }

  function LiftInteger(r: Result<IntegerValue, IntegerError>): Result<Value, Error> {
    r.Map(i => Integer(i)).MapErr(e => IntegerFailure(e))
  }

  /** A Boolean allocated from a constant: that constant, unless allocation fails. */
  function AllocateBoolean(failure: Option<BooleanError>, b: bool): Result<Value, Error> {
    match failure
    case None => Ok(Boolean(b))
    case Some(e) => Err(BooleanFailure(e))
  }

  // ---------------------------------------------------------------------
  // Contracts shared by families of operators
  // ---------------------------------------------------------------------

  /** Operand check of a Boolean-only binary operator: the left operand is
      blamed first, then the right one; two Booleans go to the gadget, whose
      success becomes a Boolean value and whose failure is wrapped. */
  ghost predicate BooleanBinaryOutcome(name: string, gadget: (bool, bool) -> Result<bool, BooleanError>,
                                       left: Value, right: Value, r: Result<Value, Error>)
  {
    && (!left.Boolean? ==> r == Err(ExpectedBoolean(name, left)))
    && (left.Boolean? && !right.Boolean? ==> r == Err(ExpectedBoolean(name, right)))
    && (left.Boolean? && right.Boolean? ==>
          var g := gadget(left.boolean, right.boolean);
          && (r.Ok? <==> g.Ok?)
          && (r.Ok? ==> r.value == Boolean(g.value))
          && (r.Err? ==> r.error == BooleanFailure(g.error)))
  }

  /** Operand check of an Integer-only binary operator whose gadget yields a
      Boolean (the comparisons). */
  ghost predicate ComparisonOutcome(name: string, gadget: (IntegerValue, IntegerValue) -> Result<bool, IntegerError>,
                                    left: Value, right: Value, r: Result<Value, Error>)
  {
    && (!left.Integer? ==> r == Err(ExpectedInteger(name, left)))
    && (left.Integer? && !right.Integer? ==> r == Err(ExpectedInteger(name, right)))
    && (left.Integer? && right.Integer? ==>
          var g := gadget(left.integer, right.integer);
          && (r.Ok? <==> g.Ok?)
          && (r.Ok? ==> r.value == Boolean(g.value))
          && (r.Err? ==> r.error == IntegerFailure(g.error)))
  }

  /** Operand check of an Integer-only binary operator whose gadget yields an
      Integer (the arithmetic). */
  ghost predicate ArithmeticOutcome(name: string, gadget: (IntegerValue, IntegerValue) -> Result<IntegerValue, IntegerError>,
                                    left: Value, right: Value, r: Result<Value, Error>)
  {
    && (!left.Integer? ==> r == Err(ExpectedInteger(name, left)))
    && (left.Integer? && !right.Integer? ==> r == Err(ExpectedInteger(name, right)))
    && (left.Integer? && right.Integer? ==>
          var g := gadget(left.integer, right.integer);
          && (r.Ok? <==> g.Ok?)
          && (r.Ok? ==> r.value == Integer(g.value))
          && (r.Err? ==> r.error == IntegerFailure(g.error)))
  }

  /** Operand check of `equals` and `not_equals`. Two Units compare without a
      gadget (`unitResult` is the constant allocated for them); a Boolean or an
      Integer on the left blames a right operand of another variant by the
      left's kind; every other pairing is a mismatch naming both operands. */
  ghost predicate EqualityOutcome(name: string, unitResult: bool,
                                  booleanGadget: (bool, bool) -> Result<bool, BooleanError>,
                                  integerGadget: (IntegerValue, IntegerValue) -> Result<bool, IntegerError>,
                                  allocate: bool -> Option<BooleanError>,
                                  left: Value, right: Value, r: Result<Value, Error>)
  {
    && (r.Ok? ==> r.value.Boolean?)
    && (left.Unit? && right.Unit? ==>
          && (r.Ok? <==> allocate(unitResult).None?)
          && (r.Ok? ==> r.value == Boolean(unitResult))
          && (r.Err? ==> r.error == BooleanFailure(allocate(unitResult).value)))
    && (left.Boolean? && right.Boolean? ==>
          var g := booleanGadget(left.boolean, right.boolean);
          && (r.Ok? <==> g.Ok?)
          && (r.Ok? ==> r.value.boolean == g.value)
          && (r.Err? ==> r.error == BooleanFailure(g.error)))
    && (left.Boolean? && !right.Boolean? ==> r == Err(ExpectedBoolean(name, right)))
    && (left.Integer? && right.Integer? ==>
          var g := integerGadget(left.integer, right.integer);
          && (r.Ok? <==> g.Ok?)
          && (r.Ok? ==> r.value.boolean == g.value)
          && (r.Err? ==> r.error == IntegerFailure(g.error)))
    && (left.Integer? && !right.Integer? ==> r == Err(ExpectedInteger(name, right)))
    && (!(left.Unit? && right.Unit?) && !left.Boolean? && !left.Integer? ==>
          r == Err(OperandTypesMismatch(left, right)))
  }

  // ---------------------------------------------------------------------
  // Dispatch helpers, one per family
  // ---------------------------------------------------------------------

  function BooleanBinary(name: string, gadget: (bool, bool) -> Result<bool, BooleanError>,
                         left: Value, right: Value): (r: Result<Value, Error>)
    ensures BooleanBinaryOutcome(name, gadget, left, right, r)
  {
    match left
    case Boolean(a) =>
      (match right
       case Boolean(b) => LiftBoolean(gadget(a, b))
       case _ => Err(ExpectedBoolean(name, right)))
    case _ => Err(ExpectedBoolean(name, left))
  }

  function Comparison(name: string, gadget: (IntegerValue, IntegerValue) -> Result<bool, IntegerError>,
                      left: Value, right: Value): (r: Result<Value, Error>)
    ensures ComparisonOutcome(name, gadget, left, right, r)
  {
    match left
    case Integer(a) =>
      (match right
       case Integer(b) => LiftComparison(gadget(a, b))
       case _ => Err(ExpectedInteger(name, right)))
    case _ => Err(ExpectedInteger(name, left))
  }

  function Arithmetic(name: string, gadget: (IntegerValue, IntegerValue) -> Result<IntegerValue, IntegerError>,
                      left: Value, right: Value): (r: Result<Value, Error>)
    ensures ArithmeticOutcome(name, gadget, left, right, r)
  {
    match left
    case Integer(a) =>
      (match right
       case Integer(b) => LiftInteger(gadget(a, b))
       case _ => Err(ExpectedInteger(name, right)))
    case _ => Err(ExpectedInteger(name, left))
  }

  function Equality(name: string, unitResult: bool,
                    booleanGadget: (bool, bool) -> Result<bool, BooleanError>,
                    integerGadget: (IntegerValue, IntegerValue) -> Result<bool, IntegerError>,
                    allocate: bool -> Option<BooleanError>,
                    left: Value, right: Value): (r: Result<Value, Error>)
    ensures EqualityOutcome(name, unitResult, booleanGadget, integerGadget, allocate, left, right, r)
  {
    match (left, right)
    case (Unit, Unit) => AllocateBoolean(allocate(unitResult), unitResult)
    case (Boolean(a), Boolean(b)) => LiftBoolean(booleanGadget(a, b))
    case (Boolean(_), _) => Err(ExpectedBoolean(name, right))
    case (Integer(a), Integer(b)) => LiftComparison(integerGadget(a, b))
    case (Integer(_), _) => Err(ExpectedInteger(name, right))
    case _ => Err(OperandTypesMismatch(left, right))
  }

  // ---------------------------------------------------------------------
  // Constructors
  // ---------------------------------------------------------------------

  function NewBooleanFromLiteral(g: Gadgets, literal: bool): (r: Result<Value, Error>)
    ensures r.Ok? <==> g.booleanFromLiteral(literal).None?
    ensures r.Ok? ==> r.value == Boolean(literal)
    ensures r.Err? ==> r.error == BooleanFailure(g.booleanFromLiteral(literal).value)
  {
    AllocateBoolean(g.booleanFromLiteral(literal), literal)
  }

  function NewIntegerFromLiteral(g: Gadgets, literal: string): (r: Result<Value, Error>)
    ensures r.Ok? <==> g.integerFromLiteral(literal).Ok?
    ensures r.Ok? ==> r.value == Integer(g.integerFromLiteral(literal).value)
    ensures r.Err? ==> r.error == IntegerFailure(g.integerFromLiteral(literal).error)
  {
    LiftInteger(g.integerFromLiteral(literal))
  }

  function NewIntegerFromUsize(g: Gadgets, value: nat): (r: Result<Value, Error>)
    ensures r.Ok? <==> g.integerFromUsize(value).Ok?
    ensures r.Ok? ==> r.value == Integer(g.integerFromUsize(value).value)
    ensures r.Err? ==> r.error == IntegerFailure(g.integerFromUsize(value).error)
  {
    LiftInteger(g.integerFromUsize(value))
  }

  /** Index of the first element the array gadget rejects, if any. */
  ghost predicate ArrayRejectsAt(g: Gadgets, values: seq<Value>, k: nat)
    requires k < |values|
  {
    g.arrayPush(values[..k], values[k]).Some?
  }

  /** `new_array`: pushes the elements one by one; the first rejected push
      aborts with that push's error, otherwise the array holds every element
      in order. */
  method NewArray(g: Gadgets, values: seq<Value>) returns (r: Result<Value, Error>)
    ensures r.Ok? <==> forall k :: 0 <= k < |values| ==> !ArrayRejectsAt(g, values, k)
    ensures r.Ok? ==> r.value == Array(values)
    ensures r.Err? ==> exists k :: 0 <= k < |values| && ArrayRejectsAt(g, values, k)
                                   && (forall j :: 0 <= j < k ==> !ArrayRejectsAt(g, values, j))
                                   && r.error == ArrayFailure(g.arrayPush(values[..k], values[k]).value)
  {
    var pushed: seq<Value> := [];
    var i := 0;
    while i < |values|
      invariant 0 <= i <= |values|
      invariant pushed == values[..i]
      invariant forall j :: 0 <= j < i ==> !ArrayRejectsAt(g, values, j)
    {
      match g.arrayPush(pushed, values[i])
      case Some(e) =>
        assert ArrayRejectsAt(g, values, i);
        return Err(ArrayFailure(e));
      case None =>
        pushed := pushed + [values[i]];
        i := i + 1;
    }
    assert pushed == values;
    return Ok(Array(pushed));
  }

  /** `new_tuple`: a tuple push cannot fail, so the tuple holds every element in order. */
  method NewTuple(values: seq<Value>) returns (r: Result<Value, Error>)
    ensures r.Ok?
    ensures r.value.Tuple? && r.value.items == values
  {
    var tuple: seq<Value> := [];
    var i := 0;
    while i < |values|
      invariant 0 <= i <= |values|
      invariant tuple == values[..i]
    {
      tuple := tuple + [values[i]];
      i := i + 1;
    }
    assert tuple == values;
    return Ok(Tuple(tuple));
  }

  ghost predicate StructureRejectsAt(g: Gadgets, fields: seq<(string, Value)>, k: nat)
    requires k < |fields|
  {
    g.structurePush(fields[..k], fields[k].0, fields[k].1).Some?
  }

  /** `new_structure`: like `new_array`, with (name, value) fields. */
  method NewStructure(g: Gadgets, fields: seq<(string, Value)>) returns (r: Result<Value, Error>)
    ensures r.Ok? <==> forall k :: 0 <= k < |fields| ==> !StructureRejectsAt(g, fields, k)
    ensures r.Ok? ==> r.value == Structure(fields)
    ensures r.Err? ==> exists k :: 0 <= k < |fields| && StructureRejectsAt(g, fields, k)
                                   && (forall j :: 0 <= j < k ==> !StructureRejectsAt(g, fields, j))
                                   && r.error == StructureFailure(g.structurePush(fields[..k], fields[k].0, fields[k].1).value)
  {
    var structure: seq<(string, Value)> := [];
    var i := 0;
    while i < |fields|
      invariant 0 <= i <= |fields|
      invariant structure == fields[..i]
      invariant forall j :: 0 <= j < i ==> !StructureRejectsAt(g, fields, j)
    {
      match g.structurePush(structure, fields[i].0, fields[i].1)
      case Some(e) =>
        assert StructureRejectsAt(g, fields, i);
        return Err(StructureFailure(e));
      case None =>
        structure := structure + [fields[i]];
        i := i + 1;
    }
    assert structure == fields;
    return Ok(Structure(structure));
  }

  // ---------------------------------------------------------------------
  // Types
  // ---------------------------------------------------------------------

  /** `type_variant`: Unit and Enumeration are decided here, the rest by the payload. */
  function TypeVariantOf(g: Gadgets, v: Value): (t: TypeVariant)
    ensures v.Unit? ==> t == UnitType
    ensures v.Enumeration? ==> t == IntegerUnsigned(8)
    ensures v.Boolean? ==> t == g.booleanType(v.boolean)
    ensures v.Integer? ==> t == g.integerType(v.integer)
    ensures v.Array? ==> t == g.arrayType(v.elements)
    ensures v.Tuple? ==> t == g.tupleType(v.items)
    ensures v.Structure? ==> t == g.structureType(v.fields)
  {
    match v
    case Unit => UnitType
    case Boolean(b) => g.booleanType(b)
    case Integer(i) => g.integerType(i)
    case Array(a) => g.arrayType(a)
    case Tuple(t) => g.tupleType(t)
    case Structure(s) => g.structureType(s)
    case Enumeration(_) => IntegerUnsigned(8)
  }

  /** `has_the_same_type_as`. */
  function HasTheSameTypeAs(g: Gadgets, v: Value, other: Value): bool {
    match (v, other)
    case (Unit, Unit) => true
    case (Boolean(_), Boolean(_)) => true
    case (Integer(a), Integer(b)) => g.integerSameType(a, b)
    case (Array(a), Array(b)) => g.arraySameType(a, b)
    case (Tuple(a), Tuple(b)) => g.tupleSameType(a, b)
    case (Structure(a), Structure(b)) => g.structureSameType(a, b)
    case _ => false
  }

  // ---------------------------------------------------------------------
  // Operators
  // ---------------------------------------------------------------------

  function Or(g: Gadgets, left: Value, right: Value): (r: Result<Value, Error>)
    ensures BooleanBinaryOutcome("or", g.booleanOr, left, right, r)
  {
    BooleanBinary("or", g.booleanOr, left, right)
  }

  function Xor(g: Gadgets, left: Value, right: Value): (r: Result<Value, Error>)
    ensures BooleanBinaryOutcome("xor", g.booleanXor, left, right, r)
  {
    BooleanBinary("xor", g.booleanXor, left, right)
  }

  function And(g: Gadgets, left: Value, right: Value): (r: Result<Value, Error>)
    ensures BooleanBinaryOutcome("and", g.booleanAnd, left, right, r)
  {
    BooleanBinary("and", g.booleanAnd, left, right)
  }

  function Equals(g: Gadgets, left: Value, right: Value): (r: Result<Value, Error>)
    ensures EqualityOutcome("equals", true, g.booleanEquals, g.integerEquals, g.booleanFromBool, left, right, r)
  {
    Equality("equals", true, g.booleanEquals, g.integerEquals, g.booleanFromBool, left, right)
  }

  function NotEquals(g: Gadgets, left: Value, right: Value): (r: Result<Value, Error>)
    ensures EqualityOutcome("not_equals", false, g.booleanNotEquals, g.integerNotEquals, g.booleanFromBool, left, right, r)
  {
    Equality("not_equals", false, g.booleanNotEquals, g.integerNotEquals, g.booleanFromBool, left, right)
  }

  function GreaterEquals(g: Gadgets, left: Value, right: Value): (r: Result<Value, Error>)
    ensures ComparisonOutcome("greater_equals", g.integerGreaterEquals, left, right, r)
  {
    Comparison("greater_equals", g.integerGreaterEquals, left, right)
  }

  function LesserEquals(g: Gadgets, left: Value, right: Value): (r: Result<Value, Error>)
    ensures ComparisonOutcome("lesser_equals", g.integerLesserEquals, left, right, r)
  {
    Comparison("lesser_equals", g.integerLesserEquals, left, right)
  }

  function Greater(g: Gadgets, left: Value, right: Value): (r: Result<Value, Error>)
    ensures ComparisonOutcome("greater", g.integerGreater, left, right, r)
  {
    Comparison("greater", g.integerGreater, left, right)
  }

  function Lesser(g: Gadgets, left: Value, right: Value): (r: Result<Value, Error>)
    ensures ComparisonOutcome("lesser", g.integerLesser, left, right, r)
  {
    Comparison("lesser", g.integerLesser, left, right)
  }

  function Add(g: Gadgets, left: Value, right: Value): (r: Result<Value, Error>)
    ensures ArithmeticOutcome("add", g.integerAdd, left, right, r)
  {
    Arithmetic("add", g.integerAdd, left, right)
  }

  function Subtract(g: Gadgets, left: Value, right: Value): (r: Result<Value, Error>)
    ensures ArithmeticOutcome("subtract", g.integerSubtract, left, right, r)
  {
    Arithmetic("subtract", g.integerSubtract, left, right)
  }

  function Multiply(g: Gadgets, left: Value, right: Value): (r: Result<Value, Error>)
    ensures ArithmeticOutcome("multiply", g.integerMultiply, left, right, r)
  {
    Arithmetic("multiply", g.integerMultiply, left, right)
  }

  function Divide(g: Gadgets, left: Value, right: Value): (r: Result<Value, Error>)
    ensures ArithmeticOutcome("divide", g.integerDivide, left, right, r)
  {
    Arithmetic("divide", g.integerDivide, left, right)
  }

  function Modulo(g: Gadgets, left: Value, right: Value): (r: Result<Value, Error>)
    ensures ArithmeticOutcome("modulo", g.integerModulo, left, right, r)
  {
    Arithmetic("modulo", g.integerModulo, left, right)
  }

  /** `negate`: Integer only; an Integer result on success. */
  function Negate(g: Gadgets, v: Value): (r: Result<Value, Error>)
    ensures !v.Integer? ==> r == Err(ExpectedInteger("negate", v))
    ensures v.Integer? ==> (r.Ok? <==> g.integerNegate(v.integer).Ok?)
    ensures r.Ok? ==> r.value == Integer(g.integerNegate(v.integer).value)
    ensures v.Integer? && r.Err? ==> r.error == IntegerFailure(g.integerNegate(v.integer).error)
  {
    match v
    case Integer(i) => LiftInteger(g.integerNegate(i))
    case _ => Err(ExpectedInteger("negate", v))
  }

  /** `not`: Boolean only; a Boolean result on success. */
  function Not(g: Gadgets, v: Value): (r: Result<Value, Error>)
    ensures !v.Boolean? ==> r == Err(ExpectedBoolean("not", v))
    ensures v.Boolean? ==> (r.Ok? <==> g.booleanNot(v.boolean).Ok?)
    ensures r.Ok? ==> r.value == Boolean(g.booleanNot(v.boolean).value)
    ensures v.Boolean? && r.Err? ==> r.error == BooleanFailure(g.booleanNot(v.boolean).error)
  {
    match v
    case Boolean(b) => LiftBoolean(g.booleanNot(b))
    case _ => Err(ExpectedBoolean("not", v))
  }

  /** `cast`: Integer only; an Integer result on success. */
  function Cast(g: Gadgets, v: Value, target: TypeVariant): (r: Result<Value, Error>)
    ensures !v.Integer? ==> r == Err(ExpectedInteger("cast", v))
    ensures v.Integer? ==> (r.Ok? <==> g.integerCast(v.integer, target).Ok?)
    ensures r.Ok? ==> r.value == Integer(g.integerCast(v.integer, target).value)
    ensures v.Integer? && r.Err? ==> r.error == IntegerFailure(g.integerCast(v.integer, target).error)
  {
    match v
    case Integer(i) => LiftInteger(g.integerCast(i, target))
    case _ => Err(ExpectedInteger("cast", v))
  }
}
