/**
  Properties of the interpreter's value layer: which variant pairs share a
  type, and a typing table for the binary operators that every operator's
  dispatch is checked against.
 */
module ValueProperties {
  import opened Wrappers
  import V = Values

  /** The variant of a value, forgetting its payload. */
  datatype Variant = UnitVariant | BooleanVariant | IntegerVariant | ArrayVariant
                   | TupleVariant | StructureVariant | EnumerationVariant

  function VariantOf(v: V.Value): Variant {
    match v
    case Unit => UnitVariant
    case Boolean(_) => BooleanVariant
    case Integer(_) => IntegerVariant
    case Array(_) => ArrayVariant
    case Tuple(_) => TupleVariant
    case Structure(_) => StructureVariant
    case Enumeration(_) => EnumerationVariant
  }

  /** Any two Units, and any two Booleans whatever their payloads, have the same type. */
  lemma UnitsAndBooleansShareTheirType(g: V.Gadgets, a: bool, b: bool)
    ensures V.HasTheSameTypeAs(g, V.Unit, V.Unit)
    ensures V.HasTheSameTypeAs(g, V.Boolean(a), V.Boolean(b))
  {
  }

  /** Values of different variants never have the same type, nor do two
      Enumerations; for Units and Booleans the variant alone decides. */
  lemma SameTypeFollowsVariant(g: V.Gadgets, v: V.Value, w: V.Value)
    ensures VariantOf(v) != VariantOf(w) ==> !V.HasTheSameTypeAs(g, v, w)
    ensures v.Enumeration? ==> !V.HasTheSameTypeAs(g, v, w)
    ensures (v.Unit? || v.Boolean?) ==> (V.HasTheSameTypeAs(g, v, w) <==> VariantOf(v) == VariantOf(w))
  {
  }

  /** Every Enumeration reports the type u8 whatever its discriminant, yet no
      two Enumerations are said to have the same type. */
  lemma EnumerationTypes(g: V.Gadgets, n: nat, m: nat)
    ensures V.TypeVariantOf(g, V.Enumeration(n)) == V.TypeVariantOf(g, V.Enumeration(m)) == V.IntegerUnsigned(8)
    ensures !V.HasTheSameTypeAs(g, V.Enumeration(n), V.Enumeration(m))
    ensures V.TypeVariantOf(g, V.Unit) == V.UnitType
  {
  }

  /** Two Units compare equal and not unequal, unless allocating the constant fails. */
  lemma UnitEquality(g: V.Gadgets)
    ensures g.booleanFromBool(true).None? ==> V.Equals(g, V.Unit, V.Unit) == Ok(V.Boolean(true))
    ensures g.booleanFromBool(false).None? ==> V.NotEquals(g, V.Unit, V.Unit) == Ok(V.Boolean(false))
    ensures g.booleanFromBool(true).Some? ==> V.Equals(g, V.Unit, V.Unit) == Err(V.BooleanFailure(g.booleanFromBool(true).value))
    ensures g.booleanFromBool(false).Some? ==> V.NotEquals(g, V.Unit, V.Unit) == Err(V.BooleanFailure(g.booleanFromBool(false).value))
  {
  }

  // -------------------------------------------------------------------------
  // The binary operators as one table
  // -------------------------------------------------------------------------

  datatype Operator = Or | Xor | And | Equals | NotEquals
                    | GreaterEquals | LesserEquals | Greater | Lesser
                    | Add | Subtract | Multiply | Divide | Modulo

  /** Operand kinds the operators are defined on. */
  datatype Kind = BooleanKind | IntegerKind

  predicate HasKind(v: V.Value, k: Kind) {
    match k
    case BooleanKind => v.Boolean?
    case IntegerKind => v.Integer?
  }

  /** The operator's name as it appears in its errors. */
  function Name(op: Operator): string {
    match op
    case Or => "or"
    case Xor => "xor"
    case And => "and"
    case Equals => "equals"
    case NotEquals => "not_equals"
    case GreaterEquals => "greater_equals"
    case LesserEquals => "lesser_equals"
    case Greater => "greater"
    case Lesser => "lesser"
    case Add => "add"
    case Subtract => "subtract"
    case Multiply => "multiply"
    case Divide => "divide"
    case Modulo => "modulo"
  }

  /** The one kind both operands must have; `None` for the equalities, which
      accept two Units, two Booleans or two Integers. */
  function OperandKind(op: Operator): Option<Kind> {
    match op
    case Or | Xor | And => Some(BooleanKind)
    case Equals | NotEquals => None
    case _ => Some(IntegerKind)
  }

  function ResultKind(op: Operator): Kind {
    match op
    case Add | Subtract | Multiply | Divide | Modulo => IntegerKind
    case _ => BooleanKind
  }

  /** The error blaming `v` for not being of kind `k`. */
  function Expected(k: Kind, name: string, v: V.Value): V.Error {
    match k
    case BooleanKind => V.ExpectedBoolean(name, v)
    case IntegerKind => V.ExpectedInteger(name, v)
  }

  function Apply(g: V.Gadgets, op: Operator, left: V.Value, right: V.Value): Result<V.Value, V.Error> {
    match op
    case Or => V.Or(g, left, right)
    case Xor => V.Xor(g, left, right)
    case And => V.And(g, left, right)
    case Equals => V.Equals(g, left, right)
    case NotEquals => V.NotEquals(g, left, right)
    case GreaterEquals => V.GreaterEquals(g, left, right)
    case LesserEquals => V.LesserEquals(g, left, right)
    case Greater => V.Greater(g, left, right)
    case Lesser => V.Lesser(g, left, right)
    case Add => V.Add(g, left, right)
    case Subtract => V.Subtract(g, left, right)
    case Multiply => V.Multiply(g, left, right)
    case Divide => V.Divide(g, left, right)
    case Modulo => V.Modulo(g, left, right)
  }

  /** Operand pairs an operator lets through to a gadget. */
  predicate Accepts(op: Operator, left: V.Value, right: V.Value) {
    match OperandKind(op)
    case Some(k) => HasKind(left, k) && HasKind(right, k)
    case None => (left.Unit? && right.Unit?) || (left.Boolean? && right.Boolean?) || (left.Integer? && right.Integer?)
  }

  /** The error an operator reports for operands it does not accept. */
  function Rejection(op: Operator, left: V.Value, right: V.Value): V.Error {
    match OperandKind(op)
    case Some(k) => if !HasKind(left, k) then Expected(k, Name(op), left) else Expected(k, Name(op), right)
    case None =>
      if left.Boolean? then V.ExpectedBoolean(Name(op), right)
      else if left.Integer? then V.ExpectedInteger(Name(op), right)
      else V.OperandTypesMismatch(left, right)
  }

  /** Typing of every binary operator: it succeeds only on operands it
      accepts and then yields a value of its result kind; on operands it
      does not accept it fails with exactly the table's rejection. */
  lemma OperatorTyping(g: V.Gadgets, op: Operator, left: V.Value, right: V.Value)
    ensures Apply(g, op, left, right).Ok? ==> Accepts(op, left, right)
    ensures Apply(g, op, left, right).Ok? ==> HasKind(Apply(g, op, left, right).value, ResultKind(op))
    ensures !Accepts(op, left, right) ==> Apply(g, op, left, right) == Err(Rejection(op, left, right))
  {
  }
}
