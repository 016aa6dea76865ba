/**
  Two instructions of the Zinc virtual machine, as transitions on its
  evaluation stack and data memory.

  The stack is a sequence whose last element is the top. Memory is a map
  from address to value with a fixed capacity. Field elements are
  modelled as integers. An instruction that fails leaves the machine as it
  was when the failing step happened, since a `?` in the source returns
  without undoing the pops and stores made before it.
 */
module Vm {
  import opened Wrappers

  datatype RuntimeError = StackUnderflow | OutOfBounds(address: nat)

  datatype Machine = Machine(stack: seq<int>, memory: map<nat, int>, capacity: nat)

  /** The machine an instruction leaves behind, and the error it stopped with, if any. */
  datatype Outcome = Outcome(machine: Machine, fault: Option<RuntimeError>)

  /** `vm.pop()`: the top value and the machine without it; fails on an empty stack. */
  function Pop(m: Machine): (r: Result<(int, Machine), RuntimeError>)
    ensures r.Err? <==> |m.stack| == 0
    ensures r.Err? ==> r.error == StackUnderflow
    ensures r.Ok? ==> r.value.1.stack + [r.value.0] == m.stack
    ensures r.Ok? ==> r.value.1.memory == m.memory && r.value.1.capacity == m.capacity
  {
    if |m.stack| == 0 then Err(StackUnderflow)
    else Ok((m.stack[|m.stack| - 1], m.(stack := m.stack[..|m.stack| - 1])))
  }

  /** `vm.push(value)`. */
  function Push(m: Machine, value: int): (r: Machine)
    ensures |r.stack| == |m.stack| + 1 && r.stack[..|m.stack|] == m.stack && r.stack[|m.stack|] == value
    ensures r.memory == m.memory && r.capacity == m.capacity
  {
    m.(stack := m.stack + [value])
  }

  /** `vm.store(address, value)`: fails outside the memory's capacity. */
  function Store(m: Machine, address: nat, value: int): (r: Result<Machine, RuntimeError>)
    ensures r.Ok? <==> address < m.capacity
    ensures r.Err? ==> r.error == OutOfBounds(address)
    ensures r.Ok? ==> r.value.stack == m.stack && r.value.capacity == m.capacity
    ensures r.Ok? ==> address in r.value.memory && r.value.memory[address] == value
    ensures r.Ok? ==> forall a :: a != address ==> (a in r.value.memory <==> a in m.memory)
    ensures r.Ok? ==> forall a :: a != address && a in m.memory ==> r.value.memory[a] == m.memory[a]
  {
    if address < m.capacity then Ok(m.(memory := m.memory[address := value])) else Err(OutOfBounds(address))
  }

  // -------------------------------------------------------------------------
  // ConditionalSelect
  // -------------------------------------------------------------------------

  /** The value the selection gadget yields: a nonzero condition picks `ifTrue`. */
  function Selected(condition: int, ifTrue: int, ifFalse: int): int {
    if condition != 0 then ifTrue else ifFalse
  }

  /**
    Pops the condition, then the value for true, then the value for false,
    and pushes the selected one. The three operands are the top three
    entries, condition on top; everything below them is left in place. On
    a stack of fewer than three entries the pops that succeed empty it and
    nothing is pushed.
   */
  function ConditionalSelect(m: Machine): (o: Outcome)
    ensures o.machine.memory == m.memory && o.machine.capacity == m.capacity
    ensures |m.stack| >= 3 ==>
              var n := |m.stack|;
              && o.fault.None?
              && o.machine.stack == m.stack[..n - 3] + [Selected(m.stack[n - 1], m.stack[n - 2], m.stack[n - 3])]
    ensures |m.stack| < 3 ==> o == Outcome(m.(stack := []), Some(StackUnderflow))
  {
    match Pop(m)
    case Err(e) => Outcome(m, Some(e))
    case Ok((condition, m1)) =>
      match Pop(m1)
      case Err(e) => Outcome(m1, Some(e))
      case Ok((ifTrue, m2)) =>
        match Pop(m2)
        case Err(e) => Outcome(m2, Some(e))
        case Ok((ifFalse, m3)) =>
          Outcome(Push(m3, Selected(condition, ifTrue, ifFalse)), None)
  }

  // -------------------------------------------------------------------------
  // StoreSequence
  // -------------------------------------------------------------------------

  /** `after` is `before` with `values` written to `base`, `base + 1`, ...
      in order, and every other address left as it was. */
  ghost predicate Placed(before: map<nat, int>, after: map<nat, int>, base: nat, values: seq<int>) {
    && (forall a :: a in after <==> a in before || base <= a < base + |values|)
    && (forall j :: 0 <= j < |values| ==> base + j in after && after[base + j] == values[j])
    && (forall a :: a in before && !(base <= a < base + |values|) ==> after[a] == before[a])
  }

  /**
    What `StoreSequence { address, len }` does to machine `m`. The top
    `len` entries are moved to addresses `address .. address + len`, the
    deepest of them to `address`, so memory holds them in push order.
    Errors come from the first iteration that fails:
    - an empty stack (when `len > 0`) underflows before anything happens;
    - if the last address is beyond the capacity, the first store fails,
      after one pop;
    - a stack shorter than `len` underflows after its entries have been
      stored at the top end of the range.
   */
  ghost predicate StoreSequenceOutcome(m: Machine, address: nat, len: nat, o: Outcome) {
    var s, n := m.stack, |m.stack|;
    && o.machine.capacity == m.capacity
    && (len == 0 ==> o == Outcome(m, None))
    && (len > 0 && n == 0 ==> o == Outcome(m, Some(StackUnderflow)))
    && (len > 0 && n > 0 && address + len > m.capacity ==>
          o == Outcome(m.(stack := s[..n - 1]), Some(OutOfBounds(address + len - 1))))
    && (len > 0 && len <= n && address + len <= m.capacity ==>
          && o.fault.None?
          && o.machine.stack == s[..n - len]
          && Placed(m.memory, o.machine.memory, address, s[n - len..]))
    && (len > n && address + len <= m.capacity ==>
          && o.fault == Some(StackUnderflow)
          && o.machine.stack == []
          && Placed(m.memory, o.machine.memory, address + len - n, s))
  }

  /** Writing `v` just above a range and then the range itself is writing the range and `[v]`. */
  lemma {:induction false} PlacedAbove(before: map<nat, int>, after: map<nat, int>, base: nat, values: seq<int>, v: int)
    requires Placed(before[base + |values| := v], after, base, values)
    ensures Placed(before, after, base, values + [v])
  {
    var vs := values + [v];
    forall j | 0 <= j < |vs|
      ensures base + j in after && after[base + j] == vs[j]
    {
      if j < |values| {
        assert vs[j] == values[j];
      }
    }
  }

  /**
    Iterations `i .. len` of the store loop: each pops a value and stores it
    at `address + len - i - 1`, so iteration `i` fills the highest address
    not yet written. What is left is the loop for the lower `len - i`
    addresses.
   */
  function StoreIterations(m: Machine, address: nat, len: nat, i: nat): (o: Outcome)
    requires i <= len
    ensures StoreSequenceOutcome(m, address, len - i, o)
    decreases len - i
  {
    if i == len then Outcome(m, None)
    else match Pop(m)
      case Err(e) => Outcome(m, Some(e))
      case Ok((value, m1)) =>
        match Store(m1, address + len - i - 1, value)
        case Err(e) => Outcome(m1, Some(e))
        case Ok(m2) =>
          var o := StoreIterations(m2, address, len, i + 1);
          StoreStep(m, address, len - i, value, m1, m2, o);
          o
  }

  /** One iteration followed by the rest of the loop is the whole loop. */
  lemma {:induction false} StoreStep(m: Machine, address: nat, r: nat, value: int, m1: Machine, m2: Machine, o: Outcome)
    requires r > 0 && Pop(m) == Ok((value, m1))
    requires Store(m1, address + r - 1, value) == Ok(m2)
    requires StoreSequenceOutcome(m2, address, r - 1, o)
    ensures StoreSequenceOutcome(m, address, r, o)
  {
    var s, n := m.stack, |m.stack|;
    assert m2 == m.(stack := s[..n - 1], memory := m.memory[address + r - 1 := s[n - 1]]);
    if r <= n {
      StoreStepFits(m, address, r, m2, o);
    } else {
      StoreStepShort(m, address, r, m2, o);
    }
  }

  /** The step case of `StoreStep` when the stack holds all `r` values. */
  lemma {:induction false} StoreStepFits(m: Machine, address: nat, r: nat, m2: Machine, o: Outcome)
    requires 0 < r <= |m.stack| && address + r <= m.capacity
    requires m2 == m.(stack := m.stack[..|m.stack| - 1], memory := m.memory[address + r - 1 := m.stack[|m.stack| - 1]])
    requires StoreSequenceOutcome(m2, address, r - 1, o)
    ensures o.machine.capacity == m.capacity && o.fault.None?
    ensures o.machine.stack == m.stack[..|m.stack| - r]
    ensures Placed(m.memory, o.machine.memory, address, m.stack[|m.stack| - r..])
  {
    var s, n := m.stack, |m.stack|;
    var below := s[..n - 1][n - 1 - (r - 1)..];
    if r == 1 {
      assert o.machine == m2;
      assert s[n - 1..] == [] + [s[n - 1]];
      PlacedAbove(m.memory, o.machine.memory, address, [], s[n - 1]);
    } else {
      assert o.fault.None? && o.machine.stack == s[..n - 1][..n - 1 - (r - 1)];
      assert s[..n - 1][..n - 1 - (r - 1)] == s[..n - r];
      assert Placed(m2.memory, o.machine.memory, address, below);
      assert s[n - r..] == below + [s[n - 1]];
      PlacedAbove(m.memory, o.machine.memory, address, below, s[n - 1]);
    }
  }

  /** The step case of `StoreStep` when the stack runs out first. */
  lemma {:induction false} StoreStepShort(m: Machine, address: nat, r: nat, m2: Machine, o: Outcome)
    requires 0 < |m.stack| < r && address + r <= m.capacity
    requires m2 == m.(stack := m.stack[..|m.stack| - 1], memory := m.memory[address + r - 1 := m.stack[|m.stack| - 1]])
    requires StoreSequenceOutcome(m2, address, r - 1, o)
    ensures o.machine.capacity == m.capacity && o.fault == Some(StackUnderflow) && o.machine.stack == []
    ensures Placed(m.memory, o.machine.memory, address + r - |m.stack|, m.stack)
  {
    var s, n := m.stack, |m.stack|;
    if n == 1 {
      assert o == Outcome(m2, Some(StackUnderflow));
      assert s == [] + [s[0]];
      PlacedAbove(m.memory, o.machine.memory, address + r - 1, [], s[0]);
    } else {
      assert Placed(m2.memory, o.machine.memory, address + r - n, s[..n - 1]);
      assert s == s[..n - 1] + [s[n - 1]];
      PlacedAbove(m.memory, o.machine.memory, address + r - n, s[..n - 1], s[n - 1]);
    }
  }

  /** `StoreSequence::execute`: the loop over `i` in `0 .. len`. */
  function StoreSequence(m: Machine, address: nat, len: nat): (o: Outcome)
    ensures StoreSequenceOutcome(m, address, len, o)
  {
    StoreIterations(m, address, len, 0)
  }
}
