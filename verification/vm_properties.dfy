/**
  Short instruction sequences over the two VM instructions and `PushConst`,
  and what they compute: a selection after pushing its operands, the test
  program for `ConditionalSelect`, and a store after pushing its values.
 */
module VmProperties {
  import opened Wrappers
  import opened Vm

  datatype Instruction = PushConst(value: int) | Select | StoreRun(address: nat, len: nat)

  function Execute(m: Machine, instruction: Instruction): Outcome {
    match instruction
    case PushConst(v) => Outcome(Push(m, v), None)
    case Select => ConditionalSelect(m)
    case StoreRun(address, len) => StoreSequence(m, address, len)
  }

  /** Instructions run in order; the first fault stops the program. */
  function RunProgram(m: Machine, program: seq<Instruction>): Outcome
    decreases |program|
  {
    if |program| == 0 then Outcome(m, None)
    else
      var o := Execute(m, program[0]);
      if o.fault.Some? then o else RunProgram(o.machine, program[1..])
  }

  /** Running `p + q` runs `p`, then, if it did not fail, `q` from where `p` stopped. */
  lemma {:induction false} RunConcat(m: Machine, p: seq<Instruction>, q: seq<Instruction>)
    ensures var o := RunProgram(m, p);
            RunProgram(m, p + q) == if o.fault.Some? then o else RunProgram(o.machine, q)
    decreases |p|
  {
    if |p| == 0 {
      assert p + q == q;
    } else {
      assert (p + q)[0] == p[0];
      assert (p + q)[1..] == p[1..] + q;
      var o := Execute(m, p[0]);
      if o.fault.None? {
        RunConcat(o.machine, p[1..], q);
      }
    }
  }

  function Pushes(values: seq<int>): (program: seq<Instruction>)
    ensures |program| == |values|
    ensures forall j :: 0 <= j < |values| ==> program[j] == PushConst(values[j])
  {
    seq(|values|, j requires 0 <= j < |values| => PushConst(values[j]))
  }

  /** Pushing constants never fails and appends them to the stack in order. */
  lemma {:induction false} PushesAppend(m: Machine, values: seq<int>)
    ensures RunProgram(m, Pushes(values)) == Outcome(m.(stack := m.stack + values), None)
    decreases |values|
  {
    if |values| > 0 {
      var p := Pushes(values);
      assert p[1..] == Pushes(values[1..]);
      PushesAppend(Push(m, values[0]), values[1..]);
      assert m.stack + [values[0]] + values[1..] == m.stack + values;
    } else {
      assert m.stack + values == m.stack;
    }
  }

  /** Pushing the false value, the true value and the condition, then
      selecting, leaves exactly the selected value on top of the old stack. */
  lemma SelectAfterPushes(m: Machine, condition: int, ifTrue: int, ifFalse: int)
    ensures RunProgram(m, Pushes([ifFalse, ifTrue, condition]) + [Select])
            == Outcome(m.(stack := m.stack + [if condition != 0 then ifTrue else ifFalse]), None)
  {
    PushesAppend(m, [ifFalse, ifTrue, condition]);
    RunConcat(m, Pushes([ifFalse, ifTrue, condition]), [Select]);
    var m3 := m.(stack := m.stack + [ifFalse, ifTrue, condition]);
    assert m3.stack[..|m3.stack| - 3] == m.stack;
  }

  /** The program of the `ConditionalSelect` test: 42 is dropped for
      1337 under condition 0, then 69 chosen over 420 under condition 1,
      leaving 69 on top of 1337. */
  lemma SelectTestProgram(m: Machine)
    requires m.stack == []
    ensures RunProgram(m, Pushes([1337, 42, 0]) + [Select] + Pushes([420, 69, 1]) + [Select])
            == Outcome(m.(stack := [1337, 69]), None)
  {
    var first := Pushes([1337, 42, 0]) + [Select];
    var second := Pushes([420, 69, 1]) + [Select];
    assert first + Pushes([420, 69, 1]) + [Select] == first + second;
    SelectAfterPushes(m, 0, 42, 1337);
    var m1 := m.(stack := [1337]);
    assert RunProgram(m, first) == Outcome(m1, None) by {
      assert m.stack + [1337] == [1337];
    }
    SelectAfterPushes(m1, 1, 69, 420);
    assert RunProgram(m1, second) == Outcome(m.(stack := [1337, 69]), None);
    RunConcat(m, first, second);
  }

  /** Pushing values and storing that many of them puts them in memory in
      push order from `address` on, and gives the stack back as it was. */
  lemma StoreAfterPushes(m: Machine, values: seq<int>, address: nat)
    requires address + |values| <= m.capacity
    ensures var o := RunProgram(m, Pushes(values) + [StoreRun(address, |values|)]);
            && o.fault.None?
            && o.machine.stack == m.stack
            && Placed(m.memory, o.machine.memory, address, values)
  {
    PushesAppend(m, values);
    RunConcat(m, Pushes(values), [StoreRun(address, |values|)]);
    var s := m.stack + values;
    assert s[..|s| - |values|] == m.stack;
    assert s[|s| - |values|..] == values;
  }
}
