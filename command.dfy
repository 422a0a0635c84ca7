/** The undoable calculator: commands that know how to execute and undo themselves, and a
    calculator that keeps the current value and a stack of the commands it has executed. */
module Command {
  /** `int` on the platforms the example targets: 32 bits, and overflow is undefined behaviour,
      so every value the calculator computes must be representable. */
  const IntMin: int := -0x8000_0000
  const IntMax: int := 0x7fff_ffff

  predicate IsInt(i: int)
  {
    IntMin <= i <= IntMax
  }

  /** The concrete commands `Add(operand)` and `Subtract(operand)`. */
  datatype CalculatorCommand = Add(operand: int) | Subtract(operand: int)

  function Execute(c: CalculatorCommand, i: int): int
  {
    match c
    case Add(n) => i + n
    case Subtract(n) => i - n
  }

  function Undo(c: CalculatorCommand, i: int): int
  {
    match c
    case Add(n) => i - n
    case Subtract(n) => i + n
  }

  /** Each command's `undo` is the inverse of its `execute`, in both orders. */
  lemma UndoInvertsExecute(c: CalculatorCommand, i: int)
    ensures Undo(c, Execute(c, i)) == i
    ensures Execute(c, Undo(c, i)) == i
  {
  }

  /** The value the calculator holds after executing the commands of `stack`, bottom first,
      starting from 0. */
  function Replay(stack: seq<CalculatorCommand>): int
  {
    if stack == [] then 0 else Execute(stack[|stack| - 1], Replay(stack[..|stack| - 1]))
  }

  /** The constructors of `Add` and `Subtract` take an `int` operand. */
  predicate WellFormed(c: CalculatorCommand)
  {
    IsInt(c.operand)
  }

  /** Every stacked command was built from an `int`, and every intermediate value of replaying
      `stack` is a representable `int`. */
  ghost predicate Representable(stack: seq<CalculatorCommand>)
  {
    (forall k :: 0 <= k < |stack| ==> WellFormed(stack[k]))
    && forall k :: 0 <= k <= |stack| ==> IsInt(Replay(stack[..k]))
  }

  /** Undoing the commands of `stack` from the top down, starting from `i`. */
  function UndoAll(stack: seq<CalculatorCommand>, i: int): int
  {
    if stack == [] then i else UndoAll(stack[..|stack| - 1], Undo(stack[|stack| - 1], i))
  }

  /** Undoing every command on the stack brings the calculator back to 0. */
  lemma {:induction false} UndoAllRestoresZero(stack: seq<CalculatorCommand>)
    ensures UndoAll(stack, Replay(stack)) == 0
  {
    if stack != [] {
      var init, top := stack[..|stack| - 1], stack[|stack| - 1];
      UndoInvertsExecute(top, Replay(init));
      UndoAllRestoresZero(init);
    }
  }

  /** Undoing the top `n` commands gives the value of the remaining stack. */
  lemma {:induction false} UndoTopRestoresPrefix(stack: seq<CalculatorCommand>, n: nat)
    requires n <= |stack|
    ensures UndoAll(stack[|stack| - n..], Replay(stack)) == Replay(stack[..|stack| - n])
  {
    if n > 0 {
      var init, top := stack[..|stack| - 1], stack[|stack| - 1];
      assert stack[|stack| - n..][..n - 1] == init[|init| - (n - 1)..];
      assert stack[|stack| - n..][n - 1] == top;
      assert init[..|init| - (n - 1)] == stack[..|stack| - n];
      UndoInvertsExecute(top, Replay(init));
      UndoTopRestoresPrefix(init, n - 1);
    } else {
      assert stack[..|stack|] == stack;
    }
  }

  class Calculator {
    var current: int
    var stack: seq<CalculatorCommand>

    /** The current value is what the stacked commands compute from 0, through representable
        values only. */
    ghost predicate Valid()
      reads this
    {
      current == Replay(stack) && Representable(stack)
    }

    /** `Calculator{}`: value 0, no commands. */
    constructor()
      ensures Valid() && current == 0 && stack == []
    {
      current, stack := 0, [];
    }

    /** `compute(command)`: executes the command on the current value and pushes it. */
    method Compute(command: CalculatorCommand)
      requires Valid() && WellFormed(command) && IsInt(Execute(command, current))
      modifies this
      ensures Valid()
      ensures current == Execute(command, old(current)) && stack == old(stack) + [command]
    {
      current := Execute(command, current);
      stack := stack + [command];
      assert stack[..|stack| - 1] == old(stack);
      forall k | 0 <= k <= |stack|
        ensures IsInt(Replay(stack[..k]))
      {
        if k < |stack| {
          assert stack[..k] == old(stack)[..k];
        } else {
          assert stack[..k] == stack;
        }
      }
    }

    /** `undoLast()`: with an empty stack nothing happens; otherwise the top command is popped
        and undone. */
    method UndoLast()
      requires Valid()
      modifies this
      ensures Valid()
      ensures old(stack) == [] ==> current == old(current) && stack == old(stack)
      ensures old(stack) != [] ==>
                stack == old(stack)[..|old(stack)| - 1] && current == Undo(old(stack)[|old(stack)| - 1], old(current))
    {
      if stack == [] {
        return;
      }
      var command := stack[|stack| - 1];
      stack := stack[..|stack| - 1];
      UndoInvertsExecute(command, Replay(stack));
      current := Undo(command, current);
      forall k | 0 <= k <= |stack|
        ensures IsInt(Replay(stack[..k]))
      {
        assert stack[..k] == old(stack)[..k];
      }
    }

    /** `result()`: the current value; nothing changes. */
    method Result() returns (r: int)
      requires Valid()
      ensures r == Replay(stack) && IsInt(r)
    {
      assert stack[..|stack|] == stack;
      r := current;
    }

    /** `clear()`: value 0 and an empty stack. */
    method Clear()
      modifies this
      ensures Valid() && current == 0 && stack == []
    {
      current := 0;
      stack := [];
    }
  }

  /** `compute` followed by `undoLast` on a calculator in any reachable state restores both the
      value and the stack. */
  method ComputeThenUndo(calculator: Calculator, c: CalculatorCommand)
    requires calculator.Valid() && WellFormed(c) && IsInt(Execute(c, calculator.current))
    modifies calculator
    ensures calculator.Valid()
    ensures calculator.current == old(calculator.current) && calculator.stack == old(calculator.stack)
  {
    calculator.Compute(c);
    calculator.UndoLast();
    assert calculator.stack == old(calculator.stack);
  }

  /** The usage example: +3, +7, -4, -2 give 3, 10, 6, 4, and undoing the last gives 6. */
  method UsageExample() returns (results: seq<int>, final: int)
    ensures results == [3, 10, 6, 4] && final == 6
  {
    var calculator := new Calculator();
    var r;
    calculator.Compute(Add(3));
    assert calculator.current == 3 && calculator.stack == [Add(3)];
    r := calculator.Result();
    results := [r];
    calculator.Compute(Add(7));
    assert calculator.current == 10 && calculator.stack == [Add(3), Add(7)];
    r := calculator.Result();
    results := results + [r];
    calculator.Compute(Subtract(4));
    assert calculator.current == 6 && calculator.stack == [Add(3), Add(7), Subtract(4)];
    r := calculator.Result();
    results := results + [r];
    calculator.Compute(Subtract(2));
    r := calculator.Result();
    results := results + [r];
    calculator.UndoLast();
    final := calculator.Result();
  }
}
