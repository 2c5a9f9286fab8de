/**
  The operand-stack words both engines share: `dup`, `drop`, `swap` and the
  `binaryOperator` template (forth_vm.cc, forth_vm.h, ForthInterpreter.cc,
  ForthInterpreter.h). A stack is a sequence whose last element is the top,
  as in the source's `std::vector<int>` with `back()` as the top.
 */
module StackOps {
  import opened Wrappers
  import opened Arith

  /** `dup`: push a copy of the top; nothing happens on an empty stack. */
  function Dup(s: seq<int>): (r: seq<int>)
    ensures |s| == 0 ==> r == s
    ensures |s| > 0 ==> |r| == |s| + 1 && r[..|s|] == s && r[|s|] == s[|s| - 1]
  {
    if |s| == 0 then s else s + [s[|s| - 1]]
  }

  /** `drop`: remove the top; nothing happens on an empty stack. */
  function Drop(s: seq<int>): (r: seq<int>)
    ensures |s| == 0 ==> r == s
    ensures |s| > 0 ==> |r| == |s| - 1 && s == r + [s[|s| - 1]]
  {
    if |s| == 0 then s else s[..|s| - 1]
  }

  /** `swap`: exchange the two top elements; a stack of fewer than two is left alone. */
  function Swap(s: seq<int>): (r: seq<int>)
    ensures |r| == |s|
    ensures |s| < 2 ==> r == s
    ensures |s| >= 2 ==> r[|s| - 1] == s[|s| - 2] && r[|s| - 2] == s[|s| - 1]
    ensures forall i :: 0 <= i < |s| - 2 ==> r[i] == s[i]
  {
    if |s| < 2 then s else s[..|s| - 2] + [s[|s| - 1], s[|s| - 2]]
  }

  /** DROP undoes DUP on every stack, the empty one included. */
  lemma DropAfterDup(s: seq<int>)
    ensures Drop(Dup(s)) == s
  {
  }

  /** SWAP is its own inverse. */
  lemma SwapTwice(s: seq<int>)
    ensures Swap(Swap(s)) == s
  {
  }

  datatype BinaryOutcome = Underflow | Undefined | Pushed(stack: seq<int>)

  /**
    `binaryOperator(op)`: with fewer than two values, report "not enough
    values" and leave the stack alone; otherwise pop `b` (the top) and then
    `a`, and push `op(a, b)`. `Undefined` is a C++ result with undefined
    behaviour.
   */
  function Binary(op: BinOp, s: seq<int>): (r: BinaryOutcome)
    ensures r.Underflow? <==> |s| < 2
    ensures r.Undefined? ==> ApplyBinary(op, s[|s| - 2], s[|s| - 1]).None?
    ensures r.Pushed? ==>
      |r.stack| == |s| - 1 &&
      r.stack[..|s| - 2] == s[..|s| - 2] &&
      Some(r.stack[|s| - 2]) == ApplyBinary(op, s[|s| - 2], s[|s| - 1])
  {
    if |s| < 2 then Underflow
    else
      var b, a := s[|s| - 1], s[|s| - 2];
      match ApplyBinary(op, a, b)
      case None => Undefined
      case Some(v) => Pushed(s[..|s| - 2] + [v])
  }

  /** The top is the right operand: `10 3 -` leaves 7. */
  lemma TopIsRightOperand(s: seq<int>)
    ensures Binary(Sub, s + [10, 3]) == Pushed(s + [7])
    ensures Binary(Div, s + [7, 2]) == Pushed(s + [3])
    ensures Binary(Lt, s + [1, 2]) == Pushed(s + [1])
  {
    var t := s + [10, 3];
    assert t[..|t| - 2] == s;
    var u := s + [7, 2];
    assert u[..|u| - 2] == s;
    var w := s + [1, 2];
    assert w[..|w| - 2] == s;
  }

  /** Pushing `a` and `b` and then adding leaves `a + b` one level below where `b` was. */
  lemma AddAfterPushes(s: seq<int>, a: int, b: int)
    requires InInt(a + b)
    ensures Binary(Add, s + [a, b]) == Pushed(s + [a + b])
  {
    var t := s + [a, b];
    assert t[..|t| - 2] == s;
  }
}
