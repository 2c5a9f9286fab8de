/**
  `ForthInterpreter` (ForthInterpreter.cc, ForthInterpreter.h), the earlier
  engine: an operand stack, a seven-word table, and numbers tested before the
  table. The functions give its meaning on a value of its state; the class
  `ForthInterpreter` is proved to change its fields as they say.
 */
module Interpreter {
  import opened Lexer
  import opened Arith
  import opened StackOps
  import opened Events

  /** The stack, top last, and the log of what was written. */
  datatype Machine = Machine(stack: seq<int>, out: seq<Output>)

  datatype Outcome = Outcome(m: Machine, status: Status)

  function Init(): Machine {
    Machine([], [])
  }

  /** The closures of the constructor's `functions_` table. */
  datatype Word = Operator(op: BinOp) | DupWord | DropWord | SwapWord

  const Table: map<string, Word> := map[
    "+" := Operator(Add), "-" := Operator(Sub), "*" := Operator(Mul), "/" := Operator(Div),
    "DUP" := DupWord, "DROP" := DropWord, "SWAP" := SwapWord]

  /** `binaryOperator` on the interpreter's stack. */
  function BinaryStep(m: Machine, op: BinOp): Outcome {
    match Binary(op, m.stack)
    case Underflow => Outcome(m.(out := m.out + [Reported(NotEnoughValues)]), Normal)
    case Undefined => Outcome(m, UndefinedBehaviour)
    case Pushed(s) => Outcome(m.(stack := s), Normal)
  }

  function Perform(m: Machine, w: Word): Outcome {
    match w
    case Operator(op) => BinaryStep(m, op)
    case DupWord => Outcome(m.(stack := Dup(m.stack)), Normal)
    case DropWord => Outcome(m.(stack := Drop(m.stack)), Normal)
    case SwapWord => Outcome(m.(stack := Swap(m.stack)), Normal)
  }

  /**
    One iteration of the loop in `run`: a number, else a table word, else an
    unknown word. Output is only appended, and a step that stops the run
    leaves the machine as it was.
   */
  function Step(m: Machine, tok: string): (r: Outcome)
    ensures m.out <= r.m.out
    ensures r.status != Normal ==> r.m == m
  {
    if IsNumber(tok) then
      var v := ParseNumber(tok);
      if InInt(v) then Outcome(m.(stack := m.stack + [v]), Normal) else Outcome(m, OutOfRange)
    else if tok in Table then Perform(m, Table[tok])
    else Outcome(m.(out := m.out + [Reported(UnknownWord(tok))]), Normal)
  }

  function RunTokens(m: Machine, toks: seq<string>): (r: Outcome)
    ensures m.out <= r.m.out
    decreases |toks|
  {
    if toks == [] then Outcome(m, Normal)
    else
      var e := Step(m, toks[0]);
      if e.status != Normal then e else RunTokens(e.m, toks[1..])
  }

  /** `run(input)`: output is only appended, and a blank line changes nothing. */
  function RunLine(m: Machine, line: string): (r: Outcome)
    ensures m.out <= r.m.out
    ensures Tokens(line) == [] ==> r == Outcome(m, Normal)
  {
    RunTokens(m, Tokens(line))
  }

  class ForthInterpreter {
    var stack: seq<int>    // stack_, top last
    var out: seq<Output>   // what was written to cerr

    function State(): Machine
      reads this
    {
      Machine(stack, out)
    }

    constructor()
      ensures State() == Init()
    {
      stack, out := [], [];
    }

    method Dup()
      modifies this
      ensures State() == old(State()).(stack := StackOps.Dup(old(stack)))
    {
      if |stack| > 0 {
        stack := stack + [stack[|stack| - 1]];
      }
    }

    method Drop()
      modifies this
      ensures State() == old(State()).(stack := StackOps.Drop(old(stack)))
    {
      if |stack| > 0 {
        stack := stack[..|stack| - 1];
      }
    }

    method Swap()
      modifies this
      ensures State() == old(State()).(stack := StackOps.Swap(old(stack)))
    {
      var s := |stack|;
      if s < 2 {
        return;
      }
      stack := stack[s - 1 := stack[s - 2]][s - 2 := stack[s - 1]];
    }

    method BinaryOperator(op: BinOp) returns (status: Status)
      modifies this
      ensures Outcome(State(), status) == BinaryStep(old(State()), op)
    {
      if |stack| < 2 {
        out := out + [Reported(NotEnoughValues)];
        return Normal;
      }
      var b := stack[|stack| - 1];
      var a := stack[|stack| - 2];
      match ApplyBinary(op, a, b)
      case None =>
        return UndefinedBehaviour;
      case Some(v) =>
        stack := stack[..|stack| - 2] + [v];
        return Normal;
    }

    /** `run(input)`: the tokens of the line in turn, stopping at a status other than `Normal`. */
    method Run(input: string) returns (status: Status)
      modifies this
      ensures Outcome(State(), status) == RunLine(old(State()), input)
    {
      var toks := Tokens(input);
      var i := 0;
      status := Normal;
      while i < |toks|
        invariant 0 <= i <= |toks|
        invariant status == Normal
        invariant RunLine(old(State()), input) == RunTokens(State(), toks[i..])
      {
        var token := toks[i];
        assert toks[i..][0] == token && toks[i..][1..] == toks[i + 1..];
        if IsNumber(token) {
          var v := ParseNumber(token);
          if !InInt(v) {
            return OutOfRange;
          }
          stack := stack + [v];
        } else if token in Table {
          match Table[token] {
            case Operator(op) => status := BinaryOperator(op);
            case DupWord => Dup();
            case DropWord => Drop();
            case SwapWord => Swap();
          }
          if status != Normal {
            return;
          }
        } else {
          out := out + [Reported(UnknownWord(token))];
        }
        i := i + 1;
      }
      assert toks[i..] == [];
    }
  }

  // ----- properties

  /** The table holds exactly the seven words `+ - * / DUP DROP SWAP`. */
  lemma TableIsSevenWords()
    ensures Table.Keys == {"+", "-", "*", "/", "DUP", "DROP", "SWAP"}
    ensures forall t :: t in Table ==> !IsNumber(t)
  {
  }

  /**
    A token that passes the numeric test is pushed whatever else it might
    name, and a value too large for an `int` stops the run (`std::stoi`
    throws).
   */
  lemma NumbersComeFirst(m: Machine, tok: string)
    requires IsNumber(tok)
    ensures Step(m, tok).status == Normal <==> InInt(ParseNumber(tok))
    ensures Step(m, tok).status == Normal ==> Step(m, tok).m == m.(stack := m.stack + [ParseNumber(tok)])
    ensures Step(m, tok).status != Normal ==> Step(m, tok) == Outcome(m, OutOfRange)
  {
  }

  /** `-` alone subtracts, while `-3` is pushed as a number; `12x` is pushed as 12. */
  lemma MinusSignExamples(m: Machine)
    ensures Step(m, "-") == BinaryStep(m, Sub)
    ensures Step(m, "-3") == Outcome(m.(stack := m.stack + [-3]), Normal)
    ensures Step(m, "12x") == Outcome(m.(stack := m.stack + [12]), Normal)
  {
    ShallowNumericTest();
    assert !IsNumber("-");
  }

  /** A token that is neither a number nor in the table is reported and the run goes on with the stack untouched. */
  lemma UnknownWordContinues(m: Machine, tok: string, rest: seq<string>)
    requires !IsNumber(tok) && tok !in Table
    ensures Step(m, tok) == Outcome(m.(out := m.out + [Reported(UnknownWord(tok))]), Normal)
    ensures RunTokens(m, [tok] + rest) == RunTokens(m.(out := m.out + [Reported(UnknownWord(tok))]), rest)
  {
    assert ([tok] + rest)[1..] == rest;
  }

  /** An operator on fewer than two values reports the error and leaves the stack exactly as it was. */
  lemma UnderflowKeepsStack(m: Machine, tok: string)
    requires tok in {"+", "-", "*", "/"} && |m.stack| < 2
    ensures Step(m, tok) == Outcome(m.(out := m.out + [Reported(NotEnoughValues)]), Normal)
  {
    assert !IsNumber(tok);
  }

  /** Running `a + b` is running `a`, then `b` from where `a` left off. */
  lemma {:induction false} RunTokensAppend(m: Machine, a: seq<string>, b: seq<string>)
    ensures RunTokens(m, a + b) ==
      (var e := RunTokens(m, a); if e.status != Normal then e else RunTokens(e.m, b))
    decreases |a|
  {
    if a != [] {
      assert (a + b)[0] == a[0] && (a + b)[1..] == a[1..] + b;
      var e := Step(m, a[0]);
      if e.status == Normal {
        RunTokensAppend(e.m, a[1..], b);
      }
    } else {
      assert a + b == b;
    }
  }

  /** Every value on the stack fits an `int`. */
  predicate WellFormed(m: Machine) {
    forall i :: 0 <= i < |m.stack| ==> InInt(m.stack[i])
  }

  /** A run keeps every stack value within `int` and only ever appends to the log. */
  lemma {:induction false} RunTokensPreserves(m: Machine, toks: seq<string>)
    requires WellFormed(m)
    ensures WellFormed(RunTokens(m, toks).m)
    ensures m.out <= RunTokens(m, toks).m.out
    decreases |toks|
  {
    if toks != [] {
      var e := Step(m, toks[0]);
      StepPreserves(m, toks[0]);
      if e.status == Normal {
        RunTokensPreserves(e.m, toks[1..]);
      }
    }
  }

  lemma StepPreserves(m: Machine, tok: string)
    requires WellFormed(m)
    ensures WellFormed(Step(m, tok).m)
    ensures m.out <= Step(m, tok).m.out
  {
    var s := m.stack;
    if !IsNumber(tok) && tok in Table && Table[tok].Operator? && |s| >= 2 {
      var r := Binary(Table[tok].op, s);
      if r.Pushed? {
        assert r.stack == r.stack[..|s| - 2] + [r.stack[|s| - 2]];
      }
    }
  }
}
