/**
  `ForthVM` (forth_vm.h, forth_vm.cc) as a class whose fields are the
  source's members. Each method changes the fields exactly as the matching
  function of `VMSemantics` says, so everything `VMProperties` proves about
  those functions holds of the class.

  Two members have no field here: `functions_` is the constant
  `VMSemantics.Table` (the constructor fills it and nothing changes it
  afterwards), and the writes to `std::cout`/`std::cerr` are appended to `out`.
 */
module VirtualMachine {
  import opened Lexer
  import opened Arith
  import StackOps
  import opened Events
  import opened VMSemantics

  class ForthVM {
    var stack: seq<int>                  // stack_, top last
    var cond: seq<bool>                  // cond_stack_, top last
    var userfn: map<string, seq<string>> // userfn_
    var fnname: string                   // fnname_
    var definefn: bool                   // definefn_
    var out: seq<Output>                 // what was written to cout and cerr

    /** The fields as a value of the semantics. */
    function State(): Machine
      reads this
    {
      Machine(stack, cond, userfn, fnname, definefn, out)
    }

    constructor()
      ensures State() == Init()
    {
      stack, cond, userfn, fnname, definefn, out := [], [], map[], "", false, [];
    }

    method Dup()
      modifies this
      ensures State() == old(State()).(stack := StackOps.Dup(old(stack)))
    {
      if |stack| > 0 {
        stack := stack + [stack[|stack| - 1]];
      }
    }

    method Drop()
      modifies this
      ensures State() == old(State()).(stack := StackOps.Drop(old(stack)))
    {
      if |stack| > 0 {
        stack := stack[..|stack| - 1];
      }
    }

    method Swap()
      modifies this
      ensures State() == old(State()).(stack := StackOps.Swap(old(stack)))
    {
      var s := |stack|;
      if s < 2 {
        return;
      }
      stack := stack[s - 1 := stack[s - 2]][s - 2 := stack[s - 1]];
    }

    /** `binaryOperator(op)`; a status other than `Normal` leaves every field alone. */
    method BinaryOperator(op: BinOp) returns (status: Status)
      modifies this
      ensures Exec(State(), status) == BinaryStep(old(State()), op)
    {
      if |stack| < 2 {
        out := out + [Reported(NotEnoughValues)];
        return Normal;
      }
      var b := stack[|stack| - 1];
      var a := stack[|stack| - 2];
      match ApplyBinary(op, a, b)
      case None =>
        return UndefinedBehaviour;
      case Some(v) =>
        stack := stack[..|stack| - 2] + [v];
        return Normal;
    }

    method ZeroCompare(z: ZeroTest)
      modifies this
      ensures State() == old(State()).(stack := ZeroCompareStack(z, old(stack)))
    {
      if |stack| == 0 {
        return;
      }
      var top := stack[|stack| - 1];
      stack := stack[..|stack| - 1];
      stack := stack + [Flag(ZeroTestHolds(z, top))];
    }

    method PrintTOS()
      modifies this
      ensures State() == VMSemantics.PrintTOS(old(State()))
    {
      if |stack| == 0 {
        return;
      }
      var top := stack[|stack| - 1];
      stack := stack[..|stack| - 1];
      out := out + [Printed(top)];
    }

    method ShouldExecute() returns (r: bool)
      ensures r == VMSemantics.ShouldExecute(State())
    {
      r := |cond| == 0 || !cond[|cond| - 1];
    }

    method ProcessIf()
      modifies this
      ensures State() == VMSemantics.ProcessIf(old(State()))
    {
      if |stack| == 0 {
        out := out + [Reported(StackEmpty)];
        return;
      }
      var condition := stack[|stack| - 1];
      stack := stack[..|stack| - 1];
      cond := cond + [condition == 0];
    }

    method ProcessElse()
      modifies this
      ensures State() == VMSemantics.ProcessElse(old(State()))
    {
      if |cond| == 0 {
        out := out + [Reported(ElseWithoutIf)];
        return;
      }
      cond := cond[|cond| - 1 := !cond[|cond| - 1]];
    }

    method ProcessThen()
      modifies this
      ensures State() == VMSemantics.ProcessThen(old(State()))
    {
      if |cond| == 0 {
        out := out + [Reported(ThenWithoutIf)];
        return;
      }
      cond := cond[..|cond| - 1];
    }

    method BeginDefinition()
      modifies this
      ensures State() == old(State()).(definefn := true, fnname := "")
    {
      definefn := true;
      fnname := "";
    }

    method EndDefinition()
      modifies this
      ensures State() == old(State()).(definefn := false, fnname := "")
    {
      definefn := false;
      fnname := "";
    }

    /** Calling the closure the constructor stored for `b`. */
    method Call(b: Builtin) returns (status: Status)
      modifies this
      ensures Exec(State(), status) == CallBuiltin(old(State()), b)
    {
      status := Normal;
      var go := ShouldExecute();
      if Guarded(b) && !go {
        return;
      }
      match b
      case Arithmetic(op) => status := BinaryOperator(op);
      case Negate => status := Unmodelled;
      case Not => status := Unmodelled;
      case ZeroCompare(z) => ZeroCompare(z);
      case DupWord => Dup();
      case DropWord => Drop();
      case SwapWord => Swap();
      case PrintTop => PrintTOS();
      case If => ProcessIf();
      case Else => ProcessElse();
      case Then => ProcessThen();
      case BeginDefinition => BeginDefinition();
      case EndDefinition => EndDefinition();
    }

    /**
      `runDefinition(name)` with `depth` more nested invocations allowed: run
      each stored token of the body, as it was when the word was invoked, as
      a line of its own.
     */
    method RunDefinition(name: string, depth: nat) returns (status: Status)
      requires name in userfn
      modifies this
      ensures Exec(State(), status) == Invoke(old(State()), name, depth)
      decreases depth, 0
    {
      if depth == 0 {
        return DepthExhausted;
      }
      var body := userfn[name];
      var i := 0;
      status := Normal;
      while i < |body|
        invariant 0 <= i <= |body|
        invariant status == Normal
        invariant Invoke(old(State()), name, depth) == RunBody(State(), body[i..], depth - 1)
      {
        assert body[i..][0] == body[i] && body[i..][1..] == body[i + 1..];
        status := Run(body[i], depth - 1);
        if status != Normal {
          return;
        }
        i := i + 1;
      }
      assert body[i..] == [];
    }

    /** `run(input)`: the tokens of the line in turn, stopping at a status other than `Normal`. */
    method Run(input: string, depth: nat) returns (status: Status)
      modifies this
      ensures Exec(State(), status) == RunLine(old(State()), input, depth)
      decreases depth, 2
    {
      var toks := Tokens(input);
      var i := 0;
      status := Normal;
      while i < |toks|
        invariant 0 <= i <= |toks|
        invariant status == Normal
        invariant RunLine(old(State()), input, depth) == RunTokens(State(), toks[i..], depth)
      {
        assert toks[i..][0] == toks[i] && toks[i..][1..] == toks[i + 1..];
        status := Word(toks[i], depth);
        if status != Normal {
          return;
        }
        i := i + 1;
      }
      assert toks[i..] == [];
    }

    /** The body of the loop in `run` for one token, in its priority order. */
    method Word(token: string, depth: nat) returns (status: Status)
      modifies this
      ensures Exec(State(), status) == Step(old(State()), token, depth)
      decreases depth, 1
    {
      status := Normal;
      var go := ShouldExecute();
      if definefn && token != ";" {
        if |fnname| == 0 {
          fnname := token;
        } else {
          userfn := userfn[fnname := BodyOf(userfn, fnname) + [token]];
        }
      } else if token in Table {
        status := Call(Table[token]);
      } else if IsNumber(token) && go {
        var v := ParseNumber(token);
        if !InInt(v) {
          return OutOfRange;
        }
        stack := stack + [v];
      } else if token in userfn && go {
        status := RunDefinition(token, depth);
      } else if go {
        out := out + [Reported(UnknownWord(token))];
      }
    }
  }
}
