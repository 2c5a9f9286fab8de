/**
  How the two engines relate. Outside IF branches and definitions, `ForthVM`
  treats the interpreter's seven words, its numbers and its unknown words as
  `ForthInterpreter` does. The reverse order of the number test and the table
  lookup is where they part: `0=` is a builtin of the VM but a number (0) to
  the interpreter.
 */
module Agreement {
  import opened Wrappers
  import opened Lexer
  import opened Arith
  import opened Events
  import VM = VMSemantics
  import I = Interpreter

  /** The part of a VM state that the interpreter also has. */
  function Project(m: VM.Machine): I.Machine {
    I.Machine(m.stack, m.out)
  }

  /** The interpreter's table word for each of its seven entries, as a VM builtin. */
  function AsBuiltin(w: I.Word): VM.Builtin {
    match w
    case Operator(op) => VM.Arithmetic(op)
    case DupWord => VM.DupWord
    case DropWord => VM.DropWord
    case SwapWord => VM.SwapWord
  }

  /** Every word of the interpreter's table names the corresponding builtin of the VM. */
  lemma TablesAgree(t: string)
    requires t in I.Table
    ensures VM.Name(AsBuiltin(I.Table[t])) == t
    ensures VM.Lookup(t) == Some(AsBuiltin(I.Table[t]))
  {
    VM.LookupName(AsBuiltin(I.Table[t]));
  }

  /**
    A token the two engines read alike: one of the interpreter's words, or a
    token that is no VM builtin (a number, or a word neither table knows).
   */
  predicate Shared(t: string) {
    t in I.Table || t !in VM.Table
  }

  /** A VM state in which the interpreter's reading applies: executing, not defining. */
  predicate Plain(m: VM.Machine) {
    !m.definefn && VM.ShouldExecute(m)
  }

  /**
    On a shared token that is not a user word, one VM step does what one
    interpreter step does to the stack and the log, ends the same way, and
    leaves the rest of the VM state alone.
   */
  lemma StepAgrees(m: VM.Machine, t: string, depth: nat)
    requires Plain(m) && Shared(t) && t !in m.userfn
    ensures var e := VM.Step(m, t, depth);
      var o := I.Step(Project(m), t);
      e.status == o.status && e.m == m.(stack := o.m.stack, out := o.m.out)
  {
    if t in I.Table {
      TableWordAgrees(m, t, depth);
    } else {
      UntabledAgrees(m, t, depth);
    }
  }

  /** One of the seven table words runs the same operation on both engines. */
  lemma TableWordAgrees(m: VM.Machine, t: string, depth: nat)
    requires Plain(m) && t in I.Table
    ensures var e := VM.Step(m, t, depth);
      var o := I.Step(Project(m), t);
      e.status == o.status && e.m == m.(stack := o.m.stack, out := o.m.out)
  {
    VMTableStep(m, t, depth);
    InterpreterTableStep(Project(m), t);
    PerformAgrees(m, I.Table[t]);
  }

  lemma VMTableStep(m: VM.Machine, t: string, depth: nat)
    requires !m.definefn && t in I.Table
    ensures VM.Step(m, t, depth) == VM.CallBuiltin(m, AsBuiltin(I.Table[t]))
  {
    TablesAgree(t);
  }

  lemma InterpreterTableStep(m: I.Machine, t: string)
    requires t in I.Table
    ensures I.Step(m, t) == I.Perform(m, I.Table[t])
  {
    assert !IsNumber(t);
  }

  /** Each table operation does the same to the stack and the log on both engines. */
  lemma PerformAgrees(m: VM.Machine, w: I.Word)
    requires Plain(m)
    ensures var e := VM.CallBuiltin(m, AsBuiltin(w));
      var o := I.Perform(Project(m), w);
      e.status == o.status && e.m == m.(stack := o.m.stack, out := o.m.out)
  {
    match w
    case Operator(op) =>
      assert VM.CallBuiltin(m, AsBuiltin(w)) == VM.BinaryStep(m, op);
    case _ =>
  }

  /** A number or an unknown word outside both tables: pushed, or reported, by both. */
  lemma UntabledAgrees(m: VM.Machine, t: string, depth: nat)
    requires Plain(m) && t !in I.Table && t !in VM.Table && t !in m.userfn
    ensures var e := VM.Step(m, t, depth);
      var o := I.Step(Project(m), t);
      e.status == o.status && e.m == m.(stack := o.m.stack, out := o.m.out)
  {
    assert VM.Lookup(t).None?;
  }

  /** The same over a whole run of shared tokens. */
  lemma {:induction false} RunAgrees(m: VM.Machine, toks: seq<string>, depth: nat)
    requires Plain(m)
    requires forall i :: 0 <= i < |toks| ==> Shared(toks[i]) && toks[i] !in m.userfn
    ensures var e := VM.RunTokens(m, toks, depth);
      var o := I.RunTokens(Project(m), toks);
      e.status == o.status && e.m == m.(stack := o.m.stack, out := o.m.out)
    decreases |toks|
  {
    if toks != [] {
      StepAgrees(m, toks[0], depth);
      var e := VM.Step(m, toks[0], depth);
      if e.status == Normal {
        RunAgrees(e.m, toks[1..], depth);
      }
    }
  }

  /** A line made of shared tokens runs alike on both engines. */
  lemma LineAgrees(m: VM.Machine, line: string, depth: nat)
    requires Plain(m)
    requires forall i :: 0 <= i < |Tokens(line)| ==> Shared(Tokens(line)[i]) && Tokens(line)[i] !in m.userfn
    ensures Project(VM.RunLine(m, line, depth).m) == I.RunLine(Project(m), line).m
    ensures VM.RunLine(m, line, depth).status == I.RunLine(Project(m), line).status
  {
    RunAgrees(m, Tokens(line), depth);
  }

  /**
    `0=` on a stack with `v` on top: the VM replaces `v` by its zero test,
    while the interpreter pushes the number 0 that `std::stoi` reads from it.
   */
  lemma ZeroEqualsDiverges(m: VM.Machine, v: int, depth: nat)
    requires Plain(m)
    ensures VM.Step(m.(stack := m.stack + [v]), "0=", depth) ==
      VM.Exec(m.(stack := m.stack + [Flag(v == 0)]), Normal)
    ensures I.Step(Project(m.(stack := m.stack + [v])), "0=") ==
      I.Outcome(I.Machine(m.stack + [v, 0], m.out), Normal)
  {
    VM.LookupName(VM.ZeroCompare(VM.ZeroEq));
    var s := m.stack + [v];
    assert s[..|s| - 1] == m.stack;
    assert IsNumber("0=");
    assert LeadingDigits("0=") == "0" by {
      assert "0="[1..] == "=";
    }
    assert DecimalValue("0") == DecimalValue([]) * 10 + DigitValue('0');
    assert s + [0] == m.stack + [v, 0];
  }
}
