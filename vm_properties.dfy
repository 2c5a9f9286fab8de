/** What `ForthVM` promises, stated and proved about `VMSemantics`. */
module VMProperties {
  import opened Wrappers
  import opened Lexer
  import opened Arith
  import opened StackOps
  import opened Events
  import opened VMSemantics

  // ----- the builtin words

  /** DUP, DROP and SWAP on the machine change the stack as `StackOps` says and nothing else. */
  lemma StackWordsTouchOnlyTheStack(m: Machine)
    requires ShouldExecute(m)
    ensures CallBuiltin(m, DupWord) == Exec(m.(stack := Dup(m.stack)), Normal)
    ensures CallBuiltin(m, DropWord) == Exec(m.(stack := Drop(m.stack)), Normal)
    ensures CallBuiltin(m, SwapWord) == Exec(m.(stack := Swap(m.stack)), Normal)
    ensures |m.stack| == 0 ==> CallBuiltin(m, DupWord).m == m && CallBuiltin(m, DropWord).m == m
    ensures |m.stack| < 2 ==> CallBuiltin(m, SwapWord).m == m
  {
  }

  /** A binary word on fewer than two values reports "not enough values" and leaves the stack exactly as it was. */
  lemma BinaryUnderflowKeepsStack(m: Machine, op: BinOp)
    requires ShouldExecute(m) && |m.stack| < 2
    ensures CallBuiltin(m, Arithmetic(op)) == Exec(m.(out := m.out + [Reported(NotEnoughValues)]), Normal)
  {
  }

  /**
    `0= 0< 0> 0<>` replace the top by 1 or 0 for the comparison against zero
    and change nothing else; on an empty stack they change nothing and report
    nothing.
   */
  lemma ZeroCompareReplacesTop(m: Machine, z: ZeroTest)
    requires ShouldExecute(m)
    ensures var e := CallBuiltin(m, ZeroCompare(z));
      e.status == Normal && e.m == m.(stack := e.m.stack) &&
      (|m.stack| == 0 ==> e.m == m) &&
      (|m.stack| > 0 ==>
        |e.m.stack| == |m.stack| &&
        e.m.stack[..|m.stack| - 1] == m.stack[..|m.stack| - 1] &&
        (e.m.stack[|m.stack| - 1] == 1 <==> ZeroTestHolds(z, m.stack[|m.stack| - 1])) &&
        (e.m.stack[|m.stack| - 1] == 0 <==> !ZeroTestHolds(z, m.stack[|m.stack| - 1])))
  {
  }

  /** `.` pops the top and appends it to the output; on an empty stack it does nothing and reports nothing. */
  lemma PrintPopsTop(m: Machine)
    requires ShouldExecute(m)
    ensures var e := CallBuiltin(m, PrintTop);
      e.status == Normal &&
      (|m.stack| == 0 ==> e.m == m) &&
      (|m.stack| > 0 ==>
        e.m == m.(stack := Drop(m.stack), out := m.out + [Printed(m.stack[|m.stack| - 1])]))
  {
  }

  /** While skipping, every guarded word is suppressed entirely: no change of state and no report. */
  lemma GuardedWordsSuppressed(m: Machine, b: Builtin)
    requires !ShouldExecute(m) && Guarded(b)
    ensures CallBuiltin(m, b) == Exec(m, Normal)
  {
  }

  // ----- IF, ELSE and THEN

  /**
    IF runs whatever the skip state: it pops the operand stack and opens a
    level that executes exactly when the popped value was not 0. On an empty
    stack it reports an error and changes neither stack.
   */
  lemma IfOpensLevel(m: Machine)
    ensures CallBuiltin(m, If) == Exec(ProcessIf(m), Normal)
    ensures |m.stack| == 0 ==>
      ProcessIf(m) == m.(out := m.out + [Reported(StackEmpty)])
    ensures |m.stack| > 0 ==>
      var r := ProcessIf(m);
      r == m.(stack := Drop(m.stack), cond := m.cond + [m.stack[|m.stack| - 1] == 0]) &&
      r.cond[..|m.cond|] == m.cond && (ShouldExecute(r) <==> m.stack[|m.stack| - 1] != 0)
  {
    if |m.stack| > 0 {
      var r := ProcessIf(m);
      assert r.cond[..|m.cond|] == m.cond;
    }
  }

  /**
    Only the innermost flag decides: an IF inside a skipped branch still pops
    a value and, when that value is not 0, turns execution back on.
   */
  lemma NestedIfInSkippedBranch(m: Machine)
    requires !ShouldExecute(m) && |m.stack| > 0 && m.stack[|m.stack| - 1] != 0
    ensures ShouldExecute(ProcessIf(m))
    ensures CallBuiltin(m, If).m.stack == Drop(m.stack)
  {
  }

  /** ELSE flips the innermost flag, so a second ELSE restores it; THEN closes exactly one level. */
  lemma ElseAndThen(m: Machine)
    requires |m.cond| > 0
    ensures CallBuiltin(m, Else) == Exec(ProcessElse(m), Normal)
    ensures CallBuiltin(m, Then) == Exec(ProcessThen(m), Normal)
    ensures ProcessElse(m) == m.(cond := m.cond[..|m.cond| - 1] + [!m.cond[|m.cond| - 1]])
    ensures ShouldExecute(ProcessElse(m)) == !ShouldExecute(m)
    ensures ProcessElse(ProcessElse(m)) == m
    ensures ProcessThen(m) == m.(cond := m.cond[..|m.cond| - 1])
  {
    var c := m.cond;
    assert (c[..|c| - 1] + [!c[|c| - 1]])[..|c| - 1] == c[..|c| - 1];
    assert c[..|c| - 1] + [c[|c| - 1]] == c;
  }

  /** ELSE or THEN with no open IF reports an error and changes nothing else. */
  lemma ElseThenWithoutIf(m: Machine)
    requires |m.cond| == 0
    ensures CallBuiltin(m, Else) == Exec(m.(out := m.out + [Reported(ElseWithoutIf)]), Normal)
    ensures CallBuiltin(m, Then) == Exec(m.(out := m.out + [Reported(ThenWithoutIf)]), Normal)
  {
  }

  /** IF ... THEN and IF ... ELSE ... THEN leave the skip state as it was before the IF. */
  lemma IfThenRestoresLevel(m: Machine)
    requires |m.stack| > 0
    ensures ProcessThen(ProcessIf(m)).cond == m.cond
    ensures ProcessThen(ProcessElse(ProcessIf(m))).cond == m.cond
  {
    var r := ProcessIf(m);
    assert r.cond[..|r.cond| - 1] == m.cond;
    var c := r.cond;
    assert (c[..|c| - 1] + [!c[|c| - 1]])[..|c| - 1] == m.cond;
  }

  // ----- dispatch in `run`

  /** Builtins come before user words of the same name: a user word can never shadow one. */
  lemma BuiltinShadowsUserWord(m: Machine, tok: string, depth: nat)
    requires !m.definefn && Lookup(tok).Some?
    ensures Step(m, tok, depth) == CallBuiltin(m, Lookup(tok).value)
    ensures Step(m, tok, depth).status != DepthExhausted
  {
  }

  /** `0=` and its companions pass the numeric test yet dispatch as builtins. */
  lemma ZeroComparisonsAreBuiltins(m: Machine, z: ZeroTest, depth: nat)
    requires !m.definefn
    ensures IsNumber(Name(ZeroCompare(z)))
    ensures Step(m, Name(ZeroCompare(z)), depth) == CallBuiltin(m, ZeroCompare(z))
  {
    LookupName(ZeroCompare(z));
  }

  /** A numeric token is pushed only while executing; a skipped one has no effect. */
  lemma NumberPushedWhenExecuting(m: Machine, tok: string, depth: nat)
    requires !m.definefn && Lookup(tok).None? && IsNumber(tok)
    ensures ShouldExecute(m) && InInt(ParseNumber(tok)) ==>
      Step(m, tok, depth) == Exec(m.(stack := m.stack + [ParseNumber(tok)]), Normal)
    ensures !ShouldExecute(m) ==> Step(m, tok, depth) == Exec(m, Normal)
  {
  }

  /**
    An unknown word, while executing, is reported and leaves the stacks and
    the tables alone, and the rest of the line is still processed.
   */
  lemma UnknownWordContinues(m: Machine, tok: string, rest: seq<string>, depth: nat)
    requires ShouldExecute(m) && !m.definefn
    requires Lookup(tok).None? && !IsNumber(tok) && tok !in m.userfn
    ensures Step(m, tok, depth) == Exec(m.(out := m.out + [Reported(UnknownWord(tok))]), Normal)
    ensures RunTokens(m, [tok] + rest, depth) ==
      RunTokens(m.(out := m.out + [Reported(UnknownWord(tok))]), rest, depth)
  {
    assert ([tok] + rest)[1..] == rest;
  }

  predicate IsControlWord(tok: string) {
    Lookup(tok).Some? && !Guarded(Lookup(tok).value)
  }

  /**
    While a branch is skipped and no definition is open, a run of tokens
    without IF, ELSE, THEN, `:` or `;` changes nothing at all: numbers,
    builtins, user words and unknown words are all passed over silently.
   */
  lemma {:induction false} SkippedTokensHaveNoEffect(m: Machine, toks: seq<string>, depth: nat)
    requires !ShouldExecute(m) && !m.definefn
    requires forall i :: 0 <= i < |toks| ==> !IsControlWord(toks[i])
    ensures RunTokens(m, toks, depth) == Exec(m, Normal)
    decreases |toks|
  {
    if toks != [] {
      assert Step(m, toks[0], depth) == Exec(m, Normal);
      SkippedTokensHaveNoEffect(m, toks[1..], depth);
    }
  }

  // ----- splitting runs

  /** Running `a + b` is running `a`, then `b` from where `a` left off. */
  lemma {:induction false} RunTokensAppend(m: Machine, a: seq<string>, b: seq<string>, depth: nat)
    ensures RunTokens(m, a + b, depth) ==
      var e := RunTokens(m, a, depth);
      if e.status == Normal then RunTokens(e.m, b, depth) else e
    decreases |a|
  {
    if a != [] {
      assert (a + b)[0] == a[0] && (a + b)[1..] == a[1..] + b;
      var e := Step(m, a[0], depth);
      if e.status == Normal {
        RunTokensAppend(e.m, a[1..], b, depth);
      }
    } else {
      assert a + b == b;
    }
  }

  /**
    `run` keeps no state between tokens but the cursor: running a line is
    running its words one at a time, and two lines run back to back are the
    line made of both.
   */
  lemma RunLineIsWordByWord(m: Machine, a: seq<string>, b: seq<string>, depth: nat)
    requires AllWords(a) && AllWords(b)
    ensures RunLine(m, Join(a), depth) == RunTokens(m, a, depth)
    ensures RunLine(m, Join(a + b), depth) ==
      var e := RunLine(m, Join(a), depth);
      if e.status == Normal then RunLine(e.m, Join(b), depth) else e
  {
    TokensOfJoin(a);
    TokensOfJoin(b);
    assert AllWords(a + b) by {
      forall i | 0 <= i < |a + b| ensures IsWord((a + b)[i]) {
        if i < |a| { assert (a + b)[i] == a[i]; } else { assert (a + b)[i] == b[i - |a|]; }
      }
    }
    TokensOfJoin(a + b);
    RunTokensAppend(m, a, b, depth);
  }

  /** Replaying stored words one per line is running them as one sequence of tokens. */
  lemma {:induction false} RunBodyOfWords(m: Machine, cmds: seq<string>, depth: nat)
    requires AllWords(cmds)
    ensures RunBody(m, cmds, depth) == RunTokens(m, cmds, depth)
    decreases |cmds|
  {
    if cmds != [] {
      TokensOfWord(cmds[0]);
      var e := Step(m, cmds[0], depth);
      assert RunTokens(m, [cmds[0]], depth) == e;
      if e.status == Normal {
        RunBodyOfWords(e.m, cmds[1..], depth);
      }
    }
  }

  // ----- the machine invariant

  /** Every value on the stack fits an `int`, and every stored body token is a word. */
  ghost predicate WellFormed(m: Machine) {
    && (forall i :: 0 <= i < |m.stack| ==> InInt(m.stack[i]))
    && (forall name :: name in m.userfn ==> AllWords(m.userfn[name]))
  }

  lemma InitWellFormed()
    ensures WellFormed(Init())
  {
  }

  lemma CallBuiltinPreserves(m: Machine, b: Builtin)
    requires WellFormed(m)
    ensures WellFormed(CallBuiltin(m, b).m) && m.out <= CallBuiltin(m, b).m.out
  {
    if !(Guarded(b) && !ShouldExecute(m)) {
      match b
      case Arithmetic(op) => BinaryStepPreserves(m, op);
      case ZeroCompare(z) =>
        if |m.stack| > 0 {
          TopReplacedKeepsInts(m.stack, ZeroCompareStack(z, m.stack));
        }
      case _ =>
    }
  }

  lemma BinaryStepPreserves(m: Machine, op: BinOp)
    requires WellFormed(m)
    ensures WellFormed(BinaryStep(m, op).m) && m.out <= BinaryStep(m, op).m.out
  {
    var r := Binary(op, m.stack);
    if r.Pushed? {
      TopReplacedKeepsInts(m.stack[..|m.stack| - 1], r.stack);
    }
  }

  /** A stack whose top alone was replaced by a value within `int` still holds only such values. */
  lemma TopReplacedKeepsInts(s: seq<int>, t: seq<int>)
    requires forall i :: 0 <= i < |s| ==> InInt(s[i])
    requires |t| == |s| > 0 && t[..|t| - 1] == s[..|s| - 1] && InInt(t[|t| - 1])
    ensures forall i :: 0 <= i < |t| ==> InInt(t[i])
  {
    forall i | 0 <= i < |t|
      ensures InInt(t[i])
    {
      if i < |t| - 1 {
        assert t[i] == t[..|t| - 1][i] == s[..|s| - 1][i];
      }
    }
  }

  /**
    The invariant holds after every step from a word, and the output log
    only grows.
   */
  lemma {:induction false} StepPreserves(m: Machine, tok: string, depth: nat)
    requires WellFormed(m) && IsWord(tok)
    ensures WellFormed(Step(m, tok, depth).m) && m.out <= Step(m, tok, depth).m.out
    decreases depth, 1, 0
  {
    if m.definefn && tok != ";" {
      if |m.fnname| > 0 {
        var body := BodyOf(m.userfn, m.fnname) + [tok];
        assert AllWords(body);
      }
    } else if Lookup(tok).Some? {
      CallBuiltinPreserves(m, Lookup(tok).value);
    } else if IsNumber(tok) && ShouldExecute(m) {
    } else if tok in m.userfn && ShouldExecute(m) {
      InvokePreserves(m, tok, depth);
    }
  }

  lemma {:induction false} InvokePreserves(m: Machine, name: string, depth: nat)
    requires WellFormed(m) && name in m.userfn
    ensures WellFormed(Invoke(m, name, depth).m) && m.out <= Invoke(m, name, depth).m.out
    decreases depth, 0, 0
  {
    if depth > 0 {
      RunBodyPreserves(m, m.userfn[name], depth - 1);
    }
  }

  lemma {:induction false} RunBodyPreserves(m: Machine, cmds: seq<string>, depth: nat)
    requires WellFormed(m)
    ensures WellFormed(RunBody(m, cmds, depth).m) && m.out <= RunBody(m, cmds, depth).m.out
    decreases depth, 2, |cmds|
  {
    if cmds != [] {
      var e := RunTokens(m, Tokens(cmds[0]), depth);
      RunTokensPreserves(m, Tokens(cmds[0]), depth);
      if e.status == Normal {
        RunBodyPreserves(e.m, cmds[1..], depth);
      }
    }
  }

  /** From a well-formed machine, running words keeps it well formed and only appends to the output. */
  lemma {:induction false} RunTokensPreserves(m: Machine, toks: seq<string>, depth: nat)
    requires WellFormed(m) && AllWords(toks)
    ensures WellFormed(RunTokens(m, toks, depth).m) && m.out <= RunTokens(m, toks, depth).m.out
    decreases depth, 1, |toks|
  {
    if toks != [] {
      var e := Step(m, toks[0], depth);
      StepPreserves(m, toks[0], depth);
      if e.status == Normal {
        RunTokensPreserves(e.m, toks[1..], depth);
      }
    }
  }

  /**
    Invoking a user word is running its stored body tokens in order on the
    shared state, with one level of nesting used up.
   */
  lemma InvokeRunsBody(m: Machine, name: string, depth: nat)
    requires WellFormed(m) && name in m.userfn && depth > 0
    ensures Invoke(m, name, depth) == RunTokens(m, m.userfn[name], depth - 1)
  {
    RunBodyOfWords(m, m.userfn[name], depth - 1);
  }

  // ----- the nesting bound

  /**
    The bound on nested invocations only ever cuts a run short: a run that
    did not exhaust it ends the same way under any larger bound.
   */
  lemma {:induction false} StepDepth(m: Machine, tok: string, depth: nat, more: nat)
    requires depth <= more && Step(m, tok, depth).status != DepthExhausted
    ensures Step(m, tok, more) == Step(m, tok, depth)
    decreases depth, 1, 0
  {
    if m.definefn && tok != ";" {
    } else if Lookup(tok).Some? {
    } else if IsNumber(tok) && ShouldExecute(m) {
    } else if tok in m.userfn && ShouldExecute(m) {
      InvokeDepth(m, tok, depth, more);
    }
  }

  lemma {:induction false} InvokeDepth(m: Machine, name: string, depth: nat, more: nat)
    requires name in m.userfn
    requires depth <= more && Invoke(m, name, depth).status != DepthExhausted
    ensures Invoke(m, name, more) == Invoke(m, name, depth)
    decreases depth, 0, 0
  {
    RunBodyDepth(m, m.userfn[name], depth - 1, more - 1);
  }

  lemma {:induction false} RunBodyDepth(m: Machine, cmds: seq<string>, depth: nat, more: nat)
    requires depth <= more && RunBody(m, cmds, depth).status != DepthExhausted
    ensures RunBody(m, cmds, more) == RunBody(m, cmds, depth)
    decreases depth, 2, |cmds|
  {
    if cmds != [] {
      var e := RunTokens(m, Tokens(cmds[0]), depth);
      RunTokensDepth(m, Tokens(cmds[0]), depth, more);
      if e.status == Normal {
        RunBodyDepth(e.m, cmds[1..], depth, more);
      }
    }
  }

  lemma {:induction false} RunTokensDepth(m: Machine, toks: seq<string>, depth: nat, more: nat)
    requires depth <= more && RunTokens(m, toks, depth).status != DepthExhausted
    ensures RunTokens(m, toks, more) == RunTokens(m, toks, depth)
    decreases depth, 1, |toks|
  {
    if toks != [] {
      var e := Step(m, toks[0], depth);
      StepDepth(m, toks[0], depth, more);
      if e.status == Normal {
        RunTokensDepth(e.m, toks[1..], depth, more);
      }
    }
  }

  // ----- word definitions

  /** The table after `body` has been appended to `name`'s entry; an empty body adds no entry. */
  function AppendBody(userfn: map<string, seq<string>>, name: string, body: seq<string>): map<string, seq<string>> {
    if body == [] then userfn else userfn[name := BodyOf(userfn, name) + body]
  }

  lemma {:induction false} CaptureBody(m: Machine, body: seq<string>, depth: nat)
    requires m.definefn && |m.fnname| > 0
    requires forall i :: 0 <= i < |body| ==> body[i] != ";"
    ensures RunTokens(m, body, depth) == Exec(m.(userfn := AppendBody(m.userfn, m.fnname, body)), Normal)
    decreases |body|
  {
    if body != [] {
      var f := m.fnname;
      var m1 := Capture(m, body[0]);
      assert Step(m, body[0], depth) == Exec(m1, Normal);
      CaptureBody(m1, body[1..], depth);
      var x := BodyOf(m.userfn, f) + [body[0]];
      assert m1.userfn == m.userfn[f := x] && m1.fnname == f;
      if |body| == 1 {
        assert body == [body[0]];
      } else {
        assert x + body[1..] == BodyOf(m.userfn, f) + body;
        assert AppendBody(m1.userfn, f, body[1..]) == m.userfn[f := BodyOf(m.userfn, f) + body];
      }
    }
  }

  /**
    `: NAME t1 ... tk ;` stores nothing but `t1 ... tk`, appended to whatever
    NAME already held (a redefinition extends rather than replaces; `;` is
    never stored; an empty definition creates no entry), leaves definition
    mode, and happens the same way whether or not a branch is being skipped.
   */
  lemma DefineWord(m: Machine, name: string, body: seq<string>, depth: nat)
    requires !m.definefn && |name| > 0 && name != ";"
    requires forall i :: 0 <= i < |body| ==> body[i] != ";"
    ensures var e := RunTokens(m, [":", name] + body + [";"], depth);
      e == Exec(m.(userfn := AppendBody(m.userfn, name, body), fnname := "", definefn := false), Normal)
    ensures var u := RunTokens(m, [":", name] + body + [";"], depth).m.userfn;
      (body == [] ==> u == m.userfn) &&
      (body != [] ==> name in u && u[name] == BodyOf(m.userfn, name) + body) &&
      (forall other :: other != name ==> (other in u <==> other in m.userfn))
  {
    var m1 := m.(definefn := true, fnname := "");
    assert Step(m, ":", depth) == Exec(m1, Normal);
    var m2 := m1.(fnname := name);
    assert Step(m1, name, depth) == Exec(m2, Normal);
    var m3 := m2.(userfn := AppendBody(m.userfn, name, body));
    CaptureBody(m2, body, depth);
    assert Step(m3, ";", depth) == Exec(m3.(definefn := false, fnname := ""), Normal);
    RunTokensAppend(m, [":", name], body + [";"], depth);
    assert [":", name] + body + [";"] == [":", name] + (body + [";"]);
    assert RunTokens(m, [":", name], depth) == Exec(m2, Normal) by {
      assert [":", name][1..] == [name];
      assert RunTokens(m1, [name], depth) == Exec(m2, Normal);
    }
    RunTokensAppend(m2, body, [";"], depth);
  }

  // ----- whole lines

  lemma ParseDigit(c: char)
    requires IsDigit(c)
    ensures IsNumber([c]) && ParseNumber([c]) == DigitValue(c)
  {
    assert [c][1..] == [];
    assert LeadingDigits([c]) == [c];
    assert [c][..0] == [];
    assert DecimalValue([c]) == DecimalValue([]) * 10 + DigitValue(c);
  }

  /** A builtin's own name, outside definition mode, calls it. */
  lemma StepBuiltin(m: Machine, b: Builtin, depth: nat)
    requires !m.definefn
    ensures Step(m, Name(b), depth) == CallBuiltin(m, b)
  {
    LookupName(b);
  }

  /** A one-digit token, while executing, pushes its value. */
  lemma StepDigit(m: Machine, c: char, depth: nat)
    requires !m.definefn && IsDigit(c) && ShouldExecute(m)
    ensures Step(m, [c], depth) == Exec(m.(stack := m.stack + [DigitValue(c)]), Normal)
  {
    ParseDigit(c);
  }

  /** A step that ends normally hands its state to the rest of the tokens. */
  lemma StepThenRun(m: Machine, t: string, rest: seq<string>, d: nat, m1: Machine, r: Exec)
    requires Step(m, t, d) == Exec(m1, Normal) && RunTokens(m1, rest, d) == r
    ensures RunTokens(m, [t] + rest, d) == r
  {
    assert ([t] + rest)[0] == t && ([t] + rest)[1..] == rest;
  }

  /** IF with `v` on top opens a level that skips exactly when `v` is 0. */
  lemma StepIf(m: Machine, v: int, d: nat)
    requires !m.definefn
    ensures Step(m.(stack := m.stack + [v]), "IF", d) == Exec(m.(cond := m.cond + [v == 0]), Normal)
  {
    var m1 := m.(stack := m.stack + [v]);
    StepBuiltin(m1, If, d);
    assert ProcessIf(m1) == m.(cond := m.cond + [v == 0]);
  }

  /** THEN closes the level the matching IF opened. */
  lemma StepThen(m: Machine, c: bool, d: nat)
    requires !m.definefn
    ensures Step(m.(cond := m.cond + [c]), "THEN", d) == Exec(m, Normal)
  {
    var m1 := m.(cond := m.cond + [c]);
    StepBuiltin(m1, Then, d);
    assert ProcessThen(m1) == m;
  }

  /** `<digit> .` prints the digit and leaves the stack as it was. */
  lemma PrintDigit(m: Machine, c: char, rest: seq<string>, d: nat, r: Exec)
    requires !m.definefn && ShouldExecute(m) && IsDigit(c)
    requires RunTokens(m.(out := m.out + [Printed(DigitValue(c))]), rest, d) == r
    ensures RunTokens(m, [[c], "."] + rest, d) == r
  {
    StepDigit(m, c, d);
    var m1 := m.(stack := m.stack + [DigitValue(c)]);
    StepBuiltin(m1, PrintTop, d);
    assert PrintTOS(m1) == m.(out := m.out + [Printed(DigitValue(c))]);
    StepThenRun(m1, ".", rest, d, m.(out := m.out + [Printed(DigitValue(c))]), r);
    StepThenRun(m, [c], ["."] + rest, d, m1, r);
    assert [[c], "."] + rest == [[c]] + (["."] + rest);
  }

  /**
    `1 IF 5 . THEN` prints 5 and `0 IF 5 . THEN` prints nothing; either way
    the line leaves the stack and the IF levels as it found them.
   */
  lemma IfThenExample(m: Machine, d: nat)
    requires !m.definefn && ShouldExecute(m)
    ensures RunTokens(m, ["1", "IF", "5", ".", "THEN"], d) == Exec(m.(out := m.out + [Printed(5)]), Normal)
    ensures RunTokens(m, ["0", "IF", "5", ".", "THEN"], d) == Exec(m, Normal)
  {
    IfThenTaken(m, d);
    IfThenSkipped(m, d);
  }

  lemma IfThenTaken(m: Machine, d: nat)
    requires !m.definefn && ShouldExecute(m)
    ensures RunTokens(m, ["1", "IF", "5", ".", "THEN"], d) == Exec(m.(out := m.out + [Printed(5)]), Normal)
  {
    var r := Exec(m.(out := m.out + [Printed(5)]), Normal);
    var m2 := m.(cond := m.cond + [false]);
    var m3 := m2.(out := m.out + [Printed(5)]);
    StepThen(m.(out := m.out + [Printed(5)]), false, d);
    StepThenRun(m3, "THEN", [], d, r.m, r);
    PrintDigit(m2, '5', ["THEN"], d, r);
    assert [['5'], "."] + ["THEN"] == ["5", ".", "THEN"];
    StepIf(m, 1, d);
    StepThenRun(m.(stack := m.stack + [1]), "IF", ["5", ".", "THEN"], d, m2, r);
    StepDigit(m, '1', d);
    StepThenRun(m, "1", ["IF", "5", ".", "THEN"], d, m.(stack := m.stack + [1]), r);
  }

  lemma IfThenSkipped(m: Machine, d: nat)
    requires !m.definefn && ShouldExecute(m)
    ensures RunTokens(m, ["0", "IF", "5", ".", "THEN"], d) == Exec(m, Normal)
  {
    var m2 := m.(cond := m.cond + [true]);
    SkippedTokensHaveNoEffect(m2, ["5", "."], d);
    StepThen(m, true, d);
    StepThenRun(m2, "THEN", [], d, m, Exec(m, Normal));
    RunTokensAppend(m2, ["5", "."], ["THEN"], d);
    assert ["5", "."] + ["THEN"] == ["5", ".", "THEN"];
    StepIf(m, 0, d);
    StepThenRun(m.(stack := m.stack + [0]), "IF", ["5", ".", "THEN"], d, m2, Exec(m, Normal));
    StepDigit(m, '0', d);
    StepThenRun(m, "0", ["IF", "5", ".", "THEN"], d, m.(stack := m.stack + [0]), Exec(m, Normal));
  }

  /** `0 IF 1 . ELSE 2 . THEN` prints 2 and nothing else. */
  lemma IfElseExample(m: Machine, d: nat)
    requires !m.definefn && ShouldExecute(m)
    ensures RunTokens(m, ["0", "IF", "1", ".", "ELSE", "2", ".", "THEN"], d) == Exec(m.(out := m.out + [Printed(2)]), Normal)
  {
    var r := Exec(m.(out := m.out + [Printed(2)]), Normal);
    var tail := ["1", ".", "ELSE", "2", ".", "THEN"];
    SkippedThenElse(m, d);
    StepIf(m, 0, d);
    StepThenRun(m.(stack := m.stack + [0]), "IF", tail, d, m.(cond := m.cond + [true]), r);
    StepDigit(m, '0', d);
    StepThenRun(m, "0", ["IF"] + tail, d, m.(stack := m.stack + [0]), r);
    assert ["0"] + (["IF"] + tail) == ["0", "IF", "1", ".", "ELSE", "2", ".", "THEN"];
  }

  /** In the skipped branch `1 .` does nothing; ELSE then enables `2 .`. */
  lemma SkippedThenElse(m: Machine, d: nat)
    requires !m.definefn && ShouldExecute(m)
    ensures RunTokens(m.(cond := m.cond + [true]), ["1", ".", "ELSE", "2", ".", "THEN"], d) ==
      Exec(m.(out := m.out + [Printed(2)]), Normal)
  {
    var r := Exec(m.(out := m.out + [Printed(2)]), Normal);
    var m2 := m.(cond := m.cond + [true]);
    ElseBranchPrints(m, d);
    StepBuiltin(m2, Else, d);
    assert ProcessElse(m2) == m.(cond := m.cond + [false]);
    StepThenRun(m2, "ELSE", ["2", ".", "THEN"], d, m.(cond := m.cond + [false]), r);
    SkippedTokensHaveNoEffect(m2, ["1", "."], d);
    var tail := ["ELSE", "2", ".", "THEN"];
    RunTokensAppend(m2, ["1", "."], tail, d);
    assert ["1", "."] + tail == ["1", ".", "ELSE", "2", ".", "THEN"];
    assert ["ELSE"] + ["2", ".", "THEN"] == tail;
  }

  lemma ElseBranchPrints(m: Machine, d: nat)
    requires !m.definefn && ShouldExecute(m)
    ensures RunTokens(m.(cond := m.cond + [false]), ["2", ".", "THEN"], d) == Exec(m.(out := m.out + [Printed(2)]), Normal)
  {
    var r := Exec(m.(out := m.out + [Printed(2)]), Normal);
    var m3 := m.(cond := m.cond + [false]);
    StepThen(r.m, false, d);
    StepThenRun(m3.(out := r.m.out), "THEN", [], d, r.m, r);
    PrintDigit(m3, '2', ["THEN"], d, r);
    assert [['2'], "."] + ["THEN"] == ["2", ".", "THEN"];
  }

  /** After `: DOUBLE DUP + ;`, the line `3 DOUBLE .` prints 6. */
  lemma DoubleExample(m: Machine, d: nat)
    requires !m.definefn && ShouldExecute(m) && "DOUBLE" !in m.userfn && d > 0
    ensures var e := RunTokens(m, [":", "DOUBLE", "DUP", "+", ";"], d);
      e == Exec(m.(userfn := m.userfn["DOUBLE" := ["DUP", "+"]], fnname := ""), Normal) &&
      RunTokens(e.m, ["3", "DOUBLE", "."], d) == Exec(e.m.(out := m.out + [Printed(6)]), Normal)
  {
    DefineWord(m, "DOUBLE", ["DUP", "+"], d);
    assert [":", "DOUBLE"] + ["DUP", "+"] + [";"] == [":", "DOUBLE", "DUP", "+", ";"];
    assert BodyOf(m.userfn, "DOUBLE") + ["DUP", "+"] == ["DUP", "+"];
    var n := m.(userfn := m.userfn["DOUBLE" := ["DUP", "+"]], fnname := "");
    CallDouble(n, d);
  }

  lemma CallDouble(n: Machine, d: nat)
    requires !n.definefn && ShouldExecute(n) && d > 0
    requires "DOUBLE" in n.userfn && n.userfn["DOUBLE"] == ["DUP", "+"]
    ensures RunTokens(n, ["3", "DOUBLE", "."], d) == Exec(n.(out := n.out + [Printed(6)]), Normal)
  {
    var r := Exec(n.(out := n.out + [Printed(6)]), Normal);
    var n1 := n.(stack := n.stack + [3]);
    var n3 := n.(stack := n.stack + [6]);
    StepBuiltin(n3, PrintTop, d);
    assert PrintTOS(n3) == r.m;
    StepThenRun(n3, ".", [], d, r.m, r);
    InvokeDouble(n1, d);
    StepThenRun(n1, "DOUBLE", ["."], d, n3, r);
    StepDigit(n, '3', d);
    StepThenRun(n, "3", ["DOUBLE", "."], d, n1, r);
  }

  lemma InvokeDouble(n1: Machine, d: nat)
    requires !n1.definefn && ShouldExecute(n1) && d > 0
    requires "DOUBLE" in n1.userfn && n1.userfn["DOUBLE"] == ["DUP", "+"]
    requires |n1.stack| > 0 && n1.stack[|n1.stack| - 1] == 3
    ensures Step(n1, "DOUBLE", d) == Exec(n1.(stack := n1.stack[..|n1.stack| - 1] + [6]), Normal)
  {
    DoubleBody(n1, d - 1);
    RunBodyOfWords(n1, ["DUP", "+"], d - 1);
    assert Lookup("DOUBLE").None? && !IsNumber("DOUBLE");
  }

  lemma DoubleBody(n1: Machine, d: nat)
    requires !n1.definefn && ShouldExecute(n1) && |n1.stack| > 0 && n1.stack[|n1.stack| - 1] == 3
    ensures RunTokens(n1, ["DUP", "+"], d) == Exec(n1.(stack := n1.stack[..|n1.stack| - 1] + [6]), Normal)
  {
    var s := n1.stack[..|n1.stack| - 1];
    var r := Exec(n1.(stack := s + [6]), Normal);
    assert n1.stack == s + [3];
    var n2 := n1.(stack := s + [3, 3]);
    StepBuiltin(n2, Arithmetic(Add), d);
    AddAfterPushes(s, 3, 3);
    StepThenRun(n2, "+", [], d, r.m, r);
    StepBuiltin(n1, DupWord, d);
    assert Dup(n1.stack) == s + [3, 3];
    StepThenRun(n1, "DUP", ["+"], d, n2, r);
  }

  /**
    IF in a skipped branch still pops the stack, and the token meant to feed
    it is skipped: with a non-zero value on top, `0 IF 1 IF 5 . THEN THEN`
    consumes that value and prints 5 although the outer condition was 0.
   */
  lemma NestedIfExample(m: Machine, d: nat)
    requires !m.definefn && ShouldExecute(m) && |m.stack| > 0 && m.stack[|m.stack| - 1] != 0
    ensures RunTokens(m, ["0", "IF", "1", "IF", "5", ".", "THEN", "THEN"], d) ==
      Exec(m.(stack := m.stack[..|m.stack| - 1], out := m.out + [Printed(5)]), Normal)
  {
    var s := m.stack[..|m.stack| - 1];
    var v := m.stack[|m.stack| - 1];
    var b := m.(stack := s);
    var r := Exec(b.(out := b.out + [Printed(5)]), Normal);
    var tail := ["1", "IF", "5", ".", "THEN", "THEN"];
    assert m == b.(stack := b.stack + [v]);
    SkippedIfReenables(b, v, d);
    StepIf(m, 0, d);
    StepThenRun(m.(stack := m.stack + [0]), "IF", tail, d, m.(cond := m.cond + [true]), r);
    StepDigit(m, '0', d);
    StepThenRun(m, "0", ["IF"] + tail, d, m.(stack := m.stack + [0]), r);
    assert ["0"] + (["IF"] + tail) == ["0", "IF", "1", "IF", "5", ".", "THEN", "THEN"];
  }

  /** Inside a skipped level, `1` is ignored and the inner IF pops the non-zero `v`, so 5 is printed. */
  lemma SkippedIfReenables(b: Machine, v: int, d: nat)
    requires !b.definefn && ShouldExecute(b) && v != 0
    ensures RunTokens(b.(stack := b.stack + [v], cond := b.cond + [true]), ["1", "IF", "5", ".", "THEN", "THEN"], d) ==
      Exec(b.(out := b.out + [Printed(5)]), Normal)
  {
    var r := Exec(b.(out := b.out + [Printed(5)]), Normal);
    var m2 := b.(stack := b.stack + [v], cond := b.cond + [true]);
    var tail := ["5", ".", "THEN", "THEN"];
    InnerIfPrints(b, d);
    StepIf(b.(cond := b.cond + [true]), v, d);
    StepThenRun(m2, "IF", tail, d, b.(cond := b.cond + [true, false]), r);
    ParseDigit('1');
    assert Step(m2, "1", d) == Exec(m2, Normal);
    StepThenRun(m2, "1", ["IF"] + tail, d, m2, r);
    assert ["1"] + (["IF"] + tail) == ["1", "IF", "5", ".", "THEN", "THEN"];
  }

  lemma InnerIfPrints(b: Machine, d: nat)
    requires !b.definefn && ShouldExecute(b)
    ensures RunTokens(b.(cond := b.cond + [true, false]), ["5", ".", "THEN", "THEN"], d) ==
      Exec(b.(out := b.out + [Printed(5)]), Normal)
  {
    var r := Exec(b.(out := b.out + [Printed(5)]), Normal);
    var c1 := r.m.(cond := b.cond + [true]);
    StepThen(r.m, true, d);
    StepThenRun(c1, "THEN", [], d, r.m, r);
    StepThen(c1, false, d);
    assert c1.(cond := c1.cond + [false]) == r.m.(cond := b.cond + [true, false]);
    StepThenRun(r.m.(cond := b.cond + [true, false]), "THEN", ["THEN"], d, c1, r);
    PrintDigit(b.(cond := b.cond + [true, false]), '5', ["THEN", "THEN"], d, r);
    assert [['5'], "."] + ["THEN", "THEN"] == ["5", ".", "THEN", "THEN"];
  }
}
