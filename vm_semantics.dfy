/**
  The meaning of `ForthVM` (forth_vm.cc, forth_vm.h) as functions on a value
  of its state. The class `VirtualMachine.ForthVM` is proved to change its
  fields exactly as these functions say; the lemmas in `VMProperties` state
  what the functions promise.
 */
module VMSemantics {
  import opened Wrappers
  import opened Lexer
  import opened Arith
  import opened StackOps
  import opened Events

  /**
    The five fields of `ForthVM` plus the log of what it wrote. `cond` is
    `cond_stack_` with its top as the last element.
   */
  datatype Machine = Machine(
    stack: seq<int>,
    cond: seq<bool>,
    userfn: map<string, seq<string>>,
    fnname: string,
    definefn: bool,
    out: seq<Output>)

  /** A state together with how the run that produced it ended. */
  datatype Exec = Exec(m: Machine, status: Status)

  /** A freshly constructed `ForthVM`. */
  function Init(): Machine {
    Machine([], [], map[], "", false, [])
  }

  datatype ZeroTest = ZeroEq | ZeroLt | ZeroGt | ZeroNe

  /** The closures of the constructor's `functions_` table, one per kind of entry. */
  datatype Builtin =
    | Arithmetic(op: BinOp)
    | Negate
    | Not
    | ZeroCompare(test: ZeroTest)
    | DupWord
    | DropWord
    | SwapWord
    | PrintTop
    | If
    | Else
    | Then
    | BeginDefinition
    | EndDefinition

  /** The `functions_` table as the constructor fills it. */
  const Table: map<string, Builtin> := map[
    "+" := Arithmetic(Add), "-" := Arithmetic(Sub), "*" := Arithmetic(Mul),
    "/" := Arithmetic(Div), "MOD" := Arithmetic(Mod), "NEGATE" := Negate,
    ">" := Arithmetic(Gt), "<" := Arithmetic(Lt), "=" := Arithmetic(Eq), "<>" := Arithmetic(Ne),
    "0=" := ZeroCompare(ZeroEq), "0<" := ZeroCompare(ZeroLt),
    "0>" := ZeroCompare(ZeroGt), "0<>" := ZeroCompare(ZeroNe),
    "DUP" := DupWord, "DROP" := DropWord, "SWAP" := SwapWord,
    "AND" := Arithmetic(And), "OR" := Arithmetic(Or), "XOR" := Arithmetic(Xor), "NOT" := Not,
    "." := PrintTop,
    "IF" := If, "ELSE" := Else, "THEN" := Then,
    ":" := BeginDefinition, ";" := EndDefinition]

  /** `functions_.contains(token)` and the entry it finds. */
  function Lookup(t: string): Option<Builtin> {
    if t in Table then Some(Table[t]) else None
  }

  /** The word under which a builtin is registered. */
  function Name(b: Builtin): string {
    match b
    case Arithmetic(op) =>
      (match op
       case Add => "+" case Sub => "-" case Mul => "*" case Div => "/" case Mod => "MOD"
       case Gt => ">" case Lt => "<" case Eq => "=" case Ne => "<>"
       case And => "AND" case Or => "OR" case Xor => "XOR")
    case Negate => "NEGATE"
    case Not => "NOT"
    case ZeroCompare(z) =>
      (match z case ZeroEq => "0=" case ZeroLt => "0<" case ZeroGt => "0>" case ZeroNe => "0<>")
    case DupWord => "DUP"
    case DropWord => "DROP"
    case SwapWord => "SWAP"
    case PrintTop => "."
    case If => "IF"
    case Else => "ELSE"
    case Then => "THEN"
    case BeginDefinition => ":"
    case EndDefinition => ";"
  }

  /** Every builtin is found under its name. */
  lemma LookupName(b: Builtin)
    ensures Lookup(Name(b)) == Some(b)
  {
  }

  /** The table holds nothing else: a word found in it is the name of what it finds. */
  lemma NameOfLookup(t: string)
    requires Lookup(t).Some?
    ensures Name(Lookup(t).value) == t
  {
  }

  /** `shouldExecute`: no open IF, or the innermost one is not skipping. */
  predicate ShouldExecute(m: Machine) {
    |m.cond| == 0 || !m.cond[|m.cond| - 1]
  }

  /** The table entries wrapped in `if (shouldExecute())`; control and definition words are not. */
  predicate Guarded(b: Builtin) {
    !(b.If? || b.Else? || b.Then? || b.BeginDefinition? || b.EndDefinition?)
  }

  function Report(m: Machine, e: Error): Machine {
    m.(out := m.out + [Reported(e)])
  }

  predicate ZeroTestHolds(z: ZeroTest, v: int) {
    match z
    case ZeroEq => v == 0
    case ZeroLt => v < 0
    case ZeroGt => v > 0
    case ZeroNe => v != 0
  }

  /** `zeroCompare`: replace the top by the 0/1 outcome of the test; an empty stack is left alone. */
  function ZeroCompareStack(z: ZeroTest, s: seq<int>): seq<int> {
    if |s| == 0 then s else s[..|s| - 1] + [Flag(ZeroTestHolds(z, s[|s| - 1]))]
  }

  /** `printTOS`: pop the top and write it; nothing at all on an empty stack. */
  function PrintTOS(m: Machine): Machine {
    if |m.stack| == 0 then m
    else m.(stack := m.stack[..|m.stack| - 1], out := m.out + [Printed(m.stack[|m.stack| - 1])])
  }

  /** `processIf`: pop the condition and open a level that skips when it was 0. */
  function ProcessIf(m: Machine): Machine {
    if |m.stack| == 0 then Report(m, StackEmpty)
    else m.(stack := m.stack[..|m.stack| - 1], cond := m.cond + [m.stack[|m.stack| - 1] == 0])
  }

  /** `processElse`: flip the innermost skip flag. */
  function ProcessElse(m: Machine): Machine {
    if |m.cond| == 0 then Report(m, ElseWithoutIf)
    else m.(cond := m.cond[..|m.cond| - 1] + [!m.cond[|m.cond| - 1]])
  }

  /** `processThen`: close the innermost level. */
  function ProcessThen(m: Machine): Machine {
    if |m.cond| == 0 then Report(m, ThenWithoutIf)
    else m.(cond := m.cond[..|m.cond| - 1])
  }

  /** `binaryOperator` on the machine's stack. */
  function BinaryStep(m: Machine, op: BinOp): Exec {
    match Binary(op, m.stack)
    case Underflow => Exec(Report(m, NotEnoughValues), Normal)
    case Undefined => Exec(m, UndefinedBehaviour)
    case Pushed(s) => Exec(m.(stack := s), Normal)
  }

  /** What a table entry does once its guard (if any) has let it through. */
  function Perform(m: Machine, b: Builtin): Exec {
    match b
    case Arithmetic(op) => BinaryStep(m, op)
    case Negate => Exec(m, Unmodelled)
    case Not => Exec(m, Unmodelled)
    case ZeroCompare(z) => Exec(m.(stack := ZeroCompareStack(z, m.stack)), Normal)
    case DupWord => Exec(m.(stack := Dup(m.stack)), Normal)
    case DropWord => Exec(m.(stack := Drop(m.stack)), Normal)
    case SwapWord => Exec(m.(stack := Swap(m.stack)), Normal)
    case PrintTop => Exec(PrintTOS(m), Normal)
    case If => Exec(ProcessIf(m), Normal)
    case Else => Exec(ProcessElse(m), Normal)
    case Then => Exec(ProcessThen(m), Normal)
    case BeginDefinition => Exec(m.(definefn := true, fnname := ""), Normal)
    case EndDefinition => Exec(m.(definefn := false, fnname := ""), Normal)
  }

  /** Calling the closure `functions_[token]`. */
  function CallBuiltin(m: Machine, b: Builtin): Exec {
    if Guarded(b) && !ShouldExecute(m) then Exec(m, Normal) else Perform(m, b)
  }

  /** `userfn_[name]`: `operator[]` starts an absent name with an empty body. */
  function BodyOf(userfn: map<string, seq<string>>, name: string): seq<string> {
    if name in userfn then userfn[name] else []
  }

  /** Definition mode: the first token names the word, every later one joins its body. */
  function Capture(m: Machine, tok: string): Machine {
    if |m.fnname| == 0 then m.(fnname := tok)
    else m.(userfn := m.userfn[m.fnname := BodyOf(m.userfn, m.fnname) + [tok]])
  }

  /** `stack_.push_back(std::stoi(token))`. */
  function PushNumber(m: Machine, tok: string): Exec
    requires IsNumber(tok)
  {
    var v := ParseNumber(tok);
    if InInt(v) then Exec(m.(stack := m.stack + [v]), Normal) else Exec(m, OutOfRange)
  }

  /**
    One iteration of the loop in `run`, in its priority order. Output is only
    ever appended, and a step that stops the run without invoking a user word
    leaves the machine as it was.
   */
  function Step(m: Machine, tok: string, depth: nat): (r: Exec)
    ensures m.out <= r.m.out
    ensures r.status != Normal && tok !in m.userfn ==> r.m == m
    decreases depth, 1, 0
  {
    if m.definefn && tok != ";" then Exec(Capture(m, tok), Normal)
    else if Lookup(tok).Some? then CallBuiltin(m, Lookup(tok).value)
    else if IsNumber(tok) && ShouldExecute(m) then PushNumber(m, tok)
    else if tok in m.userfn && ShouldExecute(m) then Invoke(m, tok, depth)
    else if ShouldExecute(m) then Exec(Report(m, UnknownWord(tok)), Normal)
    else Exec(m, Normal)
  }

  /**
    `runDefinition(name)` reached with `depth` more nested invocations
    allowed: the body is replayed one stored token at a time, each as its own
    line. The body is read once, when the word is invoked.
   */
  function Invoke(m: Machine, name: string, depth: nat): (r: Exec)
    requires name in m.userfn
    ensures m.out <= r.m.out
    decreases depth, 0, 0
  {
    if depth == 0 then Exec(m, DepthExhausted) else RunBody(m, m.userfn[name], depth - 1)
  }

  /** The `for` loop of `runDefinition`: `run(cmd)` for each stored token in turn. */
  function RunBody(m: Machine, cmds: seq<string>, depth: nat): (r: Exec)
    ensures m.out <= r.m.out
    decreases depth, 2, |cmds|
  {
    if cmds == [] then Exec(m, Normal)
    else
      var e := RunTokens(m, Tokens(cmds[0]), depth);
      if e.status != Normal then e else RunBody(e.m, cmds[1..], depth)
  }

  /** The `while (stream >> token)` loop of `run` over the tokens still to come. */
  function RunTokens(m: Machine, toks: seq<string>, depth: nat): (r: Exec)
    ensures m.out <= r.m.out
    decreases depth, 1, |toks|
  {
    if toks == [] then Exec(m, Normal)
    else
      var e := Step(m, toks[0], depth);
      if e.status != Normal then e else RunTokens(e.m, toks[1..], depth)
  }

  /** `run(input)`: output is only appended, and a blank line changes nothing. */
  function RunLine(m: Machine, line: string, depth: nat): (r: Exec)
    ensures m.out <= r.m.out
    ensures Tokens(line) == [] ==> r == Exec(m, Normal)
  {
    RunTokens(m, Tokens(line), depth)
  }
}
