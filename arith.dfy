/**
  The integer operations behind the arithmetic, comparison and bitwise words,
  on C++ `int` (32 bits, two's complement). An operation whose C++ result is
  undefined (signed overflow, a zero divisor, `INT_MIN / -1`) yields `None`:
  the model does not pick a value for it.
 */
module Arith {
  import opened Wrappers

  const IntMin: int := -0x8000_0000
  const IntMax: int := 0x7FFF_FFFF
  const Modulus: int := 0x1_0000_0000

  predicate InInt(x: int) {
    IntMin <= x <= IntMax
  }

  function Abs(x: int): nat {
    if x < 0 then -x else x
  }

  /**
    C++ `/` on integers: the quotient truncated toward zero. Its magnitude
    is the largest that does not overshoot `a`, and it is negative only when
    the operands' signs differ.
   */
  function TruncDiv(a: int, b: int): (q: int)
    requires b != 0
    ensures Abs(q) * Abs(b) <= Abs(a) < (Abs(q) + 1) * Abs(b)
    ensures q < 0 ==> (a < 0) != (b < 0)
  {
    EuclidOnNat(Abs(a), Abs(b));
    var q := Abs(a) / Abs(b);
    if (a < 0) == (b < 0) then q else -q
  }

  /** C++ `%` on integers: smaller than the divisor, with the sign of the dividend. */
  function TruncMod(a: int, b: int): (r: int)
    requires b != 0
    ensures Abs(r) < Abs(b)
    ensures r != 0 ==> (r < 0 <==> a < 0)
  {
    var r := Abs(a) % Abs(b);
    if a < 0 then -r else r
  }

  /**
    The identities C++ promises for `/` and `%`: `(a/b)*b + a%b == a`, the
    remainder is smaller than the divisor, and the quotient never overshoots
    `a` (truncation toward zero).
   */
  lemma TruncDivMod(a: int, b: int)
    requires b != 0
    ensures a == TruncDiv(a, b) * b + TruncMod(a, b)
    ensures Abs(TruncMod(a, b)) < Abs(b)
    ensures Abs(TruncDiv(a, b) * b) <= Abs(a)
  {
    var q, r := Abs(a) / Abs(b), Abs(a) % Abs(b);
    EuclidOnNat(Abs(a), Abs(b));
    SignedQuotient(a, b, q, r, TruncDiv(a, b), TruncMod(a, b));
  }

  lemma EuclidOnNat(x: nat, y: nat)
    requires y > 0
    ensures x == (x / y) * y + x % y && 0 <= x % y < y && x / y >= 0
  {
  }

  lemma SignedQuotient(a: int, b: int, q: int, r: int, d: int, m: int)
    requires b != 0 && q >= 0 && r >= 0 && Abs(a) == q * Abs(b) + r && r < Abs(b)
    requires d == (if (a < 0) == (b < 0) then q else -q)
    requires m == (if a < 0 then -r else r)
    ensures a == d * b + m && Abs(m) < Abs(b) && Abs(d * b) <= Abs(a)
  {
    var n := Abs(b);
    if b < 0 {
      assert q * b == -(q * n);
    } else {
      assert q * b == q * n;
    }
    assert d * b == if a < 0 then -(q * n) else q * n;
  }

  /** Where truncation and Dafny's Euclidean division part ways. */
  lemma TruncatesTowardZero()
    ensures TruncDiv(-7, 2) == -3 && TruncMod(-7, 2) == -1
    ensures TruncDiv(7, -2) == -3 && TruncMod(7, -2) == 1
    ensures -7 / 2 == -4 && -7 % 2 == 1
  {
  }

  /** The bits of an `int` in two's complement. */
  function ToBits(x: int): bv32 {
    (x % Modulus) as bv32
  }

  /** The `int` whose two's-complement bits are `v`. */
  function FromBits(v: bv32): (x: int)
    ensures InInt(x)
  {
    if v as int <= IntMax then v as int else v as int - Modulus
  }

  datatype BinOp = Add | Sub | Mul | Div | Mod | Gt | Lt | Eq | Ne | And | Or | Xor

  /** A mathematically exact result kept only when it fits an `int`. */
  function Checked(x: int): (r: Option<int>)
    ensures r.Some? <==> InInt(x)
    ensures r.Some? ==> r.value == x
  {
    if InInt(x) then Some(x) else None
  }

  function Flag(b: bool): int {
    if b then 1 else 0
  }

  /**
    `op(a, b)` as the `std::plus<>`, ..., `std::bit_xor<>` functors compute it on
    `int`; comparisons yield `bool` converted to 0 or 1.
   */
  function ApplyBinary(op: BinOp, a: int, b: int): (r: Option<int>)
    ensures r.Some? ==> InInt(r.value)
  {
    match op
    case Add => Checked(a + b)
    case Sub => Checked(a - b)
    case Mul => Checked(a * b)
    case Div => if b == 0 then None else Checked(TruncDiv(a, b))
    case Mod => if b == 0 || !InInt(TruncDiv(a, b)) then None else Checked(TruncMod(a, b))
    case Gt => Some(Flag(a > b))
    case Lt => Some(Flag(a < b))
    case Eq => Some(Flag(a == b))
    case Ne => Some(Flag(a != b))
    case And => Some(Bitwise(op, a, b))
    case Or => Some(Bitwise(op, a, b))
    case Xor => Some(Bitwise(op, a, b))
  }

  /** `&`, `|` and `^` on 32 bits. */
  function BitOp(op: BinOp, x: bv32, y: bv32): bv32 {
    if op.And? then x & y else if op.Or? then x | y else x ^ y
  }

  /** `&`, `|` and `^` on `int`: the result's two's-complement bits are those of `a` and `b` combined bit by bit. */
  function Bitwise(op: BinOp, a: int, b: int): (r: int)
    ensures InInt(r)
    ensures ToBits(r) == BitOp(op, ToBits(a), ToBits(b))
  {
    var v := BitOp(op, ToBits(a), ToBits(b));
    ToBitsFromBits(v);
    FromBits(v)
  }

  /** Bits read as an `int` and written back are the same bits: `FromBits` loses nothing. */
  lemma ToBitsFromBits(v: bv32)
    ensures ToBits(FromBits(v)) == v
  {
    FromBitsModulus(v);
    SameBits(FromBits(v) % Modulus, v);
  }

  lemma FromBitsModulus(v: bv32)
    ensures FromBits(v) % Modulus == v as int
  {
  }

  lemma SameBits(y: int, v: bv32)
    requires y == v as int
    ensures y as bv32 == v
  {
  }

  predicate IsComparison(op: BinOp) {
    op.Gt? || op.Lt? || op.Eq? || op.Ne?
  }

  /** Comparisons are always defined and yield 0 or 1, never Forth's all-ones flag. */
  lemma ComparisonIsFlag(op: BinOp, a: int, b: int)
    requires IsComparison(op)
    ensures ApplyBinary(op, a, b) == Some(0) || ApplyBinary(op, a, b) == Some(1)
    ensures op.Lt? ==> (ApplyBinary(op, a, b) == Some(1) <==> a < b)
    ensures op.Gt? ==> (ApplyBinary(op, a, b) == Some(1) <==> a > b)
    ensures op.Eq? ==> (ApplyBinary(op, a, b) == Some(1) <==> a == b)
    ensures op.Ne? ==> (ApplyBinary(op, a, b) == Some(1) <==> a != b)
  {
  }

  /** Division and remainder are undefined for a zero divisor and for `INT_MIN / -1`. */
  lemma DivisionUndefined(a: int)
    ensures ApplyBinary(Div, a, 0) == None && ApplyBinary(Mod, a, 0) == None
    ensures ApplyBinary(Div, IntMin, -1) == None && ApplyBinary(Mod, IntMin, -1) == None
  {
  }
}
