// Fixed-width arithmetic of the core opcodes (runtime/src/numeric.cpp and the Binary
// opcode of runtime/src/interpreter.cpp). Masking to a width is reduction modulo its power of two.
module Numeric {
  import opened Common
  import opened ExecIR
  import opened Arith

  datatype Error =
    | NumericTypeMismatch
    | UnknownMode
    | ArithmeticOverflow
    | DivisionByZero

  lemma {:induction false} Pow2Monotone(a: nat, b: nat)
    requires a <= b
    ensures Pow2(a) <= Pow2(b)
    decreases b
  {
    if a < b {
      Pow2Monotone(a, b - 1);
    }
  }

  lemma Pow2Of64()
    ensures Pow2(64) == TWO64
  {
    assert Pow2(8) == 256;
    assert Pow2(16) == 256 * Pow2(8);
    assert Pow2(24) == 256 * Pow2(16);
    assert Pow2(32) == 256 * Pow2(24);
    assert Pow2(40) == 256 * Pow2(32);
    assert Pow2(48) == 256 * Pow2(40);
    assert Pow2(56) == 256 * Pow2(48);
    assert Pow2(64) == 256 * Pow2(56);
  }

  function Mask(n: nat, width: nat): (r: nat)
    ensures r < Pow2(width) && r <= n
  {
    QuotientBound(n, Pow2(width));
    n % Pow2(width)
  }

  function Bits(v: Value, width: nat): (r: Result<u64, Error>)
    ensures r.Ok? <==> v.Num? && 1 <= width <= 64 && v.n < Pow2(width)
    ensures r.Ok? ==> v == Num(r.value)
    ensures r.Err? ==> r.error == NumericTypeMismatch
  {
    if 1 <= width <= 64 && v.Num? && v.n < Pow2(width) then Ok(v.n) else Err(NumericTypeMismatch)
  }

  // 64-bit complement and negation, then masked.
  function EvalUnary(mode: nat, v: Value, width: nat): Result<Value, Error> {
    if mode > 2 then Err(UnknownMode)
    else if mode == 0 then
      if v.Bool? then Ok(Bool(!v.b)) else Err(NumericTypeMismatch)
    else
      match Bits(v, width)
      case Err(e) => Err(e)
      case Ok(n) => Ok(Num(Mask(if mode == 1 then MAX64 - n else (TWO64 - n) % TWO64, width)))
  }

  // The alternative of the value variant in use.
  function Alternative(v: Value): nat {
    match v
    case Unit => 0 case Bool(_) => 1 case Num(_) => 2 case Signed(_) => 3
    case Bytes(_) => 4 case Array(_) => 5 case Hnd(_) => 6
  }

  function EvalCompare(mode: nat, a: Value, b: Value, width: nat): Result<Value, Error> {
    if mode > 5 then Err(UnknownMode)
    else if mode <= 1 && width == 0 then
      if Alternative(a) != Alternative(b) then Err(NumericTypeMismatch)
      else Ok(Bool(if mode == 0 then a == b else a != b))
    else
      match (Bits(a, width), Bits(b, width))
      case (Err(e), _) => Err(e)
      case (_, Err(e)) => Err(e)
      case (Ok(x), Ok(y)) =>
        Ok(Bool(
             if mode == 0 then x == y
             else if mode == 1 then x != y
             else if mode == 2 then x < y
             else if mode == 3 then x <= y
             else if mode == 4 then x > y
             else x >= y))
  }

  // Mode 0 widens, mode 1 truncates, mode 2 narrows with a range check.
  function EvalConvert(mode: nat, v: Value, from: nat, to: nat): Result<Value, Error> {
    if mode > 2 then Err(UnknownMode)
    else
      match Bits(v, from)
      case Err(e) => Err(e)
      case Ok(n) =>
        if !(1 <= to <= 64) || (mode == 0 && from > to) || (mode != 0 && from < to) then Err(NumericTypeMismatch)
        else if mode == 2 && n >= Pow2(to) then Err(ArithmeticOverflow)
        else Ok(Num(Mask(n, to)))
  }

  // The arithmetic part of the Binary opcode on operands of one width; sums and products
  // are formed in 64 bits before masking.
  function EvalArith(op: BinaryOp, x: u64, y: u64, width: nat): Result<Value, Error>
    requires 1 <= width <= 64
  {
    match op
    case AddWrap => Ok(Num(Mask((x + y) % TWO64, width)))
    case SubWrap => Ok(Num(Mask((x - y) % TWO64, width)))
    case MulWrap => Ok(Num(Mask((x * y) % TWO64, width)))
    case AddChecked =>
      if y > Pow2(width) - 1 - x then Err(ArithmeticOverflow)
      else Pow2Monotone(width, 64); Pow2Of64(); Ok(Num(x + y))
    case DivChecked =>
      if y == 0 then Err(DivisionByZero) else QuotientBound(x, y); Ok(Num(x / y))
    case _ => Err(UnknownMode)
  }

  // --------------------------------------------------------------------------------
  // What the operations mean.

  // Powers of two up to 64 divide the word size, so masking after 64-bit wrap-around is
  // reduction of the exact integer result.
  lemma {:induction false} WordMultiple(width: nat) returns (q: nat)
    requires width <= 64
    ensures TWO64 == q * Pow2(width)
    decreases 64 - width
  {
    if width == 64 {
      Pow2Of64();
      q := 1;
    } else {
      var half := WordMultiple(width + 1);
      q := 2 * half;
      assert half * Pow2(width + 1) == half * (2 * Pow2(width));
    }
  }

  lemma PowFits(width: nat)
    requires width <= 64
    ensures Pow2(width) <= TWO64
  {
    Pow2Monotone(width, 64);
    Pow2Of64();
  }

  lemma MaskWord(n: int, width: nat)
    requires width <= 64
    ensures Mask(n % TWO64, width) == n % Pow2(width)
  {
    var q := WordMultiple(width);
    var k := n / TWO64;
    DivMod(n, TWO64);
    assert k * TWO64 == (k * q) * Pow2(width);
    ModShift(n % TWO64, k * q, Pow2(width));
  }

  // Wrapping arithmetic is arithmetic modulo the width.
  lemma WrapIsModular(op: BinaryOp, x: u64, y: u64, width: nat)
    requires 1 <= width <= 64 && (op.AddWrap? || op.SubWrap? || op.MulWrap?)
    ensures var r := EvalArith(op, x, y, width);
            && r.Ok?
            && r.value.Num?
            && r.value.n == (if op.AddWrap? then x + y else if op.SubWrap? then x - y else x * y) % Pow2(width)
  {
    match op
    case AddWrap => MaskWord(x + y, width);
    case SubWrap => MaskWord(x - y, width);
    case MulWrap => MaskWord(x * y, width);
  }

  // Subtraction undoes wrapping addition.
  lemma AddThenSub(x: u64, y: u64, width: nat)
    requires 1 <= width <= 64 && x < Pow2(width) && y < Pow2(width)
    ensures var s := EvalArith(AddWrap, x, y, width);
            s.Ok? && s.value.Num? && EvalArith(SubWrap, s.value.n, y, width) == Ok(Num(x))
  {
    var m := Pow2(width);
    var s := EvalArith(AddWrap, x, y, width).value.n;
    WrapIsModular(AddWrap, x, y, width);
    WrapIsModular(SubWrap, s, y, width);
    var k := (x + y) / m;
    DivMod(x + y, m);
    Distribute(0, k, m);
    assert s - y == x + (0 - k) * m;
    ModShift(x, 0 - k, m);
    ModSmall(x, m);
  }

  // Checked addition returns the exact sum, and refuses exactly the sums that do not fit.
  lemma CheckedAddExact(x: u64, y: u64, width: nat)
    requires 1 <= width <= 64 && x < Pow2(width) && y < Pow2(width)
    ensures var r := EvalArith(AddChecked, x, y, width);
            if x + y < Pow2(width) then r.Ok? && r.value.Num? && r.value.n == x + y else r == Err(ArithmeticOverflow)
  {
    PowFits(width);
  }

  // On a width, complement is reflection and negation is the additive inverse.
  lemma UnaryMeaning(mode: nat, n: u64, width: nat)
    requires 1 <= mode <= 2 && 1 <= width <= 64 && n < Pow2(width)
    ensures var r := EvalUnary(mode, Num(n), width);
            && r.Ok?
            && r.value.Num?
            && r.value.n == if mode == 1 then Pow2(width) - 1 - n else if n == 0 then 0 else Pow2(width) - n
  {
    var m := Pow2(width);
    var q := WordMultiple(width);
    Distribute(q, 1, m);
    PowFits(width);
    if mode == 1 {
      ModUnique(MAX64 - n, q - 1, m - 1 - n, m);
    } else if n == 0 {
      ModSmall(0, m);
    } else {
      ModSmall(TWO64 - n, TWO64);
      ModUnique(TWO64 - n, q - 1, m - n, m);
    }
  }

  // Complement and negation undo themselves.
  lemma UnaryInvolution(mode: nat, n: u64, width: nat)
    requires 1 <= mode <= 2 && 1 <= width <= 64 && n < Pow2(width)
    ensures var r := EvalUnary(mode, Num(n), width);
            r.Ok? && EvalUnary(mode, r.value, width) == Ok(Num(n))
  {
    UnaryMeaning(mode, n, width);
    UnaryMeaning(mode, EvalUnary(mode, Num(n), width).value.n, width);
  }

  // Widening is undone by truncation, and a checked narrowing that succeeds loses nothing.
  lemma ConvertRoundTrip(n: u64, from: nat, to: nat)
    requires 1 <= from <= to <= 64 && n < Pow2(from)
    ensures EvalConvert(0, Num(n), from, to) == Ok(Num(n))
    ensures EvalConvert(1, Num(n), to, from) == Ok(Num(n))
    ensures EvalConvert(2, Num(n), to, from) == Ok(Num(n))
  {
    Pow2Monotone(from, to);
    ModSmall(n, Pow2(to));
    ModSmall(n, Pow2(from));
  }
}
