/** Laws of the operators: what they compute, said without their definitions. */
module Operators {
  import opened Values

  // ------------------------------------------------------ integer remainder

  function Abs(x: int): nat {
    if x < 0 then -x else x
  }

  /** `(Long)x` drops the fraction: it goes no further from zero than `x`, and by less than one. */
  lemma TowardsZero(x: real)
    ensures x >= 0.0 ==> 0.0 <= Trunc(x) as real <= x < Trunc(x) as real + 1.0
    ensures x <= 0.0 ==> Trunc(x) as real - 1.0 < x <= Trunc(x) as real <= 0.0
  {
  }

  /** What C asks of a remainder: it completes a multiple of the divisor, is smaller than it, and
      has the sign of the dividend. */
  ghost predicate Remains(a: int, b: int, r: int) {
    Abs(r) < Abs(b) && (r == 0 || (r < 0 <==> a < 0)) && exists q :: a == Times(q, b) + r
  }

  function Times(q: int, b: int): int {
    q * b
  }

  /** `%` computes the one number that is a remainder. */
  lemma RemainderExact(a: int, b: int, r: int)
    requires b != 0
    ensures r == TruncMod(a, b) <==> Remains(a, b, r)
  {
    RemainderIs(a, b);
    if Remains(a, b, r) {
      OneRemainder(a, b, r, TruncMod(a, b));
    }
  }

  lemma RemainderIs(a: int, b: int)
    requires b != 0
    ensures Remains(a, b, TruncMod(a, b))
  {
    var d, n := Abs(b), Abs(a);
    var q: int := n / d;
    assert n == q * d + n % d;
    if (a < 0) == (b < 0) {
      assert a == Times(q, b) + TruncMod(a, b);
    } else {
      assert a == Times(-q, b) + TruncMod(a, b);
    }
  }

  lemma OneRemainder(a: int, b: int, r: int, r': int)
    requires b != 0 && Remains(a, b, r) && Remains(a, b, r')
    ensures r == r'
  {
    var q :| a == Times(q, b) + r;
    var q' :| a == Times(q', b) + r';
    assert (q - q') * b == r' - r;
    if q - q' >= 1 {
      assert Abs((q - q') * b) >= Abs(b) by { Scaled(q - q', b); }
    } else if q - q' <= -1 {
      assert Abs((q - q') * b) >= Abs(b) by { Scaled(q - q', b); }
    }
  }

  lemma Scaled(n: int, b: int)
    requires n != 0
    ensures Abs(n * b) >= Abs(b)
  {
    var m: int, d: int := Abs(n), Abs(b);
    Multiple(m, d);
    assert Abs(n * b) == m * d by {
      assert n * b == m * d || n * b == -(m * d);
    }
  }

  lemma Multiple(m: nat, d: nat)
    requires m >= 1
    ensures m * d >= d
  {
  }

  /** `l % r` on the integer parts of its operands. */
  lemma ModIs(x: real, y: real, r: int)
    requires Trunc(y) != 0
    ensures BinValue(Mod, Num(x), Num(y)) == Fine(Num(r as real)) <==> Remains(Trunc(x), Trunc(y), r)
    ensures BinValue(Mod, Num(-7.0), Num(3.0)) == Fine(Num(-1.0))
            && BinValue(Mod, Num(7.5), Num(-3.0)) == Fine(Num(1.0))
  {
    RemainderExact(Trunc(x), Trunc(y), r);
  }

  // -------------------------------------------------------------- negation

  /** Negation undoes itself; a number and its negation add up to nothing; no truth value is its
      own negation. */
  lemma NegationUndone(v: Element)
    requires v.Num? || v.Bool?
    ensures NegValue(v).Fine? && NegValue(NegValue(v).v) == Fine(v)
    ensures v.Num? ==> BinValue(Add, v, NegValue(v).v) == Fine(Num(0.0))
    ensures v.Bool? ==> NegValue(v).v.Bool? && NegValue(v).v != v
  {
  }

  /** `++` adds one, `--` takes it away, and each undoes the other. */
  lemma BumpsByOne(v: Element)
    ensures BumpValue(v, true) == BinValue(Add, v, Num(1.0)) && BumpValue(v, false) == BinValue(Sub, v, Num(1.0))
    ensures forall inc :: v.Num? ==> BumpValue(v, inc).Fine? && BumpValue(BumpValue(v, inc).v, !inc) == Fine(v)
  {
  }

  // ----------------------------------------------------------- comparisons

  predicate Holds(op: BinOp, x: real, y: real) {
    BinValue(op, Num(x), Num(y)) == Fine(Bool(true))
  }

  /** Of `<`, `==` and `>` exactly one holds; the other three are what they leave. */
  lemma Trichotomy(x: real, y: real)
    ensures (if Holds(Lt, x, y) then 1 else 0) + (if Holds(Eq, x, y) then 1 else 0) + (if Holds(Gt, x, y) then 1 else 0)
            == 1
    ensures Holds(Le, x, y) <==> Holds(Lt, x, y) || Holds(Eq, x, y)
    ensures Holds(Ge, x, y) <==> Holds(Gt, x, y) || Holds(Eq, x, y)
    ensures Holds(Ne, x, y) <==> !Holds(Eq, x, y)
    ensures Holds(Lt, x, y) <==> Holds(Gt, y, x)
  {
  }

  /** `==` is equality, and `<` holds of two numbers if a positive one leads from the first to the second. */
  lemma Ordered(x: real, y: real)
    ensures Holds(Eq, x, y) <==> x == y
    ensures Holds(Lt, x, y) <==> exists d :: d > 0.0 && BinValue(Add, Num(x), Num(d)) == Fine(Num(y))
    ensures Holds(Lt, 0.0, 1.0)
  {
    if Holds(Lt, x, y) {
      assert BinValue(Add, Num(x), Num(y - x)) == Fine(Num(y));
    }
  }

  // ------------------------------------------------------------- arithmetic

  /** The result of an operator on two numbers, where it has one. */
  function Result(op: BinOp, x: real, y: real): real
    requires op == Add || op == Sub || op == Mul || (op == Div && y != 0.0)
  {
    BinValue(op, Num(x), Num(y)).v.num
  }

  /** `+` and `*` make the numbers a commutative ring with `0` and `1`. */
  lemma Ring(x: real, y: real, z: real)
    ensures Result(Add, x, y) == Result(Add, y, x) && Result(Mul, x, y) == Result(Mul, y, x)
    ensures Result(Add, Result(Add, x, y), z) == Result(Add, x, Result(Add, y, z))
    ensures Result(Mul, Result(Mul, x, y), z) == Result(Mul, x, Result(Mul, y, z))
    ensures Result(Mul, x, Result(Add, y, z)) == Result(Add, Result(Mul, x, y), Result(Mul, x, z))
    ensures Result(Add, x, 0.0) == x && Result(Mul, x, 1.0) == x
  {
    assert (x * y) * z == x * (y * z);
    assert x * (y + z) == x * y + x * z;
  }

  /** `-` undoes `+`, and `/` undoes `*`. */
  lemma Undone(x: real, y: real)
    ensures Result(Sub, Result(Add, x, y), y) == x && Result(Add, Result(Sub, x, y), y) == x
    ensures y != 0.0 ==> Result(Div, Result(Mul, x, y), y) == x && Result(Mul, Result(Div, x, y), y) == x
  {
    if y != 0.0 {
      Quotient(x, y);
    }
  }

  lemma Quotient(x: real, y: real)
    requires y != 0.0
    ensures (x * y) / y == x && (x / y) * y == x
  {
  }

  // ----------------------------------------------------------------- errors

  /** When an operator stops the program, and when its result is outside the exact numbers: only
      `+` looks at its left operand alone. */
  lemma Kinds(op: BinOp, left: Element, right: Element)
    ensures BinValue(op, left, right) == TypeError <==> !left.Num? || (op != Add && !right.Num?)
    ensures BinValue(op, left, right) == Wild <==>
            left.Num? && (if right.Num? then (op == Div && right.num == 0.0) || (op == Mod && -1.0 < right.num < 1.0)
                          else op == Add)
    ensures BinValue(op, left, right).Fine? ==>
            if op in {Add, Sub, Mul, Div, Mod} then BinValue(op, left, right).v.Num?
            else BinValue(op, left, right).v.Bool?
    ensures NegValue(left) == TypeError <==> !left.Num? && !left.Bool?
    ensures BumpValue(left, true) == TypeError <==> !left.Num?
    ensures BumpValue(left, false) == TypeError <==> !left.Num?
  {
    if right.Num? {
      SmallTrunc(right.num);
    }
  }

  lemma SmallTrunc(y: real)
    ensures Trunc(y) == 0 <==> -1.0 < y < 1.0
  {
    TowardsZero(y);
  }
}
