/** Tagged values and the operators of object_math.c, over exact numbers. */
module Values {

  /** A function value is the index of its compiled function; a key is an identifier that
      stands among the constants. */
  datatype Element = Num(num: real) | Bool(truth: bool) | Null | Closure(fn: nat) | Key(name: int)

  datatype BinOp = Add | Sub | Mul | Div | Mod | Eq | Ne | Lt | Le | Gt | Ge

  /** `TypeError` is the source's `exit(1)`. `Wild` stands for values that exact numbers do not
      have: what is read from the wrong member of a union, and the infinities and NaN that a
      division of doubles by zero gives. An integer remainder by zero is undefined in C. */
  datatype Outcome = Fine(v: Element) | TypeError | Wild

  /** The cast `(Long)x`: towards zero. */
  function Trunc(x: real): int {
    if x >= 0.0 then x.Floor else -(-x).Floor
  }

  /** C's `%`: the remainder has the sign of the dividend. */
  function TruncMod(a: int, b: int): int
    requires b != 0
  {
    var d := if b < 0 then -b else b;
    if a >= 0 then a % d else -((-a) % d)
  }

  /** What the source-language operator means: `left op right`. */
  function BinValue(op: BinOp, left: Element, right: Element): Outcome {
    if op == Add then
      if !left.Num? then TypeError
      else if !right.Num? then Wild
      else Fine(Num(left.num + right.num))
    else if !left.Num? || !right.Num? then TypeError
    else
      var x, y := left.num, right.num;
      match op
      case Sub => Fine(Num(x - y))
      case Mul => Fine(Num(x * y))
      case Div => if y == 0.0 then Wild else Fine(Num(x / y))
      case Mod => if Trunc(y) == 0 then Wild else Fine(Num(TruncMod(Trunc(x), Trunc(y)) as real))
      case Eq => Fine(Bool(x == y))
      case Ne => Fine(Bool(x != y))
      case Lt => Fine(Bool(x < y))
      case Le => Fine(Bool(x <= y))
      case Gt => Fine(Bool(x > y))
      case _ => Fine(Bool(x >= y))
  }

  /** `_neg`, emitted for both `-` and `!`. */
  function NegValue(a: Element): Outcome {
    match a
    case Num(x) => Fine(Num(-x))
    case Bool(b) => Fine(Bool(!b))
    case _ => TypeError
  }

  /** `_inc` and `_dec`. */
  function BumpValue(a: Element, inc: bool): Outcome {
    if a.Num? then Fine(Num(if inc then a.num + 1.0 else a.num - 1.0)) else TypeError
  }

  /** The C functions `_add` ... `_ge`, whose first argument is the first value popped
      (the right operand) and whose second is the left operand. */
  function PopOp(op: BinOp, a: Element, b: Element): Outcome {
    if op == Add then
      if b.Num? then (if a.Num? then Fine(Num(b.num + a.num)) else Wild) else TypeError
    else if !SameTag(a, b) || !b.Num? then TypeError
    else if op == Sub then Fine(Num(b.num - a.num))
    else if op == Mul then Fine(Num(b.num * a.num))
    else if op == Div then
      if a.num == 0.0 then Wild else Fine(Num(b.num / a.num))
    else if op == Mod then
      if Trunc(a.num) == 0 then Wild else Fine(Num(TruncMod(Trunc(b.num), Trunc(a.num)) as real))
    else if op == Eq then Fine(Bool(b.num == a.num))
    else if op == Ne then Fine(Bool(b.num != a.num))
    else if op == Lt then Fine(Bool(b.num < a.num))
    else if op == Le then Fine(Bool(b.num <= a.num))
    else if op == Gt then Fine(Bool(b.num > a.num))
    else Fine(Bool(b.num >= a.num))
  }

  predicate SameTag(a: Element, b: Element) {
    && a.Num? == b.Num?
    && a.Bool? == b.Bool?
    && a.Null? == b.Null?
    && a.Closure? == b.Closure?
  }

  /** `PUSH(_op(POP(), POP()))` computes `left op right`. */
  lemma OperandOrder(op: BinOp, left: Element, right: Element)
    ensures PopOp(op, right, left) == BinValue(op, left, right)
  {
  }
}
