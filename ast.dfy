/** The syntax tree the parser builds and the run-time values its evaluation produces,
    with the meaning of the literal and of each binary operator. Integers are unbounded:
    the model of `+`, `-` and `*` assumes no result leaves the range in which the
    JavaScript code's double-precision numbers are exact. The bitwise operators work on 32-bit
    two's complement, as those of `ast.js` do. */
module Ast {
  import opened Wrappers

  /** A node of the tree. `None` children stand for the `null` or `undefined` that the
      parser stores where a construction failed. */
  datatype Node =
    | VariableDeclaration(identifier: string, init: Option<Node>)
    | FunctionDeclaration(name: string, params: seq<string>, body: Option<FunctionBody>)
    | AssignmentExpression(target: string, rhs: Option<Node>)
    | CallExpression(name: string, args: Option<Arguments>)
    | Value(value: string)
    | Identifier(id: string)
    | BinaryExpression(op: string, left: Node, right: Node)
    | ReturnExpression(expr: Node)

  /** The argument list of a call, as the parser collected it. */
  datatype Arguments = Arguments(items: seq<Option<Node>>)

  /** A function's body; evaluation stops at its first `ReturnExpression`. */
  datatype FunctionBody = FunctionBody(declaration: seq<Option<Node>>, statements: seq<Option<Node>>)

  /** The program: its statements run in a context of their own. */
  datatype ScopeNode = ScopeNode(declaration: seq<Option<Node>>, statements: seq<Option<Node>>)

  /** A run-time value: a number (an integer or NaN), `undefined`, `null`, or the function
      object a declaration binds. */
  datatype Val =
    | Number(n: int)
    | NaN
    | Undefined
    | Null
    | FunctionObject(name: string, params: seq<string>, body: Option<FunctionBody>)

  /** `n` holds no `ReturnExpression`, at any depth. */
  predicate NoReturn(n: Node)
  {
    match n
    case VariableDeclaration(_, init) => init.None? || NoReturn(init.value)
    case FunctionDeclaration(_, _, body) =>
      body.None? ||
      ((forall k :: 0 <= k < |body.value.declaration| ==>
          body.value.declaration[k].None? || NoReturn(body.value.declaration[k].value)) &&
       (forall k :: 0 <= k < |body.value.statements| ==>
          body.value.statements[k].None? || NoReturn(body.value.statements[k].value)))
    case AssignmentExpression(_, rhs) => rhs.None? || NoReturn(rhs.value)
    case CallExpression(_, args) =>
      args.None? ||
      forall k :: 0 <= k < |args.value.items| ==> args.value.items[k].None? || NoReturn(args.value.items[k].value)
    case Value(_) => true
    case Identifier(_) => true
    case BinaryExpression(_, l, r) => NoReturn(l) && NoReturn(r)
    case ReturnExpression(_) => false
  }

  /** JavaScript truthiness: zero, NaN, `undefined` and `null` are falsy. */
  predicate Truthy(v: Val)
  {
    match v
    case Number(n) => n != 0
    case FunctionObject(_, _, _) => true
    case _ => false
  }

  // ----- Integer literals -----

  predicate IsDigit(c: char)
  {
    '0' <= c <= '9'
  }

  predicate AllDigits(s: string)
  {
    forall k :: 0 <= k < |s| ==> IsDigit(s[k])
  }

  /** The number a string of decimal digits denotes. */
  function DecimalValue(s: string): (n: nat)
    requires AllDigits(s)
  {
    if s == [] then 0 else DecimalValue(s[..|s| - 1]) * 10 + (s[|s| - 1] as int - '0' as int)
  }

  /** The decimal digits of `n`, without leading zeros. */
  function DecimalString(n: nat): (s: string)
    ensures AllDigits(s) && 0 < |s|
    ensures |s| > 1 ==> s[0] != '0'
  {
    if n < 10 then [('0' as int + n) as char]
    else DecimalString(n / 10) + [('0' as int + n % 10) as char]
  }

  /** The length of the run of digits that starts `s`. */
  function DigitPrefix(s: string): (k: nat)
    ensures k <= |s| && AllDigits(s[..k])
    ensures k < |s| ==> !IsDigit(s[k])
  {
    if s != [] && IsDigit(s[0]) then
      var k := 1 + DigitPrefix(s[1..]);
      assert s[..k] == [s[0]] + s[1..][..k - 1];
      k
    else
      0
  }

  /** `parseInt` in base 10, for the texts a literal can hold: the value of the leading
      digits, and NaN when there are none. */
  function ParseInt(text: string): Val
  {
    var k := DigitPrefix(text);
    if k == 0 then NaN else Number(DecimalValue(text[..k]))
  }

  /** Reading back the digits of a number gives the number. */
  lemma {:induction false} DecimalRoundTrip(n: nat)
    ensures DecimalValue(DecimalString(n)) == n
  {
    var s := DecimalString(n);
    if n >= 10 {
      DecimalRoundTrip(n / 10);
      assert s[..|s| - 1] == DecimalString(n / 10);
    }
  }

  /** A literal made of digits evaluates to the number those digits denote. */
  lemma {:induction false} ParseIntOfDigits(s: string)
    requires 0 < |s| && AllDigits(s)
    ensures ParseInt(s) == Number(DecimalValue(s))
  {
    DigitsArePrefix(s);
    assert s[..|s|] == s;
  }

  lemma {:induction false} DigitsArePrefix(s: string)
    requires AllDigits(s)
    ensures DigitPrefix(s) == |s|
  {
    if s != [] {
      DigitsArePrefix(s[1..]);
    }
  }

  /** Parsing the decimal text of `n` gives `n`. */
  lemma ParseIntRoundTrip(n: nat)
    ensures ParseInt(DecimalString(n)) == Number(n)
  {
    ParseIntOfDigits(DecimalString(n));
    DecimalRoundTrip(n);
    assert DecimalString(n)[..|DecimalString(n)|] == DecimalString(n);
  }

  // ----- 32-bit integers -----

  const TWO_32: int := 0x1_0000_0000
  const TWO_31: int := 0x8000_0000

  predicate IsInt32(x: int)
  {
    -TWO_31 <= x < TWO_31
  }

  /** Wrap-around of an integer into the signed 32-bit range. */
  function Wrap32(x: int): (r: int)
    ensures IsInt32(r)
    ensures (r - x) % TWO_32 == 0
  {
    (x + TWO_31) % TWO_32 - TWO_31
  }

  /** JavaScript's `ToNumber` for the integer operators: `null` is 0; `undefined`, NaN and
      a function object are NaN (`None`). */
  function ToNumber(v: Val): Option<int>
  {
    match v
    case Number(n) => Some(n)
    case Null => Some(0)
    case _ => None
  }

  /** JavaScript's `ToInt32`: NaN becomes 0, anything else wraps into 32 bits. */
  function ToInt32(v: Val): (r: int)
    ensures IsInt32(r)
  {
    match ToNumber(v)
    case Some(n) => Wrap32(n)
    case None => 0
  }

  /** The shift count: the right operand's low five bits. */
  function ShiftCount(v: Val): (k: nat)
    ensures k < 32
  {
    match ToNumber(v)
    case Some(n) => n % 32
    case None => 0
  }

  function Pow2(k: nat): (r: nat)
    ensures r > 0
  {
    if k == 0 then 1 else 2 * Pow2(k - 1)
  }

  /** `2^a * 2^b == 2^(a + b)`. */
  lemma {:induction false} Pow2Add(a: nat, b: nat)
    ensures Pow2(a + b) == Pow2(a) * Pow2(b)
  {
    if a > 0 {
      Pow2Add(a - 1, b);
    }
  }

  /** The two constants are the powers of two they are meant to be. */
  lemma Pow2Constants()
    ensures Pow2(31) == TWO_31 && Pow2(32) == TWO_32
  {
    assert Pow2(2) == 4;
    Pow2Add(2, 2);
    Pow2Add(4, 4);
    Pow2Add(8, 8);
    Pow2Add(16, 15);
    Pow2Add(16, 16);
  }

  /** One bit of `&`, `|` or `^`, for bits `x` and `y` in {0, 1}. */
  function Bit(op: string, x: nat, y: nat): (r: nat)
    ensures r <= 1
  {
    if op == "&" then (if x == 1 && y == 1 then 1 else 0)
    else if op == "|" then (if x == 1 || y == 1 then 1 else 0)
    else (if x != y then 1 else 0)
  }

  /** `op` applied bit by bit to the `n` low bits of `a` and `b`. */
  function {:induction false} BitOp(op: string, a: nat, b: nat, n: nat): (r: nat)
    ensures r < Pow2(n)
  {
    if n == 0 then 0 else 2 * BitOp(op, a / 2, b / 2, n - 1) + Bit(op, a % 2, b % 2)
  }

  /** The 32-bit pattern of an integer, read as unsigned. */
  function ToUnsigned(x: int): (u: nat)
    ensures u < TWO_32
  {
    x % TWO_32
  }

  /** A 32-bit pattern read as a two's complement integer. */
  function FromUnsigned(u: nat): (r: int)
    requires u < TWO_32
    ensures IsInt32(r)
    ensures (r - u) % TWO_32 == 0
  {
    if u < TWO_31 then u else u - TWO_32
  }

  /** Wrapping leaves a signed 32-bit integer unchanged. */
  lemma Wrap32OfInt32(x: int)
    requires IsInt32(x)
    ensures Wrap32(x) == x
  {
    var y := x + TWO_31;
    assert 0 <= y < TWO_32;
    assert y % TWO_32 == y;
  }

  /** A signed 32-bit integer survives the trip through its bit pattern. */
  lemma UnsignedRoundTrip(x: int)
    requires IsInt32(x)
    ensures FromUnsigned(ToUnsigned(x)) == x
  {
    if x < 0 {
      assert 0 <= x + TWO_32 < TWO_32;
      assert x % TWO_32 == x + TWO_32;
    } else {
      assert x % TWO_32 == x;
    }
  }

  /** `l op r` for `&`, `|` and `^`: both operands through `ToInt32`, combined bit by bit. */
  function Bitwise(op: string, l: Val, r: Val): (v: int)
    ensures IsInt32(v)
  {
    Pow2Constants();
    FromUnsigned(BitOp(op, ToUnsigned(ToInt32(l)), ToUnsigned(ToInt32(r)), 32))
  }

  /** Each bitwise operator is symmetric in its operands. */
  lemma {:induction false} BitOpCommutes(op: string, a: nat, b: nat, n: nat)
    ensures BitOp(op, a, b, n) == BitOp(op, b, a, n)
  {
    if n > 0 {
      BitOpCommutes(op, a / 2, b / 2, n - 1);
    }
  }

  /** On a number of `n` bits, `& (2^n - 1)`, `| 0` and `^ 0` change nothing. */
  lemma {:induction false} BitOpIdentities(a: nat, n: nat)
    requires a < Pow2(n)
    ensures BitOp("&", a, Pow2(n) - 1, n) == a
    ensures BitOp("|", a, 0, n) == a
    ensures BitOp("^", a, 0, n) == a
  {
    if n > 0 {
      assert (Pow2(n) - 1) / 2 == Pow2(n - 1) - 1 && (Pow2(n) - 1) % 2 == 1;
      BitOpIdentities(a / 2, n - 1);
    }
  }

  /** `x ^ x` is 0. */
  lemma {:induction false} BitOpSelfInverse(a: nat, n: nat)
    ensures BitOp("^", a, a, n) == 0
  {
    if n > 0 {
      BitOpSelfInverse(a / 2, n - 1);
    }
  }

  /** Bit `k` of `x`. */
  function BitOf(x: nat, k: nat): (b: nat)
    ensures b <= 1
  {
    if k == 0 then x % 2 else BitOf(x / 2, k - 1)
  }

  /** Each bit of the result is `op` applied to the same bit of the two operands. */
  lemma {:induction false} BitOpBits(op: string, a: nat, b: nat, n: nat, k: nat)
    requires k < n
    ensures BitOf(BitOp(op, a, b, n), k) == Bit(op, BitOf(a, k), BitOf(b, k))
    decreases k
  {
    var r := BitOp(op, a, b, n);
    assert r == 2 * BitOp(op, a / 2, b / 2, n - 1) + Bit(op, a % 2, b % 2);
    if k > 0 {
      assert r / 2 == BitOp(op, a / 2, b / 2, n - 1);
      BitOpBits(op, a / 2, b / 2, n - 1, k - 1);
    }
  }

  /** Two numbers of `n` bits that agree on every bit are equal, so `BitOpBits` and the
      bound of `BitOp` determine its value. */
  lemma {:induction false} BitsDetermine(x: nat, y: nat, n: nat)
    requires x < Pow2(n) && y < Pow2(n)
    requires forall k: nat :: k < n ==> BitOf(x, k) == BitOf(y, k)
    ensures x == y
    decreases n
  {
    if n > 0 {
      forall k: nat | k < n - 1 ensures BitOf(x / 2, k) == BitOf(y / 2, k) {
        assert BitOf(x, k + 1) == BitOf(y, k + 1);
      }
      BitsDetermine(x / 2, y / 2, n - 1);
      assert BitOf(x, 0) == BitOf(y, 0);
    }
  }

  /** Numeric `+`, `-` and `*`: NaN when either operand is not a number. */
  function Arithmetic(op: string, l: Val, r: Val): Val
    requires op in {"+", "-", "*"}
  {
    match (ToNumber(l), ToNumber(r))
    case (Some(a), Some(b)) =>
      Number(if op == "+" then a + b else if op == "-" then a - b else a * b)
    case _ => NaN
  }

  /** `a >> k`: the arithmetic (sign-propagating) shift, `k` halvings each rounding toward
      minus infinity, as Dafny's division by a positive divisor does. */
  function ShiftRight(a: int, k: nat): int
    decreases k
  {
    if k == 0 then a else ShiftRight(a / 2, k - 1)
  }

  /** The value of `left op right`. `None` is a result the model does not represent: `+`
      with a function object (`ast.js` concatenates strings) and `/` and `%` (whose
      results are fractions; no token ever produces them). An operator outside the
      `switch` of `ast.js` yields `undefined`. */
  function ApplyOperator(op: string, l: Val, r: Val): Option<Val>
  {
    match op
    case "*" => Some(Arithmetic(op, l, r))
    case "/" => None
    case "%" => None
    case "+" => if l.FunctionObject? || r.FunctionObject? then None else Some(Arithmetic(op, l, r))
    case "-" => Some(Arithmetic(op, l, r))
    case "<<" => Some(Number(Wrap32(ToInt32(l) * Pow2(ShiftCount(r)))))
    case ">>" => Some(Number(ShiftRight(ToInt32(l), ShiftCount(r))))
    case "&" => Some(Number(Bitwise(op, l, r)))
    case "^" => Some(Number(Bitwise(op, l, r)))
    case "|" => Some(Number(Bitwise(op, l, r)))
    case "&&" => Some(if Truthy(l) then r else l)
    case "||" => Some(if Truthy(l) then l else r)
    case _ => Some(Undefined)
  }

  /** `&&` and `||` return one of their operands, and that operand is truthy exactly when
      the logical conjunction (disjunction) of the operands' truthiness holds. */
  lemma LogicalOperators(l: Val, r: Val)
    ensures ApplyOperator("&&", l, r) == Some(if Truthy(l) then r else l)
    ensures ApplyOperator("||", l, r) == Some(if Truthy(l) then l else r)
    ensures Truthy(ApplyOperator("&&", l, r).value) <==> Truthy(l) && Truthy(r)
    ensures Truthy(ApplyOperator("||", l, r).value) <==> Truthy(l) || Truthy(r)
  {
  }

  /** The bitwise operators always give a signed 32-bit integer. */
  lemma BitwiseResultsAreInt32(op: string, l: Val, r: Val)
    requires op in {"<<", ">>", "&", "^", "|"}
    ensures ApplyOperator(op, l, r).Some?
    ensures ApplyOperator(op, l, r).value.Number?
    ensures IsInt32(ApplyOperator(op, l, r).value.n)
  {
    if op == ">>" {
      ShiftRightStaysInRange(ToInt32(l), ShiftCount(r));
    }
  }

  /** `>>` moves its operand toward minus infinity, never past 0 from either side: a
      non-negative number stays non-negative and a negative one negative. */
  lemma {:induction false} ShiftRightStaysInRange(a: int, k: nat)
    requires IsInt32(a)
    ensures IsInt32(ShiftRight(a, k))
    ensures a >= 0 ==> 0 <= ShiftRight(a, k) <= a
    ensures a < 0 ==> a <= ShiftRight(a, k) < 0
    decreases k
  {
    if k > 0 {
      ShiftRightStaysInRange(a / 2, k - 1);
    }
  }

  /** The shift count is taken modulo 32: shifting by `n + 32` is shifting by `n`. */
  lemma ShiftCountModulo32(op: string, l: Val, n: int)
    requires op in {"<<", ">>"}
    ensures ApplyOperator(op, l, Number(n + 32)) == ApplyOperator(op, l, Number(n))
  {
    assert (n + 32) % 32 == n % 32;
  }

  /** `x & -1`, `x | 0` and `x ^ 0` leave a 32-bit integer unchanged. */
  lemma BitwiseIdentities(x: int)
    requires IsInt32(x)
    ensures ApplyOperator("&", Number(x), Number(-1)) == Some(Number(x))
    ensures ApplyOperator("|", Number(x), Number(0)) == Some(Number(x))
    ensures ApplyOperator("^", Number(x), Number(0)) == Some(Number(x))
  {
    Pow2Constants();
    Wrap32OfInt32(x);
    Wrap32OfInt32(-1);
    Wrap32OfInt32(0);
    assert ToUnsigned(-1) == TWO_32 - 1;
    assert ToUnsigned(0) == 0;
    BitOpIdentities(ToUnsigned(x), 32);
    UnsignedRoundTrip(x);
  }

  /** `x ^ x` is 0. */
  lemma XorSelf(x: int)
    ensures ApplyOperator("^", Number(x), Number(x)) == Some(Number(0))
  {
    BitOpSelfInverse(ToUnsigned(ToInt32(Number(x))), 32);
  }

  /** `&`, `|` and `^` are commutative. */
  lemma BitwiseSymmetric(op: string, l: Val, r: Val)
    ensures Bitwise(op, l, r) == Bitwise(op, r, l)
  {
    BitOpCommutes(op, ToUnsigned(ToInt32(l)), ToUnsigned(ToInt32(r)), 32);
  }

  lemma BitwiseCommutes(op: string, l: Val, r: Val)
    requires op == "&" || op == "|" || op == "^"
    ensures ApplyOperator(op, l, r) == ApplyOperator(op, r, l)
  {
    BitwiseSymmetric(op, l, r);
    AppliesBitwise(op, l, r);
    AppliesBitwise(op, r, l);
  }

  lemma AppliesBitwise(op: string, l: Val, r: Val)
    requires op == "&" || op == "|" || op == "^"
    ensures ApplyOperator(op, l, r) == Some(Number(Bitwise(op, l, r)))
  {
  }

  /** No bit is set in the combination of two zeros. */
  lemma {:induction false} BitOpOfZeros(op: string, n: nat)
    ensures BitOp(op, 0, 0, n) == 0
  {
    if n > 0 {
      BitOpOfZeros(op, n - 1);
    }
  }

  /** `5 & 3` is 1. */
  lemma AndExample()
    ensures ApplyOperator("&", Number(5), Number(3)) == Some(Number(1))
  {
    Int32Operands("&", 5, 3);
    assert ToUnsigned(5) == 5 && ToUnsigned(3) == 3;
    AndBits();
  }

  lemma AndBits()
    ensures BitOp("&", 5, 3, 32) == 1
  {
    BitOpOfZeros("&", 29);
    assert BitOp("&", 1, 0, 30) == 0;
    assert BitOp("&", 2, 1, 31) == 0;
  }

  /** `6 ^ 3` is 5. */
  lemma XorExample()
    ensures ApplyOperator("^", Number(6), Number(3)) == Some(Number(5))
  {
    Int32Operands("^", 6, 3);
    assert ToUnsigned(6) == 6 && ToUnsigned(3) == 3;
    XorBits();
  }

  lemma XorBits()
    ensures BitOp("^", 6, 3, 32) == 5
  {
    BitOpOfZeros("^", 29);
    assert BitOp("^", 1, 0, 30) == 1;
    assert BitOp("^", 3, 1, 31) == 2;
  }

  /** `-8 | 3` is -5. */
  lemma OrExample()
    ensures ApplyOperator("|", Number(-8), Number(3)) == Some(Number(-5))
  {
    Int32Operands("|", -8, 3);
    assert ToUnsigned(-8) == TWO_32 - 8 && ToUnsigned(3) == 3;
    OrBits();
  }

  lemma OrBits()
    ensures BitOp("|", TWO_32 - 8, 3, 32) == TWO_32 - 5
  {
    var high := TWO_32 / 8 - 1;
    Pow2Constants();
    assert Pow2(32) == 8 * Pow2(29);
    BitOpIdentities(high, 29);
    assert BitOp("|", 2 * high, 0, 30) == 2 * high;
    assert BitOp("|", 4 * high, 1, 31) == 4 * high + 1;
  }

  /** On two signed 32-bit numbers, `&`, `|` and `^` combine their bit patterns. */
  lemma Int32Operands(op: string, x: int, y: int)
    requires op in {"&", "|", "^"} && IsInt32(x) && IsInt32(y)
    ensures Pow2(32) == TWO_32
    ensures ApplyOperator(op, Number(x), Number(y))
            == Some(Number(FromUnsigned(BitOp(op, ToUnsigned(x), ToUnsigned(y), 32))))
  {
    Pow2Constants();
    Wrap32OfInt32(x);
    Wrap32OfInt32(y);
    assert ToInt32(Number(x)) == x && ToInt32(Number(y)) == y;
    assert ApplyOperator(op, Number(x), Number(y)) == Some(Number(Bitwise(op, Number(x), Number(y))));
  }

  /** `1 << 31` wraps to the least 32-bit integer. */
  lemma ShiftLeftWraps()
    ensures ApplyOperator("<<", Number(1), Number(31)) == Some(Number(-TWO_31))
  {
    Wrap32OfInt32(1);
    assert ShiftCount(Number(31)) == 31;
    Pow2Constants();
    assert Wrap32(TWO_31) == -TWO_31;
  }

  /** `1 << 33` shifts by 1: only the count's low five bits are used. */
  lemma ShiftLeftCount()
    ensures ApplyOperator("<<", Number(1), Number(33)) == Some(Number(2))
  {
    Wrap32OfInt32(1);
    assert ShiftCount(Number(33)) == 1;
    assert Pow2(1) == 2;
    Wrap32OfInt32(2);
  }

  /** `-5 >> 1` rounds toward minus infinity, to -3. */
  lemma ShiftRightExample()
    ensures ApplyOperator(">>", Number(-5), Number(1)) == Some(Number(-3))
  {
  }

  /** `null` counts as 0 and `undefined` as NaN in arithmetic. */
  lemma NullAndUndefinedInArithmetic(n: int)
    ensures ApplyOperator("+", Null, Number(n)) == Some(Number(n))
    ensures ApplyOperator("+", Undefined, Number(n)) == Some(NaN)
    ensures ApplyOperator("*", NaN, Number(0)) == Some(NaN)
  {
  }
}
