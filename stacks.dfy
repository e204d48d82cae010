/** Value-level behaviour of the data stack primitives. A stack is a sequence
    whose last element is the top. Missing operands read as 0, as the value
    accessor of the C++ frame substitutes them. */
module Stacks {

  function Abs(x: int): nat { if x < 0 then -x else x }

  /** take_dtos_from: the top and the stack below it; 0 and the empty stack on underflow. */
  function Take(s: seq<int>): (int, seq<int>) {
    if s == [] then (0, []) else (s[|s| - 1], s[..|s| - 1])
  }

  /** An empty stack reads as 0 and stays empty; otherwise exactly the top is
      removed and returned. */
  lemma TakePopsTop(s: seq<int>)
    ensures s == [] ==> Take(s) == (0, [])
    ensures s != [] ==> Take(s).1 + [Take(s).0] == s && |Take(s).1| == |s| - 1
  {
  }

  /** DROP: remove the top; an empty stack is left alone. */
  function DropTop(s: seq<int>): seq<int> {
    if s == [] then s else s[..|s| - 1]
  }

  /** DUP: push a copy of the top; an empty stack is left alone. */
  function DupTop(s: seq<int>): seq<int> {
    if s == [] then s else s + [s[|s| - 1]]
  }

  /** SWAP: take a then b, push a then b. */
  function SwapTop(s: seq<int>): seq<int> {
    var (a, s1) := Take(s);
    var (b, s2) := Take(s1);
    s2 + [a, b]
  }

  /** SWAP exchanges the two top elements; missing ones read as 0. */
  lemma SwapTopShape(s: seq<int>)
    ensures |s| >= 2 ==> SwapTop(s) == s[..|s| - 2] + [s[|s| - 1], s[|s| - 2]]
    ensures |s| == 1 ==> SwapTop(s) == [s[0], 0]
    ensures |s| == 0 ==> SwapTop(s) == [0, 0]
  {
  }

  /** OVER: take a then b, push b, a, b. */
  function OverTop(s: seq<int>): seq<int> {
    var (a, s1) := Take(s);
    var (b, s2) := Take(s1);
    s2 + [b, a, b]
  }

  /** OVER copies the second element to the top; missing ones read as 0. */
  lemma OverTopShape(s: seq<int>)
    ensures |s| >= 2 ==> OverTop(s) == s + [s[|s| - 2]]
    ensures |s| == 1 ==> OverTop(s) == [0, s[0], 0]
    ensures |s| == 0 ==> OverTop(s) == [0, 0, 0]
  {
    if |s| >= 2 {
      assert s[..|s| - 1][..|s| - 2] + [s[|s| - 2], s[|s| - 1]] == s;
    }
  }

  /** C++ `/` on int: the quotient truncated toward zero, so that the remainder
      b - q * a is smaller than the divisor and carries the sign of the dividend. */
  function Quot(b: int, a: int): int
    requires a != 0
  {
    var m := Abs(b) / Abs(a);
    if (b >= 0) == (a > 0) then m else -m
  }

  /** The quotient truncates toward zero: its remainder is smaller than the
      divisor and is zero or has the sign of the dividend. */
  lemma QuotTruncates(b: int, a: int)
    requires a != 0
    ensures Abs(b - Quot(b, a) * a) < Abs(a)
    ensures b - Quot(b, a) * a == 0 || (b - Quot(b, a) * a > 0) == (b > 0)
  {
    var m := Abs(b) / Abs(a);
    QuotRemainder(b, a, m, Quot(b, a));
  }

  /** The remainder of the truncated quotient is the remainder of |b| by |a|,
      with the sign of b. */
  lemma QuotRemainder(b: int, a: int, m: int, q: int)
    requires a != 0 && m == Abs(b) / Abs(a)
    requires q == if (b >= 0) == (a > 0) then m else -m
    ensures Abs(b - q * a) < Abs(a)
    ensures b - q * a == 0 || (b - q * a > 0) == (b > 0)
  {
    var n, d := Abs(b), Abs(a);
    var r := n % d;
    assert n == d * m + r && 0 <= r < d;
    var rem := b - q * a;
    if b >= 0 && a > 0 {
      assert rem == r;
    } else if b >= 0 {
      NegTimesNeg(m, d);
      assert rem == r;
    } else if a > 0 {
      NegTimes(m, d);
      assert rem == -r;
    } else {
      NegTimes(d, m);
      assert rem == -r;
    }
    if b == 0 {
      assert r == 0 by { assert n == 0; }
    }
  }

  lemma NegTimes(x: int, y: int)
    ensures (-x) * y == -(x * y) && y * (-x) == -(x * y)
  {
  }

  lemma NegTimesNeg(x: int, y: int)
    ensures (-x) * (-y) == x * y
  {
  }

  /** The four binary arithmetic operators. */
  datatype ArithOp = Add | Sub | Mul | Quo

  /** The result pushed for the popped top a and next b. */
  function Combine(op: ArithOp, a: int, b: int): int
    requires op == Quo ==> a != 0
  {
    match op
    case Add => a + b
    case Sub => b - a
    case Mul => a * b
    case Quo => Quot(b, a)
  }

  /** A binary primitive: take a then b, push the combination. */
  function Binary(op: ArithOp, s: seq<int>): seq<int>
    requires op == Quo ==> Take(s).0 != 0
  {
    var (a, s1) := Take(s);
    var (b, s2) := Take(s1);
    s2 + [Combine(op, a, b)]
  }

  /** A binary primitive replaces the two top elements by their combination,
      the top a as first operand; missing operands read as 0. */
  lemma BinaryShape(op: ArithOp, s: seq<int>)
    requires op == Quo ==> Take(s).0 != 0
    ensures |s| >= 2 ==> Binary(op, s) == s[..|s| - 2] + [Combine(op, s[|s| - 1], s[|s| - 2])]
    ensures |s| == 1 ==> Binary(op, s) == [Combine(op, s[0], 0)]
    ensures |s| == 0 ==> Binary(op, s) == [Combine(op, 0, 0)]
  {
  }

  /** With a on top of b, a binary primitive leaves what is below and pushes
      the combination of a and b. */
  lemma BinaryOperands(op: ArithOp, below: seq<int>, b: int, a: int)
    requires op == Quo ==> a != 0
    ensures Binary(op, below + [b, a]) == below + [Combine(op, a, b)]
  {
    var s := below + [b, a];
    assert s[..|s| - 1] == below + [b];
    assert (below + [b])[..|below|] == below;
  }

  /** With a on top of b, SWAP gives [.. a b] and OVER gives [.. b a b]. */
  lemma ShapeOperands(below: seq<int>, b: int, a: int)
    ensures SwapTop(below + [b, a]) == below + [a, b]
    ensures OverTop(below + [b, a]) == below + [b, a, b]
  {
    var s := below + [b, a];
    assert s[..|s| - 1] == below + [b];
    assert (below + [b])[..|below|] == below;
  }

  /** The stack as the value accessor sees it: missing operands read as 0. */
  function Padded(s: seq<int>): (p: seq<int>)
    ensures |p| >= 2 && (|s| >= 2 ==> p == s)
  {
    if |s| == 0 then [0, 0] else if |s| == 1 then [0, s[0]] else s
  }

  /** The two-operand primitives act on a short stack exactly as on that stack
      padded with zeros underneath. */
  lemma MissingOperandsReadAsZero(s: seq<int>, op: ArithOp)
    ensures SwapTop(s) == SwapTop(Padded(s)) && OverTop(s) == OverTop(Padded(s))
    ensures (op != Quo || Take(s).0 != 0) ==> Binary(op, s) == Binary(op, Padded(s))
  {
    SwapTopShape(s);
    SwapTopShape(Padded(s));
    OverTopShape(s);
    OverTopShape(Padded(s));
    if op != Quo || Take(s).0 != 0 {
      BinaryShape(op, s);
      BinaryShape(op, Padded(s));
    }
    if |s| < 2 {
      assert Padded(s)[..|Padded(s)| - 2] == [];
    }
  }

  /** primitive_base<B>: 16 and 8 are kept, every other request becomes 10. */
  function BaseFor(b: int): (r: int)
    ensures r == 8 || r == 10 || r == 16
    ensures (b == 8 || b == 10 || b == 16) ==> r == b
    ensures !(b == 8 || b == 10 || b == 16) ==> r == 10
  {
    if b == 16 || b == 8 then b else 10
  }
}
