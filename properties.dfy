/** What the Frame Machine promises, stated about the functions of module
    Semantics (and so, through the method contracts, about class Frame). */
module Properties {
  import opened Atoms
  import opened Stacks
  import opened Numerals
  import opened Semantics

  // ----- Underflow policy -----

  /** DROP and DUP leave an empty stack, and the rest of the frame, alone. */
  lemma {:induction false} ShapeOpsOnEmpty(st: FrameState)
    requires st.stack == []
    ensures Dispatched(st, Drop) == (st, Running)
    ensures Dispatched(st, Dup) == (st, Running)
  {
  }

  // ----- Binary operand order -----

  /** With a on top of b, PLUS pushes a+b in their place and leaves the rest. */
  lemma {:induction false} PlusOperands(st: FrameState, below: seq<int>, b: int, a: int)
    requires st.stack == below + [b, a]
    ensures Dispatched(st, Plus) == (st.(stack := below + [a + b]), Running)
  {
    BinaryOperands(Add, below, b, a);
  }

  /** With a on top of b, MINUS pushes b-a: the top is the subtrahend. */
  lemma {:induction false} MinusOperands(st: FrameState, below: seq<int>, b: int, a: int)
    requires st.stack == below + [b, a]
    ensures Dispatched(st, Minus) == (st.(stack := below + [b - a]), Running)
  {
    BinaryOperands(Sub, below, b, a);
  }

  /** With a on top of b, MULT pushes a*b. */
  lemma {:induction false} MultOperands(st: FrameState, below: seq<int>, b: int, a: int)
    requires st.stack == below + [b, a]
    ensures Dispatched(st, Mult) == (st.(stack := below + [a * b]), Running)
  {
    BinaryOperands(Mul, below, b, a);
  }

  /** With a on top of b, DIV pushes b/a truncated toward zero: the top is the
      divisor. A zero divisor traps, after both operands have been taken. */
  lemma {:induction false} DivOperands(st: FrameState, below: seq<int>, b: int, a: int)
    requires st.stack == below + [b, a]
    ensures a != 0 ==> Dispatched(st, Div) == (st.(stack := below + [Quot(b, a)]), Running)
    ensures a == 0 ==> Dispatched(st, Div) == (st.(stack := below), DividedByZero)
  {
    assert st.stack[..|st.stack| - 1] == below + [b];
    assert (below + [b])[..|below|] == below;
    if a != 0 {
      BinaryOperands(Quo, below, b, a);
    }
  }

  // ----- Shape operators and constants -----

  /** DUP on a non-empty stack adds one element, a copy of the top. */
  lemma {:induction false} DupNonEmpty(st: FrameState)
    requires st.stack != []
    ensures var s := Dispatched(st, Dup).0.stack;
      |s| == |st.stack| + 1 && s[|s| - 1] == st.stack[|st.stack| - 1] && s[..|st.stack|] == st.stack
  {
    var s := Dispatched(st, Dup).0.stack;
    assert s == st.stack + [st.stack[|st.stack| - 1]];
  }

  /** SWAP exchanges the two top elements and leaves the rest. */
  lemma {:induction false} SwapShape(st: FrameState, below: seq<int>, b: int, a: int)
    requires st.stack == below + [b, a]
    ensures Dispatched(st, Swap) == (st.(stack := below + [a, b]), Running)
  {
    ShapeOperands(below, b, a);
  }

  /** SWAP twice is the identity on a stack of depth two or more. */
  lemma {:induction false} SwapTwice(st: FrameState)
    requires |st.stack| >= 2
    ensures Expanded(st, [Swap, Swap]) == (st, Running)
  {
    var s := st.stack;
    var below, b, a := s[..|s| - 2], s[|s| - 2], s[|s| - 1];
    assert s == below + [b, a];
    var once := st.(stack := below + [a, b]);
    assert Expanded(once, [Swap]) == (st, Running) by {
      SwapShape(once, below, a, b);
      assert [Swap][1..] == [];
    }
    SwapShape(st, below, b, a);
    assert [Swap, Swap][1..] == [Swap];
  }

  /** SWAP on a single element x leaves [x, 0], a 0 on top, and a second SWAP gives
      [0, x]: SWAP is not its own inverse there. */
  lemma {:induction false} SwapSingle(st: FrameState, x: int)
    requires st.stack == [x]
    ensures Expanded(st, [Swap, Swap]).0.stack == [0, x]
  {
    SwapTopShape([x]);
    ShapeOperands([], x, 0);
    assert [] + [x, 0] == [x, 0] && [] + [0, x] == [0, x];
    var once := st.(stack := [x, 0]);
    assert Dispatched(st, Swap) == (once, Running);
    assert Expanded(once, [Swap]) == (once.(stack := [0, x]), Running) by {
      assert [Swap][1..] == [];
    }
    assert [Swap, Swap][1..] == [Swap];
  }

  /** OVER turns [.. b a] into [.. b a b]. */
  lemma {:induction false} OverShape(st: FrameState, below: seq<int>, b: int, a: int)
    requires st.stack == below + [b, a]
    ensures Dispatched(st, Over) == (st.(stack := below + [b, a, b]), Running)
  {
    ShapeOperands(below, b, a);
  }

  /** DEPTH pushes the depth before it. */
  lemma {:induction false} DepthPushesSize(st: FrameState)
    ensures Dispatched(st, Depth) == (st.(stack := st.stack + [|st.stack|]), Running)
  {
  }

  /** ZERO to THREE push 0 to 3. */
  lemma {:induction false} ConstantsPushValues(st: FrameState)
    ensures Dispatched(st, Zero) == (Push(st, 0), Running)
    ensures Dispatched(st, One) == (Push(st, 1), Running)
    ensures Dispatched(st, Two) == (Push(st, 2), Running)
    ensures Dispatched(st, Three) == (Push(st, 3), Running)
  {
  }

  // ----- Composite expansion -----

  /** Expanding a concatenation runs the first part, then the second unless the first halted. */
  lemma {:induction false} ExpandedAppend(st: FrameState, xs: seq<Atom>, ys: seq<Atom>)
    ensures Expanded(st, xs + ys) ==
      (var (mid, o) := Expanded(st, xs); if o != Running then (mid, o) else Expanded(mid, ys))
    decreases |xs|
  {
    if xs == [] {
      assert xs + ys == ys;
    } else {
      assert (xs + ys)[0] == xs[0] && (xs + ys)[1..] == xs[1..] + ys;
      var (next, o) := Dispatched(st, xs[0]);
      if o == Running {
        ExpandedAppend(next, xs[1..], ys);
      }
    }
  }

  /** n copies of one atom. */
  function Repeat(a: Atom, n: nat): (r: seq<Atom>)
    ensures |r| == n && forall i :: 0 <= i < n ==> r[i] == a
  {
    if n == 0 then [] else [a] + Repeat(a, n - 1)
  }

  function Zeros(n: nat): (z: seq<int>)
    ensures |z| == n && forall i :: 0 <= i < n ==> z[i] == 0
  {
    if n == 0 then [] else [0] + Zeros(n - 1)
  }

  /** n ZEROs push n zeros. */
  lemma {:induction false} Pushes(st: FrameState, n: nat)
    ensures Expanded(st, Repeat(Zero, n)) == (st.(stack := st.stack + Zeros(n)), Running)
    decreases n
  {
    if n > 0 {
      var next := Push(st, 0);
      assert Expanded(st, Repeat(Zero, n)) == Expanded(next, Repeat(Zero, n - 1)) by {
        assert Repeat(Zero, n)[1..] == Repeat(Zero, n - 1);
      }
      Pushes(next, n - 1);
      assert next.stack + Zeros(n - 1) == st.stack + Zeros(n);
    } else {
      assert st.stack + Zeros(0) == st.stack;
    }
  }

  /** DROP on a non-empty stack removes exactly the top and changes nothing else. */
  lemma {:induction false} DropNonEmpty(st: FrameState, below: seq<int>, v: int)
    requires st.stack == below + [v]
    ensures Dispatched(st, Drop) == (st.(stack := below), Running)
  {
    assert st.stack[..|st.stack| - 1] == below;
  }

  /** A DROP on a non-empty stack, followed by more atoms, hands the smaller stack on. */
  lemma {:induction false} DropThen(st: FrameState, below: seq<int>, v: int, rest: seq<Atom>)
    requires st.stack == below + [v]
    ensures Expanded(st, [Drop] + rest) == Expanded(st.(stack := below), rest)
  {
    DropNonEmpty(st, below, v);
    assert ([Drop] + rest)[0] == Drop && ([Drop] + rest)[1..] == rest;
  }

  /** m DROPs on a stack of depth at least m remove its m top elements. */
  lemma {:induction false} Drops(st: FrameState, m: nat)
    requires m <= |st.stack|
    ensures Expanded(st, Repeat(Drop, m)) == (st.(stack := st.stack[..|st.stack| - m]), Running)
    decreases m
  {
    if m == 0 {
      assert st.stack[..|st.stack|] == st.stack;
    } else {
      var below := st.stack[..|st.stack| - 1];
      assert st.stack == below + [st.stack[|st.stack| - 1]];
      DropThen(st, below, st.stack[|st.stack| - 1], Repeat(Drop, m - 1));
      Drops(st.(stack := below), m - 1);
      assert below[..|below| - (m - 1)] == st.stack[..|st.stack| - m];
    }
  }

  /** n pushes followed by m <= n + depth pops leave depth + n - m elements. */
  lemma {:induction false} PushesThenPops(st: FrameState, n: nat, m: nat)
    requires m <= |st.stack| + n
    ensures |Expanded(st, Repeat(Zero, n) + Repeat(Drop, m)).0.stack| == |st.stack| + n - m
  {
    ExpandedAppend(st, Repeat(Zero, n), Repeat(Drop, m));
    Pushes(st, n);
    var pushed := st.(stack := st.stack + Zeros(n));
    Drops(pushed, m);
  }

  /** 2dup does what DUP then DUP does: same stack, base, indicator and output. */
  lemma {:induction false} TwoDupIsDupDup(st: FrameState)
    ensures Dispatched(st, TwoDup) == Dispatched(Dispatched(st, Dup).0, Dup)
  {
    assert Dispatched(st, TwoDup) == Expanded(st, [Dup, Dup]);
    var once := Dispatched(st, Dup).0;
    assert Expanded(once, [Dup]) == Dispatched(once, Dup) by {
      assert [Dup][1..] == [];
    }
    assert [Dup, Dup][1..] == [Dup];
  }

  /** 2drop does what DROP then DROP does. */
  lemma {:induction false} TwoDropIsDropDrop(st: FrameState)
    ensures Dispatched(st, TwoDrop) == Dispatched(Dispatched(st, Drop).0, Drop)
  {
    assert Dispatched(st, TwoDrop) == Expanded(st, [Drop, Drop]);
    var once := Dispatched(st, Drop).0;
    assert Expanded(once, [Drop]) == Dispatched(once, Drop) by {
      assert [Drop][1..] == [];
    }
    assert [Drop, Drop][1..] == [Drop];
  }

  /** 2over does what OVER then OVER does. */
  lemma {:induction false} TwoOverIsOverOver(st: FrameState)
    ensures Dispatched(st, TwoOver) == Dispatched(Dispatched(st, Over).0, Over)
  {
    assert Dispatched(st, TwoOver) == Expanded(st, [Over, Over]);
    var once := Dispatched(st, Over).0;
    assert Expanded(once, [Over]) == Dispatched(once, Over) by {
      assert [Over][1..] == [];
    }
    assert [Over, Over][1..] == [Over];
  }

  /** 3hello does what HELLO three times does: three greetings, nothing else. */
  lemma {:induction false} ThreeHelloIsHelloThrice(st: FrameState)
    ensures Dispatched(st, ThreeHello) ==
      (st.(out := st.out + [Greeting, Greeting, Greeting]), Running)
  {
    assert Dispatched(st, ThreeHello) == Expanded(st, [Hello, Hello, Hello]);
    var once := Emit(st, Greeting);
    var twice := Emit(once, Greeting);
    var thrice := Emit(twice, Greeting);
    assert thrice == st.(out := st.out + [Greeting, Greeting, Greeting]);
    assert Expanded(twice, [Hello]) == (thrice, Running) by {
      assert [Hello][1..] == [];
    }
    assert Expanded(once, [Hello, Hello]) == (thrice, Running) by {
      assert [Hello, Hello][1..] == [Hello];
    }
    assert [Hello, Hello, Hello][1..] == [Hello, Hello];
  }

  /** The UNDEFINED atom changes nothing at all. */
  lemma {:induction false} UndefinedIsNoOperation(st: FrameState)
    ensures Dispatched(st, Undefined) == (st, Running)
  {
  }

  // ----- Display base -----

  /** HEX, DEC and OCT set the base to 16, 10 and 8 and touch nothing else. */
  lemma {:induction false} BaseAtoms(st: FrameState, x: Atom)
    requires x == Hex || x == Dec || x == Oct
    ensures Dispatched(st, x) == (st.(base := if x == Hex then 16 else if x == Dec then 10 else 8), Running)
  {
  }

  // ----- Indicator accessors -----

  /** set then query? pushes 1. */
  lemma {:induction false} SetThenQuery(st: FrameState)
    ensures Expanded(st, [FlagSet, FlagQuery]) == (st.(flag := true, stack := st.stack + [1]), Running)
  {
    var raised := st.(flag := true);
    var pushed := raised.(stack := st.stack + [1]);
    assert Dispatched(st, FlagSet) == (raised, Running);
    assert Dispatched(raised, FlagQuery) == (pushed, Running);
    assert Expanded(raised, [FlagQuery]) == (pushed, Running) by {
      assert [FlagQuery][1..] == [];
    }
    assert [FlagSet, FlagQuery][1..] == [FlagQuery];
  }

  /** reset then query? pushes 0. */
  lemma {:induction false} ResetThenQuery(st: FrameState)
    ensures Expanded(st, [FlagReset, FlagQuery]) == (st.(flag := false, stack := st.stack + [0]), Running)
  {
    var lowered := st.(flag := false);
    var pushed := lowered.(stack := st.stack + [0]);
    assert Dispatched(st, FlagReset) == (lowered, Running);
    assert Dispatched(lowered, FlagQuery) == (pushed, Running);
    assert Expanded(lowered, [FlagQuery]) == (pushed, Running) by {
      assert [FlagQuery][1..] == [];
    }
    assert [FlagReset, FlagQuery][1..] == [FlagQuery];
  }

  /** store! on an empty stack changes nothing; otherwise it pops exactly the
      top and the indicator becomes "top is non-zero". */
  lemma {:induction false} StoreFlag(st: FrameState, below: seq<int>, v: int)
    ensures st.stack == [] ==> Dispatched(st, FlagStore) == (st, Running)
    ensures st.stack == below + [v] ==>
      Dispatched(st, FlagStore) == (st.(flag := v != 0, stack := below), Running)
  {
    if st.stack == below + [v] {
      assert st.stack[..|st.stack| - 1] == below;
    }
  }

  // ----- Numerals and dictionary precedence -----

  /** The digit-led keys longer than one character are not numerals in any base. */
  lemma LongKeysAreNotNumerals(t: string, base: int)
    requires ValidBase(base)
    requires t == "2dup" || t == "2drop" || t == "2over" || t == "3hello"
    ensures !AllDigitsIn(t, base)
  {
    if t == "2dup" || t == "2drop" {
      assert !IsDigitIn(t[2], base);
    } else {
      assert !IsDigitIn(t[1], base);
    }
  }

  /** The keys "0" to "3" push the value they read as, in every base. */
  lemma {:induction false} SmallKeysPushTheirValue(st: FrameState, t: string)
    requires ValidBase(st.base)
    requires t == "0" || t == "1" || t == "2" || t == "3"
    ensures Resolved(st, t) == (Push(st, Value(t, st.base)), Running)
  {
    assert t[..0] == [];
  }

  /** A dictionary symbol always dispatches its atom, even where the numeral
      reading would give something else. */
  lemma {:induction false} DictionaryShadowsNumerals(st: FrameState)
    ensures Resolved(st, "2dup") == Dispatched(st, TwoDup)
    ensures Resolved(st, "3hello") == Dispatched(st, ThreeHello)
  {
  }

  /** What "2dup" and "3hello" would push if they were read as numerals: 2 in base
      10 and 0x2d in base 16, and 3. */
  lemma ShadowedReadings()
    ensures Numeral("2dup", 10) == 2 && Numeral("2dup", 16) == 45 && Numeral("3hello", 10) == 3
  {
    assert ValidPrefix("2dup", 10) == 1 by {
      assert "2dup"[1..] == "dup";
    }
    assert ValidPrefix("2dup", 16) == 2 by {
      assert "2dup"[1..] == "dup" && "dup"[1..] == "up";
    }
    assert "2dup"[..1] == "2" && "2dup"[..2] == "2d" && "2d"[..1] == "2";
    assert ValidPrefix("3hello", 10) == 1 by {
      assert "3hello"[1..] == "hello";
    }
    assert "3hello"[..1] == "3";
  }

  /** A token outside the dictionary made of digits of the current base, the
      first a decimal digit, pushes its value in that base. */
  lemma {:induction false} NumeralToken(st: FrameState, t: string)
    requires t !in Dictionary && |t| > 0 && IsDecimalDigit(t[0]) && AllDigitsIn(t, st.base)
    ensures Resolved(st, t) == (Push(st, Value(t, st.base)), Running)
  {
  }

  /** "10" pushes the base itself: 16 under hex, 10 under dec, 8 under oct. */
  lemma {:induction false} TenIsTheBase(st: FrameState)
    requires ValidBase(st.base)
    ensures Resolved(st, "10") == (Push(st, st.base), Running)
  {
    assert "10"[..1] == "1";
    if "10" in Dictionary {
      DigitLedKeys("10");
      assert false;
    }
    NumeralToken(st, "10");
  }

  /** A value rendered in the current base and typed back in is pushed again,
      whenever its rendering starts with a decimal digit (e.g. not "ff"); the
      dictionary keys "0" to "3" are no exception, as they push their own value. */
  lemma {:induction false} RenderedValueReadsBack(st: FrameState, n: nat)
    requires ValidBase(st.base) && IsDecimalDigit(Show(n, st.base)[0])
    ensures Resolved(st, Show(n, st.base)) == (Push(st, n), Running)
  {
    var t := Show(n, st.base);
    ShowDigits(n, st.base);
    ShowValue(n, st.base);
    if t in Dictionary {
      DigitLedKeys(t);
      if t == "2dup" || t == "2drop" || t == "2over" || t == "3hello" {
        LongKeysAreNotNumerals(t, st.base);
        assert false;
      }
      SmallKeysPushTheirValue(st, t);
    } else {
      NumeralToken(st, t);
    }
  }

  // ----- Interpretation -----

  /** Interpreting a concatenation interprets the first part, then the second
      unless the first ended the process: tokens apply strictly in order. */
  lemma {:induction false} InterpretedAppend(st: FrameState, xs: seq<string>, ys: seq<string>)
    ensures Interpreted(st, xs + ys) ==
      (var (mid, o) := Interpreted(st, xs); if o != Running then (mid, o) else Interpreted(mid, ys))
    decreases |xs|
  {
    if xs == [] {
      assert xs + ys == ys;
    } else {
      assert (xs + ys)[0] == xs[0] && (xs + ys)[1..] == xs[1..] + ys;
      var (next, o) := Resolved(st, xs[0]);
      if o == Running {
        InterpretedAppend(next, xs[1..], ys);
      }
    }
  }

  /** An undefined token that does not start with a digit changes nothing and
      the tokens after it are still interpreted. */
  lemma {:induction false} UndefinedTokenSkipped(st: FrameState, t: string, rest: seq<string>)
    requires t !in Dictionary && (t == [] || !IsDecimalDigit(t[0]))
    ensures Resolved(st, t) == (st, Running)
    ensures Interpreted(st, [t] + rest) == Interpreted(st, rest)
  {
    assert ([t] + rest)[1..] == rest;
  }

  /** quit ends the run with status 0 whatever the stack holds, and nothing after it runs. */
  lemma {:induction false} QuitEndsRun(st: FrameState, rest: seq<string>)
    ensures Interpreted(st, ["quit"] + rest) == (st, Exited(0))
  {
  }

  /** exit ends the run with the popped value as status, 0 on an empty stack. */
  lemma {:induction false} ExitStatus(st: FrameState, rest: seq<string>)
    ensures Interpreted(st, ["exit"] + rest) == (st.(stack := Take(st.stack).1), Exited(Take(st.stack).0))
    ensures st.stack == [] ==> Interpreted(st, ["exit"] + rest).1 == Exited(0)
  {
  }

  // ----- Output -----

  /** after starts with before: output is only ever appended to. */
  predicate Extends(before: seq<Event>, after: seq<Event>) {
    |before| <= |after| && after[..|before|] == before
  }

  lemma ExtendsTransitive(a: seq<Event>, b: seq<Event>, c: seq<Event>)
    requires Extends(a, b) && Extends(b, c)
    ensures Extends(a, c)
  {
    assert c[..|a|] == c[..|b|][..|a|];
  }

  /** No primitive takes back what was written: output only grows. */
  lemma {:induction false} DispatchedExtendsOutput(st: FrameState, a: Atom)
    ensures Extends(st.out, Dispatched(st, a).0.out)
    decreases if IsComposite(a) then 1 else 0, 1, 0
  {
    if IsComposite(a) {
      ExpandedExtendsOutput(st, Body(a));
    } else {
      var after := Dispatched(st, a).0.out;
      assert after == st.out || after == st.out + [after[|after| - 1]];
    }
  }

  /** A composite only appends to the output. */
  lemma {:induction false} ExpandedExtendsOutput(st: FrameState, atoms: seq<Atom>)
    ensures Extends(st.out, Expanded(st, atoms).0.out)
    decreases if Flat(atoms) then 0 else 1, 2, |atoms|
  {
    if atoms != [] {
      var (next, o) := Dispatched(st, atoms[0]);
      DispatchedExtendsOutput(st, atoms[0]);
      if o == Running {
        ExpandedExtendsOutput(next, atoms[1..]);
        ExtendsTransitive(st.out, next.out, Expanded(next, atoms[1..]).0.out);
      }
    }
  }

  /** Interpreting tokens only appends to the output. */
  lemma {:induction false} InterpretedExtendsOutput(st: FrameState, tokens: seq<string>)
    ensures Extends(st.out, Interpreted(st, tokens).0.out)
    decreases |tokens|
  {
    if tokens != [] {
      var (next, o) := Resolved(st, tokens[0]);
      if tokens[0] in Dictionary {
        DispatchedExtendsOutput(st, Dictionary[tokens[0]]);
      }
      if o == Running {
        InterpretedExtendsOutput(next, tokens[1..]);
        ExtendsTransitive(st.out, next.out, Interpreted(next, tokens[1..]).0.out);
      }
    }
  }
}
