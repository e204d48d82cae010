/** Worked sessions: short token sequences and what interpreting them writes,
    built from one lemma per kind of step. The sessions start from any frame
    with an empty stack, the start-up frame Initial among them. */
module Sessions {
  import opened Atoms
  import opened Stacks
  import opened Numerals
  import opened Semantics

  /** A token that keeps the run going hands the next state on to the rest. */
  lemma {:induction false} InterpretedStep(st: FrameState, t: string, rest: seq<string>)
    requires Resolved(st, t).1 == Running
    ensures Interpreted(st, [t] + rest) == Interpreted(Resolved(st, t).0, rest)
  {
    assert ([t] + rest)[0] == t && ([t] + rest)[1..] == rest;
  }

  /** The symbols "1" to "3" push 1 to 3. */
  lemma {:induction false} ConstantSymbol(st: FrameState, t: string, v: int)
    requires (t == "1" && v == 1) || (t == "2" && v == 2) || (t == "3" && v == 3)
    ensures Resolved(st, t) == (Push(st, v), Running)
  {
  }

  /** "+" with a on top of b pushes a+b in their place. */
  lemma {:induction false} PlusSymbol(st: FrameState, below: seq<int>, b: int, a: int)
    requires st.stack == below + [b, a]
    ensures Resolved(st, "+") == (st.(stack := below + [a + b]), Running)
  {
    BinaryOperands(Add, below, b, a);
  }

  /** "." pops the top and writes it in the current base. */
  lemma {:induction false} DotSymbol(st: FrameState, below: seq<int>, v: int)
    requires st.stack == below + [v]
    ensures Resolved(st, ".") == (st.(stack := below, out := st.out + [Shown(v, st.base)]), Running)
  {
    assert st.stack[..|st.stack| - 1] == below;
  }

  /** "set" raises the indicator. */
  lemma {:induction false} SetSymbol(st: FrameState)
    ensures Resolved(st, "set") == (st.(flag := true), Running)
  {
  }

  /** "query?" pushes the indicator as 1 or 0. */
  lemma {:induction false} QuerySymbol(st: FrameState)
    ensures Resolved(st, "query?") == (Push(st, if st.flag then 1 else 0), Running)
  {
  }

  /** Three tokens that each keep the run going, in order. */
  lemma {:induction false} ThreeSteps(st: FrameState, t1: string, t2: string, t3: string,
                                      s1: FrameState, s2: FrameState, s3: FrameState)
    requires Resolved(st, t1) == (s1, Running) && Resolved(s1, t2) == (s2, Running)
    requires Resolved(s2, t3) == (s3, Running)
    ensures Interpreted(st, [t1, t2, t3]) == (s3, Running)
  {
    assert [t1, t2, t3] == [t1] + ([t2] + ([t3] + []));
    InterpretedStep(st, t1, [t2, t3]);
    InterpretedStep(s1, t2, [t3]);
    InterpretedStep(s2, t3, []);
  }

  /** Four tokens that each keep the run going, in order. */
  lemma {:induction false} FourSteps(st: FrameState, t1: string, t2: string, t3: string, t4: string,
                                     s1: FrameState, s2: FrameState, s3: FrameState, s4: FrameState)
    requires Resolved(st, t1) == (s1, Running) && Resolved(s1, t2) == (s2, Running)
    requires Resolved(s2, t3) == (s3, Running) && Resolved(s3, t4) == (s4, Running)
    ensures Interpreted(st, [t1, t2, t3, t4]) == (s4, Running)
  {
    assert [t1, t2, t3, t4] == [t1] + [t2, t3, t4];
    InterpretedStep(st, t1, [t2, t3, t4]);
    ThreeSteps(s1, t2, t3, t4, s2, s3, s4);
  }

  /** "1 2 + ." writes 3 and leaves the stack empty. */
  lemma {:induction false} OnePlusTwo(st: FrameState)
    requires st.stack == []
    ensures Interpreted(st, ["1", "2", "+", "."]) == (st.(out := st.out + [Shown(3, st.base)]), Running)
  {
    var s1 := Push(st, 1);
    var s2 := Push(s1, 2);
    assert s2.stack == [] + [1, 2];
    var s3 := st.(stack := [3]);
    ConstantSymbol(st, "1", 1);
    ConstantSymbol(s1, "2", 2);
    PlusSymbol(s2, [], 1, 2);
    assert s3 == s2.(stack := [] + [2 + 1]);
    DotSymbol(s3, [], 3);
    FourSteps(st, "1", "2", "+", ".", s1, s2, s3, st.(out := st.out + [Shown(3, st.base)]));
  }

  /** "set query? ." writes 1 and leaves the indicator raised and the stack empty. */
  lemma {:induction false} SetQueryShow(st: FrameState)
    requires st.stack == []
    ensures Interpreted(st, ["set", "query?", "."]) == (st.(flag := true, out := st.out + [Shown(1, st.base)]), Running)
  {
    var s1 := st.(flag := true);
    var s2 := Push(s1, 1);
    assert s2.stack == [] + [1];
    SetSymbol(st);
    QuerySymbol(s1);
    DotSymbol(s2, [], 1);
    ThreeSteps(st, "set", "query?", ".", s1, s2, st.(flag := true, out := st.out + [Shown(1, st.base)]));
  }
}
