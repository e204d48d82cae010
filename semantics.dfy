/** The Frame Machine as functions on a frame state: the primitives table as
    an exhaustive match, composite expansion, the outer dictionary, the
    resolution of one token and the interpretation of a token sequence. The
    class in frame.dfy performs the same steps in place and is proved against
    these functions. */
module Semantics {
  import opened Atoms
  import opened Stacks
  import opened Numerals

  /** What the primitives write to standard output, kept abstract. */
  datatype Event =
    | Shown(value: int, base: int)        // DOT: one value rendered in a base
    | Greeting                            // HELLO
    | Guidance                            // HELP
    | Listing                             // SYMBOLS: the lines of SymbolTable()

  /** How a step ends: the process keeps running, or it is over. */
  datatype Outcome =
    | Running
    | Exited(status: int)  // exit() with this status
    | Aborted              // abort()
    | DividedByZero        // the unguarded division trap

  /** The frame: data stack (top last), display base, hidden indicator, and
      what has been written to standard output so far. */
  datatype FrameState = FrameState(stack: seq<int>, base: int, flag: bool, out: seq<Event>)

  /** The global frame at start-up: empty stack, base 10, indicator false. */
  const Initial := FrameState([], 10, false, [])

  predicate ValidBase(b: int) {
    b == 8 || b == 10 || b == 16
  }

  /** The outer dictionary, symbols to atoms, aliases included. */
  const Dictionary: map<string, Atom> := map[
    "zero" := Zero, "0" := Zero,
    "one" := One, "1" := One,
    "two" := Two, "2" := Two,
    "three" := Three, "3" := Three,
    "dup" := Dup, "2dup" := TwoDup,
    "drop" := Drop, "2drop" := TwoDrop,
    "over" := Over, "2over" := TwoOver,
    "swap" := Swap, "depth?" := Depth,
    "plus" := Plus, "+" := Plus,
    "minus" := Minus, "-" := Minus,
    "mult" := Mult, "*" := Mult,
    "div" := Div, "/" := Div,
    "dec" := Dec, "hex" := Hex, "oct" := Oct,
    "dot" := Dot, "." := Dot,
    "set" := FlagSet, "reset" := FlagReset, "query?" := FlagQuery, "store!" := FlagStore,
    "hello" := Hello,
    "exit" := Exit, "quit" := Quit, "abort" := Abort, "help" := Help,
    "symbols" := Symbols,
    "3hello" := ThreeHello
  ]

  /** The dictionary keys that begin with a decimal digit. */
  lemma DigitLedKeys(t: string)
    requires t in Dictionary && |t| > 0 && IsDecimalDigit(t[0])
    ensures t == "0" || t == "1" || t == "2" || t == "3" ||
            t == "2dup" || t == "2drop" || t == "2over" || t == "3hello"
  {
  }

  /** No symbol is bound to UNDEFINED: that atom is reached only by an unknown key. */
  lemma SymbolIsDefined(t: string)
    requires t in Dictionary
    ensures Dictionary[t] != Undefined
  {
  }

  lemma SymbolsAreDefined()
    ensures forall t :: t in Dictionary ==> Dictionary[t] != Undefined
  {
    forall t | t in Dictionary
      ensures Dictionary[t] != Undefined
    {
      SymbolIsDefined(t);
    }
  }

  /** What SYMBOLS lists: each dictionary token with the code of its own atom.
      Every symbol is listed, none of them with the code of UNDEFINED. */
  function SymbolTable(): (table: map<string, nat>)
    ensures table.Keys == Dictionary.Keys
    ensures forall t :: t in table ==> table[t] == Code(Dictionary[t])
    ensures forall t :: t in table ==> 0 < table[t] < 32
  {
    SymbolsAreDefined();
    map t | t in Dictionary :: Code(Dictionary[t])
  }

  function Push(st: FrameState, v: int): FrameState {
    st.(stack := st.stack + [v])
  }

  function Emit(st: FrameState, e: Event): FrameState {
    st.(out := st.out + [e])
  }

  /** The value primitive_constant<C> pushes for ZERO to THREE. */
  function ConstantOf(a: Atom): int
    requires a == Zero || a == One || a == Two || a == Three
  {
    match a
    case Zero => 0
    case One => 1
    case Two => 2
    case Three => 3
  }

  /** The operator of PLUS, MINUS and MULT; DIV is apart, as it can trap. */
  function OperatorOf(a: Atom): ArithOp
    requires a == Plus || a == Minus || a == Mult
  {
    match a
    case Plus => Add
    case Minus => Sub
    case Mult => Mul
  }

  /** The request B of primitive_base<B> behind DEC, HEX and OCT. */
  function RequestOf(a: Atom): int
    requires a == Dec || a == Hex || a == Oct
  {
    match a
    case Dec => 10
    case Hex => 16
    case Oct => 8
  }

  /** execute_primitive: the table entry of every atom applied to the frame.
      The base stays valid, the indicator changes only through its accessors,
      and only process control and division can end the run. */
  function Dispatched(st: FrameState, a: Atom): (r: (FrameState, Outcome))
    ensures ValidBase(st.base) ==> ValidBase(r.0.base)
    ensures r.0.flag != st.flag ==> WritesFlag(a)
    ensures r.1 != Running ==> CanHalt(a)
    // st closes the measure only so that a literal atom alone does not unfold the table
    decreases if IsComposite(a) then 1 else 0, 1, 0, st
  {
    match a
    case Undefined => (st, Running)
    case Hello => (Emit(st, Greeting), Running)
    case Exit =>
      var (status, rest) := Take(st.stack);
      (st.(stack := rest), Exited(status))
    case Abort => (st, Aborted)
    case Help => (Emit(st, Guidance), Running)
    case Quit => (st, Exited(0))
    case Zero | One | Two | Three => (Push(st, ConstantOf(a)), Running)
    case Drop => (st.(stack := DropTop(st.stack)), Running)
    case Dup => (st.(stack := DupTop(st.stack)), Running)
    case Swap => (st.(stack := SwapTop(st.stack)), Running)
    case Over => (st.(stack := OverTop(st.stack)), Running)
    case Depth => (Push(st, |st.stack|), Running)
    case Plus | Minus | Mult => (st.(stack := Binary(OperatorOf(a), st.stack)), Running)
    case Div =>
      if Take(st.stack).0 == 0 then (st.(stack := Take(Take(st.stack).1).1), DividedByZero)
      else (st.(stack := Binary(Quo, st.stack)), Running)
    case Dot =>
      var (v, rest) := Take(st.stack);
      (Emit(st.(stack := rest), Shown(v, st.base)), Running)
    case Dec | Hex | Oct => (st.(base := BaseFor(RequestOf(a))), Running)
    case Symbols => (Emit(st, Listing), Running)
    case FlagSet => (st.(flag := true), Running)
    case FlagReset => (st.(flag := false), Running)
    case FlagQuery => (Push(st, if st.flag then 1 else 0), Running)
    case FlagStore =>
      if st.stack == [] then (st, Running)
      else
        var (v, rest) := Take(st.stack);
        (st.(flag := v != 0, stack := rest), Running)
    case TwoDup | TwoDrop | TwoOver | ThreeHello => Expanded(st, Body(a))
  }

  /** execute_composite: the atoms dispatched left to right, up to the first
      one that ends the process. */
  function Expanded(st: FrameState, atoms: seq<Atom>): (r: (FrameState, Outcome))
    ensures ValidBase(st.base) ==> ValidBase(r.0.base)
    ensures (forall i :: 0 <= i < |atoms| ==> !WritesFlag(atoms[i])) ==> r.0.flag == st.flag
    ensures (forall i :: 0 <= i < |atoms| ==> !CanHalt(atoms[i])) ==> r.1 == Running
    decreases if Flat(atoms) then 0 else 1, 2, |atoms|, st
  {
    if atoms == [] then (st, Running)
    else
      var (next, o) := Dispatched(st, atoms[0]);
      if o != Running then (next, o) else Expanded(next, atoms[1..])
  }

  /** One token of the outer interpreter: a dictionary symbol dispatches its
      atom; otherwise a token that starts with a decimal digit pushes its
      numeral in the current base; anything else is skipped. */
  function Resolved(st: FrameState, token: string): (FrameState, Outcome) {
    if token in Dictionary then Dispatched(st, Dictionary[token])
    else if |token| > 0 && IsDecimalDigit(token[0]) then (Push(st, Numeral(token, st.base)), Running)
    else (st, Running)
  }

  /** interpret: the tokens resolved in order, up to the first that ends the process. */
  function Interpreted(st: FrameState, tokens: seq<string>): (r: (FrameState, Outcome))
    ensures ValidBase(st.base) ==> ValidBase(r.0.base)
    decreases |tokens|
  {
    if tokens == [] then (st, Running)
    else
      var (next, o) := Resolved(st, tokens[0]);
      if o != Running then (next, o) else Interpreted(next, tokens[1..])
  }
}
