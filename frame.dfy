/** The frame as an object updated in place, with one method per primitive,
    the dispatcher, the composite expander, the numeral fallback and the
    interpreter loop. Every method is proved to leave the frame in the state
    that the functions of module Semantics give. */
module Frames {
  import opened Stacks
  import opened Numerals
  import opened Semantics
  import A = Atoms

  class Frame {
    var stack: seq<int>  // the data stack, top last
    var base: int        // the display base
    var flag: bool       // the hidden indicator: only the four accessors below change it
    var out: seq<Event>  // what has been written to standard output

    function State(): FrameState
      reads this
    {
      FrameState(stack, base, flag, out)
    }

    /** The base is always one that setbase understands. */
    ghost predicate Valid()
      reads this
    {
      ValidBase(base)
    }

    /** The global frame: base 10, and the indicator zero-initialised to false. */
    constructor ()
      ensures State() == Initial && Valid()
    {
      stack := [];
      base := 10;
      flag := false;
      out := [];
    }

    // The indicator accessors (_FLAG_SET, _FLAG_RESET, _FLAG_QUERY, _FLAG_STORE).

    method SetFlag()
      modifies this
      ensures State() == Dispatched(old(State()), A.FlagSet).0
    {
      flag := true;
    }

    method ResetFlag()
      modifies this
      ensures State() == Dispatched(old(State()), A.FlagReset).0
    {
      flag := false;
    }

    method QueryFlag()
      modifies this
      ensures State() == Dispatched(old(State()), A.FlagQuery).0
    {
      stack := stack + [if flag then 1 else 0];
    }

    method StoreFlag()
      modifies this
      ensures State() == Dispatched(old(State()), A.FlagStore).0
    {
      if stack == [] {
        return;
      }
      flag := stack[|stack| - 1] != 0;
      stack := stack[..|stack| - 1];
    }

    /** take_dtos_from: pop the top, or read 0 from an empty stack. */
    method TakeTop() returns (v: int)
      modifies this
      ensures (v, stack) == Take(old(stack))
      ensures base == old(base) && flag == old(flag) && out == old(out)
    {
      if stack == [] {
        return 0;
      }
      v := stack[|stack| - 1];
      stack := stack[..|stack| - 1];
    }

    // Primitives.

    method NoOperation()
      ensures State() == Dispatched(State(), A.Undefined).0
    {
    }

    method Hello()
      modifies this
      ensures State() == Dispatched(old(State()), A.Hello).0
    {
      out := out + [Greeting];
    }

    method Help()
      modifies this
      ensures State() == Dispatched(old(State()), A.Help).0
    {
      out := out + [Guidance];
    }

    method Symbols()
      modifies this
      ensures State() == Dispatched(old(State()), A.Symbols).0
    {
      out := out + [Listing];
    }

    method Abort() returns (o: Outcome)
      ensures (State(), o) == Dispatched(State(), A.Abort)
    {
      o := Aborted;
    }

    method Quit() returns (o: Outcome)
      ensures (State(), o) == Dispatched(State(), A.Quit)
    {
      o := Exited(0);
    }

    method Exit() returns (o: Outcome)
      modifies this
      ensures (State(), o) == Dispatched(old(State()), A.Exit)
    {
      var status := TakeTop();
      o := Exited(status);
    }

    /** primitive_constant<C>. */
    method Constant(c: int)
      modifies this
      ensures State() == Push(old(State()), c)
    {
      stack := stack + [c];
    }

    method Drop()
      modifies this
      ensures State() == Dispatched(old(State()), A.Drop).0
    {
      if stack == [] {
        return;
      }
      stack := stack[..|stack| - 1];
    }

    method Dup()
      modifies this
      ensures State() == Dispatched(old(State()), A.Dup).0
    {
      if stack == [] {
        return;
      }
      stack := stack + [stack[|stack| - 1]];
    }

    method Swap()
      modifies this
      ensures State() == Dispatched(old(State()), A.Swap).0
    {
      ghost var s0 := stack;
      var a := TakeTop();
      var b := TakeTop();
      stack := stack + [a] + [b];
      assert stack == SwapTop(s0);
    }

    method Over()
      modifies this
      ensures State() == Dispatched(old(State()), A.Over).0
    {
      ghost var s0 := stack;
      var a := TakeTop();
      var b := TakeTop();
      stack := stack + [b] + [a] + [b];
      assert stack == OverTop(s0);
    }

    method Depth()
      modifies this
      ensures State() == Dispatched(old(State()), A.Depth).0
    {
      stack := stack + [|stack|];
    }

    method Plus()
      modifies this
      ensures State() == Dispatched(old(State()), A.Plus).0
    {
      ghost var s0 := stack;
      var a := TakeTop();
      var b := TakeTop();
      stack := stack + [a + b];
      assert stack == Binary(Add, s0);
    }

    method Minus()
      modifies this
      ensures State() == Dispatched(old(State()), A.Minus).0
    {
      ghost var s0 := stack;
      var a := TakeTop();
      var b := TakeTop();
      stack := stack + [b - a];
      assert stack == Binary(Sub, s0);
    }

    method Mult()
      modifies this
      ensures State() == Dispatched(old(State()), A.Mult).0
    {
      ghost var s0 := stack;
      var a := TakeTop();
      var b := TakeTop();
      stack := stack + [a * b];
      assert stack == Binary(Mul, s0);
    }

    /** The division traps when the popped divisor is zero. */
    method Div() returns (o: Outcome)
      modifies this
      ensures (State(), o) == Dispatched(old(State()), A.Div)
    {
      var a := TakeTop();
      var b := TakeTop();
      if a == 0 {
        return DividedByZero;
      }
      stack := stack + [Quot(b, a)];
      o := Running;
    }

    method Dot()
      modifies this
      ensures State() == Dispatched(old(State()), A.Dot).0
    {
      var a := TakeTop();
      out := out + [Shown(a, base)];
    }

    /** primitive_base<B>: 16 and 8 are kept, any other request sets 10. */
    method SetBase(b: int)
      modifies this
      ensures State() == old(State()).(base := BaseFor(b))
    {
      if b == 16 || b == 8 {
        base := b;
      } else {
        base := 10;
      }
    }

    /** execute_primitive: run the table entry of the atom. */
    method Dispatch(a: A.Atom) returns (o: Outcome)
      modifies this
      ensures (State(), o) == Dispatched(old(State()), a)
      ensures old(Valid()) ==> Valid()
      decreases if A.IsComposite(a) then 1 else 0, 1
    {
      o := Running;
      match a
      case Undefined => NoOperation();
      case Hello => Hello();
      case Exit => o := Exit();
      case Abort => o := Abort();
      case Help => Help();
      case Quit => o := Quit();
      case Zero | One | Two | Three => Constant(ConstantOf(a));
      case Drop => Drop();
      case Dup => Dup();
      case Swap => Swap();
      case Over => Over();
      case Depth => Depth();
      case Plus => Plus();
      case Minus => Minus();
      case Mult => Mult();
      case Div => o := Div();
      case Dot => Dot();
      case Dec | Hex | Oct => SetBase(RequestOf(a));
      case Symbols => Symbols();
      case FlagSet => SetFlag();
      case FlagReset => ResetFlag();
      case FlagQuery => QueryFlag();
      case FlagStore => StoreFlag();
      case TwoDup | TwoDrop | TwoOver | ThreeHello => o := ExecuteComposite(A.Body(a));
    }

    /** execute_composite: dispatch the atoms left to right; the process ends
        at the first one that ends it. */
    method ExecuteComposite(composite: seq<A.Atom>) returns (o: Outcome)
      modifies this
      ensures (State(), o) == Expanded(old(State()), composite)
      decreases if A.Flat(composite) then 0 else 1, 2
    {
      o := Running;
      var i := 0;
      while i < |composite| && o == Running
        invariant 0 <= i <= |composite|
        invariant o == Running ==> Expanded(old(State()), composite) == Expanded(State(), composite[i..])
        invariant o != Running ==> (State(), o) == Expanded(old(State()), composite)
      {
        assert composite[i..][0] == composite[i] && composite[i..][1..] == composite[i + 1..];
        o := Dispatch(composite[i]);
        i := i + 1;
      }
    }

    /** as_numeral: a token that starts with a decimal digit pushes its
        numeral in the current base and counts as handled. */
    method AsNumeral(token: string) returns (handled: bool)
      modifies this
      ensures handled == (|token| > 0 && IsDecimalDigit(token[0]))
      ensures State() == if handled then Push(old(State()), Numeral(token, old(base))) else old(State())
    {
      if |token| > 0 && IsDecimalDigit(token[0]) {
        stack := stack + [Numeral(token, base)];
        return true;
      }
      return false;
    }

    /** interpret: resolve the tokens in order; the process ends at the first
        one that ends it. An unresolved token is only reported. */
    method Interpret(tokens: seq<string>) returns (o: Outcome)
      modifies this
      ensures (State(), o) == Interpreted(old(State()), tokens)
      ensures old(Valid()) ==> Valid()
    {
      o := Running;
      var i := 0;
      while i < |tokens| && o == Running
        invariant 0 <= i <= |tokens|
        invariant o == Running ==> Interpreted(old(State()), tokens) == Interpreted(State(), tokens[i..])
        invariant o != Running ==> (State(), o) == Interpreted(old(State()), tokens)
      {
        var token := tokens[i];
        ghost var before := State();
        assert tokens[i..][0] == token && tokens[i..][1..] == tokens[i + 1..];
        if token in Dictionary {
          o := Dispatch(Dictionary[token]);
        } else {
          var handled := AsNumeral(token);
          // an unhandled token is only reported on standard error
        }
        assert (State(), o) == Resolved(before, token);
        i := i + 1;
      }
    }
  }
}
