/** The closed set of atoms (opcodes) of the Frame Machine, the integer code the
    C++ enum gives each of them, and the table of composite bodies. */
module Atoms {

  datatype Atom =
    | Undefined
      // greeting, help and the three ways of ending the process
    | Hello | Exit | Abort | Help | Quit
      // the pushes of the numbers 0 to 3
    | Zero | One | Two | Three
      // stack shuffling, with the three two-step composites among them
    | Drop | Dup | Swap | Over | Depth | TwoDup | TwoDrop | TwoOver
      // the two-operand arithmetic
    | Plus | Minus | Mult | Div
      // printing the top and choosing the display base
    | Dot | Dec | Hex | Oct
      // the listing of the outer dictionary
    | Symbols
      // the four accessors of the frame's hidden indicator
    | FlagSet | FlagReset | FlagQuery | FlagStore
      // the greeting composite
    | ThreeHello

  /** The enumerator value: UNDEFINED is 0 and the others follow in declaration order. */
  function Code(a: Atom): (n: nat)
    ensures n < 32
    ensures (n == 0) == (a == Undefined)
  {
    match a
    case Undefined => 0
    case Hello => 1
    case Exit => 2
    case Abort => 3
    case Help => 4
    case Quit => 5
    case Zero => 6
    case One => 7
    case Two => 8
    case Three => 9
    case Drop => 10
    case Dup => 11
    case Swap => 12
    case Over => 13
    case Depth => 14
    case TwoDup => 15
    case TwoDrop => 16
    case TwoOver => 17
    case Plus => 18
    case Minus => 19
    case Mult => 20
    case Div => 21
    case Dot => 22
    case Dec => 23
    case Hex => 24
    case Oct => 25
    case Symbols => 26
    case FlagSet => 27
    case FlagReset => 28
    case FlagQuery => 29
    case FlagStore => 30
    case ThreeHello => 31
  }

  /** The atoms whose table entry is the composite controlling primitive. */
  predicate IsComposite(a: Atom) {
    a == TwoDup || a == TwoDrop || a == TwoOver || a == ThreeHello
  }

  /** No composite atom among the given ones: the shape every body must have. */
  predicate Flat(atoms: seq<Atom>) {
    forall i :: 0 <= i < |atoms| ==> !IsComposite(atoms[i])
  }

  /** The accessors that may change the frame's hidden indicator. */
  predicate WritesFlag(a: Atom) {
    a == FlagSet || a == FlagReset || a == FlagStore
  }

  /** The atoms whose primitive can end the process: exit, quit, abort, and
      division, which traps when the divisor is zero. */
  predicate CanHalt(a: Atom) {
    a == Exit || a == Quit || a == Abort || a == Div
  }

  /** The composites vocabulary: the fixed body of each composite atom, and no
      atoms for any other. Bodies are flat, and none of their atoms touches the
      indicator or can end the process. */
  function Body(a: Atom): (body: seq<Atom>)
    ensures IsComposite(a) <==> |body| > 0
    ensures Flat(body)
    ensures forall i :: 0 <= i < |body| ==> !WritesFlag(body[i]) && !CanHalt(body[i])
  {
    match a
    case TwoDup => [Dup, Dup]
    case TwoDrop => [Drop, Drop]
    case TwoOver => [Over, Over]
    case ThreeHello => [Hello, Hello, Hello]
    case _ => []
  }
}
