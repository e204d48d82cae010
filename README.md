# Frame Machine model

This project models the Frame Machine of the Frame Toy (`ft.cpp`).

- **The frame.** A single global `FRAME` holds an `int` data stack, a display base and a private boolean indicator.
- **Atoms and the primitives table.** The primitives table binds every atom (opcode) to a primitive that acts on the frame.
- **Composites.** Four composite atoms expand into fixed, flat bodies of other atoms, which are dispatched left to right.
- **Outer dictionary.** This maps text symbols, aliases included, to atoms.
- **Interpreter.** Tokens are resolved in order. A symbol dispatches its atom. Otherwise, a token that starts with a decimal digit is read as a numeral in the current base. Anything else is reported and skipped.

The modules follow the structure of the program:

| file | module | contents |
|---|---|---|
| `atoms.dfy` | `Atoms` | the atom enumeration and its integer codes, and the composites vocabulary |
| `stacks.dfy` | `Stacks` | the stack primitives on values: `take_dtos_from` (0 on underflow), DROP, DUP, SWAP, OVER, the binary operators with C++ truncating division, and `primitive_base` |
| `numerals.dfy` | `Numerals` | the digit-string reading that `as_numeral` performs, and the non-negative rendering that `setbase` gives DOT |
| `tokenizer.dfy` | `Tokenizer` | the tokens of a line, and the `tokenize` loop proved against them |
| `semantics.dfy` | `Semantics` | the meaning of the whole machine as functions on a frame state (listed below) |
| `frame.dfy` | `Frames` | class `Frame`, the frame updated in place, with one method per primitive plus the dispatcher, the composite loop, `as_numeral` and the `interpret` loop |
| `properties.dfy` | `Properties` | the promises of the machine, as lemmas about those functions; class `Frame` keeps them through its method contracts |
| `sessions.dfy` | `Sessions` | worked sessions: what short token sequences write, from any frame with an empty stack (the start-up frame among them) |

The functions in `Semantics` cover:

- the primitives table, as an exhaustive match over atoms;
- composite expansion;
- the dictionary;
- resolving one token;
- interpreting a token sequence.

Every method of `Frame` is proved to leave the frame in exactly the state those functions give.

Abstractions:

- **Output.** Standard output is an event log (`out`) on the frame. `Shown(value, base)` is what DOT writes; `Greeting`, `Guidance` and `Listing` are what HELLO, HELP and SYMBOLS write.
- **Process control.** `exit`, `quit` and `abort` become outcomes (`Exited(status)`, `Aborted`) that end the current step and every later one.
- **Division by zero.** A zero divisor in DIV becomes the outcome `DividedByZero`, taken after both operands have been popped. As an outcome, the trap is modelled for every input rather than excluded by a precondition. The value lemmas about DIV distinguish the two cases.

Two behaviours of the code worth noting:

- **Digit-led tokens.** A token outside the dictionary that starts with a decimal digit always counts as handled (`ft.cpp:399-408`). It pushes the value of its longest prefix of digits valid in the current base, or 0 when there is none. So "9" under oct pushes 0 rather than being reported as undefined. Only tokens that do not start with a digit are reported.
- **SWAP twice.** SWAP is its own inverse only on a stack of depth two or more. On a single element `x` the missing operand reads as 0, so SWAP leaves `[x, 0]` with the 0 on top, and a second SWAP leaves `[0, x]` (`Properties.SwapSingle`).

## Model

| member | source | states |
|---|---|---|
| Atoms.Code | ft.cpp:85-104 | every atom has a code below 32, and only UNDEFINED has code 0 |
| Atoms.Body | ft.cpp:316-319 | exactly the four composite atoms have a non-empty body; every body is flat, and no body atom writes the indicator or can end the process |
| Stacks.Take | ft.cpp:129-138 | no contract of its own: `take_dtos_from` on a sequence; its promise is stated by Stacks.TakePopsTop |
| Stacks.DropTop | ft.cpp:171-176 | no contract of its own: DROP on the stack; stated by Properties.ShapeOpsOnEmpty, Properties.DropNonEmpty and Properties.Drops |
| Stacks.DupTop | ft.cpp:178-184 | no contract of its own: DUP on the stack; stated by Properties.ShapeOpsOnEmpty and Properties.DupNonEmpty |
| Stacks.SwapTop | ft.cpp:186-189 | no contract of its own: SWAP on the stack; stated by Stacks.SwapTopShape and Stacks.ShapeOperands |
| Stacks.OverTop | ft.cpp:191-194 | no contract of its own: OVER on the stack; stated by Stacks.OverTopShape and Stacks.ShapeOperands |
| Stacks.Binary | ft.cpp:203-222 | no contract of its own: the shared shape of the four binary operators; stated by Stacks.BinaryShape and Stacks.BinaryOperands |
| Stacks.Quot | ft.cpp:218-220 | no contract of its own: C++ `/` on `int`; stated by Stacks.QuotTruncates |
| Stacks.TakePopsTop | ft.cpp:129-138 | on an empty stack the value is 0 and the stack stays empty; otherwise the value is the old top and exactly that element is removed |
| Stacks.SwapTopShape | ft.cpp:186-189 | at depth 2 or more the two top elements are exchanged and the rest is kept; missing operands read as 0 |
| Stacks.OverTopShape | ft.cpp:191-194 | at depth 2 or more a copy of the second element is pushed; missing operands read as 0 |
| Stacks.ShapeOperands | ft.cpp:186-194 | with a on top of b, SWAP gives `[.. a b]` and OVER gives `[.. b a b]`, the elements below unchanged |
| Stacks.BinaryShape | ft.cpp:203-222 | a binary operator replaces the two top elements by one result, with the top as first operand, and keeps the elements below; with fewer than two elements the missing operands read as 0 |
| Stacks.BinaryOperands | ft.cpp:203-220 | with a on top of b, the stack becomes the elements below followed by the one combination of a and b: a+b, b-a, a*b or b/a |
| Stacks.QuotTruncates | ft.cpp:218-220 | for a non-zero divisor the quotient truncates toward zero: the remainder is smaller in magnitude than the divisor, and is zero or has the sign of the dividend |
| Stacks.MissingOperandsReadAsZero | ft.cpp:128-138 | SWAP, OVER and the binary operators act on a short stack exactly as on that stack padded underneath with zeros |
| Stacks.BaseFor | ft.cpp:230-236 | the base set is always 8, 10 or 16; a request of 8, 10 or 16 is kept, and any other request gives 10 |
| Numerals.DigitValue | ft.cpp:400-403 | a character's digit weight is below 10 exactly when it is a decimal digit, and 16 when it is no digit in any base |
| Numerals.ValidPrefix | ft.cpp:401-404 | the prefix is made of digits valid in the base, and the character after it, if any, is not one |
| Numerals.Value | ft.cpp:403 | no contract of its own: the positional value of a digit string; stated by Numerals.AppendDigit, Numerals.Numeral and Numerals.ShowValue |
| Numerals.Numeral | ft.cpp:399-408 | a token made entirely of digits of the base reads as its positional value; one whose first character is no digit of the base reads as 0 |
| Numerals.AppendDigit | ft.cpp:403 | appending a digit of the base keeps the string all digits and gives the old value times the base plus the digit |
| Numerals.Glyph | ft.cpp:224-227 | the character written for a digit reads back as that digit |
| Numerals.Show | ft.cpp:224-227 | no contract of its own: DOT's rendering of a non-negative value; stated by Numerals.ShowDigits, Numerals.ShowValue and Numerals.ShowRoundTrip |
| Numerals.ShowDigits | ft.cpp:224-227 | the rendering is non-empty and made of digits of the base; 0 renders as "0", and no other value has a leading zero |
| Numerals.ShowValue | ft.cpp:224-227 | the positional value of the rendering is the rendered number |
| Numerals.ShowRoundTrip | ft.cpp:403 | reading a rendering back in the same base gives the number |
| Semantics.SymbolTable | ft.cpp:376-380 | SYMBOLS lists every dictionary symbol and no other, each with the code of its own atom, and none of them with the code of UNDEFINED |
| Semantics.DigitLedKeys | ft.cpp:351-371 | the only dictionary keys that begin with a decimal digit are "0" to "3", "2dup", "2drop", "2over" and "3hello" |
| Semantics.SymbolIsDefined | ft.cpp:351-371 | the atom bound to any one symbol is not UNDEFINED |
| Semantics.SymbolsAreDefined | ft.cpp:351-371 | no symbol of the dictionary is bound to UNDEFINED, so UNDEFINED is reached only through an unknown key |
| Semantics.Resolved | ft.cpp:412-420 | no contract of its own: one token's step, dictionary first, then a digit-led numeral, else nothing; its promises are stated by Properties.DictionaryShadowsNumerals, Properties.NumeralToken, Properties.UndefinedTokenSkipped and the Sessions step lemmas |
| Semantics.Dispatched | ft.cpp:260-305 | every atom's primitive keeps the base valid; only the indicator accessors change the indicator; only exit, quit, abort and div can end the run |
| Semantics.Expanded | ft.cpp:325-329 | a composite keeps the base valid; a body without indicator accessors leaves the indicator alone, and one without exit, quit, abort or div keeps the run going |
| Semantics.Interpreted | ft.cpp:411-421 | interpreting any token sequence keeps the base valid |
| Frames.Frame.constructor | ft.cpp:40-59 | the global frame starts with an empty stack, base 10, the indicator false and no output |
| Frames.Frame.SetFlag | ft.cpp:62 | the new frame is the table's FLAG_SET entry applied to the old one |
| Frames.Frame.ResetFlag | ft.cpp:63 | the new frame is the table's FLAG_RESET entry applied to the old one |
| Frames.Frame.QueryFlag | ft.cpp:64 | the new frame is the table's FLAG_QUERY entry applied to the old one |
| Frames.Frame.StoreFlag | ft.cpp:65-72 | the new frame is the table's FLAG_STORE entry applied to the old one |
| Frames.Frame.TakeTop | ft.cpp:129-138 | the value returned and the new stack are those of `Take` on the old stack; the base, the indicator and the output are unchanged |
| Frames.Frame.NoOperation | ft.cpp:142 | the frame is left as the table's UNDEFINED entry leaves it |
| Frames.Frame.Hello | ft.cpp:144-146 | the new frame is the table's HELLO entry applied to the old one |
| Frames.Frame.Help | ft.cpp:152-154 | the new frame is the table's HELP entry applied to the old one |
| Frames.Frame.Symbols | ft.cpp:376-380 | the new frame is the table's SYMBOLS entry applied to the old one |
| Frames.Frame.Abort | ft.cpp:148-150 | the frame and outcome are those of the table's ABORT entry |
| Frames.Frame.Quit | ft.cpp:156 | the frame and outcome are those of the table's QUIT entry |
| Frames.Frame.Exit | ft.cpp:158-161 | the new frame and the outcome are those of the table's EXIT entry |
| Frames.Frame.Constant | ft.cpp:166-168 | the constant is pushed and nothing else changes |
| Frames.Frame.Drop | ft.cpp:171-176 | the new frame is the table's DROP entry applied to the old one |
| Frames.Frame.Dup | ft.cpp:178-184 | the new frame is the table's DUP entry applied to the old one |
| Frames.Frame.Swap | ft.cpp:186-189 | the new frame is the table's SWAP entry applied to the old one |
| Frames.Frame.Over | ft.cpp:191-194 | the new frame is the table's OVER entry applied to the old one |
| Frames.Frame.Depth | ft.cpp:196-198 | the new frame is the table's DEPTH entry applied to the old one |
| Frames.Frame.Plus | ft.cpp:203-206 | the new frame is the table's PLUS entry applied to the old one |
| Frames.Frame.Minus | ft.cpp:208-211 | the new frame is the table's MINUS entry applied to the old one |
| Frames.Frame.Mult | ft.cpp:213-216 | the new frame is the table's MULT entry applied to the old one |
| Frames.Frame.Div | ft.cpp:218-222 | the new frame and the outcome are those of the table's DIV entry, including the trap on a zero divisor |
| Frames.Frame.Dot | ft.cpp:224-227 | the new frame is the table's DOT entry applied to the old one |
| Frames.Frame.SetBase | ft.cpp:230-236 | only the base changes, to the normalised request |
| Frames.Frame.Dispatch | ft.cpp:302-305 | dispatching an atom in place gives the frame and outcome of the table entry, and keeps the base valid |
| Frames.Frame.ExecuteComposite | ft.cpp:325-329 | the loop over a body gives the frame and outcome of the expansion, stopping at the first atom that ends the run |
| Frames.Frame.AsNumeral | ft.cpp:399-408 | a token is handled exactly when it starts with a decimal digit; a handled token pushes its numeral in the current base, and an unhandled one changes nothing |
| Frames.Frame.Interpret | ft.cpp:411-421 | the loop over the tokens gives the frame and outcome of the interpretation, stopping at the first token that ends the run, and keeps the base valid |
| Tokenizer.WordLength | ft.cpp:392 | the run measured contains no whitespace and ends at whitespace or at the end of the line |
| Tokenizer.Tokens | ft.cpp:387-395 | every token is non-empty and free of whitespace, and there are none exactly when the line is empty or all blank |
| Tokenizer.Tokenize | ft.cpp:387-395 | the loop collects exactly the tokens of the line, in order |
| Tokenizer.WordEnd | ft.cpp:392 | the scan stops at the end of the word that starts at the given position |
| Tokenizer.TokensOfJoin | ft.cpp:387-395 | tokenizing words joined by blanks gives the words back |
| Properties.ShapeOpsOnEmpty | ft.cpp:171-184 | DROP and DUP on an empty stack leave the whole frame unchanged |
| Properties.PlusOperands | ft.cpp:203-206 | with a on top of b, PLUS leaves the elements below and pushes a+b; nothing else changes |
| Properties.MinusOperands | ft.cpp:208-211 | with a on top of b, MINUS leaves the elements below and pushes b-a |
| Properties.MultOperands | ft.cpp:213-216 | with a on top of b, MULT leaves the elements below and pushes a*b |
| Properties.DivOperands | ft.cpp:218-222 | with a on top of b and a non-zero, DIV leaves the elements below and pushes b/a truncated; with a zero it traps after popping both |
| Properties.DropNonEmpty | ft.cpp:171-176 | DROP on a non-empty stack removes exactly the top element and changes nothing else |
| Properties.DropThen | ft.cpp:171-176 | a DROP at the head of a body on a non-empty stack hands the rest of the body the stack without its top |
| Properties.Drops | ft.cpp:325-329 | m DROPs in sequence on a stack of depth at least m remove exactly the m top elements |
| Properties.DupNonEmpty | ft.cpp:178-184 | DUP on a non-empty stack keeps the old stack and adds one element equal to the old top |
| Properties.SwapShape | ft.cpp:186-189 | SWAP turns `[.. b a]` into `[.. a b]` and changes nothing else |
| Properties.SwapTwice | ft.cpp:186-189 | SWAP twice is the identity on any frame whose stack has depth 2 or more |
| Properties.SwapSingle | ft.cpp:186-189 | on a single element x, SWAP twice leaves `[0, x]`: SWAP is not its own inverse there |
| Properties.OverShape | ft.cpp:191-194 | OVER turns `[.. b a]` into `[.. b a b]` and changes nothing else |
| Properties.DepthPushesSize | ft.cpp:196-198 | DEPTH pushes the depth from before the operation |
| Properties.ConstantsPushValues | ft.cpp:269-272 | ZERO, ONE, TWO and THREE push 0, 1, 2 and 3 |
| Properties.ExpandedAppend | ft.cpp:325-329 | expanding a concatenation runs the first part, then the second unless the first ended the run |
| Properties.Pushes | ft.cpp:325-329 | n ZEROs in sequence push n zeros |
| Properties.PushesThenPops | ft.cpp:325-329 | n pushes followed by m pops, with m at most the depth plus n, leave the depth plus n minus m elements |
| Properties.TwoDupIsDupDup | ft.cpp:316 | 2dup has the effect of DUP then DUP, on the whole frame |
| Properties.TwoDropIsDropDrop | ft.cpp:317 | 2drop has the effect of DROP then DROP |
| Properties.TwoOverIsOverOver | ft.cpp:318 | 2over has the effect of OVER then OVER |
| Properties.ThreeHelloIsHelloThrice | ft.cpp:319 | 3hello writes three greetings and changes nothing else |
| Properties.UndefinedIsNoOperation | ft.cpp:142 | UNDEFINED changes nothing at all |
| Properties.BaseAtoms | ft.cpp:284-286 | HEX, DEC and OCT set the base to 16, 10 and 8 and change neither the stack, nor the indicator, nor the output |
| Properties.SetThenQuery | ft.cpp:62-64 | set then query? raises the indicator and pushes 1 |
| Properties.ResetThenQuery | ft.cpp:62-64 | reset then query? lowers the indicator and pushes 0 |
| Properties.StoreFlag | ft.cpp:65-72 | store! on an empty stack changes nothing; otherwise it pops exactly the top, and the indicator becomes "the top is non-zero" |
| Properties.LongKeysAreNotNumerals | ft.cpp:356-370 | "2dup", "2drop", "2over" and "3hello" are not all digits in any valid base |
| Properties.SmallKeysPushTheirValue | ft.cpp:352-355 | the keys "0" to "3" push the value they read as, in every valid base |
| Properties.DictionaryShadowsNumerals | ft.cpp:413-418 | "2dup" and "3hello" dispatch their composite and never reach the numeral path |
| Properties.ShadowedReadings | ft.cpp:397-398 | read as numerals, "2dup" would give 2 in base 10 and 45 in base 16, and "3hello" would give 3: the dictionary is what keeps them composites |
| Properties.NumeralToken | ft.cpp:413-418 | a token outside the dictionary that starts with a decimal digit and is all digits of the current base pushes its value in that base, and changes nothing else |
| Properties.TenIsTheBase | ft.cpp:399-408 | "10" pushes the current base: 16 under hex, 10 under dec, 8 under oct |
| Properties.RenderedValueReadsBack | ft.cpp:224-227 | a value as DOT renders it, typed back in the same base, pushes that value again whenever the rendering starts with a decimal digit |
| Properties.InterpretedAppend | ft.cpp:411-421 | interpreting a concatenation interprets the first part, then the second unless the first ended the run: tokens apply strictly in order |
| Properties.UndefinedTokenSkipped | ft.cpp:416-419 | an undefined token that does not start with a digit changes nothing, and the tokens after it are still interpreted |
| Properties.QuitEndsRun | ft.cpp:156 | quit ends the run with status 0 whatever the stack holds, and no later token runs |
| Properties.ExitStatus | ft.cpp:158-161 | exit pops the status (0 on an empty stack), ends the run, and no later token runs |
| Properties.DispatchedExtendsOutput | ft.cpp:260-305 | no primitive takes back output: the old output is a prefix of the new |
| Properties.ExpandedExtendsOutput | ft.cpp:325-329 | a composite only appends to the output |
| Properties.InterpretedExtendsOutput | ft.cpp:411-421 | interpreting tokens only appends to the output |
| Sessions.InterpretedStep | ft.cpp:411-421 | a token that keeps the run going hands the state it produces on to the tokens after it |
| Sessions.ConstantSymbol | ft.cpp:352-355 | the symbols "1", "2" and "3" push 1, 2 and 3 |
| Sessions.PlusSymbol | ft.cpp:203-206 | "+" with a on top of b replaces them by a+b |
| Sessions.DotSymbol | ft.cpp:224-227 | "." pops the top and writes it rendered in the current base |
| Sessions.SetSymbol | ft.cpp:62 | "set" raises the indicator and changes nothing else |
| Sessions.QuerySymbol | ft.cpp:64 | "query?" pushes 1 when the indicator is raised and 0 otherwise |
| Sessions.ThreeSteps | ft.cpp:411-421 | three tokens that each keep the run going are interpreted one after the other |
| Sessions.FourSteps | ft.cpp:411-421 | four tokens that each keep the run going are interpreted one after the other |
| Sessions.OnePlusTwo | ft.cpp:411-421 | from an empty stack, `1 2 + .` writes 3 in the current base and leaves the stack empty |
| Sessions.SetQueryShow | ft.cpp:411-421 | from an empty stack, `set query? .` writes 1, leaves the indicator raised and the stack empty |

## Left out

- Text streams: the text written to standard output and every diagnostic on standard error are left out. Output is an abstract event log.
- SYMBOLS: the listing event carries no text. `Semantics.SymbolTable` states its content, symbol by symbol.
- Process control: `exit()`, `abort()` and `quit` end the process. The model records them as outcomes that stop every later step.
- The interactive shell and program entry (`microshell`, `std::getline`, `main`, `ft.cpp:426-440`) are left out. They are terminal I/O around `interpret` and `tokenize`.
- Division by zero: as platform behaviour it is undefined. The model records it as the outcome `DividedByZero` and says nothing about the frame after a real trap.
- Integer width: the stack holds mathematical integers. Signed 32-bit overflow in `+`, `-`, `*`, in `INT_MIN / -1` and in stream extraction (which stores `INT_MAX`/`INT_MIN` on overflow) is not modelled.
- Numerals.Numeral: stream extraction details beyond plain digit strings are not modelled, such as the `0x` prefix accepted under hex.
- Numerals.Show: DOT's rendering is stated only for non-negative values. The two's-complement rendering of negative values under hex and oct, and the sign under dec, are not modelled. The event records the value and base instead.
- Library plumbing: `std::function`, `std::map::operator[]` and `std::initializer_list` are not modelled, nor is the dangling-reference hazard the source warns about (`ft.cpp:337-340`). `operator[]` on a missing composite key would give an empty list, which `Atoms.Body` mirrors; on the primitives table every atom has an entry.
- The unused `primitive_generic` (`ft.cpp:201`) is not modelled.
- Tokenizer buffer: the `static` token list that `tokenize` reuses and returns by reference is not modelled. `Tokenizer.Tokenize` returns a fresh sequence.
- Locale: `isspace` and `isdigit` are those of the classic locale, with six whitespace characters. Characters are Dafny `char`s with no encoding.
