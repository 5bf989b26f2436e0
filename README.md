# A verified model of the `whily` WHILE-program interpreter

`whily` runs WHILE programs in three deterministic stages: a lexer
(`symbolize`), a parser (`parse`) and an evaluator (`run`).

The lexer turns program text into symbols:
- variables `x<digits>` and decimal constants;
- the operators `:=`, `!=`, `+`, `-` and `;`;
- the keywords `while`, `do` and `od`.

It skips whitespace and `[ ... ]` comments. It tracks line and column for its single error.

The parser builds a statement tree:
- assignments `xi := c`, `xi := xj + xk` and `xi := xj - xk`;
- loops `while xi != 0 do P od`;
- sequences `S(l, r)`, folded from the left.

The evaluator runs the tree over a store from variable indices to unsigned 64-bit values. Arithmetic is checked, and each loop entry has a ceiling of 131072 iterations.

A small configuration object with four switches completes the core. Its `enable` turns a switch on by name.

Each stage is modelled in the form the Rust code has:
- a specification function gives its meaning;
- an imperative method mirrors the source's loop and mutable state, and is proved equal to that function;
- lemmas state what the stage promises.

Modules:
- `Prelude`: `U64`, `Option` and `Result`.
- `Symbolizer` and `SymbolizerProperties`: the lexer.
- `Parser` and `ParserProperties`: the parser.
- `Run` and `RunProperties`: the evaluator.
- `Configuration` and `ConfigProperties`: the configuration.

The lexer:
- `LexFrom` is the lexer's meaning over the rest of the input. One pass of the loop is `NextStep`.
- `Symbolize` is the character loop with its mutable line, column, comment flag and symbol vector. The digit loop (`ReadNumber`) and the cloned-iterator keyword scan (`FindKeyword`, `MatchKeyword`) are their own loops.
- Keywords are matched by prefix, in the order `while`, `do`, `od`.
- As in the code, the character right after a keyword is consumed as well: `od;` loses its `;`, and a newline right after `do` is not counted as a line.

The parser:
- `ParseFrom`, `ParseTail`, `ParseStatement` and `ParseLoop` are a grammar-style reading of the parser.
- `Parse` is the source's single loop over a mutable index with the `left`/`statement` accumulators. It recurses for a loop body.
- `Tokens` writes a statement back as symbols.
- Soundness and completeness together say that a parse succeeds exactly on the spellings of left-leaning statements, followed by the end or an `od`.

The evaluator:
- `Exec` and `Loop` give the meaning of a run.
- `Run.State` holds the store that `RunWithState` updates in place.
- A failed run keeps whatever earlier statements stored, as the in-place update does.

Elsewhere in the repository, the switches are described as also offering:
- named variables;
- multiplication;
- clamped subtraction;
- constants wherever a variable is read.

These are the help texts of the command-line flags (src/config.rs:12-15). src/main.rs:36-57 also passes a configuration to `symbolize`, `parse` and `run`.

The lexer, parser and evaluator modelled here have none of these features, and their signatures take no configuration (src/symbolizer.rs:28, src/parser.rs:12, src/run.rs:6). The model follows these three files. For instance, `x2 := x1 + 3` is rejected by the parser, because the right operand must be a variable.

## Model

| member | source | states |
|---|---|---|
| Symbolizer.Show | src/symbolizer.rs:14-27 | the debug rendering of every symbol other than a keyword is non-empty |
| Symbolizer.Decimal | src/symbolizer.rs:17-18 | the decimal rendering of a number is a non-empty digit string |
| SymbolizerProperties.DecimalRoundTrip | src/symbolizer.rs:17-18 | reading the decimal rendering of `n` back gives `n` |
| SymbolizerProperties.ShowRenders | src/symbolizer.rs:14-27 | the rendering of each symbol with a known keyword is a spelling that the lexer reads back as that symbol: `x` plus the index, the constant's digits, the keyword, `:=`, `!=`, `+`, `-` and `;` |
| Symbolizer.LeadingDigits | src/symbolizer.rs:95-104 | the length of the maximal digit run at the start of a string: all are digits and the next character is not |
| Symbolizer.DecimalValue | src/symbolizer.rs:94-104 | the value of a digit string, accumulated from the left as `val * 10 + digit` as the loop does |
| Symbolizer.IsWhitespace | src/symbolizer.rs:77 | the characters Rust's `char::is_whitespace` accepts: those with the Unicode White_Space property |
| Symbolizer.FirstKeyword | src/symbolizer.rs:112-131 | the first keyword in list order that the input starts with; none exactly when no keyword is a prefix |
| Symbolizer.NextStep | src/symbolizer.rs:36-138 | one pass consumes at least one character; a symbol is produced only outside a comment; a pass that stops is an error or a panic, never a success |
| Symbolizer.LexFrom | src/symbolizer.rs:36-141 | what the main loop returns from the rest of the input: the symbols of each pass in order, or the first error or panic; a success has at most one symbol per character |
| Symbolizer.LexPass | src/symbolizer.rs:37-139 | one pass of the main loop followed by the rest of the loop; a success has at most one symbol per character |
| Symbolizer.Lex | src/symbolizer.rs:28-141 | what `symbolize` returns: lexing from line 1, column 0, outside any comment; a success has at most one symbol per character |
| Symbolizer.Symbolize | src/symbolizer.rs:28-142 | the character loop returns exactly `Lex(input)` |
| Symbolizer.Advance | src/symbolizer.rs:36-139 | one iteration of the main loop advances the iterator and keeps the pending result unchanged, or returns that result |
| Symbolizer.Pass | src/symbolizer.rs:37-136 | the case analysis of one iteration is `NextStep` on the rest of the input |
| Symbolizer.ReadNumber | src/symbolizer.rs:94-104 | the digit loop reads the maximal digit run and returns its value and its end, or reports that the `u64` accumulator overflows exactly when the value is at least 2^64 |
| Symbolizer.FindKeyword | src/symbolizer.rs:112-132 | the keyword loop finds the first keyword in list order that matches, and resumes one character past its end (or at the end of the input) |
| Symbolizer.MatchKeyword | src/symbolizer.rs:113-131 | the cloned iterator matches exactly when the input starts with the keyword, and then stands one character past it |
| SymbolizerProperties.PassSkip | src/symbolizer.rs:42-77 | a pass that produces nothing continues lexing after the characters it consumed, from its new position and comment state |
| SymbolizerProperties.PassProduce | src/symbolizer.rs:137-138 | a pass that produces a symbol puts exactly that symbol in front of the symbols of the rest |
| SymbolizerProperties.PassStop | src/symbolizer.rs:133-135 | a pass that stops is the result of the whole lexing |
| SymbolizerProperties.TrackAppend | src/symbolizer.rs:45-49 | the position after `a + b` is the position after `b`, counted from the position after `a` |
| SymbolizerProperties.SkipsWhitespace | src/symbolizer.rs:71-77 | whitespace emits nothing; a newline moves to the next line at column 0 and any other whitespace one column on |
| SymbolizerProperties.SkipsCommentBody | src/symbolizer.rs:42-53 | inside a comment, characters other than `]` emit nothing, and newlines are still counted (a nested `[` is not special) |
| SymbolizerProperties.SkipsComment | src/symbolizer.rs:42-58 | a whole `[ ... ]` comment emits nothing, and lexing goes on after it at the tracked position |
| SymbolizerProperties.UnterminatedComment | src/symbolizer.rs:39-58 | an unterminated comment at the end of the input still ends lexing successfully, with no symbols |
| SymbolizerProperties.LexTwoCharOperator | src/symbolizer.rs:59-66 | `:=` and `!=` each yield one symbol and consume exactly two characters |
| SymbolizerProperties.LexOneCharOperator | src/symbolizer.rs:67-69 | `+`, `-` and `;` each yield one symbol and consume one character |
| SymbolizerProperties.NoKeywordStartsWith | src/symbolizer.rs:112-131 | input whose first character is not `w`, `d` or `o` starts no keyword |
| SymbolizerProperties.LoneColonOrBang | src/symbolizer.rs:110-135 | a `:` or `!` not followed by `=` fails with an error at its line and 1-based column |
| SymbolizerProperties.UnknownCharacter | src/symbolizer.rs:133-135 | any other character that is not whitespace, an operator, a digit, `x` or the start of a keyword fails at once with an error at its line and 1-based column, and no symbols are returned |
| SymbolizerProperties.LexConstant | src/symbolizer.rs:87-109 | a maximal digit run yields one constant equal to its decimal value (a panic if that does not fit in 64 bits) |
| SymbolizerProperties.LexVariable | src/symbolizer.rs:87-109 | `x` followed by a maximal digit run yields the variable with that index (a panic if it does not fit in 64 bits) |
| SymbolizerProperties.BareX | src/symbolizer.rs:89-90 | an `x` not followed by a digit aborts the lexer |
| SymbolizerProperties.LeadingDigitsOf | src/symbolizer.rs:95-104 | the digit run of digits followed by a non-digit is exactly those digits |
| SymbolizerProperties.DigitRunOf | src/symbolizer.rs:95-104 | the run read from digits followed by a non-digit is those digits |
| SymbolizerProperties.KeywordFound | src/symbolizer.rs:112-131 | input that starts with a keyword matches that keyword (no keyword is a prefix of another) |
| SymbolizerProperties.LexKeyword | src/symbolizer.rs:112-131 | a keyword yields one symbol and lexing resumes one character past its end, so that character is dropped |
| SymbolizerProperties.LexBlank | src/symbolizer.rs:77 | a blank emits nothing and moves one column on |
| SymbolizerProperties.LexWord | src/symbolizer.rs:36-139 | a spelling of a symbol followed by a blank yields exactly that symbol, then the symbols of the rest |
| SymbolizerProperties.LexWords | src/symbolizer.rs:36-139 | spellings of symbols, each followed by a blank, yield exactly those symbols in order, then the symbols of the rest |
| SymbolizerProperties.ShowsSpell | src/symbolizer.rs:14-27 | the renderings of lexable symbols spell those symbols one by one |
| SymbolizerProperties.LexRendering | src/symbolizer.rs:28-142 | lexing the rendering of lexable symbols, one blank after each, returns exactly those symbols |
| SymbolizerProperties.LexedShape | src/symbolizer.rs:137-138 | a successful lexing yields no more symbols than characters, and every keyword it returns is one of `while`, `do`, `od` |
| Parser.ParseAssignment | src/parser.rs:48-103 | an assignment is 3 or 5 symbols long, ends within the input, and is one of the three assignment forms for the variable it starts with |
| Parser.ParseFrom | src/parser.rs:16-44 | a parse that succeeds ends on a symbol of the input followed by the end or an `od`, and starts with a variable or `while` |
| Parser.ParseTail | src/parser.rs:21-44 | after a statement the parser stops before the end or an `od`, or goes on after a `;` |
| Parser.ParseStatement | src/parser.rs:32-183 | a statement consumes at least one symbol, is not a sequence, and starts with a variable or `while` |
| Parser.ParseLoop | src/parser.rs:105-178 | a loop is at least 7 symbols long and is a `While` |
| Parser.TailSemicolon | src/parser.rs:23-29 | after a statement, a `;` continues with the next statement, joined to the previous ones |
| Parser.TailStops | src/parser.rs:32-44 | at the end of the symbols or before `od` the program ends at the previous symbol |
| Parser.TailError | src/parser.rs:181-183 | after a statement, any symbol other than `;` or `od` is an error |
| Parser.FromError | src/parser.rs:181-183 | a program whose first statement fails fails |
| Parser.ReadAssignment | src/parser.rs:48-103 | the assignment arm of the parser's loop returns exactly `ParseAssignment` |
| Parser.ReadLoop | src/parser.rs:105-178 | the `while` arm, with its recursive parse of the body, returns exactly `ParseLoop` |
| Parser.Program | src/parser.rs:12-188 | what `parse(symbols, start)` returns; a success ends on a symbol at or after `start` that is followed by the end or an `od` |
| Parser.Parse | src/parser.rs:12-188 | the parser's loop returns exactly `Program(symbols, start)` |
| ParserProperties.ParseSound | src/parser.rs:12-188 | a successful parse returns a left-leaning statement that is spelled exactly by the symbols from `start` to `end`; `end` is below the symbol count and is followed by the end or an `od` |
| ParserProperties.ParseComplete | src/parser.rs:12-188 | the spelling of a left-leaning statement, followed by the end or an `od`, parses to that statement, ending on its last symbol |
| ParserProperties.RoundTrip | src/parser.rs:12-188 | writing a left-leaning statement as symbols and parsing it gives it back |
| ParserProperties.TextRoundTrip | src/symbolizer.rs:28-142 | a left-leaning statement written out as text is lexed into its symbols and parsed back into itself |
| ParserProperties.LeftFold | src/parser.rs:17-20 | `a; b; c` parses as `S(S(a, b), c)` |
| ParserProperties.LeadingSemicolon | src/parser.rs:23-26 | a `;` with no statement before it is an error |
| ParserProperties.TrailingSemicolon | src/parser.rs:23-42 | a `;` at the end of the symbols or before `od` is an error |
| ParserProperties.MissingSemicolon | src/parser.rs:48-109 | two statements with no `;` between them are an error, whether the second starts with a variable or with `while` |
| ParserProperties.AssignmentForms | src/parser.rs:62-103 | after `xi :=`, parsing succeeds exactly for a constant, or for a variable followed by `+` or `-` and a variable; a plain copy, another operator or a constant right operand is an error |
| ParserProperties.LoopConditionZero | src/parser.rs:131-141 | a loop condition must compare with the literal `0` |
| ParserProperties.EmptyLoopBody | src/parser.rs:157-161 | `while xi != 0 do od` is an error: the body must not be empty |
| ParserProperties.UnclosedLoop | src/parser.rs:163-177 | a loop body that runs into the end of the symbols without `od` is an error |
| ParserProperties.SoundFrom | src/parser.rs:16-44 | the statement a successful parse returns is spelled by what precedes it and by the symbols consumed, and is left-leaning |
| ParserProperties.CompleteFrom | src/parser.rs:16-44 | the spelling of a left-leaning statement is read as that statement, hung from the left of the preceding statements |
| ParserProperties.CompleteLoop | src/parser.rs:105-178 | the spelling of a loop with a left-leaning body parses as that loop |
| Run.Exec | src/run.rs:12-58 | running a statement never unbinds a variable, and a loop that ends normally leaves its control variable at 0 |
| Run.Loop | src/run.rs:42-54 | a loop never unbinds a variable, and when it ends normally its control variable is 0 |
| Run.State.RunWithState | src/run.rs:12-58 | the recursive, in-place evaluator leaves the store that `Exec` gives and reports exactly its outcome |
| Run.State.RunLoop | src/run.rs:42-54 | the `while` loop with its iteration counter leaves the store that `Loop` gives and reports exactly its outcome |
| Run.RunResult | src/run.rs:6-10 | what `run` returns: the final store of a run from the empty store, or the error it stopped with |
| Run.RunProgram | src/run.rs:6-10 | `run` starts from the empty store and returns the final store or the error of `Exec` |
| RunProperties.ExecFrame | src/run.rs:12-58 | whatever the outcome, a run changes and binds only variables that the statement assigns |
| RunProperties.LoopFrame | src/run.rs:42-54 | a loop changes and binds only variables that its body assigns |
| RunProperties.RunBindsTargets | src/run.rs:6-10 | a successful `run` binds only variables that the program assigns |
| RunProperties.Sequence | src/run.rs:14-17 | `S(l, r)` runs `l` and then `r` on the store `l` left; an error in `l` is the result, and `r` is not run |
| RunProperties.SequenceAssociative | src/run.rs:14-17 | how a sequence is grouped does not change a run |
| RunProperties.Plus | src/run.rs:18-27 | an addition succeeds exactly when both operands are bound and the sum is below 2^64, and then sets the target; `v1` is reported before `v2`; an overflow reports the target; a failure leaves the store unchanged |
| RunProperties.Minus | src/run.rs:28-37 | a subtraction succeeds exactly when both operands are bound and `v1 >= v2`; otherwise it reports `v1`, then `v2`, then an underflow of the target, with no clamping |
| RunProperties.Const | src/run.rs:38-40 | `xi := c` always succeeds and sets `xi` to `c` |
| RunProperties.AssignmentTarget | src/run.rs:18-40 | a successful assignment binds its target and changes no other variable |
| RunProperties.UnboundLoopVariable | src/run.rs:42-45 | a loop with an unbound control variable fails with `UnassignedVariable`, even if it would run zero times |
| RunProperties.LoopSkipped | src/run.rs:47 | a loop whose control variable is 0 changes nothing |
| RunProperties.LoopRepeats | src/run.rs:45-54 | a loop that ends normally after `i` runs has run its body at most `131072 - i` more times |
| RunProperties.LoopCeiling | src/run.rs:45-52 | while the control variable stays non-zero, the attempt at run 131073 fails with `MaxLoopsReached` |
| RunProperties.LoopBounded | src/run.rs:45-54 | each entry into a loop that ends normally runs the body at most 131072 times |
| RunProperties.MaxLoops | src/run.rs:45-52 | a loop whose control variable stays non-zero through 131072 runs of its body fails with `MaxLoopsReached` |
| Configuration.Config.Enable | src/config.rs:42-51 | `enable` turns on the switch `EnableFlag` names, or returns an error and changes nothing |
| Configuration.EnableFlag | src/config.rs:43-49 | the switches after `enable(arg)` as the code is written; exactly the four names give a result, and any other name is an error |
| Configuration.EnableFlagIntended | src/config.rs:43-49 | the switches after `enable(arg)` with each name turning on its own switch; exactly the four names give a result |
| ConfigProperties.EnablesOne | src/config.rs:43-47 | each accepted name turns on exactly one switch and leaves the other three as they were |
| ConfigProperties.NeverClears | src/config.rs:42-51 | `enable` never turns a switch off |
| ConfigProperties.Idempotent | src/config.rs:42-51 | enabling a name twice is the same as enabling it once |
| ConfigProperties.Commutes | src/config.rs:42-51 | the order in which two names are enabled does not matter |
| ConfigProperties.UnderflowNeverEnabled | src/config.rs:45 | as written, no name turns on `allow_underflow` |
| ConfigProperties.UnderflowSetsNamedVars | src/config.rs:45 | as written, `allow_underflow` turns on `allow_named_vars` instead, and changes nothing else, from any configuration |
| ConfigProperties.UnderflowFromAllOff | src/config.rs:45 | from all switches off, the written `enable("allow_underflow")` turns on `allow_named_vars` only, the corrected one `allow_underflow` only |
| ConfigProperties.IntendedOwnFlag | src/config.rs:43-47 | in the corrected version, each name turns on its own switch and leaves the others as they were |
| ConfigProperties.IntendedReachesAll | src/config.rs:18-23 | in the corrected version, from any configuration each of the four switches is turned on by some accepted name |
| ConfigProperties.IntendedAgrees | src/config.rs:43-47 | the corrected version differs from the written one only for `allow_underflow` |

## Left out

- `src/main.rs` is not part of this model. It does command-line wiring, reads files, times runs and prints results; its key sorting is only for display.
- `cli()` and `Config::from` in `src/config.rs` are left out. They wrap the `clap` argument parser, whose behaviour is not visible here.
- The debug `println!` calls before `MaxLoopsReached` (src/run.rs:49-50) are left out, because they are output. The model only returns the error.
- Error texts are left out:
  - The parser's messages are collapsed into one `ParseError`.
  - The lexer's error keeps its line and column but not its message, "Unknown keyword".
  - The `Debug` formatting of `SymbolError` and `RuntimeError` is not modelled.
- The lexer's two aborts are the explicit outcome `Panicked`, not a precondition. One is the assertion that a digit follows `x`; the other is `u64` overflow while a long literal is read. A precondition would hide the behaviour of inputs the lexer does accept.
- Symbolizer.NextStep: does not model the release build, where an overflowing literal wraps modulo 2^64 instead of panicking. The model follows the checked (debug) arithmetic.
- The assertion at src/symbolizer.rs:137 needs no outcome. In the model every pass that does not stop produces exactly one symbol, so it cannot fail.
- The `wrapping_sub`/`wrapping_add` trick on the parser's index (src/parser.rs:15, 21) is not modelled. The index is a natural number starting at `start`.
- Integer widths the code does not depend on are unbounded: line and column counters, the parser's index and the loop counter. The 64-bit width of variable indices and values is modelled, through `U64` and checked arithmetic.
- The store is a `map`. The hash map's iteration order is never observed by the modelled code.
- Stack depth is not modelled: deep nesting in the recursive parser and evaluator is unbounded here.
- Characters are Dafny `char`s standing for Rust's `char`s. Whitespace is Rust's `char::is_whitespace` set, written out.
- Configuration.Config.Enable: models the code as written, so `allow_underflow` turns on `allow_named_vars`. The corrected `EnableFlagIntended` is proved separately and is not used by `Enable`, since the evaluator modelled here reads no switch.

## Findings

| source | as written | input that shows it | evidently intended | confidence | as-written member | corrected member |
|---|---|---|---|---|---|---|
| src/config.rs:45 | the name `allow_underflow` sets `allow_named_vars`, so no name ever turns on `allow_underflow` (ConfigProperties.UnderflowSetsNamedVars, ConfigProperties.UnderflowNeverEnabled, ConfigProperties.UnderflowFromAllOff) | `enable("allow_underflow")` on a configuration with all four switches off | `allow_underflow` sets `allow_underflow` (ConfigProperties.IntendedOwnFlag) | high, not executed | Configuration.EnableFlag | Configuration.EnableFlagIntended |
