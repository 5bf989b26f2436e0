/**
 * The lexer of WHILE programs (src/symbolizer.rs): turns program text into
 * a sequence of symbols, skipping whitespace and `[ ... ]` comments.
 */
module Symbolizer {
  import opened Prelude

  /** The keywords, tried in this order at every position that starts none of the other symbols. */
  const KEYWORDS: seq<string> := ["while", "do", "od"]

  datatype Symbol =
    | Variable(index: U64)
    | Constant(value: U64)
    | Keyword(word: string)
    | Declare
    | NotEquals
    | Plus
    | Minus
    | EOS

  /** The one lexical error ("Unknown keyword"), with the line and column where it was found. */
  datatype SymbolError = SymbolError(line: nat, pos: nat)

  /**
   * The outcome of lexing. `Panicked` stands for the two ways the lexer aborts
   * instead of returning: the assertion that `x` is followed by a digit, and an
   * overflowing `u64` while a digit run is accumulated (as in a debug build).
   */
  datatype LexResult =
    | Lexed(symbols: seq<Symbol>)
    | Failed(error: SymbolError)
    | Panicked

  predicate IsDigit(c: char) {
    '0' <= c <= '9'
  }

  function DigitValue(c: char): (d: nat)
    requires IsDigit(c)
    ensures d < 10
  {
    c as int - '0' as int
  }

  function DigitChar(d: nat): (c: char)
    requires d < 10
    ensures IsDigit(c) && DigitValue(c) == d
  {
    ('0' as int + d) as char
  }

  /** Rust's `char::is_whitespace`: the characters with the Unicode White_Space property. */
  predicate IsWhitespace(c: char) {
    var n := c as int;
    (0x09 <= n <= 0x0D) || n == 0x20 || n == 0x85 || n == 0xA0 || n == 0x1680
    || (0x2000 <= n <= 0x200A) || n == 0x2028 || n == 0x2029 || n == 0x202F
    || n == 0x205F || n == 0x3000
  }

  predicate AllDigits(s: string) {
    forall k :: 0 <= k < |s| ==> IsDigit(s[k])
  }

  /** The value of a digit string, accumulated left to right as `val * 10 + digit`. */
  function DecimalValue(s: string): nat
    requires AllDigits(s)
  {
    if s == [] then 0 else DecimalValue(s[..|s| - 1]) * 10 + DigitValue(s[|s| - 1])
  }

  /** The decimal rendering of `n`, as Rust's `{}` formats an integer. */
  function Decimal(n: nat): (s: string)
    ensures s != [] && AllDigits(s)
  {
    if n < 10 then [DigitChar(n)] else Decimal(n / 10) + [DigitChar(n % 10)]
  }

  /** The length of the maximal run of digits at the start of `s`. */
  function LeadingDigits(s: string): (n: nat)
    ensures n <= |s|
    ensures forall k :: 0 <= k < n ==> IsDigit(s[k])
    ensures n == |s| || !IsDigit(s[n])
  {
    if s != [] && IsDigit(s[0]) then 1 + LeadingDigits(s[1..]) else 0
  }

  /** The maximal run of digits at the start of `s`. */
  function DigitRun(s: string): (run: string)
    ensures AllDigits(run)
  {
    s[..LeadingDigits(s)]
  }

  predicate StartsWith(s: string, k: string) {
    |k| <= |s| && s[..|k|] == k
  }

  /** The first of `keywords` that `s` starts with. */
  function FirstKeyword(s: string, keywords: seq<string>): (r: Option<string>)
    ensures r.Some? ==> r.value in keywords && StartsWith(s, r.value)
    ensures r.None? <==> forall k :: k in keywords ==> !StartsWith(s, k)
  {
    if keywords == [] then None
    else if StartsWith(s, keywords[0]) then Some(keywords[0])
    else FirstKeyword(s, keywords[1..])
  }

  /** The `Debug` rendering of a symbol. */
  function Show(sym: Symbol): (s: string)
    ensures !sym.Keyword? ==> s != []
  {
    match sym
    case Variable(v) => "x" + Decimal(v)
    case Constant(c) => Decimal(c)
    case Keyword(k) => k
    case Declare => ":="
    case NotEquals => "!="
    case Plus => "+"
    case Minus => "-"
    case EOS => ";"
  }

  /** Puts `sym` in front of the symbols of a successful result; a failure stays as it is. */
  function Emit(sym: Symbol, r: LexResult): LexResult {
    if r.Lexed? then Lexed([sym] + r.symbols) else r
  }

  /** Puts `syms` in front of the symbols of a successful result; a failure stays as it is. */
  function Prepend(syms: seq<Symbol>, r: LexResult): LexResult {
    if r.Lexed? then Lexed(syms + r.symbols) else r
  }

  /** What one pass of the lexer's loop does at the start of the remaining input. */
  datatype Step =
    | Skip(consumed: nat, line: nat, col: nat, inComment: bool)  // no symbol: whitespace, comments
    | Produce(symbol: Symbol, consumed: nat, col: nat)           // exactly one symbol, same line
    | Stop(result: LexResult)                                    // an error or a panic

  /**
   * One pass of the loop on the rest `s` of the input, where `line` and `col`
   * are the position of the last character consumed and `inComment` says
   * whether a `[` is still open.
   */
  function NextStep(s: string, line: nat, col: nat, inComment: bool): (st: Step)
    requires s != []
    ensures (st.Skip? || st.Produce?) ==> 0 < st.consumed <= |s|
    ensures st.Produce? ==> !inComment
    ensures st.Stop? ==> !st.result.Lexed?
  {
    var c, here := s[0], col + 1;
    if inComment then
      if c == ']' then Skip(1, line, here, false)
      else if c == '\n' then Skip(1, line + 1, 0, true)
      else Skip(1, line, here, true)
    else if c == '[' then Skip(1, line, here, true)
    else if c == ':' && |s| > 1 && s[1] == '=' then Produce(Declare, 2, here + 1)
    else if c == '!' && |s| > 1 && s[1] == '=' then Produce(NotEquals, 2, here + 1)
    else if c == '+' then Produce(Plus, 1, here)
    else if c == '-' then Produce(Minus, 1, here)
    else if c == ';' then Produce(EOS, 1, here)
    else if c == 'x' then
      if |s| > 1 && IsDigit(s[1]) then
        var run := DigitRun(s[1..]);
        if DecimalValue(run) < U64_LIMIT then Produce(Variable(DecimalValue(run)), 1 + |run|, here + |run|)
        else Stop(Panicked)
      else Stop(Panicked)
    else if c == '\n' then Skip(1, line + 1, 0, false)
    else if IsWhitespace(c) then Skip(1, line, here, false)
    else if IsDigit(c) then
      var run := DigitRun(s);
      if DecimalValue(run) < U64_LIMIT then Produce(Constant(DecimalValue(run)), |run|, col + |run|)
      else Stop(Panicked)
    else
      match FirstKeyword(s, KEYWORDS)
      case Some(k) =>
        // the character right after the keyword is consumed as well
        Produce(Keyword(k), if |k| < |s| then |k| + 1 else |s|, here + |k|)
      case None => Stop(Failed(SymbolError(line, here)))
  }

  /** Lexes the rest `s` of the input: the loop stops when the input is used up. */
  function LexFrom(s: string, line: nat, col: nat, inComment: bool): (r: LexResult)
    ensures r.Lexed? ==> |r.symbols| <= |s|
    decreases |s|, 1
  {
    if s == [] then Lexed([]) else LexPass(s, line, col, inComment)
  }

  /** One pass of the loop on a non-empty rest `s`, then the rest of the loop. */
  function LexPass(s: string, line: nat, col: nat, inComment: bool): (r: LexResult)
    requires s != []
    ensures r.Lexed? ==> |r.symbols| <= |s|
    decreases |s|, 0
  {
    match NextStep(s, line, col, inComment)
    case Skip(n, line', col', inComment') => LexFrom(s[n..], line', col', inComment')
    case Produce(sym, n, col') => Emit(sym, LexFrom(s[n..], line, col', false))
    case Stop(r) => r
  }

  /** Lexing a whole program starts on line 1, column 0, outside any comment. */
  function Lex(input: string): (r: LexResult)
    ensures r.Lexed? ==> |r.symbols| <= |input|
  {
    LexFrom(input, 1, 0, false)
  }

  /**
   * What the lexer returns from a state of its main loop: the symbols gathered
   * so far followed by those of the rest of the input from position `i`.
   */
  ghost function Outcome(input: string, i: nat, line: nat, col: nat, inComment: bool, syms: seq<Symbol>): LexResult
    requires i <= |input|
  {
    Prepend(syms, LexFrom(input[i..], line, col, inComment))
  }

  /** The main loop of `symbolize`: passes over the input until it is used up or a pass stops. */
  method Symbolize(input: string) returns (r: LexResult)
    ensures r == Lex(input)
  {
    var i := 0;  // the position of the character iterator
    var line: nat, col: nat := 1, 0;
    var symbols: seq<Symbol> := [];
    var inComment := false;
    Started(input);
    while i < |input|
      invariant i <= |input|
      invariant Lex(input) == Outcome(input, i, line, col, inComment, symbols)
      decreases |input| - i
    {
      var stop;
      i, line, col, inComment, symbols, stop := Advance(input, i, line, col, inComment, symbols);
      if stop.Some? {
        return stop.value;
      }
    }
    Finished(input, i, line, col, inComment, symbols);
    return Lexed(symbols);
  }

  /**
   * The body of the main loop: one pass at position `i`, then the update of
   * the iterator, the position and the gathered symbols, or the early return.
   */
  method Advance(input: string, i: nat, line: nat, col: nat, inComment: bool, symbols: seq<Symbol>)
      returns (i': nat, line': nat, col': nat, inComment': bool, symbols': seq<Symbol>, stop: Option<LexResult>)
    requires i < |input|
    ensures stop.Some? ==> stop.value == Outcome(input, i, line, col, inComment, symbols)
    ensures stop.None? ==> i < i' <= |input|
    ensures stop.None? ==>
      Outcome(input, i', line', col', inComment', symbols') == Outcome(input, i, line, col, inComment, symbols)
  {
    var step := Pass(input, i, line, col, inComment);
    match step
    case Skip(n, l, c, k) =>
      SkipStep(input, i, line, col, inComment, symbols, n, l, c, k);
      return i + n, l, c, k, symbols, None;
    case Produce(symbol, n, c) =>
      ProduceStep(input, i, line, col, inComment, symbols, symbol, n, c);
      return i + n, line, c, false, symbols + [symbol], None;
    case Stop(result) =>
      StopStep(input, i, line, col, inComment, symbols, result);
      return i, line, col, inComment, symbols, Some(result);
  }

  /**
   * One pass of the loop of `symbolize` at position `i`. The source first
   * matches the character to a provisional symbol (`Variable(0)` marks an `x`,
   * `skip` the second character of `:=` and `!=`) and then completes it
   * (skipping, reading digits or trying the keywords); here both stages are
   * one chain of cases, in the same order.
   */
  method Pass(input: string, i: nat, line: nat, col: nat, inComment: bool) returns (step: Step)
    requires i < |input|
    ensures step == NextStep(input[i..], line, col, inComment)
  {
    ghost var s := input[i..];
    assert s[0] == input[i];
    var c, here := input[i], col + 1;
    if inComment {
      if c == ']' {
        return Skip(1, line, here, false);
      } else if c == '\n' {
        return Skip(1, line + 1, 0, true);
      }
      return Skip(1, line, here, true);
    }
    if c == '[' {
      return Skip(1, line, here, true);
    } else if c == ':' && i + 1 < |input| && input[i + 1] == '=' {
      return Produce(Declare, 2, here + 1);
    } else if c == '!' && i + 1 < |input| && input[i + 1] == '=' {
      return Produce(NotEquals, 2, here + 1);
    } else if c == '+' {
      return Produce(Plus, 1, here);
    } else if c == '-' {
      return Produce(Minus, 1, here);
    } else if c == ';' {
      return Produce(EOS, 1, here);
    } else if c == 'x' {
      if !(i + 1 < |input| && IsDigit(input[i + 1])) {
        return Stop(Panicked);  // the assertion that a digit follows `x`
      }
      var val, end, overflow := ReadNumber(input, i + 1);
      assert s[1..] == input[i + 1..];
      if overflow {
        return Stop(Panicked);
      }
      return Produce(Variable(val), end - i, here + (end - i - 1));
    } else if c == '\n' {
      return Skip(1, line + 1, 0, false);
    } else if IsWhitespace(c) {
      return Skip(1, line, here, false);
    } else if IsDigit(c) {
      var val, end, overflow := ReadNumber(input, i);
      if overflow {
        return Stop(Panicked);
      }
      return Produce(Constant(val), end - i, col + (end - i));
    }
    var keyword, resume, advance := FindKeyword(input, i);
    if keyword.None? {
      return Stop(Failed(SymbolError(line, here)));
    }
    return Produce(Keyword(keyword.value), resume - i, here + advance);
  }

  /** `LexFrom` at position `i` after a pass that consumed `n` characters and produced nothing. */
  lemma SkipStep(input: string, i: nat, line: nat, col: nat, inComment: bool, syms: seq<Symbol>,
                 n: nat, line': nat, col': nat, inComment': bool)
    requires i < |input|
    requires NextStep(input[i..], line, col, inComment) == Skip(n, line', col', inComment')
    ensures i < i + n <= |input|
    ensures Outcome(input, i + n, line', col', inComment', syms) == Outcome(input, i, line, col, inComment, syms)
  {
    assert LexFrom(input[i..], line, col, inComment) == LexPass(input[i..], line, col, inComment);
    assert input[i..][n..] == input[i + n..];
  }

  /** `LexFrom` at position `i` after a pass that consumed `n` characters and produced `sym`. */
  lemma ProduceStep(input: string, i: nat, line: nat, col: nat, inComment: bool, syms: seq<Symbol>,
                    sym: Symbol, n: nat, col': nat)
    requires i < |input|
    requires NextStep(input[i..], line, col, inComment) == Produce(sym, n, col')
    ensures i < i + n <= |input|
    ensures Outcome(input, i + n, line, col', false, syms + [sym]) == Outcome(input, i, line, col, inComment, syms)
  {
    assert LexFrom(input[i..], line, col, inComment) == LexPass(input[i..], line, col, inComment);
    assert input[i..][n..] == input[i + n..];
    PrependEmit(syms, sym, LexFrom(input[i + n..], line, col', false));
  }

  /** Before the first pass nothing is gathered and the whole input remains. */
  lemma Started(input: string)
    ensures Lex(input) == Outcome(input, 0, 1, 0, false, [])
  {
    assert input[0..] == input;
    if Lex(input).Lexed? {
      assert [] + Lex(input).symbols == Lex(input).symbols;
    }
  }

  /** Once the input is used up, the symbols gathered so far are the result. */
  lemma Finished(input: string, i: nat, line: nat, col: nat, inComment: bool, syms: seq<Symbol>)
    requires i == |input|
    ensures Outcome(input, i, line, col, inComment, syms) == Lexed(syms)
  {
    assert input[i..] == [];
    assert syms + [] == syms;
  }

  /** `LexFrom` at position `i` when the pass stops with `r`. */
  lemma StopStep(input: string, i: nat, line: nat, col: nat, inComment: bool, syms: seq<Symbol>,
                 r: LexResult)
    requires i < |input|
    requires NextStep(input[i..], line, col, inComment) == Stop(r)
    ensures r == Outcome(input, i, line, col, inComment, syms)
  {
    assert LexFrom(input[i..], line, col, inComment) == LexPass(input[i..], line, col, inComment);
  }

  lemma PrependEmit(syms: seq<Symbol>, sym: Symbol, r: LexResult)
    ensures Prepend(syms, Emit(sym, r)) == Prepend(syms + [sym], r)
  {
    if r.Lexed? {
      assert syms + ([sym] + r.symbols) == (syms + [sym]) + r.symbols;
    }
  }

  /**
   * The digit loop: accumulates the maximal digit run starting at `first`,
   * reporting an overflow of the `u64` accumulator.
   */
  method ReadNumber(input: string, first: nat) returns (val: U64, end: nat, overflow: bool)
    requires first < |input| && IsDigit(input[first])
    ensures overflow <==> DecimalValue(DigitRun(input[first..])) >= U64_LIMIT
    ensures !overflow ==> end == first + |DigitRun(input[first..])|
    ensures !overflow ==> val == DecimalValue(DigitRun(input[first..]))
  {
    ghost var run := DigitRun(input[first..]);
    val, end, overflow := 0, first, false;
    var j := first;
    while j < |input| && IsDigit(input[j])
      invariant first <= j <= first + |run|
      invariant input[first..j] == run[..j - first]
      invariant val == DecimalValue(run[..j - first])
    {
      assert input[first..][j - first] == input[j];
      assert j - first < |run|;
      assert run[..j + 1 - first] == run[..j - first] + [input[j]];
      var next := val * 10 + DigitValue(input[j]);
      if next >= U64_LIMIT {
        DecimalPrefixBound(run, j + 1 - first);
        return 0, j, true;
      }
      val, j := next, j + 1;
    }
    assert run[..j - first] == run;
    end := j;
  }

  /** The cloned-iterator scan that tries the keywords in order at `start`. */
  method FindKeyword(input: string, start: nat) returns (keyword: Option<string>, resume: nat, advance: nat)
    requires start < |input|
    ensures keyword == FirstKeyword(input[start..], KEYWORDS)
    ensures keyword.Some? ==> advance == |keyword.value|
    ensures keyword.Some? ==>
      resume == if start + |keyword.value| < |input| then start + |keyword.value| + 1 else |input|
  {
    keyword, resume, advance := None, start + 1, 0;
    var n := 0;
    while n < |KEYWORDS|
      invariant n <= |KEYWORDS|
      invariant FirstKeyword(input[start..], KEYWORDS) == FirstKeyword(input[start..], KEYWORDS[n..])
    {
      var k := KEYWORDS[n];
      var matched, clonePos, cloneCols := MatchKeyword(input, start, k);
      if matched {
        return Some(k), clonePos, cloneCols;
      }
      assert KEYWORDS[n..][1..] == KEYWORDS[n + 1..];
      n := n + 1;
    }
  }

  /**
   * Compares `k` with the input from `start` on a clone of the iterator. The
   * clone moves one character further for every character of `k` matched, so on
   * a match it stands one character past the end of the keyword.
   */
  method MatchKeyword(input: string, start: nat, k: string) returns (matched: bool, resume: nat, advance: nat)
    requires start < |input|
    ensures matched <==> StartsWith(input[start..], k)
    ensures matched ==> advance == |k|
    ensures matched ==> resume == if start + |k| < |input| then start + |k| + 1 else |input|
  {
    var m, p := 0, start;  // `m` characters of `k` matched; the clone's current character is input[p]
    while m < |k| && p < |input| && k[m] == input[p]
      invariant m <= |k| && p == start + m <= |input|
      invariant input[start..p] == k[..m]
    {
      assert input[start..p + 1] == input[start..p] + [input[p]];
      assert k[..m + 1] == k[..m] + [k[m]];
      m, p := m + 1, p + 1;
    }
    matched := m == |k|;
    if matched {
      assert input[start..][..|k|] == input[start..p];
    } else if |k| <= |input| - start {
      assert p < |input| && k[m] != input[p];
      assert input[start..][..|k|][m] == input[p];
    }
    resume := if p < |input| then p + 1 else |input|;
    advance := m;
  }

  /** A prefix of a digit string has a value no larger than the whole string. */
  lemma {:induction false} DecimalPrefixBound(s: string, m: nat)
    requires AllDigits(s) && m <= |s|
    ensures DecimalValue(s[..m]) <= DecimalValue(s)
    decreases |s|
  {
    if m < |s| {
      var t := s[..|s| - 1];
      assert t[..m] == s[..m];
      DecimalPrefixBound(t, m);
    } else {
      assert s[..m] == s;
    }
  }
}
