/** What the lexer promises, stated on `LexFrom` and proved from one pass at a time. */
module SymbolizerProperties {
  import opened Prelude
  import opened Symbolizer

  /*
   * One pass, on a plain string.
   */

  lemma PassSkip(s: string, line: nat, col: nat, inComment: bool)
    requires s != [] && NextStep(s, line, col, inComment).Skip?
    ensures var st := NextStep(s, line, col, inComment);
      LexFrom(s, line, col, inComment) == LexFrom(s[st.consumed..], st.line, st.col, st.inComment)
  {
    assert LexFrom(s, line, col, inComment) == LexPass(s, line, col, inComment);
  }

  lemma PassProduce(s: string, line: nat, col: nat, inComment: bool)
    requires s != [] && NextStep(s, line, col, inComment).Produce?
    ensures var st := NextStep(s, line, col, inComment);
      LexFrom(s, line, col, inComment) == Emit(st.symbol, LexFrom(s[st.consumed..], line, st.col, false))
  {
    assert LexFrom(s, line, col, inComment) == LexPass(s, line, col, inComment);
  }

  lemma PassStop(s: string, line: nat, col: nat, inComment: bool)
    requires s != [] && NextStep(s, line, col, inComment).Stop?
    ensures LexFrom(s, line, col, inComment) == NextStep(s, line, col, inComment).result
  {
    assert LexFrom(s, line, col, inComment) == LexPass(s, line, col, inComment);
  }

  /*
   * Line and column bookkeeping.
   */

  /**
   * The line and column after reading `text` from position (`line`, `col`):
   * a newline moves to column 0 of the next line, any other character one column on.
   */
  function Track(text: string, line: nat, col: nat): (pos: (nat, nat))
    ensures pos.0 >= line
    ensures '\n' !in text ==> pos == (line, col + |text|)
    decreases |text|
  {
    if text == [] then (line, col)
    else if text[0] == '\n' then Track(text[1..], line + 1, 0)
    else Track(text[1..], line, col + 1)
  }

  lemma {:induction false} TrackAppend(a: string, b: string, line: nat, col: nat)
    ensures Track(a + b, line, col) == Track(b, Track(a, line, col).0, Track(a, line, col).1)
    decreases |a|
  {
    if a != [] {
      assert (a + b)[1..] == a[1..] + b;
      if a[0] == '\n' {
        TrackAppend(a[1..], b, line + 1, 0);
      } else {
        TrackAppend(a[1..], b, line, col + 1);
      }
    } else {
      assert a + b == b;
    }
  }

  /** Whitespace emits nothing; newlines among it move to the next line. */
  lemma {:induction false} SkipsWhitespace(ws: string, rest: string, line: nat, col: nat)
    requires forall k :: 0 <= k < |ws| ==> IsWhitespace(ws[k])
    ensures LexFrom(ws + rest, line, col, false)
         == LexFrom(rest, Track(ws, line, col).0, Track(ws, line, col).1, false)
    decreases |ws|
  {
    if ws != [] {
      var s := ws + rest;
      assert s[0] == ws[0] && s[1..] == ws[1..] + rest;
      PassSkip(s, line, col, false);
      if ws[0] == '\n' {
        SkipsWhitespace(ws[1..], rest, line + 1, 0);
      } else {
        SkipsWhitespace(ws[1..], rest, line, col + 1);
      }
    } else {
      assert ws + rest == rest;
    }
  }

  /** Inside a comment every character but `]` is skipped, a nested `[` included. */
  lemma {:induction false} SkipsCommentBody(body: string, rest: string, line: nat, col: nat)
    requires ']' !in body
    ensures LexFrom(body + rest, line, col, true)
         == LexFrom(rest, Track(body, line, col).0, Track(body, line, col).1, true)
    decreases |body|
  {
    if body != [] {
      var s := body + rest;
      assert s[0] == body[0] && s[1..] == body[1..] + rest;
      PassSkip(s, line, col, true);
      if body[0] == '\n' {
        SkipsCommentBody(body[1..], rest, line + 1, 0);
      } else {
        SkipsCommentBody(body[1..], rest, line, col + 1);
      }
    } else {
      assert body + rest == rest;
    }
  }

  /** A whole comment `[ ... ]` emits no symbols. */
  lemma SkipsComment(body: string, rest: string, line: nat, col: nat)
    requires ']' !in body
    ensures var pos := Track("[" + body + "]", line, col);
      LexFrom("[" + body + "]" + rest, line, col, false) == LexFrom(rest, pos.0, pos.1, false)
  {
    var s := "[" + body + "]" + rest;
    assert s[0] == '[' && s[1..] == body + ("]" + rest);
    PassSkip(s, line, col, false);
    SkipsCommentBody(body, "]" + rest, line, col + 1);
    var p := Track(body, line, col + 1);
    var t := "]" + rest;
    assert t[0] == ']' && t[1..] == rest;
    PassSkip(t, p.0, p.1, true);
    TrackAppend("[", body, line, col);
    TrackAppend("[" + body, "]", line, col);
  }

  /** A comment that is never closed swallows the rest of the input, and lexing still succeeds. */
  lemma UnterminatedComment(body: string, line: nat, col: nat)
    requires ']' !in body
    ensures LexFrom("[" + body, line, col, false) == Lexed([])
  {
    var s := "[" + body;
    assert s[0] == '[' && s[1..] == body;
    PassSkip(s, line, col, false);
    SkipsCommentBody(body, [], line, col + 1);
    assert body + [] == body;
  }

  /*
   * Operators.
   */

  /** `:=` and `!=` are one symbol each and consume exactly their two characters. */
  lemma LexTwoCharOperator(s: string, line: nat, col: nat)
    requires |s| >= 2 && s[0] in ":!" && s[1] == '='
    ensures LexFrom(s, line, col, false)
         == Emit(if s[0] == ':' then Declare else NotEquals, LexFrom(s[2..], line, col + 2, false))
  {
    PassProduce(s, line, col, false);
  }

  /** `+`, `-` and `;` are one symbol each. */
  lemma LexOneCharOperator(s: string, line: nat, col: nat)
    requires s != [] && s[0] in "+-;"
    ensures LexFrom(s, line, col, false)
         == Emit(if s[0] == '+' then Plus else if s[0] == '-' then Minus else EOS,
                 LexFrom(s[1..], line, col + 1, false))
  {
    PassProduce(s, line, col, false);
  }

  /** No keyword starts with a character other than `w`, `d` and `o`. */
  lemma NoKeywordStartsWith(s: string)
    requires s != [] && s[0] !in "wdo"
    ensures FirstKeyword(s, KEYWORDS) == None
  {
    forall k | k in KEYWORDS ensures !StartsWith(s, k) {
      assert k[0] in "wdo";
    }
  }

  /** A `:` or a `!` that is not followed by `=` is the "Unknown keyword" error at its column. */
  lemma LoneColonOrBang(s: string, line: nat, col: nat)
    requires s != [] && s[0] in ":!" && (|s| == 1 || s[1] != '=')
    ensures LexFrom(s, line, col, false) == Failed(SymbolError(line, col + 1))
  {
    NoKeywordStartsWith(s);
    PassStop(s, line, col, false);
  }

  /**
   * Any other character that starts no symbol and no keyword is the
   * "Unknown keyword" error at its column; nothing is returned but the error.
   */
  lemma UnknownCharacter(s: string, line: nat, col: nat)
    requires s != [] && s[0] !in "[:!+-;x" && !IsWhitespace(s[0]) && !IsDigit(s[0])
    requires FirstKeyword(s, KEYWORDS) == None
    ensures LexFrom(s, line, col, false) == Failed(SymbolError(line, col + 1))
  {
    PassStop(s, line, col, false);
  }

  /*
   * Numbers and variables.
   */

  /**
   * A maximal run of digits is one `Constant` holding its decimal value; a
   * value beyond `u64` makes the accumulator overflow.
   */
  lemma LexConstant(s: string, line: nat, col: nat)
    requires s != [] && IsDigit(s[0])
    ensures var run := DigitRun(s);
      LexFrom(s, line, col, false)
      == if DecimalValue(run) < U64_LIMIT
         then Emit(Constant(DecimalValue(run)), LexFrom(s[|run|..], line, col + |run|, false))
         else Panicked
  {
    if DecimalValue(DigitRun(s)) < U64_LIMIT {
      PassProduce(s, line, col, false);
    } else {
      PassStop(s, line, col, false);
    }
  }

  /** `x` and a maximal run of digits are one `Variable` indexed by the digits' value. */
  lemma LexVariable(s: string, line: nat, col: nat)
    requires |s| > 1 && s[0] == 'x' && IsDigit(s[1])
    ensures var run := DigitRun(s[1..]);
      LexFrom(s, line, col, false)
      == if DecimalValue(run) < U64_LIMIT
         then Emit(Variable(DecimalValue(run)), LexFrom(s[1 + |run|..], line, col + 1 + |run|, false))
         else Panicked
  {
    if DecimalValue(DigitRun(s[1..])) < U64_LIMIT {
      PassProduce(s, line, col, false);
    } else {
      PassStop(s, line, col, false);
    }
  }

  /** An `x` that no digit follows fails the lexer's assertion. */
  lemma BareX(s: string, line: nat, col: nat)
    requires s != [] && s[0] == 'x' && (|s| == 1 || !IsDigit(s[1]))
    ensures LexFrom(s, line, col, false) == Panicked
  {
    PassStop(s, line, col, false);
  }

  lemma {:induction false} LeadingDigitsOf(d: string, rest: string)
    requires AllDigits(d) && (rest == [] || !IsDigit(rest[0]))
    ensures LeadingDigits(d + rest) == |d|
    decreases |d|
  {
    if d == [] {
      assert d + rest == rest;
    } else {
      assert (d + rest)[0] == d[0] && (d + rest)[1..] == d[1..] + rest;
      LeadingDigitsOf(d[1..], rest);
    }
  }

  /** The digit run at the start of `d + rest` is `d` when `d` is a maximal run of digits. */
  lemma DigitRunOf(d: string, rest: string)
    requires AllDigits(d) && (rest == [] || !IsDigit(rest[0]))
    ensures DigitRun(d + rest) == d
  {
    LeadingDigitsOf(d, rest);
    assert (d + rest)[..|d|] == d;
  }

  /*
   * Keywords.
   */

  /** Each keyword is found first among the keywords when the text starts with it. */
  lemma KeywordFound(s: string, k: string)
    requires k in KEYWORDS && StartsWith(s, k)
    ensures FirstKeyword(s, KEYWORDS) == Some(k)
  {
    if k == "do" {
      assert s[0] == 'd';
      assert !StartsWith(s, "while") by { assert "while"[0] == 'w'; }
    } else if k == "od" {
      assert s[0] == 'o';
      assert !StartsWith(s, "while") by { assert "while"[0] == 'w'; }
      assert !StartsWith(s, "do") by { assert "do"[0] == 'd'; }
      assert KEYWORDS[1..][1..] == ["od"];
    }
  }

  /**
   * A keyword is matched by prefix, and the character right after it is
   * consumed as well, whatever it is: a `;`, a letter (no maximal munch) or a
   * newline (which then does not count as a new line).
   */
  lemma LexKeyword(s: string, k: string, line: nat, col: nat)
    requires k in KEYWORDS && StartsWith(s, k)
    ensures |s| > |k| ==>
      LexFrom(s, line, col, false) == Emit(Keyword(k), LexFrom(s[|k| + 1..], line, col + 1 + |k|, false))
    ensures |s| == |k| ==> LexFrom(s, line, col, false) == Lexed([Keyword(k)])
  {
    KeywordFound(s, k);
    assert s[0] == k[0] && k[0] in "wdo";
    PassProduce(s, line, col, false);
    assert s[|s|..] == [];
  }

  /*
   * Rendering and lexing are inverse.
   */

  /** Reading back the decimal rendering of `n` gives `n`. */
  lemma {:induction false} DecimalRoundTrip(n: nat)
    ensures DecimalValue(Decimal(n)) == n
  {
    if n >= 10 {
      var s := Decimal(n);
      assert s[..|s| - 1] == Decimal(n / 10);
      DecimalRoundTrip(n / 10);
    }
  }

  /** A symbol the lexer can produce: a keyword symbol holds one of the keywords. */
  predicate Lexable(sym: Symbol) {
    sym.Keyword? ==> sym.word in KEYWORDS
  }

  /**
   * `w` is a spelling of `sym` the lexer reads back as `sym`: `x` and digits
   * worth the index, digits worth the constant, the keyword itself, or the
   * operator's characters.
   */
  predicate Renders(w: string, sym: Symbol) {
    match sym
    case Variable(v) => |w| > 1 && w[0] == 'x' && AllDigits(w[1..]) && DecimalValue(w[1..]) == v
    case Constant(c) => w != [] && AllDigits(w) && DecimalValue(w) == c
    case Keyword(k) => w == k && k in KEYWORDS
    case Declare => w == ":="
    case NotEquals => w == "!="
    case Plus => w == "+"
    case Minus => w == "-"
    case EOS => w == ";"
  }

  /** The debug rendering of a lexable symbol is a spelling the lexer reads back as that symbol. */
  lemma ShowRenders(sym: Symbol)
    requires Lexable(sym)
    ensures Renders(Show(sym), sym)
  {
    match sym
    case Variable(v) =>
      assert Show(sym)[1..] == Decimal(v);
      DecimalRoundTrip(v);
    case Constant(c) =>
      DecimalRoundTrip(c);
    case _ =>
  }

  /** `s` is `w`, then a blank, then `rest`. */
  predicate WordThen(s: string, w: string, rest: string) {
    |s| > |w| && s[..|w|] == w && s[|w|] == ' ' && s[|w| + 1..] == rest
  }

  /** A blank emits nothing and moves one column on. */
  lemma LexBlank(s: string, line: nat, col: nat)
    requires s != [] && s[0] == ' '
    ensures LexFrom(s, line, col, false) == LexFrom(s[1..], line, col + 1, false)
  {
    PassSkip(s, line, col, false);
  }

  /** The digit run at the start of `u` is `d` when `u` starts with the digits `d` and a non-digit follows. */
  lemma DigitRunPrefix(u: string, d: string)
    requires AllDigits(d) && |u| > |d| && u[..|d|] == d && !IsDigit(u[|d|])
    ensures DigitRun(u) == d
  {
    assert u == d + u[|d|..];
    DigitRunOf(d, u[|d|..]);
  }

  /** A variable whose digits `d` are followed by a blank and `rest`. */
  lemma VariableThenBlank(s: string, d: string, v: U64, rest: string, line: nat, col: nat)
    requires |s| > 1 + |d| && s[0] == 'x' && IsDigit(s[1])
    requires DigitRun(s[1..]) == d && DecimalValue(d) == v && s[1 + |d|] == ' ' && s[2 + |d|..] == rest
    ensures LexFrom(s, line, col, false) == Emit(Variable(v), LexFrom(rest, line, col + |d| + 2, false))
  {
    LexVariable(s, line, col);
    var t := s[1 + |d|..];
    assert LexFrom(s, line, col, false) == Emit(Variable(v), LexFrom(t, line, col + 1 + |d|, false));
    LexBlank(t, line, col + 1 + |d|);
    assert t[1..] == rest;
  }

  /** A constant whose digits `d` are followed by a blank and `rest`. */
  lemma ConstantThenBlank(s: string, d: string, c: U64, rest: string, line: nat, col: nat)
    requires |s| > |d| && IsDigit(s[0])
    requires DigitRun(s) == d && DecimalValue(d) == c && s[|d|] == ' ' && s[|d| + 1..] == rest
    ensures LexFrom(s, line, col, false) == Emit(Constant(c), LexFrom(rest, line, col + |d| + 1, false))
  {
    LexConstant(s, line, col);
    var t := s[|d|..];
    assert LexFrom(s, line, col, false) == Emit(Constant(c), LexFrom(t, line, col + |d|, false));
    LexBlank(t, line, col + |d|);
    assert t[1..] == rest;
  }

  /** A spelling of a variable followed by a blank lexes back to that variable. */
  lemma LexVariableWord(s: string, w: string, v: U64, rest: string, line: nat, col: nat)
    requires Renders(w, Variable(v)) && WordThen(s, w, rest)
    ensures LexFrom(s, line, col, false) == Emit(Variable(v), LexFrom(rest, line, col + (|s| - |rest|), false))
  {
    var d, u := w[1..], s[1..];
    assert s[0] == s[..|w|][0] == 'x';
    assert u[..|d|] == s[..|w|][1..] == d && u[|d|] == ' ';
    DigitRunPrefix(u, d);
    assert IsDigit(u[0]);
    VariableThenBlank(s, d, v, rest, line, col);
  }

  /** A spelling of a constant followed by a blank lexes back to that constant. */
  lemma LexConstantWord(s: string, w: string, c: U64, rest: string, line: nat, col: nat)
    requires Renders(w, Constant(c)) && WordThen(s, w, rest)
    ensures LexFrom(s, line, col, false) == Emit(Constant(c), LexFrom(rest, line, col + (|s| - |rest|), false))
  {
    DigitRunPrefix(s, w);
    assert IsDigit(s[..|w|][0]);
    ConstantThenBlank(s, w, c, rest, line, col);
  }

  /** A keyword followed by a blank lexes back to that keyword (the blank is the dropped character). */
  lemma LexKeywordWord(s: string, k: string, rest: string, line: nat, col: nat)
    requires k in KEYWORDS && WordThen(s, k, rest)
    ensures LexFrom(s, line, col, false) == Emit(Keyword(k), LexFrom(rest, line, col + (|s| - |rest|), false))
  {
    assert StartsWith(s, k);
    LexKeyword(s, k, line, col);
  }

  /** `:=` or `!=` followed by a blank lexes back to that operator. */
  lemma LexTwoCharWord(s: string, w: string, sym: Symbol, rest: string, line: nat, col: nat)
    requires sym.Declare? || sym.NotEquals?
    requires Renders(w, sym) && WordThen(s, w, rest)
    ensures LexFrom(s, line, col, false) == Emit(sym, LexFrom(rest, line, col + (|s| - |rest|), false))
  {
    assert s[0] == s[..2][0] == w[0] && s[1] == s[..2][1] == '=';
    LexTwoCharOperator(s, line, col);
    var t := s[2..];
    LexBlank(t, line, col + 2);
    assert t[1..] == rest;
  }

  /** `+`, `-` or `;` followed by a blank lexes back to that operator. */
  lemma LexOneCharWord(s: string, w: string, sym: Symbol, rest: string, line: nat, col: nat)
    requires sym.Plus? || sym.Minus? || sym.EOS?
    requires Renders(w, sym) && WordThen(s, w, rest)
    ensures LexFrom(s, line, col, false) == Emit(sym, LexFrom(rest, line, col + (|s| - |rest|), false))
  {
    assert s[0] == s[..1][0] == w[0];
    LexOneCharOperator(s, line, col);
    var t := s[1..];
    LexBlank(t, line, col + 1);
    assert t[1..] == rest;
  }

  /** A spelling of any symbol followed by a blank lexes back to that symbol; the lexer then stands at column `c`. */
  lemma LexWord(s: string, w: string, sym: Symbol, rest: string, line: nat, col: nat, c: nat)
    requires Renders(w, sym) && WordThen(s, w, rest) && c == col + (|s| - |rest|)
    ensures LexFrom(s, line, col, false) == Emit(sym, LexFrom(rest, line, c, false))
  {
    match sym
    case Variable(v) => LexVariableWord(s, w, v, rest, line, col);
    case Constant(k) => LexConstantWord(s, w, k, rest, line, col);
    case Keyword(k) => LexKeywordWord(s, k, rest, line, col);
    case Declare => LexTwoCharWord(s, w, sym, rest, line, col);
    case NotEquals => LexTwoCharWord(s, w, sym, rest, line, col);
    case _ => LexOneCharWord(s, w, sym, rest, line, col);
  }

  /** The words written one after another, each followed by a blank. */
  function JoinWords(ws: seq<string>): (text: string)
    ensures |text| >= |ws|
  {
    if ws == [] then [] else ws[0] + " " + JoinWords(ws[1..])
  }

  /** `s` begins with `prefix` and continues with `rest`. */
  predicate Begins(s: string, prefix: string, rest: string) {
    |s| >= |prefix| && s[..|prefix|] == prefix && s[|prefix|..] == rest
  }

  /** Where the first word and its blank end, the other words begin. */
  lemma JoinWordsSplit(s: string, ws: seq<string>, rest: string)
    requires ws != [] && Begins(s, JoinWords(ws), rest)
    ensures WordThen(s, ws[0], s[|ws[0]| + 1..]) && Begins(s[|ws[0]| + 1..], JoinWords(ws[1..]), rest)
  {
    var j, n, tail := JoinWords(ws), |ws[0]|, JoinWords(ws[1..]);
    assert j == ws[0] + " " + tail;
    assert s[..n] == j[..n] && s[n] == j[n];
    assert s[n + 1..][..|tail|] == j[n + 1..];
    assert s[n + 1..][|tail|..] == s[|j|..];
  }

  /** One symbol in front of the others, in front of the rest of the result. */
  lemma EmitPrepend(a: LexResult, b: LexResult, syms: seq<Symbol>, r: LexResult)
    requires syms != [] && a == Emit(syms[0], b) && b == Prepend(syms[1..], r)
    ensures a == Prepend(syms, r)
  {
    if r.Lexed? {
      assert [syms[0]] + (syms[1..] + r.symbols) == syms + r.symbols;
    }
  }

  /** Each word is a spelling of the symbol at the same place. */
  predicate Spell(ws: seq<string>, syms: seq<Symbol>)
    decreases |ws|
  {
    |ws| == |syms| && (ws != [] ==> Renders(ws[0], syms[0]) && Spell(ws[1..], syms[1..]))
  }

  /** No words: the text is the rest, and nothing is put in front of its result. */
  lemma LexNoWords(s: string, rest: string, r: LexResult)
    requires Begins(s, JoinWords([]), rest)
    ensures s == rest && Prepend([], r) == r
  {
    assert s == s[0..];
    if r.Lexed? {
      assert [] + r.symbols == r.symbols;
    }
  }

  /** The first word lexes back to its symbol, and the remaining words continue from there. */
  lemma LexFirstWord(ws: seq<string>, syms: seq<Symbol>, s: string, t: string, rest: string, line: nat, col: nat, c: nat, e: nat)
    requires ws != [] && Spell(ws, syms) && Begins(s, JoinWords(ws), rest) && t == s[|ws[0]| + 1..]
    requires c == col + (|s| - |t|)
    requires LexFrom(t, line, c, false) == Prepend(syms[1..], LexFrom(rest, line, e, false))
    ensures LexFrom(s, line, col, false) == Prepend(syms, LexFrom(rest, line, e, false))
  {
    JoinWordsSplit(s, ws, rest);
    LexWord(s, ws[0], syms[0], t, line, col, c);
    EmitPrepend(LexFrom(s, line, col, false), LexFrom(t, line, c, false), syms, LexFrom(rest, line, e, false));
  }

  /**
   * Lexing spellings of symbols, each followed by a blank, gives those symbols
   * back, in order, and leaves the lexer on the same line at column `e`, just
   * past the text.
   */
  lemma {:induction false} LexWords(ws: seq<string>, syms: seq<Symbol>, s: string, rest: string, line: nat, col: nat, e: nat)
    requires Spell(ws, syms) && Begins(s, JoinWords(ws), rest) && e == col + (|s| - |rest|)
    ensures LexFrom(s, line, col, false) == Prepend(syms, LexFrom(rest, line, e, false))
    decreases |ws|
  {
    if ws == [] {
      LexNoWords(s, rest, LexFrom(rest, line, e, false));
    } else {
      var t := s[|ws[0]| + 1..];
      JoinWordsSplit(s, ws, rest);
      var c := col + (|s| - |t|);
      LexWords(ws[1..], syms[1..], t, rest, line, c, e);
      LexFirstWord(ws, syms, s, t, rest, line, col, c, e);
    }
  }

  /** The debug renderings of the symbols, in order. */
  function Shows(syms: seq<Symbol>): (ws: seq<string>)
    ensures |ws| == |syms|
  {
    if syms == [] then [] else [Show(syms[0])] + Shows(syms[1..])
  }

  /** The debug renderings of lexable symbols spell them. */
  lemma {:induction false} ShowsSpell(syms: seq<Symbol>)
    requires forall k :: 0 <= k < |syms| ==> Lexable(syms[k])
    ensures Spell(Shows(syms), syms)
    decreases |syms|
  {
    if syms != [] {
      var ws := Shows(syms);
      assert Lexable(syms[0]);
      ShowRenders(syms[0]);
      assert forall k :: 0 <= k < |syms[1..]| ==> Lexable(syms[1..][k]) by {
        forall k | 0 <= k < |syms[1..]| ensures Lexable(syms[1..][k]) {
          assert syms[1..][k] == syms[k + 1];
        }
      }
      ShowsSpell(syms[1..]);
      assert ws[1..] == Shows(syms[1..]);
    }
  }

  /** The symbols' debug renderings, each followed by a blank. */
  function Join(syms: seq<Symbol>): string {
    JoinWords(Shows(syms))
  }

  /** Lexing a program written as the rendering of lexable symbols returns exactly those symbols. */
  lemma LexRendering(syms: seq<Symbol>)
    requires forall k :: 0 <= k < |syms| ==> Lexable(syms[k])
    ensures Lex(Join(syms)) == Lexed(syms)
  {
    var j := Join(syms);
    ShowsSpell(syms);
    assert j[..|j|] == j && j[|j|..] == [];
    LexWords(Shows(syms), syms, j, [], 1, 0, |j|);
    assert syms + [] == syms;
  }

  /*
   * Invariants of every run.
   */

  /**
   * Every pass that is not skipped appends exactly one symbol, so a successful
   * run has at most as many symbols as characters, and every keyword symbol
   * holds one of the keywords.
   */
  lemma {:induction false} LexedShape(s: string, line: nat, col: nat, inComment: bool)
    ensures var r := LexFrom(s, line, col, inComment);
      r.Lexed? ==> |r.symbols| <= |s| && forall k :: 0 <= k < |r.symbols| ==> Lexable(r.symbols[k])
    decreases |s|
  {
    if s != [] {
      var st := NextStep(s, line, col, inComment);
      match st
      case Skip(n, l, c, k) =>
        PassSkip(s, line, col, inComment);
        LexedShape(s[n..], l, c, k);
      case Produce(sym, n, c) =>
        PassProduce(s, line, col, inComment);
        LexedShape(s[n..], line, c, false);
        assert Lexable(sym);
      case Stop(r) =>
        PassStop(s, line, col, inComment);
    }
  }
}
