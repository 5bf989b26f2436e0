/**
 * What the parser accepts, characterised through the symbols that spell a
 * statement: a parse succeeds exactly when the symbols it consumes spell a
 * left-leaning statement and are followed by the end or an `od`.
 */
module ParserProperties {
  import opened Prelude
  import opened Symbolizer
  import opened Parser
  import SymbolizerProperties

  /** The symbols that spell a statement; the two statements of a sequence are separated by `;`. */
  function Tokens(s: Statement): (t: seq<Symbol>)
    ensures |t| >= 3
  {
    match s
    case S(l, r) => Tokens(l) + [EOS] + Tokens(r)
    case DeclarePlus(a, b, c) => [Variable(a), Declare, Variable(b), Plus, Variable(c)]
    case DeclareMin(a, b, c) => [Variable(a), Declare, Variable(b), Minus, Variable(c)]
    case DeclareConst(a, c) => [Variable(a), Declare, Constant(c)]
    case While(cv, body) => LoopHead(cv) + Tokens(body) + [Keyword("od")]
  }

  /** `while xi != 0 do`. */
  function LoopHead(cv: U64): seq<Symbol> {
    [Keyword("while"), Variable(cv), NotEquals, Constant(0), Keyword("do")]
  }

  /** The shape the parser builds: the second statement of every `S` is not itself an `S`. */
  predicate LeftLeaning(s: Statement) {
    match s
    case S(l, r) => !r.S? && LeftLeaning(l) && LeftLeaning(r)
    case While(_, body) => LeftLeaning(body)
    case _ => true
  }

  /** The symbols of the statement before a `;`, with that `;`. */
  function LeftTokens(left: Option<Statement>): seq<Symbol> {
    if left.Some? then Tokens(left.value) + [EOS] else []
  }

  /** The statement before a `;` is one the parser could have built. */
  predicate LeftOk(left: Option<Statement>) {
    left.Some? ==> LeftLeaning(left.value)
  }

  /** `t` is found in `syms` at `pos`. */
  predicate Spells(syms: seq<Symbol>, pos: nat, t: seq<Symbol>) {
    pos + |t| <= |syms| && syms[pos..pos + |t|] == t
  }

  /*
   * Soundness: what the parser returns is spelled by the symbols it consumed.
   */

  /** Splitting the consumed symbols at the end of the first statement. */
  lemma SpliceFirst(syms: seq<Symbol>, pos: nat, next: nat, e: nat, tl: seq<Symbol>, ts: seq<Symbol>, tp: seq<Symbol>)
    requires pos <= next <= e + 1 <= |syms| && syms[pos..next] == ts && tp == (tl + ts) + syms[next..e + 1]
    ensures tp == tl + syms[pos..e + 1]
  {
    assert syms[pos..e + 1] == syms[pos..next] + syms[next..e + 1];
  }

  /** Splitting the consumed symbols after a `;`. */
  lemma SpliceSemicolon(syms: seq<Symbol>, pos: nat, e: nat, ta: seq<Symbol>, tp: seq<Symbol>)
    requires pos < e + 1 <= |syms| && syms[pos] == EOS && tp == (ta + [EOS]) + syms[pos + 1..e + 1]
    ensures tp == ta + syms[pos..e + 1]
  {
    assert syms[pos..e + 1] == [EOS] + syms[pos + 1..e + 1];
  }

  lemma TokensAttach(left: Option<Statement>, st: Statement)
    ensures Tokens(Attach(left, st)) == LeftTokens(left) + Tokens(st)
  {
    if left.Some? {
      assert Tokens(S(left.value, st)) == Tokens(left.value) + [EOS] + Tokens(st);
    }
  }

  lemma {:induction false} SoundFrom(syms: seq<Symbol>, pos: nat, left: Option<Statement>)
    ensures var r := ParseFrom(syms, pos, left);
      r.Ok? ==> (Tokens(r.value.program) == LeftTokens(left) + syms[pos..r.value.end + 1]
                 && (LeftOk(left) ==> LeftLeaning(r.value.program)))
    decreases |syms| - pos, 2
  {
    var p := ParseStatement(syms, pos);
    if p.Ok? {
      var st, next := p.value.stmt, p.value.next;
      FromStatement(syms, pos, left, st, next);
      SoundStatement(syms, pos);
      SoundTail(syms, next, Attach(left, st));
      var r := ParseTail(syms, next, Attach(left, st));
      if r.Ok? {
        TokensAttach(left, st);
        SpliceFirst(syms, pos, next, r.value.end, LeftTokens(left), Tokens(st), Tokens(r.value.program));
      }
    } else {
      FromError(syms, pos, left);
    }
  }

  lemma {:induction false} SoundTail(syms: seq<Symbol>, pos: nat, acc: Statement)
    requires 0 < pos <= |syms|
    ensures var r := ParseTail(syms, pos, acc);
      r.Ok? ==> (Tokens(r.value.program) == Tokens(acc) + syms[pos..r.value.end + 1]
                 && (LeftLeaning(acc) ==> LeftLeaning(r.value.program)))
    decreases |syms| - pos, 3
  {
    if At(syms, pos) == Some(EOS) {
      SoundSemicolon(syms, pos, acc);
    } else if Stops(syms, pos) {
      TailStops(syms, pos, acc);
      assert syms[pos..pos] == [];
    } else {
      TailError(syms, pos, acc);
    }
  }

  lemma {:induction false} SoundSemicolon(syms: seq<Symbol>, pos: nat, acc: Statement)
    requires 0 < pos <= |syms| && At(syms, pos) == Some(EOS)
    ensures var r := ParseTail(syms, pos, acc);
      r.Ok? ==> (Tokens(r.value.program) == Tokens(acc) + syms[pos..r.value.end + 1]
                 && (LeftLeaning(acc) ==> LeftLeaning(r.value.program)))
    decreases |syms| - pos, 2, 0
  {
    TailSemicolon(syms, pos, acc);
    assert LeftTokens(Some(acc)) == Tokens(acc) + [EOS];
    SoundFrom(syms, pos + 1, Some(acc));
    var r := ParseFrom(syms, pos + 1, Some(acc));
    if r.Ok? {
      SpliceSemicolon(syms, pos, r.value.end, Tokens(acc), Tokens(r.value.program));
    }
  }

  lemma {:induction false} SoundStatement(syms: seq<Symbol>, pos: nat)
    ensures var p := ParseStatement(syms, pos);
      p.Ok? ==> syms[pos..p.value.next] == Tokens(p.value.stmt) && LeftLeaning(p.value.stmt)
    decreases |syms| - pos, 1
  {
    match At(syms, pos)
    case Some(Variable(v0)) =>
      var p := ParseAssignment(syms, pos, v0);
      if p.Ok? {
        assert syms[pos..p.value.next] == Tokens(p.value.stmt) by {
          if p.value.next == pos + 3 {
            assert syms[pos..pos + 3] == [syms[pos], syms[pos + 1], syms[pos + 2]];
          } else {
            assert syms[pos..pos + 5] == [syms[pos], syms[pos + 1], syms[pos + 2], syms[pos + 3], syms[pos + 4]];
          }
        }
      }
    case Some(Keyword(kw)) =>
      if kw == "while" {
        SoundLoop(syms, pos);
      }
    case _ =>
  }

  lemma {:induction false} SoundLoop(syms: seq<Symbol>, pos: nat)
    requires At(syms, pos) == Some(Keyword("while"))
    ensures var p := ParseLoop(syms, pos);
      p.Ok? ==> syms[pos..p.value.next] == Tokens(p.value.stmt) && LeftLeaning(p.value.stmt)
    decreases |syms| - pos, 0
  {
    var p := ParseLoop(syms, pos);
    if p.Ok? {
      var b := ParseFrom(syms, pos + 5, None);
      var cv := syms[pos + 1].index;
      assert b.Ok? && p.value == Piece(While(cv, b.value.program), b.value.end + 2);
      SoundFrom(syms, pos + 5, None);
      LoopSplice(syms, pos, b.value.end, cv, Tokens(b.value.program));
    }
  }

  /** The symbols of a loop: its header, its body and the `od`. */
  lemma LoopSplice(syms: seq<Symbol>, pos: nat, e: nat, cv: U64, tb: seq<Symbol>)
    requires pos + 5 <= e + 1 < |syms| && syms[pos + 5..e + 1] == tb
    requires syms[pos] == Keyword("while") && syms[pos + 1] == Variable(cv) && syms[pos + 2] == NotEquals
    requires syms[pos + 3] == Constant(0) && syms[pos + 4] == Keyword("do") && syms[e + 1] == Keyword("od")
    ensures syms[pos..e + 2] == LoopHead(cv) + tb + [Keyword("od")]
  {
    assert syms[pos..pos + 5] == LoopHead(cv);
    assert syms[pos..e + 2] == syms[pos..pos + 5] + syms[pos + 5..e + 1] + [syms[e + 1]];
  }

  /**
   * A successful parse from `start` returns a left-leaning statement,
   * spelled exactly by the symbols from `start` to `end`, which is followed
   * by the end of the symbols or an `od`.
   */
  lemma ParseSound(syms: seq<Symbol>, start: nat)
    ensures var r := Program(syms, start);
      r.Ok? ==> (start <= r.value.end < |syms| && syms[start..r.value.end + 1] == Tokens(r.value.program)
                 && LeftLeaning(r.value.program) && Stops(syms, r.value.end + 1))
  {
    SoundFrom(syms, start, None);
  }

  /*
   * Completeness: the spelling of a left-leaning statement parses back to it.
   */

  /** The statements of `s` hung from the left of `left`, as the loop joins them. */
  function Graft(left: Option<Statement>, s: Statement): Statement {
    match s
    case S(a, b) => S(Graft(left, a), b)
    case _ => Attach(left, s)
  }

  lemma {:induction false} GraftNone(s: Statement)
    requires LeftLeaning(s)
    ensures Graft(None, s) == s
  {
    if s.S? {
      GraftNone(s.first);
    }
  }

  /** Both parts of a concatenation are found where they belong; the second starts at `m`. */
  lemma SpellsConcat(syms: seq<Symbol>, pos: nat, x: seq<Symbol>, y: seq<Symbol>, m: nat)
    requires Spells(syms, pos, x + y) && m == pos + |x|
    ensures Spells(syms, pos, x) && Spells(syms, m, y)
  {
    assert syms[pos..m] == syms[pos..pos + |x + y|][..|x|];
    assert syms[m..m + |y|] == syms[pos..pos + |x + y|][|x|..];
  }

  lemma SpellsAt(syms: seq<Symbol>, pos: nat, t: seq<Symbol>, k: nat)
    requires Spells(syms, pos, t) && k < |t|
    ensures syms[pos + k] == t[k]
  {
    assert syms[pos..pos + |t|][k] == syms[pos + k];
  }

  /** The symbol of a one-symbol spelling. */
  lemma SpellsOne(syms: seq<Symbol>, pos: nat, x: Symbol)
    requires Spells(syms, pos, [x])
    ensures At(syms, pos) == Some(x)
  {
    SpellsAt(syms, pos, [x], 0);
  }

  /** The symbols of `while xi != 0 do` at `pos`. */
  lemma SpellsHead(syms: seq<Symbol>, pos: nat, cv: U64)
    requires Spells(syms, pos, LoopHead(cv))
    ensures At(syms, pos) == Some(Keyword("while")) && At(syms, pos + 1) == Some(Variable(cv))
    ensures At(syms, pos + 2) == Some(NotEquals) && At(syms, pos + 3) == Some(Constant(0))
    ensures At(syms, pos + 4) == Some(Keyword("do"))
  {
    var h := LoopHead(cv);
    SpellsAt(syms, pos, h, 0);
    SpellsAt(syms, pos, h, 1);
    SpellsAt(syms, pos, h, 2);
    SpellsAt(syms, pos, h, 3);
    SpellsAt(syms, pos, h, 4);
  }

  lemma SpellsArith(syms: seq<Symbol>, pos: nat, t: seq<Symbol>)
    requires Spells(syms, pos, t) && |t| == 5
    ensures syms[pos] == t[0] && syms[pos + 1] == t[1] && syms[pos + 2] == t[2] && syms[pos + 3] == t[3] && syms[pos + 4] == t[4]
  {
    SpellsAt(syms, pos, t, 0);
    SpellsAt(syms, pos, t, 1);
    SpellsAt(syms, pos, t, 2);
    SpellsAt(syms, pos, t, 3);
    SpellsAt(syms, pos, t, 4);
  }

  /** The spelling of a sequence: its first statement, the `;` and its second statement. */
  lemma SpellsSequence(syms: seq<Symbol>, pos: nat, a: Statement, b: Statement, m: nat, n: nat)
    requires Spells(syms, pos, Tokens(S(a, b))) && m == pos + |Tokens(a)| && n == pos + |Tokens(S(a, b))|
    ensures Spells(syms, pos, Tokens(a)) && At(syms, m) == Some(EOS) && Spells(syms, m + 1, Tokens(b))
    ensures n == m + 1 + |Tokens(b)|
  {
    var ta, tb := Tokens(a), Tokens(b);
    assert Tokens(S(a, b)) == (ta + [EOS]) + tb;
    SpellsConcat(syms, pos, ta + [EOS], tb, m + 1);
    SpellsConcat(syms, pos, ta, [EOS], m);
    SpellsOne(syms, m, EOS);
  }

  /** The spelling of a loop: its header, its body and the `od` at `e`. */
  lemma SpellsLoop(syms: seq<Symbol>, pos: nat, cv: U64, b: Statement, e: nat, n: nat)
    requires Spells(syms, pos, Tokens(While(cv, b))) && e == pos + 5 + |Tokens(b)| && n == pos + |Tokens(While(cv, b))|
    ensures At(syms, pos) == Some(Keyword("while")) && At(syms, pos + 1) == Some(Variable(cv))
    ensures At(syms, pos + 2) == Some(NotEquals) && At(syms, pos + 3) == Some(Constant(0))
    ensures At(syms, pos + 4) == Some(Keyword("do"))
    ensures Spells(syms, pos + 5, Tokens(b)) && At(syms, e) == Some(Keyword("od")) && n == e + 1
  {
    var h, tb := LoopHead(cv), Tokens(b);
    assert Tokens(While(cv, b)) == (h + tb) + [Keyword("od")];
    SpellsConcat(syms, pos, h + tb, [Keyword("od")], e);
    SpellsConcat(syms, pos, h, tb, pos + 5);
    SpellsHead(syms, pos, cv);
    SpellsOne(syms, e, Keyword("od"));
  }

  /** A statement after a `;` at `m` extends what the parser has read so far. */
  lemma SequenceParsed(syms: seq<Symbol>, pos: nat, left: Option<Statement>, m: nat, g: Statement, b: Statement, n: nat)
    requires 0 < m <= |syms| && ParseFrom(syms, pos, left) == ParseTail(syms, m, g) && At(syms, m) == Some(EOS)
    requires ParseStatement(syms, m + 1) == Ok(Piece(b, n))
    ensures ParseFrom(syms, pos, left) == ParseTail(syms, n, S(g, b))
  {
    TailSemicolon(syms, m, g);
    FromStatement(syms, m + 1, Some(g), b, n);
  }

  /** A loop header, a body that the parser reads up to `e`, and an `od` at `e` make a loop. */
  lemma LoopParsed(syms: seq<Symbol>, pos: nat, cv: U64, b: Statement, e: nat, n: nat)
    requires At(syms, pos) == Some(Keyword("while")) && At(syms, pos + 1) == Some(Variable(cv))
    requires At(syms, pos + 2) == Some(NotEquals) && At(syms, pos + 3) == Some(Constant(0))
    requires At(syms, pos + 4) == Some(Keyword("do"))
    requires 0 < e <= |syms| && ParseFrom(syms, pos + 5, None) == ParseTail(syms, e, b)
    requires At(syms, e) == Some(Keyword("od")) && n == e + 1
    ensures ParseStatement(syms, pos) == Ok(Piece(While(cv, b), n))
  {
    TailStops(syms, e, b);
  }

  /**
   * The spelling of a left-leaning `s` at `pos` is parsed as `s`, hung from
   * the left of `left`, after which the parser goes on at `n`, just past it.
   */
  lemma {:induction false} CompleteFrom(syms: seq<Symbol>, pos: nat, left: Option<Statement>, s: Statement, n: nat)
    requires LeftLeaning(s) && Spells(syms, pos, Tokens(s)) && n == pos + |Tokens(s)|
    ensures 0 < n <= |syms| && ParseFrom(syms, pos, left) == ParseTail(syms, n, Graft(left, s))
    decreases s, 2
  {
    match s
    case S(a, b) =>
      var m := pos + |Tokens(a)|;
      SpellsSequence(syms, pos, a, b, m, n);
      CompleteFrom(syms, pos, left, a, m);
      CompleteStatement(syms, m + 1, b, n);
      SequenceParsed(syms, pos, left, m, Graft(left, a), b, n);
    case _ =>
      CompleteStatement(syms, pos, s, n);
      FromStatement(syms, pos, left, s, n);
  }

  lemma {:induction false} CompleteStatement(syms: seq<Symbol>, pos: nat, s: Statement, n: nat)
    requires !s.S? && LeftLeaning(s) && Spells(syms, pos, Tokens(s)) && n == pos + |Tokens(s)|
    ensures ParseStatement(syms, pos) == Ok(Piece(s, n))
    decreases s, 1
  {
    match s
    case While(cv, b) =>
      CompleteLoop(syms, pos, cv, b, n);
    case DeclareConst(_, _) =>
      SpellsAt(syms, pos, Tokens(s), 0);
      SpellsAt(syms, pos, Tokens(s), 1);
      SpellsAt(syms, pos, Tokens(s), 2);
    case DeclarePlus(_, _, _) =>
      SpellsArith(syms, pos, Tokens(s));
    case DeclareMin(_, _, _) =>
      SpellsArith(syms, pos, Tokens(s));
  }

  lemma {:induction false} CompleteLoop(syms: seq<Symbol>, pos: nat, cv: U64, b: Statement, n: nat)
    requires LeftLeaning(b) && Spells(syms, pos, Tokens(While(cv, b))) && n == pos + |Tokens(While(cv, b))|
    ensures ParseStatement(syms, pos) == Ok(Piece(While(cv, b), n))
    decreases While(cv, b), 0
  {
    var e := pos + 5 + |Tokens(b)|;
    SpellsLoop(syms, pos, cv, b, e, n);
    CompleteFrom(syms, pos + 5, None, b, e);
    GraftNone(b);
    LoopParsed(syms, pos, cv, b, e, n);
  }

  /**
   * The spelling of a left-leaning statement at `start`, followed by the end
   * of the symbols or an `od`, parses back to that statement and stops at
   * its last symbol.
   */
  lemma ParseComplete(syms: seq<Symbol>, start: nat, s: Statement)
    requires LeftLeaning(s) && Spells(syms, start, Tokens(s)) && Stops(syms, start + |Tokens(s)|)
    ensures Program(syms, start) == Ok(Parsed(start + |Tokens(s)| - 1, s))
  {
    var n := start + |Tokens(s)|;
    CompleteFrom(syms, start, None, s, n);
    GraftNone(s);
    TailStops(syms, n, s);
  }

  /** Printing then parsing a left-leaning statement gives it back. */
  lemma RoundTrip(s: Statement)
    requires LeftLeaning(s)
    ensures Program(Tokens(s), 0) == Ok(Parsed(|Tokens(s)| - 1, s))
  {
    assert Tokens(s)[0..|Tokens(s)|] == Tokens(s);
    ParseComplete(Tokens(s), 0, s);
  }

  /** Every symbol of a spelling is one the lexer can produce. */
  lemma {:induction false} TokensLexable(s: Statement)
    ensures forall k :: 0 <= k < |Tokens(s)| ==> SymbolizerProperties.Lexable(Tokens(s)[k])
  {
    match s
    case S(l, r) =>
      TokensLexable(l);
      TokensLexable(r);
      assert Tokens(s) == Tokens(l) + [EOS] + Tokens(r);
    case While(cv, body) =>
      TokensLexable(body);
      assert Tokens(s) == LoopHead(cv) + Tokens(body) + [Keyword("od")];
    case _ =>
  }

  /**
   * A left-leaning statement written out as text, one blank after every
   * symbol, is lexed into its spelling and parsed back into itself.
   */
  lemma TextRoundTrip(s: Statement)
    requires LeftLeaning(s)
    ensures var t := Tokens(s);
      Lex(SymbolizerProperties.Join(t)) == Lexed(t) && Program(t, 0) == Ok(Parsed(|t| - 1, s))
  {
    TokensLexable(s);
    SymbolizerProperties.LexRendering(Tokens(s));
    RoundTrip(s);
  }

  /** Statements separated by `;` fold from the left: `a; b; c` is `S(S(a, b), c)`. */
  lemma LeftFold(a: Statement, b: Statement, c: Statement)
    requires !a.S? && !b.S? && !c.S? && LeftLeaning(a) && LeftLeaning(b) && LeftLeaning(c)
    ensures var t := Tokens(a) + [EOS] + Tokens(b) + [EOS] + Tokens(c);
      Program(t, 0) == Ok(Parsed(|t| - 1, S(S(a, b), c)))
  {
    RoundTrip(S(S(a, b), c));
  }

  /*
   * Errors.
   */

  /** A `;` with no statement before it is an error. */
  lemma LeadingSemicolon(syms: seq<Symbol>, pos: nat)
    requires At(syms, pos) == Some(EOS)
    ensures Program(syms, pos) == Err(ParseError)
  {
    FromError(syms, pos, None);
  }

  /** A `;` at the end of the symbols or before `od` is an error. */
  lemma TrailingSemicolon(syms: seq<Symbol>, start: nat, s: Statement)
    requires LeftLeaning(s) && Spells(syms, start, Tokens(s) + [EOS]) && Stops(syms, start + |Tokens(s)| + 1)
    ensures Program(syms, start) == Err(ParseError)
  {
    var n := start + |Tokens(s)|;
    SpellsConcat(syms, start, Tokens(s), [EOS], n);
    SpellsOne(syms, n, EOS);
    CompleteFrom(syms, start, None, s, n);
    NothingAfterSemicolon(syms, start, n, Graft(None, s));
  }

  lemma NothingAfterSemicolon(syms: seq<Symbol>, pos: nat, n: nat, g: Statement)
    requires 0 < n <= |syms| && ParseFrom(syms, pos, None) == ParseTail(syms, n, g)
    requires At(syms, n) == Some(EOS) && Stops(syms, n + 1)
    ensures ParseFrom(syms, pos, None) == Err(ParseError)
  {
    TailSemicolon(syms, n, g);
    FromError(syms, n + 1, Some(g));
  }

  /** Two statements with no `;` between them are an error, whether the second is an assignment or a loop. */
  lemma MissingSemicolon(syms: seq<Symbol>, start: nat, s: Statement)
    requires LeftLeaning(s) && Spells(syms, start, Tokens(s))
    requires var n := start + |Tokens(s)|; n < |syms| && (syms[n].Variable? || syms[n] == Keyword("while"))
    ensures Program(syms, start) == Err(ParseError)
  {
    var n := start + |Tokens(s)|;
    CompleteFrom(syms, start, None, s, n);
    TailError(syms, n, Graft(None, s));
  }

  /**
   * The three assignment forms are the only ones: after `xi :=` comes a
   * constant, or a variable, `+` or `-`, and a variable. A plain copy
   * `xi := xj`, another operator or a constant right operand are errors.
   */
  lemma AssignmentForms(syms: seq<Symbol>, pos: nat, v0: U64)
    requires At(syms, pos) == Some(Variable(v0))
    ensures ParseStatement(syms, pos).Ok? <==>
      At(syms, pos + 1) == Some(Declare) && pos + 2 < |syms| &&
      (syms[pos + 2].Constant? ||
       (syms[pos + 2].Variable? && pos + 4 < |syms| && syms[pos + 3] in [Plus, Minus] && syms[pos + 4].Variable?))
  {
  }

  /** The condition of a loop must compare with the literal `0`. */
  lemma LoopConditionZero(syms: seq<Symbol>, pos: nat, c: U64)
    requires At(syms, pos) == Some(Keyword("while")) && At(syms, pos + 3) == Some(Constant(c)) && c != 0
    ensures ParseStatement(syms, pos) == Err(ParseError)
  {
  }

  /** A loop's body must not be empty: `while xi != 0 do od` is an error. */
  lemma EmptyLoopBody(syms: seq<Symbol>, pos: nat)
    requires At(syms, pos) == Some(Keyword("while")) && At(syms, pos + 5) == Some(Keyword("od"))
    ensures ParseStatement(syms, pos) == Err(ParseError)
  {
    FromError(syms, pos + 5, None);
  }

  /** A loop whose body runs into the end of the symbols without an `od` is an error. */
  lemma UnclosedLoop(syms: seq<Symbol>, pos: nat, cv: U64, body: Statement)
    requires LeftLeaning(body) && Spells(syms, pos, LoopHead(cv) + Tokens(body))
    requires pos + 5 + |Tokens(body)| == |syms|
    ensures ParseStatement(syms, pos) == Err(ParseError)
  {
    SpellsConcat(syms, pos, LoopHead(cv), Tokens(body), pos + 5);
    SpellsHead(syms, pos, cv);
    CompleteFrom(syms, pos + 5, None, body, |syms|);
    TailStops(syms, |syms|, Graft(None, body));
  }
}
