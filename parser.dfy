/**
 * The parser: a program is one or more statements separated by `;`, each an
 * assignment or a `while` loop whose body is again a program. Consecutive
 * statements are joined from the left with `S`. Parsing stops, without
 * consuming it, at the end of the symbols or at an `od`.
 */
module Parser {
  import opened Prelude
  import opened Symbolizer

  /** A program: a sequence, the three assignment forms, and the loop. */
  datatype Statement =
    | S(first: Statement, second: Statement)
    | DeclarePlus(target: U64, left: U64, right: U64)
    | DeclareMin(target: U64, left: U64, right: U64)
    | DeclareConst(target: U64, value: U64)
    | While(cv: U64, body: Statement)

  /** The parser's error messages, collapsed into one. */
  datatype ParseError = ParseError

  /** A parsed program and the index of its last symbol. */
  datatype Parsed = Parsed(end: nat, program: Statement)

  type ParseResult = Result<Parsed, ParseError>

  /** One statement and the index of the symbol after it. */
  datatype Piece = Piece(stmt: Statement, next: nat)

  /** The symbol at index `i`, if there is one (Rust's `symbols.get(i)`). */
  function At(syms: seq<Symbol>, i: nat): Option<Symbol> {
    if i < |syms| then Some(syms[i]) else None
  }

  /** Where a program may stop: at the end of the symbols or before an `od`. */
  predicate Stops(syms: seq<Symbol>, i: nat) {
    i == |syms| || At(syms, i) == Some(Keyword("od"))
  }

  /** `s` joined to the statement that precedes it, if there is one. */
  function Attach(left: Option<Statement>, s: Statement): Statement {
    if left.Some? then S(left.value, s) else s
  }

  /** `xi := c`, `xi := xj + xk` or `xi := xj - xk` starting at `pos`, where `syms[pos]` is `xi`. */
  function ParseAssignment(syms: seq<Symbol>, pos: nat, v0: U64): (r: Result<Piece, ParseError>)
    ensures r.Ok? ==> r.value.next == pos + 3 || r.value.next == pos + 5
    ensures r.Ok? ==> r.value.next <= |syms| && !r.value.stmt.S? && !r.value.stmt.While? && r.value.stmt.target == v0
  {
    if At(syms, pos + 1) != Some(Declare) then Err(ParseError)
    else match At(syms, pos + 2)
      case Some(Constant(c)) => Ok(Piece(DeclareConst(v0, c), pos + 3))
      case Some(Variable(v1)) =>
        (match (At(syms, pos + 3), At(syms, pos + 4))
         case (Some(Plus), Some(Variable(v2))) => Ok(Piece(DeclarePlus(v0, v1, v2), pos + 5))
         case (Some(Minus), Some(Variable(v2))) => Ok(Piece(DeclareMin(v0, v1, v2), pos + 5))
         case _ => Err(ParseError))
      case _ => Err(ParseError)
  }

  /**
   * A program starting at `pos` (or an error), joined to `left`, the
   * statement before the `;` that precedes it, if any.
   */
  function ParseFrom(syms: seq<Symbol>, pos: nat, left: Option<Statement>): (r: ParseResult)
    ensures r.Ok? ==> pos <= r.value.end < |syms| && Stops(syms, r.value.end + 1)
    ensures r.Ok? ==> syms[pos].Variable? || syms[pos] == Keyword("while")
    decreases |syms| - pos, 2
  {
    match ParseStatement(syms, pos)
    case Ok(Piece(st, next)) => ParseTail(syms, next, Attach(left, st))
    case Err(_) => Err(ParseError)
  }

  /** The rest of a program after the statements `acc`, from `pos`: a `;` and more, or its end. */
  function ParseTail(syms: seq<Symbol>, pos: nat, acc: Statement): (r: ParseResult)
    requires 0 < pos <= |syms|
    ensures r.Ok? ==> pos - 1 <= r.value.end < |syms| && Stops(syms, r.value.end + 1)
    decreases |syms| - pos, 3
  {
    match At(syms, pos)
    case None => Ok(Parsed(pos - 1, acc))
    case Some(t) =>
      if t == EOS then ParseFrom(syms, pos + 1, Some(acc))
      else if t == Keyword("od") then Ok(Parsed(pos - 1, acc))
      else Err(ParseError)
  }

  /** One statement starting at `pos`: an assignment or a loop. */
  function ParseStatement(syms: seq<Symbol>, pos: nat): (r: Result<Piece, ParseError>)
    ensures r.Ok? ==> pos < r.value.next <= |syms| && !r.value.stmt.S?
    ensures r.Ok? ==> syms[pos].Variable? || syms[pos] == Keyword("while")
    decreases |syms| - pos, 1
  {
    match At(syms, pos)
    case Some(Variable(v0)) => ParseAssignment(syms, pos, v0)
    case Some(Keyword(kw)) => if kw == "while" then ParseLoop(syms, pos) else Err(ParseError)
    case _ => Err(ParseError)
  }

  /** `while xi != 0 do P od` starting at `pos`, where `syms[pos]` is `while`. */
  function ParseLoop(syms: seq<Symbol>, pos: nat): (r: Result<Piece, ParseError>)
    ensures r.Ok? ==> pos + 6 < r.value.next <= |syms| && r.value.stmt.While?
    decreases |syms| - pos, 0
  {
    var cv := At(syms, pos + 1);
    if cv.None? || !cv.value.Variable? || At(syms, pos + 2) != Some(NotEquals)
       || At(syms, pos + 3) != Some(Constant(0)) || At(syms, pos + 4) != Some(Keyword("do"))
    then Err(ParseError)
    else match ParseFrom(syms, pos + 5, None)
      case Ok(Parsed(end, body)) =>
        if At(syms, end + 1) == Some(Keyword("od")) then Ok(Piece(While(cv.value.index, body), end + 2))
        else Err(ParseError)
      case Err(_) => Err(ParseError)
  }

  /** What `parse(symbols, start)` returns. */
  function Program(syms: seq<Symbol>, start: nat): (r: ParseResult)
    ensures r.Ok? ==> start <= r.value.end < |syms| && Stops(syms, r.value.end + 1)
  {
    ParseFrom(syms, start, None)
  }

  /**
   * What the parser's loop returns from a state at its head: reading at
   * `index`, with the statement before the last `;` in `left` and the
   * statement being built in `statement`.
   */
  ghost function Resume(syms: seq<Symbol>, index: nat, left: Option<Statement>, statement: Option<Statement>): ParseResult
    requires statement.Some? ==> 0 < index <= |syms|
  {
    match statement
    case None => ParseFrom(syms, index, left)
    case Some(s) => ParseTail(syms, index, Attach(left, s))
  }

  lemma TailSemicolon(syms: seq<Symbol>, pos: nat, acc: Statement)
    requires 0 < pos <= |syms| && At(syms, pos) == Some(EOS)
    ensures ParseTail(syms, pos, acc) == ParseFrom(syms, pos + 1, Some(acc))
  {
  }

  lemma TailStops(syms: seq<Symbol>, pos: nat, acc: Statement)
    requires 0 < pos <= |syms| && Stops(syms, pos)
    ensures ParseTail(syms, pos, acc) == Ok(Parsed(pos - 1, acc))
  {
  }

  lemma TailError(syms: seq<Symbol>, pos: nat, acc: Statement)
    requires 0 < pos <= |syms| && At(syms, pos) != Some(EOS) && !Stops(syms, pos)
    ensures ParseTail(syms, pos, acc) == Err(ParseError)
  {
  }

  lemma FromStatement(syms: seq<Symbol>, pos: nat, left: Option<Statement>, st: Statement, next: nat)
    requires ParseStatement(syms, pos) == Ok(Piece(st, next))
    ensures ParseFrom(syms, pos, left) == ParseTail(syms, next, Attach(left, st))
  {
  }

  lemma FromError(syms: seq<Symbol>, pos: nat, left: Option<Statement>)
    requires ParseStatement(syms, pos).Err?
    ensures ParseFrom(syms, pos, left) == Err(ParseError)
  {
  }

  /** The `xi := ...` arm of the parser's loop, from the variable at `index`. */
  method ReadAssignment(symbols: seq<Symbol>, index: nat, v0: U64) returns (r: Result<Piece, ParseError>)
    ensures r == ParseAssignment(symbols, index, v0)
  {
    if At(symbols, index + 1) != Some(Declare) {
      return Err(ParseError);
    }
    var third := At(symbols, index + 2);
    match third {
      case Some(Constant(c)) =>
        return Ok(Piece(DeclareConst(v0, c), index + 3));
      case Some(Variable(v1)) =>
        var operation, right := At(symbols, index + 3), At(symbols, index + 4);
        if operation != Some(Plus) && operation != Some(Minus) {
          return Err(ParseError);
        }
        match right {
          case Some(Variable(v2)) =>
            var st := if operation == Some(Plus) then DeclarePlus(v0, v1, v2) else DeclareMin(v0, v1, v2);
            return Ok(Piece(st, index + 5));
          case _ =>
            return Err(ParseError);
        }
      case _ =>
        return Err(ParseError);
    }
  }

  /** The `while xi != 0 do P od` arm of the parser's loop, from the `while` at `index`. */
  method ReadLoop(symbols: seq<Symbol>, index: nat) returns (r: Result<Piece, ParseError>)
    ensures r == ParseLoop(symbols, index)
    decreases |symbols| - index, 0
  {
    var cv := At(symbols, index + 1);
    if cv.None? || !cv.value.Variable? || At(symbols, index + 2) != Some(NotEquals)
       || At(symbols, index + 3) != Some(Constant(0)) || At(symbols, index + 4) != Some(Keyword("do")) {
      return Err(ParseError);
    }
    var p1 := Parse(symbols, index + 5);
    if p1.Err? {
      return Err(ParseError);
    }
    if At(symbols, p1.value.end + 1) != Some(Keyword("od")) {
      return Err(ParseError);
    }
    return Ok(Piece(While(cv.value.index, p1.value.program), p1.value.end + 2));
  }

  /**
   * The parser: one loop over the symbols with a mutable index, the
   * statement being built and the one before the last `;`; a loop body is
   * parsed by a recursive call.
   */
  method Parse(symbols: seq<Symbol>, start: nat) returns (r: ParseResult)
    ensures r == Program(symbols, start)
    decreases |symbols| - start, 1
  {
    var left: Option<Statement> := None;
    var statement: Option<Statement> := None;
    var index := start;
    while true
      invariant start <= index && (statement.Some? ==> 0 < index <= |symbols|)
      invariant Resume(symbols, index, left, statement) == Program(symbols, start)
      decreases |symbols| - index
    {
      if left.Some? && statement.Some? {
        left, statement := None, Some(S(left.value, statement.value));
      }
      var first := At(symbols, index);
      var piece: Result<Piece, ParseError>;
      match first {
        case Some(EOS) =>
          if statement.None? {
            FromError(symbols, index, left);
            return Err(ParseError);
          }
          left, statement := statement, None;
          index := index + 1;
          continue;
        case None =>
          if statement.None? {
            FromError(symbols, index, left);
            return Err(ParseError);
          }
          return Ok(Parsed(index - 1, statement.value));
        case Some(Variable(v0)) =>
          if statement.Some? {
            return Err(ParseError);
          }
          piece := ReadAssignment(symbols, index, v0);
        case Some(Keyword(kw)) =>
          if kw == "od" {
            if statement.None? {
              FromError(symbols, index, left);
              return Err(ParseError);
            }
            return Ok(Parsed(index - 1, statement.value));
          }
          if kw != "while" || statement.Some? {
            if statement.None? {
              FromError(symbols, index, left);
            }
            return Err(ParseError);
          }
          piece := ReadLoop(symbols, index);
        case _ =>
          if statement.None? {
            FromError(symbols, index, left);
          }
          return Err(ParseError);
      }
      if piece.Err? {
        FromError(symbols, index, left);
        return Err(ParseError);
      }
      FromStatement(symbols, index, left, piece.value.stmt, piece.value.next);
      statement, index := Some(piece.value.stmt), piece.value.next;
    }
  }
}
