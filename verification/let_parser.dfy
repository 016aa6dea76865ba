/**
  The `let` statement parser of the Zinc compiler: an explicit eight-state
  machine recognising `let [mut] ident [: Type] = Expr ;`.

  The token stream is the lexer's output still to be read. The type and
  expression parsers are parameters: each reads a prefix of the stream and
  returns its node, the lookahead token it read but did not use, and the
  stream after it. The parser is generic in the node types they build.
 */
module LetParser {
  import opened Wrappers

  // -------------------------------------------------------------------------
  // Lexical layer
  // -------------------------------------------------------------------------

  datatype Location = Location(line: nat, column: nat)

  datatype Keyword = Let | Mut | IntegerUnsigned(bitlength: nat) | OtherKeyword(name: string)

  datatype Symbol = Colon | Equals | Semicolon | OtherSymbol(text: string)

  datatype Lexeme =
    | KeywordToken(keyword: Keyword)
    | IdentifierToken(name: string)
    | SymbolToken(symbol: Symbol)
    | IntegerLiteral(text: string)
    | Eof

  datatype Token = Token(lexeme: Lexeme, location: Location)

  /** The compiler's error: a lexical error from the stream, or a syntax error. */
  datatype Error =
    | Lexical(message: string)
    | Syntax(syntax: SyntaxError)

  datatype SyntaxError =
    | ExpectedOneOf(location: Location, expected: seq<string>, found: Lexeme, hint: Option<string>)
    | ExpectedOneOfOrOperator(location: Location, expected: seq<string>, found: Lexeme, hint: Option<string>)
    | ExpectedMutOrIdentifier(location: Location, found: Lexeme, hint: Option<string>)
    | ExpectedIdentifier(location: Location, found: Lexeme, hint: Option<string>)
    | ExpectedTypeOrValue(location: Location, found: Lexeme, hint: Option<string>)
    | ExpectedValue(location: Location, found: Lexeme, hint: Option<string>)

  const HintExpectedIdentifier: string := "variable must have an identifier, e.g. `let value: u8 = 42;`"
  const HintExpectedValue: string := "variable must be initialized, e.g. `let value: u8 = 42;`"

  /** What the lexer has still to deliver: each item a token or a lexical
      error. Once the items are used up the stream yields `Eof` at `end`,
      again and again. */
  datatype TokenStream = TokenStream(items: seq<Result<Token, Error>>, end: Location)

  /** One token read from the stream, and the stream after it. */
  function Next(s: TokenStream): Result<(Token, TokenStream), Error> {
    if |s.items| == 0 then Ok((Token(Eof, s.end), s))
    else match s.items[0]
      case Ok(t) => Ok((t, s.(items := s.items[1..])))
      case Err(e) => Err(e)
  }

  /** `take_or_next`: a token held back earlier is used first; otherwise the
      stream is read. */
  function TakeOrNext(held: Option<Token>, s: TokenStream): Result<(Token, TokenStream), Error> {
    match held
    case Some(t) => Ok((t, s))
    case None => Next(s)
  }

  /** A sub-parser: the node it built, its unused lookahead token, the rest of the stream. */
  type SubParser<!N> = TokenStream -> Result<(N, Option<Token>, TokenStream), Error>

  // -------------------------------------------------------------------------
  // Syntax tree and builder
  // -------------------------------------------------------------------------

  datatype Identifier = Identifier(location: Location, name: string)

  datatype LetStatement<T, X> = LetStatement(
    location: Location,
    identifier: Identifier,
    isMutable: bool,
    declaredType: Option<T>,
    expression: X)

  /** The statement builder: a record filled in as the machine advances. */
  datatype Builder<T, X> = Builder(
    location: Option<Location>,
    identifier: Option<Identifier>,
    isMutable: bool,
    declaredType: Option<T>,
    expression: Option<X>)

  function EmptyBuilder<T, X>(): Builder<T, X> {
    Builder(None, None, false, None, None)
  }

  predicate Complete<T, X>(b: Builder<T, X>) {
    b.location.Some? && b.identifier.Some? && b.expression.Some?
  }

  function Finish<T, X>(b: Builder<T, X>): (s: LetStatement<T, X>)
    requires Complete(b)
    ensures s.location == b.location.value && s.identifier == b.identifier.value
    ensures s.isMutable == b.isMutable && s.declaredType == b.declaredType && s.expression == b.expression.value
  {
    LetStatement(b.location.value, b.identifier.value, b.isMutable, b.declaredType, b.expression.value)
  }

  // -------------------------------------------------------------------------
  // The state machine
  // -------------------------------------------------------------------------

  datatype State = KeywordLet | MutOrIdentifier | Identifier | ColonOrEquals | Type | Equals | Expression | Semicolon

  /** Position of a state in the order the machine passes through them. */
  function Rank(s: State): nat {
    match s
    case KeywordLet => 0
    case MutOrIdentifier => 1
    case Identifier => 2
    case ColonOrEquals => 3
    case Type => 4
    case Equals => 5
    case Expression => 6
    case Semicolon => 7
  }

  /** The machine between two iterations of its loop: `initial` is the
      caller's held-back token, `next` the lookahead a sub-parser returned. */
  datatype Parser<T, X> = Parser(
    state: State,
    builder: Builder<T, X>,
    next: Option<Token>,
    initial: Option<Token>,
    stream: TokenStream)

  /** What a successful parse returns, with the stream it leaves behind. */
  datatype Parsed<T, X> = Parsed(statement: LetStatement<T, X>, next: Option<Token>, rest: TokenStream)

  datatype Transition<T, X> = Continue(parser: Parser<T, X>) | Done(result: Result<Parsed<T, X>, Error>)

  /** The builder holds what every state from `state` on relies on. */
  predicate Filled<T, X>(p: Parser<T, X>) {
    && (Rank(p.state) >= Rank(State.MutOrIdentifier) ==> p.builder.location.Some?)
    && (Rank(p.state) >= Rank(State.ColonOrEquals) ==> p.builder.identifier.Some?)
    && (p.state == State.Semicolon ==> p.builder.expression.Some?)
  }

  function Initial<T, X>(initial: Option<Token>, stream: TokenStream): (p: Parser<T, X>)
    ensures p.state == State.KeywordLet && Filled(p)
  {
    Parser(State.KeywordLet, EmptyBuilder(), None, initial, stream)
  }

  /** One iteration of the loop: the machine either moves to a later state
      or stops with the statement or an error. */
  function Step<T, X>(p: Parser<T, X>, parseType: SubParser<T>, parseExpression: SubParser<X>): (r: Transition<T, X>)
    requires Filled(p)
    ensures r.Continue? ==> Rank(r.parser.state) > Rank(p.state) && Filled(r.parser)
    ensures r.Continue? && r.parser.builder.isMutable != p.builder.isMutable ==>
              p.state == State.MutOrIdentifier && r.parser.state == State.Identifier && r.parser.builder.isMutable
    ensures r.Continue? && r.parser.builder.declaredType != p.builder.declaredType ==>
              p.state == State.Type && r.parser.builder.declaredType.Some?
  {
    match p.state
    case KeywordLet =>
      (match TakeOrNext(p.initial, p.stream)
       case Err(e) => Done(Err(e))
       case Ok((t, s)) =>
         if t.lexeme == KeywordToken(Let) then
           Continue(p.(state := State.MutOrIdentifier, builder := p.builder.(location := Some(t.location)),
                       initial := None, stream := s))
         else Done(Err(Syntax(ExpectedOneOf(t.location, ["let"], t.lexeme, None)))))
    case MutOrIdentifier =>
      (match TakeOrNext(p.next, p.stream)
       case Err(e) => Done(Err(e))
       case Ok((t, s)) =>
         match t.lexeme
         case KeywordToken(Mut) =>
           Continue(p.(state := State.Identifier, builder := p.builder.(isMutable := true), next := None, stream := s))
         case IdentifierToken(name) =>
           Continue(p.(state := State.ColonOrEquals, builder := p.builder.(identifier := Some(Identifier.Identifier(t.location, name))),
                       next := None, stream := s))
         case _ => Done(Err(Syntax(ExpectedMutOrIdentifier(t.location, t.lexeme, Some(HintExpectedIdentifier))))))
    case Identifier =>
      (match TakeOrNext(p.next, p.stream)
       case Err(e) => Done(Err(e))
       case Ok((t, s)) =>
         match t.lexeme
         case IdentifierToken(name) =>
           Continue(p.(state := State.ColonOrEquals, builder := p.builder.(identifier := Some(Identifier.Identifier(t.location, name))),
                       next := None, stream := s))
         case _ => Done(Err(Syntax(ExpectedIdentifier(t.location, t.lexeme, Some(HintExpectedIdentifier))))))
    case ColonOrEquals =>
      (match TakeOrNext(p.next, p.stream)
       case Err(e) => Done(Err(e))
       case Ok((t, s)) =>
         if t.lexeme == SymbolToken(Colon) then Continue(p.(state := State.Type, next := None, stream := s))
         else if t.lexeme == SymbolToken(Symbol.Equals) then Continue(p.(state := State.Expression, next := None, stream := s))
         else Done(Err(Syntax(ExpectedTypeOrValue(t.location, t.lexeme, Some(HintExpectedValue))))))
    case Type =>
      (match parseType(p.stream)
       case Err(e) => Done(Err(e))
       case Ok((ty, next, s)) =>
         Continue(p.(state := State.Equals, builder := p.builder.(declaredType := Some(ty)), next := next, stream := s)))
    case Equals =>
      (match TakeOrNext(p.next, p.stream)
       case Err(e) => Done(Err(e))
       case Ok((t, s)) =>
         if t.lexeme == SymbolToken(Symbol.Equals) then Continue(p.(state := State.Expression, next := None, stream := s))
         else Done(Err(Syntax(ExpectedValue(t.location, t.lexeme, Some(HintExpectedValue))))))
    case Expression =>
      (match parseExpression(p.stream)
       case Err(e) => Done(Err(e))
       case Ok((x, next, s)) =>
         Continue(p.(state := State.Semicolon, builder := p.builder.(expression := Some(x)), next := next, stream := s)))
    case Semicolon =>
      (match TakeOrNext(p.next, p.stream)
       case Err(e) => Done(Err(e))
       case Ok((t, s)) =>
         if t.lexeme == SymbolToken(Symbol.Semicolon) then Done(Ok(Parsed(Finish(p.builder), None, s)))
         else Done(Err(Syntax(ExpectedOneOfOrOperator(t.location, [";"], t.lexeme, None)))))
  }

  /** Strictly increasing in rank: no state is visited twice. */
  predicate Ascending(states: seq<State>) {
    forall i, j :: 0 <= i < j < |states| ==> Rank(states[i]) < Rank(states[j])
  }

  datatype Outcome<T, X> = Outcome(result: Result<Parsed<T, X>, Error>, visited: seq<State>)

  /** The loop: iterate until a step stops. `visited` lists the states the
      loop ran, in order; it never repeats one, so there are at most eight
      iterations. */
  function Run<T, X>(p: Parser<T, X>, parseType: SubParser<T>, parseExpression: SubParser<X>): (o: Outcome<T, X>)
    requires Filled(p)
    ensures 1 <= |o.visited| <= 8 - Rank(p.state)
    ensures o.visited[0] == p.state
    ensures Ascending(o.visited)
    ensures o.result.Ok? ==> o.visited[|o.visited| - 1] == State.Semicolon
    decreases 8 - Rank(p.state)
  {
    match Step(p, parseType, parseExpression)
    case Done(result) => Outcome(result, [p.state])
    case Continue(q) =>
      var o := Run(q, parseType, parseExpression);
      Outcome(o.result, [p.state] + o.visited)
  }

  /** `Parser::default().parse(stream, initial)`. */
  function Parse<T, X>(initial: Option<Token>, stream: TokenStream,
                       parseType: SubParser<T>, parseExpression: SubParser<X>): Result<Parsed<T, X>, Error>
  {
    Run(Initial(initial, stream), parseType, parseExpression).result
  }
}
