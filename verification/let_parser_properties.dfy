/**
  The `let` state machine against the production it recognises, and the
  behaviour that follows: which tokens set which field, which error each
  position reports, and the worked inputs of the parser's own tests.
 */
module LetParserProperties {
  import opened Wrappers
  import opened LetParser

  // -------------------------------------------------------------------------
  // The production, read left to right
  // -------------------------------------------------------------------------

  /** `[mut] ident`: whether `mut` was written, the identifier, and the rest. */
  function Binding(s: TokenStream): Result<(bool, LetParser.Identifier, TokenStream), Error> {
    var t :- Next(s);
    match t.0.lexeme
    case KeywordToken(Mut) =>
      var u :- Next(t.1);
      (match u.0.lexeme
       case IdentifierToken(name) => Ok((true, Identifier.Identifier(u.0.location, name), u.1))
       case _ => Err(Syntax(ExpectedIdentifier(u.0.location, u.0.lexeme, Some(HintExpectedIdentifier)))))
    case IdentifierToken(name) => Ok((false, Identifier.Identifier(t.0.location, name), t.1))
    case _ => Err(Syntax(ExpectedMutOrIdentifier(t.0.location, t.0.lexeme, Some(HintExpectedIdentifier))))
  }

  /** `[: Type] =`: the declared type if one was written, and the rest after `=`. */
  function Declaration<T>(s: TokenStream, parseType: SubParser<T>): Result<(Option<T>, TokenStream), Error> {
    var t :- Next(s);
    if t.0.lexeme == SymbolToken(Colon) then
      var ty :- parseType(t.1);
      var eq :- TakeOrNext(ty.1, ty.2);
      if eq.0.lexeme == SymbolToken(Symbol.Equals) then Ok((Some(ty.0), eq.1))
      else Err(Syntax(ExpectedValue(eq.0.location, eq.0.lexeme, Some(HintExpectedValue))))
    else if t.0.lexeme == SymbolToken(Symbol.Equals) then Ok((None, t.1))
    else Err(Syntax(ExpectedTypeOrValue(t.0.location, t.0.lexeme, Some(HintExpectedValue))))
  }

  /** `Expr ;`: the expression, then the semicolon, possibly the expression's lookahead. */
  function Terminated<X>(s: TokenStream, parseExpression: SubParser<X>): Result<(X, TokenStream), Error> {
    var value :- parseExpression(s);
    var last :- TakeOrNext(value.1, value.2);
    if last.0.lexeme == SymbolToken(Symbol.Semicolon) then Ok((value.0, last.1))
    else Err(Syntax(ExpectedOneOfOrOperator(last.0.location, [";"], last.0.lexeme, None)))
  }

  /** `let [mut] ident [: Type] = Expr ;` */
  function Grammar<T, X>(initial: Option<Token>, stream: TokenStream,
                         parseType: SubParser<T>, parseExpression: SubParser<X>): Result<Parsed<T, X>, Error>
  {
    var first :- TakeOrNext(initial, stream);
    if first.0.lexeme != KeywordToken(Let) then
      Err(Syntax(ExpectedOneOf(first.0.location, ["let"], first.0.lexeme, None)))
    else
      var binding :- Binding(first.1);
      var declared :- Declaration(binding.2, parseType);
      var value :- Terminated(declared.1, parseExpression);
      Ok(Parsed(LetStatement(first.0.location, binding.1, binding.0, declared.0, value.0), None, value.1))
  }

  // -------------------------------------------------------------------------
  // The machine runs the production, stage by stage
  // -------------------------------------------------------------------------

  lemma {:induction false} FromExpression<T, X>(p: Parser<T, X>, parseType: SubParser<T>, parseExpression: SubParser<X>)
    requires p.state == State.Expression && Filled(p)
    ensures Run(p, parseType, parseExpression).result ==
            (match Terminated(p.stream, parseExpression)
             case Err(e) => Err(e)
             case Ok((x, rest)) => Ok(Parsed(Finish(p.builder.(expression := Some(x))), None, rest)))
  {
    match parseExpression(p.stream)
    case Err(e) =>
    case Ok((x, next, s)) =>
      var q := p.(state := State.Semicolon, builder := p.builder.(expression := Some(x)), next := next, stream := s);
      assert Step(p, parseType, parseExpression) == Continue(q);
      assert Run(p, parseType, parseExpression).result == Run(q, parseType, parseExpression).result;
  }

  lemma {:induction false} FromColonOrEquals<T, X>(p: Parser<T, X>, parseType: SubParser<T>, parseExpression: SubParser<X>)
    requires p.state == State.ColonOrEquals && p.next.None? && Filled(p) && p.builder.declaredType.None?
    ensures Run(p, parseType, parseExpression).result ==
            (match Declaration(p.stream, parseType)
             case Err(e) => Err(e)
             case Ok((ty, s)) =>
               match Terminated(s, parseExpression)
               case Err(e) => Err(e)
               case Ok((x, rest)) =>
                 Ok(Parsed(Finish(p.builder.(declaredType := ty, expression := Some(x))), None, rest)))
  {
    match Next(p.stream)
    case Err(e) =>
    case Ok((t, s)) =>
      if t.lexeme == SymbolToken(Colon) {
        var q := p.(state := State.Type, next := None, stream := s);
        assert Step(p, parseType, parseExpression) == Continue(q);
        assert Run(p, parseType, parseExpression).result == Run(q, parseType, parseExpression).result;
        match parseType(s) {
        case Err(e) =>
        case Ok((ty, next, s')) =>
          var q' := q.(state := State.Equals, builder := q.builder.(declaredType := Some(ty)), next := next, stream := s');
          assert Step(q, parseType, parseExpression) == Continue(q');
          assert Run(q, parseType, parseExpression).result == Run(q', parseType, parseExpression).result;
          match TakeOrNext(next, s')
          case Err(e) =>
          case Ok((eq, s'')) =>
            if eq.lexeme == SymbolToken(Symbol.Equals) {
              var q'' := q'.(state := State.Expression, next := None, stream := s'');
              assert Step(q', parseType, parseExpression) == Continue(q'');
              assert Run(q', parseType, parseExpression).result == Run(q'', parseType, parseExpression).result;
              FromExpression(q'', parseType, parseExpression);
            }
        }
      } else if t.lexeme == SymbolToken(Symbol.Equals) {
        var q := p.(state := State.Expression, next := None, stream := s);
        assert Step(p, parseType, parseExpression) == Continue(q);
        assert Run(p, parseType, parseExpression).result == Run(q, parseType, parseExpression).result;
        FromExpression(q, parseType, parseExpression);
      }
  }

  lemma {:induction false} FromIdentifier<T, X>(p: Parser<T, X>, parseType: SubParser<T>, parseExpression: SubParser<X>)
    requires p.state == State.Identifier && p.next.None? && Filled(p)
    requires p.builder == Builder(p.builder.location, None, true, None, None)
    ensures Run(p, parseType, parseExpression).result ==
            (match Next(p.stream)
             case Err(e) => Err(e)
             case Ok((u, s)) =>
               match u.lexeme
               case IdentifierToken(name) =>
                 (match Declaration(s, parseType)
                  case Err(e) => Err(e)
                  case Ok((ty, s')) =>
                    match Terminated(s', parseExpression)
                    case Err(e) => Err(e)
                    case Ok((x, rest)) =>
                      Ok(Parsed(LetStatement(p.builder.location.value, Identifier.Identifier(u.location, name), true, ty, x), None, rest)))
               case _ => Err(Syntax(ExpectedIdentifier(u.location, u.lexeme, Some(HintExpectedIdentifier)))))
  {
    match Next(p.stream)
    case Err(e) =>
    case Ok((u, s)) =>
      match u.lexeme
      case IdentifierToken(name) =>
        var q := p.(state := State.ColonOrEquals, builder := p.builder.(identifier := Some(Identifier.Identifier(u.location, name))),
                    next := None, stream := s);
        assert Step(p, parseType, parseExpression) == Continue(q);
        assert Run(p, parseType, parseExpression).result == Run(q, parseType, parseExpression).result;
        FromColonOrEquals(q, parseType, parseExpression);
      case _ =>
  }

  lemma {:induction false} FromMutOrIdentifier<T, X>(p: Parser<T, X>, parseType: SubParser<T>, parseExpression: SubParser<X>)
    requires p.state == State.MutOrIdentifier && p.next.None? && Filled(p)
    requires p.builder == Builder(p.builder.location, None, false, None, None)
    ensures Run(p, parseType, parseExpression).result ==
            (match Binding(p.stream)
             case Err(e) => Err(e)
             case Ok((isMutable, identifier, s)) =>
               match Declaration(s, parseType)
               case Err(e) => Err(e)
               case Ok((ty, s')) =>
                 match Terminated(s', parseExpression)
                 case Err(e) => Err(e)
                 case Ok((x, rest)) =>
                   Ok(Parsed(LetStatement(p.builder.location.value, identifier, isMutable, ty, x), None, rest)))
  {
    match Next(p.stream)
    case Err(e) =>
    case Ok((t, s)) =>
      match t.lexeme
      case KeywordToken(Mut) =>
        var q := p.(state := State.Identifier, builder := p.builder.(isMutable := true), next := None, stream := s);
        assert Step(p, parseType, parseExpression) == Continue(q);
        assert Run(p, parseType, parseExpression).result == Run(q, parseType, parseExpression).result;
        FromIdentifier(q, parseType, parseExpression);
      case IdentifierToken(name) =>
        var q := p.(state := State.ColonOrEquals, builder := p.builder.(identifier := Some(Identifier.Identifier(t.location, name))),
                    next := None, stream := s);
        assert Step(p, parseType, parseExpression) == Continue(q);
        assert Run(p, parseType, parseExpression).result == Run(q, parseType, parseExpression).result;
        FromColonOrEquals(q, parseType, parseExpression);
      case _ =>
  }

  /** The state machine and the production agree on every input: the same
      statement with the same leftover stream, or the same error. */
  lemma {:induction false} ParseIsGrammar<T, X>(initial: Option<Token>, stream: TokenStream,
                                                parseType: SubParser<T>, parseExpression: SubParser<X>)
    ensures Parse(initial, stream, parseType, parseExpression) == Grammar(initial, stream, parseType, parseExpression)
  {
    var p := Initial<T, X>(initial, stream);
    match TakeOrNext(initial, stream)
    case Err(e) =>
    case Ok((t, s)) =>
      if t.lexeme == KeywordToken(Let) {
        var q := p.(state := State.MutOrIdentifier, builder := p.builder.(location := Some(t.location)), initial := None, stream := s);
        assert Step(p, parseType, parseExpression) == Continue(q);
        assert Run(p, parseType, parseExpression).result == Run(q, parseType, parseExpression).result;
        FromMutOrIdentifier(q, parseType, parseExpression);
      }
  }

  // -------------------------------------------------------------------------
  // Consequences for every input
  // -------------------------------------------------------------------------

  /** A first token other than `let` is reported at its own location. */
  lemma NotLetFirst<T, X>(initial: Option<Token>, stream: TokenStream, parseType: SubParser<T>, parseExpression: SubParser<X>,
                          first: Token, rest: TokenStream)
    requires TakeOrNext(initial, stream) == Ok((first, rest)) && first.lexeme != KeywordToken(Let)
    ensures Parse(initial, stream, parseType, parseExpression) == Err(Syntax(ExpectedOneOf(first.location, ["let"], first.lexeme, None)))
  {
    ParseIsGrammar(initial, stream, parseType, parseExpression);
  }

  /** After `let`, a token that is neither `mut` nor an identifier is
      reported as such; after `let mut`, a token that is not an identifier. */
  lemma BindingErrors<T, X>(initial: Option<Token>, stream: TokenStream, parseType: SubParser<T>, parseExpression: SubParser<X>,
                            first: Token, rest: TokenStream, second: Token, rest': TokenStream)
    requires TakeOrNext(initial, stream) == Ok((first, rest)) && first.lexeme == KeywordToken(Let)
    requires Next(rest) == Ok((second, rest'))
    ensures !second.lexeme.IdentifierToken? && second.lexeme != KeywordToken(Mut) ==>
              Parse(initial, stream, parseType, parseExpression) ==
              Err(Syntax(ExpectedMutOrIdentifier(second.location, second.lexeme, Some(HintExpectedIdentifier))))
    ensures second.lexeme == KeywordToken(Mut) && Next(rest').Ok? && !Next(rest').value.0.lexeme.IdentifierToken? ==>
              var third := Next(rest').value.0;
              Parse(initial, stream, parseType, parseExpression) ==
              Err(Syntax(ExpectedIdentifier(third.location, third.lexeme, Some(HintExpectedIdentifier))))
  {
    ParseIsGrammar(initial, stream, parseType, parseExpression);
  }

  /** After the identifier, anything but `:` or `=` is reported; after the
      type, anything but `=` (the type parser's lookahead first). */
  lemma DeclarationErrors<T, X>(initial: Option<Token>, stream: TokenStream, parseType: SubParser<T>, parseExpression: SubParser<X>,
                                first: Token, rest: TokenStream, isMutable: bool, identifier: LetParser.Identifier,
                                afterName: TokenStream, t: Token, afterT: TokenStream)
    requires TakeOrNext(initial, stream) == Ok((first, rest)) && first.lexeme == KeywordToken(Let)
    requires Binding(rest) == Ok((isMutable, identifier, afterName))
    requires Next(afterName) == Ok((t, afterT))
    ensures t.lexeme != SymbolToken(Colon) && t.lexeme != SymbolToken(Symbol.Equals) ==>
              Parse(initial, stream, parseType, parseExpression) ==
              Err(Syntax(ExpectedTypeOrValue(t.location, t.lexeme, Some(HintExpectedValue))))
    ensures t.lexeme == SymbolToken(Colon) && parseType(afterT).Ok? ==>
              var (ty, next, afterType) := parseType(afterT).value;
              TakeOrNext(next, afterType).Ok? && TakeOrNext(next, afterType).value.0.lexeme != SymbolToken(Symbol.Equals) ==>
              var u := TakeOrNext(next, afterType).value.0;
              Parse(initial, stream, parseType, parseExpression) ==
              Err(Syntax(ExpectedValue(u.location, u.lexeme, Some(HintExpectedValue))))
  {
    ParseIsGrammar(initial, stream, parseType, parseExpression);
  }

  /** A token other than `;` after the expression (its lookahead first) is
      reported at that token's location, end of input included. */
  lemma MissingSemicolon<T, X>(initial: Option<Token>, stream: TokenStream, parseType: SubParser<T>, parseExpression: SubParser<X>,
                               first: Token, rest: TokenStream, isMutable: bool, identifier: LetParser.Identifier,
                               afterName: TokenStream, declaredType: Option<T>, afterEquals: TokenStream,
                               x: X, next: Option<Token>, afterExpression: TokenStream, u: Token, afterU: TokenStream)
    requires TakeOrNext(initial, stream) == Ok((first, rest)) && first.lexeme == KeywordToken(Let)
    requires Binding(rest) == Ok((isMutable, identifier, afterName))
    requires Declaration(afterName, parseType) == Ok((declaredType, afterEquals))
    requires parseExpression(afterEquals) == Ok((x, next, afterExpression))
    requires TakeOrNext(next, afterExpression) == Ok((u, afterU)) && u.lexeme != SymbolToken(Symbol.Semicolon)
    ensures Parse(initial, stream, parseType, parseExpression) ==
            Err(Syntax(ExpectedOneOfOrOperator(u.location, [";"], u.lexeme, None)))
  {
    ParseIsGrammar(initial, stream, parseType, parseExpression);
  }

  /** On success: no lookahead is handed back; the statement is mutable
      exactly when `mut` follows `let`; it has a type exactly when `:`
      follows the identifier; its location is that of `let`. */
  lemma SuccessfulParse<T, X>(initial: Option<Token>, stream: TokenStream, parseType: SubParser<T>, parseExpression: SubParser<X>)
    requires Parse(initial, stream, parseType, parseExpression).Ok?
    ensures var r := Parse(initial, stream, parseType, parseExpression).value;
            var (first, rest) := TakeOrNext(initial, stream).value;
            && first.lexeme == KeywordToken(Let)
            && r.next.None?
            && r.statement.location == first.location
            && Next(rest).Ok?
            && (r.statement.isMutable <==> Next(rest).value.0.lexeme == KeywordToken(Mut))
            && Binding(rest).Ok? && Next(Binding(rest).value.2).Ok?
            && (r.statement.declaredType.Some? <==> Next(Binding(rest).value.2).value.0.lexeme == SymbolToken(Colon))
  {
    ParseIsGrammar(initial, stream, parseType, parseExpression);
  }

  /** A stream that reads as `let`, a binding, a declaration and a
      terminated expression parses to the statement they make up. */
  lemma Accepted<T, X>(stream: TokenStream, parseType: SubParser<T>, parseExpression: SubParser<X>,
                       first: Token, rest: TokenStream, isMutable: bool, identifier: LetParser.Identifier,
                       afterName: TokenStream, declaredType: Option<T>, afterEquals: TokenStream, x: X, after: TokenStream)
    requires Next(stream) == Ok((first, rest)) && first.lexeme == KeywordToken(Let)
    requires Binding(rest) == Ok((isMutable, identifier, afterName))
    requires Declaration(afterName, parseType) == Ok((declaredType, afterEquals))
    requires Terminated(afterEquals, parseExpression) == Ok((x, after))
    ensures Parse(None, stream, parseType, parseExpression)
            == Ok(Parsed(LetStatement(first.location, identifier, isMutable, declaredType, x), None, after))
  {
    ParseIsGrammar(None, stream, parseType, parseExpression);
  }

  // -------------------------------------------------------------------------
  // Worked inputs
  // -------------------------------------------------------------------------

  /** Stand-in nodes and sub-parsers for the worked inputs: a type is one
      unsigned-integer keyword, an expression one integer literal whose
      following token is read as lookahead. */
  datatype SampleType = UnsignedType(location: Location, bitlength: nat)
  datatype SampleExpression = LiteralExpression(location: Location, text: string)

  function SampleTypeParser(s: TokenStream): Result<(SampleType, Option<Token>, TokenStream), Error> {
    var t :- Next(s);
    match t.0.lexeme
    case KeywordToken(IntegerUnsigned(n)) => Ok((UnsignedType(t.0.location, n), None, t.1))
    case _ => Err(Syntax(ExpectedOneOf(t.0.location, ["type"], t.0.lexeme, None)))
  }

  function SampleExpressionParser(s: TokenStream): Result<(SampleExpression, Option<Token>, TokenStream), Error> {
    var t :- Next(s);
    match t.0.lexeme
    case IntegerLiteral(text) =>
      var lookahead :- Next(t.1);
      Ok((LiteralExpression(t.0.location, text), Some(lookahead.0), lookahead.1))
    case _ => Err(Syntax(ExpectedOneOf(t.0.location, ["expression"], t.0.lexeme, None)))
  }

  function At(lexeme: Lexeme, line: nat, column: nat): Result<Token, Error> {
    Ok(Token(lexeme, Location(line, column)))
  }

  function ParseSample(items: seq<Result<Token, Error>>, line: nat, endColumn: nat): Result<Parsed<SampleType, SampleExpression>, Error> {
    Parse(None, TokenStream(items, Location(line, endColumn)), SampleTypeParser, SampleExpressionParser)
  }

  /** The stream of `items` after the first `k` have been read. */
  function Suffix(items: seq<Result<Token, Error>>, k: nat, end: Location): TokenStream
    requires k <= |items|
  {
    TokenStream(items[k..], end)
  }

  /** Reading the item at position `k`, a token, moves the stream one item on. */
  lemma NextAt(items: seq<Result<Token, Error>>, k: nat, end: Location)
    requires k < |items| && items[k].Ok?
    ensures Next(Suffix(items, k, end)) == Ok((items[k].value, Suffix(items, k + 1, end)))
  {
    assert items[k..][1..] == items[k + 1..];
  }

  // Each production step on the tokens the worked inputs use.

  lemma IdentifierBinding(s: TokenStream, t: Token, rest: TokenStream)
    requires Next(s) == Ok((t, rest)) && t.lexeme.IdentifierToken?
    ensures Binding(s) == Ok((false, Identifier.Identifier(t.location, t.lexeme.name), rest))
  {
  }

  lemma MutBinding(s: TokenStream, t: Token, afterMut: TokenStream, u: Token, rest: TokenStream)
    requires Next(s) == Ok((t, afterMut)) && t.lexeme == KeywordToken(Mut)
    requires Next(afterMut) == Ok((u, rest)) && u.lexeme.IdentifierToken?
    ensures Binding(s) == Ok((true, Identifier.Identifier(u.location, u.lexeme.name), rest))
  {
  }

  lemma UntypedDeclaration<T>(s: TokenStream, parseType: SubParser<T>, t: Token, rest: TokenStream)
    requires Next(s) == Ok((t, rest)) && t.lexeme == SymbolToken(Symbol.Equals)
    ensures Declaration(s, parseType) == Ok((None, rest))
  {
  }

  lemma TypedDeclaration(s: TokenStream, t: Token, afterColon: TokenStream, u: Token, afterType: TokenStream,
                         rest: TokenStream)
    requires Next(s) == Ok((t, afterColon)) && t.lexeme == SymbolToken(Colon)
    requires Next(afterColon) == Ok((u, afterType)) && u.lexeme.KeywordToken? && u.lexeme.keyword.IntegerUnsigned?
    requires Next(afterType).Ok? && Next(afterType).value.0.lexeme == SymbolToken(Symbol.Equals) && Next(afterType).value.1 == rest
    ensures Declaration(s, SampleTypeParser) == Ok((Some(UnsignedType(u.location, u.lexeme.keyword.bitlength)), rest))
  {
    assert SampleTypeParser(afterColon) == Ok((UnsignedType(u.location, u.lexeme.keyword.bitlength), None, afterType));
  }

  lemma LiteralExpressionParsed(s: TokenStream, t: Token, afterLiteral: TokenStream, u: Token, rest: TokenStream)
    requires Next(s) == Ok((t, afterLiteral)) && t.lexeme.IntegerLiteral?
    requires Next(afterLiteral) == Ok((u, rest))
    ensures SampleExpressionParser(s) == Ok((LiteralExpression(t.location, t.lexeme.text), Some(u), rest))
  {
  }

  lemma LiteralTerminated(s: TokenStream, t: Token, afterLiteral: TokenStream, u: Token, rest: TokenStream)
    requires Next(s) == Ok((t, afterLiteral)) && t.lexeme.IntegerLiteral?
    requires Next(afterLiteral) == Ok((u, rest)) && u.lexeme == SymbolToken(Symbol.Semicolon)
    ensures Terminated(s, SampleExpressionParser) == Ok((LiteralExpression(t.location, t.lexeme.text), rest))
  {
    LiteralExpressionParsed(s, t, afterLiteral, u, rest);
  }

  /** `let a = 42;`, on any line. */
  lemma SimpleLet(line: nat)
    ensures ParseSample([At(KeywordToken(Let), line, 1), At(IdentifierToken("a"), line, 5), At(SymbolToken(Symbol.Equals), line, 7),
                         At(IntegerLiteral("42"), line, 9), At(SymbolToken(Symbol.Semicolon), line, 11)], line, 12)
            == Ok(Parsed(LetStatement(Location(line, 1), Identifier.Identifier(Location(line, 5), "a"), false, None,
                                      LiteralExpression(Location(line, 9), "42")),
                         None, TokenStream([], Location(line, 12))))
  {
    var end := Location(line, 12);
    var items := [At(KeywordToken(Let), line, 1), At(IdentifierToken("a"), line, 5), At(SymbolToken(Symbol.Equals), line, 7),
                  At(IntegerLiteral("42"), line, 9), At(SymbolToken(Symbol.Semicolon), line, 11)];
    assert items[0..] == items && items[5..] == [];
    NextAt(items, 0, end);
    NextAt(items, 1, end);
    NextAt(items, 2, end);
    NextAt(items, 3, end);
    NextAt(items, 4, end);
    IdentifierBinding(Suffix(items, 1, end), items[1].value, Suffix(items, 2, end));
    UntypedDeclaration(Suffix(items, 2, end), SampleTypeParser, items[2].value, Suffix(items, 3, end));
    LiteralTerminated(Suffix(items, 3, end), items[3].value, Suffix(items, 4, end), items[4].value, Suffix(items, 5, end));
    Accepted(Suffix(items, 0, end), SampleTypeParser, SampleExpressionParser, items[0].value, Suffix(items, 1, end),
             false, Identifier.Identifier(Location(line, 5), "a"), Suffix(items, 2, end), None, Suffix(items, 3, end),
             LiteralExpression(Location(line, 9), "42"), Suffix(items, 5, end));
  }

  /** The tokens of `let mut a: u232 = 42;` on line `line`. */
  function MutableTypedInput(line: nat): seq<Result<Token, Error>> {
    [At(KeywordToken(Let), line, 1), At(KeywordToken(Mut), line, 5), At(IdentifierToken("a"), line, 9),
     At(SymbolToken(Colon), line, 10), At(KeywordToken(IntegerUnsigned(232)), line, 12),
     At(SymbolToken(Symbol.Equals), line, 17), At(IntegerLiteral("42"), line, 19),
     At(SymbolToken(Symbol.Semicolon), line, 21)]
  }

  /** How `let mut a: u232 = 42;` reads: `let`, then the binding. */
  lemma MutableTypedHead(line: nat, end: Location)
    ensures var items := MutableTypedInput(line);
            && Next(Suffix(items, 0, end)) == Ok((Token(KeywordToken(Let), Location(line, 1)), Suffix(items, 1, end)))
            && Binding(Suffix(items, 1, end)) == Ok((true, Identifier.Identifier(Location(line, 9), "a"), Suffix(items, 3, end)))
  {
    var items := MutableTypedInput(line);
    NextAt(items, 0, end);
    NextAt(items, 1, end);
    NextAt(items, 2, end);
    MutBinding(Suffix(items, 1, end), items[1].value, Suffix(items, 2, end), items[2].value, Suffix(items, 3, end));
  }

  /** How `let mut a: u232 = 42;` reads: the declaration, then the terminated expression. */
  lemma MutableTypedTail(line: nat, end: Location)
    ensures var items := MutableTypedInput(line);
            && Declaration(Suffix(items, 3, end), SampleTypeParser) == Ok((Some(UnsignedType(Location(line, 12), 232)), Suffix(items, 6, end)))
            && Terminated(Suffix(items, 6, end), SampleExpressionParser) == Ok((LiteralExpression(Location(line, 19), "42"), Suffix(items, 8, end)))
  {
    var items := MutableTypedInput(line);
    NextAt(items, 3, end);
    NextAt(items, 4, end);
    NextAt(items, 5, end);
    TypedDeclaration(Suffix(items, 3, end), items[3].value, Suffix(items, 4, end), items[4].value, Suffix(items, 5, end), Suffix(items, 6, end));
    NextAt(items, 6, end);
    NextAt(items, 7, end);
    LiteralTerminated(Suffix(items, 6, end), items[6].value, Suffix(items, 7, end), items[7].value, Suffix(items, 8, end));
  }

  /** `let mut a: u232 = 42;`, on any line. */
  lemma MutableTypedLet(line: nat)
    ensures ParseSample([At(KeywordToken(Let), line, 1), At(KeywordToken(Mut), line, 5), At(IdentifierToken("a"), line, 9),
                         At(SymbolToken(Colon), line, 10), At(KeywordToken(IntegerUnsigned(232)), line, 12),
                         At(SymbolToken(Symbol.Equals), line, 17), At(IntegerLiteral("42"), line, 19),
                         At(SymbolToken(Symbol.Semicolon), line, 21)], line, 22)
            == Ok(Parsed(LetStatement(Location(line, 1), Identifier.Identifier(Location(line, 9), "a"), true,
                                      Some(UnsignedType(Location(line, 12), 232)),
                                      LiteralExpression(Location(line, 19), "42")),
                         None, TokenStream([], Location(line, 22))))
  {
    var end := Location(line, 22);
    var items := MutableTypedInput(line);
    assert items[0..] == items && items[8..] == [];
    MutableTypedHead(line, end);
    MutableTypedTail(line, end);
    Accepted(Suffix(items, 0, end), SampleTypeParser, SampleExpressionParser, Token(KeywordToken(Let), Location(line, 1)),
             Suffix(items, 1, end), true, Identifier.Identifier(Location(line, 9), "a"), Suffix(items, 3, end),
             Some(UnsignedType(Location(line, 12), 232)), Suffix(items, 6, end),
             LiteralExpression(Location(line, 19), "42"), Suffix(items, 8, end));
  }

  /** The sample parse fails in the binding exactly as the binding does. */
  lemma BindingFails(s0: TokenStream, t1: Token, s1: TokenStream)
    requires Next(s0) == Ok((t1, s1)) && t1.lexeme == KeywordToken(Let) && Binding(s1).Err?
    ensures Parse(None, s0, SampleTypeParser, SampleExpressionParser) == Err(Binding(s1).error)
  {
    ParseIsGrammar(None, s0, SampleTypeParser, SampleExpressionParser);
  }

  /** `let = 42;`, on any line. */
  lemma LetWithoutName(line: nat)
    ensures ParseSample([At(KeywordToken(Let), line, 1), At(SymbolToken(Symbol.Equals), line, 5), At(IntegerLiteral("42"), line, 7),
                         At(SymbolToken(Symbol.Semicolon), line, 9)], line, 10)
            == Err(Syntax(ExpectedMutOrIdentifier(Location(line, 5), SymbolToken(Symbol.Equals), Some(HintExpectedIdentifier))))
  {
    var end := Location(line, 10);
    var items := [At(KeywordToken(Let), line, 1), At(SymbolToken(Symbol.Equals), line, 5), At(IntegerLiteral("42"), line, 7),
                  At(SymbolToken(Symbol.Semicolon), line, 9)];
    assert items[0..] == items;
    NextAt(items, 0, end);
    NextAt(items, 1, end);
    BindingFails(Suffix(items, 0, end), items[0].value, Suffix(items, 1, end));
  }

  /** `let mut = 42;`, on any line. */
  lemma MutWithoutName(line: nat)
    ensures ParseSample([At(KeywordToken(Let), line, 1), At(KeywordToken(Mut), line, 5), At(SymbolToken(Symbol.Equals), line, 9),
                         At(IntegerLiteral("42"), line, 11), At(SymbolToken(Symbol.Semicolon), line, 13)], line, 14)
            == Err(Syntax(ExpectedIdentifier(Location(line, 9), SymbolToken(Symbol.Equals), Some(HintExpectedIdentifier))))
  {
    var end := Location(line, 14);
    var items := [At(KeywordToken(Let), line, 1), At(KeywordToken(Mut), line, 5), At(SymbolToken(Symbol.Equals), line, 9),
                  At(IntegerLiteral("42"), line, 11), At(SymbolToken(Symbol.Semicolon), line, 13)];
    assert items[0..] == items;
    NextAt(items, 0, end);
    NextAt(items, 1, end);
    NextAt(items, 2, end);
    BindingFails(Suffix(items, 0, end), items[0].value, Suffix(items, 1, end));
  }

  /** The sample parse fails after the binding exactly as the declaration does. */
  lemma DeclarationFails(s0: TokenStream, t1: Token, s1: TokenStream, s2: TokenStream)
    requires Next(s0) == Ok((t1, s1)) && t1.lexeme == KeywordToken(Let)
    requires Binding(s1).Ok? && Binding(s1).value.2 == s2 && Declaration(s2, SampleTypeParser).Err?
    ensures Parse(None, s0, SampleTypeParser, SampleExpressionParser) == Err(Declaration(s2, SampleTypeParser).error)
  {
    ParseIsGrammar(None, s0, SampleTypeParser, SampleExpressionParser);
  }

  /** `let a;`, on any line. */
  lemma LetWithoutValue(line: nat)
    ensures ParseSample([At(KeywordToken(Let), line, 1), At(IdentifierToken("a"), line, 5), At(SymbolToken(Symbol.Semicolon), line, 6)], line, 7)
            == Err(Syntax(ExpectedTypeOrValue(Location(line, 6), SymbolToken(Symbol.Semicolon), Some(HintExpectedValue))))
  {
    var end := Location(line, 7);
    var items := [At(KeywordToken(Let), line, 1), At(IdentifierToken("a"), line, 5), At(SymbolToken(Symbol.Semicolon), line, 6)];
    assert items[0..] == items;
    NextAt(items, 0, end);
    NextAt(items, 1, end);
    NextAt(items, 2, end);
    IdentifierBinding(Suffix(items, 1, end), items[1].value, Suffix(items, 2, end));
    DeclarationFails(Suffix(items, 0, end), items[0].value, Suffix(items, 1, end), Suffix(items, 2, end));
  }

  /** `let a: u64;`, on any line. */
  lemma TypedLetWithoutValue(line: nat)
    ensures ParseSample([At(KeywordToken(Let), line, 1), At(IdentifierToken("a"), line, 5), At(SymbolToken(Colon), line, 6),
                         At(KeywordToken(IntegerUnsigned(64)), line, 8), At(SymbolToken(Symbol.Semicolon), line, 11)], line, 12)
            == Err(Syntax(ExpectedValue(Location(line, 11), SymbolToken(Symbol.Semicolon), Some(HintExpectedValue))))
  {
    var end := Location(line, 12);
    var items := [At(KeywordToken(Let), line, 1), At(IdentifierToken("a"), line, 5), At(SymbolToken(Colon), line, 6),
                  At(KeywordToken(IntegerUnsigned(64)), line, 8), At(SymbolToken(Symbol.Semicolon), line, 11)];
    assert items[0..] == items;
    NextAt(items, 0, end);
    NextAt(items, 1, end);
    NextAt(items, 2, end);
    NextAt(items, 3, end);
    NextAt(items, 4, end);
    IdentifierBinding(Suffix(items, 1, end), items[1].value, Suffix(items, 2, end));
    assert SampleTypeParser(Suffix(items, 3, end)) == Ok((UnsignedType(Location(line, 8), 64), None, Suffix(items, 4, end)));
    DeclarationFails(Suffix(items, 0, end), items[0].value, Suffix(items, 1, end), Suffix(items, 2, end));
  }

  /** `let a: u64 = 42`, on any line: the missing `;` is reported at the end of input. */
  lemma LetWithoutSemicolon(line: nat)
    ensures ParseSample([At(KeywordToken(Let), line, 1), At(IdentifierToken("a"), line, 5), At(SymbolToken(Colon), line, 6),
                         At(KeywordToken(IntegerUnsigned(64)), line, 8), At(SymbolToken(Symbol.Equals), line, 12),
                         At(IntegerLiteral("42"), line, 14)], line, 16)
            == Err(Syntax(ExpectedOneOfOrOperator(Location(line, 16), [";"], Eof, None)))
  {
    var end := Location(line, 16);
    var items := [At(KeywordToken(Let), line, 1), At(IdentifierToken("a"), line, 5), At(SymbolToken(Colon), line, 6),
                  At(KeywordToken(IntegerUnsigned(64)), line, 8), At(SymbolToken(Symbol.Equals), line, 12),
                  At(IntegerLiteral("42"), line, 14)];
    var eof := Token(Eof, end);
    assert items[0..] == items && items[6..] == [];
    NextAt(items, 0, end);
    NextAt(items, 1, end);
    NextAt(items, 2, end);
    NextAt(items, 3, end);
    NextAt(items, 4, end);
    NextAt(items, 5, end);
    IdentifierBinding(Suffix(items, 1, end), items[1].value, Suffix(items, 2, end));
    TypedDeclaration(Suffix(items, 2, end), items[2].value, Suffix(items, 3, end), items[3].value, Suffix(items, 4, end), Suffix(items, 5, end));
    LiteralExpressionParsed(Suffix(items, 5, end), items[5].value, Suffix(items, 6, end), eof, Suffix(items, 6, end));
    MissingSemicolon(None, Suffix(items, 0, end), SampleTypeParser, SampleExpressionParser, items[0].value, Suffix(items, 1, end),
                     false, Identifier.Identifier(Location(line, 5), "a"), Suffix(items, 2, end), Some(UnsignedType(Location(line, 8), 64)), Suffix(items, 5, end),
                     LiteralExpression(Location(line, 14), "42"), Some(eof), Suffix(items, 6, end), eof, Suffix(items, 6, end));
  }

  /** The loop runs at most eight iterations and never revisits a state. */
  lemma BoundedIterations<T, X>(initial: Option<Token>, stream: TokenStream, parseType: SubParser<T>, parseExpression: SubParser<X>)
    ensures var o := Run(Initial<T, X>(initial, stream), parseType, parseExpression);
            && 1 <= |o.visited| <= 8
            && o.visited[0] == State.KeywordLet
            && (forall i, j :: 0 <= i < j < |o.visited| ==> o.visited[i] != o.visited[j])
  {
  }
}
