/** The macro's grammar, as the derive attributes on its AST structs lay it
    out: a declaration `attrs Name { fields };`, then an optional
    `trait_args ( params );`, then `commands { entries };`, where an entry
    is `attrs Ident fields? (=> Block)?`. Also the surface syntax written
    back out, the partner the round-trip lemmas use. */
module Grammar {
  import opened Results
  import opened Tokens
  import opened Syn
  import opened Ast

  /** The next token is a group with delimiter `d` (syn's `peek` of a delimiter). */
  predicate HeadIs(toks: seq<Token>, d: Delim) {
    |toks| > 0 && toks[0].Group? && toks[0].delim == d
  }

  /** The next token is the contextual keyword `kw` (a `custom_keyword!` peek). */
  predicate PeeksKeyword(toks: seq<Token>, kw: string) {
    |toks| > 0 && toks[0] == Ident(kw)
  }

  /** `rest` is what is left after a parse of `toks` whose last consumed token was `;`. */
  predicate EndsWithSemi(rest: seq<Token>, toks: seq<Token>) {
    IsSuffix([Punct(";")] + rest, toks)
  }

  /** `parse_fields`: a brace group gives named fields, a paren group gives
      unnamed fields, anything else gives a unit variant and consumes nothing. */
  function ParseFields(toks: seq<Token>): (r: ParseResult<Fields>)
    ensures r.Ok? ==> (r.value.value.Named? <==> HeadIs(toks, Brace))
    ensures r.Ok? ==> (r.value.value.Unnamed? <==> HeadIs(toks, Paren))
    ensures r.Ok? && !r.value.value.Unit? ==> r.value.rest == toks[1..]
    ensures !HeadIs(toks, Brace) && !HeadIs(toks, Paren) ==> r == Ok(Parsed(Unit, toks))
    ensures r.Ok? ==> IsSuffix(r.value.rest, toks)
  {
    if HeadIs(toks, Brace) then
      var named :- ParseTerminated(ParseNamedField, ",", toks[0].body);
      TailIsSuffix(toks, 1);
      Ok(Parsed(Named(named), toks[1..]))
    else if HeadIs(toks, Paren) then
      var unnamed :- ParseTerminated(ParseUnnamedField, ",", toks[0].body);
      TailIsSuffix(toks, 1);
      Ok(Parsed(Unnamed(unnamed), toks[1..]))
    else
      TailIsSuffix(toks, 0);
      Ok(Parsed(Unit, toks))
  }

  /** `Variant2`'s parser: outer attributes, an identifier, then `parse_fields`. */
  function ParseVariant(toks: seq<Token>): (r: ParseResult<Variant2>)
    ensures r.Ok? ==> IsSuffix(r.value.rest, toks) && |r.value.rest| < |toks|
  {
    var attrs :- ParseOuterAttrs(toks);
    var ident :- ParseIdent(attrs.rest);
    var fields :- ParseFields(ident.rest);
    SuffixOfTail(fields.rest, attrs.rest, 1);
    SuffixTrans(fields.rest, attrs.rest, toks);
    Ok(Parsed(Variant2(attrs.value, ident.value, fields.value), fields.rest))
  }

  /** The next token is the dispatch arrow `=>`. */
  predicate ArrowNext(toks: seq<Token>) {
    |toks| > 0 && toks[0] == Punct("=>")
  }

  /** `CmdHandler`'s parser: a variant, then an optional `=>`; a block is
      parsed exactly when the arrow is there. */
  function ParseCmdHandler(toks: seq<Token>): (r: ParseResult<CmdHandler>)
    ensures r.Ok? ==> IsSuffix(r.value.rest, toks) && |r.value.rest| < |toks|
    ensures r.Ok? ==>
              && ParseVariant(toks).Ok?
              && r.value.value.variant == ParseVariant(toks).value.value
              && (r.value.value.handler.Some? <==> ArrowNext(ParseVariant(toks).value.rest))
    ensures ParseVariant(toks).Ok? && !ArrowNext(ParseVariant(toks).value.rest)
      ==> r == Ok(Parsed(CmdHandler(ParseVariant(toks).value.value, None), ParseVariant(toks).value.rest))
  {
    var variant :- ParseVariant(toks);
    if ArrowNext(variant.rest) then
      var block :- ParseBlock(variant.rest[1..]);
      SuffixOfTail(block.rest, variant.rest, 1);
      SuffixTrans(block.rest, variant.rest, toks);
      Ok(Parsed(CmdHandler(variant.value, Some(block.value)), block.rest))
    else
      Ok(Parsed(CmdHandler(variant.value, None), variant.rest))
  }

  /** `ParserDef`'s parser: attributes, identifier, a brace group, then `;`;
      the group's contents are a comma-terminated list of named fields. */
  function ParseParserDef(toks: seq<Token>): (r: ParseResult<ParserDef>)
    ensures r.Ok? ==> EndsWithSemi(r.value.rest, toks)
  {
    var attrs :- ParseOuterAttrs(toks);
    var ident :- ParseIdent(attrs.rest);
    if !HeadIs(ident.rest, Brace) then Err(SyntaxError("expected `{`", ident.rest))
    else
      var semi :- ParsePunct(ident.rest[1..], ";");
      var fields :- ParseTerminated(ParseNamedField, ",", ident.rest[0].body);
      assert ident.rest[1..] == [Punct(";")] + semi.rest;
      SuffixOfTail(ident.rest[1..], attrs.rest, 2);
      SuffixTrans(ident.rest[1..], attrs.rest, toks);
      Ok(Parsed(ParserDef(attrs.value, ident.value, fields), semi.rest))
  }

  /** `TraitArgs`'s parser: the keyword `trait_args`, a paren group, then `;`;
      the group holds a comma-terminated list of parameters. */
  function ParseTraitArgs(toks: seq<Token>): (r: ParseResult<TraitArgs>)
    ensures r.Ok? ==> PeeksKeyword(toks, "trait_args") && EndsWithSemi(r.value.rest, toks)
  {
    if !PeeksKeyword(toks, "trait_args") then Err(SyntaxError("expected `trait_args`", toks))
    else if !HeadIs(toks[1..], Paren) then Err(SyntaxError("expected `(`", toks[1..]))
    else
      var semi :- ParsePunct(toks[2..], ";");
      var args :- ParseTerminated(ParseFnArg, ",", toks[1].body);
      assert toks[2..] == [Punct(";")] + semi.rest;
      TailIsSuffix(toks, 2);
      Ok(Parsed(TraitArgs(args), semi.rest))
  }

  /** `Commands`'s parser: the keyword `commands`, a brace group, then `;`;
      the group holds a comma-terminated list of command entries. */
  function ParseCommands(toks: seq<Token>): (r: ParseResult<Commands>)
    ensures r.Ok? ==> PeeksKeyword(toks, "commands") && EndsWithSemi(r.value.rest, toks)
  {
    if !PeeksKeyword(toks, "commands") then Err(SyntaxError("expected `commands`", toks))
    else if !HeadIs(toks[1..], Brace) then Err(SyntaxError("expected `{`", toks[1..]))
    else
      var semi :- ParsePunct(toks[2..], ";");
      var entries :- ParseTerminated(ParseCmdHandler, ",", toks[1].body);
      assert toks[2..] == [Punct(";")] + semi.rest;
      TailIsSuffix(toks, 2);
      Ok(Parsed(Commands(entries), semi.rest))
  }

  /** The `#[peek(kw::trait_args)]` field: a `TraitArgs` block is parsed
      exactly when the next token is the keyword `trait_args`. */
  function ParseOptionalTraitArgs(toks: seq<Token>): (r: ParseResult<Option<TraitArgs>>)
    ensures r.Ok? ==> IsSuffix(r.value.rest, toks)
    ensures r.Ok? ==> (r.value.value.Some? <==> PeeksKeyword(toks, "trait_args"))
    ensures !PeeksKeyword(toks, "trait_args") ==> r == Ok(Parsed(None, toks))
  {
    if PeeksKeyword(toks, "trait_args") then
      var ta :- ParseTraitArgs(toks);
      SuffixAfter(Punct(";"), ta.rest, toks);
      Ok(Parsed(Some(ta.value), ta.rest))
    else
      TailIsSuffix(toks, 0);
      Ok(Parsed(None, toks))
  }

  /** The macro input as a whole (`ClapArgsWithSubs`, parsed the way
      `parse_macro_input!` does it: every token must be consumed). */
  function ParseInput(toks: seq<Token>): (r: Result<ClapArgsWithSubs, SyntaxError>)
    ensures r.Ok? ==> |toks| > 0 && toks[|toks| - 1] == Punct(";")
  {
    var parser :- ParseParserDef(toks);
    var traitArgs :- ParseOptionalTraitArgs(parser.rest);
    var commands :- ParseCommands(traitArgs.rest);
    if commands.rest != [] then Err(SyntaxError("unexpected token", commands.rest))
    else
      assert [Punct(";")] + commands.rest == [Punct(";")];
      SuffixAfter(Punct(";"), parser.rest, toks);
      SuffixTrans(traitArgs.rest, parser.rest, toks);
      SuffixTrans([Punct(";")], traitArgs.rest, toks);
      SuffixAt([Punct(";")], toks, 0);
      Ok(ClapArgsWithSubs(parser.value, traitArgs.value, commands.value))
  }

  // ---------------------------------------------------------------------------
  // The surface syntax written back out
  // ---------------------------------------------------------------------------

  function CmdHandlerTokens(h: CmdHandler): seq<Token> {
    VariantTokens(h.variant)
      + match h.handler
        case Some(b) => [Punct("=>"), BlockToken(b)]
        case None => []
  }

  function ParserDefTokens(p: ParserDef): seq<Token> {
    AttrsTokens(p.attrs)
      + [Ident(p.ident), Group(Brace, JoinedBy(FieldTokens, Punct(","), p.fields)), Punct(";")]
  }

  function TraitArgsTokens(ta: TraitArgs): seq<Token> {
    [Ident("trait_args"), Group(Paren, JoinedBy(FnArgTokens, Punct(","), ta.args)), Punct(";")]
  }

  function CommandsTokens(c: Commands): seq<Token> {
    [Ident("commands"), Group(Brace, JoinedBy(CmdHandlerTokens, Punct(","), c.commands)), Punct(";")]
  }

  /** A macro input written out in the grammar's surface syntax. */
  function InputTokens(d: ClapArgsWithSubs): seq<Token> {
    ParserDefTokens(d.parser)
      + (match d.traitArgs case Some(ta) => TraitArgsTokens(ta) case None => [])
      + CommandsTokens(d.commands)
  }

  // ---------------------------------------------------------------------------
  // The values the grammar can produce
  // ---------------------------------------------------------------------------

  predicate WfFields(fields: Fields) {
    match fields
    case Named(fs) => forall i :: 0 <= i < |fs| ==> WfField(fs[i])
    case Unnamed(fs) => forall i :: 0 <= i < |fs| ==> WfUnnamedField(fs[i])
    case Unit => true
  }

  predicate WfVariant(v: Variant2) { WfFields(v.fields) }

  predicate WfCmdHandler(h: CmdHandler) { WfVariant(h.variant) }

  predicate WfInput(d: ClapArgsWithSubs) {
    && (forall i :: 0 <= i < |d.parser.fields| ==> WfField(d.parser.fields[i]))
    && (d.traitArgs.Some? ==> forall i :: 0 <= i < |d.traitArgs.value.args| ==> WfFnArg(d.traitArgs.value.args[i]))
    && (forall i :: 0 <= i < |d.commands.commands| ==> WfCmdHandler(d.commands.commands[i]))
  }
}
