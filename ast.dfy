/** The typed tree the macro's grammar produces: `ParserDef`, `TraitArgs`,
    `Commands`, `CmdHandler<Variant2>` and their root `ClapArgsWithSubs`. */
module Ast {
  import opened Results
  import opened Tokens
  import opened Syn

  /** syn's `Fields`: the payload shape of a command variant. */
  datatype Fields =
    | Named(named: seq<Field>)
    | Unnamed(unnamed: seq<UnnamedField>)
    | Unit

  /** A command variant without a discriminant: `attrs ident fields`. */
  datatype Variant2 = Variant2(attrs: seq<Attribute>, ident: string, fields: Fields)

  /** One command entry: a variant and, after `=>`, an optional handler block. */
  datatype CmdHandler = CmdHandler(variant: Variant2, handler: Option<Block>)

  /** `attrs Name { fields };` — the shared options of the generated parser. */
  datatype ParserDef = ParserDef(attrs: seq<Attribute>, ident: string, fields: seq<Field>)

  /** `trait_args ( params );` — the extra parameters of `run`. */
  datatype TraitArgs = TraitArgs(args: seq<FnArg>)

  /** `commands { entries };` */
  datatype Commands = Commands(commands: seq<CmdHandler>)

  /** The whole macro input. */
  datatype ClapArgsWithSubs = ClapArgsWithSubs(
    parser: ParserDef,
    traitArgs: Option<TraitArgs>,
    commands: Commands)

  /** syn's `ToTokens` for `Fields`. */
  function FieldsTokens(fields: Fields): seq<Token> {
    match fields
    case Named(fs) => [Group(Brace, JoinedBy(FieldTokens, Punct(","), fs))]
    case Unnamed(fs) => [Group(Paren, JoinedBy(UnnamedFieldTokens, Punct(","), fs))]
    case Unit => []
  }

  /** The tokens `impl ToTokens for Variant2` writes: the attributes
      verbatim, the identifier, then the fields. */
  function VariantTokens(v: Variant2): seq<Token> {
    AttrsTokens(v.attrs) + [Ident(v.ident)] + FieldsTokens(v.fields)
  }

  /** `impl ToTokens for Variant2`: appends the variant to the caller's stream. */
  method AppendVariant(v: Variant2, tokens: TokenStream)
    modifies tokens
    ensures tokens.contents == old(tokens.contents) + VariantTokens(v)
  {
    var tok := AttrsTokens(v.attrs) + [Ident(v.ident)] + FieldsTokens(v.fields);
    tokens.AppendAll(tok);
  }
}
