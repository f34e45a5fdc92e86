/** Stand-ins for the parts of syn the macro relies on: attributes, types,
    fields, function arguments and blocks, how each is parsed from tokens
    and how each is written back out. Only the shapes the macro's grammar
    meets are modelled (see README). */
module Syn {
  import opened Results
  import opened Tokens

  /** An outer attribute `#[...]`; its contents are never interpreted. */
  datatype Attribute = Attribute(body: seq<Token>)

  /** A type: a path `a::b::C`, a reference `&T`, or a delimited type such
      as a tuple `(A, B)` or a slice `[T]`, kept as opaque tokens. */
  datatype Type =
    | Path(segments: seq<string>)
    | Ref(referent: Type)
    | Grouped(delim: Delim, body: seq<Token>)

  /** A named field `attrs name: ty`. */
  datatype Field = Field(attrs: seq<Attribute>, name: string, ty: Type)

  /** An unnamed (tuple) field `attrs ty`. */
  datatype UnnamedField = UnnamedField(attrs: seq<Attribute>, ty: Type)

  /** A parameter of a function signature: the receiver `&self`, or `name: ty`. */
  datatype FnArg = Receiver | Typed(name: string, ty: Type)

  /** A brace-delimited block of statements, kept verbatim. */
  datatype Block = Block(stmts: seq<Token>)

  /** A syntax error, anchored at the tokens that were left when it was found. */
  datatype SyntaxError = SyntaxError(expected: string, at: seq<Token>)

  /** A value parsed from the front of a token sequence, and what is left. */
  datatype Parsed<+T> = Parsed(value: T, rest: seq<Token>)

  type ParseResult<+T> = Result<Parsed<T>, SyntaxError>

  /** A type the parser can produce: paths have at least one segment and
      delimited types are not brace groups. */
  predicate WfType(t: Type) {
    match t
    case Path(segs) => |segs| > 0
    case Ref(inner) => WfType(inner)
    case Grouped(d, _) => d != Brace
  }

  predicate WfField(f: Field) { WfType(f.ty) }

  predicate WfUnnamedField(f: UnnamedField) { WfType(f.ty) }

  predicate WfFnArg(a: FnArg) { a.Typed? ==> WfType(a.ty) }

  // ---------------------------------------------------------------------------
  // Writing syn values back out (their `ToTokens` impls)
  // ---------------------------------------------------------------------------

  function AttrTokens(a: Attribute): seq<Token> {
    [Punct("#"), Group(Bracket, a.body)]
  }

  function AttrsTokens(attrs: seq<Attribute>): seq<Token>
    decreases |attrs|
  {
    if |attrs| == 0 then [] else AttrTokens(attrs[0]) + AttrsTokens(attrs[1..])
  }

  function SegmentToken(s: string): seq<Token> {
    [Ident(s)]
  }

  function TypeTokens(t: Type): seq<Token> {
    match t
    case Path(segs) => JoinedBy(SegmentToken, Punct("::"), segs)
    case Ref(inner) => [Punct("&")] + TypeTokens(inner)
    case Grouped(d, body) => [Group(d, body)]
  }

  function FieldTokens(f: Field): seq<Token> {
    AttrsTokens(f.attrs) + [Ident(f.name), Punct(":")] + TypeTokens(f.ty)
  }

  function UnnamedFieldTokens(f: UnnamedField): seq<Token> {
    AttrsTokens(f.attrs) + TypeTokens(f.ty)
  }

  function FnArgTokens(a: FnArg): seq<Token> {
    match a
    case Receiver => [Punct("&"), Ident("self")]
    case Typed(n, ty) => [Ident(n), Punct(":")] + TypeTokens(ty)
  }

  function BlockToken(b: Block): Token {
    Group(Brace, b.stmts)
  }

  // ---------------------------------------------------------------------------
  // Parsing syn values (their `Parse` impls and `parse_terminated`)
  // ---------------------------------------------------------------------------

  /** Consumes one identifier. */
  function ParseIdent(toks: seq<Token>): (r: ParseResult<string>)
    ensures r.Ok? ==> |toks| > 0 && toks[0] == Ident(r.value.value) && r.value.rest == toks[1..]
    ensures r.Err? <==> |toks| == 0 || !toks[0].Ident?
  {
    if |toks| > 0 && toks[0].Ident? then Ok(Parsed(toks[0].name, toks[1..]))
    else Err(SyntaxError("expected identifier", toks))
  }

  /** Consumes the punctuation `op`. */
  function ParsePunct(toks: seq<Token>, op: string): (r: ParseResult<()>)
    ensures r.Ok? <==> |toks| > 0 && toks[0] == Punct(op)
    ensures r.Ok? ==> r.value.rest == toks[1..]
  {
    if |toks| > 0 && toks[0] == Punct(op) then Ok(Parsed((), toks[1..]))
    else Err(SyntaxError("expected `" + op + "`", toks))
  }

  /** `Attribute::parse_outer`: zero or more `#[...]`; a `#` not followed by a
      bracketed group is an error. */
  function ParseOuterAttrs(toks: seq<Token>): (r: ParseResult<seq<Attribute>>)
    ensures r.Ok? ==> IsSuffix(r.value.rest, toks)
    ensures r.Ok? ==> r.value.rest == [] || r.value.rest[0] != Punct("#")
    decreases |toks|
  {
    if |toks| > 0 && toks[0] == Punct("#") then
      if |toks| > 1 && toks[1].Group? && toks[1].delim == Bracket then
        var more :- ParseOuterAttrs(toks[2..]);
        SuffixOfTail(more.rest, toks, 2);
        Ok(Parsed([Attribute(toks[1].body)] + more.value, more.rest))
      else
        Err(SyntaxError("expected `[`", toks[1..]))
    else
      Ok(Parsed([], toks))
  }

  /** The `::ident` continuations of a path. */
  function ParsePathTail(toks: seq<Token>): (r: ParseResult<seq<string>>)
    ensures r.Ok? ==> IsSuffix(r.value.rest, toks)
    decreases |toks|
  {
    if |toks| > 0 && toks[0] == Punct("::") then
      if |toks| > 1 && toks[1].Ident? then
        var more :- ParsePathTail(toks[2..]);
        SuffixOfTail(more.rest, toks, 2);
        Ok(Parsed([toks[1].name] + more.value, more.rest))
      else
        Err(SyntaxError("expected identifier", toks[1..]))
    else
      Ok(Parsed([], toks))
  }

  /** `Type::parse`, restricted to paths, references and delimited types. */
  function ParseType(toks: seq<Token>): (r: ParseResult<Type>)
    ensures r.Ok? ==> IsSuffix(r.value.rest, toks) && |r.value.rest| < |toks|
    ensures r.Ok? ==> WfType(r.value.value)
    decreases |toks|
  {
    if |toks| == 0 then Err(SyntaxError("expected type", toks))
    else if toks[0] == Punct("&") then
      var inner :- ParseType(toks[1..]);
      SuffixOfTail(inner.rest, toks, 1);
      Ok(Parsed(Ref(inner.value), inner.rest))
    else if toks[0].Ident? then
      var tail :- ParsePathTail(toks[1..]);
      SuffixOfTail(tail.rest, toks, 1);
      Ok(Parsed(Path([toks[0].name] + tail.value), tail.rest))
    else if toks[0].Group? && toks[0].delim != Brace then
      TailIsSuffix(toks, 1);
      Ok(Parsed(Grouped(toks[0].delim, toks[0].body), toks[1..]))
    else
      Err(SyntaxError("expected type", toks))
  }

  /** `Field::parse_named`. */
  function ParseNamedField(toks: seq<Token>): (r: ParseResult<Field>)
    ensures r.Ok? ==> IsSuffix(r.value.rest, toks) && |r.value.rest| < |toks|
    ensures r.Ok? ==> WfField(r.value.value)
  {
    var attrs :- ParseOuterAttrs(toks);
    var name :- ParseIdent(attrs.rest);
    var colon :- ParsePunct(name.rest, ":");
    var ty :- ParseType(colon.rest);
    assert colon.rest == attrs.rest[2..];
    SuffixOfTail(ty.rest, attrs.rest, 2);
    SuffixTrans(ty.rest, attrs.rest, toks);
    Ok(Parsed(Field(attrs.value, name.value, ty.value), ty.rest))
  }

  /** `Field::parse_unnamed`. */
  function ParseUnnamedField(toks: seq<Token>): (r: ParseResult<UnnamedField>)
    ensures r.Ok? ==> IsSuffix(r.value.rest, toks) && |r.value.rest| < |toks|
    ensures r.Ok? ==> WfUnnamedField(r.value.value)
  {
    var attrs :- ParseOuterAttrs(toks);
    var ty :- ParseType(attrs.rest);
    SuffixTrans(ty.rest, attrs.rest, toks);
    Ok(Parsed(UnnamedField(attrs.value, ty.value), ty.rest))
  }

  /** `FnArg::parse`: `&self`, or `name: ty`. */
  function ParseFnArg(toks: seq<Token>): (r: ParseResult<FnArg>)
    ensures r.Ok? ==> IsSuffix(r.value.rest, toks) && |r.value.rest| < |toks|
    ensures r.Ok? ==> WfFnArg(r.value.value)
  {
    if |toks| > 1 && toks[0] == Punct("&") && toks[1] == Ident("self") then
      TailIsSuffix(toks, 2);
      Ok(Parsed(Receiver, toks[2..]))
    else
      var name :- ParseIdent(toks);
      var colon :- ParsePunct(name.rest, ":");
      var ty :- ParseType(colon.rest);
      assert colon.rest == toks[2..];
      SuffixOfTail(ty.rest, toks, 2);
      Ok(Parsed(Typed(name.value, ty.value), ty.rest))
  }

  /** `Block::parse`: a brace-delimited group, kept verbatim. */
  function ParseBlock(toks: seq<Token>): (r: ParseResult<Block>)
    ensures r.Ok? <==> |toks| > 0 && toks[0].Group? && toks[0].delim == Brace
    ensures r.Ok? ==> r.value == Parsed(Block(toks[0].body), toks[1..])
  {
    if |toks| > 0 && toks[0].Group? && toks[0].delim == Brace then
      Ok(Parsed(Block(toks[0].body), toks[1..]))
    else
      Err(SyntaxError("expected `{`", toks))
  }

  /** A parser that, whenever it succeeds, consumes at least one token. */
  ghost predicate Advances<T>(p: seq<Token> -> ParseResult<T>) {
    forall toks :: p(toks).Ok? ==> |p(toks).value.rest| < |toks|
  }

  /** `ParseBuffer::parse_terminated`: the whole of `toks` (the inside of a
      group) is a list of `p`s separated by `sep`, a trailing separator
      allowed, the empty list included. */
  function ParseTerminated<T>(p: seq<Token> -> ParseResult<T>, sep: string, toks: seq<Token>)
    : (r: Result<seq<T>, SyntaxError>)
    requires Advances(p)
    ensures toks == [] ==> r == Ok([])
    ensures r.Ok? && toks != [] ==> 0 < |r.value| <= |toks|
    decreases |toks|
  {
    if |toks| == 0 then Ok([])
    else
      var first :- p(toks);
      if |first.rest| == 0 then Ok([first.value])
      else if first.rest[0] != Punct(sep) then Err(SyntaxError("expected `" + sep + "`", first.rest))
      else
        var others :- ParseTerminated(p, sep, first.rest[1..]);
        Ok([first.value] + others)
  }
}
