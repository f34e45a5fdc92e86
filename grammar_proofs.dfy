/** Round trips for the grammar: writing a tree out in the surface syntax
    and parsing it back yields the same tree, from attributes and types up
    to a whole macro input. */
module GrammarProofs {
  import opened Results
  import opened Tokens
  import opened Syn
  import opened Ast
  import opened Grammar

  /** `#[body]` in front of parsed attributes adds one attribute. */
  lemma AttrStep(toks: seq<Token>, attr: Attribute, more: seq<Attribute>, rest: seq<Token>)
    requires |toks| >= 2 && toks[0] == Punct("#") && toks[1] == Group(Bracket, attr.body)
    requires ParseOuterAttrs(toks[2..]) == Ok(Parsed(more, rest))
    ensures ParseOuterAttrs(toks) == Ok(Parsed([attr] + more, rest))
  {
  }

  /** Tokens that do not start with `#` hold no attribute. */
  lemma AttrsNone(rest: seq<Token>)
    requires rest == [] || rest[0] != Punct("#")
    ensures ParseOuterAttrs(rest) == Ok(Parsed([], rest))
  {
  }

  /** The tokens of a non-empty attribute list split after the first attribute. */
  lemma AttrsTokensSplit(attrs: seq<Attribute>, rest: seq<Token>)
    requires |attrs| > 0
    ensures var toks := AttrsTokens(attrs) + rest;
      |toks| >= 2 && toks[0] == Punct("#") && toks[1] == Group(Bracket, attrs[0].body)
      && toks[2..] == AttrsTokens(attrs[1..]) + rest
  {
    var h, t := AttrTokens(attrs[0]), AttrsTokens(attrs[1..]);
    assert AttrsTokens(attrs) == h + t;
    DropPair(h, t, rest);
  }

  /** Dropping a two-element head from a concatenation leaves the tail. */
  lemma DropPair<T>(h: seq<T>, t: seq<T>, rest: seq<T>)
    requires |h| == 2
    ensures var s := (h + t) + rest; |s| >= 2 && s[0] == h[0] && s[1] == h[1] && s[2..] == t + rest
  {
    assert (h + t) + rest == h + (t + rest);
  }

  lemma {:induction false} AttrsRoundTrip(attrs: seq<Attribute>, rest: seq<Token>)
    requires rest == [] || rest[0] != Punct("#")
    ensures ParseOuterAttrs(AttrsTokens(attrs) + rest) == Ok(Parsed(attrs, rest))
    decreases |attrs|
  {
    if |attrs| == 0 {
      assert AttrsTokens(attrs) + rest == rest;
      AttrsNone(rest);
    } else {
      AttrsTokensSplit(attrs, rest);
      AttrsRoundTrip(attrs[1..], rest);
      AttrStep(AttrsTokens(attrs) + rest, attrs[0], attrs[1..], rest);
      assert [attrs[0]] + attrs[1..] == attrs;
    }
  }

  /** A path of several segments is written as its first segment, `::`,
      then the rest of the path. */
  lemma PathTokensSplit(segs: seq<string>)
    requires |segs| > 1
    ensures TypeTokens(Path(segs)) == [Ident(segs[0]), Punct("::")] + TypeTokens(Path(segs[1..]))
  {
  }

  /** `::seg` followed by a parsed tail extends that tail by `seg`. */
  lemma PathTailStep(tail: seq<Token>, seg: string, more: seq<string>, rest: seq<Token>)
    requires |tail| >= 2 && tail[0] == Punct("::") && tail[1] == Ident(seg)
    requires ParsePathTail(tail[2..]) == Ok(Parsed(more, rest))
    ensures ParsePathTail(tail) == Ok(Parsed([seg] + more, rest))
  {
  }

  /** A written-out path starts with its first segment and its `::`-tail
      parses back to the other segments. */
  lemma {:induction false} PathRoundTrip(segs: seq<string>, rest: seq<Token>)
    requires |segs| > 0
    requires rest == [] || rest[0] != Punct("::")
    ensures (TypeTokens(Path(segs)) + rest)[0] == Ident(segs[0])
    ensures ParsePathTail((TypeTokens(Path(segs)) + rest)[1..]) == Ok(Parsed(segs[1..], rest))
    decreases |segs|
  {
    var toks := TypeTokens(Path(segs)) + rest;
    if |segs| == 1 {
      assert TypeTokens(Path(segs)) == [Ident(segs[0])];
      assert toks[1..] == rest;
    } else {
      var inner := TypeTokens(Path(segs[1..])) + rest;
      PathTokensSplit(segs);
      assert toks == [Ident(segs[0]), Punct("::")] + inner;
      PathRoundTrip(segs[1..], rest);
      var tail := toks[1..];
      assert tail == [Punct("::")] + inner;
      assert tail[2..] == inner[1..];
      PathTailStep(tail, segs[1], segs[2..], rest);
      assert [segs[1]] + segs[2..] == segs[1..];
    }
  }

  lemma {:induction false} TypeRoundTrip(t: Type, rest: seq<Token>)
    requires WfType(t)
    requires rest == [] || rest[0] != Punct("::")
    ensures ParseType(TypeTokens(t) + rest) == Ok(Parsed(t, rest))
  {
    var toks := TypeTokens(t) + rest;
    match t
    case Path(segs) =>
      PathRoundTrip(segs, rest);
      assert [segs[0]] + segs[1..] == segs;
    case Ref(inner) =>
      assert toks == [Punct("&")] + (TypeTokens(inner) + rest);
      assert toks[1..] == TypeTokens(inner) + rest;
      TypeRoundTrip(inner, rest);
    case Grouped(d, body) =>
      assert toks == [Group(d, body)] + rest;
      assert toks[1..] == rest;
  }

  /** What a well-formed type is written as never starts an attribute. */
  lemma {:induction false} TypeTokensStart(t: Type)
    requires WfType(t)
    ensures |TypeTokens(t)| > 0 && TypeTokens(t)[0] != Punct("#")
  {
    match t
    case Path(segs) =>
      if |segs| > 1 {
        assert TypeTokens(t) == [Ident(segs[0])] + [Punct("::")] + TypeTokens(Path(segs[1..]));
      }
    case Ref(_) =>
    case Grouped(_, _) =>
  }

  lemma NamedFieldRoundTrip(f: Field, rest: seq<Token>)
    requires WfField(f)
    requires rest == [] || rest[0] == Punct(",")
    ensures ParseNamedField(FieldTokens(f) + rest) == Ok(Parsed(f, rest))
  {
    var afterAttrs := [Ident(f.name), Punct(":")] + (TypeTokens(f.ty) + rest);
    assert FieldTokens(f) + rest == AttrsTokens(f.attrs) + afterAttrs;
    AttrsRoundTrip(f.attrs, afterAttrs);
    assert afterAttrs[1..][1..] == TypeTokens(f.ty) + rest;
    TypeRoundTrip(f.ty, rest);
  }

  lemma UnnamedFieldRoundTrip(f: UnnamedField, rest: seq<Token>)
    requires WfUnnamedField(f)
    requires rest == [] || rest[0] == Punct(",")
    ensures ParseUnnamedField(UnnamedFieldTokens(f) + rest) == Ok(Parsed(f, rest))
  {
    var afterAttrs := TypeTokens(f.ty) + rest;
    assert UnnamedFieldTokens(f) + rest == AttrsTokens(f.attrs) + afterAttrs;
    TypeTokensStart(f.ty);
    AttrsRoundTrip(f.attrs, afterAttrs);
    TypeRoundTrip(f.ty, rest);
  }

  lemma FnArgRoundTrip(a: FnArg, rest: seq<Token>)
    requires WfFnArg(a)
    requires rest == [] || rest[0] == Punct(",")
    ensures ParseFnArg(FnArgTokens(a) + rest) == Ok(Parsed(a, rest))
  {
    var toks := FnArgTokens(a) + rest;
    match a
    case Receiver =>
      assert toks[2..] == rest;
    case Typed(n, ty) =>
      assert toks == [Ident(n), Punct(":")] + (TypeTokens(ty) + rest);
      assert toks[1..][1..] == TypeTokens(ty) + rest;
      TypeRoundTrip(ty, rest);
  }

  /** `parse_terminated` reads back any list written with separators, as
      long as each element reads back when followed by a separator or by
      nothing. */
  lemma {:induction false} TerminatedRoundTrip<T>(
    p: seq<Token> -> ParseResult<T>, render: T -> seq<Token>, wf: T -> bool, sep: string, xs: seq<T>)
    requires Advances(p)
    requires forall x, rest :: wf(x) && (rest == [] || rest[0] == Punct(sep))
               ==> p(render(x) + rest) == Ok(Parsed(x, rest))
    requires forall i :: 0 <= i < |xs| ==> wf(xs[i])
    ensures ParseTerminated(p, sep, JoinedBy(render, Punct(sep), xs)) == Ok(xs)
    decreases |xs|
  {
    if |xs| == 0 {
    } else if |xs| == 1 {
      assert render(xs[0]) + [] == render(xs[0]);
      assert p(render(xs[0]) + []) == Ok(Parsed(xs[0], []));
      assert |render(xs[0])| > 0;
      assert JoinedBy(render, Punct(sep), xs) == render(xs[0]);
      assert [xs[0]] == xs;
    } else {
      var tail := JoinedBy(render, Punct(sep), xs[1..]);
      var after := [Punct(sep)] + tail;
      assert JoinedBy(render, Punct(sep), xs) == render(xs[0]) + after;
      assert p(render(xs[0]) + after) == Ok(Parsed(xs[0], after));
      assert after[1..] == tail;
      TerminatedRoundTrip(p, render, wf, sep, xs[1..]);
      assert [xs[0]] + xs[1..] == xs;
    }
  }

  lemma NamedFieldsRoundTrip(fs: seq<Field>)
    requires forall i :: 0 <= i < |fs| ==> WfField(fs[i])
    ensures ParseTerminated(ParseNamedField, ",", JoinedBy(FieldTokens, Punct(","), fs)) == Ok(fs)
  {
    forall f, rest | WfField(f) && (rest == [] || rest[0] == Punct(","))
      ensures ParseNamedField(FieldTokens(f) + rest) == Ok(Parsed(f, rest))
    {
      NamedFieldRoundTrip(f, rest);
    }
    TerminatedRoundTrip(ParseNamedField, FieldTokens, WfField, ",", fs);
  }

  lemma FieldsRoundTrip(fields: Fields, rest: seq<Token>)
    requires WfFields(fields)
    requires rest == [] || rest[0].Punct?
    ensures ParseFields(FieldsTokens(fields) + rest) == Ok(Parsed(fields, rest))
  {
    var toks := FieldsTokens(fields) + rest;
    match fields
    case Named(fs) =>
      NamedFieldsRoundTrip(fs);
      assert toks[1..] == rest;
    case Unnamed(fs) =>
      forall f, rest' | WfUnnamedField(f) && (rest' == [] || rest'[0] == Punct(","))
        ensures ParseUnnamedField(UnnamedFieldTokens(f) + rest') == Ok(Parsed(f, rest'))
      {
        UnnamedFieldRoundTrip(f, rest');
      }
      TerminatedRoundTrip(ParseUnnamedField, UnnamedFieldTokens, WfUnnamedField, ",", fs);
      assert toks[1..] == rest;
    case Unit =>
      assert toks == rest;
  }

  lemma VariantRoundTrip(v: Variant2, rest: seq<Token>)
    requires WfFields(v.fields)
    requires rest == [] || rest[0].Punct?
    ensures ParseVariant(VariantTokens(v) + rest) == Ok(Parsed(v, rest))
  {
    var afterAttrs := [Ident(v.ident)] + (FieldsTokens(v.fields) + rest);
    assert VariantTokens(v) + rest == AttrsTokens(v.attrs) + afterAttrs;
    AttrsRoundTrip(v.attrs, afterAttrs);
    assert afterAttrs[1..] == FieldsTokens(v.fields) + rest;
    FieldsRoundTrip(v.fields, rest);
  }

  /** Once the variant is read, `=> block` makes the entry's handler. */
  lemma HandlerStep(toks: seq<Token>, v: Variant2, b: Block, rest: seq<Token>)
    requires ParseVariant(toks) == Ok(Parsed(v, [Punct("=>"), BlockToken(b)] + rest))
    ensures ParseCmdHandler(toks) == Ok(Parsed(CmdHandler(v, Some(b)), rest))
  {
    var after := [Punct("=>"), BlockToken(b)] + rest;
    assert ArrowNext(after);
    assert after[1..] == [BlockToken(b)] + rest;
    assert ParseBlock(after[1..]) == Ok(Parsed(b, rest));
  }

  /** A variant followed by `=> block` parses as an entry with that handler. */
  lemma HandlerRoundTrip(v: Variant2, b: Block, rest: seq<Token>)
    requires WfVariant(v)
    requires rest == [] || rest[0] == Punct(",")
    ensures ParseCmdHandler(VariantTokens(v) + ([Punct("=>"), BlockToken(b)] + rest))
              == Ok(Parsed(CmdHandler(v, Some(b)), rest))
  {
    VariantRoundTrip(v, [Punct("=>"), BlockToken(b)] + rest);
    HandlerStep(VariantTokens(v) + ([Punct("=>"), BlockToken(b)] + rest), v, b, rest);
  }

  lemma CmdHandlerRoundTrip(h: CmdHandler, rest: seq<Token>)
    requires WfCmdHandler(h)
    requires rest == [] || rest[0] == Punct(",")
    ensures ParseCmdHandler(CmdHandlerTokens(h) + rest) == Ok(Parsed(h, rest))
  {
    match h.handler
    case None =>
      assert CmdHandlerTokens(h) == VariantTokens(h.variant);
      VariantRoundTrip(h.variant, rest);
    case Some(b) =>
      assert CmdHandlerTokens(h) + rest == VariantTokens(h.variant) + ([Punct("=>"), BlockToken(b)] + rest);
      HandlerRoundTrip(h.variant, b, rest);
  }

  lemma ParserDefRoundTrip(p: ParserDef, tail: seq<Token>)
    requires forall i :: 0 <= i < |p.fields| ==> WfField(p.fields[i])
    ensures ParseParserDef(ParserDefTokens(p) + tail) == Ok(Parsed(p, tail))
  {
    var afterAttrs := [Ident(p.ident), Group(Brace, JoinedBy(FieldTokens, Punct(","), p.fields)), Punct(";")] + tail;
    assert ParserDefTokens(p) + tail == AttrsTokens(p.attrs) + afterAttrs;
    AttrsRoundTrip(p.attrs, afterAttrs);
    NamedFieldsRoundTrip(p.fields);
    assert afterAttrs[1..][1..][1..] == tail;
  }

  lemma FnArgsRoundTrip(args: seq<FnArg>)
    requires forall i :: 0 <= i < |args| ==> WfFnArg(args[i])
    ensures ParseTerminated(ParseFnArg, ",", JoinedBy(FnArgTokens, Punct(","), args)) == Ok(args)
  {
    forall a, rest | WfFnArg(a) && (rest == [] || rest[0] == Punct(","))
      ensures ParseFnArg(FnArgTokens(a) + rest) == Ok(Parsed(a, rest))
    {
      FnArgRoundTrip(a, rest);
    }
    TerminatedRoundTrip(ParseFnArg, FnArgTokens, WfFnArg, ",", args);
  }

  /** `trait_args ( body ) ;` whose body reads as `args`. */
  lemma TraitArgsStep(toks: seq<Token>, body: seq<Token>, args: seq<FnArg>, tail: seq<Token>)
    requires |toks| >= 3 && toks[0] == Ident("trait_args") && toks[1] == Group(Paren, body)
    requires toks[2..] == [Punct(";")] + tail
    requires ParseTerminated(ParseFnArg, ",", body) == Ok(args)
    ensures ParseOptionalTraitArgs(toks) == Ok(Parsed(Some(TraitArgs(args)), tail))
  {
    assert ParseTraitArgs(toks) == Ok(Parsed(TraitArgs(args), tail));
  }

  lemma TraitArgsRoundTrip(ta: TraitArgs, tail: seq<Token>)
    requires forall i :: 0 <= i < |ta.args| ==> WfFnArg(ta.args[i])
    ensures ParseOptionalTraitArgs(TraitArgsTokens(ta) + tail) == Ok(Parsed(Some(ta), tail))
  {
    FnArgsRoundTrip(ta.args);
    var toks := TraitArgsTokens(ta) + tail;
    assert toks[2..] == [Punct(";")] + tail;
    TraitArgsStep(toks, JoinedBy(FnArgTokens, Punct(","), ta.args), ta.args, tail);
  }

  lemma CmdHandlersRoundTrip(cmds: seq<CmdHandler>)
    requires forall i :: 0 <= i < |cmds| ==> WfCmdHandler(cmds[i])
    ensures ParseTerminated(ParseCmdHandler, ",", JoinedBy(CmdHandlerTokens, Punct(","), cmds)) == Ok(cmds)
  {
    forall h, rest | WfCmdHandler(h) && (rest == [] || rest[0] == Punct(","))
      ensures ParseCmdHandler(CmdHandlerTokens(h) + rest) == Ok(Parsed(h, rest))
    {
      CmdHandlerRoundTrip(h, rest);
    }
    TerminatedRoundTrip(ParseCmdHandler, CmdHandlerTokens, WfCmdHandler, ",", cmds);
  }

  /** A `commands { body };` block whose body parses to `cmds`. */
  lemma CommandsStep(toks: seq<Token>, body: seq<Token>, cmds: seq<CmdHandler>)
    requires |toks| == 3 && toks[0] == Ident("commands") && toks[1] == Group(Brace, body)
    requires toks[2..] == [Punct(";")]
    requires ParseTerminated(ParseCmdHandler, ",", body) == Ok(cmds)
    ensures ParseCommands(toks) == Ok(Parsed(Commands(cmds), []))
  {
  }

  lemma CommandsRoundTrip(c: Commands)
    requires forall i :: 0 <= i < |c.commands| ==> WfCmdHandler(c.commands[i])
    ensures ParseCommands(CommandsTokens(c)) == Ok(Parsed(c, []))
  {
    var toks := CommandsTokens(c);
    var body := JoinedBy(CmdHandlerTokens, Punct(","), c.commands);
    CmdHandlersRoundTrip(c.commands);
    assert toks[2..] == [Punct(";")];
    CommandsStep(toks, body, c.commands);
  }

  /** Writing a macro input out and parsing it back gives the same input. */
  lemma InputRoundTrip(d: ClapArgsWithSubs)
    requires WfInput(d)
    ensures ParseInput(InputTokens(d)) == Ok(d)
  {
    var traitToks := match d.traitArgs case Some(ta) => TraitArgsTokens(ta) case None => [];
    var tail := traitToks + CommandsTokens(d.commands);
    assert InputTokens(d) == ParserDefTokens(d.parser) + tail;
    ParserDefRoundTrip(d.parser, tail);
    match d.traitArgs {
      case Some(ta) =>
        TraitArgsRoundTrip(ta, CommandsTokens(d.commands));
      case None =>
        assert tail == CommandsTokens(d.commands);
    }
    CommandsRoundTrip(d.commands);
  }

  // ---------------------------------------------------------------------------
  // Everything the grammar produces is well formed
  // ---------------------------------------------------------------------------

  lemma {:induction false} TerminatedWf<T>(
    p: seq<Token> -> ParseResult<T>, wf: T -> bool, sep: string, toks: seq<Token>)
    requires Advances(p)
    requires forall t :: p(t).Ok? ==> wf(p(t).value.value)
    ensures ParseTerminated(p, sep, toks).Ok? ==>
              forall i :: 0 <= i < |ParseTerminated(p, sep, toks).value| ==> wf(ParseTerminated(p, sep, toks).value[i])
    decreases |toks|
  {
    if |toks| > 0 && p(toks).Ok? {
      var first := p(toks).value;
      if |first.rest| > 0 && first.rest[0] == Punct(sep) {
        TerminatedWf(p, wf, sep, first.rest[1..]);
      }
    }
  }

  lemma ParseFieldsWf(toks: seq<Token>)
    ensures ParseFields(toks).Ok? ==> WfFields(ParseFields(toks).value.value)
  {
    if HeadIs(toks, Brace) {
      TerminatedWf(ParseNamedField, WfField, ",", toks[0].body);
    } else if HeadIs(toks, Paren) {
      TerminatedWf(ParseUnnamedField, WfUnnamedField, ",", toks[0].body);
    }
  }

  lemma ParseCmdHandlerWf(toks: seq<Token>)
    ensures ParseCmdHandler(toks).Ok? ==> WfCmdHandler(ParseCmdHandler(toks).value.value)
  {
    var attrs := ParseOuterAttrs(toks);
    if attrs.Ok? {
      var ident := ParseIdent(attrs.value.rest);
      if ident.Ok? {
        ParseFieldsWf(ident.value.rest);
      }
    }
  }

  lemma ParseParserDefWf(toks: seq<Token>)
    ensures ParseParserDef(toks).Ok? ==>
              forall i :: 0 <= i < |ParseParserDef(toks).value.value.fields| ==> WfField(ParseParserDef(toks).value.value.fields[i])
  {
    var attrs := ParseOuterAttrs(toks);
    if attrs.Ok? {
      var ident := ParseIdent(attrs.value.rest);
      if ident.Ok? && HeadIs(ident.value.rest, Brace) {
        TerminatedWf(ParseNamedField, WfField, ",", ident.value.rest[0].body);
      }
    }
  }

  lemma ParseOptionalTraitArgsWf(toks: seq<Token>)
    ensures ParseOptionalTraitArgs(toks).Ok? && ParseOptionalTraitArgs(toks).value.value.Some? ==>
              var args := ParseOptionalTraitArgs(toks).value.value.value.args;
              forall i :: 0 <= i < |args| ==> WfFnArg(args[i])
  {
    if PeeksKeyword(toks, "trait_args") && HeadIs(toks[1..], Paren) {
      TerminatedWf(ParseFnArg, WfFnArg, ",", toks[1].body);
    }
  }

  lemma ParseCommandsWf(toks: seq<Token>)
    ensures ParseCommands(toks).Ok? ==>
              var cmds := ParseCommands(toks).value.value.commands;
              forall i :: 0 <= i < |cmds| ==> WfCmdHandler(cmds[i])
  {
    if PeeksKeyword(toks, "commands") && HeadIs(toks[1..], Brace) {
      forall t | ParseCmdHandler(t).Ok? ensures WfCmdHandler(ParseCmdHandler(t).value.value) {
        ParseCmdHandlerWf(t);
      }
      TerminatedWf(ParseCmdHandler, WfCmdHandler, ",", toks[1].body);
    }
  }

  /** The grammar only produces trees the round trip covers. */
  lemma ParsedInputIsWf(toks: seq<Token>)
    ensures ParseInput(toks).Ok? ==> WfInput(ParseInput(toks).value)
  {
    ParseParserDefWf(toks);
    var parser := ParseParserDef(toks);
    if parser.Ok? {
      ParseOptionalTraitArgsWf(parser.value.rest);
      var traitArgs := ParseOptionalTraitArgs(parser.value.rest);
      if traitArgs.Ok? {
        ParseCommandsWf(traitArgs.value.rest);
      }
    }
  }
}
