/** The repository's unit tests and example programs, as concrete inputs. */
module Examples {
  import opened Results
  import opened Tokens
  import opened Syn
  import opened Ast
  import opened Grammar
  import opened Emitter
  import opened GrammarProofs

  /** `Test {};` has no attributes and no fields. */
  lemma ParserDefEmpty()
    ensures ParseParserDef([Ident("Test"), Group(Brace, []), Punct(";")])
              == Ok(Parsed(ParserDef([], "Test", []), []))
  {
  }

  /** `#[test_attr] Test {};` keeps its attribute. */
  lemma ParserDefStructAttrs()
    ensures ParseParserDef([Punct("#"), Group(Bracket, [Ident("test_attr")]), Ident("Test"), Group(Brace, []), Punct(";")])
              == Ok(Parsed(ParserDef([Attribute([Ident("test_attr")])], "Test", []), []))
  {
    var toks := [Punct("#"), Group(Bracket, [Ident("test_attr")]), Ident("Test"), Group(Brace, []), Punct(";")];
    assert ParseOuterAttrs(toks[2..]) == Ok(Parsed([], toks[2..]));
    assert [Attribute(toks[1].body)] + [] == [Attribute([Ident("test_attr")])];
    assert ParseOuterAttrs(toks) == Ok(Parsed([Attribute([Ident("test_attr")])], toks[2..]));
  }

  // ---------------------------------------------------------------------------
  // Parsing steps, each stated over abstract pieces
  // ---------------------------------------------------------------------------

  /** `a::b` as the single unnamed field of a paren group. */
  lemma TwoSegmentPayloadParses(payload: seq<Token>, a: string, b: string)
    requires payload == [Ident(a), Punct("::"), Ident(b)]
    ensures ParseTerminated(ParseUnnamedField, ",", payload) == Ok([UnnamedField([], Path([a, b]))])
  {
    assert ParsePathTail(payload[3..]) == Ok(Parsed([], []));
    assert [b] + [] == [b];
    assert ParsePathTail(payload[1..]) == Ok(Parsed([b], []));
    assert [a] + [b] == [a, b];
    assert ParseType(payload) == Ok(Parsed(Path([a, b]), []));
    assert ParseUnnamedField(payload) == Ok(Parsed(UnnamedField([], Path([a, b])), []));
  }

  /** `attrs name: T,` as the contents of a brace group. */
  lemma OneFieldListParses(body: seq<Token>, attrs: seq<Attribute>, name: string, ty: string)
    requires body == AttrsTokens(attrs) + [Ident(name), Punct(":"), Ident(ty), Punct(",")]
    ensures ParseTerminated(ParseNamedField, ",", body) == Ok([Field(attrs, name, Path([ty]))])
  {
    var f := Field(attrs, name, Path([ty]));
    assert TypeTokens(f.ty) == [Ident(ty)];
    assert body == FieldTokens(f) + [Punct(",")];
    NamedFieldRoundTrip(f, [Punct(",")]);
    assert [Punct(",")][1..] == [];
    assert [f] + [] == [f];
  }

  /** `attrs Name { body };` followed by anything. */
  lemma ParserDefParses(attrs: seq<Attribute>, name: string, body: seq<Token>, fields: seq<Field>, tail: seq<Token>)
    requires ParseTerminated(ParseNamedField, ",", body) == Ok(fields)
    ensures ParseParserDef(AttrsTokens(attrs) + ([Ident(name), Group(Brace, body), Punct(";")] + tail))
              == Ok(Parsed(ParserDef(attrs, name, fields), tail))
  {
    var after := [Ident(name), Group(Brace, body), Punct(";")] + tail;
    AttrsRoundTrip(attrs, after);
    assert after[1..][1..][1..] == tail;
  }

  /** `commands { body };` */
  lemma CommandsParses(body: seq<Token>, entries: seq<CmdHandler>)
    requires ParseTerminated(ParseCmdHandler, ",", body) == Ok(entries)
    ensures ParseCommands([Ident("commands"), Group(Brace, body), Punct(";")]) == Ok(Parsed(Commands(entries), []))
  {
    var toks := [Ident("commands"), Group(Brace, body), Punct(";")];
    assert toks[2..] == [Punct(";")];
    assert ParsePunct(toks[2..], ";") == Ok(Parsed((), []));
  }

  /** `Variant(payload),` as the only entry of a commands block. */
  lemma UnnamedEntryParses(body: seq<Token>, variant: string, payload: seq<Token>, field: UnnamedField)
    requires body == [Ident(variant), Group(Paren, payload), Punct(",")]
    requires ParseTerminated(ParseUnnamedField, ",", payload) == Ok([field])
    ensures ParseTerminated(ParseCmdHandler, ",", body)
              == Ok([CmdHandler(Variant2([], variant, Unnamed([field])), None)])
  {
    var h := CmdHandler(Variant2([], variant, Unnamed([field])), None);
    assert ParseFields(body[1..]) == Ok(Parsed(Unnamed([field]), body[2..]));
    assert ParseVariant(body) == Ok(Parsed(h.variant, body[2..]));
    assert ParseCmdHandler(body) == Ok(Parsed(h, body[2..]));
    assert body[2..][1..] == [];
    assert [h] + [] == [h];
  }

  /** `attrs Name {}; commands { body };` */
  lemma InputParses(attrs: seq<Attribute>, name: string, body: seq<Token>, entries: seq<CmdHandler>)
    requires ParseTerminated(ParseCmdHandler, ",", body) == Ok(entries)
    ensures ParseInput(AttrsTokens(attrs) + ([Ident(name), Group(Brace, []), Punct(";")]
                                               + [Ident("commands"), Group(Brace, body), Punct(";")]))
              == Ok(ClapArgsWithSubs(ParserDef(attrs, name, []), None, Commands(entries)))
  {
    var cmds := [Ident("commands"), Group(Brace, body), Punct(";")];
    ParserDefParses(attrs, name, [], [], cmds);
    assert ParseOptionalTraitArgs(cmds) == Ok(Parsed(None, cmds));
    CommandsParses(body, entries);
  }

  // ---------------------------------------------------------------------------
  // The unit tests of the grammar
  // ---------------------------------------------------------------------------

  /** `Test { test: String, };` accepts the trailing comma. */
  lemma ParserDefFields()
    ensures ParseParserDef([Ident("Test"), Group(Brace, [Ident("test"), Punct(":"), Ident("String"), Punct(",")]), Punct(";")])
              == Ok(Parsed(ParserDef([], "Test", [Field([], "test", Path(["String"]))]), []))
  {
    var body := [Ident("test"), Punct(":"), Ident("String"), Punct(",")];
    assert AttrsTokens([]) + body == body;
    OneFieldListParses(body, [], "test", "String");
    ParserDefParses([], "Test", body, [Field([], "test", Path(["String"]))], []);
    assert AttrsTokens([]) + ([Ident("Test"), Group(Brace, body), Punct(";")] + [])
        == [Ident("Test"), Group(Brace, body), Punct(";")];
  }

  /** `Test { #[field_attr(ff)] test: String, };` keeps the field's attribute. */
  lemma ParserDefFieldAttrs()
    ensures var attr := Attribute([Ident("field_attr"), Group(Paren, [Ident("ff")])]);
      ParseParserDef([Ident("Test"), Group(Brace, AttrTokens(attr) + [Ident("test"), Punct(":"), Ident("String"), Punct(",")]), Punct(";")])
        == Ok(Parsed(ParserDef([], "Test", [Field([attr], "test", Path(["String"]))]), []))
  {
    var attr := Attribute([Ident("field_attr"), Group(Paren, [Ident("ff")])]);
    var body := AttrTokens(attr) + [Ident("test"), Punct(":"), Ident("String"), Punct(",")];
    assert AttrsTokens([attr]) == AttrTokens(attr) + AttrsTokens([]);
    OneFieldListParses(body, [attr], "test", "String");
    ParserDefParses([], "Test", body, [Field([attr], "test", Path(["String"]))], []);
    assert AttrsTokens([]) + ([Ident("Test"), Group(Brace, body), Punct(";")] + [])
        == [Ident("Test"), Group(Brace, body), Punct(";")];
  }

  // ---------------------------------------------------------------------------
  // The example programs
  // ---------------------------------------------------------------------------

  const ChainAttr: Attribute :=
    Attribute([Ident("clap"), Group(Paren, [Ident("name"), Punct("="), Literal("\"chain\"")])])

  const ChainEntry: CmdHandler :=
    CmdHandler(Variant2([], "Foo", Unnamed([UnnamedField([], Path(["foo", "Foo"]))])), None)

  const ChainPayload: seq<Token> := [Ident("foo"), Punct("::"), Ident("Foo")]

  const ChainBody: seq<Token> := [Ident("Foo"), Group(Paren, ChainPayload), Punct(",")]

  /** The nested-command example `#[clap(name = "chain")] Cli {};
      commands { Foo(foo::Foo), };`. */
  const ChainInput: seq<Token> :=
    AttrsTokens([ChainAttr])
      + ([Ident("Cli"), Group(Brace, []), Punct(";")] + [Ident("commands"), Group(Brace, ChainBody), Punct(";")])

  /** The nested-command example parses to one entry without a handler. */
  lemma ChainParses()
    ensures ParseInput(ChainInput) == Ok(ClapArgsWithSubs(ParserDef([ChainAttr], "Cli", []), None, Commands([ChainEntry])))
  {
    TwoSegmentPayloadParses(ChainPayload, "foo", "Foo");
    UnnamedEntryParses(ChainBody, "Foo", ChainPayload, UnnamedField([], Path(["foo", "Foo"])));
    InputParses([ChainAttr], "Cli", ChainBody, [ChainEntry]);
  }

  /** The entry `Foo(foo::Foo)` without a handler delegates to
      `<foo::FooCmd as foo::FooRun>::run(&handler.cmd)`. */
  lemma ChainDelegates(def: ClapArgsWithSubs)
    requires def.commands == Commands([ChainEntry])
    ensures Expand(def).Ok?
    ensures Expand(def).value.impl.arms == [Arm(TuplePat("Foo"), Delegate(["foo", "FooCmd"], ["foo", "FooRun"]))]
  {
    assert "Foo" + "Cmd" == "FooCmd" && "Foo" + "Run" == "FooRun";
    assert ["foo", "Foo"][..1] == ["foo"];
    assert ["foo"] + ["FooCmd"] == ["foo", "FooCmd"];
    assert ["foo"] + ["FooRun"] == ["foo", "FooRun"];
    assert Retarget(["foo", "Foo"], "Foo", "Cmd") == Ok(["foo", "FooCmd"]);
    assert Retarget(["foo", "Foo"], "Foo", "Run") == Ok(["foo", "FooRun"]);
    assert ArmFor(ChainEntry) == Ok(Arm(TuplePat("Foo"), Delegate(["foo", "FooCmd"], ["foo", "FooRun"])));
    assert !Panics(ChainEntry);
  }

  /** `Cmd1 { name: String } => { … }`: the handler is inlined under a
      pattern binding `name`. */
  lemma NamedFieldHandlerInlines(block: Block)
    ensures var h := CmdHandler(Variant2([], "Cmd1", Named([Field([], "name", Path(["String"]))])), Some(block));
      ArmFor(h) == Ok(Arm(StructPat("Cmd1", ["name"]), Inline(block)))
  {
    var v := Variant2([], "Cmd1", Named([Field([], "name", Path(["String"]))]));
    assert ToPat(v).value.fieldNames == ["name"];
  }

  /** An entry `Cmd1 => { … }` with a unit variant makes the expansion
      panic, handler or not. */
  lemma UnitEntryPanics(def: ClapArgsWithSubs, block: Block)
    requires def.commands == Commands([CmdHandler(Variant2([], "Cmd1", Unit), Some(block))])
    ensures Expand(def) == Err(Unimplemented("Cmd1"))
  {
    assert Panics(def.commands.commands[0]);
  }

  /** Leaving out the `;` after the commands block is a syntax error. */
  lemma MissingCommandsTerminatorRejected()
    ensures ParseInput([Ident("Cli"), Group(Brace, []), Punct(";"), Ident("commands"), Group(Brace, [])]).Err?
  {
  }

  /** `Cmd { a: String, b: String } => { … }`: `to_pat` quotes the pattern
      `Cmd {a b}`; the corrected pattern is `Cmd {a, b}`. */
  lemma TwoFieldPattern(block: Block)
    ensures var h := CmdHandler(Variant2([], "Cmd", Named([Field([], "a", Path(["String"])), Field([], "b", Path(["String"]))])), Some(block));
      && ArmFor(h).Ok?
      && PatTokensAsQuoted(ArmFor(h).value.pat) == [Ident("Cmd"), Group(Brace, [Ident("a"), Ident("b")])]
      && PatTokens(ArmFor(h).value.pat) == [Ident("Cmd"), Group(Brace, [Ident("a"), Punct(","), Ident("b")])]
  {
    var h := CmdHandler(Variant2([], "Cmd", Named([Field([], "a", Path(["String"])), Field([], "b", Path(["String"]))])), Some(block));
    var pat := ArmFor(h).value.pat;
    assert pat == StructPat("Cmd", ["a", "b"]);
    assert PatTokensAsQuoted(pat)[1].body == [Ident("a"), Ident("b")];
    assert JoinedBy(SegmentToken, Punct(","), ["a", "b"]) == [Ident("a"), Punct(","), Ident("b")] by {
      assert ["a", "b"][1..] == ["b"];
    }
  }
}
