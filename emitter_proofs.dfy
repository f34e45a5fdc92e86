/** Properties of the emitter that relate several of its parts, or the
    emitter to the grammar. */
module EmitterProofs {
  import opened Results
  import opened Tokens
  import opened Syn
  import opened Ast
  import opened Grammar
  import opened GrammarProofs
  import opened Emitter

  lemma AppendCancel(a: string, b: string, s: string)
    requires a + s == b + s
    ensures a == b
  {
    assert |a| == |b|;
    assert a == (a + s)[..|a|];
    assert b == (b + s)[..|b|];
  }

  /** The alias, struct, enum and trait names are pairwise distinct. */
  lemma DerivedNamesDistinct(def: ClapArgsWithSubs)
    ensures var n := def.parser.ident;
      && StructIdent(def) != n && SubcmdEnumIdent(def) != n && TraitIdent(def) != n
      && StructIdent(def) != SubcmdEnumIdent(def)
      && StructIdent(def) != TraitIdent(def)
      && SubcmdEnumIdent(def) != TraitIdent(def)
  {
    var n := def.parser.ident;
    assert SubcmdEnumIdent(def)[|n|] == 'C';
    assert TraitIdent(def)[|n|] == 'R';
  }

  /** Each derived name determines the declaration name it came from. */
  lemma DerivedNamesDetermineDeclaration(d1: ClapArgsWithSubs, d2: ClapArgsWithSubs)
    ensures StructIdent(d1) == StructIdent(d2) ==> d1.parser.ident == d2.parser.ident
    ensures SubcmdEnumIdent(d1) == SubcmdEnumIdent(d2) ==> d1.parser.ident == d2.parser.ident
    ensures TraitIdent(d1) == TraitIdent(d2) ==> d1.parser.ident == d2.parser.ident
  {
    if StructIdent(d1) == StructIdent(d2) {
      AppendCancel(d1.parser.ident, d2.parser.ident, "Parser");
    }
    if SubcmdEnumIdent(d1) == SubcmdEnumIdent(d2) {
      AppendCancel(d1.parser.ident, d2.parser.ident, "Cmd");
    }
    if TraitIdent(d1) == TraitIdent(d2) {
      AppendCancel(d1.parser.ident, d2.parser.ident, "Run");
    }
  }

  lemma VariantsRoundTrip(vs: seq<Variant2>)
    requires forall i :: 0 <= i < |vs| ==> WfVariant(vs[i])
    ensures ParseTerminated(ParseVariant, ",", JoinedBy(VariantTokens, Punct(","), vs)) == Ok(vs)
  {
    forall v, rest | WfVariant(v) && (rest == [] || rest[0] == Punct(","))
      ensures ParseVariant(VariantTokens(v) + rest) == Ok(Parsed(v, rest))
    {
      VariantRoundTrip(v, rest);
    }
    TerminatedRoundTrip(ParseVariant, VariantTokens, WfVariant, ",", vs);
  }

  /** The body of the generated enum reads back, entry by entry, as the
      command variants with their attributes: one variant per entry, in
      order, verbatim. */
  lemma EnumBodyReparses(def: ClapArgsWithSubs)
    requires forall i :: 0 <= i < |def.commands.commands| ==> WfCmdHandler(def.commands.commands[i])
    ensures var vs := ParseTerminated(ParseVariant, ",", SubcmdEnumBody(SubcmdEnumOf(def)));
      && vs.Ok? && |vs.value| == |def.commands.commands|
      && forall i :: 0 <= i < |def.commands.commands| ==> vs.value[i] == def.commands.commands[i].variant
  {
    var variants := ToVariants(def.commands.commands);
    assert forall i :: 0 <= i < |variants| ==> WfVariant(variants[i]);
    VariantsRoundTrip(variants);
  }

  /** Changing the `trait_args` block changes the signature of `run` but
      not a single match arm: a delegating arm passes only `&handler.cmd`. */
  lemma ArmsIgnoreTraitArgs(def: ClapArgsWithSubs, ta: Option<TraitArgs>)
    ensures Expand(def.(traitArgs := ta)).Ok? == Expand(def).Ok?
    ensures Expand(def).Ok? ==>
              && Expand(def.(traitArgs := ta)).value.impl.arms == Expand(def).value.impl.arms
              && Expand(def.(traitArgs := ta)).value.dispatch.params[1..] == DeclaredArgs(def.(traitArgs := ta))
  {
  }

  /** A well-formed entry panics exactly when it is a unit variant or `V()`
      without a handler: its delegation path, if any, is never empty. */
  lemma WfEntryPanics(h: CmdHandler)
    requires WfCmdHandler(h)
    ensures Panics(h) <==> h.variant.fields.Unit? || (h.handler.None? && h.variant.fields == Unnamed([]))
  {
    if Delegates(h) {
      assert WfUnnamedField(h.variant.fields.unnamed[0]);
    }
  }

  /** For a parsed input, expansion fails exactly when some entry is a unit
      variant, or is `V()` without a handler. */
  lemma ParsedInputExpansionFails(toks: seq<Token>)
    requires ParseInput(toks).Ok?
    ensures var cmds := ParseInput(toks).value.commands.commands;
      Expand(ParseInput(toks).value).Err? <==>
        exists i :: 0 <= i < |cmds| &&
          (cmds[i].variant.fields.Unit? || (cmds[i].handler.None? && cmds[i].variant.fields == Unnamed([])))
  {
    var d := ParseInput(toks).value;
    ParsedInputIsWf(toks);
    forall i | 0 <= i < |d.commands.commands|
      ensures var c := d.commands.commands[i];
        Panics(c) <==> c.variant.fields.Unit? || (c.handler.None? && c.variant.fields == Unnamed([]))
    {
      WfEntryPanics(d.commands.commands[i]);
    }
  }

  /** A delegating entry reaches the enum and trait that an `applause!`
      declaration generated exactly when the entry's variant is named like
      that declaration: the targets are derived from the variant's name, not
      from the payload type's. The module prefix of the payload path is kept. */
  lemma DelegationReachesNestedItems(h: CmdHandler, nested: ClapArgsWithSubs)
    requires Delegates(h) && |PayloadPath(h)| > 0
    ensures ArmFor(h).Ok? && ArmFor(h).value.body.Delegate?
    ensures var b := ArmFor(h).value.body;
      var n := |PayloadPath(h)|;
      && b.enumPath[..n - 1] == PayloadPath(h)[..n - 1]
      && b.traitPath[..n - 1] == PayloadPath(h)[..n - 1]
      && (b.enumPath[n - 1] == SubcmdEnumIdent(nested) <==> h.variant.ident == nested.parser.ident)
      && (b.traitPath[n - 1] == TraitIdent(nested) <==> h.variant.ident == nested.parser.ident)
  {
    var b := ArmFor(h).value.body;
    var n := |PayloadPath(h)|;
    if b.enumPath[n - 1] == SubcmdEnumIdent(nested) {
      AppendCancel(h.variant.ident, nested.parser.ident, "Cmd");
    }
    if b.traitPath[n - 1] == TraitIdent(nested) {
      AppendCancel(h.variant.ident, nested.parser.ident, "Run");
    }
  }

  // ---------------------------------------------------------------------------
  // Struct patterns: the field list `to_pat` quotes, and the one Rust reads
  // ---------------------------------------------------------------------------

  /** With two or more named fields, the quoted field list `{a b …}` is not a
      comma-separated list of names: reading it as one fails at the second name. */
  lemma {:induction false} QuotedStructPatUnseparated(v: string, names: seq<string>)
    requires |names| >= 2
    ensures ParseTerminated(ParseIdent, ",", PatTokensAsQuoted(StructPat(v, names))[1].body).Err?
  {
    var body := PatTokensAsQuoted(StructPat(v, names))[1].body;
    assert body[0] == Ident(names[0]) && body[1] == Ident(names[1]);
    assert ParseIdent(body) == Ok(Parsed(names[0], body[1..]));
    assert body[1..][0] != Punct(",");
  }

  /** The field list of the corrected struct pattern reads back, separated
      by commas, as exactly the field names in order. */
  lemma StructPatFieldsReparse(v: string, names: seq<string>)
    ensures ParseTerminated(ParseIdent, ",", PatTokens(StructPat(v, names))[1].body) == Ok(names)
  {
    forall x, rest | rest == [] || rest[0] == Punct(",")
      ensures ParseIdent(SegmentToken(x) + rest) == Ok(Parsed(x, rest))
    {
      assert (SegmentToken(x) + rest)[1..] == rest;
    }
    TerminatedRoundTrip(ParseIdent, SegmentToken, (x: string) => true, ",", names);
  }

  /** The struct pattern of an arm binds exactly the variant's field names, in order. */
  lemma ArmPatBindsFields(h: CmdHandler)
    requires ArmFor(h).Ok? && h.variant.fields.Named?
    ensures var r := PatTokens(ArmFor(h).value.pat);
      && r[0] == Ident(h.variant.ident)
      && r[1].delim == Brace
      && ParseTerminated(ParseIdent, ",", r[1].body)
           == Ok(seq(|h.variant.fields.named|, i requires 0 <= i < |h.variant.fields.named| => h.variant.fields.named[i].name))
  {
    var pat := ArmFor(h).value.pat;
    StructPatFieldsReparse(pat.variant, pat.fieldNames);
    assert pat.fieldNames == seq(|h.variant.fields.named|, i requires 0 <= i < |h.variant.fields.named| => h.variant.fields.named[i].name);
  }
}
