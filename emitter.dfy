/** The back end of the macro: from a parsed `ClapArgsWithSubs` to five
    coupled items — a type alias, a `…Parser<T>` struct, a `…Run` trait, a
    `…Cmd` enum and an `impl …Run for …Cmd` whose `run` matches every
    command. Items are built as values first and then written out as tokens. */
module Emitter {
  import opened Results
  import opened Tokens
  import opened Syn
  import opened Ast

  // ---------------------------------------------------------------------------
  // Names derived from the declaration identifier
  // ---------------------------------------------------------------------------

  function StructIdent(def: ClapArgsWithSubs): string {
    def.parser.ident + "Parser"
  }

  function SubcmdEnumIdent(def: ClapArgsWithSubs): string {
    def.parser.ident + "Cmd"
  }

  function TraitIdent(def: ClapArgsWithSubs): string {
    def.parser.ident + "Run"
  }

  // ---------------------------------------------------------------------------
  // The generated items, as values
  // ---------------------------------------------------------------------------

  /** `pub type Name = Struct<Enum>;` */
  datatype TypeAlias = TypeAlias(name: string, structIdent: string, enumIdent: string)

  /** `#[derive(Parser, Debug)] attrs pub struct Name<T> where T: Subcommand + Bound
      { #[clap(subcommand)] pub cmd: T, fields }` */
  datatype ParserStruct = ParserStruct(attrs: seq<Attribute>, name: string, traitBound: string, fields: seq<Field>)

  /** `pub trait Name: Debug { fn run(params) -> (); }` */
  datatype DispatchTrait = DispatchTrait(name: string, params: seq<FnArg>)

  /** `#[derive(Subcommand, Debug)] pub enum Name { variants }` */
  datatype SubcmdEnum = SubcmdEnum(name: string, variants: seq<Variant2>)

  /** A match pattern: `V {f1 f2 …}` for named fields, `V(handler)` for unnamed ones. */
  datatype Pat = StructPat(variant: string, fieldNames: seq<string>) | TuplePat(variant: string)

  /** What a match arm does: run the handler block, hand over to a nested
      command enum's `run`, or fail with `unimplemented!()`. */
  datatype ArmBody =
    | Inline(block: Block)
    | Delegate(enumPath: seq<string>, traitPath: seq<string>)
    | Stub

  datatype Arm = Arm(pat: Pat, body: ArmBody)

  /** `#[allow(unused_variables)] impl Trait for Enum { fn run(params) { match &self { Self::arms } } }` */
  datatype SubcmdImpl = SubcmdImpl(traitName: string, enumName: string, params: seq<FnArg>, arms: seq<Arm>)

  datatype Expansion = Expansion(
    alias: TypeAlias,
    parser: ParserStruct,
    dispatch: DispatchTrait,
    subcmds: SubcmdEnum,
    impl: SubcmdImpl)

  /** A panic during expansion, which aborts the macro: `unimplemented!()`
      in `to_pat`, or an `unwrap()` on `None` in `get_impl`. */
  datatype Panic = Unimplemented(variant: string) | UnwrapOnNone(variant: string)

  // ---------------------------------------------------------------------------
  // The emitters
  // ---------------------------------------------------------------------------

  function TypeAliasOf(def: ClapArgsWithSubs): TypeAlias {
    TypeAlias(def.parser.ident, StructIdent(def), SubcmdEnumIdent(def))
  }

  function ParserStructOf(def: ClapArgsWithSubs): ParserStruct {
    ParserStruct(def.parser.attrs, StructIdent(def), TraitIdent(def), def.parser.fields)
  }

  /** The parameters declared in the `trait_args` block, none when it is absent. */
  function DeclaredArgs(def: ClapArgsWithSubs): seq<FnArg> {
    match def.traitArgs
    case Some(ta) => ta.args
    case None => []
  }

  /** The parameter list of `run`. */
  function RunParams(def: ClapArgsWithSubs): seq<FnArg> {
    [Receiver] + DeclaredArgs(def)
  }

  /** `trait_args()`: the declared parameters (or an empty list), with the
      receiver `&self` then inserted in front. */
  method TraitArgsOf(def: ClapArgsWithSubs) returns (args: seq<FnArg>)
    ensures |args| == |DeclaredArgs(def)| + 1
    ensures args[0] == Receiver && args[1..] == DeclaredArgs(def)
    ensures def.traitArgs.None? ==> args == [Receiver]
    ensures args == RunParams(def)
  {
    var receiver := Receiver;
    args := match def.traitArgs
      case Some(ta) => ta.args
      case None => [];
    args := [receiver] + args;
  }

  function DispatchTraitOf(def: ClapArgsWithSubs): DispatchTrait {
    DispatchTrait(TraitIdent(def), RunParams(def))
  }

  /** `Commands::to_variants`: each entry's variant (`get_enum_variant`). */
  function ToVariants(cmds: seq<CmdHandler>): (r: seq<Variant2>)
    ensures |r| == |cmds|
    ensures forall i :: 0 <= i < |cmds| ==> r[i] == cmds[i].variant
  {
    seq(|cmds|, i requires 0 <= i < |cmds| => cmds[i].variant)
  }

  function SubcmdEnumOf(def: ClapArgsWithSubs): SubcmdEnum {
    SubcmdEnum(SubcmdEnumIdent(def), ToVariants(def.commands.commands))
  }

  /** `Variant2::to_pat`: named fields bind every field name, unnamed fields
      bind the single name `handler`, and a unit variant panics. */
  function ToPat(v: Variant2): (r: Result<Pat, Panic>)
    ensures r.Err? <==> v.fields.Unit?
    ensures r.Err? ==> r.error == Unimplemented(v.ident)
    ensures r.Ok? ==> r.value.variant == v.ident
    ensures v.fields.Named? ==>
              && r.Ok? && r.value.StructPat?
              && |r.value.fieldNames| == |v.fields.named|
              && forall i :: 0 <= i < |v.fields.named| ==> r.value.fieldNames[i] == v.fields.named[i].name
    ensures v.fields.Unnamed? ==> r == Ok(TuplePat(v.ident))
  {
    match v.fields
    case Named(fs) => Ok(StructPat(v.ident, seq(|fs|, i requires 0 <= i < |fs| => fs[i].name)))
    case Unnamed(_) => Ok(TuplePat(v.ident))
    case Unit => Err(Unimplemented(v.ident))
  }

  /** `q` is the path `p` with only its last segment replaced by `last`. */
  predicate LastSegmentReplaced(p: seq<string>, q: seq<string>, last: string) {
    |q| == |p| > 0 && q[..|p| - 1] == p[..|p| - 1] && q[|p| - 1] == last
  }

  /** A clone of `path` whose last segment is renamed `variant + suffix`;
      an empty path panics at `last_mut().unwrap()`. */
  function Retarget(path: seq<string>, variant: string, suffix: string): (r: Result<seq<string>, Panic>)
    ensures r.Err? <==> |path| == 0
    ensures r.Err? ==> r.error == UnwrapOnNone(variant)
    ensures r.Ok? ==> LastSegmentReplaced(path, r.value, variant + suffix)
  {
    if |path| == 0 then Err(UnwrapOnNone(variant))
    else Ok(path[..|path| - 1] + [variant + suffix])
  }

  /** The path clone-and-overwrite of `get_impl`, done in place on a copy
      of the segments. */
  method RetargetPath(path: seq<string>, variant: string, suffix: string) returns (r: Result<seq<string>, Panic>)
    ensures r == Retarget(path, variant, suffix)
  {
    var segments := new string[|path|](i requires 0 <= i < |path| => path[i]);
    if segments.Length == 0 {
      return Err(UnwrapOnNone(variant));
    }
    segments[segments.Length - 1] := variant + suffix;
    assert segments[..] == path[..|path| - 1] + [variant + suffix];
    return Ok(segments[..]);
  }

  /** The entry delegates: no handler, unnamed fields, and the first
      unnamed type is a path. */
  predicate Delegates(h: CmdHandler) {
    && h.handler.None?
    && h.variant.fields.Unnamed?
    && |h.variant.fields.unnamed| > 0
    && h.variant.fields.unnamed[0].ty.Path?
  }

  /** The type path a delegating entry carries. */
  function PayloadPath(h: CmdHandler): seq<string>
    requires Delegates(h)
  {
    h.variant.fields.unnamed[0].ty.segments
  }

  /** Expanding the entry panics: a unit variant (whatever its handler), an
      empty `()` without a handler, or a delegation through an empty path. */
  predicate Panics(h: CmdHandler) {
    || h.variant.fields.Unit?
    || (h.handler.None? && h.variant.fields.Unnamed? && |h.variant.fields.unnamed| == 0)
    || (Delegates(h) && |PayloadPath(h)| == 0)
  }

  /** `CmdHandler::get_impl`: the handler block if there is one; otherwise,
      for unnamed fields whose first type is a path, a call of the nested
      `run` through the enum and trait paths derived from the variant's
      identifier; otherwise nothing. */
  function GetImpl(h: CmdHandler): (r: Result<Option<ArmBody>, Panic>)
    ensures h.handler.Some? ==> r == Ok(Some(Inline(h.handler.value)))
    ensures r.Ok? && r.value.Some? && r.value.value.Delegate? ==>
              && Delegates(h)
              && LastSegmentReplaced(PayloadPath(h), r.value.value.enumPath, h.variant.ident + "Cmd")
              && LastSegmentReplaced(PayloadPath(h), r.value.value.traitPath, h.variant.ident + "Run")
    ensures r.Ok? && r.value.None? <==> h.handler.None? && !Delegates(h) && !(h.variant.fields.Unnamed? && |h.variant.fields.unnamed| == 0)
    ensures Delegates(h) && |PayloadPath(h)| > 0 ==> r.Ok? && r.value.Some? && r.value.value.Delegate?
  {
    match h.handler
    case Some(block) => Ok(Some(Inline(block)))
    case None =>
      match h.variant.fields
      case Unnamed(fu) =>
        if |fu| == 0 then Err(UnwrapOnNone(h.variant.ident))
        else if fu[0].ty.Path? then
          var enumPath :- Retarget(fu[0].ty.segments, h.variant.ident, "Cmd");
          match Retarget(fu[0].ty.segments, h.variant.ident, "Run")
          case Ok(traitPath) => Ok(Some(Delegate(enumPath, traitPath)))
          case Err(p) => Err(p)
        else Ok(None)
      case _ => Ok(None)
  }

  /** One match arm of `Commands::impls`: the pattern is computed first (so a
      unit variant panics even when it has a handler), then `get_impl`, and
      a missing implementation becomes the `unimplemented!()` stub. */
  function ArmFor(h: CmdHandler): (r: Result<Arm, Panic>)
    ensures r.Err? <==> Panics(h)
    ensures r.Err? && h.variant.fields.Unit? ==> r.error == Unimplemented(h.variant.ident)
    ensures r.Err? && !h.variant.fields.Unit? ==> r.error == UnwrapOnNone(h.variant.ident)
    ensures r.Ok? ==> r.value.pat.variant == h.variant.ident
    ensures r.Ok? ==> (r.value.body.Inline? <==> h.handler.Some?)
    ensures r.Ok? && h.handler.Some? ==> r.value.body.block == h.handler.value
    ensures r.Ok? ==> (r.value.body.Delegate? <==> Delegates(h))
    ensures r.Ok? ==> (r.value.body.Stub? <==> h.handler.None? && !Delegates(h))
    ensures r.Ok? && r.value.body.Delegate? ==>
              && LastSegmentReplaced(PayloadPath(h), r.value.body.enumPath, h.variant.ident + "Cmd")
              && LastSegmentReplaced(PayloadPath(h), r.value.body.traitPath, h.variant.ident + "Run")
  {
    var pat :- ToPat(h.variant);
    var body :- GetImpl(h);
    match body
    case Some(b) => Ok(Arm(pat, b))
    case None => Ok(Arm(pat, Stub))
  }

  /** `Commands::impls`: one arm per entry, in order; the first entry that
      panics aborts the expansion. */
  function Impls(cmds: seq<CmdHandler>): (r: Result<seq<Arm>, Panic>)
    ensures r.Ok? <==> forall i :: 0 <= i < |cmds| ==> ArmFor(cmds[i]).Ok?
    ensures r.Ok? ==> |r.value| == |cmds| && forall i :: 0 <= i < |cmds| ==> ArmFor(cmds[i]) == Ok(r.value[i])
    ensures r.Err? ==> exists k :: 0 <= k < |cmds| && ArmFor(cmds[k]) == Err(r.error)
                         && forall j :: 0 <= j < k ==> ArmFor(cmds[j]).Ok?
    decreases |cmds|
  {
    if |cmds| == 0 then Ok([])
    else
      var arm :- ArmFor(cmds[0]);
      var arms :- Impls(cmds[1..]);
      Ok([arm] + arms)
  }

  function SubcmdImplOf(def: ClapArgsWithSubs): Result<SubcmdImpl, Panic> {
    var arms :- Impls(def.commands.commands);
    Ok(SubcmdImpl(TraitIdent(def), SubcmdEnumIdent(def), RunParams(def), arms))
  }

  /** The five items refer to each other by the same derived names. */
  predicate CrossReferenced(e: Expansion) {
    && e.alias.structIdent == e.parser.name
    && e.alias.enumIdent == e.subcmds.name
    && e.parser.traitBound == e.dispatch.name
    && e.impl.traitName == e.dispatch.name
    && e.impl.enumName == e.subcmds.name
    && e.impl.params == e.dispatch.params
  }

  /** The whole expansion. It fails exactly when some entry panics, and then
      with the first such entry's panic. */
  function Expand(def: ClapArgsWithSubs): (r: Result<Expansion, Panic>)
    ensures r.Ok? <==> forall i :: 0 <= i < |def.commands.commands| ==> !Panics(def.commands.commands[i])
    ensures r.Err? ==> exists k :: 0 <= k < |def.commands.commands|
                         && ArmFor(def.commands.commands[k]) == Err(r.error)
                         && forall j :: 0 <= j < k ==> !Panics(def.commands.commands[j])
    ensures r.Ok? ==> CrossReferenced(r.value)
    ensures r.Ok? ==>
              && r.value.alias.name == def.parser.ident
              && r.value.parser.name == def.parser.ident + "Parser"
              && r.value.subcmds.name == def.parser.ident + "Cmd"
              && r.value.dispatch.name == def.parser.ident + "Run"
    ensures r.Ok? ==> r.value.dispatch.params == [Receiver] + DeclaredArgs(def)
    ensures r.Ok? ==> r.value.parser.attrs == def.parser.attrs && r.value.parser.fields == def.parser.fields
    ensures r.Ok? ==>
              && |r.value.subcmds.variants| == |def.commands.commands|
              && |r.value.impl.arms| == |def.commands.commands|
              && forall i :: 0 <= i < |def.commands.commands| ==>
                   && r.value.subcmds.variants[i] == def.commands.commands[i].variant
                   && ArmFor(def.commands.commands[i]) == Ok(r.value.impl.arms[i])
  {
    var impl :- SubcmdImplOf(def);
    Ok(Expansion(TypeAliasOf(def), ParserStructOf(def), DispatchTraitOf(def), SubcmdEnumOf(def), impl))
  }

  // ---------------------------------------------------------------------------
  // Writing the items out
  // ---------------------------------------------------------------------------

  /** `::a::b::c` */
  function GlobalPath(segs: seq<string>): seq<Token>
    decreases |segs|
  {
    if |segs| == 0 then [] else [Punct("::"), Ident(segs[0])] + GlobalPath(segs[1..])
  }

  function DeriveAttr(traitPath: seq<string>): seq<Token> {
    [Punct("#"), Group(Bracket, [Ident("derive"), Group(Paren, GlobalPath(traitPath) + [Punct(","), Ident("Debug")])])]
  }

  function TypeAliasTokens(a: TypeAlias): seq<Token> {
    [Ident("pub"), Ident("type"), Ident(a.name), Punct("="),
     Ident(a.structIdent), Punct("<"), Ident(a.enumIdent), Punct(">"), Punct(";")]
  }

  function ParserStructTokens(s: ParserStruct): seq<Token> {
    DeriveAttr(["applause", "clap", "Parser"])
      + AttrsTokens(s.attrs)
      + [Ident("pub"), Ident("struct"), Ident(s.name), Punct("<"), Ident("T"), Punct(">"),
         Ident("where"), Ident("T"), Punct(":")]
      + GlobalPath(["applause", "clap", "Subcommand"])
      + [Punct("+"), Ident(s.traitBound),
         Group(Brace,
           [Punct("#"), Group(Bracket, [Ident("clap"), Group(Paren, [Ident("subcommand")])]),
            Ident("pub"), Ident("cmd"), Punct(":"), Ident("T"), Punct(",")]
           + JoinedBy(FieldTokens, Punct(","), s.fields))]
  }

  function ParamsToken(params: seq<FnArg>): Token {
    Group(Paren, JoinedBy(FnArgTokens, Punct(","), params))
  }

  function DispatchTraitTokens(t: DispatchTrait): seq<Token> {
    [Ident("pub"), Ident("trait"), Ident(t.name), Punct(":")]
      + GlobalPath(["core", "fmt", "Debug"])
      + [Group(Brace, [Ident("fn"), Ident("run"), ParamsToken(t.params), Punct("->"), Group(Paren, []), Punct(";")])]
  }

  function SubcmdEnumBody(e: SubcmdEnum): seq<Token> {
    JoinedBy(VariantTokens, Punct(","), e.variants)
  }

  function SubcmdEnumTokens(e: SubcmdEnum): seq<Token> {
    DeriveAttr(["applause", "clap", "Subcommand"])
      + [Ident("pub"), Ident("enum"), Ident(e.name), Group(Brace, SubcmdEnumBody(e))]
  }

  /** A pattern exactly as `to_pat` quotes it: the field names of a struct
      pattern follow one another with no separator (`V {a b}`), which is not
      a Rust pattern once there are two or more of them. */
  function PatTokensAsQuoted(p: Pat): (r: seq<Token>)
    ensures |r| == 2 && r[0] == Ident(p.variant)
    ensures p.StructPat? ==>
              && r[1].Group? && r[1].delim == Brace
              && |r[1].body| == |p.fieldNames|
              && forall i :: 0 <= i < |p.fieldNames| ==> r[1].body[i] == Ident(p.fieldNames[i])
    ensures p.TuplePat? ==> r[1] == Group(Paren, [Ident("handler")])
  {
    match p
    case StructPat(v, names) => [Ident(v), Group(Brace, seq(|names|, i requires 0 <= i < |names| => Ident(names[i])))]
    case TuplePat(v) => [Ident(v), Group(Paren, [Ident("handler")])]
  }

  /** The corrected pattern, as Rust needs it: the field names of a struct
      pattern are separated by commas (`V {a, b}`); `V(handler)` is unchanged. */
  function PatTokens(p: Pat): (r: seq<Token>)
    ensures |r| == 2 && r[0] == Ident(p.variant)
    ensures p.StructPat? ==> r[1] == Group(Brace, JoinedBy(SegmentToken, Punct(","), p.fieldNames))
    ensures p.TuplePat? ==> r == PatTokensAsQuoted(p)
    ensures p.StructPat? && |p.fieldNames| <= 1 ==> r == PatTokensAsQuoted(p)
  {
    match p
    case StructPat(v, names) =>
      assert |names| <= 1 ==> PatTokensAsQuoted(p)[1].body == JoinedBy(SegmentToken, Punct(","), names) by {
        if |names| == 1 {
          assert PatTokensAsQuoted(p)[1].body == [Ident(names[0])];
        }
      }
      [Ident(v), Group(Brace, JoinedBy(SegmentToken, Punct(","), names))]
    case TuplePat(v) => [Ident(v), Group(Paren, [Ident("handler")])]
  }

  function ArmBodyTokens(b: ArmBody): seq<Token> {
    match b
    case Inline(block) => [BlockToken(block)]
    case Delegate(enumPath, traitPath) =>
      [Punct("<")] + TypeTokens(Path(enumPath)) + [Ident("as")] + TypeTokens(Path(traitPath))
        + [Punct(">"), Punct("::"), Ident("run"),
           Group(Paren, [Punct("&"), Ident("handler"), Punct("."), Ident("cmd")])]
    case Stub =>
      [Group(Brace, [Ident("unimplemented"), Punct("!"), Group(Paren, []), Punct(";")])]
  }

  function ArmTokens(a: Arm): seq<Token> {
    [Ident("Self"), Punct("::")] + PatTokensAsQuoted(a.pat) + [Punct("=>")] + ArmBodyTokens(a.body)
  }

  function SubcmdImplTokens(i: SubcmdImpl): seq<Token> {
    [Punct("#"), Group(Bracket, [Ident("allow"), Group(Paren, [Ident("unused_variables")])]),
     Ident("impl"), Ident(i.traitName), Ident("for"), Ident(i.enumName),
     Group(Brace,
       [Ident("fn"), Ident("run"), ParamsToken(i.params),
        Group(Brace,
          [Ident("match"), Punct("&"), Ident("self"),
           Group(Brace, JoinedBy(ArmTokens, Punct(","), i.arms))])])]
  }

  function ExpansionTokens(e: Expansion): seq<Token> {
    TypeAliasTokens(e.alias)
      + ParserStructTokens(e.parser)
      + DispatchTraitTokens(e.dispatch)
      + SubcmdEnumTokens(e.subcmds)
      + SubcmdImplTokens(e.impl)
  }

  /** `impl ToTokens for ClapArgsWithSubs`: builds the five items in order
      and appends them to the caller's stream; a panic while building the
      impl aborts before anything is appended. */
  method AppendExpansion(def: ClapArgsWithSubs, tokens: TokenStream) returns (outcome: Result<(), Panic>)
    modifies tokens
    ensures outcome.Err? <==> Expand(def).Err?
    ensures outcome.Err? ==> outcome.error == Expand(def).error && tokens.contents == old(tokens.contents)
    ensures outcome.Ok? ==> tokens.contents == old(tokens.contents) + ExpansionTokens(Expand(def).value)
  {
    var typeAlias := TypeAliasOf(def);
    var clapStruct := ParserStructOf(def);
    var traitParams := TraitArgsOf(def);
    var dispatchTrait := DispatchTrait(TraitIdent(def), traitParams);
    var subcmdEnum := SubcmdEnumOf(def);
    var arms := Impls(def.commands.commands);
    if arms.Err? {
      return Err(arms.error);
    }
    var implParams := TraitArgsOf(def);
    var subcmdImpl := SubcmdImpl(TraitIdent(def), SubcmdEnumIdent(def), implParams, arms.value);
    tokens.AppendAll(
      TypeAliasTokens(typeAlias)
      + ParserStructTokens(clapStruct)
      + DispatchTraitTokens(dispatchTrait)
      + SubcmdEnumTokens(subcmdEnum)
      + SubcmdImplTokens(subcmdImpl));
    return Ok(());
  }
}
