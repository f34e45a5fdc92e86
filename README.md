# applause: the `applause!` macro, modelled in Dafny

`applause!` is a procedural macro that turns a compact declaration of a
command-line interface into clap types and dispatch code. A declaration
has three parts:

    #[attrs] Name { shared fields };
    trait_args ( extra run parameters );       // optional
    commands { #[attrs] Variant fields? (=> { handler })?, ... };

From it the macro emits five items:

1. a type alias `Name = NameParser<NameCmd>`;
2. a struct `NameParser<T>` that derives `clap::Parser`, with a `cmd: T` subcommand and the shared fields;
3. a trait `NameRun` with `fn run(&self, extra...)`;
4. an enum `NameCmd` that derives `clap::Subcommand`, with one variant per entry;
5. an `impl NameRun for NameCmd` whose `run` matches on `self`.

Each arm of that `match` is chosen by one policy:
- the handler block, when the entry has one;
- otherwise, for a tuple variant whose first type is a path `a::b::T`, a call `<a::b::VariantCmd as a::b::VariantRun>::run(&handler.cmd)` into a nested declaration;
- otherwise an `unimplemented!()` stub.

The model covers both halves of the macro. The parser is `ParserDef`, `TraitArgs`, `Commands`, `CmdHandler<Variant2>`, `parse_fields` and `ClapArgsWithSubs`, together with the syn parsers they call. The emitter is `to_pat`, `get_enum_variant`, `get_impl`, `to_variants`, `impls`, the name derivations, `trait_args`, the five item builders and both `to_tokens` impls.

Modules:
- `Results`: `Option` and `Result`.
- `Tokens`: token trees, and the growing `TokenStream` that `to_tokens` writes into, as a class.
- `Syn`: the syn values the grammar uses (attributes, types, named and unnamed fields, fn arguments, blocks) with their parsers and token renderings. `parse_terminated` is one generic function.
- `Ast`: the macro's own AST, and `impl ToTokens for Variant2`.
- `Grammar`: total parsers returning `Result`, the surface syntax written back out, and the well-formedness predicates describing what the parsers can produce.
- `GrammarProofs`: parse-after-render round trips, from each syn value up to the whole input, plus the proof that every parsed input is well formed.
- `Emitter`: the derived names, the five items as data, the dispatch policy with its two panics, and the rendering of the items as tokens.
- `EmitterProofs`: properties that relate several emitter parts, or the emitter to the grammar.
- `Examples`: the unit tests of `clap_args.rs` and the `chain` example program, as lemmas about concrete inputs.

Behaviour worth knowing:
- A delegating arm passes only `&handler.cmd`. It never forwards the parameters declared in `trait_args`.
- A tuple variant with several types is accepted, and delegation looks only at its first type.
- `Variant()` without a handler panics (`first().unwrap()` on an empty list).
- A unit variant panics in `to_pat` even when it has a handler.
- `to_pat` quotes a struct pattern's field names with no separator between them (`V {a b}`, from `#(#field_idents)*`). With two or more fields that is not a Rust pattern. The model records this under "## Findings".

## Model

| member | source | states |
|---|---|---|
| Syn.ParseIdent | src/proc-macros/clap_args.rs:23 | succeeds exactly when the next token is an identifier, and consumes just that token |
| Syn.ParsePunct | src/proc-macros/clap_args.rs:26 | succeeds exactly when the next token is the given punctuation, and consumes just that token |
| Syn.ParseOuterAttrs | src/proc-macros/clap_args.rs:21-22 | `Attribute::parse_outer`: leaves a suffix of its input that does not start with `#` |
| Syn.ParsePathTail | src/proc-macros/clap_args.rs:151-152 | the `::seg` continuations of a type path leave a suffix of the input |
| Syn.ParseType | src/proc-macros/clap_args.rs:151-154 | a type consumes at least one token, and what it yields is well formed (a path has at least one segment) |
| Syn.ParseNamedField | src/proc-macros/clap_args.rs:30 | `Field::parse_named` consumes at least one token and yields a well-formed field |
| Syn.ParseUnnamedField | src/proc-macros/clap_args.rs:107-108 | an unnamed field consumes at least one token and yields a well-formed field |
| Syn.ParseFnArg | src/proc-macros/clap_args.rs:42 | `FnArg::parse` (`&self` or `name: ty`) consumes at least one token and yields a well-formed argument |
| Syn.ParseBlock | src/proc-macros/clap_args.rs:64-66 | succeeds exactly on a brace group, kept verbatim as the block |
| Syn.ParseTerminated | src/proc-macros/clap_args.rs:105 | `parse_terminated`: an empty group is the empty list; a non-empty group yields at least one element and no more elements than it has tokens |
| Ast.AppendVariant | src/proc-macros/clap_args.rs:86-97 | `to_tokens` appends the attributes, the identifier and the fields to the stream and changes nothing else |
| Grammar.ParseFields | src/proc-macros/clap_args.rs:101-112 | named fields exactly when a brace group comes next, unnamed exactly when a paren group does; otherwise Unit, consuming nothing |
| Grammar.ParseVariant | src/proc-macros/clap_args.rs:77-84 | a variant consumes at least one token and leaves a suffix |
| Grammar.ParseCmdHandler | src/proc-macros/clap_args.rs:58-67 | the entry's variant is the parsed variant, and it has a handler exactly when `=>` follows the variant |
| Grammar.ParseParserDef | src/proc-macros/clap_args.rs:19-32 | the declaration's last consumed token is the `;` terminator |
| Grammar.ParseTraitArgs | src/proc-macros/clap_args.rs:34-44 | the block starts with the keyword `trait_args` and ends with `;` |
| Grammar.ParseCommands | src/proc-macros/clap_args.rs:46-56 | the block starts with the keyword `commands` and ends with `;` |
| Grammar.ParseOptionalTraitArgs | src/proc-macros/clap_args.rs:185-186 | a `trait_args` block is parsed exactly when its keyword is peeked; otherwise nothing is consumed |
| Grammar.ParseInput | src/proc-macros/clap_args.rs:182-188 | an accepted input ends with `;` |
| GrammarProofs.AttrsRoundTrip | src/proc-macros/clap_args.rs:21-22 | written-out attributes parse back to themselves, whatever follows that does not start with `#` |
| GrammarProofs.PathRoundTrip | src/proc-macros/clap_args.rs:151-152 | a written-out path's continuation segments parse back to themselves |
| GrammarProofs.TypeRoundTrip | src/proc-macros/clap_args.rs:151-154 | a well-formed type parses back from its tokens |
| GrammarProofs.NamedFieldRoundTrip | src/proc-macros/clap_args.rs:30 | a well-formed named field parses back from its tokens |
| GrammarProofs.UnnamedFieldRoundTrip | src/proc-macros/clap_args.rs:107-108 | a well-formed unnamed field parses back from its tokens |
| GrammarProofs.FnArgRoundTrip | src/proc-macros/clap_args.rs:42 | a well-formed fn argument parses back from its tokens |
| GrammarProofs.TerminatedRoundTrip | src/proc-macros/clap_args.rs:105 | for any element parser that round-trips, the comma-joined list parses back to the same list |
| GrammarProofs.NamedFieldsRoundTrip | src/proc-macros/clap_args.rs:29-31 | a list of named fields parses back from its comma-joined tokens |
| GrammarProofs.FieldsRoundTrip | src/proc-macros/clap_args.rs:101-112 | named, unnamed and unit field shapes parse back from their tokens |
| GrammarProofs.VariantRoundTrip | src/proc-macros/clap_args.rs:77-97 | a well-formed variant parses back from what its `to_tokens` writes |
| GrammarProofs.HandlerRoundTrip | src/proc-macros/clap_args.rs:64-66 | a variant followed by `=> block` parses as an entry whose handler is that block |
| GrammarProofs.CmdHandlerRoundTrip | src/proc-macros/clap_args.rs:58-67 | an entry, with or without `=> block`, parses back from its tokens |
| GrammarProofs.ParserDefRoundTrip | src/proc-macros/clap_args.rs:19-32 | a declaration parses back and leaves exactly what follows it |
| GrammarProofs.FnArgsRoundTrip | src/proc-macros/clap_args.rs:41-43 | well-formed fn arguments, comma-joined, parse back to the same arguments in order |
| GrammarProofs.TraitArgsRoundTrip | src/proc-macros/clap_args.rs:34-44 | a `trait_args` block parses back as `Some` and leaves exactly what follows it |
| GrammarProofs.CmdHandlersRoundTrip | src/proc-macros/clap_args.rs:53-55 | well-formed entries, comma-joined, parse back to the same entries in order |
| GrammarProofs.CommandsRoundTrip | src/proc-macros/clap_args.rs:46-56 | a `commands` block parses back to its entries, in order |
| GrammarProofs.InputRoundTrip | src/proc-macros/clap_args.rs:182-188 | every well-formed macro input parses back from its surface syntax |
| GrammarProofs.TerminatedWf | src/proc-macros/clap_args.rs:105 | a terminated list of well-formed-yielding parsers yields only well-formed elements |
| GrammarProofs.ParseFieldsWf | src/proc-macros/clap_args.rs:101-112 | parsed fields are well formed |
| GrammarProofs.ParseCmdHandlerWf | src/proc-macros/clap_args.rs:58-67 | a parsed entry is well formed |
| GrammarProofs.ParseParserDefWf | src/proc-macros/clap_args.rs:19-32 | the fields of a parsed declaration are well formed |
| GrammarProofs.ParseOptionalTraitArgsWf | src/proc-macros/clap_args.rs:34-44 | the parameters of a parsed `trait_args` block are well formed |
| GrammarProofs.ParseCommandsWf | src/proc-macros/clap_args.rs:46-56 | every parsed entry is well formed |
| GrammarProofs.ParsedInputIsWf | src/proc-macros/clap_args.rs:182-188 | every accepted input is well formed, so the parser's image is exactly what the round trip covers |
| Emitter.TraitArgsOf | src/proc-macros/clap_args.rs:275-288 | `run`'s parameters are `&self` followed by the declared parameters in order, or just `&self` without a `trait_args` block |
| Emitter.ToVariants | src/proc-macros/clap_args.rs:211-215 | one enum variant per entry, in order, each the entry's variant verbatim |
| Emitter.ToPat | src/proc-macros/clap_args.rs:114-131 | a unit variant panics with `unimplemented!`; named fields bind every field name in order; unnamed fields bind `handler` |
| Emitter.Retarget | src/proc-macros/clap_args.rs:159-166 | the clone keeps every segment but the last, which becomes the variant name plus the suffix; an empty path panics |
| Emitter.RetargetPath | src/proc-macros/clap_args.rs:159-166 | the in-place overwrite of the last segment of a copied path computes `Retarget` |
| Emitter.GetImpl | src/proc-macros/clap_args.rs:141-179 | a handler block is used as is; a delegation happens exactly for a handler-less tuple variant whose first type is a non-empty path, with both targets retargeted from the variant's name; nothing otherwise |
| Emitter.ArmFor | src/proc-macros/clap_args.rs:217-232 | an arm fails exactly when the entry panics, and with which panic; otherwise it is inlined exactly when there is a handler, delegates exactly when `Delegates` holds, and is a stub otherwise |
| Emitter.Impls | src/proc-macros/clap_args.rs:217-232 | one arm per entry in order when no entry panics; otherwise the panic of the first entry that does |
| Emitter.Expand | src/proc-macros/clap_args.rs:235-330 | fails exactly when some entry panics; otherwise the derived names are `Name`, `NameParser`, `NameCmd` and `NameRun`, the items refer to one another consistently, attributes and fields are forwarded, and the variants and arms follow the entries in order |
| Emitter.StructIdent | src/proc-macros/clap_args.rs:236-238 | `struct_ident`: defined by its body; its properties are stated by `Emitter.Expand` and `EmitterProofs.DerivedNamesDistinct` |
| Emitter.SubcmdEnumIdent | src/proc-macros/clap_args.rs:240-242 | `subcmd_enum_ident`: defined by its body; its properties are stated by `Emitter.Expand` and `EmitterProofs.DerivedNamesDistinct` |
| Emitter.TraitIdent | src/proc-macros/clap_args.rs:244-246 | `trait_ident`: defined by its body; its properties are stated by `Emitter.Expand` and `EmitterProofs.DerivedNamesDistinct` |
| Emitter.TypeAliasOf | src/proc-macros/clap_args.rs:265-273 | `type_alias` as a value: defined by its body; its properties are stated by `Emitter.Expand` |
| Emitter.ParserStructOf | src/proc-macros/clap_args.rs:248-263 | `parser_struct` as a value: defined by its body; its properties are stated by `Emitter.Expand` |
| Emitter.DispatchTraitOf | src/proc-macros/clap_args.rs:290-298 | `dispatch_trait` as a value: defined by its body; its parameters are stated by `Emitter.TraitArgsOf` and `Emitter.Expand` |
| Emitter.SubcmdEnumOf | src/proc-macros/clap_args.rs:300-310 | `subcmd_enum` as a value: defined by its body; its properties are stated by `Emitter.Expand` and `EmitterProofs.EnumBodyReparses` |
| Emitter.SubcmdImplOf | src/proc-macros/clap_args.rs:312-330 | `subcmd_impl` as a value: defined by its body; its properties are stated by `Emitter.Impls` and `Emitter.Expand` |
| Emitter.TypeAliasTokens | src/proc-macros/clap_args.rs:270-272 | the `quote!` of `type_alias`: defined by its body; appended by `Emitter.AppendExpansion` |
| Emitter.ParserStructTokens | src/proc-macros/clap_args.rs:253-262 | the `quote!` of `parser_struct`, fields comma-joined: defined by its body; appended by `Emitter.AppendExpansion` |
| Emitter.DispatchTraitTokens | src/proc-macros/clap_args.rs:293-297 | the `quote!` of `dispatch_trait`: defined by its body; appended by `Emitter.AppendExpansion` |
| Emitter.SubcmdEnumTokens | src/proc-macros/clap_args.rs:304-309 | the `quote!` of `subcmd_enum`, variants comma-joined: defined by its body; its body is read back by `EmitterProofs.EnumBodyReparses` |
| Emitter.SubcmdImplTokens | src/proc-macros/clap_args.rs:318-329 | the `quote!` of `subcmd_impl`, arms `Self::…` comma-joined: defined by its body; appended by `Emitter.AppendExpansion` |
| Emitter.ArmTokens | src/proc-macros/clap_args.rs:217-232 | the `quote!` of one arm of `impls`, `pattern => body`, with the pattern as `to_pat` quotes it (`Emitter.PatTokensAsQuoted`): defined by its body; which body is chosen is stated by `Emitter.ArmFor` |
| Emitter.ArmBodyTokens | src/proc-macros/clap_args.rs:141-179 | the handler block, the `<Enum as Trait>::run(&handler.cmd)` call, or the `{unimplemented!();}` stub of line 227: defined by its body; which one is chosen is stated by `Emitter.ArmFor` |
| Emitter.ExpansionTokens | src/proc-macros/clap_args.rs:198-207 | the five items written out in source order: defined by its body; appended by `Emitter.AppendExpansion` |
| Ast.VariantTokens | src/proc-macros/clap_args.rs:92-95 | the `quote!` of `impl ToTokens for Variant2`: defined by its body; appended by `Ast.AppendVariant` and read back by `GrammarProofs.VariantRoundTrip` |
| Emitter.PatTokensAsQuoted | src/proc-macros/clap_args.rs:119-125 | the pattern as `to_pat` quotes it, and as every arm writes it: the variant's identifier, then the field names in order with no separator, or `(handler)` |
| Emitter.PatTokens | src/proc-macros/clap_args.rs:119-125 | the corrected pattern: the variant's identifier, then the field names separated by commas, or `(handler)`; identical to the quoted form when there is at most one field |
| Emitter.AppendExpansion | src/proc-macros/clap_args.rs:190-208 | `to_tokens` appends the five items in order, or panics before appending anything |
| EmitterProofs.QuotedStructPatUnseparated | src/proc-macros/clap_args.rs:119-122 | with two or more fields, the quoted field list does not read as a comma-separated list of names |
| EmitterProofs.StructPatFieldsReparse | src/proc-macros/clap_args.rs:119-122 | the corrected field list reads back, comma-separated, as exactly the field names in order |
| EmitterProofs.ArmPatBindsFields | src/proc-macros/clap_args.rs:217-232 | the corrected pattern of a named-field entry's arm starts with the variant's identifier and binds exactly its field names, in order |
| EmitterProofs.DerivedNamesDistinct | src/proc-macros/clap_args.rs:236-246 | the alias, struct, enum and trait names are pairwise distinct |
| EmitterProofs.DerivedNamesDetermineDeclaration | src/proc-macros/clap_args.rs:236-246 | each derived name determines the declaration's name |
| EmitterProofs.VariantsRoundTrip | src/proc-macros/clap_args.rs:300-310 | comma-joined variants parse back to the same variants |
| EmitterProofs.EnumBodyReparses | src/proc-macros/clap_args.rs:300-310 | the generated enum's body reads back as exactly the entries' variants, attributes included, in order |
| EmitterProofs.ArmsIgnoreTraitArgs | src/proc-macros/clap_args.rs:147-171 | changing the `trait_args` block changes `run`'s parameters but no match arm |
| EmitterProofs.WfEntryPanics | src/proc-macros/clap_args.rs:115-151 | a well-formed entry panics exactly when it is a unit variant or `V()` without a handler |
| EmitterProofs.ParsedInputExpansionFails | src/proc-macros/clap_args.rs:115-151 | for an accepted input, expansion panics exactly when some entry is a unit variant or `V()` without a handler |
| EmitterProofs.DelegationReachesNestedItems | src/proc-macros/clap_args.rs:147-171 | a delegating arm keeps the payload's module prefix, and targets a declaration's enum and trait exactly when the variant has that declaration's name |
| Examples.ParserDefEmpty | src/proc-macros/clap_args.rs:340-355 | `Test {};` has no attributes and no fields |
| Examples.ParserDefStructAttrs | src/proc-macros/clap_args.rs:357-376 | `#[test_attr] Test {};` keeps its attribute |
| Examples.ParserDefFields | src/proc-macros/clap_args.rs:378-407 | `Test { test: String, };` accepts the trailing comma |
| Examples.ParserDefFieldAttrs | src/proc-macros/clap_args.rs:409-441 | a field keeps its own attribute |
| Examples.ChainParses | examples/chain/main.rs:4-11 | the `chain` declaration parses to one entry `Foo(foo::Foo)` without a handler |
| Examples.ChainDelegates | examples/chain/main.rs:8-10 | that entry delegates to `<foo::FooCmd as foo::FooRun>::run(&handler.cmd)` |
| Examples.NamedFieldHandlerInlines | examples/simple_with_args.rs:11-14 | `Cmd1 { name: String } => { ... }` inlines its block under a pattern binding `name` |
| Examples.UnitEntryPanics | src/proc-macros/clap_args.rs:128 | a unit entry panics with `unimplemented!` even when it has a handler |
| Examples.TwoFieldPattern | src/proc-macros/clap_args.rs:119-122 | for `Cmd { a: String, b: String }` the quoted pattern is `Cmd {a b}` and the corrected one is `Cmd {a, b}` |
| Examples.MissingCommandsTerminatorRejected | src/proc-macros/clap_args.rs:48-49 | a `commands` block without `;` is a syntax error |

## Left out

- Token granularity: `::`, `=>` and `->` are single `Punct` tokens rather than joint single-character punctuation.
- Spans, hygiene, whitespace, and the text and position of syn's error messages. A syntax error is only a `SyntaxError` value.
- syn's grammar beyond what the macro's inputs use:
  - visibility on fields;
  - generics, lifetimes, `&mut`, and function types;
  - the inner structure of tuple, array and slice types, which are kept as opaque paren or bracket groups;
  - receivers other than `&self`, patterns in fn arguments, and outer attributes on fn arguments;
  - paths with a leading `::`, qualified paths (`<T as Tr>::X`), `dyn` and `impl` trait types, raw pointers and `!`; each of these is a syntax error in the model;
  - rejecting reserved words as identifiers;
  - doc comments, which the lexer turns into attributes before the macro sees them;
  - the statements inside a block, which is kept as an opaque token group;
  - the path that `Attribute::parse_outer` requires inside `#[...]`: any bracket body is accepted as an attribute.
- `Punctuated`'s record of whether a trailing comma was present. Parsed lists are plain sequences.
- Syn.ParseTerminated: its contract bounds only the number of elements. What it accepts is stated by `GrammarProofs.TerminatedRoundTrip` and `GrammarProofs.TerminatedWf`.
- Ast.AppendVariant and Emitter.AppendExpansion: the emitted items are token trees, not a textual `quote!` expansion. Paths such as `::applause::clap::Parser` are rendered segment by segment.
- The text of the panic messages. `unimplemented!()` and `unwrap()` on `None` are the two `Panic` values.
- The proc-macro entry point in `src/proc-macros/lib.rs` and the `dispatch!` and `parse_args!` macros in `src/lib.rs`. These are glue around the core and are not part of this model.
- What clap does at run time with the generated types: argument parsing, help text and exit codes.

## Findings

| source | as written | input that shows it | evidently intended | confidence | as-written member | corrected member |
|---|---|---|---|---|---|---|
| src/proc-macros/clap_args.rs:120-121 | `to_pat` quotes the field names of a struct pattern as `#(#field_idents)*`, with no separator, so the arm reads `Self::Cmd {a b} => …` | an entry `Cmd { a: String, b: String } => { … }` (`Examples.TwoFieldPattern`) | the field names separated by commas, `#(#field_idents),*`, so the arm reads `Self::Cmd {a, b} => …` | not executed; the repository's examples use at most one named field | EmitterProofs.QuotedStructPatUnseparated | EmitterProofs.StructPatFieldsReparse |
