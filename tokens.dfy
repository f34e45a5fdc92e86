/** Token trees, the currency of a procedural macro: what the macro reads
    and what it writes. Multi-character operators such as `::` and `=>`
    are single `Punct` tokens here; spans and spacing are not modelled. */
module Tokens {

  datatype Delim = Paren | Brace | Bracket

  datatype Token =
    | Ident(name: string)
    | Punct(op: string)
    | Literal(text: string)
    | Group(delim: Delim, body: seq<Token>)

  /** Dropping tokens from the front of `b` reaches `a`. */
  predicate DropsTo(b: seq<Token>, a: seq<Token>)
    decreases |b|
  {
    if |b| <= |a| then b == a else DropsTo(b[1..], a)
  }

  /** `a` is a suffix of `b`: what a parser leaves unconsumed. */
  predicate IsSuffix(a: seq<Token>, b: seq<Token>) {
    |a| <= |b| && DropsTo(b, a)
  }

  /** Every tail is a suffix. */
  lemma {:induction false} TailIsSuffix(b: seq<Token>, k: nat)
    requires k <= |b|
    ensures IsSuffix(b[k..], b)
    decreases k
  {
    if k > 0 {
      TailIsSuffix(b[1..], k - 1);
      assert b[1..][k - 1..] == b[k..];
    }
  }

  /** Being a suffix is transitive. */
  lemma {:induction false} SuffixTrans(a: seq<Token>, b: seq<Token>, c: seq<Token>)
    requires IsSuffix(a, b) && IsSuffix(b, c)
    ensures IsSuffix(a, c)
    decreases |c|
  {
    if |c| > |b| {
      SuffixTrans(a, b, c[1..]);
    }
  }

  /** A suffix of a tail is a suffix of the whole. */
  lemma SuffixOfTail(a: seq<Token>, b: seq<Token>, k: nat)
    requires k <= |b| && IsSuffix(a, b[k..])
    ensures IsSuffix(a, b)
  {
    TailIsSuffix(b, k);
    SuffixTrans(a, b[k..], b);
  }

  /** What follows a token of a suffix is a suffix too. */
  lemma SuffixAfter(t: Token, a: seq<Token>, b: seq<Token>)
    requires IsSuffix([t] + a, b)
    ensures IsSuffix(a, b)
  {
    TailIsSuffix([t] + a, 1);
    assert ([t] + a)[1..] == a;
    SuffixTrans(a, [t] + a, b);
  }

  /** A suffix lines up with the end of the whole. */
  lemma {:induction false} SuffixAt(a: seq<Token>, b: seq<Token>, j: nat)
    requires IsSuffix(a, b) && j < |a|
    ensures b[|b| - |a| + j] == a[j]
    decreases |b|
  {
    if |b| > |a| {
      SuffixAt(a, b[1..], j);
    }
  }

  /** The renderings of `xs`, with `sep` between neighbours and none after
      the last one (how a punctuated list is written out). */
  function JoinedBy<T>(render: T -> seq<Token>, sep: Token, xs: seq<T>): seq<Token>
    decreases |xs|
  {
    if |xs| == 0 then []
    else if |xs| == 1 then render(xs[0])
    else render(xs[0]) + [sep] + JoinedBy(render, sep, xs[1..])
  }

  /** The caller-supplied output buffer of `ToTokens::to_tokens`
      (proc_macro2's `TokenStream`), which only ever grows. */
  class TokenStream {
    var contents: seq<Token>

    constructor ()
      ensures contents == []
    {
      contents := [];
    }

    /** `TokenStreamExt::append_all`. */
    method AppendAll(ts: seq<Token>)
      modifies this
      ensures contents == old(contents) + ts
    {
      contents := contents + ts;
    }
  }
}
