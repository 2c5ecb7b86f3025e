/** Token trees, attributes, derive entries and the values the `macro_attr!`
    rewrite pipeline produces. Everything here is an immutable value: every
    rule of the macro rebuilds its accumulators instead of updating them. */
module Syntax {

  datatype Option<+T> = None | Some(value: T)

  datatype Result<+T, +E> = Success(value: T) | Failure(error: E)

  /** The three bracket kinds a Rust token group can use. */
  datatype Delim = Paren | Bracket | Brace

  /** A Rust token tree. An attribute block `#[...]` is represented as a single
      token, AttrBlock, whose contents are already classified into the shapes
      the macro's rules tell apart; `#` therefore never occurs as a Punct. */
  datatype Tok =
    | Ident(name: string)
    | Punct(ch: char)
    | Lit(text: string)
    | Group(delim: Delim, inner: seq<Tok>)
    | AttrBlock(attr: Attr)

  /** The contents of one `#[...]` block. */
  datatype Attr =
      /** `#[derive(E1, E2, ...)]`, its contents split into entries and separators */
    | DeriveAttr(entries: seq<DeriveEntry>)
      /** `#[name!]` (args None) or `#[name!(args)]` */
    | MacroAttr(name: string, args: Option<seq<Tok>>)
      /** `#[name~!]` (args None) or `#[name~!(args)]` */
    | HybridAttr(name: string, args: Option<seq<Tok>>)
      /** any other well-formed attribute (a `meta`), kept as its tokens */
    | MetaAttr(meta: seq<Tok>)
      /** contents that are none of the above, such as `name!{..}` */
    | UnrecognisedAttr(tokens: seq<Tok>)

  /** One element of a flattened derive list: a separator or the tokens
      between two separators. */
  datatype DeriveEntry =
    | Comma
      /** `Name` */
    | Std(name: string)
      /** `Name!` (args None) or `Name!(args)` */
    | User(name: string, args: Option<seq<Tok>>)
      /** `Name~!` */
    | Hybrid(name: string)
      /** any other shape, such as `Name(args)` or `Name~!(args)` */
    | Malformed(tokens: seq<Tok>)

  /** An item without its attributes: the leading keyword and the tokens after it.
      A visibility such as `pub(crate)` is part of it: keyword `pub`, body `(crate) enum ..`. */
  datatype Shell = Shell(keyword: string, body: seq<Tok>)

  /** A normalised user derive: the macro name and the argument tuple's contents. */
  datatype UserDerive = UserDerive(name: string, args: seq<Tok>)

  /** One dispatched invocation `name! { (args) item }`. */
  datatype Invocation = Invocation(name: string, args: seq<Tok>, item: Shell)

  /** The re-emitted item: `#[derive(d1, d2, ..,)]` when `derives` is not empty,
      then `#[a]` for each `a` in `attrs`, then the shell. */
  datatype Emitted = Emitted(derives: seq<string>, attrs: seq<seq<Tok>>, item: Shell)

  /** Everything one expansion produces. */
  datatype Expansion = Expansion(item: Emitted, calls: seq<Invocation>)

  /** The group of rules at which no rule matched. */
  datatype Phase = EntryRules | SplitAttrsRules | ResumeRules | SplitDeriveRules | CallbackRules

  datatype Error =
    | NoRuleMatches(phase: Phase)
      /** more attribute-macro rounds than the fuel allows */
    | RecursionLimit

  /** What the pipeline depends on but does not define: the `use_proc_macros`
      build flag and the user's attribute macros. `attrMacro(name, args, rest)`
      is what the macro `name`, given `(args)`, the resume callback and the
      remaining tokens `rest`, passes back through the callback. */
  datatype Config = Config(
    useProcMacros: bool,
    attrMacro: (string, seq<Tok>, seq<Tok>) -> seq<Tok>)

  /** The tokens of an item shell. */
  function ShellTokens(sh: Shell): seq<Tok>
  {
    [Ident(sh.keyword)] + sh.body
  }

  /** The tokens of a list of attribute blocks. */
  function AttrTokens(attrs: seq<Attr>): seq<Tok>
  {
    if attrs == [] then [] else [AttrBlock(attrs[0])] + AttrTokens(attrs[1..])
  }

  /** The argument tuple's contents: `Name!` and `#[name!]` are called with `()`. */
  function ArgsOrEmpty(args: Option<seq<Tok>>): seq<Tok>
  {
    if args.Some? then args.value else []
  }

  /** The tokens of attribute blocks are the blocks themselves, one each. */
  lemma {:induction false} AttrTokensAt(attrs: seq<Attr>)
    ensures |AttrTokens(attrs)| == |attrs|
    ensures forall i :: 0 <= i < |attrs| ==> AttrTokens(attrs)[i] == AttrBlock(attrs[i])
  {
    if attrs != [] {
      AttrTokensAt(attrs[1..]);
      assert forall i :: 1 <= i < |attrs| ==> attrs[1..][i - 1] == attrs[i];
    }
  }

  lemma {:induction false} AttrTokensAppend(a: seq<Attr>, b: seq<Attr>)
    ensures AttrTokens(a + b) == AttrTokens(a) + AttrTokens(b)
  {
    if a != [] {
      assert (a + b)[1..] == a[1..] + b;
      AttrTokensAppend(a[1..], b);
    } else {
      assert a + b == b;
    }
  }
}
