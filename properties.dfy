/** Properties of the whole `macro_attr!` expansion, stated on the input an
    item is written as: its attribute blocks followed by its shell. */
module MacroAttrProperties {
  import opened Syntax
  import opened Callbacks
  import opened ItemClassifier
  import opened DeriveClassifier
  import opened AttrPartitioner

  /** Only items introduced by one of the twelve keywords are accepted, whatever
      their attributes. */
  lemma ExpandRejectsNonItems(attrs: seq<Attr>, sh: Shell, cfg: Config, fuel: nat)
    ensures Expand(AttrTokens(attrs) + ShellTokens(sh), cfg, fuel) == Failure(NoRuleMatches(EntryRules))
        <==> sh.keyword !in ItemKeywords
  {
    ClassifyRoundTrip(attrs, sh);
  }

  /** An item whose attributes call no macro expands to: one `derive` attribute
      holding its built-in derives from all derive blocks in order, its other
      attributes verbatim and in order, its shell unchanged, and one invocation
      per user derive in order. It fails exactly when the keyword is not an
      item keyword, an attribute block matches no rule, or a derive entry is
      malformed or not followed by a separator. */
  lemma ExpandStatic(attrs: seq<Attr>, sh: Shell, cfg: Config, fuel: nat)
    requires forall i :: 0 <= i < |attrs| ==> IsStatic(attrs[i])
    ensures Expand(AttrTokens(attrs) + ShellTokens(sh), cfg, fuel)
         == var es := DeriveEntriesOf(attrs);
            if sh.keyword !in ItemKeywords then Failure(NoRuleMatches(EntryRules))
            else if HasUnrecognised(attrs) then Failure(NoRuleMatches(SplitAttrsRules))
            else if !Accepted(es) then Failure(NoRuleMatches(SplitDeriveRules))
            else Success(Expansion(Emitted(BuiltinsOf(es, cfg.useProcMacros), NonDerivesOf(attrs), sh),
                                   ExpandUserDrvs(UsersOf(es, cfg.useProcMacros), sh)))
  {
    ClassifyRoundTrip(attrs, sh);
    if sh.keyword in ItemKeywords {
      SplitAttrsPartition(attrs, [], [], [], sh, cfg, fuel);
      assert attrs + [] == attrs;
      var es := DeriveEntriesOf(attrs);
      assert [] + es == es && [] + NonDerivesOf(attrs) == NonDerivesOf(attrs);
      SplitDeriveAttrsSpec(es, [], [], NonDerivesOf(attrs), sh, cfg.useProcMacros);
      assert [] + BuiltinsOf(es, cfg.useProcMacros) == BuiltinsOf(es, cfg.useProcMacros);
      assert [] + UsersOf(es, cfg.useProcMacros) == UsersOf(es, cfg.useProcMacros);
    }
  }

  /** An item without attributes is emitted unchanged and dispatches nothing. */
  lemma ExpandNoAttributes(sh: Shell, cfg: Config, fuel: nat)
    requires sh.keyword in ItemKeywords
    ensures Expand(ShellTokens(sh), cfg, fuel) == Success(Expansion(Emitted([], [], sh), []))
  {
    ExpandStatic([], sh, cfg, fuel);
    assert AttrTokens([]) + ShellTokens(sh) == ShellTokens(sh);
    assert DeriveEntriesOf([]) == [];
    AllCommasFacts([], cfg.useProcMacros);
  }

  /** Expanding the emitted item again gives back the same item and dispatches
      nothing: built-in derives and other attributes pass through unchanged. */
  lemma PassThroughIdempotent(e: Emitted, cfg: Config, fuel: nat)
    requires e.item.keyword in ItemKeywords
    ensures Expand(EmitTokens(e), cfg, fuel) == Success(Expansion(e, []))
  {
    var attrs := EmittedAttrs(e);
    EmittedTokens(e);
    EmittedPartition(e);
    ExpandStatic(attrs, e.item, cfg, fuel);
    if e.derives == [] {
      AllCommasFacts([], cfg.useProcMacros);
    } else {
      StdEntriesReadBack(e.derives, cfg.useProcMacros);
    }
  }

  /** The attribute blocks of an emitted item. */
  function EmittedAttrs(e: Emitted): seq<Attr>
  {
    (if e.derives == [] then [] else [DeriveAttr(StdEntries(e.derives))]) + MetaAttrs(e.attrs)
  }

  lemma EmittedTokens(e: Emitted)
    ensures EmitTokens(e) == AttrTokens(EmittedAttrs(e)) + ShellTokens(e.item)
  {
    var d := if e.derives == [] then [] else [DeriveAttr(StdEntries(e.derives))];
    AttrTokensAppend(d, MetaAttrs(e.attrs));
    assert AttrTokens([DeriveAttr(StdEntries(e.derives))]) == [AttrBlock(DeriveAttr(StdEntries(e.derives)))];
  }

  lemma EmittedPartition(e: Emitted)
    ensures forall i :: 0 <= i < |EmittedAttrs(e)| ==> IsStatic(EmittedAttrs(e)[i])
    ensures !HasUnrecognised(EmittedAttrs(e)) && NonDerivesOf(EmittedAttrs(e)) == e.attrs
    ensures DeriveEntriesOf(EmittedAttrs(e)) == if e.derives == [] then [] else StdEntries(e.derives) + [Comma]
  {
    var attrs, metas := EmittedAttrs(e), MetaAttrs(e.attrs);
    MetaAttrsFacts(e.attrs);
    forall i | 0 <= i < |attrs| ensures IsStatic(attrs[i]) && !attrs[i].UnrecognisedAttr? {
      if e.derives == [] { assert attrs[i] == metas[i]; }
      else if i > 0 { assert attrs[i] == metas[i - 1]; }
    }
    if e.derives == [] {
      assert attrs == metas;
    } else {
      assert attrs[1..] == metas;
      AppendNothing(StdEntries(e.derives) + [Comma]);
    }
  }

  lemma {:induction false} MetaAttrsFacts(metas: seq<seq<Tok>>)
    ensures |MetaAttrs(metas)| == |metas|
    ensures forall i :: 0 <= i < |metas| ==> MetaAttrs(metas)[i] == MetaAttr(metas[i])
    ensures DeriveEntriesOf(MetaAttrs(metas)) == [] && NonDerivesOf(MetaAttrs(metas)) == metas
  {
    if metas != [] {
      MetaAttrsFacts(metas[1..]);
      var m := MetaAttrs(metas);
      assert m[1..] == MetaAttrs(metas[1..]);
      assert metas == [metas[0]] + metas[1..];
    }
  }

  /** Whatever an expansion emits expands again to itself, with no invocations. */
  lemma ReexpandEmitted(input: seq<Tok>, cfg: Config, fuel: nat)
    requires Expand(input, cfg, fuel).Success?
    ensures var e := Expand(input, cfg, fuel).value.item;
            Expand(EmitTokens(e), cfg, fuel) == Success(Expansion(e, []))
  {
    PassThroughIdempotent(Expand(input, cfg, fuel).value.item, cfg, fuel);
  }

  /** Splitting a derive block in two, or merging two, changes nothing: the
      entries are flattened into one list either way. */
  lemma DeriveBlocksMerge(a: seq<DeriveEntry>, b: seq<DeriveEntry>, rest: seq<Attr>, nonDerives: seq<seq<Tok>>,
                          derives: seq<DeriveEntry>, sh: Shell, cfg: Config, fuel: nat)
    requires sh.keyword in ItemKeywords
    ensures SplitAttrs([DeriveAttr(a), DeriveAttr(b)] + rest, nonDerives, derives, sh, cfg, fuel)
         == SplitAttrs([DeriveAttr(a + [Comma] + b)] + rest, nonDerives, derives, sh, cfg, fuel)
  {
    var two, one := [DeriveAttr(a), DeriveAttr(b)] + rest, [DeriveAttr(a + [Comma] + b)] + rest;
    assert two[0] == DeriveAttr(a) && two[1..][0] == DeriveAttr(b) && two[1..][1..] == rest;
    assert one[0] == DeriveAttr(a + [Comma] + b) && one[1..] == rest;
    assert derives + a + [Comma] + b + [Comma] == derives + (a + [Comma] + b) + [Comma];
  }

  /** `Name~!` is a built-in derive when procedural macros are in use and an
      argument-less user derive otherwise. */
  lemma HybridDeriveResolution(name: string, sh: Shell, cfg: Config, fuel: nat)
    requires sh.keyword in ItemKeywords
    ensures Expand(AttrTokens([DeriveAttr([Hybrid(name)])]) + ShellTokens(sh), cfg, fuel)
         == if cfg.useProcMacros then Success(Expansion(Emitted([name], [], sh), []))
            else Success(Expansion(Emitted([], [], sh), [Invocation(name, [], sh)]))
  {
    ExpandDeriveBlock([Hybrid(name)], sh, cfg, fuel);
    SingleEntryFilters(Hybrid(name), cfg.useProcMacros);
    if !cfg.useProcMacros {
      assert ExpandUserDrvs([UserDerive(name, [])], sh) == [Invocation(name, [], sh)];
    }
  }

  /** `Name!(T)` dispatches `Name! { (T) item }` with T untouched, and `Name!`
      dispatches `Name! { () item }`. */
  lemma ArgumentNormalisation(name: string, args: Option<seq<Tok>>, sh: Shell, cfg: Config, fuel: nat)
    requires sh.keyword in ItemKeywords
    ensures var r := Expand(AttrTokens([DeriveAttr([User(name, args)])]) + ShellTokens(sh), cfg, fuel);
            r.Success? && r.value.item == Emitted([], [], sh)
            && (args.None? ==> r.value.calls == [Invocation(name, [], sh)])
            && (args.Some? ==> r.value.calls == [Invocation(name, args.value, sh)])
  {
    ExpandDeriveBlock([User(name, args)], sh, cfg, fuel);
    SingleEntryFilters(User(name, args), cfg.useProcMacros);
    assert ExpandUserDrvs([UserDerive(name, ArgsOrEmpty(args))], sh) == [Invocation(name, ArgsOrEmpty(args), sh)];
  }

  /** A built-in entry must be a bare name: `Name(args)` and the other shapes
      that are not entries make the expansion fail. */
  lemma MalformedEntryFails(before: seq<DeriveEntry>, bad: seq<Tok>, after: seq<DeriveEntry>, sh: Shell, cfg: Config, fuel: nat)
    requires sh.keyword in ItemKeywords
    ensures Expand(AttrTokens([DeriveAttr(before + [Malformed(bad)] + after)]) + ShellTokens(sh), cfg, fuel)
         == Failure(NoRuleMatches(SplitDeriveRules))
  {
    var attrs := [DeriveAttr(before + [Malformed(bad)] + after)];
    ExpandStatic(attrs, sh, cfg, fuel);
    var es := DeriveEntriesOf(attrs);
    assert es == before + [Malformed(bad)] + after + [Comma];
    assert es[|before|] == Malformed(bad) && !SeparatedAt(es, |before|);
    assert !HasUnrecognised(attrs);
  }

  /** A hybrid attribute `#[name~!]` under procedural macros never expands. */
  lemma HybridAttrUnderProcMacrosFails(pre: seq<Attr>, name: string, args: Option<seq<Tok>>, rest: seq<Attr>,
                                       sh: Shell, cfg: Config, fuel: nat)
    requires cfg.useProcMacros
    requires forall i :: 0 <= i < |pre| ==> IsStatic(pre[i])
    ensures Expand(AttrTokens(pre + [HybridAttr(name, args)] + rest) + ShellTokens(sh), cfg, fuel).Failure?
  {
    var attrs := pre + [HybridAttr(name, args)] + rest;
    ClassifyRoundTrip(attrs, sh);
    if sh.keyword in ItemKeywords {
      assert attrs == pre + ([HybridAttr(name, args)] + rest);
      SplitAttrsPartition(pre, [HybridAttr(name, args)] + rest, [], [], sh, cfg, fuel);
    }
  }

  /** Without procedural macros a hybrid attribute behaves exactly like the
      macro attribute of the same name. */
  lemma HybridAttrFallback(name: string, args: Option<seq<Tok>>, rest: seq<Attr>, nonDerives: seq<seq<Tok>>,
                           derives: seq<DeriveEntry>, sh: Shell, cfg: Config, fuel: nat)
    requires !cfg.useProcMacros && sh.keyword in ItemKeywords
    ensures SplitAttrs([HybridAttr(name, args)] + rest, nonDerives, derives, sh, cfg, fuel)
         == SplitAttrs([MacroAttr(name, args)] + rest, nonDerives, derives, sh, cfg, fuel)
  {
    assert ([HybridAttr(name, args)] + rest)[1..] == rest == ([MacroAttr(name, args)] + rest)[1..];
  }

  /** An attribute macro hands the remaining attribute blocks and the item to
      the macro; whatever attributes and item it passes back through the
      callback are walked with the accumulated lists carried over unchanged. */
  lemma AttrMacroResumes(name: string, args: Option<seq<Tok>>, rest: seq<Attr>, nonDerives: seq<seq<Tok>>,
                         derives: seq<DeriveEntry>, sh: Shell, rest': seq<Attr>, sh': Shell, cfg: Config, fuel: nat)
    requires fuel > 0 && sh.keyword in ItemKeywords
    requires cfg.attrMacro(name, ArgsOrEmpty(args), AttrTokens(rest) + ShellTokens(sh)) == AttrTokens(rest') + ShellTokens(sh')
    ensures SplitAttrs([MacroAttr(name, args)] + rest, nonDerives, derives, sh, cfg, fuel)
         == if sh'.keyword in ItemKeywords then SplitAttrs(rest', nonDerives, derives, sh', cfg, fuel - 1)
            else Failure(NoRuleMatches(ResumeRules))
  {
    assert ([MacroAttr(name, args)] + rest)[0] == MacroAttr(name, args);
    assert ([MacroAttr(name, args)] + rest)[1..] == rest;
    ClassifyRoundTrip(rest', sh');
  }

  /** An attribute macro that passes its input back unchanged vanishes: the
      walk resumes with the same attributes and the same accumulated lists. */
  lemma TransparentAttrMacroVanishes(name: string, args: Option<seq<Tok>>, rest: seq<Attr>, nonDerives: seq<seq<Tok>>,
                                     derives: seq<DeriveEntry>, sh: Shell, cfg: Config, fuel: nat)
    requires fuel > 0 && sh.keyword in ItemKeywords
    requires forall ts :: cfg.attrMacro(name, ArgsOrEmpty(args), ts) == ts
    ensures SplitAttrs([MacroAttr(name, args)] + rest, nonDerives, derives, sh, cfg, fuel)
         == SplitAttrs(rest, nonDerives, derives, sh, cfg, fuel - 1)
  {
    AttrMacroResumes(name, args, rest, nonDerives, derives, sh, rest, sh, cfg, fuel);
  }

  /** A macro attribute met with no attribute-macro rounds left stops the
      expansion. */
  lemma AttrMacroOutOfRounds(name: string, args: Option<seq<Tok>>, rest: seq<Attr>, nonDerives: seq<seq<Tok>>,
                             derives: seq<DeriveEntry>, sh: Shell, cfg: Config)
    requires sh.keyword in ItemKeywords
    ensures SplitAttrs([MacroAttr(name, args)] + rest, nonDerives, derives, sh, cfg, 0) == Failure(RecursionLimit)
  {
    assert ([MacroAttr(name, args)] + rest)[0] == MacroAttr(name, args);
  }

  /** An attribute macro that rewrites the item (as `rename_to!` in the crate
      documentation does) acts on the whole expansion: derives written before
      it are classified and dispatched against the rewritten item too. */
  lemma ItemRewriteAppliesToEarlierDerives(before: seq<Attr>, name: string, args: Option<seq<Tok>>, after: seq<Attr>,
                                           sh: Shell, sh': Shell, cfg: Config, fuel: nat)
    requires fuel > 0 && sh.keyword in ItemKeywords && sh'.keyword in ItemKeywords
    requires forall i :: 0 <= i < |before| ==> IsStatic(before[i])
    requires cfg.attrMacro(name, ArgsOrEmpty(args), AttrTokens(after) + ShellTokens(sh))
          == AttrTokens(after) + ShellTokens(sh')
    ensures Expand(AttrTokens(before + [MacroAttr(name, args)] + after) + ShellTokens(sh), cfg, fuel)
         == Expand(AttrTokens(before + after) + ShellTokens(sh'), cfg, fuel - 1)
  {
    ExpandItem(before + [MacroAttr(name, args)] + after, sh, cfg, fuel);
    ExpandItem(before + after, sh', cfg, fuel - 1);
    ItemRewriteWalk(before, name, args, after, sh, sh', cfg, fuel);
  }

  lemma ItemRewriteWalk(before: seq<Attr>, name: string, args: Option<seq<Tok>>, after: seq<Attr>,
                        sh: Shell, sh': Shell, cfg: Config, fuel: nat)
    requires fuel > 0 && sh.keyword in ItemKeywords && sh'.keyword in ItemKeywords
    requires forall i :: 0 <= i < |before| ==> IsStatic(before[i])
    requires cfg.attrMacro(name, ArgsOrEmpty(args), AttrTokens(after) + ShellTokens(sh))
          == AttrTokens(after) + ShellTokens(sh')
    ensures SplitAttrs(before + [MacroAttr(name, args)] + after, [], [], sh, cfg, fuel)
         == SplitAttrs(before + after, [], [], sh', cfg, fuel - 1)
  {
    var tail := [MacroAttr(name, args)] + after;
    assert before + [MacroAttr(name, args)] + after == before + tail;
    SplitAttrsPartition(before, tail, [], [], sh, cfg, fuel);
    SplitAttrsPartition(before, after, [], [], sh', cfg, fuel - 1);
    AppendNothing(NonDerivesOf(before));
    AppendNothing(DeriveEntriesOf(before));
    if !HasUnrecognised(before) {
      AttrMacroResumes(name, args, after, NonDerivesOf(before), DeriveEntriesOf(before), sh, after, sh', cfg, fuel);
    }
  }

  /** The callback an attribute macro receives (src/lib.rs:378-382):
      `(macro_attr_impl! { @split_attrs_resume nd, d, })`, holding the two
      collected lists as token trees. */
  function ResumeCallback(nonDerives: Tok, derives: Tok): MacroCall
  {
    MacroCall("macro_attr_impl", Brace, [Punct('@'), Ident("split_attrs_resume"), nonDerives, Punct(','), derives, Punct(',')])
  }

  /** Whatever the attribute macro passes after its callback, the callback
      re-enters the resume rules with both collected lists in front of those
      tokens, untouched: the lists never pass through the user macro, which is
      why the walk resumes with them unchanged. */
  lemma ResumeCallbackCarriesLists(nonDerives: Tok, derives: Tok, out: seq<Tok>)
    ensures var r := MacroAttrCallback([CallTree(ResumeCallback(nonDerives, derives)), Punct(',')] + out);
            r.Success? && r.value.name == "macro_attr_impl" && r.value.delim == Brace
            && |r.value.args| == 6 + |out| && r.value.args[..2] == [Punct('@'), Ident("split_attrs_resume")]
            && r.value.args[2] == nonDerives && r.value.args[4] == derives && r.value.args[6..] == out
  {
    CallbackSplices(ResumeCallback(nonDerives, derives), out);
  }

  /** An item written as attributes and a shell is walked from empty lists. */
  lemma ExpandItem(attrs: seq<Attr>, sh: Shell, cfg: Config, fuel: nat)
    requires sh.keyword in ItemKeywords
    ensures Expand(AttrTokens(attrs) + ShellTokens(sh), cfg, fuel) == SplitAttrs(attrs, [], [], sh, cfg, fuel)
  {
    ClassifyRoundTrip(attrs, sh);
  }

  /** A single derive block `derive(A, B, .., Z)` of well-formed entries emits
      its built-ins in written order and dispatches its user derives in written
      order. */
  lemma ExpandDeriveBlock(xs: seq<DeriveEntry>, sh: Shell, cfg: Config, fuel: nat)
    requires sh.keyword in ItemKeywords
    requires forall i :: 0 <= i < |xs| ==> WellFormed(xs[i])
    ensures Expand(AttrTokens([DeriveAttr(CommaList(xs))]) + ShellTokens(sh), cfg, fuel)
         == Success(Expansion(Emitted(BuiltinsOf(xs, cfg.useProcMacros), [], sh),
                              ExpandUserDrvs(UsersOf(xs, cfg.useProcMacros), sh)))
  {
    var attrs := [DeriveAttr(CommaList(xs))];
    var es := CommaList(xs) + [Comma];
    assert attrs[1..] == [];
    assert DeriveEntriesOf(attrs) == es + [] == es;
    assert NonDerivesOf(attrs) == [] && !HasUnrecognised(attrs);
    CommaListReadBack(xs, cfg.useProcMacros);
    ExpandStatic(attrs, sh, cfg, fuel);
  }

  /** Two derive blocks act as one list: the built-ins of both are emitted in
      one `derive` attribute, first block first, and the user derives of both
      are dispatched in the same order. */
  lemma ExpandDeriveBlocks(xs: seq<DeriveEntry>, ys: seq<DeriveEntry>, sh: Shell, cfg: Config, fuel: nat)
    requires sh.keyword in ItemKeywords
    requires forall i :: 0 <= i < |xs| ==> WellFormed(xs[i])
    requires forall i :: 0 <= i < |ys| ==> WellFormed(ys[i])
    ensures Expand(AttrTokens([DeriveAttr(CommaList(xs)), DeriveAttr(CommaList(ys))]) + ShellTokens(sh), cfg, fuel)
         == Success(Expansion(Emitted(BuiltinsOf(xs, cfg.useProcMacros) + BuiltinsOf(ys, cfg.useProcMacros), [], sh),
                              ExpandUserDrvs(UsersOf(xs, cfg.useProcMacros) + UsersOf(ys, cfg.useProcMacros), sh)))
  {
    var flag := cfg.useProcMacros;
    var attrs := [DeriveAttr(CommaList(xs)), DeriveAttr(CommaList(ys))];
    var a, b := CommaList(xs) + [Comma], CommaList(ys) + [Comma];
    assert attrs[1..] == [DeriveAttr(CommaList(ys))] && attrs[1..][1..] == [];
    assert DeriveEntriesOf(attrs[1..]) == b + [] == b;
    assert DeriveEntriesOf(attrs) == a + b;
    assert NonDerivesOf(attrs[1..]) == [] && NonDerivesOf(attrs) == [];
    assert !HasUnrecognised(attrs);
    CommaListReadBack(xs, flag);
    CommaListReadBack(ys, flag);
    AcceptedAppend(a, b);
    FiltersAppend(a, b, flag);
    ExpandStatic(attrs, sh, cfg, fuel);
  }

  /** The item of `tests/passthru_derive.rs`: nine built-in derives are
      emitted as written and nothing is dispatched. */
  lemma PassThroughScenario(body: seq<Tok>, cfg: Config, fuel: nat)
    ensures var sh := Shell("pub", body);
            var names := ["Clone", "Hash", "PartialEq", "Eq", "PartialOrd", "Ord", "Debug", "Default", "Copy"];
            (Expand(AttrTokens([DeriveAttr(CommaList(StdAll(names)))]) + ShellTokens(sh), cfg, fuel)
             == Success(Expansion(Emitted(names, [], sh), [])))
  {
    var names := ["Clone", "Hash", "PartialEq", "Eq", "PartialOrd", "Ord", "Debug", "Default", "Copy"];
    StdAllFacts(names, cfg.useProcMacros);
    ExpandDeriveBlock(StdAll(names), Shell("pub", body), cfg, fuel);
  }

  /** The item of `tests/enum.rs`: the built-ins of the first block are emitted
      in one `derive` attribute and the three user derives of the second are
      dispatched in order, `IterVariants!` with its argument tuple. */
  lemma ColorEnumScenario(body: seq<Tok>, cfg: Config, fuel: nat)
    ensures Expand(AttrTokens([DeriveAttr(CommaList(StdAll(ColorBuiltins))), DeriveAttr(CommaList(ColorUserDerives))])
                   + ShellTokens(Shell("pub", body)), cfg, fuel)
         == Success(Expansion(Emitted(ColorBuiltins, [], Shell("pub", body)),
                              [Invocation("EnumDisplay", [], Shell("pub", body)),
                               Invocation("EnumFromStr", [], Shell("pub", body)),
                               Invocation("IterVariants", [Ident("ColorVariants")], Shell("pub", body))]))
  {
    var sh := Shell("pub", body);
    StdAllFacts(ColorBuiltins, cfg.useProcMacros);
    ColorEnumUserEntries(cfg.useProcMacros);
    ColorEnumCalls(sh);
    ExpandDeriveBlocks(StdAll(ColorBuiltins), ColorUserDerives, sh, cfg, fuel);
    AppendNothing(ColorBuiltins);
    AppendNothing(UsersOf(ColorUserDerives, cfg.useProcMacros));
  }

  /** The shape of the example of the crate documentation (src/lib.rs:117-123):
      `#[allow(..)] #[derive(..)] #[rename_to!(Bar)] #[repr(..)] enum Foo ..`.
      When the attribute macro keeps the `repr` block and renames the item,
      the derives written before it are emitted for, and dispatched against,
      the renamed item, and both kept attributes stay in order. */
  lemma CrateDocExample(allow: seq<Tok>, xs: seq<DeriveEntry>, name: string, args: seq<Tok>, repr: seq<Tok>,
                         foo: Shell, bar: Shell, cfg: Config, fuel: nat)
    requires fuel > 0 && foo.keyword in ItemKeywords && bar.keyword in ItemKeywords
    requires forall i :: 0 <= i < |xs| ==> WellFormed(xs[i])
    requires cfg.attrMacro(name, args, AttrTokens([MetaAttr(repr)]) + ShellTokens(foo))
          == AttrTokens([MetaAttr(repr)]) + ShellTokens(bar)
    ensures Expand(AttrTokens([MetaAttr(allow), DeriveAttr(CommaList(xs)), MacroAttr(name, Some(args)), MetaAttr(repr)])
                   + ShellTokens(foo), cfg, fuel)
         == Success(Expansion(Emitted(BuiltinsOf(xs, cfg.useProcMacros), [allow, repr], bar),
                              ExpandUserDrvs(UsersOf(xs, cfg.useProcMacros), bar)))
  {
    var flag := cfg.useProcMacros;
    var rename := MacroAttr(name, Some(args));
    var written := [MetaAttr(allow), DeriveAttr(CommaList(xs)), rename, MetaAttr(repr)];
    var es := CommaList(xs) + [Comma];
    ExpandItem(written, foo, cfg, fuel);
    assert written[1..] == [DeriveAttr(CommaList(xs)), rename, MetaAttr(repr)];
    assert written[1..][1..] == [rename, MetaAttr(repr)] == [rename] + [MetaAttr(repr)];
    AppendNothing([allow]);
    assert SplitAttrs(written, [], [], foo, cfg, fuel) == SplitAttrs(written[1..], [allow], [], foo, cfg, fuel);
    AppendNothing(CommaList(xs));
    assert SplitAttrs(written[1..], [allow], [], foo, cfg, fuel) == SplitAttrs(written[1..][1..], [allow], es, foo, cfg, fuel);
    AttrMacroResumes(name, Some(args), [MetaAttr(repr)], [allow], es, foo, [MetaAttr(repr)], bar, cfg, fuel);
    assert [allow] + [repr] == [allow, repr];
    assert SplitAttrs([MetaAttr(repr)], [allow], es, bar, cfg, fuel - 1) == SplitAttrs([], [allow, repr], es, bar, cfg, fuel - 1);
    SplitDeriveAttrsSpec(es, [], [], [allow, repr], bar, flag);
    CommaListReadBack(xs, flag);
    AppendNothing(BuiltinsOf(xs, flag));
    AppendNothing(UsersOf(xs, flag));
  }

  /** A derive block between two other attributes. */
  lemma ExpandBetweenMetas(m1: seq<Tok>, xs: seq<DeriveEntry>, m2: seq<Tok>, sh: Shell, cfg: Config, fuel: nat)
    requires sh.keyword in ItemKeywords
    requires forall i :: 0 <= i < |xs| ==> WellFormed(xs[i])
    ensures Expand(AttrTokens([MetaAttr(m1), DeriveAttr(CommaList(xs)), MetaAttr(m2)]) + ShellTokens(sh), cfg, fuel)
         == Success(Expansion(Emitted(BuiltinsOf(xs, cfg.useProcMacros), [m1, m2], sh),
                              ExpandUserDrvs(UsersOf(xs, cfg.useProcMacros), sh)))
  {
    var flag := cfg.useProcMacros;
    var attrs := [MetaAttr(m1), DeriveAttr(CommaList(xs)), MetaAttr(m2)];
    var es := CommaList(xs) + [Comma];
    ExpandItem(attrs, sh, cfg, fuel);
    assert attrs[1..] == [DeriveAttr(CommaList(xs)), MetaAttr(m2)];
    assert attrs[1..][1..] == [MetaAttr(m2)] && attrs[1..][1..][1..] == [];
    AppendNothing([m1]);
    assert SplitAttrs(attrs, [], [], sh, cfg, fuel) == SplitAttrs(attrs[1..], [m1], [], sh, cfg, fuel);
    AppendNothing(CommaList(xs));
    assert SplitAttrs(attrs[1..], [m1], [], sh, cfg, fuel) == SplitAttrs([MetaAttr(m2)], [m1], es, sh, cfg, fuel);
    assert [m1] + [m2] == [m1, m2];
    assert SplitAttrs([MetaAttr(m2)], [m1], es, sh, cfg, fuel) == SplitAttrs([], [m1, m2], es, sh, cfg, fuel);
    SplitDeriveAttrsSpec(es, [], [], [m1, m2], sh, flag);
    CommaListReadBack(xs, flag);
    AppendNothing(BuiltinsOf(xs, flag));
    AppendNothing(UsersOf(xs, flag));
  }

  lemma AppendNothing<T>(s: seq<T>)
    ensures s + [] == s && [] + s == s
  {
  }

  const ColorBuiltins: seq<string> := ["Eq", "PartialEq", "Debug", "Hash", "Clone", "Copy", "Ord", "PartialOrd"]

  const ColorUserDerives: seq<DeriveEntry> :=
    [User("EnumDisplay", None), User("EnumFromStr", None), User("IterVariants", Some([Ident("ColorVariants")]))]

  lemma ColorEnumUserEntries(flag: bool)
    ensures forall i :: 0 <= i < |ColorUserDerives| ==> WellFormed(ColorUserDerives[i])
    ensures BuiltinsOf(ColorUserDerives, flag) == []
    ensures UsersOf(ColorUserDerives, flag) == [UserDerive("EnumDisplay", []), UserDerive("EnumFromStr", []),
                                                UserDerive("IterVariants", [Ident("ColorVariants")])]
  {
    var users := ColorUserDerives;
    assert users[1..] == [users[1], users[2]] && users[1..][1..] == [users[2]] && users[1..][1..][1..] == [];
    SingleEntryFilters(users[2], flag);
    assert BuiltinsOf(users[1..], flag) == [] && UsersOf(users[1..], flag) == [UserDerive("EnumFromStr", []), UserDerive("IterVariants", [Ident("ColorVariants")])];
  }

  lemma ColorEnumCalls(sh: Shell)
    ensures ExpandUserDrvs([UserDerive("EnumDisplay", []), UserDerive("EnumFromStr", []),
                            UserDerive("IterVariants", [Ident("ColorVariants")])], sh)
         == [Invocation("EnumDisplay", [], sh), Invocation("EnumFromStr", [], sh),
             Invocation("IterVariants", [Ident("ColorVariants")], sh)]
  {
  }
}
