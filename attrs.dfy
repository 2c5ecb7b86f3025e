/** `@split_attrs` and the entry point `macro_attr!` (src/lib.rs:172-486):
    the attribute blocks are walked one at a time; derive blocks are flattened
    onto the pending derive list, other attributes are kept verbatim, and an
    attribute macro takes over the rest of the expansion and resumes it
    through its callback. */
module AttrPartitioner {
  import opened Syntax
  import opened Callbacks
  import opened ItemClassifier
  import opened DeriveClassifier

  /** `@split_attrs` with the attribute blocks still to walk, the non-derive
      attributes and the flattened derive entries collected so far, and the
      item shell. `fuel` bounds the number of attribute-macro rounds. */
  function SplitAttrs(attrs: seq<Attr>, nonDerives: seq<seq<Tok>>, derives: seq<DeriveEntry>,
                      item: Shell, cfg: Config, fuel: nat): (r: Result<Expansion, Error>)
    requires item.keyword in ItemKeywords
    ensures r.Success? ==>
      r.value.item.item.keyword in ItemKeywords
      && (forall c :: c in r.value.calls ==> c.item == r.value.item.item)
    ensures r.Failure? ==> r.error != NoRuleMatches(EntryRules) && r.error != NoRuleMatches(CallbackRules)
    decreases fuel, |attrs|, 1
  {
    if attrs == [] then
      SplitDeriveAttrs(derives, [], [], nonDerives, item, cfg.useProcMacros)
    else
      match attrs[0]
      case DeriveAttr(entries) =>
        SplitAttrs(attrs[1..], nonDerives, derives + entries + [Comma], item, cfg, fuel)
      case MacroAttr(name, args) =>
        RunAttrMacro(name, args, attrs[1..], nonDerives, derives, item, cfg, fuel)
      case HybridAttr(name, args) =>
        // The `proc_macros` branch re-enters `@split_attrs` with the item's
        // tokens spliced bare where every rule expects one token tree, so no
        // rule matches it.
        IfProcMacros(cfg.useProcMacros,
          Failure(NoRuleMatches(SplitAttrsRules)),
          RunAttrMacro(name, args, attrs[1..], nonDerives, derives, item, cfg, fuel))
      case MetaAttr(meta) =>
        SplitAttrs(attrs[1..], nonDerives + [meta], derives, item, cfg, fuel)
      case UnrecognisedAttr(_) =>
        Failure(NoRuleMatches(SplitAttrsRules))
  }

  /** `#[name!]` / `#[name!(args)]` with `rest` still to walk: the macro `name`
      receives `(args)`, the resume callback, the remaining attribute blocks
      and the item; what it passes back is classified again by the resume
      rules and walked with the accumulated lists carried over unchanged. */
  function RunAttrMacro(name: string, args: Option<seq<Tok>>, rest: seq<Attr>, nonDerives: seq<seq<Tok>>,
                        derives: seq<DeriveEntry>, item: Shell, cfg: Config, fuel: nat): (r: Result<Expansion, Error>)
    requires item.keyword in ItemKeywords
    ensures r.Success? ==>
      r.value.item.item.keyword in ItemKeywords
      && (forall c :: c in r.value.calls ==> c.item == r.value.item.item)
    ensures r.Failure? ==> r.error != NoRuleMatches(EntryRules) && r.error != NoRuleMatches(CallbackRules)
    decreases fuel, 0, 0
  {
    if fuel == 0 then
      Failure(RecursionLimit)
    else
      match Classify(cfg.attrMacro(name, ArgsOrEmpty(args), AttrTokens(rest) + ShellTokens(item)))
      case None => Failure(NoRuleMatches(ResumeRules))
      case Some(resumed) => SplitAttrs(resumed.attrs, nonDerives, derives, resumed.shell, cfg, fuel - 1)
  }

  /** `macro_attr! { attributes item }`. */
  function Expand(input: seq<Tok>, cfg: Config, fuel: nat): (r: Result<Expansion, Error>)
    ensures r == Failure(NoRuleMatches(EntryRules)) <==> Classify(input).None?
    ensures r.Success? ==> forall c :: c in r.value.calls ==> c.item == r.value.item.item
  {
    match Classify(input)
    case None => Failure(NoRuleMatches(EntryRules))
    case Some(c) => SplitAttrs(c.attrs, [], [], c.shell, cfg, fuel)
  }

  // ---------------------------------------------------------------------------
  // A reference description of the partition.

  /** An attribute the walk handles without calling out to a macro. */
  predicate IsStatic(a: Attr)
  {
    !a.MacroAttr? && !a.HybridAttr?
  }

  /** The derive entries of the derive blocks among `attrs`, in order, each
      block followed by one separator. */
  function DeriveEntriesOf(attrs: seq<Attr>): seq<DeriveEntry>
  {
    if attrs == [] then []
    else (if attrs[0].DeriveAttr? then attrs[0].entries + [Comma] else []) + DeriveEntriesOf(attrs[1..])
  }

  /** The other attributes among `attrs`, verbatim and in order. */
  function NonDerivesOf(attrs: seq<Attr>): seq<seq<Tok>>
  {
    if attrs == [] then []
    else (if attrs[0].MetaAttr? then [attrs[0].meta] else []) + NonDerivesOf(attrs[1..])
  }

  /** Whether some attribute block of `attrs` matches no rule. */
  predicate HasUnrecognised(attrs: seq<Attr>)
  {
    exists i :: 0 <= i < |attrs| && attrs[i].UnrecognisedAttr?
  }

  /** Walking a run of attributes that call no macro appends their derive
      entries to the pending derive list and their other attributes to the
      non-derive list, and fails if one of them matches no rule. */
  lemma {:induction false} SplitAttrsPartition(pre: seq<Attr>, rest: seq<Attr>, nonDerives: seq<seq<Tok>>,
                                               derives: seq<DeriveEntry>, item: Shell, cfg: Config, fuel: nat)
    requires item.keyword in ItemKeywords
    requires forall i :: 0 <= i < |pre| ==> IsStatic(pre[i])
    ensures SplitAttrs(pre + rest, nonDerives, derives, item, cfg, fuel)
         == if HasUnrecognised(pre) then Failure(NoRuleMatches(SplitAttrsRules))
            else SplitAttrs(rest, nonDerives + NonDerivesOf(pre), derives + DeriveEntriesOf(pre), item, cfg, fuel)
  {
    if pre == [] {
      assert pre + rest == rest;
      assert nonDerives + NonDerivesOf(pre) == nonDerives && derives + DeriveEntriesOf(pre) == derives;
    } else {
      var a := pre[0];
      assert (pre + rest)[0] == a && (pre + rest)[1..] == pre[1..] + rest;
      assert HasUnrecognised(pre) <==> a.UnrecognisedAttr? || HasUnrecognised(pre[1..]) by {
        if HasUnrecognised(pre[1..]) {
          var i :| 0 <= i < |pre[1..]| && pre[1..][i].UnrecognisedAttr?;
          assert pre[i + 1].UnrecognisedAttr?;
        }
        if HasUnrecognised(pre) {
          var i :| 0 <= i < |pre| && pre[i].UnrecognisedAttr?;
          if i > 0 { assert pre[1..][i - 1].UnrecognisedAttr?; }
        }
      }
      assert forall i :: 0 <= i < |pre[1..]| ==> IsStatic(pre[1..][i]) by {
        forall i | 0 <= i < |pre[1..]| ensures IsStatic(pre[1..][i]) {
          assert pre[1..][i] == pre[i + 1];
        }
      }
      assert IsStatic(pre[0]);
      match a
      case DeriveAttr(entries) =>
        SplitAttrsPartition(pre[1..], rest, nonDerives, derives + entries + [Comma], item, cfg, fuel);
        assert derives + entries + [Comma] + DeriveEntriesOf(pre[1..]) == derives + DeriveEntriesOf(pre);
        assert NonDerivesOf(pre) == NonDerivesOf(pre[1..]);
      case MetaAttr(meta) =>
        SplitAttrsPartition(pre[1..], rest, nonDerives + [meta], derives, item, cfg, fuel);
        assert nonDerives + [meta] + NonDerivesOf(pre[1..]) == nonDerives + NonDerivesOf(pre);
        assert DeriveEntriesOf(pre) == DeriveEntriesOf(pre[1..]);
      case UnrecognisedAttr(_) =>
    }
  }
}
