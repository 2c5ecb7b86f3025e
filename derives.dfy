/** `@split_derive_attrs`, `@expand_user_drvs` and the emission rules
    (src/lib.rs:699-860): the flattened derive list is classified one entry at
    a time into built-in and user derives, the item is emitted once, and one
    invocation is dispatched per user derive. */
module DeriveClassifier {
  import opened Syntax
  import opened Callbacks

  /** The derive list holds nothing but separators: `$(,)*`. */
  predicate AllCommas(es: seq<DeriveEntry>)
  {
    forall i :: 0 <= i < |es| ==> es[i] == Comma
  }

  /** `@expand_user_drvs`: one invocation per user derive, in order, each given
      its own argument tuple and the bare item shell. */
  function ExpandUserDrvs(users: seq<UserDerive>, item: Shell): (calls: seq<Invocation>)
    ensures |calls| == |users|
    ensures forall i :: 0 <= i < |users| ==>
      calls[i].name == users[i].name && calls[i].args == users[i].args && calls[i].item == item
  {
    if users == [] then []
    else [Invocation(users[0].name, users[0].args, item)] + ExpandUserDrvs(users[1..], item)
  }

  /** One entry followed by its separator (src/lib.rs:761-830): a user derive
      `Name!(args)` or `Name!` (normalised to an empty tuple), a hybrid `Name~!`
      (a built-in under procedural macros, an argument-less user derive
      otherwise) or a bare built-in name. Any other shape matches no rule. */
  function ClassifyEntry(e: DeriveEntry, builtins: seq<string>, users: seq<UserDerive>, useProcMacros: bool)
    : (r: Option<(seq<string>, seq<UserDerive>)>)
    ensures r.Some? <==> WellFormed(e)
    ensures r.Some? ==> r.value == (builtins + BuiltinOf(e, useProcMacros), users + UserOf(e, useProcMacros))
  {
    match e
    case User(name, args) =>
      assert builtins + [] == builtins;
      Some((builtins, users + [UserDerive(name, ArgsOrEmpty(args))]))
    case Hybrid(name) =>
      assert builtins + [] == builtins && users + [] == users;
      IfProcMacros(useProcMacros, Some((builtins + [name], users)), Some((builtins, users + [UserDerive(name, [])])))
    case Std(name) =>
      assert users + [] == users;
      Some((builtins + [name], users))
    case _ => None
  }

  /** `@split_derive_attrs` with the pending derive list `derives` and the
      built-in and user derives found so far. Once only separators remain the
      item is emitted (with a `derive` attribute only if some built-in was found)
      and the user derives are dispatched. */
  function SplitDeriveAttrs(derives: seq<DeriveEntry>, builtins: seq<string>, users: seq<UserDerive>,
                            nonDerives: seq<seq<Tok>>, item: Shell, useProcMacros: bool): (r: Result<Expansion, Error>)
    ensures r.Success? ==>
      r.value.item.attrs == nonDerives && r.value.item.item == item
      && (forall c :: c in r.value.calls ==> c.item == item)
    ensures r.Failure? ==> r.error == NoRuleMatches(SplitDeriveRules)
    decreases |derives|
  {
    if AllCommas(derives) then
      Success(Expansion(Emitted(builtins, nonDerives, item), ExpandUserDrvs(users, item)))
    else if |derives| >= 2 && derives[0] == Comma && derives[1] == Comma then
      SplitDeriveAttrs(derives[2..], builtins, users, nonDerives, item, useProcMacros)
    else if derives[0] == Comma then
      SplitDeriveAttrs(derives[1..], builtins, users, nonDerives, item, useProcMacros)
    else if |derives| >= 2 && derives[1] == Comma && ClassifyEntry(derives[0], builtins, users, useProcMacros).Some? then
      var (builtins', users') := ClassifyEntry(derives[0], builtins, users, useProcMacros).value;
      SplitDeriveAttrs(derives[2..], builtins', users', nonDerives, item, useProcMacros)
    else
      Failure(NoRuleMatches(SplitDeriveRules))
  }

  // ---------------------------------------------------------------------------
  // A reference description of the derive list, independent of the rules.

  /** A derive list the rules accept: every entry is a well-formed one and is
      immediately followed by a separator. */
  predicate Accepted(es: seq<DeriveEntry>)
  {
    forall i :: 0 <= i < |es| ==> SeparatedAt(es, i)
  }

  /** Position `i` holds a separator, or a well-formed entry followed by one. */
  predicate SeparatedAt(es: seq<DeriveEntry>, i: nat)
    requires i < |es|
  {
    es[i] == Comma || (WellFormed(es[i]) && i + 1 < |es| && es[i + 1] == Comma)
  }

  /** The built-in derives of a list, in order: bare names, and `Name~!` when
      procedural macros are in use. */
  function BuiltinsOf(es: seq<DeriveEntry>, useProcMacros: bool): seq<string>
  {
    if es == [] then [] else BuiltinOf(es[0], useProcMacros) + BuiltinsOf(es[1..], useProcMacros)
  }

  function BuiltinOf(e: DeriveEntry, useProcMacros: bool): seq<string>
  {
    match e
    case Std(name) => [name]
    case Hybrid(name) => if useProcMacros then [name] else []
    case _ => []
  }

  /** The user derives of a list, in order, with missing arguments normalised
      to an empty tuple; `Name~!` is one when procedural macros are not in use. */
  function UsersOf(es: seq<DeriveEntry>, useProcMacros: bool): seq<UserDerive>
  {
    if es == [] then [] else UserOf(es[0], useProcMacros) + UsersOf(es[1..], useProcMacros)
  }

  function UserOf(e: DeriveEntry, useProcMacros: bool): seq<UserDerive>
  {
    match e
    case User(name, args) => [UserDerive(name, ArgsOrEmpty(args))]
    case Hybrid(name) => if useProcMacros then [] else [UserDerive(name, [])]
    case _ => []
  }

  /** What `@split_derive_attrs` computes, stated without its rules: it
      succeeds exactly on accepted lists, and then emits every built-in and
      dispatches every user derive of the list, after those already found, in
      list order. */
  function DeriveOutcome(es: seq<DeriveEntry>, builtins: seq<string>, users: seq<UserDerive>,
                         nonDerives: seq<seq<Tok>>, item: Shell, useProcMacros: bool): Result<Expansion, Error>
  {
    if Accepted(es) then
      Success(Expansion(Emitted(builtins + BuiltinsOf(es, useProcMacros), nonDerives, item),
                        ExpandUserDrvs(users + UsersOf(es, useProcMacros), item)))
    else Failure(NoRuleMatches(SplitDeriveRules))
  }

  lemma {:induction false} SplitDeriveAttrsSpec(es: seq<DeriveEntry>, builtins: seq<string>, users: seq<UserDerive>,
                                                nonDerives: seq<seq<Tok>>, item: Shell, useProcMacros: bool)
    ensures SplitDeriveAttrs(es, builtins, users, nonDerives, item, useProcMacros)
         == DeriveOutcome(es, builtins, users, nonDerives, item, useProcMacros)
    decreases |es|, 1
  {
    if AllCommas(es) {
      AllCommasFacts(es, useProcMacros);
      assert builtins + BuiltinsOf(es, useProcMacros) == builtins;
      assert users + UsersOf(es, useProcMacros) == users;
    } else if es[0] == Comma {
      SeparatorStep(es, builtins, users, nonDerives, item, useProcMacros);
    } else {
      EntryStep(es, builtins, users, nonDerives, item, useProcMacros);
    }
  }

  /** A leading `,` or `,,` is dropped (src/lib.rs:732-750). */
  lemma {:induction false} SeparatorStep(es: seq<DeriveEntry>, builtins: seq<string>, users: seq<UserDerive>,
                                         nonDerives: seq<seq<Tok>>, item: Shell, useProcMacros: bool)
    requires !AllCommas(es) && es[0] == Comma
    ensures SplitDeriveAttrs(es, builtins, users, nonDerives, item, useProcMacros)
         == DeriveOutcome(es, builtins, users, nonDerives, item, useProcMacros)
    decreases |es|, 0
  {
    AcceptedStep(es);
    assert BuiltinsOf(es, useProcMacros) == BuiltinsOf(es[1..], useProcMacros);
    assert UsersOf(es, useProcMacros) == UsersOf(es[1..], useProcMacros);
    if |es| >= 2 && es[1] == Comma {
      AcceptedStep(es[1..]);
      assert es[1..][1..] == es[2..];
      assert BuiltinsOf(es[1..], useProcMacros) == BuiltinsOf(es[2..], useProcMacros);
      assert UsersOf(es[1..], useProcMacros) == UsersOf(es[2..], useProcMacros);
      SplitDeriveAttrsSpec(es[2..], builtins, users, nonDerives, item, useProcMacros);
      OutcomeShift(es, es[2..], builtins, users, builtins, users, nonDerives, item, useProcMacros);
    } else {
      SplitDeriveAttrsSpec(es[1..], builtins, users, nonDerives, item, useProcMacros);
      OutcomeShift(es, es[1..], builtins, users, builtins, users, nonDerives, item, useProcMacros);
    }
  }

  /** A leading entry followed by `,` is classified; any other shape fails
      (src/lib.rs:761-830). */
  lemma {:induction false} EntryStep(es: seq<DeriveEntry>, builtins: seq<string>, users: seq<UserDerive>,
                                     nonDerives: seq<seq<Tok>>, item: Shell, useProcMacros: bool)
    requires !AllCommas(es) && es[0] != Comma
    ensures SplitDeriveAttrs(es, builtins, users, nonDerives, item, useProcMacros)
         == DeriveOutcome(es, builtins, users, nonDerives, item, useProcMacros)
    decreases |es|, 0
  {
    if |es| >= 2 && es[1] == Comma && WellFormed(es[0]) {
      var tail := es[2..];
      var (b2, u2) := ClassifyEntry(es[0], builtins, users, useProcMacros).value;
      assert SplitDeriveAttrs(es, builtins, users, nonDerives, item, useProcMacros)
          == SplitDeriveAttrs(tail, b2, u2, nonDerives, item, useProcMacros);
      EntryShift(es, builtins, users, useProcMacros);
      SplitDeriveAttrsSpec(tail, b2, u2, nonDerives, item, useProcMacros);
      OutcomeShift(es, tail, builtins, users, b2, u2, nonDerives, item, useProcMacros);
    } else {
      EntryRejected(es, builtins, users, nonDerives, item, useProcMacros);
    }
  }

  /** Classifying the leading entry and dropping it with its separator leaves
      the reference outcome unchanged. */
  lemma EntryShift(es: seq<DeriveEntry>, builtins: seq<string>, users: seq<UserDerive>, useProcMacros: bool)
    requires |es| >= 2 && es[1] == Comma && WellFormed(es[0])
    ensures ClassifyEntry(es[0], builtins, users, useProcMacros).Some?
    ensures var (b2, u2) := ClassifyEntry(es[0], builtins, users, useProcMacros).value;
            (Accepted(es) <==> Accepted(es[2..]))
            && builtins + BuiltinsOf(es, useProcMacros) == b2 + BuiltinsOf(es[2..], useProcMacros)
            && users + UsersOf(es, useProcMacros) == u2 + UsersOf(es[2..], useProcMacros)
  {
    AcceptedStep(es);
    AcceptedStep(es[1..]);
    assert es[1..][1..] == es[2..];
    EntryFilters(es, useProcMacros);
  }

  /** A leading entry that is malformed or not followed by `,` matches no rule,
      and the list is not accepted. */
  lemma EntryRejected(es: seq<DeriveEntry>, builtins: seq<string>, users: seq<UserDerive>,
                      nonDerives: seq<seq<Tok>>, item: Shell, useProcMacros: bool)
    requires !AllCommas(es) && es[0] != Comma
    requires !(|es| >= 2 && es[1] == Comma && WellFormed(es[0]))
    ensures SplitDeriveAttrs(es, builtins, users, nonDerives, item, useProcMacros) == Failure(NoRuleMatches(SplitDeriveRules))
    ensures !Accepted(es)
  {
    AcceptedStep(es);
    if |es| >= 2 && es[1] == Comma {
      assert ClassifyEntry(es[0], builtins, users, useProcMacros).None?;
    }
  }

  /** An entry and its separator contribute the entry's derives only. */
  lemma EntryFilters(es: seq<DeriveEntry>, useProcMacros: bool)
    requires |es| >= 2 && es[1] == Comma
    ensures BuiltinsOf(es, useProcMacros) == BuiltinOf(es[0], useProcMacros) + BuiltinsOf(es[2..], useProcMacros)
    ensures UsersOf(es, useProcMacros) == UserOf(es[0], useProcMacros) + UsersOf(es[2..], useProcMacros)
  {
    SeparatorFilters(es[1..], useProcMacros);
    assert es[1..][1..] == es[2..];
  }

  /** A leading separator contributes no derive. */
  lemma SeparatorFilters(es: seq<DeriveEntry>, useProcMacros: bool)
    requires es != [] && es[0] == Comma
    ensures BuiltinsOf(es, useProcMacros) == BuiltinsOf(es[1..], useProcMacros)
    ensures UsersOf(es, useProcMacros) == UsersOf(es[1..], useProcMacros)
  {
    assert BuiltinOf(Comma, useProcMacros) == [] && UserOf(Comma, useProcMacros) == [];
  }

  /** Moving entries from the list into the accumulators changes nothing. */
  lemma OutcomeShift(es: seq<DeriveEntry>, tail: seq<DeriveEntry>, b1: seq<string>, u1: seq<UserDerive>,
                     b2: seq<string>, u2: seq<UserDerive>, nonDerives: seq<seq<Tok>>, item: Shell, useProcMacros: bool)
    requires Accepted(es) <==> Accepted(tail)
    requires Accepted(es) ==> b1 + BuiltinsOf(es, useProcMacros) == b2 + BuiltinsOf(tail, useProcMacros)
    requires Accepted(es) ==> u1 + UsersOf(es, useProcMacros) == u2 + UsersOf(tail, useProcMacros)
    ensures DeriveOutcome(es, b1, u1, nonDerives, item, useProcMacros)
         == DeriveOutcome(tail, b2, u2, nonDerives, item, useProcMacros)
  {
  }

  /** A list of separators is accepted and holds no derive. */
  lemma {:induction false} AllCommasFacts(es: seq<DeriveEntry>, useProcMacros: bool)
    requires AllCommas(es)
    ensures Accepted(es) && BuiltinsOf(es, useProcMacros) == [] && UsersOf(es, useProcMacros) == []
  {
    if es != [] {
      assert AllCommas(es[1..]) by {
        forall i | 0 <= i < |es[1..]| ensures es[1..][i] == Comma {
          assert es[1..][i] == es[i + 1];
        }
      }
      AllCommasFacts(es[1..], useProcMacros);
    }
  }

  /** How acceptance of a non-empty list depends on its first entry. */
  lemma AcceptedStep(es: seq<DeriveEntry>)
    requires es != []
    ensures Accepted(es) <==> SeparatedAt(es, 0) && Accepted(es[1..])
    ensures es[0] == Comma ==> (Accepted(es) <==> Accepted(es[1..]))
    ensures es[0] != Comma ==>
      (Accepted(es) <==> WellFormed(es[0]) && |es| >= 2 && es[1] == Comma && Accepted(es[1..]))
  {
    var t := es[1..];
    forall i | 1 <= i < |es| ensures SeparatedAt(es, i) == SeparatedAt(t, i - 1) {
      assert t[i - 1] == es[i];
      if i + 1 < |es| { assert t[i] == es[i + 1]; }
    }
    if SeparatedAt(es, 0) && Accepted(t) {
      forall i | 0 <= i < |es| ensures SeparatedAt(es, i) {
        if i > 0 { assert SeparatedAt(t, i - 1); }
      }
    }
    if Accepted(es) {
      forall i | 0 <= i < |t| ensures SeparatedAt(t, i) {
        assert SeparatedAt(es, i + 1);
      }
    }
  }

  /** Both filters distribute over concatenation, so derive entries keep their
      order across derive blocks. */
  lemma FiltersAppend(a: seq<DeriveEntry>, b: seq<DeriveEntry>, useProcMacros: bool)
    ensures BuiltinsOf(a + b, useProcMacros) == BuiltinsOf(a, useProcMacros) + BuiltinsOf(b, useProcMacros)
    ensures UsersOf(a + b, useProcMacros) == UsersOf(a, useProcMacros) + UsersOf(b, useProcMacros)
  {
    BuiltinsAppend(a, b, useProcMacros);
    UsersAppend(a, b, useProcMacros);
  }

  lemma {:induction false} BuiltinsAppend(a: seq<DeriveEntry>, b: seq<DeriveEntry>, useProcMacros: bool)
    ensures BuiltinsOf(a + b, useProcMacros) == BuiltinsOf(a, useProcMacros) + BuiltinsOf(b, useProcMacros)
  {
    if a != [] {
      assert (a + b)[1..] == a[1..] + b;
      BuiltinsAppend(a[1..], b, useProcMacros);
    } else {
      assert a + b == b;
    }
  }


  lemma {:induction false} UsersAppend(a: seq<DeriveEntry>, b: seq<DeriveEntry>, useProcMacros: bool)
    ensures UsersOf(a + b, useProcMacros) == UsersOf(a, useProcMacros) + UsersOf(b, useProcMacros)
  {
    if a != [] {
      assert (a + b)[1..] == a[1..] + b;
      UsersAppend(a[1..], b, useProcMacros);
    } else {
      assert a + b == b;
    }
  }


  /** A doubled separator is skipped like a single one (`derive(A,)` and two
      derive blocks leave no empty entry behind). */
  lemma SeparatorsCollapse(x: seq<DeriveEntry>, y: seq<DeriveEntry>, builtins: seq<string>, users: seq<UserDerive>,
                           nonDerives: seq<seq<Tok>>, item: Shell, useProcMacros: bool)
    ensures SplitDeriveAttrs(x + [Comma, Comma] + y, builtins, users, nonDerives, item, useProcMacros)
         == SplitDeriveAttrs(x + [Comma] + y, builtins, users, nonDerives, item, useProcMacros)
  {
    var long, short := x + [Comma, Comma] + y, x + [Comma] + y;
    AcceptedDropComma(x, y);
    assert BuiltinsOf(long, useProcMacros) == BuiltinsOf(short, useProcMacros)
        && UsersOf(long, useProcMacros) == UsersOf(short, useProcMacros) by {
      var y1, y2 := [Comma] + y, [Comma, Comma] + y;
      assert long == x + y2 && short == x + y1 && y2 == [Comma] + y1;
      FiltersAppend(x, y2, useProcMacros);
      FiltersAppend(x, y1, useProcMacros);
      assert y2[1..] == y1;
      SeparatorFilters(y2, useProcMacros);
    }
    OutcomeShift(long, short, builtins, users, builtins, users, nonDerives, item, useProcMacros);
    SplitDeriveAttrsSpec(long, builtins, users, nonDerives, item, useProcMacros);
    SplitDeriveAttrsSpec(short, builtins, users, nonDerives, item, useProcMacros);
  }

  lemma AcceptedDropComma(x: seq<DeriveEntry>, y: seq<DeriveEntry>)
    ensures Accepted(x + [Comma, Comma] + y) <==> Accepted(x + [Comma] + y)
  {
    var long, short := x + [Comma, Comma] + y, x + [Comma] + y;
    var n := |x|;
    forall i | 0 <= i < n ensures SeparatedAt(long, i) == SeparatedAt(short, i) {
      assert long[i] == short[i] && long[i + 1] == short[i + 1];
    }
    forall i | n + 1 < i < |long| ensures SeparatedAt(long, i) == SeparatedAt(short, i - 1) {
      assert long[i] == short[i - 1];
      if i + 1 < |long| { assert long[i + 1] == short[i]; }
    }
    assert long[n] == Comma && long[n + 1] == Comma && short[n] == Comma;
    if Accepted(short) {
      forall i | 0 <= i < |long| ensures SeparatedAt(long, i) {
        if i < n { assert SeparatedAt(short, i); } else if i > n + 1 { assert SeparatedAt(short, i - 1); }
      }
    }
    if Accepted(long) {
      forall i | 0 <= i < |short| ensures SeparatedAt(short, i) {
        if i < n { assert SeparatedAt(long, i); } else if i > n { assert SeparatedAt(long, i + 1); }
      }
    }
  }

  // ---------------------------------------------------------------------------
  // Emission

  /** The derive entries `A, B, ..,` of the synthesized `#[derive(A, B, ..,)]`
      (src/lib.rs:719-724): the names written as a list, each followed by a
      separator. */
  function StdEntries(names: seq<string>): seq<DeriveEntry>
  {
    if names == [] then [] else CommaList(StdAll(names)) + [Comma]
  }

  /** Bare built-in names as derive entries. */
  function StdAll(names: seq<string>): (es: seq<DeriveEntry>)
    ensures |es| == |names| && forall i :: 0 <= i < |names| ==> es[i] == Std(names[i])
  {
    if names == [] then [] else [Std(names[0])] + StdAll(names[1..])
  }

  /** Bare names are well-formed entries whose built-ins are exactly those
      names, in order, and which hold no user derive. */
  lemma {:induction false} StdAllFacts(names: seq<string>, useProcMacros: bool)
    ensures forall i :: 0 <= i < |names| ==> WellFormed(StdAll(names)[i])
    ensures BuiltinsOf(StdAll(names), useProcMacros) == names && UsersOf(StdAll(names), useProcMacros) == []
  {
    if names != [] {
      StdAllFacts(names[1..], useProcMacros);
      assert StdAll(names)[1..] == StdAll(names[1..]);
      assert names == [names[0]] + names[1..];
    }
  }

  /** The tokens of the emitted item (`@as_item`, src/lib.rs:699-730): a
      `derive` attribute block first exactly when some built-in was found, then
      the kept attributes in order, then the shell. */
  function EmitTokens(e: Emitted): (ts: seq<Tok>)
    ensures var n := (if e.derives == [] then 0 else 1) + |e.attrs|;
            (n <= |ts| && ts[n..] == ShellTokens(e.item)
             && forall i :: 0 <= i < n ==> ts[i].AttrBlock? && (ts[i].attr.DeriveAttr? <==> i == 0 && e.derives != []))
  {
    var d := if e.derives == [] then [] else [AttrBlock(DeriveAttr(StdEntries(e.derives)))];
    var metas := AttrTokens(MetaAttrs(e.attrs));
    AttrTokensAt(MetaAttrs(e.attrs));
    assert forall i :: 0 <= i < |metas| ==> metas[i].AttrBlock? && metas[i].attr.MetaAttr?;
    assert (d + metas + ShellTokens(e.item))[|d| + |metas|..] == ShellTokens(e.item);
    d + metas + ShellTokens(e.item)
  }

  /** One `#[meta]` block per kept attribute, in order. */
  function MetaAttrs(metas: seq<seq<Tok>>): (attrs: seq<Attr>)
    ensures |attrs| == |metas| && forall i :: 0 <= i < |metas| ==> attrs[i] == MetaAttr(metas[i])
  {
    if metas == [] then [] else [MetaAttr(metas[0])] + MetaAttrs(metas[1..])
  }

  /** The synthesized derive list is accepted and gives back exactly its names
      as built-ins, dispatching nothing. */
  lemma StdEntriesReadBack(names: seq<string>, useProcMacros: bool)
    ensures Accepted(StdEntries(names) + [Comma])
    ensures BuiltinsOf(StdEntries(names) + [Comma], useProcMacros) == names
    ensures UsersOf(StdEntries(names) + [Comma], useProcMacros) == []
  {
    var es := StdEntries(names) + [Comma];
    AllCommasFacts([Comma], useProcMacros);
    if names == [] {
      assert es == [Comma];
    } else {
      var block := CommaList(StdAll(names)) + [Comma];
      StdAllFacts(names, useProcMacros);
      CommaListReadBack(StdAll(names), useProcMacros);
      AcceptedAppend(block, [Comma]);
      FiltersAppend(block, [Comma], useProcMacros);
      assert names + [] == names;
      var none: seq<UserDerive> := [];
      assert none + none == none;
    }
  }

  /** A single entry contributes its own derives. */
  lemma SingleEntryFilters(e: DeriveEntry, useProcMacros: bool)
    ensures BuiltinsOf([e], useProcMacros) == BuiltinOf(e, useProcMacros)
    ensures UsersOf([e], useProcMacros) == UserOf(e, useProcMacros)
  {
    assert [e][1..] == [];
    assert BuiltinOf(e, useProcMacros) + [] == BuiltinOf(e, useProcMacros);
    assert UserOf(e, useProcMacros) + [] == UserOf(e, useProcMacros);
  }

  // ---------------------------------------------------------------------------
  // Derive lists as written

  /** Entries written `A, B, .., Z`: separated by commas, with no trailing one. */
  function CommaList(xs: seq<DeriveEntry>): seq<DeriveEntry>
  {
    if |xs| <= 1 then xs else [xs[0], Comma] + CommaList(xs[1..])
  }

  /** A well-formed entry: neither a separator nor a shape no rule accepts. */
  predicate WellFormed(e: DeriveEntry)
  {
    e != Comma && !e.Malformed?
  }

  /** A derive block `derive(A, B, .., Z)` of well-formed entries, closed by the
      separator the walk appends, is accepted and yields each entry's derive in
      the written order. */
  lemma CommaListReadBack(xs: seq<DeriveEntry>, useProcMacros: bool)
    requires forall i :: 0 <= i < |xs| ==> WellFormed(xs[i])
    ensures Accepted(CommaList(xs) + [Comma])
    ensures BuiltinsOf(CommaList(xs) + [Comma], useProcMacros) == BuiltinsOf(xs, useProcMacros)
    ensures UsersOf(CommaList(xs) + [Comma], useProcMacros) == UsersOf(xs, useProcMacros)
  {
    CommaListAccepted(xs);
    CommaListFilters(xs, useProcMacros);
    FiltersAppend(CommaList(xs), [Comma], useProcMacros);
    AllCommasFacts([Comma], useProcMacros);
    assert BuiltinsOf(xs, useProcMacros) + [] == BuiltinsOf(xs, useProcMacros);
    assert UsersOf(xs, useProcMacros) + [] == UsersOf(xs, useProcMacros);
  }

  lemma {:induction false} CommaListAccepted(xs: seq<DeriveEntry>)
    requires forall i :: 0 <= i < |xs| ==> WellFormed(xs[i])
    ensures Accepted(CommaList(xs) + [Comma])
  {
    var es := CommaList(xs) + [Comma];
    if xs == [] {
      assert es == [Comma] && SeparatedAt(es, 0);
    } else if |xs| == 1 {
      assert es == [xs[0], Comma];
      assert SeparatedAt(es, 0) && SeparatedAt(es, 1);
    } else {
      assert forall i :: 0 <= i < |xs[1..]| ==> WellFormed(xs[1..][i]) by {
        forall i | 0 <= i < |xs[1..]| ensures WellFormed(xs[1..][i]) { assert xs[1..][i] == xs[i + 1]; }
      }
      CommaListAccepted(xs[1..]);
      var tail := CommaList(xs[1..]) + [Comma];
      assert es == [xs[0], Comma] + tail;
      assert es[1..] == [Comma] + tail && es[1..][1..] == tail;
      AcceptedStep(es[1..]);
      AcceptedStep(es);
    }
  }

  /** The separators `CommaList` inserts hold no derive. */
  lemma {:induction false} CommaListFilters(xs: seq<DeriveEntry>, useProcMacros: bool)
    ensures BuiltinsOf(CommaList(xs), useProcMacros) == BuiltinsOf(xs, useProcMacros)
    ensures UsersOf(CommaList(xs), useProcMacros) == UsersOf(xs, useProcMacros)
  {
    if |xs| > 1 {
      CommaListFilters(xs[1..], useProcMacros);
      FiltersAppend([xs[0], Comma], CommaList(xs[1..]), useProcMacros);
      FiltersAppend([xs[0]], [Comma], useProcMacros);
      FiltersAppend([xs[0]], xs[1..], useProcMacros);
      AllCommasFacts([Comma], useProcMacros);
      assert [xs[0], Comma] == [xs[0]] + [Comma] && xs == [xs[0]] + xs[1..];
    }
  }

  /** Two accepted lists, the first ending in a separator, join into an
      accepted list. */
  lemma AcceptedAppend(a: seq<DeriveEntry>, b: seq<DeriveEntry>)
    requires Accepted(a) && Accepted(b) && (a == [] || a[|a| - 1] == Comma)
    ensures Accepted(a + b)
  {
    var ab := a + b;
    forall i | 0 <= i < |ab| ensures SeparatedAt(ab, i) {
      if i < |a| {
        assert SeparatedAt(a, i) && ab[i] == a[i];
        if i + 1 < |a| { assert ab[i + 1] == a[i + 1]; }
      } else {
        assert SeparatedAt(b, i - |a|) && ab[i] == b[i - |a|];
        if i + 1 < |ab| { assert ab[i + 1] == b[i + 1 - |a|]; }
      }
    }
  }
}
