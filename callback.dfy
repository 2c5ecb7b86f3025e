/** `macro_attr_callback!` and `macro_attr_if_proc_macros!` (src/lib.rs:875-926). */
module Callbacks {
  import opened Syntax

  /** A macro call `name! <delim> args <delim>`. */
  datatype MacroCall = MacroCall(name: string, delim: Delim, args: seq<Tok>)

  /** A call written as the single parenthesised token tree `(name! {args})`,
      the form in which a callback is captured and handed around. */
  function CallTree(c: MacroCall): Tok
  {
    Group(Paren, [Ident(c.name), Punct('!'), Group(c.delim, c.args)])
  }

  /** `macro_attr_callback! { (cb! {cb_args}), args.. }` expands to
      `cb! {cb_args args..}`, keeping whichever bracket the captured call used. */
  function MacroAttrCallback(input: seq<Tok>): (r: Result<MacroCall, Error>)
    ensures r.Success? ==>
      exists c: MacroCall :: |input| >= 2 && input[0] == CallTree(c) && input[1] == Punct(',')
        && r.value == MacroCall(c.name, c.delim, c.args + input[2..])
  {
    if |input| >= 2 && input[1] == Punct(',') && input[0].Group? && input[0].delim == Paren
       && |input[0].inner| == 3 && input[0].inner[0].Ident? && input[0].inner[1] == Punct('!')
       && input[0].inner[2].Group?
    then
      var call := MacroCall(input[0].inner[0].name, input[0].inner[2].delim, input[0].inner[2].inner);
      assert input[0] == CallTree(call);
      Success(MacroCall(call.name, call.delim, call.args + input[2..]))
    else
      Failure(NoRuleMatches(CallbackRules))
  }

  /** Every captured call, whatever its bracket kind, is continued with the
      extra tokens appended after its own arguments. */
  lemma CallbackSplices(c: MacroCall, extra: seq<Tok>)
    ensures MacroAttrCallback([CallTree(c), Punct(',')] + extra)
         == Success(MacroCall(c.name, c.delim, c.args + extra))
  {
    var input := [CallTree(c), Punct(',')] + extra;
    assert input[0] == CallTree(c) && input[1] == Punct(',') && input[2..] == extra;
  }

  /** Input that is not a captured call followed by a comma matches no rule. */
  lemma CallbackRejects(input: seq<Tok>)
    requires forall c: MacroCall :: |input| < 2 || input[0] != CallTree(c) || input[1] != Punct(',')
    ensures MacroAttrCallback(input) == Failure(NoRuleMatches(CallbackRules))
  {
  }

  /** `macro_attr_if_proc_macros! { proc_macros: {..} fallback: {..} }`: the
      first branch when the `use_proc_macros` flag is set, the second otherwise. */
  function IfProcMacros<T>(useProcMacros: bool, procMacros: T, fallback: T): T
  {
    if useProcMacros then procMacros else fallback
  }
}
