/** The item classifier: the entry rules of `macro_attr_impl!` and the
    `@split_attrs_resume` rules (src/lib.rs:193-323, 497-687) peel the leading
    attribute blocks off an item and accept it only if the next token is one of
    twelve keywords. */
module ItemClassifier {
  import opened Syntax

  /** The keywords an item may start with once its attributes are peeled off. */
  const ItemKeywords: set<string> :=
    {"const", "enum", "extern", "fn", "impl", "mod", "pub", "static", "struct", "trait", "type", "use"}

  /** The leading run of attribute blocks of `ts`: a prefix of `ts` that no
      further attribute block follows. */
  function LeadingAttrs(ts: seq<Tok>): (attrs: seq<Attr>)
    ensures |attrs| <= |ts|
    ensures AttrTokens(attrs) == ts[..|attrs|]
    ensures |attrs| < |ts| ==> !ts[|attrs|].AttrBlock?
  {
    if ts != [] && ts[0].AttrBlock? then
      var tail := LeadingAttrs(ts[1..]);
      assert [ts[0].attr] + tail != [] && ([ts[0].attr] + tail)[1..] == tail;
      [ts[0].attr] + tail
    else
      []
  }

  /** An accepted item: its attributes, in order, and the shell after them. */
  datatype Classified = Classified(attrs: seq<Attr>, shell: Shell)

  /** Split `ts` into attribute blocks and an item shell; None when the token
      after the attributes is missing or is not an item keyword. */
  function Classify(ts: seq<Tok>): (r: Option<Classified>)
    ensures r.Some? <==>
      var n := |LeadingAttrs(ts)|;
      n < |ts| && ts[n].Ident? && ts[n].name in ItemKeywords
    ensures r.Some? ==>
      r.value.shell.keyword in ItemKeywords
      && AttrTokens(r.value.attrs) + ShellTokens(r.value.shell) == ts
  {
    var attrs := LeadingAttrs(ts);
    var n := |attrs|;
    if n < |ts| && ts[n].Ident? && ts[n].name in ItemKeywords then
      assert ts == ts[..n] + ts[n..];
      assert ts[n..] == [Ident(ts[n].name)] + ts[n + 1..];
      Some(Classified(attrs, Shell(ts[n].name, ts[n + 1..])))
    else
      None
  }

  /** The split into attributes and shell is unique: a shell starts with an
      identifier, which no attribute block is. */
  lemma {:induction false} SplitIsUnique(a1: seq<Attr>, s1: Shell, a2: seq<Attr>, s2: Shell)
    requires AttrTokens(a1) + ShellTokens(s1) == AttrTokens(a2) + ShellTokens(s2)
    ensures a1 == a2 && s1 == s2
  {
    var t1, t2 := AttrTokens(a1) + ShellTokens(s1), AttrTokens(a2) + ShellTokens(s2);
    assert t1[0] == if a1 == [] then Ident(s1.keyword) else AttrBlock(a1[0]);
    assert t2[0] == if a2 == [] then Ident(s2.keyword) else AttrBlock(a2[0]);
    if a1 == [] {
      assert t2[0].Ident?;
      assert a2 == [] && AttrTokens(a1) == [] && AttrTokens(a2) == [];
      assert ShellTokens(s1) == t1 == t2 == ShellTokens(s2);
      assert s1.body == ShellTokens(s1)[1..];
    } else {
      assert t2[0].AttrBlock? && a2 != [];
      assert t1[1..] == AttrTokens(a1[1..]) + ShellTokens(s1);
      assert t2[1..] == AttrTokens(a2[1..]) + ShellTokens(s2);
      SplitIsUnique(a1[1..], s1, a2[1..], s2);
      assert a1 == [a1[0]] + a1[1..] && a2 == [a2[0]] + a2[1..];
    }
  }

  /** Re-reading attributes followed by a shell gives them back unchanged when
      the shell's keyword is one of the twelve, and fails otherwise: this is
      what the resume rules see when an attribute macro passes the item back. */
  lemma ClassifyRoundTrip(attrs: seq<Attr>, sh: Shell)
    ensures Classify(AttrTokens(attrs) + ShellTokens(sh))
         == if sh.keyword in ItemKeywords then Some(Classified(attrs, sh)) else None
  {
    var ts := AttrTokens(attrs) + ShellTokens(sh);
    LeadingAttrsOf(attrs, sh);
    assert ts[|attrs|] == Ident(sh.keyword);
    var r := Classify(ts);
    if r.Some? {
      SplitIsUnique(r.value.attrs, r.value.shell, attrs, sh);
    }
  }

  lemma {:induction false} LeadingAttrsOf(attrs: seq<Attr>, sh: Shell)
    ensures LeadingAttrs(AttrTokens(attrs) + ShellTokens(sh)) == attrs
    ensures |AttrTokens(attrs)| == |attrs|
  {
    var ts := AttrTokens(attrs) + ShellTokens(sh);
    if attrs == [] {
      assert ts[0] == Ident(sh.keyword);
    } else {
      assert ts[0] == AttrBlock(attrs[0]);
      assert ts[1..] == AttrTokens(attrs[1..]) + ShellTokens(sh);
      LeadingAttrsOf(attrs[1..], sh);
      assert attrs == [attrs[0]] + attrs[1..];
    }
  }
}
