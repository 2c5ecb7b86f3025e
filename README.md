# macro_attr! rewrite pipeline in Dafny

This project models the `macro_attr!` macro of the `macro_attr_2018` crate. The model is pure: datatypes, recursive functions and lemmas, matching the source. The macro is a first-match-wins token rewriter written with `macro_rules!`. It expands in these steps:

- It takes an item with its attribute blocks. It peels the attribute blocks off and accepts the item only when it starts with one of twelve keywords.
- It walks the attribute blocks in order:
  - `derive(..)` blocks are flattened onto one pending derive list.
  - Other attributes are kept verbatim.
  - A macro attribute `#[name!(..)]` hands the rest of the expansion to a user macro. That macro resumes the walk through `macro_attr_callback!`.
- It sorts the flattened derive list into built-in derives and user derives (`Name!`, `Name!(args)`, and the hybrid `Name~!`).
- It emits the item once, with a single `derive` attribute for the built-ins.
- It dispatches one `Name! { (args) item }` invocation per user derive.

Modules:

- `Syntax` (`syntax.dfy`):
  - token trees, with each `#[...]` block as one already-classified token
  - attributes and derive entries
  - the item shell (leading keyword and opaque body)
  - the emitted item, the invocations, and the error values
  - `Config`: the `use_proc_macros` flag, and the user's attribute macros as one uninterpreted function
- `Callbacks` (`callback.dfy`): `macro_attr_callback!` and `macro_attr_if_proc_macros!`.
- `ItemClassifier` (`classifier.dfy`): the entry rules and the `@split_attrs_resume` rules.
- `DeriveClassifier` (`derives.dfy`): `@split_derive_attrs` and `@expand_user_drvs`. It also holds a reference description of the derive list, independent of the rules (`Accepted`, `BuiltinsOf`, `UsersOf`, `DeriveOutcome`). `SplitDeriveAttrsSpec` proves that the rules compute exactly that description.
- `AttrPartitioner` (`attrs.dfy`): `@split_attrs`, the attribute-macro round trip and the entry point `Expand`. It also holds a reference description of the partition (`DeriveEntriesOf`, `NonDerivesOf`, `HasUnrecognised`).
- `MacroAttrProperties` (`properties.dfy`): properties of whole expansions, and the items of the crate's tests and documentation as worked instances.

The crate's own commentary at src/lib.rs:334 shows a derive list `A, B(..), C` with an entry that carries arguments. No rule takes such an entry, though. The built-in rule at src/lib.rs:821-830 matches only a bare identifier followed by a comma. The model follows the code. `Name(args)` is a `Malformed` entry, and the expansion fails (`MalformedEntryFails`).

A hybrid attribute `#[name~!]` behaves differently depending on the flag:

- With `use_proc_macros` unset, it behaves exactly like `#[name!]`.
- With the flag set, the branch at src/lib.rs:415-423 and 447-455 re-enters `@split_attrs` with the item's tokens spliced bare, where every rule expects one token tree. As written, no rule matches, and the model returns that failure (`HybridAttrUnderProcMacrosFails`).

## Model

| member | source | states |
|---|---|---|
| Callbacks.MacroAttrCallback | src/lib.rs:875-896 | a successful callback is the captured call `(cb! {..})`, in any bracket kind, with the tokens after the comma appended to its own arguments |
| Callbacks.CallbackSplices | src/lib.rs:875-896 | every captured call, in each of the three bracket kinds, is continued as `cb!` with its own arguments followed by the extra tokens, keeping its bracket |
| Callbacks.CallbackRejects | src/lib.rs:875-896 | input that is not a captured call followed by a comma matches no callback rule |
| ItemClassifier.LeadingAttrs | src/lib.rs:193-323 | the attribute prefix peeled off is exactly the leading run of attribute blocks: it reproduces the prefix and no attribute block follows it |
| ItemClassifier.Classify | src/lib.rs:193-323 | an item is accepted iff the first token after its attribute blocks is one of the twelve keywords; then attributes and shell together give back the input unchanged |
| ItemClassifier.SplitIsUnique | src/lib.rs:193-323 | the split of an input into attribute blocks and shell is unique |
| ItemClassifier.ClassifyRoundTrip | src/lib.rs:497-687 | what an attribute macro passes back is re-read into the very attributes and shell it wrote, and rejected iff the shell's keyword is not one of the twelve |
| DeriveClassifier.ExpandUserDrvs | src/lib.rs:841-853 | one invocation per user derive, in order, each with that derive's name and argument tuple and the bare item shell |
| DeriveClassifier.ClassifyEntry | src/lib.rs:761-830 | an entry before a separator is taken iff it is well formed (`Name!(T)`, `Name!`, `Name~!` or a bare `Name`), and a taken entry adds exactly its own built-in or user derive after those found so far; any other shape matches no rule |
| DeriveClassifier.SplitDeriveAttrs | src/lib.rs:699-830 | on success the item is emitted once with the non-derive attributes as collected, and every invocation receives the bare shell; every failure is a `@split_derive_attrs` mismatch |
| DeriveClassifier.SplitDeriveAttrsSpec | src/lib.rs:699-830 | the rules succeed iff every entry is well formed and directly followed by a separator; then they emit all built-ins and dispatch all user derives of the list, in list order, after those already found |
| DeriveClassifier.EntryStep | src/lib.rs:761-830 | classifying one entry and its separator and continuing agrees with the reference description of the whole list; an entry no rule takes fails the expansion |
| DeriveClassifier.SeparatorStep | src/lib.rs:732-750 | dropping a leading `,,` or `,` leaves the outcome of the reference description unchanged |
| DeriveClassifier.SeparatorsCollapse | src/lib.rs:732-740 | a doubled separator anywhere in the list has the same effect as a single one |
| DeriveClassifier.AcceptedDropComma | src/lib.rs:732-740 | a list with a doubled separator is accepted iff the list with a single one is |
| DeriveClassifier.StdEntriesReadBack | src/lib.rs:715-730 | the emitted `derive(A, B, ..,)` attribute, read back as a derive list, is accepted, and yields exactly the same built-ins and no user derive |
| DeriveClassifier.CommaListReadBack | src/lib.rs:732-830 | a written derive list `A, B, .., Z` of well-formed entries is accepted, and yields the built-ins and user derives of its entries in written order |
| DeriveClassifier.EmitTokens | src/lib.rs:699-730 | the emitted item carries a `derive` attribute, as its first block, exactly when some built-in was found, then only the kept attributes, then the shell unchanged; `EmittedPartition` and `PassThroughIdempotent` state what it reads back as |
| DeriveClassifier.FiltersAppend | src/lib.rs:353-367 | the built-ins and the user derives of two concatenated derive lists are those of the first followed by those of the second |
| DeriveClassifier.AllCommasFacts | src/lib.rs:699-713 | a list of separators only is accepted and yields no built-in and no user derive |
| DeriveClassifier.AcceptedAppend | src/lib.rs:353-367 | two accepted lists, the first empty or ending in a separator, concatenate to an accepted list |
| AttrPartitioner.SplitAttrs | src/lib.rs:337-486 | every success carries an item with one of the twelve keywords, and every invocation receives the emitted shell; no failure is an entry or callback mismatch |
| AttrPartitioner.RunAttrMacro | src/lib.rs:369-406 | a macro attribute resumes the walk on whatever item the macro passes back, which carries one of the twelve keywords, and every invocation receives it |
| AttrPartitioner.Expand | src/lib.rs:147-151 | `macro_attr! { $attributes $item }`, the documented form: it fails at the entry rules iff the input is not attribute blocks followed by an item keyword; every invocation receives the emitted shell |
| AttrPartitioner.SplitAttrsPartition | src/lib.rs:353-367 | walking attributes that call no macro appends their derive entries, one separator per block, to the pending derive list and their other attributes, verbatim and in order, to the non-derive list; an unrecognised block fails the walk |
| MacroAttrProperties.ExpandRejectsNonItems | src/lib.rs:193-323 | an item is rejected by the entry rules iff its keyword is not one of the twelve, whatever its attributes |
| MacroAttrProperties.ExpandStatic | src/lib.rs:337-486 | an item whose attributes call no macro expands to the built-ins of all its derive blocks in one `derive` attribute, its other attributes in order, its unchanged shell, and one invocation per user derive in order; it fails exactly at a bad keyword, an unrecognised block or a malformed derive list |
| MacroAttrProperties.ExpandNoAttributes | tests/items.rs:12-18 | an item without attributes is emitted unchanged and dispatches nothing |
| MacroAttrProperties.PassThroughIdempotent | src/lib.rs:715-730 | expanding an emitted item again gives back the same item, with no invocation |
| MacroAttrProperties.ReexpandEmitted | src/lib.rs:699-730 | whatever a successful expansion emits re-expands to itself, with no invocation |
| MacroAttrProperties.EmittedPartition | src/lib.rs:715-730 | the emitted item's blocks are a derive block holding exactly the built-ins followed by the kept attributes, in order |
| MacroAttrProperties.MetaAttrsFacts | src/lib.rs:472-486 | re-read kept attributes stay in order, add nothing to the derive list and come back verbatim |
| MacroAttrProperties.DeriveBlocksMerge | src/lib.rs:353-367 | two derive blocks are walked exactly as one block listing both, separated by a comma |
| MacroAttrProperties.HybridDeriveResolution | src/lib.rs:788-812 | `Name~!` is emitted as a built-in when procedural macros are in use, and is otherwise dispatched as `Name! { () item }` |
| MacroAttrProperties.ArgumentNormalisation | src/lib.rs:761-779 | `Name!(T)` dispatches `Name! { (T) item }` with T untouched, and `Name!` dispatches `Name! { () item }`, emitting no derive attribute |
| MacroAttrProperties.MalformedEntryFails | src/lib.rs:821-830 | a derive entry that is not a bare name, `Name!`, `Name!(..)` or `Name~!` makes the expansion fail in `@split_derive_attrs` |
| MacroAttrProperties.HybridAttrUnderProcMacrosFails | src/lib.rs:408-470 | with procedural macros in use, an item carrying a hybrid attribute after static ones never expands |
| MacroAttrProperties.HybridAttrFallback | src/lib.rs:408-470 | without procedural macros a hybrid attribute is walked exactly like the macro attribute of the same name and arguments |
| MacroAttrProperties.AttrMacroResumes | src/lib.rs:369-406 | a macro attribute passes the remaining blocks and the item to the macro, and the walk resumes on what comes back with both accumulated lists unchanged; the walk fails at the resume rules when what comes back has no item keyword |
| MacroAttrProperties.TransparentAttrMacroVanishes | src/lib.rs:369-406 | an attribute macro that passes its input back unchanged leaves the rest of the walk as if it were absent |
| MacroAttrProperties.AttrMacroOutOfRounds | src/lib.rs:369-406 | a fact about the model's stand-in for the compiler's recursion limit, not about the rules: a macro attribute met with no rounds of fuel left ends the expansion with the recursion-limit error |
| MacroAttrProperties.ItemRewriteAppliesToEarlierDerives | src/lib.rs:100-123 | when an attribute macro rewrites the item, the whole expansion, including derives written before it, proceeds on the rewritten item |
| MacroAttrProperties.ItemRewriteWalk | src/lib.rs:369-406 | the walk over static attributes, an item-rewriting macro attribute and more attributes equals the walk without the macro attribute on the rewritten item |
| MacroAttrProperties.ResumeCallbackCarriesLists | src/lib.rs:369-386 | the callback handed to an attribute macro, continued through `macro_attr_callback!`, re-enters `@split_attrs_resume` with both collected lists untouched in front of whatever the macro passed back |
| MacroAttrProperties.ExpandItem | src/lib.rs:193-323 | an item written as attribute blocks and a shell with an item keyword enters `@split_attrs` with those blocks and empty lists |
| MacroAttrProperties.ExpandDeriveBlock | src/lib.rs:353-367 | one derive block of well-formed entries emits its built-ins in written order and dispatches its user derives in written order |
| MacroAttrProperties.ExpandDeriveBlocks | src/lib.rs:353-367 | two derive blocks emit the built-ins of both in one attribute, first block first, and dispatch the user derives of both in the same order |
| MacroAttrProperties.PassThroughScenario | tests/passthru_derive.rs:12-15 | nine built-in derives are emitted as written and nothing is dispatched |
| MacroAttrProperties.ColorEnumScenario | tests/enum.rs:4-17 | the eight built-ins are emitted, and `EnumDisplay`, `EnumFromStr` and `IterVariants(ColorVariants)` are dispatched in that order against the bare `pub enum` shell |
| MacroAttrProperties.CrateDocExample | src/lib.rs:117-123 | with `rename_to!` renaming the enum and keeping `#[repr(..)]`, the derives before it are emitted for and dispatched against the renamed item, and `allow` and `repr` are kept in order |
| MacroAttrProperties.ExpandBetweenMetas | src/lib.rs:472-486 | a derive block between two other attributes emits its derives and keeps both attributes in their written order |
| DeriveClassifier.StdAllFacts | src/lib.rs:821-830 | bare names are well-formed entries whose built-ins are exactly those names, in order, and which yield no user derive |

## Left out

- The Rust token grammar and `macro_rules!` fragment matching (`:meta`, `:ident`, `:tt`) are not modelled. Attribute blocks and derive entries arrive already classified. An attribute that is not a `meta` is `UnrecognisedAttr`, and a derive entry of any other shape is `Malformed`.
- The `@as_item` rule (src/lib.rs:860) only re-parses the emitted tokens as items. That grammar check is not modelled.
- User macros are not modelled: attribute macros, derive macros such as TypeName, ReprType, TryFrom and EnumIterator, and `rename_to`. A user attribute macro is an uninterpreted function from its arguments and remaining tokens to the tokens it passes back. The model leaves out attribute macros that emit other items or never call back. Dispatched derive invocations are returned as values, not expanded.
- AttrPartitioner.Expand: input that starts with one of the internal markers (`@split_attrs`, `@split_derive_attrs`, `@expand_user_drvs`, `@as_item`, ...) reaches the internal rules of `macro_attr_impl!` in the source, because `macro_attr!` (src/lib.rs:172-176) forwards every token. The model accepts only the documented form `$attributes $item` and rejects such input at the entry rules.
- AttrPartitioner.SplitAttrs: the compiler's recursion limit is not modelled. A `fuel` bound counts only attribute-macro rounds. Attribute-free recursion always terminates.
- Hygiene and spans are not modelled.
- build.rs is not part of this model. It is a rustc version probe doing process I/O. The `use_proc_macros` flag is a parameter of `Config`.
- ensure_no_std/src/main.rs is not part of this model. It is a `no_std` smoke binary.
- Callbacks.IfProcMacros has no contract of its own. It selects one of two branches and is specified through the members that use it, namely `HybridDeriveResolution`, `HybridAttrFallback` and `HybridAttrUnderProcMacrosFails`.
