# Mark-expressions visitor, modelled in Dafny

This project models the call-marking visitor of the swc plugin
`swc-plugin-mark-expressions` (`src/lib.rs`). The visitor walks a JavaScript or
TypeScript module, children first. It records every call that matches the
configuration:

- a bare call `name(...)` of a tracked function;
- a call `obj.method(...)` or `this.method(...)` of a method tracked for that receiver;
- a dynamic `import(...)` whose leading block comments parse to an object with a
  truthy configured key (a "magic comment").

Each match becomes one record string holding the call's literal arguments. At the
end of the module, when anything was recorded, the visitor attaches one block
comment before the module's start. That comment holds every record, framed by
`---BEGIN <title>–--` and `---END <title>---`.

Files, one module each:

- `wrappers.dfy`: `Option`.
- `json.dfy`: the parsed JSON value, serde's three number representations and the truthiness test.
- `syntax.dfy`: the part of the syntax tree the visitor looks at, and the comment store (a map from position to leading comments).
- `config.dfy`: the configuration and the lookup sets built from it.
- `classify.dfy`: `check_fn_call` and `check_method_call`.
- `magic.dfy`: the magic-comment evaluator, as functions.
- `arguments.dfy`: `get_args` and the per-argument rendering.
- `text.dfy`: `join`.
- `marks.dfy`: the records a tree produces, the post-order enumeration of its calls, and the annotation.
- `visitor.dfy`: the `MarkExpression` class. It holds `results` and the comment store, and its methods
  loop and recurse as the Rust code does. Each method is proved against the functions of `marks.dfy`,
  `magic.dfy` and `arguments.dfy`.

The model follows `src/lib.rs` as written; in particular:

- A method record is `["method", "object", [args]]`: the method name comes first.
- Arguments are flat literal texts: strings are quoted without escaping; numbers,
  booleans and `null` are written as they are. Arrays and objects are not extracted.
- Records carry no source position.
- A computed property `obj["m"]` never matches.
- With no dynamic-import keys configured, no `import(...)` is ever recorded.
- `add_leading` appends the annotation after any comment already attached at the module start.
- The begin marker ends in an en dash followed by two hyphens (`–--`), exactly as written.

## Model

| member | source | states |
|---|---|---|
| `Config.NameSet` | src/lib.rs:37-50 | a name is in the collected set iff the optional list is present and contains it; an absent list gives the empty set |
| `Config.MethodSets` | src/lib.rs:51-57 | the method map has exactly the configured receivers as keys, and each receiver's set holds exactly its listed method names |
| `Config.Compile` | src/lib.rs:35-66 | the title defaults to "", and the function, dynamic-import and method lookups contain exactly what the configuration lists |
| `Config.EmptyConfigTracksNothing` | src/lib.rs:36-57 | a configuration with every field absent gives an empty title, empty sets and an empty method map |
| `Config.NameSetCollapsesDuplicates` | src/lib.rs:37-43 | duplicates collapse: the set is never larger than the list, and equal in size exactly when the list has no repeated name |
| `Classify.CheckFnCall` | src/lib.rs:69-75 | returns `Some(n)` exactly when the callee name `n` is a tracked function, `None` otherwise |
| `Classify.CheckMethodCall` | src/lib.rs:77-95 | returns `Some((o, m))` iff the receiver is an identifier `o` or `this` (with `o` = "this"), the method map has an entry for `o`, and the property is a plain identifier `m` in it |
| `Classify.OnlyPlainPropertiesMatch` | src/lib.rs:86-93 | a computed or private property never matches |
| `Classify.ThisIsKeyedByName` | src/lib.rs:78-85 | `this.m(...)` is looked up under the key "this", exactly like a receiver named `this` |
| `Classify.MethodsArePerObject` | src/lib.rs:78-92 | a method tracked for one receiver matches there and not on a receiver that does not list it |
| `Json.NumberTruthyIsNonZero` | src/lib.rs:116-124 | the i64/f64/u64 test on a JSON number holds exactly when the number is not zero |
| `Json.TruthyTable` | src/lib.rs:111-140 | `true`, non-zero numbers, non-empty strings, arrays and objects are truthy; `false`, zero, `""` and `null` are not |
| `Json.MissingKeyNotTruthy` | src/lib.rs:110 | a key absent from the object never selects it |
| `Json.NoKeysNeverAdds` | src/lib.rs:107-143 | with no configured key, no value is selected |
| `Json.ShouldAddOnlyConfiguredKeys` | src/lib.rs:109-110 | adding or changing an entry whose key is not configured does not change whether a value is selected |
| `MagicComments.Kept` | src/lib.rs:100-148 | a comment contributes a value iff it is a block comment whose text in braces parses to a value that is an object with a truthy configured key; the value contributed is that parsed value |
| `MagicComments.ImportComments` | src/lib.rs:153-157 | the result is `None` exactly when nothing was retained |
| `MagicComments.RetainedEmptyIff` | src/lib.rs:100-157 | nothing is retained exactly when no leading comment qualifies on its own, so the result is `None` iff no comment qualified |
| `MagicComments.RetainedAppend` | src/lib.rs:99-151 | comments are scanned independently, in order: the values kept from `a + b` are those kept from `a` followed by those kept from `b` |
| `MagicComments.RetainedSound` | src/lib.rs:100-147 | at most one value per comment; every kept value is an object with a truthy configured key, parsed from a block comment among the inputs |
| `MagicComments.NoKeysNoImport` | src/lib.rs:109-157 | with an empty key set the result is always `None` |
| `MagicComments.LineCommentsIgnored` | src/lib.rs:101 | inserting a line comment anywhere among the leading comments changes nothing |
| `MagicComments.ImportCommentsExtend` | src/lib.rs:144-155 | a further qualifying comment appends ", " and its serialisation to the joined result, or is the whole result if it is the first |
| `Arguments.ArgTextsOnePerArg` | src/lib.rs:161-182 | one entry per argument, the i-th entry rendering the i-th argument |
| `Arguments.ArgTextClassifies` | src/lib.rs:163-181 | the text is `null` iff the argument is not a string, number or boolean literal; it starts with a quote iff the argument is a string literal, and the string sits between the quotes; it is `true`/`false` iff the argument is a boolean literal |
| `Arguments.GetArgs` | src/lib.rs:160-184 | the loop's result is the argument texts joined with ", " |
| `Syntax.AddLeading` | src/lib.rs:200-207 | the comment is appended to those before the position, and every other position keeps its comments |
| `Marks.Own` | src/lib.rs:213-244 | a call contributes at most one record of its own, and one exactly when its callee is a tracked bare identifier, a member access `CheckMethodCall` accepts, or an `import` whose comments at the first argument (else the keyword) qualify; super calls and any other callee contribute nothing |
| `Marks.MarksArePostOrder` | src/lib.rs:211-245 | the records of a tree are the own records of its call nodes in post-order, each call after the calls nested in its callee and arguments, left to right |
| `Marks.NoMatchNoMarks` | src/lib.rs:211-245 | a tree in which no call matches records nothing |
| `Marks.UnmatchedModuleUntouched` | src/lib.rs:188-209 | a module in which no call matches gets no records and no comment |
| `Marks.EnclosingCallComesLast` | src/lib.rs:211-245 | a matching call's record is the last one, after every record from its callee and arguments |
| `Marks.ImportLooksAtFirstArgument` | src/lib.rs:234-237 | when `import(...)` has an argument, comments before the `import` keyword do not matter |
| `Marks.ImportWithoutArgumentsLooksAtKeyword` | src/lib.rs:234-241 | without arguments, the comments before the `import` keyword decide |
| `Marks.BannerRoundTrip` | src/lib.rs:193-198 | the annotation is framed by the begin and end markers, each holding the title, and what lies between them is exactly the records joined with ",\n    " |
| `Marks.Annotate` | src/lib.rs:192-208 | no records leave the store unchanged; otherwise exactly one block comment holding the annotation is appended at the module start and every other position is untouched |
| `Visitor.MarkExpression.constructor` | src/lib.rs:35-67 | the lookups are those built from the configuration, the comment store is the one given, and `results` starts empty |
| `Visitor.MarkExpression.CheckDynamicImport` | src/lib.rs:97-158 | the nested loops over comments and keys compute the joined serialisations of exactly the qualifying comments, or `None` |
| `Visitor.MarkExpression.VisitExpr` | src/lib.rs:211-212 | visiting a subtree appends exactly its records, in post-order, to `results` |
| `Visitor.MarkExpression.VisitExprs` | src/lib.rs:191 | visiting a list of items appends their records in order |
| `Visitor.MarkExpression.VisitCallExpr` | src/lib.rs:211-245 | children are visited first; then the call's own record, if any, is appended; nothing else changes |
| `Visitor.MarkExpression.VisitModule` | src/lib.rs:188-209 | the module's records are appended, and the store gains the annotation exactly when `results` is non-empty |
| `Visitor.TransformModule` | src/lib.rs:265 | a fresh visitor over one module yields the module's records and the store annotated with them |

## Left out

- `process_transform` and the plugin host glue (src/lib.rs:248-267): reading and deserialising the configuration, and its panics. The model takes an already-built `Config` value.
- The JSON-with-comments parser and the JSON serialiser (src/lib.rs:105, 145) are external libraries. They are constructor parameters `parse` (returning `None` on failure or empty input) and `toJson`.
- Number formatting (src/lib.rs:170): a number literal carries the text `to_string` gives it: digits with an optional point for a finite value, or `Infinity` / `inf` for a literal too large for `f64` (such as `1e999`). The exact digits of that text are not computed.
- JSON numbers are serde's three representations, and the f64 is a real number: JSON has no NaN or infinity, and rounding does not decide whether a value is zero.
- The syntax tree is reduced to identifiers, `this`, literals, member accesses, calls and `Other` nodes. An `Other` node stands for every other node kind and keeps only its sub-expressions, in visiting order. Spans are start positions only; the annotation comment's span is not modelled.
- The comment store is a map from position to comments; the host's real store and its sharing are not modelled.
- Tree nodes are values, so the model cannot express in-place rewriting; the visitor changes only `results` and the comment store.
- Iteration order of the dynamic-import key set: the loop picks keys in an unspecified order, as `HashSet` iteration does; the result does not depend on it.
