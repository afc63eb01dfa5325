/**
 * What the traversal records (src/lib.rs:187-245), as functions: the record
 * one call contributes, the records of a whole tree in children-first
 * order, and the annotation comment added at the module start.
 */
module Marks {
  import opened Wrappers
  import opened Json
  import opened Syntax
  import opened Config
  import opened Text
  import opened Classify
  import opened MagicComments
  import opened Arguments

  /** Everything the classification of a call depends on. */
  datatype Env = Env(
    patterns: Patterns,
    comments: CommentStore,
    parse: string -> Option<Value>,
    toJson: Value -> string)

  /** `["name", [args]]` (src/lib.rs:217). */
  function FnRecord(name: string, args: string): string {
    "[\"" + name + "\", [" + args + "]]"
  }

  /** `["method", "object", [args]]`: the method name comes first (src/lib.rs:223-228). */
  function MethodRecord(obj: string, fnName: string, args: string): string {
    "[\"" + fnName + "\", \"" + obj + "\", [" + args + "]]"
  }

  /** `["import", comments, [args]]` (src/lib.rs:239). */
  function ImportRecord(magic: string, args: string): string {
    "[\"import\", " + magic + ", [" + args + "]]"
  }

  /** Where the comments of `import(...)` are looked up: the first argument, else the keyword. */
  function ImportPos(keyword: Pos, args: seq<Arg>): Pos {
    if |args| > 0 then args[0].lo else keyword
  }

  /** `check_dynamic_import` at `pos`. */
  function DynamicImport(env: Env, pos: Pos): Option<string> {
    ImportComments(env.patterns.dynamicImports, env.parse, env.toJson, Leading(env.comments, pos))
  }

  /** The record the call itself contributes once its children are done: none or one. */
  function Own(env: Env, call: CallExpr): (r: seq<string>)
    ensures |r| <= 1
    ensures r != [] <==>
      || (call.callee.CalleeExpr? && call.callee.expr.Ident? && call.callee.expr.name in env.patterns.functions)
      || (call.callee.CalleeExpr? && call.callee.expr.Member?
          && CheckMethodCall(env.patterns, call.callee.expr.obj, call.callee.expr.prop).Some?)
      || (call.callee.Import? && DynamicImport(env, ImportPos(call.callee.lo, call.args)).Some?)
  {
    var args := Join(", ", ArgTexts(call.args));
    match call.callee
    case CalleeExpr(Ident(name)) =>
      (match CheckFnCall(env.patterns, name)
       case Some(n) => [FnRecord(n, args)]
       case None => [])
    case CalleeExpr(Member(obj, prop)) =>
      (match CheckMethodCall(env.patterns, obj, prop)
       case Some((o, m)) => [MethodRecord(o, m, args)]
       case None => [])
    case CalleeExpr(_) => []
    case Import(lo) =>
      (match DynamicImport(env, ImportPos(lo, call.args))
       case Some(magic) => [ImportRecord(magic, args)]
       case None => [])
    case Super => []
  }

  /** The records appended while visiting `e`: children first, then the call itself. */
  function MarksOf(env: Env, e: Expr): seq<string>
    decreases e, 1
  {
    match e
    case Ident(_) => []
    case This => []
    case Lit(_) => []
    case Member(obj, prop) => MarksOf(env, obj) + PropMarks(env, prop)
    case Call(call) => CallMarks(env, call)
    case Other(children) => ExprsMarks(env, children)
  }

  /** `visit_mut_call_expr`: callee, then arguments, then the call's own record. */
  function CallMarks(env: Env, call: CallExpr): seq<string>
    decreases call, 1
  {
    CalleeMarks(env, call.callee) + ArgsMarks(env, call.args) + Own(env, call)
  }

  function PropMarks(env: Env, prop: MemberProp): seq<string>
    decreases prop, 1
  {
    if prop.Computed? then MarksOf(env, prop.expr) else []
  }

  function CalleeMarks(env: Env, callee: Callee): seq<string>
    decreases callee, 1
  {
    if callee.CalleeExpr? then MarksOf(env, callee.expr) else []
  }

  function ArgsMarks(env: Env, args: seq<Arg>): seq<string>
    decreases args, 0
  {
    if args == [] then [] else ArgMarks(env, args[0]) + ArgsMarks(env, args[1..])
  }

  function ArgMarks(env: Env, a: Arg): seq<string>
    decreases a, 2
  {
    MarksOf(env, a.expr)
  }

  function ExprsMarks(env: Env, es: seq<Expr>): seq<string>
    decreases es, 0
  {
    if es == [] then [] else MarksOf(env, es[0]) + ExprsMarks(env, es[1..])
  }

  // ----- Post-order: an independent enumeration of the call nodes -----

  /** Every call node of `e`, each after the calls nested in its callee and arguments. */
  function CallsOf(e: Expr): seq<CallExpr>
    decreases e, 1
  {
    match e
    case Member(obj, prop) => CallsOf(obj) + (if prop.Computed? then CallsOf(prop.expr) else [])
    case Call(call) =>
      (if call.callee.CalleeExpr? then CallsOf(call.callee.expr) else []) + ArgsCalls(call.args) + [call]
    case Other(children) => ExprsCalls(children)
    case _ => []
  }

  function ArgsCalls(args: seq<Arg>): seq<CallExpr>
    decreases args, 0
  {
    if args == [] then [] else ArgCalls(args[0]) + ArgsCalls(args[1..])
  }

  function ArgCalls(a: Arg): seq<CallExpr>
    decreases a, 2
  {
    CallsOf(a.expr)
  }

  function ExprsCalls(es: seq<Expr>): seq<CallExpr>
    decreases es, 0
  {
    if es == [] then [] else CallsOf(es[0]) + ExprsCalls(es[1..])
  }

  /** The records of the given call sites, in order. */
  function OwnAll(env: Env, sites: seq<CallExpr>): seq<string> {
    if sites == [] then [] else Own(env, sites[0]) + OwnAll(env, sites[1..])
  }

  lemma {:induction false} OwnAllAppend(env: Env, a: seq<CallExpr>, b: seq<CallExpr>)
    ensures OwnAll(env, a + b) == OwnAll(env, a) + OwnAll(env, b)
  {
    if a == [] {
      assert a + b == b;
    } else {
      assert (a + b)[1..] == a[1..] + b;
      OwnAllAppend(env, a[1..], b);
    }
  }

  /**
   * The traversal records exactly the matching calls, in post-order: the
   * records of `e` are the own records of its call nodes listed children
   * first, left to right.
   */
  lemma {:induction false} MarksArePostOrder(env: Env, e: Expr)
    ensures MarksOf(env, e) == OwnAll(env, CallsOf(e))
    decreases e, 1
  {
    match e
    case Ident(_) =>
    case This =>
    case Lit(_) =>
    case Member(obj, prop) =>
      MarksArePostOrder(env, obj);
      var propCalls := if prop.Computed? then CallsOf(prop.expr) else [];
      if prop.Computed? {
        MarksArePostOrder(env, prop.expr);
      }
      OwnAllAppend(env, CallsOf(obj), propCalls);
    case Call(call) =>
      var calleeCalls := if call.callee.CalleeExpr? then CallsOf(call.callee.expr) else [];
      if call.callee.CalleeExpr? {
        MarksArePostOrder(env, call.callee.expr);
      }
      ArgsMarksArePostOrder(env, call.args);
      OwnAllAppend(env, calleeCalls, ArgsCalls(call.args));
      OwnAllAppend(env, calleeCalls + ArgsCalls(call.args), [call]);
      assert OwnAll(env, [call]) == Own(env, call);
      assert CalleeMarks(env, call.callee) == OwnAll(env, calleeCalls);
      assert CallsOf(e) == calleeCalls + ArgsCalls(call.args) + [call];
      assert MarksOf(env, e) == CallMarks(env, call);
    case Other(children) =>
      ExprsMarksArePostOrder(env, children);
  }

  lemma {:induction false} ArgsMarksArePostOrder(env: Env, args: seq<Arg>)
    ensures ArgsMarks(env, args) == OwnAll(env, ArgsCalls(args))
    decreases args, 0
  {
    if args != [] {
      ArgMarksArePostOrder(env, args[0]);
      ArgsMarksArePostOrder(env, args[1..]);
      OwnAllAppend(env, ArgCalls(args[0]), ArgsCalls(args[1..]));
    }
  }

  lemma {:induction false} ArgMarksArePostOrder(env: Env, a: Arg)
    ensures ArgMarks(env, a) == OwnAll(env, ArgCalls(a))
    decreases a, 2
  {
    MarksArePostOrder(env, a.expr);
  }

  lemma {:induction false} ExprsMarksArePostOrder(env: Env, es: seq<Expr>)
    ensures ExprsMarks(env, es) == OwnAll(env, ExprsCalls(es))
    decreases es, 0
  {
    if es != [] {
      MarksArePostOrder(env, es[0]);
      ExprsMarksArePostOrder(env, es[1..]);
      OwnAllAppend(env, CallsOf(es[0]), ExprsCalls(es[1..]));
    }
  }

  lemma {:induction false} OwnAllEmpty(env: Env, sites: seq<CallExpr>)
    requires forall i :: 0 <= i < |sites| ==> Own(env, sites[i]) == []
    ensures OwnAll(env, sites) == []
  {
    if sites != [] {
      OwnAllEmpty(env, sites[1..]);
    }
  }

  /** A tree in which no call matches any rule records nothing. */
  lemma NoMatchNoMarks(env: Env, e: Expr)
    requires forall c :: c in CallsOf(e) ==> Own(env, c) == []
    ensures MarksOf(env, e) == []
  {
    MarksArePostOrder(env, e);
    OwnAllEmpty(env, CallsOf(e));
  }

  /**
   * A module in which no call matches records nothing, so the comment store
   * is left exactly as it was.
   */
  lemma UnmatchedModuleUntouched(env: Env, m: Module, title: string)
    requires forall c :: c in ExprsCalls(m.body) ==> Own(env, c) == []
    ensures ExprsMarks(env, m.body) == []
    ensures Annotate(env.comments, m.lo, title, ExprsMarks(env, m.body)) == env.comments
  {
    ExprsMarksArePostOrder(env, m.body);
    OwnAllEmpty(env, ExprsCalls(m.body));
  }

  /**
   * A matching call's record comes last, after every record of the calls
   * nested in its callee and arguments.
   */
  lemma EnclosingCallComesLast(env: Env, call: CallExpr)
    requires Own(env, call) != []
    ensures var m := CallMarks(env, call);
      m[|m| - 1] == Own(env, call)[0] &&
      m[..|m| - 1] == CalleeMarks(env, call.callee) + ArgsMarks(env, call.args)
  {
  }

  /**
   * When `import(...)` has an argument, comments before the `import`
   * keyword are not consulted: only those before the first argument are.
   */
  lemma ImportLooksAtFirstArgument(env: Env, lo: Pos, args: seq<Arg>, cs: seq<Comment>)
    requires |args| > 0 && args[0].lo != lo
    ensures Own(env.(comments := env.comments[lo := cs]), CallExpr(Import(lo), args)) == Own(env, CallExpr(Import(lo), args))
  {
  }

  /** Without arguments the comments before the `import` keyword decide. */
  lemma ImportWithoutArgumentsLooksAtKeyword(env: Env, lo: Pos)
    ensures Own(env, CallExpr(Import(lo), [])) ==
      (match DynamicImport(env, lo)
       case Some(magic) => [ImportRecord(magic, "")]
       case None => [])
  {
  }

  // ----- The annotation added at the end of the module -----

  /** The begin marker, with the en dash (U+2013) it is written with. */
  function BeginMarker(title: string): string {
    "---BEGIN " + title + "\U{2013}--"
  }

  function EndMarker(title: string): string {
    "---END " + title + "---"
  }

  /** The annotation text: title, the records one per line, title again (src/lib.rs:193-198). */
  function Banner(title: string, records: seq<string>): string {
    BeginMarker(title) + "\n[\n    " + Join(",\n    ", records) + "\n]\n" + EndMarker(title)
  }

  /** Reads the records' body back out of an annotation, when it has the expected frame. */
  function BannerBody(title: string, text: string): Option<string> {
    var head := BeginMarker(title) + "\n[\n    ";
    var tail := "\n]\n" + EndMarker(title);
    if |head| + |tail| <= |text| && text[..|head|] == head && text[|text| - |tail|..] == tail then
      Some(text[|head|..|text| - |tail|])
    else
      None
  }

  /** The annotation is framed by both markers and carries exactly the joined records. */
  lemma BannerRoundTrip(title: string, records: seq<string>)
    ensures BannerBody(title, Banner(title, records)) == Some(Join(",\n    ", records))
  {
    var head := BeginMarker(title) + "\n[\n    ";
    var tail := "\n]\n" + EndMarker(title);
    var body := Join(",\n    ", records);
    var text := Banner(title, records);
    assert text == head + body + tail;
    assert text[..|head|] == head;
    assert text[|text| - |tail|..] == tail;
    assert text[|head|..|text| - |tail|] == body;
  }

  /**
   * The comment store after the module is visited: unchanged when nothing
   * was recorded, otherwise one block comment appended before the module's
   * start and every other position untouched.
   */
  function Annotate(store: CommentStore, lo: Pos, title: string, records: seq<string>): (r: CommentStore)
    ensures records == [] ==> r == store
    ensures records != [] ==>
      && Leading(r, lo) == Leading(store, lo) + [Comment(Block, Banner(title, records))]
      && r.Keys == store.Keys + {lo}
      && forall p :: p in store && p != lo ==> r[p] == store[p]
  {
    if records == [] then store else AddLeading(store, lo, Comment(Block, Banner(title, records)))
  }
}
