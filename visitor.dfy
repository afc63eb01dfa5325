/**
 * The `MarkExpression` visitor (src/lib.rs:25-246): the matcher state built
 * from the configuration, the comment store it reads and writes, and the
 * `results` list it appends to while walking the tree children first.
 * Tree nodes are values here, so no node can be rewritten.
 */
module Visitor {
  import opened Wrappers
  import opened Json
  import opened Syntax
  import opened Config
  import opened Text
  import opened Classify
  import opened MagicComments
  import opened Arguments
  import opened Marks

  class MarkExpression {
    /** The host's comment store. */
    var comments: CommentStore
    /** title, functions, methods and dynamic_imports, fixed at construction. */
    const patterns: Patterns
    /** The lenient JSON-with-comments parser (`parse_to_serde_value(..).unwrap_or(None)`). */
    const parse: string -> Option<Value>
    /** The JSON serialiser (`serde_json::to_string`). */
    const toJson: Value -> string
    /** One record string per matched call, in the order they were found. */
    var results: seq<string>

    /** `MarkExpression::new`. */
    constructor (comments: CommentStore, config: Config, parse: string -> Option<Value>, toJson: Value -> string)
      ensures this.comments == comments && this.parse == parse && this.toJson == toJson
      ensures patterns == Compile(config)
      ensures results == []
    {
      this.comments := comments;
      this.patterns := Compile(config);
      this.parse := parse;
      this.toJson := toJson;
      this.results := [];
    }

    /** The state the classification of a call reads. */
    function Context(): Env
      reads this
    {
      Env(patterns, comments, parse, toJson)
    }

    /**
     * `check_dynamic_import`: scans the leading comments at `pos`, keeps the
     * block comments that parse to an object with a truthy configured key,
     * and joins their serialisations with ", ".
     */
    method CheckDynamicImport(pos: Pos) returns (r: Option<string>)
      ensures r == DynamicImport(Context(), pos)
    {
      var keys := patterns.dynamicImports;
      var cs := Leading(comments, pos);
      var result: seq<string> := [];
      ghost var kept: seq<Value> := [];
      for i := 0 to |cs|
        invariant kept == Retained(keys, parse, cs[..i])
        invariant result == Rendered(toJson, kept)
      {
        var comment := cs[i];
        if comment.kind == Block {
          var maybeValue := parse("{" + comment.text + "}");
          if maybeValue.Some? {
            var value := maybeValue.value;
            var shouldAdd := false;
            if value.Object? {
              var toScan := keys;
              while toScan != {}
                invariant toScan <= keys
                invariant shouldAdd ==> ShouldAdd(keys, value)
                invariant !shouldAdd ==> forall k :: k in keys && k !in toScan ==> !KeyTruthy(value.fields, k)
                decreases toScan
              {
                var key :| key in toScan;
                if key in value.fields {
                  match value.fields[key] {
                    case Bool(b) =>
                      if b {
                        shouldAdd := true;
                        break;
                      }
                    case Num(number) =>
                      if AsI64(number).GetOr(0) != 0 || AsF64(number).GetOr(0.0) != 0.0 || AsU64(number).GetOr(0) != 0 {
                        shouldAdd := true;
                        break;
                      }
                    case String(str) =>
                      if str != "" {
                        shouldAdd := true;
                        break;
                      }
                    case Array(_) =>
                      shouldAdd := true;
                      break;
                    case Object(_) =>
                      shouldAdd := true;
                      break;
                    case Null =>
                  }
                }
                toScan := toScan - {key};
              }
            }
            assert shouldAdd == ShouldAdd(keys, value);
            if shouldAdd {
              result := result + [toJson(value)];
              RenderedAppend(toJson, kept, [value]);
              kept := kept + [value];
            }
          }
        }
        assert cs[..i + 1] == cs[..i] + [comment];
        RetainedSnoc(keys, parse, cs[..i], comment);
      }
      assert cs[..|cs|] == cs;
      if result != [] {
        r := Some(Join(", ", result));
      } else {
        r := None;
      }
    }

    /** The default traversal of a node that is not a call: visit its sub-expressions. */
    method VisitExpr(e: Expr)
      modifies this`results
      ensures results == old(results) + MarksOf(Context(), e)
      decreases e, 1
    {
      match e {
        case Ident(_) =>
        case This =>
        case Lit(_) =>
        case Member(obj, prop) =>
          VisitExpr(obj);
          VisitMemberProp(prop);
        case Call(call) =>
          VisitCallExpr(call);
        case Other(children) =>
          VisitExprs(children);
      }
    }

    method VisitMemberProp(prop: MemberProp)
      modifies this`results
      ensures results == old(results) + PropMarks(Context(), prop)
      decreases prop, 1
    {
      if prop.Computed? {
        VisitExpr(prop.expr);
      }
    }

    method VisitCallee(callee: Callee)
      modifies this`results
      ensures results == old(results) + CalleeMarks(Context(), callee)
      decreases callee, 1
    {
      if callee.CalleeExpr? {
        VisitExpr(callee.expr);
      }
    }

    method VisitArg(a: Arg)
      modifies this`results
      ensures results == old(results) + ArgMarks(Context(), a)
      decreases a, 2
    {
      VisitExpr(a.expr);
    }

    method VisitArgs(args: seq<Arg>)
      modifies this`results
      ensures results == old(results) + ArgsMarks(Context(), args)
      decreases args, 0
    {
      if args != [] {
        VisitArg(args[0]);
        VisitArgs(args[1..]);
      }
    }

    method VisitExprs(es: seq<Expr>)
      modifies this`results
      ensures results == old(results) + ExprsMarks(Context(), es)
      decreases es, 0
    {
      if es != [] {
        VisitExpr(es[0]);
        VisitExprs(es[1..]);
      }
    }

    /**
     * `visit_mut_call_expr`: visits the callee and the arguments first, then
     * appends this call's record when it matches a rule.
     */
    method VisitCallExpr(call: CallExpr)
      modifies this`results
      ensures results == old(results) + CallMarks(Context(), call)
      decreases call, 1
    {
      ghost var env := Context();
      ghost var before := results;
      VisitCallee(call.callee);
      assert Context() == env;
      VisitArgs(call.args);
      assert Context() == env;
      ghost var visited := results;
      assert visited == before + (CalleeMarks(env, call.callee) + ArgsMarks(env, call.args));
      ghost var own := Own(env, call);
      match call.callee {
        case CalleeExpr(callee) =>
          match callee {
            case Ident(name) =>
              var found := CheckFnCall(patterns, name);
              if found.Some? {
                var args := GetArgs(call.args);
                results := results + [FnRecord(found.value, args)];
                assert own == [FnRecord(found.value, args)];
              } else {
                assert own == [];
              }
            case Member(obj, prop) =>
              var found := CheckMethodCall(patterns, obj, prop);
              if found.Some? {
                var (objName, fnName) := found.value;
                var args := GetArgs(call.args);
                results := results + [MethodRecord(objName, fnName, args)];
                assert own == [MethodRecord(objName, fnName, args)];
              } else {
                assert own == [];
              }
            case _ =>
              assert own == [];
          }
        case Import(lo) =>
          var pos := if |call.args| > 0 then call.args[0].lo else lo;
          var magicComments := CheckDynamicImport(pos);
          if magicComments.Some? {
            var args := GetArgs(call.args);
            results := results + [ImportRecord(magicComments.value, args)];
            assert own == [ImportRecord(magicComments.value, args)];
          } else {
            assert own == [];
          }
        case Super =>
          assert own == [];
      }
      assert results == visited + own;
      assert Context() == env;
      assert CallMarks(env, call) == CalleeMarks(env, call.callee) + ArgsMarks(env, call.args) + Own(env, call);
    }

    /**
     * `visit_mut_module`: visits the items, then, if anything was recorded,
     * attaches one block comment before the module's start holding the
     * title twice and every record in order.
     */
    method VisitModule(m: Module)
      modifies this
      ensures results == old(results) + ExprsMarks(old(Context()), m.body)
      ensures comments == Annotate(old(comments), m.lo, patterns.title, results)
    {
      VisitExprs(m.body);
      if results != [] {
        var text := Banner(patterns.title, results);
        comments := AddLeading(comments, m.lo, Comment(Block, text));
      }
    }
  }

  /**
   * One transform (src/lib.rs:265): a fresh visitor over one module. The
   * records are those of the module's items in traversal order, and the
   * store gains the annotation only when there is at least one record.
   */
  method TransformModule(store: CommentStore, config: Config, parse: string -> Option<Value>,
                         toJson: Value -> string, m: Module) returns (out: CommentStore, records: seq<string>)
    ensures records == ExprsMarks(Env(Compile(config), store, parse, toJson), m.body)
    ensures out == Annotate(store, m.lo, Compile(config).title, records)
  {
    var visitor := new MarkExpression(store, config, parse, toJson);
    visitor.VisitModule(m);
    out, records := visitor.comments, visitor.results;
  }
}
