/**
 * The two lookups that recognise a tracked bare call and a tracked method
 * call (src/lib.rs:69-95).
 */
module Classify {
  import opened Wrappers
  import opened Syntax
  import opened Config

  /** `check_fn_call`: the callee identifier's name, when it is tracked. */
  function CheckFnCall(p: Patterns, name: string): (r: Option<string>)
    ensures r.Some? <==> name in p.functions
    ensures r.Some? ==> r.value == name
  {
    if name in p.functions then Some(name) else None
  }

  /**
   * `check_method_call`: the receiver's name (`"this"` for `this`) and the
   * method name, when the receiver has an entry in the method map and the
   * property is a plain identifier listed in that entry.
   */
  function CheckMethodCall(p: Patterns, obj: Expr, prop: MemberProp): (r: Option<(string, string)>)
    ensures r.Some? <==>
      && (obj.Ident? || obj.This?)
      && prop.PropIdent?
      && (var o := if obj.This? then "this" else obj.name;
          o in p.methods && prop.name in p.methods[o])
    ensures r.Some? ==> r.value.0 == (if obj.This? then "this" else obj.name) && r.value.1 == prop.name
  {
    var (objName, methods) :=
      match obj
      case Ident(name) => (name, if name in p.methods then Some(p.methods[name]) else None)
      case This => ("this", if "this" in p.methods then Some(p.methods["this"]) else None)
      case _ => ("", None);
    if methods.Some? && prop.PropIdent? && prop.name in methods.value then
      Some((objName, prop.name))
    else
      None
  }

  /** A computed or private property never matches, whatever its contents. */
  lemma OnlyPlainPropertiesMatch(p: Patterns, obj: Expr, prop: MemberProp)
    requires !prop.PropIdent?
    ensures CheckMethodCall(p, obj, prop).None?
  {
  }

  /**
   * `this.m(...)` is looked up under the key `"this"`, so it classifies
   * exactly as a receiver named `this` would.
   */
  lemma ThisIsKeyedByName(p: Patterns, prop: MemberProp)
    ensures CheckMethodCall(p, This, prop) == CheckMethodCall(p, Ident("this"), prop)
  {
  }

  /**
   * Tracking is per object: a method listed for one receiver does not match
   * on another receiver that does not list it.
   */
  lemma MethodsArePerObject(p: Patterns, a: string, b: string, m: string)
    requires a in p.methods && m in p.methods[a]
    requires b !in p.methods || m !in p.methods[b]
    ensures CheckMethodCall(p, Ident(a), PropIdent(m)) == Some((a, m))
    ensures CheckMethodCall(p, Ident(b), PropIdent(m)).None?
  {
  }
}
