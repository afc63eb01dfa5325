/**
 * The magic-comment evaluator behind `check_dynamic_import`
 * (src/lib.rs:97-158), as functions over the leading comments.
 * The JSON(-with-comments) parser and the serialiser are not part of this
 * model: they are passed in as `parse` and `toJson`.
 */
module MagicComments {
  import opened Wrappers
  import opened Json
  import opened Syntax
  import opened Text

  /** What one leading comment contributes: its parsed value, or nothing. */
  function Kept(keys: set<string>, parse: string -> Option<Value>, c: Comment): (r: Option<Value>)
    ensures r.Some? <==>
      c.kind == Block && parse("{" + c.text + "}").Some? && ShouldAdd(keys, parse("{" + c.text + "}").value)
    ensures r.Some? ==> r.value == parse("{" + c.text + "}").value
  {
    if c.kind == Block then
      match parse("{" + c.text + "}")
      case Some(v) => if ShouldAdd(keys, v) then Some(v) else None
      case None => None
    else
      None
  }

  function OptionToSeq(o: Option<Value>): seq<Value> {
    if o.Some? then [o.value] else []
  }

  /** The parsed values of the qualifying comments, in comment order. */
  function Retained(keys: set<string>, parse: string -> Option<Value>, cs: seq<Comment>): seq<Value>
  {
    if cs == [] then [] else OptionToSeq(Kept(keys, parse, cs[0])) + Retained(keys, parse, cs[1..])
  }

  /** The serialised values, in order. */
  function Rendered(toJson: Value -> string, vs: seq<Value>): (r: seq<string>)
    ensures |r| == |vs|
    ensures forall i :: 0 <= i < |vs| ==> r[i] == toJson(vs[i])
  {
    if vs == [] then [] else [toJson(vs[0])] + Rendered(toJson, vs[1..])
  }

  /** `check_dynamic_import`'s result for the comments `cs` before the argument. */
  function ImportComments(keys: set<string>, parse: string -> Option<Value>, toJson: Value -> string,
                          cs: seq<Comment>): (r: Option<string>)
    ensures r.None? <==> Retained(keys, parse, cs) == []
  {
    var kept := Retained(keys, parse, cs);
    if kept == [] then None else Some(Join(", ", Rendered(toJson, kept)))
  }

  /** Nothing is retained exactly when no single comment qualifies. */
  lemma {:induction false} RetainedEmptyIff(keys: set<string>, parse: string -> Option<Value>, cs: seq<Comment>)
    ensures Retained(keys, parse, cs) == [] <==> forall i :: 0 <= i < |cs| ==> Kept(keys, parse, cs[i]).None?
  {
    if cs != [] {
      RetainedEmptyIff(keys, parse, cs[1..]);
      assert forall i :: 1 <= i < |cs| ==> cs[i] == cs[1..][i - 1];
    }
  }

  /** The comments are scanned independently and their contributions concatenated. */
  lemma {:induction false} RetainedAppend(keys: set<string>, parse: string -> Option<Value>, a: seq<Comment>, b: seq<Comment>)
    ensures Retained(keys, parse, a + b) == Retained(keys, parse, a) + Retained(keys, parse, b)
  {
    if a == [] {
      assert a + b == b;
    } else {
      assert (a + b)[1..] == a[1..] + b;
      RetainedAppend(keys, parse, a[1..], b);
    }
  }

  /** Scanning one more comment adds that comment's contribution at the end. */
  lemma RetainedSnoc(keys: set<string>, parse: string -> Option<Value>, cs: seq<Comment>, c: Comment)
    ensures Retained(keys, parse, cs + [c]) == Retained(keys, parse, cs) + OptionToSeq(Kept(keys, parse, c))
  {
    RetainedAppend(keys, parse, cs, [c]);
    assert Retained(keys, parse, [c]) == OptionToSeq(Kept(keys, parse, c)) + Retained(keys, parse, []);
  }

  lemma {:induction false} RenderedAppend(toJson: Value -> string, a: seq<Value>, b: seq<Value>)
    ensures Rendered(toJson, a + b) == Rendered(toJson, a) + Rendered(toJson, b)
  {
    if a == [] {
      assert a + b == b;
    } else {
      assert (a + b)[1..] == a[1..] + b;
      RenderedAppend(toJson, a[1..], b);
    }
  }

  /**
   * Every retained value is an object with a truthy configured key, parsed
   * from a block comment, and each comment contributes at most one value.
   */
  lemma {:induction false} RetainedSound(keys: set<string>, parse: string -> Option<Value>, cs: seq<Comment>)
    ensures |Retained(keys, parse, cs)| <= |cs|
    ensures forall v :: v in Retained(keys, parse, cs) ==> v.Object? && ShouldAdd(keys, v)
    ensures forall v :: v in Retained(keys, parse, cs) ==>
      exists i :: 0 <= i < |cs| && cs[i].kind == Block && parse("{" + cs[i].text + "}") == Some(v)
  {
    if cs != [] {
      RetainedSound(keys, parse, cs[1..]);
      var r := Retained(keys, parse, cs);
      forall v | v in r
        ensures exists i :: 0 <= i < |cs| && cs[i].kind == Block && parse("{" + cs[i].text + "}") == Some(v)
      {
        if v in OptionToSeq(Kept(keys, parse, cs[0])) {
          assert cs[0].kind == Block && parse("{" + cs[0].text + "}") == Some(v);
        } else {
          var j :| 0 <= j < |cs[1..]| && cs[1..][j].kind == Block && parse("{" + cs[1..][j].text + "}") == Some(v);
          assert cs[j + 1] == cs[1..][j];
        }
      }
    }
  }

  /** With an empty key set no dynamic import is ever recorded. */
  lemma {:induction false} NoKeysNoImport(parse: string -> Option<Value>, toJson: Value -> string, cs: seq<Comment>)
    ensures ImportComments({}, parse, toJson, cs).None?
  {
    if cs != [] {
      NoKeysNoImport(parse, toJson, cs[1..]);
      NoKeysNeverAdds(parse("{" + cs[0].text + "}").GetOr(Value.Null));
    }
  }

  /** A line comment anywhere among the leading comments changes nothing. */
  lemma LineCommentsIgnored(keys: set<string>, parse: string -> Option<Value>, a: seq<Comment>, text: string, b: seq<Comment>)
    ensures Retained(keys, parse, a + [Comment(Line, text)] + b) == Retained(keys, parse, a + b)
  {
    var line := [Comment(Line, text)];
    RetainedAppend(keys, parse, a + line, b);
    RetainedAppend(keys, parse, a, line);
    RetainedAppend(keys, parse, a, b);
    assert Retained(keys, parse, line) == OptionToSeq(Kept(keys, parse, line[0])) + Retained(keys, parse, line[1..]);
    assert line[1..] == [];
    assert Retained(keys, parse, line) == [];
  }

  /**
   * The comments found are joined with ", " in order: appending a comment
   * that qualifies extends the result by its serialised value.
   */
  lemma ImportCommentsExtend(keys: set<string>, parse: string -> Option<Value>, toJson: Value -> string,
                             cs: seq<Comment>, c: Comment)
    requires Kept(keys, parse, c).Some?
    ensures ImportComments(keys, parse, toJson, cs + [c]) ==
      Some(match ImportComments(keys, parse, toJson, cs)
           case None => toJson(Kept(keys, parse, c).value)
           case Some(s) => s + ", " + toJson(Kept(keys, parse, c).value))
  {
    var v := Kept(keys, parse, c).value;
    var old_ := Retained(keys, parse, cs);
    RetainedAppend(keys, parse, cs, [c]);
    assert Retained(keys, parse, [c]) == [v];
    RenderedAppend(toJson, old_, [v]);
    assert Rendered(toJson, [v]) == [toJson(v)];
    JoinSnoc(", ", Rendered(toJson, old_), toJson(v));
    assert Retained(keys, parse, cs + [c]) == old_ + [v];
    if old_ == [] {
      assert Rendered(toJson, old_ + [v]) == [toJson(v)];
    } else {
      assert Rendered(toJson, old_) != [];
    }
  }
}
