/**
 * `get_args` (src/lib.rs:160-184): each call argument rendered as the
 * text of a literal, or as `null`.
 */
module Arguments {
  import opened Syntax
  import opened Text

  /** The text one argument contributes; a spread argument is rendered by its expression. */
  function ArgText(a: Arg): string {
    match a.expr
    case Lit(Str(v)) => "\"" + v + "\""
    case Lit(Num(text)) => text
    case Lit(Bool(b)) => if b then "true" else "false"
    case _ => "null"
  }

  /** The texts of all arguments, in order. */
  function ArgTexts(args: seq<Arg>): seq<string> {
    if args == [] then [] else [ArgText(args[0])] + ArgTexts(args[1..])
  }

  /** Exactly one entry per argument, the i-th rendering the i-th argument. */
  lemma {:induction false} ArgTextsOnePerArg(args: seq<Arg>)
    ensures |ArgTexts(args)| == |args|
    ensures forall i :: 0 <= i < |args| ==> ArgTexts(args)[i] == ArgText(args[i])
  {
    if args != [] {
      ArgTextsOnePerArg(args[1..]);
      forall i | 0 < i < |args| ensures ArgTexts(args)[i] == ArgText(args[i]) {
        assert args[1..][i - 1] == args[i];
      }
    }
  }

  lemma ArgTextsAppend(args: seq<Arg>, a: Arg)
    ensures ArgTexts(args + [a]) == ArgTexts(args) + [ArgText(a)]
  {
    ArgTextsOnePerArg(args);
    ArgTextsOnePerArg(args + [a]);
    var l, r := ArgTexts(args + [a]), ArgTexts(args) + [ArgText(a)];
    assert |l| == |r|;
    forall i | 0 <= i < |l| ensures l[i] == r[i] {
      if i < |args| {
        assert (args + [a])[i] == args[i];
      }
    }
  }

  /**
   * The rendering tells the argument kinds apart: a string literal gives a
   * quoted text, a boolean `true` or `false`, a number its digits, and
   * everything else (null, bigint, regex, JSX text, any non-literal) `null`.
   */
  lemma ArgTextClassifies(a: Arg)
    ensures (ArgText(a) == "null") <==> !(a.expr.Lit? && (a.expr.lit.Str? || a.expr.lit.Num? || a.expr.lit.Bool?))
    ensures (ArgText(a)[0] == '"') <==> a.expr.Lit? && a.expr.lit.Str?
    ensures (ArgText(a) == "true" || ArgText(a) == "false") <==> a.expr.Lit? && a.expr.lit.Bool?
    ensures a.expr.Lit? && a.expr.lit.Str? ==> ArgText(a)[1..|ArgText(a)| - 1] == a.expr.lit.value
  {
    match a.expr {
      case Lit(Num(t)) =>
        assert ArgText(a) == t;
        assert t[0] == 'I' || t[0] == 'i' || IsNumeralChar(t[0]);
        assert t[0] != "null"[0] && t[0] != "true"[0] && t[0] != "false"[0] && t[0] != '"';
      case Lit(Str(v)) =>
        assert ArgText(a)[0] == '"';
        assert "null"[0] != '"' && "true"[0] != '"' && "false"[0] != '"';
      case _ =>
    }
  }

  /** `get_args`: the argument texts joined with ", ". */
  method GetArgs(args: seq<Arg>) returns (s: string)
    ensures s == Join(", ", ArgTexts(args))
  {
    var texts: seq<string> := [];
    for i := 0 to |args|
      invariant texts == ArgTexts(args[..i])
    {
      var text: string;
      if args[i].expr.Lit? {
        match args[i].expr.lit {
          case Str(value) => text := "\"" + value + "\"";
          case Num(numeral) => text := numeral;
          case Bool(b) => text := if b then "true" else "false";
          case _ => text := "null";
        }
      } else {
        text := "null";
      }
      ArgTextsAppend(args[..i], args[i]);
      assert args[..i + 1] == args[..i] + [args[i]];
      texts := texts + [text];
    }
    assert args[..|args|] == args;
    s := Join(", ", texts);
  }
}
