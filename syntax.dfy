/**
 * The part of the swc syntax tree and comment store the visitor looks at.
 * Positions are byte offsets; a node that is not a call, member access,
 * identifier, `this` or literal is `Other`, kept only for the
 * sub-expressions the traversal descends into.
 */
module Syntax {

  type Pos = nat

  predicate IsNumeralChar(c: char) {
    '0' <= c <= '9' || c == '.'
  }

  /** Digits with at most the point of a fraction, as a finite non-negative `f64` displays. */
  predicate IsDecimalText(s: string) {
    |s| > 0 && forall i :: 0 <= i < |s| ==> IsNumeralChar(s[i])
  }

  /**
   * The text `to_string` gives a number literal's value. JavaScript number
   * literals are non-negative and `f64` display never uses an exponent, so a
   * finite value gives digits and a point. A literal too large for `f64`
   * (`1e999`) is infinite and displays as a word: `Infinity` in swc's own
   * number display, `inf` in Rust's plain `f64` display; both are admitted.
   */
  type Numeral = s: string | IsDecimalText(s) || s == "Infinity" || s == "inf"
    witness "0"

  /** swc's `Lit`. */
  datatype Lit =
    | Str(value: string)
    | Bool(b: bool)
    | Null
    | Num(text: Numeral)
    | BigInt
    | Regex
    | JsxText

  /** swc's `MemberProp`: `.name`, `.#name` or `[expr]`. */
  datatype MemberProp =
    | PropIdent(name: string)
    | PrivateName(name: string)
    | Computed(expr: Expr)

  /** swc's `Callee`: `super(...)`, `import(...)` or an expression. */
  datatype Callee =
    | Super
    | Import(lo: Pos)
    | CalleeExpr(expr: Expr)

  /** swc's `ExprOrSpread`, with the start position of the whole argument. */
  datatype Arg = Arg(lo: Pos, spread: bool, expr: Expr)

  /** swc's `CallExpr`: the callee and the arguments. */
  datatype CallExpr = CallExpr(callee: Callee, args: seq<Arg>)

  datatype Expr =
    | Ident(name: string)
    | This
    | Lit(lit: Lit)
    | Member(obj: Expr, prop: MemberProp)
    | Call(call: CallExpr)
    | Other(children: seq<Expr>)

  /** A module: its start position and its items, in source order. */
  datatype Module = Module(lo: Pos, body: seq<Expr>)

  datatype CommentKind = Line | Block

  datatype Comment = Comment(kind: CommentKind, text: string)

  /** The comment store: the leading comments attached before each position. */
  type CommentStore = map<Pos, seq<Comment>>

  /** `with_leading`: the comments before `pos`, none when nothing is attached. */
  function Leading(store: CommentStore, pos: Pos): seq<Comment> {
    if pos in store then store[pos] else []
  }

  /** `add_leading`: append `c` to the comments before `pos`. */
  function AddLeading(store: CommentStore, pos: Pos, c: Comment): (r: CommentStore)
    ensures Leading(r, pos) == Leading(store, pos) + [c]
    ensures r.Keys == store.Keys + {pos}
    ensures forall p :: p in store && p != pos ==> r[p] == store[p]
  {
    store[pos := Leading(store, pos) + [c]]
  }
}
