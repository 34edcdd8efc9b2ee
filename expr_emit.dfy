/** Expression emission: the recursive rendering of an expression node as
    HLSL text (`generate_expression`). */
module ExprEmit {
  import opened Ast
  import opened TextUtil
  import opened TypeMapping

  /** The text of an expression. Literals and unrecognised nodes pass through,
      a variable is its name, a binary operation is always parenthesised, a
      call joins its rendered arguments with ", ", a member access is
      `object.member`. */
  function EmitExpr(e: Expr): string
    decreases e
  {
    match e
    case Lit(t) => t
    case Var(n, _) => n
    case BinOp(l, op, r) => "(" + EmitExpr(l) + " " + MapOperator(op) + " " + EmitExpr(r) + ")"
    case Call(f, args) => f + "(" + Join(ArgTexts(e), ", ") + ")"
    case Member(o, m) => EmitExpr(o) + "." + m
    case Other(t) => t
  }

  /** The rendered arguments of a call, in order (the generator expression
      handed to `", ".join`). */
  function ArgTexts(e: Expr): seq<string>
    requires e.Call?
    decreases e, 0
  {
    seq(|e.args|, i requires 0 <= i < |e.args| => EmitExpr(e.args[i]))
  }

  // ---------------------------------------------------------------------------
  // Line breaks
  // ---------------------------------------------------------------------------

  /** No name, token or literal in e holds a line break. */
  predicate FlatExpr(e: Expr) {
    match e
    case Lit(t) => '\n' !in t
    case Var(n, _) => '\n' !in n
    case BinOp(l, op, r) => FlatExpr(l) && '\n' !in op && FlatExpr(r)
    case Call(f, args) => '\n' !in f && forall i :: 0 <= i < |args| ==> FlatExpr(args[i])
    case Member(o, m) => FlatExpr(o) && '\n' !in m
    case Other(t) => '\n' !in t
  }

  /** An expression built from line-free pieces renders on one line. */
  lemma {:induction false} ExprNoNewline(e: Expr)
    requires FlatExpr(e)
    ensures '\n' !in EmitExpr(e)
  {
    match e
    case Lit(_) =>
    case Var(_, _) =>
    case BinOp(l, op, r) =>
      ExprNoNewline(l);
      ExprNoNewline(r);
      MapOperatorChars(op);
    case Call(f, args) =>
      forall i | 0 <= i < |args| ensures '\n' !in ArgTexts(e)[i] {
        ExprNoNewline(args[i]);
      }
      JoinNoNewline(ArgTexts(e), ", ");
    case Member(o, _) =>
      ExprNoNewline(o);
    case Other(_) =>
  }

  // ---------------------------------------------------------------------------
  // Parenthesisation
  // ---------------------------------------------------------------------------

  /** Opening minus closing parentheses in s. */
  function Depth(s: string): int {
    if s == [] then 0
    else Depth(s[..|s| - 1]) + (if s[|s| - 1] == '(' then 1 else if s[|s| - 1] == ')' then -1 else 0)
  }

  /** Every '(' of s is closed later in s, and no ')' closes what is not open. */
  predicate Balanced(s: string) {
    Depth(s) == 0 && forall k :: 0 <= k <= |s| ==> Depth(s[..k]) >= 0
  }

  /** s is one parenthesised group: its first character '(' is closed by its
      last character ')' and by no character before it. */
  predicate Enclosed(s: string) {
    |s| >= 2 && s[0] == '(' && s[|s| - 1] == ')' && Depth(s) == 0
    && forall k :: 1 <= k < |s| ==> Depth(s[..k]) >= 1
  }

  /** No name, token or literal in e holds a parenthesis. */
  predicate ParenFreeExpr(e: Expr) {
    match e
    case Lit(t) => '(' !in t && ')' !in t
    case Var(n, _) => '(' !in n && ')' !in n
    case BinOp(l, op, r) => ParenFreeExpr(l) && '(' !in op && ')' !in op && ParenFreeExpr(r)
    case Call(f, args) => '(' !in f && ')' !in f && forall i :: 0 <= i < |args| ==> ParenFreeExpr(args[i])
    case Member(o, m) => ParenFreeExpr(o) && '(' !in m && ')' !in m
    case Other(t) => '(' !in t && ')' !in t
  }

  lemma {:induction false} DepthAppend(a: string, b: string)
    ensures Depth(a + b) == Depth(a) + Depth(b)
    decreases |b|
  {
    if b == [] {
      assert a + b == a;
    } else {
      var c := a + b;
      assert c[..|c| - 1] == a + b[..|b| - 1] && c[|c| - 1] == b[|b| - 1];
      DepthAppend(a, b[..|b| - 1]);
    }
  }

  lemma {:induction false} DepthParenFree(s: string)
    requires '(' !in s && ')' !in s
    ensures Depth(s) == 0
    decreases |s|
  {
    if s != [] {
      assert s[|s| - 1] in s;
      DepthParenFree(s[..|s| - 1]);
    }
  }

  lemma ParenFreeBalanced(s: string)
    requires '(' !in s && ')' !in s
    ensures Balanced(s)
  {
    DepthParenFree(s);
    forall k | 0 <= k <= |s| ensures Depth(s[..k]) >= 0 {
      assert forall j | 0 <= j < k :: s[..k][j] == s[j];
      DepthParenFree(s[..k]);
    }
  }

  lemma BalancedAppend(a: string, b: string)
    requires Balanced(a) && Balanced(b)
    ensures Balanced(a + b)
  {
    var c := a + b;
    DepthAppend(a, b);
    forall k | 0 <= k <= |c| ensures Depth(c[..k]) >= 0 {
      if k <= |a| {
        assert c[..k] == a[..k];
      } else {
        assert c[..k] == a + b[..k - |a|];
        DepthAppend(a, b[..k - |a|]);
      }
    }
  }

  /** Parenthesising a balanced text gives one group. */
  lemma WrapEnclosed(x: string)
    requires Balanced(x)
    ensures Enclosed("(" + x + ")")
  {
    var s := "(" + x + ")";
    DepthAppend("(" + x, ")");
    DepthAppend("(", x);
    forall k | 1 <= k < |s| ensures Depth(s[..k]) >= 1 {
      assert s[..k] == "(" + x[..k - 1];
      DepthAppend("(", x[..k - 1]);
    }
  }

  lemma EnclosedBalanced(s: string)
    requires Enclosed(s)
    ensures Balanced(s)
  {
    assert s[..0] == [];
    assert s[..|s|] == s;
  }

  lemma {:induction false} JoinBalanced(parts: seq<string>, sep: string)
    requires Balanced(sep)
    requires forall i :: 0 <= i < |parts| ==> Balanced(parts[i])
    ensures Balanced(Join(parts, sep))
  {
    if |parts| == 0 {
      ParenFreeBalanced("");
    } else if |parts| > 1 {
      JoinBalanced(parts[..|parts| - 1], sep);
      BalancedAppend(Join(parts[..|parts| - 1], sep), sep);
      BalancedAppend(Join(parts[..|parts| - 1], sep) + sep, parts[|parts| - 1]);
    }
  }

  /** The shape of a rendered binary operation is one group. */
  lemma BinOpTextEnclosed(lt: string, sym: string, rt: string)
    requires Balanced(lt) && Balanced(rt) && '(' !in sym && ')' !in sym
    ensures Enclosed("(" + lt + " " + sym + " " + rt + ")")
    ensures Balanced("(" + lt + " " + sym + " " + rt + ")")
  {
    var o := " " + sym + " ";
    ParenFreeBalanced(o);
    BalancedAppend(lt, o);
    BalancedAppend(lt + o, rt);
    WrapEnclosed(lt + o + rt);
    assert "(" + lt + " " + sym + " " + rt + ")" == "(" + (lt + o + rt) + ")";
    EnclosedBalanced("(" + lt + " " + sym + " " + rt + ")");
  }

  /** The shape of a rendered call: the callee, then one group. */
  lemma CallTextBalanced(f: string, inner: string)
    requires '(' !in f && ')' !in f && Balanced(inner)
    ensures (f + "(" + inner + ")")[..|f|] == f
    ensures Enclosed((f + "(" + inner + ")")[|f|..])
    ensures Balanced(f + "(" + inner + ")")
  {
    var g := "(" + inner + ")";
    WrapEnclosed(inner);
    EnclosedBalanced(g);
    ParenFreeBalanced(f);
    BalancedAppend(f, g);
    assert f + "(" + inner + ")" == f + g;
    assert (f + g)[|f|..] == g;
  }

  /** Full parenthesisation: when no leaf holds a parenthesis, every rendered
      expression is balanced, a binary operation is a single parenthesised
      group (its opening '(' is closed by its final ')', whatever the
      operators inside), and a call's argument list is one such group after
      the callee name. */
  lemma {:induction false} ExprBalanced(e: Expr)
    requires ParenFreeExpr(e)
    ensures Balanced(EmitExpr(e))
    ensures e.BinOp? ==> Enclosed(EmitExpr(e))
    ensures e.Call? ==> EmitExpr(e)[..|e.callee|] == e.callee && Enclosed(EmitExpr(e)[|e.callee|..])
  {
    match e
    case Lit(t) => ParenFreeBalanced(t);
    case Var(n, _) => ParenFreeBalanced(n);
    case Other(t) => ParenFreeBalanced(t);
    case BinOp(l, op, r) =>
      ExprBalanced(l);
      ExprBalanced(r);
      MapOperatorChars(op);
      BinOpTextEnclosed(EmitExpr(l), MapOperator(op), EmitExpr(r));
    case Call(f, args) =>
      var parts := ArgTexts(e);
      forall i | 0 <= i < |parts| ensures Balanced(parts[i]) {
        ExprBalanced(args[i]);
      }
      ParenFreeBalanced(", ");
      JoinBalanced(parts, ", ");
      CallTextBalanced(f, Join(parts, ", "));
    case Member(o, m) =>
      ExprBalanced(o);
      ParenFreeBalanced("." + m);
      BalancedAppend(EmitExpr(o), "." + m);
      assert EmitExpr(e) == EmitExpr(o) + ("." + m);
  }
}
