/** Statement emission: the rendering of statement nodes at an explicit
    indentation depth (`generate_statement`, `generate_assignment`,
    `generate_if`, `generate_for`). The functions say what text a statement
    produces; the methods build that text the way the back end does, with a
    string that grows inside loops over the statement bodies. */
module StmtEmit {
  import opened Ast
  import opened TextUtil
  import opened TypeMapping
  import opened ExprEmit

  // ---------------------------------------------------------------------------
  // Specification
  // ---------------------------------------------------------------------------

  /** `generate_assignment`: a variable target with a non-empty declared type
      (Python truthiness: neither None nor "") is a declaration; anything
      else is a plain reassignment of the rendered target. */
  function AssignmentText(target: Expr, value: Expr): string
  {
    if target.Var? && target.vtype.Some? && target.vtype.value != "" then
      MapType(target.vtype.value) + " " + target.name + " = " + EmitExpr(value)
    else
      EmitExpr(target) + " = " + EmitExpr(value)
  }

  /** The text of a one-line statement between its indentation and its ';'. */
  function StatementText(s: Stmt): string
    requires s.IsSimple()
  {
    match s
    case Assign(t, v) => AssignmentText(t, v)
    case Return(v) => "return " + EmitExpr(v)
    case ExprStmt(e) => EmitExpr(e)
  }

  /** `map_type(vtype)` inside an f-string: a missing type is looked up as
      None, which the table passes through and the f-string prints as "None". */
  function TypeSpelling(vtype: Option<string>): string
  {
    match vtype
    case None => "None"
    case Some(t) => MapType(t)
  }

  /** The text of statement s at depth d: always whole lines. */
  function EmitStmt(s: Stmt, d: nat): (r: string)
    ensures |r| > 0 && r[|r| - 1] == '\n'
    decreases s, 1
  {
    match s
    case If(c, tb, eb) =>
      var closed := Indent(d) + "if (" + EmitExpr(c) + ") {\n" + EmitBlock(tb, d + 1) + Indent(d) + "}";
      var full := if eb != [] then closed + " else {\n" + EmitBlock(eb, d + 1) + Indent(d) + "}" else closed;
      full + "\n"
    case For(i, c, u, b) =>
      Indent(d) + "for (" + InitClause(i) + "; " + EmitExpr(c) + "; " + ForClause(u) + ") {\n"
      + EmitBlock(b, d + 1) + Indent(d) + "}\n"
    case _ =>
      Indent(d) + StatementText(s) + ";\n"
  }

  /** The statements of a body one after the other, all at depth d. */
  function EmitBlock(ss: seq<Stmt>, d: nat): (r: string)
    ensures WholeLines(r)
    decreases ss, 0
  {
    if ss == [] then "" else EmitBlock(ss[..|ss| - 1], d) + EmitStmt(ss[|ss| - 1], d)
  }

  /** A loop header clause made from a statement: rendered at depth 0,
      stripped of surrounding whitespace, then its last character dropped. */
  function ForClause(s: Stmt): string
    decreases s, 2
  {
    DropLast(Strip(EmitStmt(s, 0)))
  }

  /** The header line of a loop, after its indentation. */
  function ForHeader(s: Stmt): string
    requires s.For?
  {
    "for (" + InitClause(s.init) + "; " + EmitExpr(s.cond) + "; " + ForClause(s.update) + ") {"
  }

  /** The init clause of a loop header: an assignment to a variable is spelt
      inline with its type looked up whether or not it has one; any other
      statement becomes a clause as the update does. */
  function InitClause(s: Stmt): string
    decreases s, 3
  {
    if s.Assign? && s.target.Var? then
      TypeSpelling(s.target.vtype) + " " + s.target.name + " = " + EmitExpr(s.value)
    else
      ForClause(s)
  }

  /** Rendering one more statement of a body appends its text. */
  lemma EmitBlockSnoc(ss: seq<Stmt>, i: nat, d: nat)
    requires i < |ss|
    ensures EmitBlock(ss[..i + 1], d) == EmitBlock(ss[..i], d) + EmitStmt(ss[i], d)
  {
    assert ss[..i + 1][..i] == ss[..i];
  }

  // ---------------------------------------------------------------------------
  // Properties of the rendering
  // ---------------------------------------------------------------------------

  /** Declaration versus reassignment: a declaration is the mapped type, a
      space, then exactly the reassignment; an empty declared type counts as
      no type; a target that is not a variable (a member access, say) is
      rendered as an expression and never gets a type. */
  lemma AssignmentForms(n: string, t: string, target: Expr, v: Expr)
    ensures t != "" ==> AssignmentText(Var(n, Some(t)), v) == MapType(t) + " " + AssignmentText(Var(n, None), v)
    ensures AssignmentText(Var(n, Some("")), v) == AssignmentText(Var(n, None), v)
    ensures !target.Var? ==> AssignmentText(target, v) == EmitExpr(target) + " = " + EmitExpr(v)
  {
    if t != "" {
      AppendAssoc(MapType(t) + " ", n, " = ");
      AppendAssoc(MapType(t) + " ", n + " = ", EmitExpr(v));
    }
  }

  /** The text of a one-line statement at depth d. */
  lemma EmitSimple(s: Stmt, d: nat)
    requires s.IsSimple()
    ensures EmitStmt(s, d) == Indent(d) + StatementText(s) + ";\n"
  {
  }

  /** Proof aid, not part of the generator: the fixed pieces of statement
      text, joined once so that longer proofs need not join them again. */
  lemma StmtLiterals()
    ensures ") {" + "\n" == ") {\n"
    ensures "}" + " else {" == "} else {"
    ensures " else {" + "\n" == " else {\n"
    ensures "}" + "\n" == "}\n"
    ensures ";" + "\n" == ";\n"
    ensures "None" + " " == "None "
  {
    assert ") {" + "\n" == ") {\n";
  }

  /** The header line of an `if`, after its indentation. */
  function IfHeader(s: Stmt): string
    requires s.If?
  {
    "if (" + EmitExpr(s.cond) + ") {"
  }

  /** The text of an `if` at depth d, line by line. */
  lemma EmitIf(s: Stmt, d: nat)
    requires s.If?
    ensures s.elseBody == [] ==>
      EmitStmt(s, d) == (Indent(d) + IfHeader(s)) + "\n"
                        + EmitBlock(s.thenBody, d + 1) + (Indent(d) + "}") + "\n"
    ensures s.elseBody != [] ==>
      EmitStmt(s, d) == (Indent(d) + IfHeader(s)) + "\n"
                        + EmitBlock(s.thenBody, d + 1) + (Indent(d) + "} else {") + "\n"
                        + EmitBlock(s.elseBody, d + 1) + (Indent(d) + "}") + "\n"
  {
    if s.elseBody == [] {
      EmitIfThen(s, d);
    } else {
      EmitIfElse(s, d);
    }
  }

  /** The header of an `if` and everything up to its first closing brace. */
  lemma IfOpening(s: Stmt, d: nat)
    requires s.If?
    ensures Indent(d) + "if (" + EmitExpr(s.cond) + ") {\n" + EmitBlock(s.thenBody, d + 1)
         == (Indent(d) + IfHeader(s)) + "\n" + EmitBlock(s.thenBody, d + 1)
  {
    var a, p := Indent(d), Indent(d) + "if (" + EmitExpr(s.cond);
    AppendAssoc(a, "if (", EmitExpr(s.cond));
    AppendAssoc(a, "if (" + EmitExpr(s.cond), ") {");
    assert a + IfHeader(s) == p + ") {";
    AppendAssoc(p, ") {", "\n");
    StmtLiterals();
  }

  lemma EmitIfThen(s: Stmt, d: nat)
    requires s.If? && s.elseBody == []
    ensures EmitStmt(s, d) == (Indent(d) + IfHeader(s)) + "\n"
                              + EmitBlock(s.thenBody, d + 1) + (Indent(d) + "}") + "\n"
  {
    var a, b := Indent(d), EmitBlock(s.thenBody, d + 1);
    var t1 := a + "if (" + EmitExpr(s.cond) + ") {\n" + b;
    IfOpening(s, d);
    AppendAssoc(t1, a, "}");
  }

  lemma EmitIfElse(s: Stmt, d: nat)
    requires s.If? && s.elseBody != []
    ensures EmitStmt(s, d) == (Indent(d) + IfHeader(s)) + "\n"
                              + EmitBlock(s.thenBody, d + 1) + (Indent(d) + "} else {") + "\n"
                              + EmitBlock(s.elseBody, d + 1) + (Indent(d) + "}") + "\n"
  {
    var a, b, b2 := Indent(d), EmitBlock(s.thenBody, d + 1), EmitBlock(s.elseBody, d + 1);
    var t1 := a + "if (" + EmitExpr(s.cond) + ") {\n" + b;
    IfOpening(s, d);
    var closed := t1 + a + "}";
    assert EmitStmt(s, d) == closed + " else {\n" + b2 + a + "}" + "\n";
    AppendAssoc(t1 + a, "}", " else {");
    StmtLiterals();
    AppendAssoc(t1, a, "} else {");
    var t2 := closed + " else {";
    assert t2 == t1 + (a + "} else {");
    AppendAssoc(closed, " else {", "\n");
    AppendAssoc(t2 + "\n" + b2, a, "}");
  }

  /** The text of a `for` at depth d, line by line. */
  lemma EmitFor(s: Stmt, d: nat)
    requires s.For?
    ensures EmitStmt(s, d)
      == (Indent(d) + ForHeader(s)) + "\n" + EmitBlock(s.body, d + 1) + (Indent(d) + "}") + "\n"
  {
    var a := Indent(d);
    var mid := "for (" + InitClause(s.init) + "; " + EmitExpr(s.cond) + "; " + ForClause(s.update);
    var p := a + "for (" + InitClause(s.init) + "; " + EmitExpr(s.cond) + "; " + ForClause(s.update);
    var b := EmitBlock(s.body, d + 1);
    assert EmitStmt(s, d) == p + ") {\n" + b + a + "}\n";
    assert p == a + mid by {
      AppendAssoc(a, "for (", InitClause(s.init));
      AppendAssoc(a, "for (" + InitClause(s.init), "; ");
      AppendAssoc(a, "for (" + InitClause(s.init) + "; ", EmitExpr(s.cond));
      AppendAssoc(a, "for (" + InitClause(s.init) + "; " + EmitExpr(s.cond), "; ");
      AppendAssoc(a, "for (" + InitClause(s.init) + "; " + EmitExpr(s.cond) + "; ", ForClause(s.update));
    }
    assert ForHeader(s) == mid + ") {";
    AppendAssoc(a, mid, ") {");
    AppendAssoc(p, ") {", "\n");
    StmtLiterals();
    var t1 := p + ") {\n" + b;
    AppendAssoc(t1, a, "}");
    AppendAssoc(t1 + a, "}", "\n");
    AppendAssoc(t1, a + "}", "\n");
  }

  /** A one-line statement used as a loop clause loses exactly its ";" and
      line break (and any leading whitespace of its text). */
  lemma ForClauseOfSimple(s: Stmt)
    requires s.IsSimple()
    ensures ForClause(s) == TrimStart(StatementText(s))
  {
    var t := StatementText(s);
    EmitSimple(s, 0);
    assert EmitStmt(s, 0) == t + ";\n";
    StripTerminatedLine(t);
    assert DropLast(TrimStart(t) + ";") == TrimStart(t);
  }

  /** Only the terminator the statement itself adds is removed: an expression
      statement whose own text ends in ';' keeps that ';' in the clause. */
  lemma ForClauseKeepsOwnText(t: string)
    requires t != [] && !IsSpace(t[0])
    ensures ForClause(ExprStmt(Lit(t))) == t
  {
    ForClauseOfSimple(ExprStmt(Lit(t)));
  }

  /** The last character is dropped whatever it is: a nested `if` or `for`
      used as a loop clause loses its closing brace instead of a ';'. */
  lemma ForClauseOfBlock(s: Stmt)
    requires s.If? || s.For?
    ensures ForClause(s) + "}\n" == EmitStmt(s, 0)
  {
    var x;
    if s.If? {
      x := IfLine(s);
    } else {
      x := ForLine(s);
    }
    StripBraceLine(x);
  }

  /** An `if` at depth 0 is its keyword up to its last closing brace, then a
      line break. */
  lemma IfLine(s: Stmt) returns (x: string)
    requires s.If?
    ensures x != [] && x[0] == 'i' && x[|x| - 1] == '}'
    ensures EmitStmt(s, 0) == x + "\n"
  {
    if s.elseBody == [] {
      x := IfThenLine(s);
    } else {
      x := IfElseLine(s);
    }
  }

  lemma IfHeaderHead(s: Stmt)
    requires s.If?
    ensures IfHeader(s) != [] && IfHeader(s)[0] == 'i'
  {
    HeadOf("if (", EmitExpr(s.cond));
    HeadOf("if (" + EmitExpr(s.cond), ") {");
  }

  lemma IfThenLine(s: Stmt) returns (x: string)
    requires s.If? && s.elseBody == []
    ensures x != [] && x[0] == 'i' && x[|x| - 1] == '}'
    ensures EmitStmt(s, 0) == x + "\n"
  {
    IfHeaderHead(s);
    EmitIfThen(s, 0);
    x := Unindented(Indent(0), IfHeader(s), EmitBlock(s.thenBody, 0 + 1), "}");
  }

  lemma IfElseLine(s: Stmt) returns (x: string)
    requires s.If? && s.elseBody != []
    ensures x != [] && x[0] == 'i' && x[|x| - 1] == '}'
    ensures EmitStmt(s, 0) == x + "\n"
  {
    IfHeaderHead(s);
    EmitIfElse(s, 0);
    x := UnindentedElse(Indent(0), IfHeader(s), EmitBlock(s.thenBody, 0 + 1), "} else {",
                        EmitBlock(s.elseBody, 0 + 1), "}");
  }

  /** Proof aid, not part of the generator: a block statement's frame at
      depth 0 as one text before its final line break. It starts where its
      header starts and ends where its trailer ends. */
  lemma Unindented(a: string, h: string, b: string, t: string) returns (x: string)
    requires a == "" && h != [] && t != []
    ensures x != [] && x[0] == h[0] && x[|x| - 1] == t[|t| - 1]
    ensures (a + h) + "\n" + b + (a + t) + "\n" == x + "\n"
  {
    assert a + h == h && a + t == t;
    x := h + "\n" + b + t;
    HeadOf(h, "\n");
    HeadOf(h + "\n", b);
    HeadOf(h + "\n" + b, t);
  }

  /** Proof aid, not part of the generator: the same with a middle line and
      a second body. */
  lemma UnindentedElse(a: string, h: string, b1: string, m: string, b2: string, t: string) returns (x: string)
    requires a == "" && h != [] && t != []
    ensures x != [] && x[0] == h[0] && x[|x| - 1] == t[|t| - 1]
    ensures (a + h) + "\n" + b1 + (a + m) + "\n" + b2 + (a + t) + "\n" == x + "\n"
  {
    assert a + h == h && a + m == m && a + t == t;
    x := h + "\n" + b1 + m + "\n" + b2 + t;
    HeadOf(h, "\n");
    HeadOf(h + "\n", b1);
    HeadOf(h + "\n" + b1, m);
    HeadOf(h + "\n" + b1 + m, "\n");
    HeadOf(h + "\n" + b1 + m + "\n", b2);
    HeadOf(h + "\n" + b1 + m + "\n" + b2, t);
  }

  /** A `for` at depth 0 likewise. */
  lemma ForLine(s: Stmt) returns (x: string)
    requires s.For?
    ensures x != [] && x[0] == 'f' && x[|x| - 1] == '}'
    ensures EmitStmt(s, 0) == x + "\n"
  {
    var a := Indent(0);
    assert a == "";
    EmitFor(s, 0);
    var l1 := a + ForHeader(s);
    var b := l1 + "\n" + EmitBlock(s.body, 1);
    assert b[0] == 'f';
    x := b + (a + "}");
  }

  /** The init clause of a loop: an assignment to a variable is spelt inline
      whether or not it carries a type. With a type it reads exactly as the
      declaration would; without one the missing type prints as "None"; an
      empty type leaves a leading space. */
  lemma InitClauseForms(n: string, vt: Option<string>, v: Expr)
    ensures vt.Some? && vt.value != "" ==> InitClause(Assign(Var(n, vt), v)) == AssignmentText(Var(n, vt), v)
    ensures vt == None ==> InitClause(Assign(Var(n, vt), v)) == "None " + AssignmentText(Var(n, vt), v)
    ensures vt == Some("") ==> InitClause(Assign(Var(n, vt), v)) == " " + AssignmentText(Var(n, vt), v)
  {
    var tail := n + " = " + EmitExpr(v);
    AppendAssoc(TypeSpelling(vt) + " ", n, " = ");
    AppendAssoc(TypeSpelling(vt) + " ", n + " = ", EmitExpr(v));
    assert InitClause(Assign(Var(n, vt), v)) == TypeSpelling(vt) + " " + tail;
    if vt == None {
      StmtLiterals();
    }
  }

  // ---------------------------------------------------------------------------
  // Indentation threading
  // ---------------------------------------------------------------------------

  /** No name, type, token or literal in s holds a line break, and every
      loop's init and update are one-line statements. */
  predicate FlatStmt(s: Stmt)
    decreases s
  {
    match s
    case Assign(t, v) => FlatExpr(t) && FlatExpr(v) && (t.Var? && t.vtype.Some? ==> '\n' !in t.vtype.value)
    case Return(v) => FlatExpr(v)
    case ExprStmt(e) => FlatExpr(e)
    case If(c, tb, eb) =>
      FlatExpr(c) && (forall i :: 0 <= i < |tb| ==> FlatStmt(tb[i])) && (forall i :: 0 <= i < |eb| ==> FlatStmt(eb[i]))
    case For(i, c, u, b) =>
      i.IsSimple() && FlatStmt(i) && FlatExpr(c) && u.IsSimple() && FlatStmt(u)
      && forall j :: 0 <= j < |b| ==> FlatStmt(b[j])
  }

  lemma StatementTextNoNewline(s: Stmt)
    requires s.IsSimple() && FlatStmt(s)
    ensures '\n' !in StatementText(s)
  {
    match s
    case Assign(t, v) =>
      ExprNoNewline(t);
      ExprNoNewline(v);
      if t.Var? && t.vtype.Some? {
        MapTypeChars(t.vtype.value);
      }
    case Return(v) => ExprNoNewline(v);
    case ExprStmt(e) => ExprNoNewline(e);
  }

  lemma ForClauseNoNewline(s: Stmt)
    requires s.IsSimple() && FlatStmt(s)
    ensures '\n' !in ForClause(s)
  {
    StatementTextNoNewline(s);
    ForClauseOfSimple(s);
    TrimStartNoNewline(StatementText(s));
  }

  lemma InitClauseNoNewline(s: Stmt)
    requires s.IsSimple() && FlatStmt(s)
    ensures '\n' !in InitClause(s)
  {
    if s.Assign? && s.target.Var? {
      var vt := s.target.vtype;
      assert FlatExpr(s.target) && FlatExpr(s.value);
      ExprNoNewline(s.value);
      if vt.Some? {
        MapTypeChars(vt.value);
      }
      var ts, n, v := TypeSpelling(vt), s.target.name, EmitExpr(s.value);
      assert '\n' !in ts && '\n' !in n && '\n' !in v;
      assert InitClause(s) == ts + " " + n + " = " + v;
    } else {
      ForClauseNoNewline(s);
    }
  }

  lemma ForHeaderNoNewline(s: Stmt)
    requires s.For? && FlatStmt(s)
    ensures '\n' !in ForHeader(s)
  {
    var ic, c, fc := InitClause(s.init), EmitExpr(s.cond), ForClause(s.update);
    assert '\n' !in ic by {
      InitClauseNoNewline(s.init);
    }
    assert '\n' !in c by {
      ExprNoNewline(s.cond);
    }
    assert '\n' !in fc by {
      ForClauseNoNewline(s.update);
    }
    HeaderNoNewline(ic, c, fc);
  }

  lemma IfHeaderNoNewline(s: Stmt)
    requires s.If? && FlatExpr(s.cond)
    ensures '\n' !in IfHeader(s)
  {
    var c := EmitExpr(s.cond);
    ExprNoNewline(s.cond);
    assert IfHeader(s) == "if (" + c + ") {";
  }

  lemma HeaderNoNewline(ic: string, c: string, fc: string)
    requires '\n' !in ic && '\n' !in c && '\n' !in fc
    ensures '\n' !in "for (" + ic + "; " + c + "; " + fc + ") {"
  {
  }

  /** Depth is threaded, not tracked: rendering a statement k levels deeper is
      rendering it at its own depth and shifting every line right by k levels.
      The depth e is d + k, passed separately so that the recursive calls can
      name it. */
  lemma {:induction false} ShiftStmt(s: Stmt, d: nat, k: nat, e: nat)
    requires FlatStmt(s) && e == d + k
    ensures ShiftFrom(EmitStmt(s, d), Indent(k), true) == EmitStmt(s, e)
    decreases s, 2
  {
    if s.If? && s.elseBody == [] {
      ShiftIfThen(s, d, k, e);
    } else if s.If? {
      ShiftIfElse(s, d, k, e);
    } else if s.For? {
      ShiftFor(s, d, k, e);
    } else {
      ShiftSimple(s, d, k, e);
    }
  }

  /** The inductive step for an `if` without an else-body: its header and
      closing lines move by k levels and so, by induction, does its body. */
  lemma {:induction false} ShiftIfThen(s: Stmt, d: nat, k: nat, e: nat)
    requires s.If? && s.elseBody == [] && FlatStmt(s) && e == d + k
    ensures ShiftFrom(EmitStmt(s, d), Indent(k), true) == EmitStmt(s, e)
    decreases s, 1
  {
    ShiftBlock(s.thenBody, d + 1, k, e + 1);
    IndentAdd(k, d);
    IndentNoNewline(d);
    IfHeaderNoNewline(s);
    EmitIfThen(s, d);
    EmitIfThen(s, e);
    ShiftFrame(Indent(d), IfHeader(s), EmitBlock(s.thenBody, d + 1), "}",
               Indent(k), Indent(e), EmitBlock(s.thenBody, e + 1));
  }

  /** The inductive step for an `if` with an else-body: both bodies too. */
  lemma {:induction false} ShiftIfElse(s: Stmt, d: nat, k: nat, e: nat)
    requires s.If? && s.elseBody != [] && FlatStmt(s) && e == d + k
    ensures ShiftFrom(EmitStmt(s, d), Indent(k), true) == EmitStmt(s, e)
    decreases s, 1
  {
    ShiftBlock(s.thenBody, d + 1, k, e + 1);
    ShiftBlock(s.elseBody, d + 1, k, e + 1);
    IndentAdd(k, d);
    IndentNoNewline(d);
    IfHeaderNoNewline(s);
    EmitIfElse(s, d);
    EmitIfElse(s, e);
    ShiftFrameElse(Indent(d), IfHeader(s), EmitBlock(s.thenBody, d + 1), "} else {",
                   EmitBlock(s.elseBody, d + 1), "}",
                   Indent(k), Indent(e), EmitBlock(s.thenBody, e + 1), EmitBlock(s.elseBody, e + 1));
  }

  /** The inductive step for a `for`: likewise, with one body. */
  lemma {:induction false} ShiftFor(s: Stmt, d: nat, k: nat, e: nat)
    requires s.For? && FlatStmt(s) && e == d + k
    ensures ShiftFrom(EmitStmt(s, d), Indent(k), true) == EmitStmt(s, e)
    decreases s, 1
  {
    ShiftBlock(s.body, d + 1, k, e + 1);
    IndentAdd(k, d);
    IndentNoNewline(d);
    ForHeaderNoNewline(s);
    EmitFor(s, d);
    EmitFor(s, e);
    ShiftFrame(Indent(d), ForHeader(s), EmitBlock(s.body, d + 1), "}",
               Indent(k), Indent(e), EmitBlock(s.body, e + 1));
  }

  /** The base case: a one-line statement. */
  lemma ShiftSimple(s: Stmt, d: nat, k: nat, e: nat)
    requires s.IsSimple() && FlatStmt(s) && e == d + k
    ensures ShiftFrom(EmitStmt(s, d), Indent(k), true) == EmitStmt(s, e)
  {
    var pad, a, t := Indent(k), Indent(d), StatementText(s);
    IndentAdd(k, d);
    IndentNoNewline(d);
    EmitSimple(s, d);
    EmitSimple(s, e);
    StatementTextNoNewline(s);
    var l := a + t + ";";
    StmtLiterals();
    AppendAssoc(a + t, ";", "\n");
    AppendAssoc(Indent(e) + t, ";", "\n");
    AppendAssoc(pad, a, t);
    AppendAssoc(pad, a + t, ";");
    ShiftLine(l, pad);
  }

  /** The same for a body of statements. */
  lemma {:induction false} ShiftBlock(ss: seq<Stmt>, d: nat, k: nat, e: nat)
    requires (forall i :: 0 <= i < |ss| ==> FlatStmt(ss[i])) && e == d + k
    ensures ShiftFrom(EmitBlock(ss, d), Indent(k), true) == EmitBlock(ss, e)
    decreases ss, 0
  {
    if ss != [] {
      var init, last := ss[..|ss| - 1], ss[|ss| - 1];
      ShiftBlock(init, d, k, e);
      ShiftStmt(last, d, k, e);
      ShiftWholeThen(EmitBlock(init, d), EmitStmt(last, d), Indent(k));
    }
  }


  // ---------------------------------------------------------------------------
  // Implementation: the back end's string-building loops
  // ---------------------------------------------------------------------------

  /** `generate_statement`. */
  method GenerateStatement(s: Stmt, indent: nat) returns (code: string)
    ensures code == EmitStmt(s, indent)
    decreases s, 2
  {
    match s
    case Assign(t, v) =>
      code := Indent(indent) + AssignmentText(t, v) + ";\n";
    case If(_, _, _) =>
      code := GenerateIf(s, indent);
    case For(_, _, _, _) =>
      code := GenerateFor(s, indent);
    case Return(v) =>
      code := Indent(indent) + "return " + EmitExpr(v) + ";\n";
    case ExprStmt(e) =>
      code := Indent(indent) + EmitExpr(e) + ";\n";
  }

  /** `for stmt in body: code += self.generate_statement(stmt, indent)`, the
      loop the back end repeats for every statement body it renders. */
  method AppendBody(code0: string, ss: seq<Stmt>, indent: nat) returns (code: string)
    ensures code == code0 + EmitBlock(ss, indent)
    decreases ss, 0
  {
    code := code0;
    for i := 0 to |ss|
      invariant code == code0 + EmitBlock(ss[..i], indent)
    {
      var t := GenerateStatement(ss[i], indent);
      EmitBlockSnoc(ss, i, indent);
      AppendAssoc(code0, EmitBlock(ss[..i], indent), t);
      code := code + t;
    }
    assert ss[..|ss|] == ss;
  }

  /** `generate_if`. */
  method GenerateIf(s: Stmt, indent: nat) returns (code: string)
    requires s.If?
    ensures code == EmitStmt(s, indent)
    decreases s, 1
  {
    var pad := Indent(indent);
    code := pad + "if (" + EmitExpr(s.cond) + ") {\n";
    code := AppendBody(code, s.thenBody, indent + 1);
    code := code + pad + "}";
    if s.elseBody != [] {
      code := code + " else {\n";
      code := AppendBody(code, s.elseBody, indent + 1);
      code := code + pad + "}";
    }
    code := code + "\n";
  }

  /** `generate_for`. */
  method GenerateFor(s: Stmt, indent: nat) returns (code: string)
    requires s.For?
    ensures code == EmitStmt(s, indent)
    decreases s, 1
  {
    var pad := Indent(indent);
    var init := GenerateInit(s.init);
    var condition := EmitExpr(s.cond);
    var u := GenerateStatement(s.update, 0);
    var update := DropLast(Strip(u));
    assert update == ForClause(s.update);
    code := pad + "for (" + init + "; " + condition + "; " + update + ") {\n";
    code := AppendBody(code, s.body, indent + 1);
    code := code + pad + "}\n";
  }

  /** Renders the init clause of a loop header. */
  method GenerateInit(s: Stmt) returns (init: string)
    ensures init == InitClause(s)
    decreases s, 3
  {
    if s.Assign? && s.target.Var? {
      init := TypeSpelling(s.target.vtype) + " " + s.target.name + " = " + EmitExpr(s.value);
    } else {
      var t := GenerateStatement(s, 0);
      init := DropLast(Strip(t));
    }
  }
}
