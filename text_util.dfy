/** The string primitives the code generator leans on: `"    " * n`, an
    integer formatted in decimal, `str.strip()`, slicing off the last
    character, `", ".join(...)`, and two views of a text used only in
    specifications (its lines, and its lines shifted right). */
module TextUtil {

  // ---------------------------------------------------------------------------
  // Indentation: `"    " * n`
  // ---------------------------------------------------------------------------

  /** Four spaces per indentation level. */
  function Indent(n: nat): (r: string)
    ensures |r| == 4 * n
  {
    if n == 0 then "" else "    " + Indent(n - 1)
  }

  /** Indentation is nothing but spaces. */
  lemma {:induction false} IndentSpaces(n: nat)
    ensures forall i :: 0 <= i < |Indent(n)| ==> Indent(n)[i] == ' '
  {
    if n > 0 {
      IndentSpaces(n - 1);
      var r := Indent(n);
      forall i | 0 <= i < |r| ensures r[i] == ' ' {
        if i >= 4 { assert r[i] == Indent(n - 1)[i - 4]; }
      }
    }
  }

  /** Indentation levels add up: k levels followed by d levels is d + k levels. */
  lemma IndentAdd(k: nat, d: nat)
    ensures Indent(k) + Indent(d) == Indent(d + k)
  {
    var a, b := Indent(k) + Indent(d), Indent(d + k);
    IndentSpaces(k);
    IndentSpaces(d);
    IndentSpaces(d + k);
    assert |a| == |b|;
    forall i | 0 <= i < |a| ensures a[i] == b[i] {
      if i < |Indent(k)| { assert a[i] == Indent(k)[i]; } else { assert a[i] == Indent(d)[i - |Indent(k)|]; }
    }
  }

  /** Proof aid, not part of the generator: regrouping a concatenation,
      stated once so that long texts built by appending need not be regrouped
      by the solver. */
  lemma AppendAssoc(a: string, b: string, c: string)
    ensures a + b + c == a + (b + c)
  {
  }

  /** Proof aid, not part of the generator: a text extended at its end keeps
      its first character. */
  lemma HeadOf(a: string, b: string)
    requires a != []
    ensures a + b != [] && (a + b)[0] == a[0]
  {
  }

  // ---------------------------------------------------------------------------
  // Decimal formatting of a slot index: f"{i}"
  // ---------------------------------------------------------------------------

  predicate IsDigit(c: char) { '0' <= c <= '9' }

  function DigitChar(d: nat): (c: char)
    requires d < 10
    ensures IsDigit(c) && c as int - '0' as int == d
  {
    ('0' as int + d) as char
  }

  /** Decimal text of n, most significant digit first, no leading zeros. */
  function NatToString(n: nat): (r: string)
    ensures |r| >= 1
    ensures forall i :: 0 <= i < |r| ==> IsDigit(r[i])
    ensures |r| > 1 ==> r[0] != '0'
  {
    if n < 10 then [DigitChar(n)] else NatToString(n / 10) + [DigitChar(n % 10)]
  }

  /** The value of a string of decimal digits (the inverse of NatToString). */
  function DecimalValue(s: string): nat
    requires forall i :: 0 <= i < |s| ==> IsDigit(s[i])
  {
    if s == [] then 0
    else
      assert IsDigit(s[|s| - 1]);
      DecimalValue(s[..|s| - 1]) * 10 + (s[|s| - 1] as int - '0' as int)
  }

  /** Reading back the decimal text of n gives n. */
  lemma {:induction false} DecimalRoundTrip(n: nat)
    ensures DecimalValue(NatToString(n)) == n
  {
    var s := NatToString(n);
    if n >= 10 {
      DecimalRoundTrip(n / 10);
      assert s[..|s| - 1] == NatToString(n / 10);
    }
  }

  /** Distinct slot indices get distinct decimal tags. */
  lemma NatToStringInjective(m: nat, n: nat)
    requires m != n
    ensures NatToString(m) != NatToString(n)
  {
    DecimalRoundTrip(m);
    DecimalRoundTrip(n);
  }

  // ---------------------------------------------------------------------------
  // str.strip() and s[:-1]
  // ---------------------------------------------------------------------------

  /** The characters Python's `str.isspace()` accepts, which `str.strip()` removes. */
  predicate IsSpace(c: char) {
    c == ' ' || ('\t' <= c <= '\r') || ('\U{1C}' <= c <= '\U{1F}') || c == '\U{85}' || c == '\U{A0}'
    || c == '\U{1680}' || ('\U{2000}' <= c <= '\U{200A}') || c == '\U{2028}' || c == '\U{2029}'
    || c == '\U{202F}' || c == '\U{205F}' || c == '\U{3000}'
  }

  /** s without its leading whitespace. */
  function TrimStart(s: string): string
  {
    if s != [] && IsSpace(s[0]) then TrimStart(s[1..]) else s
  }

  /** The leading whitespace removed: a suffix of s, everything cut off is
      whitespace, and what remains does not start with whitespace. */
  lemma {:induction false} TrimStartSpec(s: string)
    ensures |TrimStart(s)| <= |s| && TrimStart(s) == s[|s| - |TrimStart(s)|..]
    ensures forall i :: 0 <= i < |s| - |TrimStart(s)| ==> IsSpace(s[i])
    ensures TrimStart(s) == [] || !IsSpace(TrimStart(s)[0])
  {
    if s != [] && IsSpace(s[0]) {
      var t := s[1..];
      TrimStartSpec(t);
      var r := TrimStart(s);
      assert r == TrimStart(t);
      assert |s| - |r| == 1 + (|t| - |r|);
      assert s[|s| - |r|..] == t[|t| - |r|..];
      forall i | 0 <= i < |s| - |r| ensures IsSpace(s[i]) {
        if i > 0 { assert s[i] == t[i - 1]; }
      }
    }
  }

  /** s without its trailing whitespace. */
  function TrimEnd(s: string): string
  {
    if s != [] && IsSpace(s[|s| - 1]) then TrimEnd(s[..|s| - 1]) else s
  }

  /** The trailing whitespace removed: a prefix of s, everything cut off is
      whitespace, and what remains does not end with whitespace. */
  lemma {:induction false} TrimEndSpec(s: string)
    ensures |TrimEnd(s)| <= |s| && TrimEnd(s) == s[..|TrimEnd(s)|]
    ensures forall i :: |TrimEnd(s)| <= i < |s| ==> IsSpace(s[i])
    ensures TrimEnd(s) == [] || !IsSpace(TrimEnd(s)[|TrimEnd(s)| - 1])
  {
    if s != [] && IsSpace(s[|s| - 1]) {
      var p := s[..|s| - 1];
      TrimEndSpec(p);
      var r := TrimEnd(s);
      assert r == TrimEnd(p);
      forall i | |r| <= i < |s| ensures IsSpace(s[i]) {
        if i < |s| - 1 { assert s[i] == p[i]; }
      }
    }
  }

  /** `s.strip()`. */
  function Strip(s: string): string
  {
    TrimEnd(TrimStart(s))
  }

  /** A stripped text is the run of s between its leading and its trailing
      whitespace: everything cut from either end was whitespace. */
  lemma StripSpan(s: string)
    ensures |Strip(s)| <= |TrimStart(s)| <= |s|
    ensures Strip(s) == s[|s| - |TrimStart(s)|..|s| - |TrimStart(s)| + |Strip(s)|]
    ensures forall k :: 0 <= k < |s| - |TrimStart(s)| ==> IsSpace(s[k])
    ensures forall k :: |s| - |TrimStart(s)| + |Strip(s)| <= k < |s| ==> IsSpace(s[k])
  {
    var t := TrimStart(s);
    TrimStartSpec(s);
    TrimEndSpec(t);
    var r, i := TrimEnd(t), |s| - |t|;
    assert r == s[i..i + |r|] by {
      assert t == s[i..] && r == t[..|r|];
    }
    forall k | i + |r| <= k < |s| ensures IsSpace(s[k]) {
      assert s[k] == t[k - i];
    }
  }

  /** Neither end of a stripped text is whitespace, and it is exactly the
      run of s between its leading and its trailing whitespace. */
  lemma StripSpec(s: string)
    ensures |Strip(s)| <= |TrimStart(s)| <= |s|
    ensures Strip(s) == s[|s| - |TrimStart(s)|..|s| - |TrimStart(s)| + |Strip(s)|]
    ensures forall k :: 0 <= k < |s| - |TrimStart(s)| ==> IsSpace(s[k])
    ensures forall k :: |s| - |TrimStart(s)| + |Strip(s)| <= k < |s| ==> IsSpace(s[k])
    ensures Strip(s) == [] || (!IsSpace(Strip(s)[0]) && !IsSpace(Strip(s)[|Strip(s)| - 1]))
  {
    StripSpan(s);
    var t := TrimStart(s);
    TrimStartSpec(s);
    TrimEndSpec(t);
    var r := TrimEnd(t);
    if r != [] {
      assert r[0] == t[0];
    }
  }

  /** `s[:-1]`: the last character is removed whatever it is; "" stays "". */
  function DropLast(s: string): (r: string)
    ensures |r| == if s == [] then 0 else |s| - 1
  {
    if s == [] then s else s[..|s| - 1]
  }

  /** What `[:-1]` keeps is the input up to its last character. */
  lemma DropLastSpec(s: string)
    ensures s != [] ==> DropLast(s) + [s[|s| - 1]] == s
    ensures DropLast(s) <= s
  {
  }

  /** Leading whitespace stops at the first non-space character of u. */
  lemma {:induction false} TrimStartAppend(t: string, u: string)
    requires u != [] && !IsSpace(u[0])
    ensures TrimStart(t + u) == TrimStart(t) + u
  {
    if t != [] {
      assert (t + u)[0] == t[0] && (t + u)[1..] == t[1..] + u;
      if IsSpace(t[0]) {
        TrimStartAppend(t[1..], u);
      }
    }
  }

  /** A text that starts with a non-space has no leading whitespace to lose. */
  lemma TrimStartKeep(s: string)
    requires s != [] && !IsSpace(s[0])
    ensures TrimStart(s) == s
  {
  }

  /** A text that ends with a non-space has no trailing whitespace to lose. */
  lemma TrimEndKeep(s: string)
    requires s != [] && !IsSpace(s[|s| - 1])
    ensures TrimEnd(s) == s
  {
  }

  /** A trailing line break is whitespace and goes. */
  lemma TrimEndLineBreak(u: string)
    ensures TrimEnd(u + "\n") == TrimEnd(u)
  {
    var y := u + "\n";
    assert y[|y| - 1] == '\n' && IsSpace('\n');
    assert y[..|y| - 1] == u;
  }

  /** Stripping a statement line `t + ";\n"` keeps t (less its leading
      whitespace) and the ';', and removes only the line break. */
  lemma StripTerminatedLine(t: string)
    ensures Strip(t + ";\n") == TrimStart(t) + ";"
  {
    TrimStartAppend(t, ";\n");
    TrimEndTerminated(TrimStart(t));
  }

  /** Trailing whitespace of a `;`-terminated line is its line break alone. */
  lemma TrimEndTerminated(v: string)
    ensures TrimEnd(v + ";\n") == v + ";"
  {
    var u := v + ";";
    AppendAssoc(v, ";", "\n");
    assert ";" + "\n" == ";\n";
    TrimEndLineBreak(u);
    assert u[|u| - 1] == ';' && !IsSpace(';');
    TrimEndKeep(u);
  }

  /** Stripping a line whose ends are not whitespace removes only its line break. */
  lemma StripLineBreak(x: string)
    requires x != [] && !IsSpace(x[0]) && !IsSpace(x[|x| - 1])
    ensures Strip(x + "\n") == x
  {
    var y := x + "\n";
    assert y[0] == x[0];
    TrimStartKeep(y);
    TrimEndLineBreak(x);
    TrimEndKeep(x);
  }

  /** Stripping a line that ends in a closing brace and dropping the last
      character removes exactly the brace and the line break. */
  lemma StripBraceLine(x: string)
    requires x != [] && !IsSpace(x[0]) && x[|x| - 1] == '}'
    ensures DropLast(Strip(x + "\n")) + "}\n" == x + "\n"
  {
    assert !IsSpace('}');
    StripLineBreak(x);
    var p := DropLast(x);
    assert p == x[..|x| - 1];
    assert p + "}" == x;
    AppendAssoc(p, "}", "\n");
    assert "}" + "\n" == "}\n";
  }

  /** Removing leading whitespace cannot create a line break. */
  lemma TrimStartNoNewline(t: string)
    requires '\n' !in t
    ensures '\n' !in TrimStart(t)
  {
    var r := TrimStart(t);
    TrimStartSpec(t);
    var k := |t| - |r|;
    assert r == t[k..];
    forall i | 0 <= i < |r| ensures r[i] != '\n' {
      assert r[i] == t[k + i] && t[k + i] in t;
    }
  }

  // ---------------------------------------------------------------------------
  // ", ".join(parts)
  // ---------------------------------------------------------------------------

  /** The parts in order with sep between neighbours (and nowhere else). */
  function Join(parts: seq<string>, sep: string): string
  {
    if |parts| == 0 then ""
    else if |parts| == 1 then parts[0]
    else Join(parts[..|parts| - 1], sep) + sep + parts[|parts| - 1]
  }

  /** A join of line-free parts with a line-free separator has no line break. */
  lemma {:induction false} JoinNoNewline(parts: seq<string>, sep: string)
    requires '\n' !in sep
    requires forall i :: 0 <= i < |parts| ==> '\n' !in parts[i]
    ensures '\n' !in Join(parts, sep)
  {
    if |parts| > 1 {
      JoinNoNewline(parts[..|parts| - 1], sep);
    }
  }

  // ---------------------------------------------------------------------------
  // Text as a sequence of lines (specification only)
  // ---------------------------------------------------------------------------

  /** The lines in order, each followed by a line break. */
  function Unlines(ls: seq<string>): string
  {
    if ls == [] then "" else Unlines(ls[..|ls| - 1]) + ls[|ls| - 1] + "\n"
  }

  /** True when no line holds a line break of its own, so that the lines of
      Unlines(ls) are exactly ls. */
  predicate LineFree(ls: seq<string>) {
    forall i :: 0 <= i < |ls| ==> '\n' !in ls[i]
  }

  lemma UnlinesOne(x: string)
    ensures Unlines([x]) == x + "\n"
  {
    assert [x][..0] == [];
  }

  lemma {:induction false} UnlinesAppend(a: seq<string>, b: seq<string>)
    ensures Unlines(a + b) == Unlines(a) + Unlines(b)
    decreases |b|
  {
    if b == [] {
      assert a + b == a;
    } else {
      var c, p, l := a + b, b[..|b| - 1], b[|b| - 1];
      assert c[..|c| - 1] == a + p && c[|c| - 1] == l;
      UnlinesAppend(a, p);
      AppendAssoc(Unlines(a), Unlines(p), l);
      AppendAssoc(Unlines(a), Unlines(p) + l, "\n");
    }
  }

  // ---------------------------------------------------------------------------
  // Shifting every line right (specification only)
  // ---------------------------------------------------------------------------

  /** t with pad inserted before the first character of every line; bol says
      whether t starts at the beginning of a line. */
  function ShiftFrom(t: string, pad: string, bol: bool): string
    decreases |t|
  {
    if t == [] then []
    else (if bol then pad else []) + [t[0]] + ShiftFrom(t[1..], pad, t[0] == '\n')
  }

  /** True when s is made of complete lines: empty, or ending in a line break. */
  predicate WholeLines(s: string) { s == [] || s[|s| - 1] == '\n' }

  /** Whether the text after a starts a fresh line. */
  function AfterBol(a: string, bol: bool): bool {
    if a == [] then bol else a[|a| - 1] == '\n'
  }

  lemma {:induction false} ShiftAppend(a: string, b: string, pad: string, bol: bool)
    ensures ShiftFrom(a + b, pad, bol) == ShiftFrom(a, pad, bol) + ShiftFrom(b, pad, AfterBol(a, bol))
    decreases |a|
  {
    if a == [] {
      assert a + b == b;
    } else {
      assert (a + b)[0] == a[0] && (a + b)[1..] == a[1..] + b;
      ShiftAppend(a[1..], b, pad, a[0] == '\n');
      assert AfterBol(a[1..], a[0] == '\n') == AfterBol(a, bol);
    }
  }

  /** Text inside a line is left alone. */
  lemma {:induction false} ShiftInsideLine(x: string, pad: string)
    requires '\n' !in x
    ensures ShiftFrom(x, pad, false) == x
    decreases |x|
  {
    if x != [] {
      ShiftInsideLine(x[1..], pad);
    }
  }

  /** A whole line gets the pad in front. */
  lemma ShiftLine(x: string, pad: string)
    requires '\n' !in x
    ensures ShiftFrom(x + "\n", pad, true) == pad + x + "\n"
  {
    ShiftAppend(x, "\n", pad, true);
    if x != [] {
      assert x[1..] + [] == x[1..];
      ShiftInsideLine(x[1..], pad);
      assert ShiftFrom(x, pad, true) == pad + [x[0]] + x[1..];
      assert [x[0]] + x[1..] == x;
    }
  }

  /** Shifting a text that is whole lines followed by more text. */
  lemma ShiftWholeThen(b: string, rest: string, pad: string)
    requires WholeLines(b)
    ensures ShiftFrom(b + rest, pad, true) == ShiftFrom(b, pad, true) + ShiftFrom(rest, pad, true)
  {
    ShiftAppend(b, rest, pad, true);
  }

  /** Shifting one line followed by more text. */
  lemma ShiftLineThen(x: string, rest: string, pad: string)
    requires '\n' !in x
    ensures ShiftFrom(x + "\n" + rest, pad, true) == (pad + x) + "\n" + ShiftFrom(rest, pad, true)
  {
    ShiftLine(x, pad);
    ShiftWholeThen(x + "\n", rest, pad);
  }

  /** A line, a block of lines, a line. */
  lemma ShiftThree(l1: string, b: string, l2: string, pad: string)
    requires '\n' !in l1 && '\n' !in l2 && WholeLines(b)
    ensures ShiftFrom(l1 + "\n" + b + l2 + "\n", pad, true)
         == (pad + l1) + "\n" + ShiftFrom(b, pad, true) + (pad + l2) + "\n"
  {
    AppendAssoc(l1 + "\n", b, l2 + "\n");
    assert l1 + "\n" + b + l2 + "\n" == l1 + "\n" + (b + (l2 + "\n"));
    ShiftLineThen(l1, b + (l2 + "\n"), pad);
    ShiftWholeThen(b, l2 + "\n", pad);
    ShiftLine(l2, pad);
  }

  /** A line, a block, a line, a block, a line. */
  lemma ShiftFive(l1: string, b1: string, l2: string, b2: string, l3: string, pad: string)
    requires '\n' !in l1 && '\n' !in l2 && '\n' !in l3 && WholeLines(b1) && WholeLines(b2)
    ensures ShiftFrom(l1 + "\n" + b1 + l2 + "\n" + b2 + l3 + "\n", pad, true)
         == (pad + l1) + "\n" + ShiftFrom(b1, pad, true) + (pad + l2) + "\n" + ShiftFrom(b2, pad, true) + (pad + l3) + "\n"
  {
    var a, b, c := l1 + "\n", l2 + "\n", l3 + "\n";
    var sb1, sb2 := ShiftFrom(b1, pad, true), ShiftFrom(b2, pad, true);
    AppendAssoc(a + b1, l2, "\n");
    AppendAssoc(a + b1 + b + b2, l3, "\n");
    AppendAssoc(a + b1 + b, b2, c);
    AppendAssoc(a + b1, b, b2 + c);
    AppendAssoc(a, b1, b + (b2 + c));
    assert l1 + "\n" + b1 + l2 + "\n" + b2 + l3 + "\n" == a + (b1 + (b + (b2 + c)));
    ShiftLineThen(l1, b1 + (b + (b2 + c)), pad);
    ShiftWholeThen(b1, b + (b2 + c), pad);
    ShiftLineThen(l2, b2 + c, pad);
    ShiftWholeThen(b2, c, pad);
    ShiftLine(l3, pad);
    var pa, pb, pc := (pad + l1) + "\n", (pad + l2) + "\n", (pad + l3) + "\n";
    assert ShiftFrom(l1 + "\n" + b1 + l2 + "\n" + b2 + l3 + "\n", pad, true) == pa + (sb1 + (pb + (sb2 + pc)));
    AppendAssoc(pa, sb1, pb + (sb2 + pc));
    AppendAssoc(pa + sb1, pb, sb2 + pc);
    AppendAssoc(pa + sb1 + pb, sb2, pc);
    AppendAssoc(pa + sb1, pad + l2, "\n");
    AppendAssoc(pa + sb1 + pb + sb2, pad + l3, "\n");
  }
  /** A block statement's frame moved right: indentation a becomes a', the
      body b becomes b', the header h and trailer t are unchanged. */
  lemma ShiftFrame(a: string, h: string, b: string, t: string, pad: string, a': string, b': string)
    requires '\n' !in a && '\n' !in h && '\n' !in t && WholeLines(b)
    requires pad + a == a' && ShiftFrom(b, pad, true) == b'
    ensures ShiftFrom((a + h) + "\n" + b + (a + t) + "\n", pad, true) == (a' + h) + "\n" + b' + (a' + t) + "\n"
  {
    ShiftThree(a + h, b, a + t, pad);
    AppendAssoc(pad, a, h);
    AppendAssoc(pad, a, t);
  }

  /** The same with a middle line and a second body, as an if-else has. */
  lemma ShiftFrameElse(a: string, h: string, b1: string, m: string, b2: string, t: string,
                       pad: string, a': string, b1': string, b2': string)
    requires '\n' !in a && '\n' !in h && '\n' !in m && '\n' !in t && WholeLines(b1) && WholeLines(b2)
    requires pad + a == a' && ShiftFrom(b1, pad, true) == b1' && ShiftFrom(b2, pad, true) == b2'
    ensures ShiftFrom((a + h) + "\n" + b1 + (a + m) + "\n" + b2 + (a + t) + "\n", pad, true)
         == (a' + h) + "\n" + b1' + (a' + m) + "\n" + b2' + (a' + t) + "\n"
  {
    ShiftFive(a + h, b1, a + m, b2, a + t, pad);
    AppendAssoc(pad, a, h);
    AppendAssoc(pad, a, m);
    AppendAssoc(pad, a, t);
  }


  /** Indentation holds no line break. */
  lemma IndentNoNewline(n: nat)
    ensures '\n' !in Indent(n)
  {
    var r := Indent(n);
    IndentSpaces(n);
    forall i | 0 <= i < |r| ensures r[i] != '\n' {
    }
  }
}
