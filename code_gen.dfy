/** The shader driver and the entry point of the HLSL back end
    (`generate`, `generate_shader`, `generate_function`): the two interface
    structs with their numbered slot tags, the functions in source order, and
    the fixed wrapper that turns a function named "main" into the pixel
    shader entry point. */
module CodeGen {
  import opened Ast
  import opened TextUtil
  import opened TypeMapping
  import opened StmtEmit

  // ---------------------------------------------------------------------------
  // Specification
  // ---------------------------------------------------------------------------

  /** A parameter of an ordinary function: its mapped type, a space, its name. */
  function ParamText(p: Decl): string
  {
    MapType(p.vtype) + " " + p.name
  }

  function ParamTexts(ps: seq<Decl>): (r: seq<string>)
    ensures |r| == |ps|
    ensures forall i :: 0 <= i < |ps| ==> r[i] == ParamText(ps[i])
  {
    seq(|ps|, i requires 0 <= i < |ps| => ParamText(ps[i]))
  }

  /** The entry point's return type is forced; any other function's is mapped. */
  function ReturnTypeText(f: Function): string
  {
    if f.name == "main" then "PS_OUTPUT" else MapType(f.returnType)
  }

  /** The entry point's parameter list is forced; any other function's is its
      parameters joined by ", ". */
  function ParamsText(f: Function): string
  {
    if f.name == "main" then "VS_INPUT input" else Join(ParamTexts(f.params), ", ")
  }

  /** The text of one function definition. */
  function EmitFunction(f: Function): string
  {
    var head := ReturnTypeText(f) + " " + f.name + "(" + ParamsText(f) + ") {\n";
    var start := if f.name == "main" then head + "    PS_OUTPUT output;\n" else head;
    var body := start + EmitBlock(f.body, 1);
    var closed := if f.name == "main" then body + "    return output;\n" else body;
    closed + "}\n"
  }

  /** One field line of an interface struct, without its line break: the
      declaration numbered i with the slot tag `tag`. */
  function FieldText(p: Decl, tag: string, i: nat): string
  {
    "    " + MapType(p.vtype) + " " + p.name + " : " + tag + NatToString(i) + ";"
  }

  /** The field lines of ps, numbered from 0 in declaration order. */
  function Fields(ps: seq<Decl>, tag: string): string
  {
    if ps == [] then "" else Fields(ps[..|ps| - 1], tag) + (FieldText(ps[|ps| - 1], tag, |ps| - 1) + "\n")
  }

  /** The texts of the functions, in source order. */
  function FunctionTexts(fs: seq<Function>): (r: seq<string>)
    ensures |r| == |fs|
    ensures forall i :: 0 <= i < |fs| ==> r[i] == EmitFunction(fs[i])
  {
    seq(|fs|, i requires 0 <= i < |fs| => EmitFunction(fs[i]))
  }

  /** Every function followed by an empty line, in source order. */
  function EmitFunctions(fs: seq<Function>): string
  {
    Unlines(FunctionTexts(fs))
  }

  /** The text of a whole shader. */
  function EmitShader(sh: Shader): string
  {
    "struct VS_INPUT {\n" + Fields(sh.inputs, "POSITION") + "};\n\n"
    + "struct PS_OUTPUT {\n" + Fields(sh.outputs, "SV_TARGET") + "};\n\n"
    + EmitFunctions(sh.functions)
  }

  /** `generate`: a shader is rendered, any other root gives the empty text. */
  function EmitRoot(root: Root): string
  {
    match root
    case ShaderRoot(sh) => EmitShader(sh)
    case OtherNode => ""
  }

  // ---------------------------------------------------------------------------
  // Properties
  // ---------------------------------------------------------------------------

  /** `generate` is empty exactly when the root is not a shader. */
  lemma EmitRootEmpty(root: Root)
    ensures EmitRoot(root) == "" <==> root.OtherNode?
  {
    if root.ShaderRoot? {
      var t := EmitShader(root.shader);
      assert t[0] == 's';
    }
  }

  /** The field lines numbered in declaration order. */
  function FieldTexts(ps: seq<Decl>, tag: string): (r: seq<string>)
    ensures |r| == |ps|
    ensures forall i :: 0 <= i < |ps| ==> r[i] == FieldText(ps[i], tag, i)
  {
    seq(|ps|, i requires 0 <= i < |ps| => FieldText(ps[i], tag, i))
  }

  /** The struct body for k declarations is exactly k lines, the i-th of
      which declares the i-th field with slot tag + i. */
  lemma {:induction false} FieldsAreLines(ps: seq<Decl>, tag: string)
    ensures Fields(ps, tag) == Unlines(FieldTexts(ps, tag))
  {
    if ps != [] {
      var n := |ps| - 1;
      FieldsAreLines(ps[..n], tag);
      var ls := FieldTexts(ps, tag);
      assert ls[..n] == FieldTexts(ps[..n], tag);
      AppendAssoc(Unlines(ls[..n]), ls[n], "\n");
    }
  }

  /** None of those lines breaks in two, so they are the lines of the text. */
  lemma FieldTextsLineFree(ps: seq<Decl>, tag: string)
    requires forall i :: 0 <= i < |ps| ==> '\n' !in ps[i].vtype && '\n' !in ps[i].name
    requires '\n' !in tag
    ensures LineFree(FieldTexts(ps, tag))
  {
    forall i | 0 <= i < |ps|
      ensures '\n' !in FieldText(ps[i], tag, i)
    {
      MapTypeChars(ps[i].vtype);
      assert '\n' !in NatToString(i);
    }
  }

  /** Slot tags are never reused within a struct: distinct positions get
      distinct numbers. */
  lemma SlotTagsDistinct(tag: string, i: nat, j: nat)
    requires i != j
    ensures tag + NatToString(i) != tag + NatToString(j)
  {
    NatToStringInjective(i, j);
    assert (tag + NatToString(i))[|tag|..] == NatToString(i);
    assert (tag + NatToString(j))[|tag|..] == NatToString(j);
  }

  /** Functions are emitted in source order, each one's text independent of
      its neighbours: rendering a concatenation concatenates the renderings. */
  lemma EmitFunctionsAppend(a: seq<Function>, b: seq<Function>)
    ensures EmitFunctions(a + b) == EmitFunctions(a) + EmitFunctions(b)
  {
    var l, r := FunctionTexts(a + b), FunctionTexts(a) + FunctionTexts(b);
    forall i | 0 <= i < |l|
      ensures l[i] == r[i]
    {
      if i < |a| {
        assert (a + b)[i] == a[i];
      } else {
        assert (a + b)[i] == b[i - |a|];
      }
    }
    assert l == r;
    UnlinesAppend(FunctionTexts(a), FunctionTexts(b));
  }


  /** Rendering one more function appends its text and an empty line. */
  lemma EmitFunctionsSnoc(fs: seq<Function>, i: nat)
    requires i < |fs|
    ensures EmitFunctions(fs[..i + 1]) == EmitFunctions(fs[..i]) + (EmitFunction(fs[i]) + "\n")
  {
    assert fs[..i + 1] == fs[..i] + [fs[i]];
    EmitFunctionsAppend(fs[..i], [fs[i]]);
    var one, t := FunctionTexts([fs[i]]), EmitFunction(fs[i]);
    assert one[0] == t;
    assert one == [t];
    UnlinesOne(t);
  }

  /** The entry point: whatever its declared parameters and return type, the
      header is forced, the output variable is declared first and returned
      last, and the body sits between them at depth 1. */
  lemma MainForm(f: Function)
    requires f.name == "main"
    ensures EmitFunction(f)
         == "PS_OUTPUT main(VS_INPUT input) {\n    PS_OUTPUT output;\n" + EmitBlock(f.body, 1) + "    return output;\n}\n"
  {
    var b := EmitBlock(f.body, 1);
    var head := "PS_OUTPUT" + " " + f.name + "(" + "VS_INPUT input" + ") {\n";
    var start := head + "    PS_OUTPUT output;\n";
    assert EmitFunction(f) == start + b + "    return output;\n" + "}\n";
    MainLiterals();
    AppendAssoc(start + b, "    return output;\n", "}\n");
  }

  /** Proof aid, not part of the generator: the pieces of the entry point's
      header and trailer, joined. */
  lemma MainLiterals()
    ensures "PS_OUTPUT" + " " + "main" + "(" + "VS_INPUT input" + ") {\n" + "    PS_OUTPUT output;\n"
         == "PS_OUTPUT main(VS_INPUT input) {\n    PS_OUTPUT output;\n"
    ensures "    return output;\n" + "}\n" == "    return output;\n}\n"
  {
    MainHeadLiteral();
    assert "    return output;\n" + "}\n" == "    return output;\n}\n";
  }

  /** Proof aid, not part of the generator: the first lines of the entry
      point, joined. */
  lemma MainHeadLiteral()
    ensures "PS_OUTPUT" + " " + "main" + "(" + "VS_INPUT input" + ") {\n" == "PS_OUTPUT main(VS_INPUT input) {\n"
  {
    assert "PS_OUTPUT" + " " == "PS_OUTPUT ";
    assert "PS_OUTPUT " + "main" == "PS_OUTPUT main";
    assert "PS_OUTPUT main" + "(" == "PS_OUTPUT main(";
    assert "PS_OUTPUT main(" + "VS_INPUT input" == "PS_OUTPUT main(VS_INPUT input";
  }

  /** Consequently the entry point's declared signature plays no part. */
  lemma MainIgnoresSignature(f: Function, g: Function)
    requires f.name == "main" && g.name == "main" && f.body == g.body
    ensures EmitFunction(f) == EmitFunction(g)
  {
    MainForm(f);
    MainForm(g);
  }

  /** Any other function: its mapped return type and joined parameters in the
      header, its body at depth 1, a closing brace, and no wrapper lines. */
  lemma OtherForm(f: Function)
    requires f.name != "main"
    ensures EmitFunction(f)
         == MapType(f.returnType) + " " + f.name + "(" + Join(ParamTexts(f.params), ", ") + ") {\n"
            + EmitBlock(f.body, 1) + "}\n"
  {
  }

  /** The whole layout: the input struct's lines, the output struct's lines,
      each struct closed and followed by an empty line, then the functions. */
  lemma ShaderLayout(sh: Shader)
    ensures EmitShader(sh)
         == Unlines(["struct VS_INPUT {"] + FieldTexts(sh.inputs, "POSITION") + ["};", ""]
                    + (["struct PS_OUTPUT {"] + FieldTexts(sh.outputs, "SV_TARGET") + ["};", ""]))
            + EmitFunctions(sh.functions)
  {
    var s1 := ["struct VS_INPUT {"] + FieldTexts(sh.inputs, "POSITION") + ["};", ""];
    var s2 := ["struct PS_OUTPUT {"] + FieldTexts(sh.outputs, "SV_TARGET") + ["};", ""];
    var a, b := Fields(sh.inputs, "POSITION"), Fields(sh.outputs, "SV_TARGET");
    var y := "struct PS_OUTPUT {\n" + b + "};\n\n";
    assert EmitShader(sh) == "struct VS_INPUT {\n" + a + "};\n\n" + y + EmitFunctions(sh.functions) by {
      Regroup("struct VS_INPUT {\n" + a + "};\n\n", "struct PS_OUTPUT {\n", b, "};\n\n", EmitFunctions(sh.functions));
    }
    StructText("struct VS_INPUT {", sh.inputs, "POSITION");
    StructText("struct PS_OUTPUT {", sh.outputs, "SV_TARGET");
    StructHeads();
    UnlinesAppend(s1, s2);
  }

  /** Proof aid, not part of the generator: the opening lines of the two
      structs, with their line breaks. */
  lemma StructHeads()
    ensures "struct VS_INPUT {" + "\n" == "struct VS_INPUT {\n"
    ensures "struct PS_OUTPUT {" + "\n" == "struct PS_OUTPUT {\n"
  {
    assert "struct VS_INPUT {" + "\n" == "struct VS_INPUT {\n";
  }

  /** One interface struct: its opening line, its numbered field lines, the
      closing line and an empty line. */
  lemma StructText(head: string, ps: seq<Decl>, tag: string)
    ensures Unlines([head] + FieldTexts(ps, tag) + ["};", ""]) == head + "\n" + Fields(ps, tag) + "};\n\n"
  {
    FieldsAreLines(ps, tag);
    StructLines(head, FieldTexts(ps, tag));
  }

  /** Proof aid, not part of the generator: regrouping the second struct of
      a shader as one piece. */
  lemma Regroup(x: string, p: string, b: string, q: string, f: string)
    ensures x + p + b + q + f == x + (p + b + q) + f
  {
    AppendAssoc(x, p, b);
    AppendAssoc(x, p + b, q);
  }

  /** A struct: its opening line, its field lines, the closing line and an
      empty line. */
  lemma StructLines(head: string, ls: seq<string>)
    ensures Unlines([head] + ls + ["};", ""]) == head + "\n" + Unlines(ls) + "};\n\n"
  {
    UnlinesAppend([head], ls);
    UnlinesAppend([head] + ls, ["};", ""]);
    UnlinesOne(head);
    UnlinesOne("};");
    assert ["};", ""][..1] == ["};"];
    assert Unlines(["};", ""]) == "};\n" + "" + "\n";
    assert "};\n" + "" + "\n" == "};\n\n";
  }

  // ---------------------------------------------------------------------------
  // Implementation: the back end's string-building loops
  // ---------------------------------------------------------------------------

  /** `generate_function`. */
  method GenerateFunction(f: Function) returns (code: string)
    ensures code == EmitFunction(f)
  {
    var params: string;
    var returnType: string;
    if f.name == "main" {
      params := "VS_INPUT input";
      returnType := "PS_OUTPUT";
    } else {
      params := Join(ParamTexts(f.params), ", ");
      returnType := MapType(f.returnType);
    }
    code := returnType + " " + f.name + "(" + params + ") {\n";
    if f.name == "main" {
      code := code + "    PS_OUTPUT output;\n";
    }
    code := AppendBody(code, f.body, 1);
    if f.name == "main" {
      code := code + "    return output;\n";
    }
    code := code + "}\n";
  }

  /** `for i, (vtype, name) in enumerate(decls): code += ...`, the loop the
      back end writes once per interface struct. */
  method AppendFields(code0: string, ps: seq<Decl>, tag: string) returns (code: string)
    ensures code == code0 + Fields(ps, tag)
  {
    code := code0;
    for i := 0 to |ps|
      invariant code == code0 + Fields(ps[..i], tag)
    {
      assert ps[..i + 1][..i] == ps[..i];
      var line := "    " + MapType(ps[i].vtype) + " " + ps[i].name + " : " + tag + NatToString(i) + ";\n";
      assert line == FieldText(ps[i], tag, i) + "\n";
      AppendAssoc(code0, Fields(ps[..i], tag), line);
      code := code + line;
    }
    assert ps[..|ps|] == ps;
  }

  /** `generate_shader`. */
  method GenerateShader(sh: Shader) returns (code: string)
    ensures code == EmitShader(sh)
  {
    code := "struct VS_INPUT {\n";
    code := AppendFields(code, sh.inputs, "POSITION");
    code := code + "};\n\n";
    code := code + "struct PS_OUTPUT {\n";
    code := AppendFields(code, sh.outputs, "SV_TARGET");
    code := code + "};\n\n";
    code := AppendFunctions(code, sh.functions);
  }

  /** `for function in node.functions: code += self.generate_function(function) + "\n"`. */
  method AppendFunctions(code0: string, fs: seq<Function>) returns (code: string)
    ensures code == code0 + EmitFunctions(fs)
  {
    code := code0;
    for i := 0 to |fs|
      invariant code == code0 + EmitFunctions(fs[..i])
    {
      var t := GenerateFunction(fs[i]);
      EmitFunctionsSnoc(fs, i);
      AppendAssoc(code0, EmitFunctions(fs[..i]), t + "\n");
      code := code + (t + "\n");
    }
    assert fs[..|fs|] == fs;
  }

  /** `generate`. */
  method Generate(root: Root) returns (code: string)
    ensures code == EmitRoot(root)
  {
    if root.ShaderRoot? {
      code := GenerateShader(root.shader);
    } else {
      code := "";
    }
  }
}
