# HLSL back end of the shader compiler, in Dafny

This project models `HLSLCodeGen`, the back end in
`compiler/codegen/directx_codegen.py`. It takes a parsed shader
(interface declarations and functions) and produces HLSL source text in one
walk over the tree. The back end has no state and no I/O. The model has
three parts:

- **Specification functions** give the text each node produces.
- **Methods** build that text the way the back end does, with a `code`
  string that grows inside loops. Each method is proved to produce exactly
  the specified text.
- **Lemmas** prove what that text looks like.

Modules, one per file:

- `Ast` (`ast.dfy`): the tree as datatypes.
  - `Expr`: literal, variable with an optional declared type, binary
    operation, call, member access, and an opaque fallback.
  - `Stmt`: assignment, `if`, three-clause `for`, `return`, expression
    statement.
  - Also `Decl`, `Function`, `Shader`, and the `Root` handed to `generate`.
- `TypeMapping` (`type_mapping.dfy`): `map_type` and `map_operator`. These
  are the two fixed tables, and an unknown key is returned unchanged.
- `TextUtil` (`text_util.dfy`): the Python text operations the back end
  uses, written out.
  - `"    " * n` and `f"{i}"`.
  - `str.strip()` over Python's whitespace set, and `[:-1]`.
  - `", ".join`.
  - Two devices used only to state properties:
    - `Unlines`, a list of lines each followed by a line break;
    - `ShiftFrom`, every line of a text moved right by a pad.
- `ExprEmit` (`expr_emit.dfy`): `generate_expression`.
- `StmtEmit` (`stmt_emit.dfy`): `generate_statement`,
  `generate_assignment`, `generate_if` and `generate_for`. The indentation
  depth is passed down explicitly.
- `CodeGen` (`code_gen.dfy`): `generate_function`, `generate_shader` and
  `generate`.

Behaviour worth knowing, all of it modelled as the code has it:

- **The `for` init clause ignores the declared type.** Any assignment to a
  variable is written inline with `map_type(vtype)`.
  - An untyped variable therefore prints `None i = 0`.
  - A variable typed `""` prints with a leading space.
- **A loop clause can keep a `;`.** The clause is made with "strip, then
  drop the last character", so it loses its last character whatever that
  is.
  - A statement whose own text ends in `;` keeps that `;`, so a loop
    clause can end in `;`.
  - A nested `if` or `for` used as a clause loses its closing brace
    instead.
- **The loop condition is parenthesised.** It is rendered like any other
  expression, so a relational condition comes out as `(i < 4)`.
- **The entry point does not rename writes.** Assignments such as
  `color = …` are written as they are, not as `output.color = …`, and no
  diagnostics are produced.

## Model

| member | source | states |
|---|---|---|
| TypeMapping.MapTypeKnown | compiler/codegen/directx_codegen.py:127-138 | the eight known type names map to their HLSL spellings (`vec3`→`float3`, `mat4`→`float4x4`, `sampler2D`→`Texture2D`, …) |
| TypeMapping.MapTypeFallback | compiler/codegen/directx_codegen.py:138 | any other name is returned unchanged (`get(vtype, vtype)`) |
| TypeMapping.MapTypeIdempotent | compiler/codegen/directx_codegen.py:127-138 | mapping an already mapped name changes nothing |
| TypeMapping.MapTypeChars | compiler/codegen/directx_codegen.py:127-138 | the result is the input or a table spelling, so it adds no line break or parenthesis |
| TypeMapping.MapOperatorKnown | compiler/codegen/directx_codegen.py:140-155 | the twelve token names `PLUS`…`OR` map to `+ - * / < > <= >= == != && \|\|` |
| TypeMapping.MapOperatorFallback | compiler/codegen/directx_codegen.py:155 | any other token is returned unchanged |
| TypeMapping.MapOperatorIdempotent | compiler/codegen/directx_codegen.py:140-155 | mapping an already mapped token changes nothing |
| TypeMapping.MapOperatorInjective | compiler/codegen/directx_codegen.py:141-154 | distinct known tokens get distinct symbols |
| TypeMapping.MapOperatorChars | compiler/codegen/directx_codegen.py:140-155 | the result is the input or a table symbol, so it adds no line break or parenthesis |
| TypeMapping.MapType | compiler/codegen/directx_codegen.py:127-138 | `map_type`: a name in the eight-entry type table gives its HLSL spelling, any other name is returned as it is |
| TypeMapping.MapOperator | compiler/codegen/directx_codegen.py:140-155 | `map_operator`: a token in the twelve-entry operator table gives its symbol, any other token is returned as it is |
| TextUtil.Indent | compiler/codegen/directx_codegen.py:57 | `"    " * n` is 4·n characters long |
| TextUtil.IndentSpaces | compiler/codegen/directx_codegen.py:57 | every one of those characters is a space |
| TextUtil.IndentAdd | compiler/codegen/directx_codegen.py:76 | k levels of indentation before d levels is d+k levels |
| TextUtil.NatToString | compiler/codegen/directx_codegen.py:24 | `f"{i}"` is a non-empty string of decimal digits with no leading zero |
| TextUtil.DecimalRoundTrip | compiler/codegen/directx_codegen.py:24 | reading the digits back gives i again |
| TextUtil.NatToStringInjective | compiler/codegen/directx_codegen.py:24 | distinct indices print differently |
| TextUtil.TrimStartSpec | compiler/codegen/directx_codegen.py:97 | the result is a suffix of the input, everything removed is whitespace, and it starts with a non-space |
| TextUtil.TrimEndSpec | compiler/codegen/directx_codegen.py:97 | the result is a prefix of the input, everything removed is whitespace, and it ends with a non-space |
| TextUtil.StripSpec | compiler/codegen/directx_codegen.py:97 | `strip()` returns the run of the input between its leading and trailing whitespace: everything cut from either end is whitespace, and neither end of the result is whitespace |
| TextUtil.DropLast | compiler/codegen/directx_codegen.py:97-99 | `[:-1]` is one character shorter than a non-empty input, and the empty string stays empty |
| TextUtil.DropLastSpec | compiler/codegen/directx_codegen.py:97-99 | what `[:-1]` keeps is a prefix of the input, and adding back the last character gives the input |
| TextUtil.StripTerminatedLine | compiler/codegen/directx_codegen.py:97-104 | stripping a text followed by `";\n"` leaves the text without its leading whitespace, then `;` |
| TextUtil.JoinNoNewline | compiler/codegen/directx_codegen.py:41-43 | joining line-free parts with a line-free separator gives one line |
| ExprEmit.ExprNoNewline | compiler/codegen/directx_codegen.py:112-125 | an expression whose leaves hold no line break renders on one line |
| ExprEmit.ExprBalanced | compiler/codegen/directx_codegen.py:117-121 | with parenthesis-free leaves, every rendering is balanced. A binary operation is one parenthesised group (its first `(` is closed by its last `)`) whatever the operator. A call is its name followed by one group |
| ExprEmit.EmitExpr | compiler/codegen/directx_codegen.py:112-125 | `generate_expression`: a literal is its text, a variable its name, a binary operation `(left op right)` with the mapped operator, a call its name and its rendered arguments joined by `", "` in parentheses, a member access `object.member`, anything else its own text |
| StmtEmit.AssignmentText | compiler/codegen/directx_codegen.py:69-73 | `generate_assignment`: a variable with a declared type that is neither None nor `""` renders as `map_type(type) name = value`, any other target as `target = value` |
| StmtEmit.TypeSpelling | compiler/codegen/directx_codegen.py:95 | `map_type(vtype)` inside an f-string: a missing type prints as `None`, a present one as its mapped spelling |
| StmtEmit.EmitStmt | compiler/codegen/directx_codegen.py:56-67 | `generate_statement` at a depth: the text ends in a line break. An `if` or `for` is its block, and any other statement is 4·depth spaces, its text and `";\n"` |
| StmtEmit.EmitBlock | compiler/codegen/directx_codegen.py:78-79 | a body at a depth is its statements' texts one after another, and it is whole lines |
| StmtEmit.ForClause | compiler/codegen/directx_codegen.py:97-104 | a loop clause is the statement rendered at depth 0, stripped, with its last character dropped |
| StmtEmit.InitClause | compiler/codegen/directx_codegen.py:92-99 | the init clause: an assignment to a variable is `map_type(vtype) name = value` whether or not it has a type, and any other statement is a clause like the update |
| StmtEmit.AssignmentForms | compiler/codegen/directx_codegen.py:69-73 | a variable with a non-empty type renders as the mapped type, a space, then exactly the plain reassignment. An empty type counts as no type. Any other target renders as `target = value` |
| StmtEmit.EmitSimple | compiler/codegen/directx_codegen.py:56-67 | an assignment, `return` or expression statement is 4·depth spaces, its text, `";\n"` |
| StmtEmit.EmitIf | compiler/codegen/directx_codegen.py:75-87 | an `if` is its header line, the then-body at depth+1, and `}`. The line `} else {` and the else-body at depth+1 come only when the else-body is non-empty |
| StmtEmit.EmitFor | compiler/codegen/directx_codegen.py:89-110 | a `for` is its header line, the body at depth+1, and a closing `}` line |
| StmtEmit.InitClauseForms | compiler/codegen/directx_codegen.py:92-95 | an init assignment to a variable is spelt inline. With a type it reads as the declaration. Without one it reads `None ` + the reassignment. With type `""` it reads `" "` + the reassignment |
| StmtEmit.ForClauseOfSimple | compiler/codegen/directx_codegen.py:97-104 | a one-line statement used as a clause loses exactly its `;` and line break (and any leading whitespace) |
| StmtEmit.ForClauseKeepsOwnText | compiler/codegen/directx_codegen.py:97-104 | an expression statement whose text starts with a non-space is kept whole as the clause, so a `;` ending its own text survives |
| StmtEmit.ForClauseOfBlock | compiler/codegen/directx_codegen.py:97-104 | a nested `if` or `for` used as a clause loses its final `}`, not a `;` |
| StmtEmit.ShiftStmt | compiler/codegen/directx_codegen.py:56-110 | rendering a statement k levels deeper is rendering it at its own depth and moving every line right by 4·k spaces |
| StmtEmit.ShiftBlock | compiler/codegen/directx_codegen.py:78-79 | the same for a statement body |
| StmtEmit.GenerateStatement | compiler/codegen/directx_codegen.py:56-67 | the dispatch produces exactly the specified text of the statement at the given depth |
| StmtEmit.AppendBody | compiler/codegen/directx_codegen.py:78-79 | appending each statement of a body at a depth appends exactly the body's text |
| StmtEmit.GenerateIf | compiler/codegen/directx_codegen.py:75-87 | the string built step by step is exactly the specified `if` text |
| StmtEmit.GenerateFor | compiler/codegen/directx_codegen.py:89-110 | the string built step by step, with the clauses cut by strip-and-drop-last, is exactly the specified `for` text |
| StmtEmit.GenerateInit | compiler/codegen/directx_codegen.py:92-99 | the init clause built by the branch of `generate_for` is exactly the specified init clause |
| CodeGen.EmitRoot | compiler/codegen/directx_codegen.py:16-19 | `generate`: a shader root is rendered as a shader, and any other root gives `""` |
| CodeGen.Fields | compiler/codegen/directx_codegen.py:23-24 | the field lines of a struct: each declaration in order, numbered from 0 with the slot tag |
| CodeGen.EmitShader | compiler/codegen/directx_codegen.py:21-34 | the two interface structs, each followed by an empty line, then every function followed by an empty line |
| CodeGen.EmitFunction | compiler/codegen/directx_codegen.py:36-54 | a function is its header line, the body at depth 1 and `}`. For `main` the header is fixed, and the `output` declaration and return wrap the body |
| CodeGen.EmitRootEmpty | compiler/codegen/directx_codegen.py:16-19 | `generate` returns `""` exactly when the root is not a shader |
| CodeGen.Generate | compiler/codegen/directx_codegen.py:16-19 | the entry point returns the specified text of the root |
| CodeGen.FieldsAreLines | compiler/codegen/directx_codegen.py:23-24 | for k declarations the struct body is exactly k lines, in declaration order. The i-th is 4 spaces, the mapped type, the name, ` : `, the tag, i, `;` |
| CodeGen.FieldTextsLineFree | compiler/codegen/directx_codegen.py:23-29 | no field line breaks in two when names and types have no line breaks |
| CodeGen.SlotTagsDistinct | compiler/codegen/directx_codegen.py:24 | no two fields of a struct get the same slot tag |
| CodeGen.ShaderLayout | compiler/codegen/directx_codegen.py:21-34 | a shader is the `VS_INPUT` struct tagged `POSITION`i, an empty line, the `PS_OUTPUT` struct tagged `SV_TARGET`i, an empty line, then the functions |
| CodeGen.EmitFunctionsAppend | compiler/codegen/directx_codegen.py:32-33 | functions are emitted in source order, each independent of its neighbours |
| CodeGen.MainForm | compiler/codegen/directx_codegen.py:36-54 | a function named `main` is `PS_OUTPUT main(VS_INPUT input) {`, `    PS_OUTPUT output;`, the body at depth 1, `    return output;`, `}` |
| CodeGen.MainIgnoresSignature | compiler/codegen/directx_codegen.py:37-39 | the declared parameters and return type of `main` play no part in its text |
| CodeGen.OtherForm | compiler/codegen/directx_codegen.py:40-53 | any other function has its mapped return type and its parameters as `map_type(t) name` joined by `", "`. Its body is at depth 1, and it has neither wrapper line |
| CodeGen.GenerateFunction | compiler/codegen/directx_codegen.py:36-54 | the string built step by step is exactly the specified function text |
| CodeGen.AppendFields | compiler/codegen/directx_codegen.py:23-24 | the enumerate loop appends exactly the numbered field lines |
| CodeGen.AppendFunctions | compiler/codegen/directx_codegen.py:32-33 | the loop appends each function's text and an empty line, in order |
| CodeGen.GenerateShader | compiler/codegen/directx_codegen.py:21-34 | the string built step by step is exactly the specified shader text |

## Left out

- The usage block at the end of the file is not modelled. It calls the lexer and the parser, which are not part of this model, and prints to standard output.
- The AST node classes are not part of this model. They are datatypes here. Python's `isinstance` tests become pattern matches, so a node that is neither a shader nor one of the listed statements and expressions is not represented.
- The `str()` fallback of `generate_expression` is the opaque node `Other(text)`, which renders as its text. Python's `str()` of arbitrary objects is not modelled.
- `else_body` being `None` and being empty are the same here: both are an empty sequence, and both are falsy in the source.
- The same body loop, `for stmt in body: code += generate_statement(stmt, d)`, appears four times in the source. The model writes it once, as `StmtEmit.AppendBody`. The two field loops of `generate_shader` are likewise one `CodeGen.AppendFields` with the tag as a parameter.
- CodeGen.MainForm: "declared exactly once and returned exactly once" is stated structurally. The wrapper adds exactly one declaration line and one return line around the body. A body statement whose own text is the same line is not ruled out, because the source does not rule it out.
- StmtEmit.ShiftStmt: stated for statements whose names, types, literals and tokens hold no line break, and whose loop init and update are one-line statements. A line break inside a leaf, or a block used as a loop clause, would make the shifted text differ.
- ExprEmit.ExprBalanced: stated for leaves without parentheses. A literal such as `")"` can unbalance the text, and the source passes it through.
- Whether the output is valid HLSL is not modelled, because the source makes no such promise.
- The cost of repeated string concatenation is not modelled.
