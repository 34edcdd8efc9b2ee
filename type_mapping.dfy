/** The two fixed translation tables of the HLSL back end: shading-language
    type names to HLSL type names, and operator token names to HLSL operator
    symbols. Both return an unknown key unchanged. */
module TypeMapping {

  const TypeTable: map<string, string> := map[
    "void" := "void",
    "vec2" := "float2",
    "vec3" := "float3",
    "vec4" := "float4",
    "mat2" := "float2x2",
    "mat3" := "float3x3",
    "mat4" := "float4x4",
    "sampler2D" := "Texture2D"
  ]

  const OperatorTable: map<string, string> := map[
    "PLUS" := "+",
    "MINUS" := "-",
    "MULTIPLY" := "*",
    "DIVIDE" := "/",
    "LESS_THAN" := "<",
    "GREATER_THAN" := ">",
    "LESS_EQUAL" := "<=",
    "GREATER_EQUAL" := ">=",
    "EQUAL" := "==",
    "NOT_EQUAL" := "!=",
    "AND" := "&&",
    "OR" := "||"
  ]

  /** `type_mapping.get(vtype, vtype)`. */
  function MapType(t: string): string
  {
    if t in TypeTable then TypeTable[t] else t
  }

  /** `op_map.get(op, op)`. */
  function MapOperator(op: string): string
  {
    if op in OperatorTable then OperatorTable[op] else op
  }

  /** The eight known type names and their HLSL spellings. */
  lemma MapTypeKnown()
    ensures MapType("void") == "void"
    ensures MapType("vec2") == "float2" && MapType("vec3") == "float3" && MapType("vec4") == "float4"
    ensures MapType("mat2") == "float2x2" && MapType("mat3") == "float3x3" && MapType("mat4") == "float4x4"
    ensures MapType("sampler2D") == "Texture2D"
  {
  }

  /** Any other name is passed through unchanged. */
  lemma MapTypeFallback(t: string)
    requires t !in {"void", "vec2", "vec3", "vec4", "mat2", "mat3", "mat4", "sampler2D"}
    ensures MapType(t) == t
  {
  }

  /** A translated name is never translated again: the HLSL spellings are
      fixed points of the table, so mapping twice is mapping once. */
  lemma MapTypeIdempotent(t: string)
    ensures MapType(MapType(t)) == MapType(t)
  {
  }

  /** The result is the input or one of the table's HLSL spellings, so it
      holds a line break or a parenthesis only if the input does. */
  lemma MapTypeChars(t: string)
    ensures MapType(t) == t || MapType(t) in TypeTable.Values
    ensures '\n' !in t ==> '\n' !in MapType(t)
    ensures '(' !in t && ')' !in t ==> '(' !in MapType(t) && ')' !in MapType(t)
  {
  }

  /** The twelve known operator tokens and their HLSL symbols. */
  lemma MapOperatorKnown()
    ensures MapOperator("PLUS") == "+" && MapOperator("MINUS") == "-"
    ensures MapOperator("MULTIPLY") == "*" && MapOperator("DIVIDE") == "/"
    ensures MapOperator("LESS_THAN") == "<" && MapOperator("GREATER_THAN") == ">"
    ensures MapOperator("LESS_EQUAL") == "<=" && MapOperator("GREATER_EQUAL") == ">="
    ensures MapOperator("EQUAL") == "==" && MapOperator("NOT_EQUAL") == "!="
    ensures MapOperator("AND") == "&&" && MapOperator("OR") == "||"
  {
  }

  /** Any other token is passed through unchanged. */
  lemma MapOperatorFallback(op: string)
    requires op !in {"PLUS", "MINUS", "MULTIPLY", "DIVIDE", "LESS_THAN", "GREATER_THAN",
                     "LESS_EQUAL", "GREATER_EQUAL", "EQUAL", "NOT_EQUAL", "AND", "OR"}
    ensures MapOperator(op) == op
  {
  }

  /** Symbols are fixed points: mapping twice is mapping once. */
  lemma MapOperatorIdempotent(op: string)
    ensures MapOperator(MapOperator(op)) == MapOperator(op)
  {
  }

  /** Distinct known tokens get distinct symbols: no two operators of the
      source language collapse into one HLSL operator. */
  lemma MapOperatorInjective(a: string, b: string)
    requires a in OperatorTable && b in OperatorTable && a != b
    ensures MapOperator(a) != MapOperator(b)
  {
  }

  /** The result is the input or a symbol of the table, so it holds a line
      break or a parenthesis only if the input does. */
  lemma MapOperatorChars(op: string)
    ensures MapOperator(op) == op || MapOperator(op) in OperatorTable.Values
    ensures '\n' !in op ==> '\n' !in MapOperator(op)
    ensures '(' !in op && ')' !in op ==> '(' !in MapOperator(op) && ')' !in MapOperator(op)
  {
  }
}
