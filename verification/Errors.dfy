/** Exceptions as the pipeline sees them (runtime/errors.py). */
module Errors {
  import opened Prelude

  datatype ErrorCategory =
    | Provider429 | Provider5xx | SchemaInvalid | ContextOverflow
    | EmptyEvidence | CitationProblem | PromptInjectionDetected

  /** The types of exception the host code tells apart: an HTTP error status, a request
      without a response, the two validation errors, and all others. */
  datatype ExcKind = HttpStatus(code: int) | RequestFailed | PydanticInvalid | JsonSchemaInvalid | Other

  /** A raised exception. */
  datatype Exc = Exc(kind: ExcKind, text: string)
  {
    /** What classify_exception makes of it. */
    const category: Option<ErrorCategory> :=
      match kind
      case HttpStatus(code) =>
        if code == 429 then Some(Provider429) else if 500 <= code < 600 then Some(Provider5xx) else None
      case RequestFailed => None
      case PydanticInvalid => Some(SchemaInvalid)
      case JsonSchemaInvalid => Some(SchemaInvalid)
      case Other => None

    const transport: bool := kind.RequestFailed?
  }

  /** A status counts as one of the two provider errors exactly for 429 and for 500 to 599,
      and a validation error is a schema error; nothing else is classified. */
  lemma ClassifiedExactlyWhen(exc: Exc)
    ensures exc.category == Some(Provider429) <==> exc.kind == HttpStatus(429)
    ensures exc.category == Some(Provider5xx) <==> exc.kind.HttpStatus? && 500 <= exc.kind.code <= 599
    ensures exc.category == Some(SchemaInvalid) <==> exc.kind == PydanticInvalid || exc.kind == JsonSchemaInvalid
    ensures exc.category.Some? ==> exc.category.value in {Provider429, Provider5xx, SchemaInvalid}
  {
  }
}
