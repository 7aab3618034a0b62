/**
 * The application error type: its variants, the `context` combinator that
 * prefixes a message, its display text, and the mapping of database errors.
 */
module Errors {

  /**
   * `AppError`. The variants that carry one message share the field `msg`;
   * McpError, NotFound and Validation are structured.
   */
  datatype AppError =
    | Database(msg: string)
    | Inference(msg: string)
    | Embedding(msg: string)
    | McpError(mcpId: string, message: string)
    | NotFound(entity: string, id: string)
    | Crypto(msg: string)
    | Hardware(msg: string)
    | Io(msg: string)
    | Validation(field: string, message: string)
    | Config(msg: string)
    | Internal(msg: string)
    | Timeout(msg: string)
    | RateLimit(msg: string)

  /** `Result<T, AppError>`. */
  datatype Result<T> = Ok(value: T) | Err(error: AppError)

  predicate Structured(e: AppError) {
    e.McpError? || e.NotFound? || e.Validation?
  }

  /** Position of the variant in the declaration, to compare variants. */
  function Tag(e: AppError): nat {
    match e
    case Database(_) => 0
    case Inference(_) => 1
    case Embedding(_) => 2
    case McpError(_, _) => 3
    case NotFound(_, _) => 4
    case Crypto(_) => 5
    case Hardware(_) => 6
    case Io(_) => 7
    case Validation(_, _) => 8
    case Config(_) => 9
    case Internal(_) => 10
    case Timeout(_) => 11
    case RateLimit(_) => 12
  }

  /** Sharing the tag means sharing the variant. */
  lemma TagDecidesVariant(a: AppError, b: AppError)
    requires Tag(a) == Tag(b)
    ensures a.Database? == b.Database? && a.Inference? == b.Inference? && a.Embedding? == b.Embedding?
    ensures a.McpError? == b.McpError? && a.NotFound? == b.NotFound? && a.Crypto? == b.Crypto?
    ensures a.Hardware? == b.Hardware? && a.Io? == b.Io? && a.Validation? == b.Validation?
    ensures a.Config? == b.Config? && a.Internal? == b.Internal? && a.Timeout? == b.Timeout?
    ensures a.RateLimit? == b.RateLimit?
  {
  }

  /** The same variant with another message (for the single-message variants). */
  function WithMsg(e: AppError, m: string): AppError
    requires !Structured(e)
  {
    match e
    case Database(_) => Database(m)
    case Inference(_) => Inference(m)
    case Embedding(_) => Embedding(m)
    case Crypto(_) => Crypto(m)
    case Hardware(_) => Hardware(m)
    case Io(_) => Io(m)
    case Config(_) => Config(m)
    case Internal(_) => Internal(m)
    case Timeout(_) => Timeout(m)
    case RateLimit(_) => RateLimit(m)
  }

  /**
   * `AppError::context`: a single-message variant keeps its variant and gets
   * the message "ctx: old message"; structured variants pass through.
   */
  function Context(e: AppError, ctx: string): (r: AppError)
    ensures Tag(r) == Tag(e)
    ensures !Structured(e) ==> !Structured(r) && r.msg == ctx + ": " + e.msg
    ensures Structured(e) ==> r == e
  {
    if Structured(e) then e else WithMsg(e, ctx + ": " + e.msg)
  }

  /** Two contexts nest outermost first: "c2: c1: e". */
  lemma ContextComposes(e: AppError, c1: string, c2: string)
    requires !Structured(e)
    ensures Context(Context(e, c1), c2).msg == c2 + ": " + c1 + ": " + e.msg
    ensures Tag(Context(Context(e, c1), c2)) == Tag(e)
  {
    assert c2 + ": " + (c1 + ": " + e.msg) == c2 + ": " + c1 + ": " + e.msg;
  }

  /** The `#[error(..)]` display text of each variant. */
  function Display(e: AppError): string
  {
    match e
    case Database(m) => "Database error: " + m
    case Inference(m) => "Model inference error: " + m
    case Embedding(m) => "Embedding error: " + m
    case McpError(id, m) => "MCP error: " + id + " - " + m
    case NotFound(entity, id) => "Not found: " + entity + " with id " + id
    case Crypto(m) => "Encryption error: " + m
    case Hardware(m) => "Hardware detection error: " + m
    case Io(m) => "IO error: " + m
    case Validation(f, m) => "Validation error: " + f + " - " + m
    case Config(m) => "Configuration error: " + m
    case Internal(m) => "Internal error: " + m
    case Timeout(m) => "Operation timed out: " + m
    case RateLimit(m) => "Rate limited: " + m
  }

  /** The prefix a display text starts with names its variant. */
  function DisplayPrefix(e: AppError): string
  {
    match e
    case Database(_) => "Database error: "
    case Inference(_) => "Model inference error: "
    case Embedding(_) => "Embedding error: "
    case McpError(_, _) => "MCP error: "
    case NotFound(_, _) => "Not found: "
    case Crypto(_) => "Encryption error: "
    case Hardware(_) => "Hardware detection error: "
    case Io(_) => "IO error: "
    case Validation(_, _) => "Validation error: "
    case Config(_) => "Configuration error: "
    case Internal(_) => "Internal error: "
    case Timeout(_) => "Operation timed out: "
    case RateLimit(_) => "Rate limited: "
  }

  /** A single-message variant displays as its prefix followed by the message. */
  lemma DisplayOfMessage(e: AppError)
    requires !Structured(e)
    ensures Display(e) == DisplayPrefix(e) + e.msg
  {
  }

  /** Adding context displays the context right after the variant's prefix. */
  lemma DisplayOfContext(e: AppError, ctx: string)
    requires !Structured(e)
    ensures Display(Context(e, ctx)) == DisplayPrefix(e) + ctx + ": " + e.msg
  {
    assert DisplayPrefix(e) + (ctx + ": " + e.msg) == DisplayPrefix(e) + ctx + ": " + e.msg;
  }

  /** The kinds of `sqlx::Error` the conversion tells apart. */
  datatype SqlError = PoolTimedOut | ColumnNotFound(column: string) | RowNotFound | OtherSql

  /**
   * `impl From<sqlx::Error> for AppError`; `rendered` is the sqlx error's
   * own display text, which the conversion embeds.
   */
  function FromSql(e: SqlError, rendered: string): (r: AppError)
    ensures e.PoolTimedOut? <==> r.Timeout?
    ensures e.RowNotFound? <==> r.NotFound?
    ensures e.RowNotFound? ==> r == NotFound("row", "unknown")
    ensures (e.ColumnNotFound? || e.OtherSql?) <==> r.Database?
    ensures e.OtherSql? ==> r == Database(rendered)
    ensures e.PoolTimedOut? ==> r.msg == "Database connection pool timed out: " + rendered
    ensures e.ColumnNotFound? ==> r.msg == "Column '" + e.column + "' not found: " + rendered
  {
    match e
    case PoolTimedOut => Timeout("Database connection pool timed out: " + rendered)
    case ColumnNotFound(col) => Database("Column '" + col + "' not found: " + rendered)
    case RowNotFound => NotFound("row", "unknown")
    case OtherSql => Database(rendered)
  }
}
