/**
 * Diagnostics of the compiler (src/compile/error.rs).
 *
 * Paths are kept as plain strings; the printing of diagnostics to the
 * error stream and the process exit are not part of this model.
 */
module Errors {
  datatype BasmError =
    | WorkingDirectoryNotFound
      // The misspelling is the source's own (src/compile/error.rs:17).
    | CannotCanoncializePath(path: string)
    | CannotReadSource(path: string)
    | UndeterminedOutputType
    | UnknownTerminalArgument(arg: string)
    | UnclosedStringLiteral(line: nat)
    | UnclosedTargetHeader(line: nat)
    | UnclosedMonitorHeader(line: nat)
    | UnknownSymbol(line: nat, data: string)
      /** Raised by the parser for a token that cannot start or continue a top-level construct. */
    | UnexpectedTokenInTopLevel(line: nat, data: string)
}
