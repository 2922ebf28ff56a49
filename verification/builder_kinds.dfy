/** The indicators the grammar reader passes to the builder, and the error
    type of the default builder. `N` stands for the reader's newline/comment
    trivia, which is opaque here. */
module BuilderKinds {

  /** How a complete command was delimited. */
  datatype SeparatorKind<N> =
    /** A `;` between commands: normally sequential execution. */
    | Semi
    /** A `&` between commands: normally an asynchronous job. */
    | Amp
    /** A newline, possibly with a comment, ends the command. */
    | Newline(newline: N)
    /** A delimiting token or the end of input, with no sequential command after it. */
    | Other

  /** Whether `&&` or `||` joined two pipelines. */
  datatype AndOrKind = And | Or

  /** Whether a `while` or an `until` loop was read. */
  datatype LoopKind = While | Until

  /** The error type of the default builder, which never produces one. */
  datatype DummyError = DummyError
}
