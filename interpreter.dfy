/** Types shared by every language executor: the support level, the execution
    context handed to an executor, the error kinds and the values that stand
    for what an executor does outside the process (files written, commands
    spawned and what those commands reported). */
module Interpreter {

  /** How much context an executor may consume, in increasing order. */
  datatype SupportLevel = Unsupported | Line | Bloc | Import | File

  /** Position of a level in the declaration order, which is the order the
      `>=` comparisons of the executors use. */
  function Rank(level: SupportLevel): nat
  {
    match level
    case Unsupported => 0
    case Line => 1
    case Bloc => 2
    case Import => 3
    case File => 4
  }

  /** `level >= bound` on support levels. */
  predicate AtLeast(level: SupportLevel, bound: SupportLevel)
  {
    Rank(level) >= Rank(bound)
  }

  /** `AtLeast` is a total order: every level is at least Unsupported and at
      most File, two levels are always comparable, and levels that are at
      least each other are equal. */
  lemma AtLeastIsTotalOrder(a: SupportLevel, b: SupportLevel, c: SupportLevel)
    ensures AtLeast(a, a)
    ensures AtLeast(a, b) || AtLeast(b, a)
    ensures AtLeast(a, b) && AtLeast(b, a) ==> a == b
    ensures AtLeast(a, b) && AtLeast(b, c) ==> AtLeast(a, c)
    ensures AtLeast(a, Unsupported) && AtLeast(File, a)
  {
  }

  /** The execution context: the line under the cursor, the surrounding
      block (possibly the whole file) and the scratch root of this run. */
  datatype DataHolder = DataHolder(currentLine: string, currentBloc: string, workDir: string)

  /** The error kinds the two executors produce. */
  datatype SniprunError =
    | CompilationError(diagnostic: string)
    | RuntimeError(stderr: string)

  datatype Result<T> = Ok(value: T) | Err(error: SniprunError)

  datatype Option<T> = None | Some(value: T)

  /** What a finished external process reports: whether its exit status was
      success, and its standard output and standard error decoded as text. */
  datatype ProcessOutput = ProcessOutput(success: bool, stdout: string, stderr: string)

  /** An external program and its argument list. */
  datatype Command = Command(program: string, args: seq<string>)

  /** A file an executor writes: its path and its whole new contents. */
  datatype StagedFile = StagedFile(path: string, contents: string)
}
