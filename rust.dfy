/** The executor for plain Rust. It wraps the selected snippet in a `main`
    function, writes it to `<work_dir>/rust-original/main.rs`, compiles it
    with `rustc --out-dir <work_dir>/rust-original` and runs the binary
    `<work_dir>/rust-original/main`. */
module RustInterpreter {
  import opened Interpreter
  import opened Text

  const WrapperHead: string := "fn main() {"
  const WrapperTail: string := "}"

  /** The text `fetch_code` puts into `code`, whatever the support level:
      the block when it has a non-whitespace character, otherwise the line
      when it has a non-space character, otherwise nothing. */
  function SelectCode(data: DataHolder): (code: string)
    ensures code == data.currentBloc || code == data.currentLine || code == []
  {
    if RemoveAll(data.currentBloc, Whitespace) != [] then data.currentBloc
    else if RemoveAll(data.currentLine, Space) != [] then data.currentLine
    else ""
  }

  /** The selection rule case by case: the block verbatim, else the line
      verbatim, and the empty string only when neither text qualifies. */
  lemma SelectCodeCases(data: DataHolder)
    ensures HasCharOutside(data.currentBloc, Whitespace) ==> SelectCode(data) == data.currentBloc
    ensures !HasCharOutside(data.currentBloc, Whitespace) && HasCharOutside(data.currentLine, Space) ==>
              SelectCode(data) == data.currentLine
    ensures SelectCode(data) == [] <==>
              !HasCharOutside(data.currentBloc, Whitespace) && !HasCharOutside(data.currentLine, Space)
  {
  }

  /** The source `add_boilerplate` produces: the snippet as the body of
      `fn main`. */
  function Wrap(code: string): (w: string)
    ensures |w| == |code| + 12
    ensures w[..11] == WrapperHead && w[11..|w| - 1] == code && w[|w| - 1] == '}'
  {
    WrapperHead + code + WrapperTail
  }

  /** The snippet survives wrapping as a substring. */
  lemma WrapContainsCode(code: string)
    ensures Contains(Wrap(code), code)
  {
    ContainsInfix(WrapperHead, code, WrapperTail);
  }

  /** Wrapping loses nothing: different snippets give different sources. */
  lemma WrapInjective(a: string, b: string)
    requires Wrap(a) == Wrap(b)
    ensures a == b
  {
    assert a == Wrap(a)[11..|Wrap(a)| - 1];
  }

  /** Wrapping twice nests the wrapper, so it is not idempotent. */
  lemma WrapTwiceNests(code: string)
    ensures Wrap(Wrap(code)) == "fn main() {fn main() {" + code + "}}"
    ensures Wrap(Wrap(code)) != Wrap(code)
  {
  }

  /** `&mfp[..mfp.len() - 3]`: the source path without its last three
      characters. */
  function BinPath(mainFilePath: string): (bp: string)
    requires |mainFilePath| >= 3
    ensures |bp| == |mainFilePath| - 3
    ensures mainFilePath == bp + mainFilePath[|mainFilePath| - 3..]
  {
    mainFilePath[..|mainFilePath| - 3]
  }

  /** Dropping the last three characters of `<dir>/main.rs` leaves
      `<dir>/main`, the name `rustc --out-dir <dir>` gives the binary. */
  lemma BinPathDropsExtension(dir: string)
    ensures BinPath(dir + "/main.rs") == dir + "/main"
  {
    var mfp := dir + "/main.rs";
    assert mfp == (dir + "/main") + ".rs";
  }

  class Rust {
    var supportLevel: SupportLevel
    var data: DataHolder
    var code: string
    var rustWorkDir: string
    var binPath: string
    var mainFilePath: string

    /** The scratch paths are the ones derived from the context. */
    ghost predicate Valid()
      reads this`data, this`rustWorkDir, this`mainFilePath, this`binPath
    {
      rustWorkDir == data.workDir + "/rust-original" &&
      mainFilePath == rustWorkDir + "/main.rs" &&
      binPath == rustWorkDir + "/main"
    }

    /** Derives the scratch directory, the source file and the binary from
        `work_dir` and starts with an empty `code`. */
    constructor NewWithLevel(data: DataHolder, level: SupportLevel)
      ensures Valid()
      ensures this.data == data && supportLevel == level && code == []
      ensures rustWorkDir == data.workDir + "/rust-original"
      ensures mainFilePath == rustWorkDir + "/main.rs"
      ensures binPath == rustWorkDir + "/main"
    {
      var rwd := data.workDir + "/rust-original";
      var mfp := rwd + "/main.rs";
      BinPathDropsExtension(rwd);
      this.data := data;
      supportLevel := level;
      code := "";
      rustWorkDir := rwd;
      binPath := BinPath(mfp);
      mainFilePath := mfp;
    }

    static function MaxSupportLevel(): (level: SupportLevel)
      ensures level == Unsupported
    {
      Unsupported
    }

    function CurrentLevel(): (level: SupportLevel)
      reads this`supportLevel
      ensures level == supportLevel
    {
      supportLevel
    }

    /** Sets the operating level; nothing else changes. */
    method SetCurrentLevel(level: SupportLevel)
      modifies this`supportLevel
      ensures CurrentLevel() == level
    {
      supportLevel := level;
    }

    function GetData(): (d: DataHolder)
      reads this`data
      ensures d == data
    {
      data
    }

    /** Selects the snippet into `code` without looking at the level and
        always succeeds; only `code` changes. */
    method FetchCode() returns (r: Result<()>)
      modifies this`code
      ensures r == Ok(())
      ensures code == SelectCode(data)
      ensures RemoveAll(data.currentBloc, Whitespace) != [] ==> code == data.currentBloc
      ensures RemoveAll(data.currentBloc, Whitespace) == [] && RemoveAll(data.currentLine, Space) != [] ==>
                code == data.currentLine
      ensures RemoveAll(data.currentBloc, Whitespace) == [] && RemoveAll(data.currentLine, Space) == [] ==>
                code == []
    {
      if RemoveAll(data.currentBloc, Whitespace) != [] {
        code := data.currentBloc;
      } else if RemoveAll(data.currentLine, Space) != [] {
        code := data.currentLine;
      } else {
        code := "";
      }
      r := Ok(());
    }

    /** Wraps `code` in `fn main() {` … `}` and succeeds; only `code`
        changes, and the old code is a substring of the new. */
    method AddBoilerplate() returns (r: Result<()>)
      modifies this`code
      ensures r == Ok(())
      ensures code == Wrap(old(code))
      ensures |code| == |old(code)| + 12 && Contains(code, old(code))
    {
      WrapContainsCode(code);
      code := Wrap(code);
      r := Ok(());
    }

    /** Writes `code` to the source file and compiles it into the scratch
        directory with a compiler whose run reported `rustc`. Fails with an
        empty CompilationError exactly when the compiler did not succeed. */
    method Build(rustc: ProcessOutput) returns (staged: StagedFile, invoked: Command, r: Result<()>)
      ensures staged.path == mainFilePath && staged.contents == code
      ensures invoked == Command("rustc", ["--out-dir", rustWorkDir, mainFilePath])
      ensures r.Err? <==> !rustc.success
      ensures r == if rustc.success then Ok(()) else Err(CompilationError(""))
    {
      staged := StagedFile(mainFilePath, code);
      invoked := Command("rustc", ["--out-dir", rustWorkDir, mainFilePath]);
      if !rustc.success {
        return staged, invoked, Err(CompilationError(""));
      } else {
        return staged, invoked, Ok(());
      }
    }

    /** Runs the compiled binary, which sits in the compiler's output
        directory under the source file's stem, whose run reported `binary`.
        A successful run yields its standard output, a failed one a
        RuntimeError carrying its standard error. */
    method Execute(binary: ProcessOutput) returns (invoked: Command, r: Result<string>)
      requires Valid()
      ensures invoked == Command(binPath, [])
      ensures invoked.program == rustWorkDir + "/main" && mainFilePath == invoked.program + ".rs"
      ensures r.Ok? <==> binary.success
      ensures r.Ok? ==> r.value == binary.stdout
      ensures r.Err? ==> r.error == RuntimeError(binary.stderr)
    {
      invoked := Command(binPath, []);
      if binary.success {
        return invoked, Ok(binary.stdout);
      } else {
        return invoked, Err(RuntimeError(binary.stderr));
      }
    }
  }
}
