/** The executor for Lua run inside a headless Neovim. It keeps the snippet
    it selected in `code`, writes it to `<work_dir>/nvim-lua/main.lua` and runs
    that file with `nvim --headless`. Snippets that do not mention "nvim" are
    handed to the plain Lua executor instead. */
module LuaNvimInterpreter {
  import opened Interpreter
  import opened Text

  /** The marker whose absence makes this executor delegate. */
  const Marker: string := "nvim"

  /** The text `fetch_code` puts into `code`: the block when it has a
      non-whitespace character and the level reaches Bloc, otherwise the line
      when it has a non-space character and the level reaches Line, otherwise
      nothing. */
  function SelectCode(data: DataHolder, level: SupportLevel): (code: string)
    ensures code == data.currentBloc || code == data.currentLine || code == []
  {
    if RemoveAll(data.currentBloc, Whitespace) != [] && AtLeast(level, Bloc) then data.currentBloc
    else if RemoveAll(data.currentLine, Space) != [] && AtLeast(level, Line) then data.currentLine
    else ""
  }

  /** The selection rule case by case: the block verbatim, else the line
      verbatim, else the empty string, and the empty string only when neither
      text qualifies. */
  lemma SelectCodeCases(data: DataHolder, level: SupportLevel)
    ensures HasCharOutside(data.currentBloc, Whitespace) && AtLeast(level, Bloc) ==>
              SelectCode(data, level) == data.currentBloc
    ensures !(HasCharOutside(data.currentBloc, Whitespace) && AtLeast(level, Bloc)) &&
            HasCharOutside(data.currentLine, Space) && AtLeast(level, Line) ==>
              SelectCode(data, level) == data.currentLine
    ensures SelectCode(data, level) == [] <==>
              !(HasCharOutside(data.currentBloc, Whitespace) && AtLeast(level, Bloc)) &&
              !(HasCharOutside(data.currentLine, Space) && AtLeast(level, Line))
  {
  }

  /** Whatever is selected has a character other than a space, so a selected
      snippet is never blank. */
  lemma SelectedCodeIsNotBlank(data: DataHolder, level: SupportLevel)
    ensures SelectCode(data, level) != [] ==> RemoveAll(SelectCode(data, level), Space) != []
  {
    if RemoveAll(data.currentBloc, Whitespace) != [] && AtLeast(level, Bloc) {
      RemoveAllAntitone(data.currentBloc, Space, Whitespace);
    }
  }

  /** At level Unsupported nothing is selected. */
  lemma UnsupportedSelectsNothing(data: DataHolder)
    ensures SelectCode(data, Unsupported) == []
  {
  }

  /** Only spaces are stripped from the line, so a line of tabs is selected
      when the block does not qualify, although the same text would count as
      blank for the block. */
  lemma TabLineIsSelected(data: DataHolder, level: SupportLevel)
    requires |data.currentLine| > 0
    requires forall i :: 0 <= i < |data.currentLine| ==> data.currentLine[i] == '\t'
    requires AtLeast(level, Line)
    requires RemoveAll(data.currentBloc, Whitespace) == [] || !AtLeast(level, Bloc)
    ensures SelectCode(data, level) == data.currentLine
    ensures RemoveAll(data.currentLine, Whitespace) == []
  {
    assert data.currentLine[0] !in Space;
  }

  /** Raising the level never loses a selection, and levels above the
      declared maximum Bloc select exactly what Bloc selects. */
  lemma SelectCodeMonotone(data: DataHolder, low: SupportLevel, high: SupportLevel)
    requires AtLeast(high, low)
    ensures SelectCode(data, low) != [] ==> SelectCode(data, high) != []
    ensures AtLeast(low, LuaNvim.MaxSupportLevel()) ==> SelectCode(data, low) == SelectCode(data, high)
  {
  }

  /** A snippet carrying the marker in a block the level admits is kept by
      this executor: the block is selected and it is not delegated. */
  lemma {:induction false} MarkedBlocIsKept(data: DataHolder, level: SupportLevel)
    requires Contains(data.currentBloc, Marker) && AtLeast(level, Bloc)
    ensures SelectCode(data, level) == data.currentBloc
    ensures Contains(SelectCode(data, level), Marker)
  {
    ContainedCharacters(data.currentBloc, Marker, 0);
    var i :| 0 <= i < |data.currentBloc| && data.currentBloc[i] == 'n';
    assert data.currentBloc[i] !in Whitespace;
  }

  /** At level Unsupported the selected code is empty, so the run is always
      delegated. */
  lemma UnsupportedAlwaysDelegates(data: DataHolder)
    ensures !Contains(SelectCode(data, Unsupported), Marker)
  {
    NothingInEmpty(Marker);
  }

  class LuaNvim {
    var supportLevel: SupportLevel
    var data: DataHolder
    var code: string
    var luaWorkDir: string
    var mainFilePath: string

    /** The scratch paths are the ones derived from the context. */
    ghost predicate Valid()
      reads this`data, this`luaWorkDir, this`mainFilePath
    {
      luaWorkDir == data.workDir + "/nvim-lua" && mainFilePath == luaWorkDir + "/main.lua"
    }

    /** Derives the scratch directory and the source file from `work_dir`
        and starts with an empty `code`. */
    constructor NewWithLevel(data: DataHolder, level: SupportLevel)
      ensures Valid()
      ensures this.data == data && supportLevel == level && code == []
      ensures luaWorkDir == data.workDir + "/nvim-lua"
      ensures mainFilePath == luaWorkDir + "/main.lua"
    {
      this.data := data;
      supportLevel := level;
      code := "";
      luaWorkDir := data.workDir + "/nvim-lua";
      mainFilePath := luaWorkDir + "/main.lua";
    }

    static function MaxSupportLevel(): (level: SupportLevel)
      ensures level == Bloc
    {
      Bloc
    }

    function CurrentLevel(): (level: SupportLevel)
      reads this`supportLevel
      ensures level == supportLevel
    {
      supportLevel
    }

    /** Sets the operating level; nothing else changes. */
    method SetCurrentLevel(level: SupportLevel)
      modifies this`supportLevel
      ensures CurrentLevel() == level
    {
      supportLevel := level;
    }

    function GetData(): (d: DataHolder)
      reads this`data
      ensures d == data
    {
      data
    }

    /** Selects the snippet into `code` and always succeeds; only `code`
        changes. */
    method FetchCode() returns (r: Result<()>)
      modifies this`code
      ensures r == Ok(())
      ensures code == SelectCode(data, supportLevel)
      ensures RemoveAll(data.currentBloc, Whitespace) != [] && AtLeast(supportLevel, Bloc) ==>
                code == data.currentBloc
      ensures !(RemoveAll(data.currentBloc, Whitespace) != [] && AtLeast(supportLevel, Bloc)) &&
              RemoveAll(data.currentLine, Space) != [] && AtLeast(supportLevel, Line) ==>
                code == data.currentLine
      ensures !(RemoveAll(data.currentBloc, Whitespace) != [] && AtLeast(supportLevel, Bloc)) &&
              !(RemoveAll(data.currentLine, Space) != [] && AtLeast(supportLevel, Line)) ==>
                code == []
    {
      if RemoveAll(data.currentBloc, Whitespace) != [] && AtLeast(CurrentLevel(), Bloc) {
        code := data.currentBloc;
      } else if RemoveAll(data.currentLine, Space) != [] && AtLeast(CurrentLevel(), Line) {
        code := data.currentLine;
      } else {
        code := "";
      }
      r := Ok(());
    }

    /** Lua needs no scaffolding: succeeds and changes nothing. */
    method AddBoilerplate() returns (r: Result<()>)
      ensures r == Ok(())
    {
      r := Ok(());
    }

    /** Fetches the code again, then delegates the whole run to the plain Lua
        executor, built from the same context and level, exactly when the
        fetched code lacks the marker. `runLuaOriginal` stands for that
        executor's run. */
    method Fallback(runLuaOriginal: (DataHolder, SupportLevel) -> Result<string>)
      returns (r: Option<Result<string>>)
      modifies this`code
      ensures code == SelectCode(data, supportLevel)
      ensures r.Some? <==> !Contains(code, Marker)
      ensures r.Some? ==> r.value == runLuaOriginal(data, supportLevel)
    {
      var fetched := FetchCode();
      if !Contains(code, Marker) {
        return Some(runLuaOriginal(GetData(), CurrentLevel()));
      }
      return None;
    }

    /** Writes `code` to `main.lua` in the scratch directory and succeeds. */
    method Build() returns (staged: StagedFile, r: Result<()>)
      requires Valid()
      ensures staged.path == mainFilePath && staged.contents == code
      ensures staged.path == luaWorkDir + "/main.lua"
      ensures r == Ok(())
    {
      staged := StagedFile(mainFilePath, code);
      r := Ok(());
    }

    /** Runs `main.lua` of the scratch directory, the file `Build` writes,
        in a headless Neovim whose run reported
        `nvim`. A successful run yields its standard ERROR, a failed one a
        RuntimeError carrying its standard error. */
    method Execute(nvim: ProcessOutput) returns (invoked: Command, r: Result<string>)
      requires Valid()
      ensures invoked == Command("nvim", ["--headless", "-c", "luafile " + mainFilePath, "-c", "q!"])
      ensures invoked.args[2] == "luafile " + luaWorkDir + "/main.lua"
      ensures r.Ok? <==> nvim.success
      ensures r.Ok? ==> r.value == nvim.stderr
      ensures r.Err? ==> r.error == RuntimeError(nvim.stderr)
    {
      invoked := Command("nvim", ["--headless", "-c", "luafile " + mainFilePath, "-c", "q!"]);
      if nvim.success {
        return invoked, Ok(nvim.stderr);
      } else {
        return invoked, Err(RuntimeError(nvim.stderr));
      }
    }
  }
}
