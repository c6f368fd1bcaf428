/** How the two executors' selection rules relate, and the two executors
    driven through their stages on concrete contexts. */
module Agreement {
  import opened Interpreter
  import opened Text
  import Lua = LuaNvimInterpreter
  import Rs = RustInterpreter

  /** From level Bloc upwards both executors select the same text; below it
      only the Lua executor is held back by the level. */
  lemma SameSelectionFromBloc(data: DataHolder, level: SupportLevel)
    ensures AtLeast(level, Bloc) ==> Lua.SelectCode(data, level) == Rs.SelectCode(data)
    ensures !AtLeast(level, Bloc) && RemoveAll(data.currentBloc, Whitespace) != [] ==>
              Lua.SelectCode(data, level) != Rs.SelectCode(data) || data.currentBloc == data.currentLine
  {
  }

  /** The Rust executor never consults the level: every context with a
      non-blank block selects that block, although the declared maximum is
      Unsupported, at which the Lua executor selects nothing. */
  lemma FetchIgnoresDeclaredMaximum(data: DataHolder)
    requires RemoveAll(data.currentBloc, Whitespace) != []
    ensures Rs.SelectCode(data) == data.currentBloc
    ensures Lua.SelectCode(data, Rs.Rust.MaxSupportLevel()) != data.currentBloc
  {
  }

  /** A compiled snippet: a non-blank block at level Bloc (such as "1+1;")
      is selected, wrapped into a complete program, written to the source
      file and compiled, and the binary next to it is run; a successful run
      yields its standard output. */
  method RustScenario(block: string, workDir: string, rustc: ProcessOutput, binary: ProcessOutput)
    requires RemoveAll(block, Whitespace) != []
    requires rustc.success && binary.success
  {
    var rs := new Rs.Rust.NewWithLevel(DataHolder("", block, workDir), Bloc);
    var fetched := rs.FetchCode();
    assert rs.code == block;
    var wrapped := rs.AddBoilerplate();
    assert rs.code == Rs.Wrap(block);
    var staged, compiler, built := rs.Build(rustc);
    assert built == Ok(());
    var run, result := rs.Execute(binary);
    assert result == Ok(binary.stdout);
  }

  /** A non-blank Lua block without the marker (such as "x=1") is handed to
      the plain Lua executor with the same context and level. */
  method LuaDelegatedScenario(plainBloc: string, workDir: string,
                              runLuaOriginal: (DataHolder, SupportLevel) -> Result<string>)
    requires RemoveAll(plainBloc, Whitespace) != [] && !Contains(plainBloc, Lua.Marker)
  {
    var plain := DataHolder("", plainBloc, workDir);
    var lua := new Lua.LuaNvim.NewWithLevel(plain, Bloc);
    var delegated := lua.Fallback(runLuaOriginal);
    assert lua.code == plainBloc;
    assert delegated == Some(runLuaOriginal(plain, Bloc));
  }

  /** A Lua block with the marker (such as "vim.nvim") is kept: it is written
      to `main.lua` of the scratch directory, which is the file Neovim runs,
      and a successful run yields Neovim's standard error. */
  method LuaKeptScenario(markedBloc: string, workDir: string,
                         runLuaOriginal: (DataHolder, SupportLevel) -> Result<string>, nvim: ProcessOutput)
    requires Contains(markedBloc, Lua.Marker)
    requires nvim.success
  {
    var marked := DataHolder("", markedBloc, workDir);
    var lua := new Lua.LuaNvim.NewWithLevel(marked, Bloc);
    Lua.MarkedBlocIsKept(marked, Bloc);
    var delegated := lua.Fallback(runLuaOriginal);
    assert delegated == None;
    var staged, built := lua.Build();
    assert staged.contents == markedBloc;
    var invoked, result := lua.Execute(nvim);
    assert invoked.args[2] == "luafile " + staged.path;
    assert result == Ok(nvim.stderr);
  }
}
