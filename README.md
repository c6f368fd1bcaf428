# sniprun executors for Neovim Lua and Rust, modelled in Dafny

sniprun runs a snippet taken from the editor. An executor picks the snippet
out of an execution context, adds whatever scaffolding the toolchain needs,
stages it in a scratch directory and runs the external toolchain. The output,
or a classified error, is its result. This project models two executors:

- `Lua_nvim` runs Lua inside a headless Neovim (`lua_nvim.dfy`). When the
  selected snippet does not mention `nvim`, it delegates the whole run to the
  plain Lua executor.
- `Rust` wraps the snippet in `fn main() { … }`, compiles it with `rustc` and
  runs the binary (`rust.dfy`).

Each executor is a class. Its fields are those of the source struct: the
support level, the context (`DataHolder`: current line, current block, work
directory), the `code` buffer and the scratch paths. The fields changed in
place differ per executor:

- In `Lua_nvim`, `fetch_code` and `fallback` (which re-runs `fetch_code`)
  rewrite `code`, and `set_current_level` rewrites the level.
  `add_boilerplate` changes nothing.
- In `Rust`, `fetch_code` and `add_boilerplate` rewrite `code`, and
  `set_current_level` rewrites the level.

Each method frames exactly the field it changes (`modifies this`code`), so
"nothing else changes" follows from the frame.

Shared pieces:

- `interpreter.dfy` holds the types: the ordered `SupportLevel`, the context,
  the error kinds, `Result`/`Option`, and the values that stand for effects
  outside the process.
- `text.dfy` holds the two string operations the executors call: `replace`
  with an empty replacement (`RemoveAll`) and `contains` (`Contains`). Each
  has a characterising contract.
- `agreement.dfy` relates the two selection rules. It also drives both
  executors through their stages on concrete contexts.

Effects outside the process are turned into values:

- A file write is returned as a `StagedFile(path, contents)`.
- A process launch is returned as the `Command` that would be spawned.
- What that process reports (success flag, stdout, stderr) is a
  `ProcessOutput` parameter.
- The plain Lua executor's whole run is a function parameter
  `runLuaOriginal(data, level)`. That makes visible that the delegate gets
  the same context and level.

Two behaviours of the code are worth knowing:

- The Rust executor's `fetch_code` never reads the level. It selects a
  non-blank block although its declared maximum level is `Unsupported`
  (`Agreement.FetchIgnoresDeclaredMaximum`).
- Blankness is tested by stripping exactly `' '`, `'\t'`, `'\n'`, `'\r'` from
  the block, and only `' '` from the line. As a result, a line made only of
  tabs is selected (`LuaNvimInterpreter.TabLineIsSelected`).

## Model

| member | source | states |
|---|---|---|
| `Interpreter.AtLeastIsTotalOrder` | src/interpreters/Lua_nvim.rs:75-79 | the `>=` on support levels used by fetch_code is a total order, with Unsupported at the bottom |
| `Text.RemoveAll` | src/interpreters/Lua_nvim.rs:70-74 | `replace(chars, "")` leaves no character of the set, is no longer than its input, and is empty exactly when the input has only characters of the set |
| `Text.RemoveAllCounts` | src/interpreters/Lua_nvim.rs:70-74 | `replace(chars, "")` keeps every character outside the set exactly as often as in the input |
| `Text.RemoveAllAntitone` | src/interpreters/Lua_nvim.rs:70-81 | a text that is non-blank for the four-character block pattern is non-blank for the one-character line pattern |
| `Text.Contains` | src/interpreters/Lua_nvim.rs:58 | `contains(sub)` is true exactly when `sub` occurs at some index |
| `LuaNvimInterpreter.SelectCode` | src/interpreters/Lua_nvim.rs:70-85 | the selected text is the block or the line verbatim, or "" (no trimming) |
| `LuaNvimInterpreter.SelectCodeCases` | src/interpreters/Lua_nvim.rs:69-86 | the block verbatim if it has a character outside space/tab/LF/CR and level ≥ Bloc; else the line verbatim if it has a non-space and level ≥ Line; else "" — and "" exactly when neither holds |
| `LuaNvimInterpreter.SelectedCodeIsNotBlank` | src/interpreters/Lua_nvim.rs:69-86 | selected code, when non-empty, always has a character other than a space |
| `LuaNvimInterpreter.UnsupportedSelectsNothing` | src/interpreters/Lua_nvim.rs:75-84 | at level Unsupported the selection is empty |
| `LuaNvimInterpreter.TabLineIsSelected` | src/interpreters/Lua_nvim.rs:78-81 | a line of tabs is selected (only spaces are stripped), though the same text counts as blank for the block |
| `LuaNvimInterpreter.SelectCodeMonotone` | src/interpreters/Lua_nvim.rs:52-86 | raising the level never loses a selection; levels at or above the declared maximum Bloc all select the same text |
| `LuaNvimInterpreter.MarkedBlocIsKept` | src/interpreters/Lua_nvim.rs:56-77 | a block containing "nvim" at level ≥ Bloc is selected verbatim and still contains the marker, so the run is not delegated |
| `LuaNvimInterpreter.UnsupportedAlwaysDelegates` | src/interpreters/Lua_nvim.rs:56-67 | at level Unsupported the fetched code lacks "nvim", so fallback always delegates |
| `LuaNvimInterpreter.LuaNvim.NewWithLevel` | src/interpreters/Lua_nvim.rs:16-31 | work dir is `work_dir + "/nvim-lua"`, main file is that dir + `"/main.lua"`, code is "", level and context as given |
| `LuaNvimInterpreter.LuaNvim.MaxSupportLevel` | src/interpreters/Lua_nvim.rs:52-54 | the declared maximum level is Bloc |
| `LuaNvimInterpreter.LuaNvim.CurrentLevel` | src/interpreters/Lua_nvim.rs:41-43 | returns the stored support level |
| `LuaNvimInterpreter.LuaNvim.SetCurrentLevel` | src/interpreters/Lua_nvim.rs:41-46 | the getter then returns the level that was set; only `support_level` changes |
| `LuaNvimInterpreter.LuaNvim.GetData` | src/interpreters/Lua_nvim.rs:48-50 | returns the executor's context |
| `LuaNvimInterpreter.LuaNvim.FetchCode` | src/interpreters/Lua_nvim.rs:69-86 | always Ok(()); code becomes the block, the line or "" by the three cases above; only `code` changes |
| `LuaNvimInterpreter.LuaNvim.AddBoilerplate` | src/interpreters/Lua_nvim.rs:88-90 | always Ok(()) and changes nothing, code included |
| `LuaNvimInterpreter.LuaNvim.Fallback` | src/interpreters/Lua_nvim.rs:56-67 | re-fetches code; returns Some(run of the plain Lua executor on the same context and level) exactly when the fetched code lacks "nvim", None otherwise |
| `LuaNvimInterpreter.LuaNvim.Build` | src/interpreters/Lua_nvim.rs:92-98 | writes code to `<lua work dir>/main.lua` and returns Ok(()) |
| `LuaNvimInterpreter.LuaNvim.Execute` | src/interpreters/Lua_nvim.rs:100-117 | spawns `nvim --headless -c "luafile <lua work dir>/main.lua" -c q!`, the file Build writes; Ok(stderr), not stdout, exactly when it succeeds, else RuntimeError(stderr) |
| `RustInterpreter.SelectCode` | src/interpreters/Rust.rs:66-77 | the selected text is the block or the line verbatim, or "" (no trimming), whatever the level |
| `RustInterpreter.SelectCodeCases` | src/interpreters/Rust.rs:65-79 | the block verbatim if it has a character outside space/tab/LF/CR; else the line verbatim if it has a non-space; else "" — and "" exactly when both are blank |
| `RustInterpreter.Wrap` | src/interpreters/Rust.rs:81-84 | the wrapped source is 12 characters longer: `fn main() {`, then the snippet, then `}` |
| `RustInterpreter.WrapContainsCode` | src/interpreters/Rust.rs:81-84 | the snippet is a substring of the wrapped source |
| `RustInterpreter.WrapInjective` | src/interpreters/Rust.rs:81-84 | equal wrapped sources come from equal snippets |
| `RustInterpreter.WrapTwiceNests` | src/interpreters/Rust.rs:81-84 | wrapping twice nests the wrapper, so add_boilerplate is not idempotent |
| `RustInterpreter.BinPath` | src/interpreters/Rust.rs:27 | the binary path is the main file path minus its last three characters: three shorter, and a prefix of it |
| `RustInterpreter.BinPathDropsExtension` | src/interpreters/Rust.rs:26-27 | dropping the last three characters of `<dir>/main.rs` gives `<dir>/main` |
| `RustInterpreter.Rust.NewWithLevel` | src/interpreters/Rust.rs:19-36 | work dir is `work_dir + "/rust-original"`, main file is that dir + `"/main.rs"`, binary is that dir + `"/main"`, code is "" |
| `RustInterpreter.Rust.MaxSupportLevel` | src/interpreters/Rust.rs:61-63 | the declared maximum level is Unsupported |
| `RustInterpreter.Rust.CurrentLevel` | src/interpreters/Rust.rs:50-52 | returns the stored support level |
| `RustInterpreter.Rust.SetCurrentLevel` | src/interpreters/Rust.rs:50-55 | the getter then returns the level that was set; only `support_level` changes |
| `RustInterpreter.Rust.GetData` | src/interpreters/Rust.rs:57-59 | returns the executor's context |
| `RustInterpreter.Rust.FetchCode` | src/interpreters/Rust.rs:65-79 | always Ok(()); code becomes the block, the line or "" by the cases above, whatever the level; only `code` changes |
| `RustInterpreter.Rust.AddBoilerplate` | src/interpreters/Rust.rs:81-84 | always Ok(()); code becomes the wrapped old code, 12 characters longer and containing the old code; only `code` changes |
| `RustInterpreter.Rust.Build` | src/interpreters/Rust.rs:86-104 | writes code to the main file and spawns `rustc --out-dir <work dir> <main file>`; CompilationError("") exactly when the compiler fails, Ok(()) otherwise |
| `RustInterpreter.Rust.Execute` | src/interpreters/Rust.rs:106-117 | runs the binary `<work dir>/main`, the main file without `.rs`; Ok(stdout) exactly when it succeeds, else RuntimeError(stderr) |
| `Agreement.SameSelectionFromBloc` | src/interpreters/Lua_nvim.rs:69-86 | from level Bloc up the Lua and Rust rules select the same text; below Bloc a non-blank block is selected by Rust only |
| `Agreement.FetchIgnoresDeclaredMaximum` | src/interpreters/Rust.rs:61-79 | for every context with a non-blank block, Rust selects that block although its declared maximum is Unsupported, at which Lua_nvim would not select it |

## Left out

- Directory creation (`DirBuilder` in both constructors) is not modelled. It is filesystem I/O, and its failure is a process abort.
- File creation and writing in `build` are filesystem I/O. They appear only as the returned `StagedFile` value.
- Spawning `nvim`, `rustc` and the compiled binary is not modelled. Each launch is the returned `Command`, and its outcome is a `ProcessOutput` parameter.
- The `.expect`/`.unwrap` panics are left out, including a process that cannot start and output that is not valid UTF-8. Process output is taken to be text already.
- The plain Lua executor (`Lua_original`) and the shared `run()` pipeline are not part of this model. The delegated run is an opaque function of the context and level, and no claim is made about stage ordering.
- `get_name`, `get_supported_languages` and the `info!` log line are left out. They are constant lists and logging.
- `SupportLevel` is defined outside the two files. The model orders it Unsupported < Line < Bloc < Import < File.
- `SniprunError` is modelled only with the two variants these executors produce.
- Lengths are counted in characters, not UTF-8 bytes. The slice `mfp[..mfp.len() - 3]` removes the ASCII suffix `.rs`, so the result is the same either way.
