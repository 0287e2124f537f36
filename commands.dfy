/** The decision logic of the editor commands in src/commands.ts:
    workspace initialization, running a task, running one test, restarting,
    and turning off the TypeScript server. Pickers, prompts and terminals
    are the editor's; their answers are inputs here. */
module Commands {
  import opened Text
  import opened Configuration

  /** A write `workspace.getConfiguration(section).update(key, value)`. */
  datatype ConfigUpdate = ConfigUpdate(section: string, key: string, value: Json)

  // ---------------------------------------------------------------------
  // doInitialize

  const Linting := "Enable Deno linting?"
  const Unstable := "Enable Deno unstable APIs?"
  const Prettier := "Disable coc-prettier for current project?"

  /** The picker's items: linting and unstable, and the prettier option only
      when `coc-prettier` is among the installed extensions. */
  function InitializeItems(extensionIds: seq<string>): (items: seq<string>)
    ensures |items| >= 2 && items[0] == Linting && items[1] == Unstable
    ensures Prettier in items <==> "coc-prettier" in extensionIds
    ensures |items| == if "coc-prettier" in extensionIds then 3 else 2
  {
    [Linting, Unstable] + if "coc-prettier" in extensionIds then [Prettier] else []
  }

  /** The writes `doInitialize` makes for the picker's answer: none when it
      was dismissed; otherwise `deno.enable` true, `deno.lint` and
      `deno.unstable` set to whether they were chosen, and prettier's
      `disableLanguages` only when that option was chosen. An empty choice
      is still an answer (an empty array is truthy). */
  function InitializeUpdates(picked: Option<seq<string>>): (updates: seq<ConfigUpdate>)
    ensures picked.None? ==> updates == []
    ensures picked.Some? ==> (|updates| >= 3
              && updates[0] == ConfigUpdate("deno", "enable", JBool(true))
              && updates[1] == ConfigUpdate("deno", "lint", JBool(Linting in picked.value))
              && updates[2] == ConfigUpdate("deno", "unstable", JBool(Unstable in picked.value)))
    ensures picked.Some? ==> (|updates| == 4 <==> Prettier in picked.value)
    ensures |updates| == 4 ==>
              updates[3] == ConfigUpdate("prettier", "disableLanguages", JArr([JStr("typescript"), JStr("javascript")]))
    ensures |updates| <= 4
  {
    match picked
    case None => []
    case Some(settings) =>
      [ConfigUpdate("deno", "enable", JBool(true)),
       ConfigUpdate("deno", "lint", JBool(Linting in settings)),
       ConfigUpdate("deno", "unstable", JBool(Unstable in settings))]
      + if Prettier in settings
        then [ConfigUpdate("prettier", "disableLanguages", JArr([JStr("typescript"), JStr("javascript")]))]
        else []
  }

  /** Without coc-prettier installed the picker cannot offer the prettier
      option, so no answer it gives touches prettier's configuration. */
  lemma NoPrettierWriteWithoutPrettier(extensionIds: seq<string>, picked: seq<string>)
    requires "coc-prettier" !in extensionIds
    requires forall x :: x in picked ==> x in InitializeItems(extensionIds)
    ensures forall u :: u in InitializeUpdates(Some(picked)) ==> u.section == "deno"
  {
    assert Prettier !in InitializeItems(extensionIds);
    assert Prettier !in picked;
  }

  // ---------------------------------------------------------------------
  // Terminals, tasks and tests

  /** `TaskRequestResponse`. */
  datatype TaskRequestResponse = TaskRequestResponse(name: string, detail: string)

  /** A terminal the command opened and the texts it sent to it. */
  datatype Terminal = Terminal(name: string, cwd: string, env: Option<map<string, string>>, sent: seq<string>)

  /** How the test command reads the `deno` configuration: each field is
      `None` when the key is undefined (`has` is false). */
  datatype TestConfig = TestConfig(
    testArgs: Option<seq<string>>,   // `codeLens.testArgs`
    unstable: Option<bool>,
    importMap: Option<string>,
    cache: Option<string>,
    path: Option<string>)

  function CodeLensTestArgs(config: TestConfig): seq<string> {
    if config.testArgs.Some? then config.testArgs.value else []
  }

  /** Whether `--import-map <trimmed>` is added. */
  predicate AddsImportMap(config: TestConfig) {
    "--import-map" !in CodeLensTestArgs(config)
    && config.importMap.Some? && Trim(config.importMap.value) != ""
  }

  /** `args` is the code-lens arguments, then `--unstable` iff `withUnstable`,
      then the import map iff none was given and the trimmed path is
      non-empty. */
  ghost predicate TestArgsWith(config: TestConfig, withUnstable: bool, args: seq<string>) {
    var base := CodeLensTestArgs(config);
    var k := |base| + if withUnstable then 1 else 0;
    && |args| == k + (if AddsImportMap(config) then 2 else 0)
    && args[..|base|] == base
    && (withUnstable ==> args[|base|] == "--unstable")
    && (AddsImportMap(config) ==> args[k..] == ["--import-map", Trim(config.importMap.value)])
  }

  /** What lines 136-145 build: `--unstable` iff the configuration has an
      `unstable` key, whatever its value. */
  ghost predicate IsTestArgs(config: TestConfig, args: seq<string>) {
    TestArgsWith(config, config.unstable.Some?, args)
  }

  /** `testArgs`, built by copying and pushing. */
  method BuildTestArgs(config: TestConfig) returns (testArgs: seq<string>)
    ensures IsTestArgs(config, testArgs)
  {
    testArgs := CodeLensTestArgs(config);
    if config.unstable.Some? {
      testArgs := testArgs + ["--unstable"];
    }
    if "--import-map" !in testArgs {
      if config.importMap.Some? && Trim(config.importMap.value) != "" {
        testArgs := testArgs + ["--import-map", Trim(config.importMap.value)];
      }
    }
  }

  /** The `testArgs` as intended: `--unstable` only when `unstable` is true. */
  method BuildTestArgsByValue(config: TestConfig) returns (testArgs: seq<string>)
    ensures TestArgsWith(config, config.unstable == Some(true), testArgs)
  {
    testArgs := CodeLensTestArgs(config);
    if config.unstable == Some(true) {
      testArgs := testArgs + ["--unstable"];
    }
    if "--import-map" !in testArgs {
      if config.importMap.Some? && Trim(config.importMap.value) != "" {
        testArgs := testArgs + ["--import-map", Trim(config.importMap.value)];
      }
    }
  }

  /** With `unstable` explicitly false, the test still runs with `--unstable`. */
  method UnstableFalseStillPassed() returns (testArgs: seq<string>, intended: seq<string>)
    ensures testArgs == ["--unstable"]
    ensures intended == []
  {
    var config := TestConfig(None, Some(false), None, None, None);
    testArgs := BuildTestArgs(config);
    intended := BuildTestArgsByValue(config);
  }

  /** The characters the test-name escaping guards: `. * + ? ^ $ { } ( ) | [ ] \`. */
  const RegexMeta: set<char> := {'.', '*', '+', '?', '^', '$', '{', '}', '(', ')', '|', '[', ']', '\\'}

  /** `t` is a sequence of pattern atoms that each match one character
      literally: a character outside `RegexMeta`, or a backslash followed by
      a character of `RegexMeta`. */
  predicate LiteralAtoms(t: string)
  {
    if t == [] then true
    else if t[0] !in RegexMeta then LiteralAtoms(t[1..])
    else |t| >= 2 && t[0] == '\\' && t[1] in RegexMeta && LiteralAtoms(t[2..])
  }

  /** `name.replace(/[.*+?^${}()|[\]\\]/g, "\\$&")`: every metacharacter gets
      a backslash in front, so the escaped name is made of literal atoms only. */
  function EscapeRegex(name: string): (t: string)
    ensures LiteralAtoms(t)
    ensures |t| >= |name|
    ensures (forall k :: 0 <= k < |name| ==> name[k] !in RegexMeta) ==> t == name
  {
    if name == [] then []
    else
      var rest := EscapeRegex(name[1..]);
      if name[0] in RegexMeta then
        var t := ['\\', name[0]] + rest;
        assert t[2..] == rest;
        t
      else
        var t := [name[0]] + rest;
        assert t[1..] == rest;
        t
  }

  /** Removing the inserted backslashes: a backslash keeps the character after it. */
  function Unescape(t: string): string
  {
    if |t| >= 2 && t[0] == '\\' then [t[1]] + Unescape(t[2..])
    else if t == [] then []
    else [t[0]] + Unescape(t[1..])
  }

  /** The escaping loses nothing: unescaping gives the test name back. */
  lemma {:induction false} UnescapeEscapeRegex(name: string)
    ensures Unescape(EscapeRegex(name)) == name
  {
    if name != [] {
      var t := EscapeRegex(name);
      UnescapeEscapeRegex(name[1..]);
      if name[0] in RegexMeta {
        assert t == ['\\', name[0]] + EscapeRegex(name[1..]);
        assert t[2..] == EscapeRegex(name[1..]);
      } else {
        assert t == [name[0]] + EscapeRegex(name[1..]);
        assert t[1..] == EscapeRegex(name[1..]);
        assert name[0] != '\\';
      }
      assert name == [name[0]] + name[1..];
    }
  }

  /** Conversely, every pattern of literal atoms is the escaped form of its
      unescaping: the escaped names are exactly the literal patterns. */
  lemma {:induction false} EscapeRegexUnescape(t: string)
    requires LiteralAtoms(t)
    ensures EscapeRegex(Unescape(t)) == t
    decreases |t|
  {
    if t != [] {
      if t[0] !in RegexMeta {
        assert t[0] != '\\';
        EscapeRegexUnescape(t[1..]);
        assert Unescape(t) == [t[0]] + Unescape(t[1..]);
        assert ([t[0]] + Unescape(t[1..]))[1..] == Unescape(t[1..]);
        assert t == [t[0]] + t[1..];
      } else {
        EscapeRegexUnescape(t[2..]);
        assert Unescape(t) == [t[1]] + Unescape(t[2..]);
        assert ([t[1]] + Unescape(t[2..]))[1..] == Unescape(t[2..]);
        assert t == ['\\', t[1]] + t[2..];
      }
    }
  }

  /** So two different test names never share a filter. */
  lemma EscapeRegexInjective(a: string, b: string)
    requires EscapeRegex(a) == EscapeRegex(b)
    ensures a == b
  {
    UnescapeEscapeRegex(a);
    UnescapeEscapeRegex(b);
  }

  /** The anchored pattern `^…$`. */
  function FilterPattern(name: string): string {
    "^" + EscapeRegex(name) + "$"
  }

  /** How a RegExp prints inside a template literal, `/source/`: the engine
      escapes `/` and line terminators in the source. The escaped name holds
      no character class and no unpaired backslash before these characters,
      so each of them is escaped. */
  function SourceText(pattern: string): string {
    if pattern == [] then []
    else
      var c := pattern[0];
      (if c == '/' then "\\/"
       else if c == '\n' then "\\n"
       else if c == '\r' then "\\r"
       else if c == '\U{2028}' then "\\u2028"
       else if c == '\U{2029}' then "\\u2029"
       else [c])
      + SourceText(pattern[1..])
  }

  /** The `--filter` argument: `"/^…$/"` with the quotes. */
  function FilterArgument(name: string): string {
    "\"/" + SourceText(FilterPattern(name)) + "/\""
  }

  /** `args`: `test`, the test arguments, `--filter`, the filter, the file. */
  function TestArgv(testArgs: seq<string>, name: string, fsPath: string): (args: seq<string>)
    ensures |args| == |testArgs| + 4
    ensures args[0] == "test" && args[1..|testArgs| + 1] == testArgs
    ensures args[|testArgs| + 1..] == ["--filter", FilterArgument(name), fsPath]
  {
    ["test"] + testArgs + ["--filter", FilterArgument(name), fsPath]
  }

  /** `${bin} ${args.join(" ")}` with `bin` defaulting to `deno`. */
  function TestCommandLine(config: TestConfig, testArgs: seq<string>, name: string, fsPath: string): string {
    var bin := if config.path.Some? then config.path.value else "deno";
    bin + " " + Join(TestArgv(testArgs, name, fsPath), " ")
  }

  /** `DENO_DIR` is set iff the configuration has `cache`. */
  function TestEnv(config: TestConfig): (env: Option<map<string, string>>)
    ensures env.Some? <==> config.cache.Some?
    ensures env.Some? ==> env.value == map["DENO_DIR" := config.cache.value]
  {
    if config.cache.Some? then Some(map["DENO_DIR" := config.cache.value]) else None
  }

  /** The joined arguments: `test`, the test arguments if any, then
      `--filter`, the filter and the path, single-spaced. */
  lemma JoinTestArgv(testArgs: seq<string>, filter: string, fsPath: string)
    ensures Join(["test"] + testArgs + ["--filter", filter, fsPath], " ")
            == "test" + " " + (if testArgs == [] then "" else Join(testArgs, " ") + " ")
               + ("--filter" + " " + filter + " " + fsPath)
  {
    var f := ["--filter", filter, fsPath];
    JoinThree("--filter", filter, fsPath, " ");
    assert ["test"] + testArgs + f == ["test"] + (testArgs + f);
    JoinCons("test", testArgs + f, " ");
    if testArgs == [] {
      assert testArgs + f == f;
    } else {
      JoinAppend(testArgs, f, " ");
    }
  }

  /** The terminal text word by word: the binary, `test`, the test arguments,
      `--filter`, the quoted filter and the file path, single-spaced. */
  lemma TestCommandLineShape(config: TestConfig, testArgs: seq<string>, name: string, fsPath: string)
    ensures var bin := if config.path.Some? then config.path.value else "deno";
            TestCommandLine(config, testArgs, name, fsPath)
              == bin + " " + ("test" + " " + (if testArgs == [] then "" else Join(testArgs, " ") + " ")
                              + ("--filter" + " " + FilterArgument(name) + " " + fsPath))
  {
    var argv := TestArgv(testArgs, name, fsPath);
    assert argv == ["test"] + testArgs + ["--filter", FilterArgument(name), fsPath];
    JoinTestArgv(testArgs, FilterArgument(name), fsPath);
  }

  /** The module-level `terminal` the task and test commands reuse. */
  class TerminalSlot {
    var terminal: Option<Terminal>
    /** The terminals disposed so far, oldest first. */
    var disposed: seq<Terminal>

    constructor ()
      ensures terminal == None && disposed == []
    {
      terminal := None;
      disposed := [];
    }

    /** Disposes the previous terminal, if any, opens a new one and sends it
        one line. */
    method Replace(name: string, cwd: string, env: Option<map<string, string>>, text: string)
      modifies this
      ensures disposed == old(disposed) + (if old(terminal).Some? then [old(terminal).value] else [])
      ensures terminal == Some(Terminal(name, cwd, env, [text]))
    {
      if terminal.Some? {
        disposed := disposed + [terminal.value];
        terminal := None;
      }
      terminal := Some(Terminal(name, cwd, env, [text]));
    }

    /** The `deno.task` command: stops on an absent or empty task list or a
        dismissed picker (-1); otherwise runs the picked task's `detail` in a
        terminal named after it, disposing any previous terminal first. */
    method Task(tasks: Option<seq<TaskRequestResponse>>, picked: int, root: string) returns (ran: bool)
      requires picked >= -1
      requires tasks.Some? ==> picked < |tasks.value|
      modifies this
      ensures ran <==> tasks.Some? && |tasks.value| > 0 && picked != -1
      ensures !ran ==> terminal == old(terminal) && disposed == old(disposed)
      ensures ran ==>
                (terminal == Some(Terminal(tasks.value[picked].name, root, None, [tasks.value[picked].detail]))
                 && disposed == old(disposed) + (if old(terminal).Some? then [old(terminal).value] else []))
    {
      if tasks.None? || |tasks.value| == 0 {
        return false;
      }
      if picked == -1 {
        return false;
      }
      var task := tasks.value[picked];
      Replace(task.name, root, None, task.detail);
      ran := true;
    }

    /** The `deno.test` command for the test `name` in the file `fsPath`:
        the argument list of lines 136-145 (`--unstable` whenever the
        configuration has an `unstable` key), the command line, and the
        terminal that replaces any previous one. */
    method Test(config: TestConfig, fsPath: string, name: string, root: string) returns (testArgs: seq<string>)
      modifies this
      ensures IsTestArgs(config, testArgs)
      ensures terminal == Some(Terminal(name, root, TestEnv(config), [TestCommandLine(config, testArgs, name, fsPath)]))
      ensures disposed == old(disposed) + (if old(terminal).Some? then [old(terminal).value] else [])
    {
      testArgs := BuildTestArgs(config);
      var env := TestEnv(config);
      var text := TestCommandLine(config, testArgs, name, fsPath);
      Replace(name, root, env, text);
    }
  }

  // ---------------------------------------------------------------------
  // restart and checkTSServer

  /** The language client's public state. */
  datatype ClientState = Stopped | Starting | Running

  /** `deno.restart` restarts the client only while it is running. */
  function RestartCalls(state: ClientState): (restarts: bool)
    ensures restarts <==> state == Running
  {
    match state
    case Running => true
    case _ => false
  }

  /** `checkTSServer`: a truthy `tsserver.enable` is switched off; otherwise
      nothing is written. */
  function CheckTsServer(enable: Option<Json>): (update: Option<ConfigUpdate>)
    ensures update.Some? <==> Truthy(enable)
    ensures update.Some? ==> update.value == ConfigUpdate("tsserver", "enable", JBool(false))
  {
    if Truthy(enable) then Some(ConfigUpdate("tsserver", "enable", JBool(false))) else None
  }
}
