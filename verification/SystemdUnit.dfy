/**
 * The generated systemd unit and the arguments inherited from it (src/cli/service-manager.ts): what
 * `renderSystemdUnit` writes, `readStartArguments` reads.
 */
module SystemdUnits {
  import opened Results
  import opened SystemdArguments

  const MAX_DEFINITION_BYTES: nat := 256 * 1024

  /** The install options; `path` is the executable search path resolved for the service. */
  datatype Options = Options(
    nodePath: string, entrypointPath: string, workingDirectory: string, path: string, startArguments: seq<string>)

  /** What `lstat` and reading find at a definition's path. */
  datatype Definition = Missing | Irregular | Regular(size: nat, text: string)

  const START: string := "start"
  const EXEC_START: string := "ExecStart="

  function Command(options: Options): seq<string> {
    [options.nodePath, options.entrypointPath, START] + options.startArguments
  }

  function DirectivePath(path: string): Result<string, Refusal> {
    if !(['/'] <= path) || !Printable(path) then Err(UnsafePath) else Ok(Replace(path, '%', ['%', '%']))
  }

  // ---- printing ----

  const DESCRIPTION: string := "Worktree Control local control plane"

  const BEFORE: seq<string> := [
    "[Unit]",
    "Description=" + DESCRIPTION,
    "After=network.target",
    "StartLimitIntervalSec=60",
    "StartLimitBurst=5",
    "",
    "[Service]",
    "Type=simple"]

  const PROCESS: seq<string> := ["Restart=on-failure", "RestartSec=5", "KillMode=control-group", "TimeoutStopSec=15"]

  const INSTALL: seq<string> := ["UMask=0077", "", "[Install]", "WantedBy=default.target"]

  function UnitLines(command: string, directory: string, path: string): seq<string> {
    BEFORE + [EXEC_START + command] + Settings(directory, path) + PROCESS + INSTALL
  }

  function Settings(directory: string, path: string): seq<string> {
    ["WorkingDirectory=" + directory, "Environment=NODE_ENV=production", "Environment=" + path]
  }

  function Text(lines: seq<string>): string {
    if lines == [] then [] else lines[0] + ['\n'] + Text(lines[1..])
  }

  function RenderSystemdUnit(options: Options): Result<string, Refusal> {
    var command, directory := PrintCommand(Command(options)), DirectivePath(options.workingDirectory);
    var path := Quote("PATH=" + options.path);
    if command.Err? then Err(command.error)
    else if directory.Err? then Err(directory.error)
    else if path.Err? then Err(path.error)
    else Ok(Text(UnitLines(command.value, directory.value, path.value)))
  }

  // ---- reading ----

  /** Splitting at each line feed, with a carriage return before it. */
  function Lines(text: string): (r: seq<string>)
    ensures |r| >= 1
  {
    if text == [] then [[]]
    else if text[0] == '\n' then [[]] + Lines(text[1..])
    else if text[0] == '\r' && |text| >= 2 && text[1] == '\n' then [[]] + Lines(text[2..])
    else
      var rest := Lines(text[1..]);
      [[text[0]] + rest[0]] + rest[1..]
  }

  /** The values of the lines that start with `prefix`. */
  function Values(lines: seq<string>, prefix: string): seq<string> {
    if lines == [] then []
    else (if prefix <= lines[0] then [lines[0][|prefix|..]] else []) + Values(lines[1..], prefix)
  }

  predicate StartsController(command: seq<string>) {
    |command| >= 3 && command[2] == START && forall i :: 0 <= i < |command| ==> '\0' !in command[i]
  }

  function ReadDefinition(text: string): Result<seq<string>, Refusal> {
    var values := Values(Lines(text), EXEC_START);
    var command := ReadCommand(if |values| == 1 then values[0] else []);
    if command.Err? then Err(command.error)
    else if !StartsController(command.value) then Err(UnsafeCommand)
    else Ok(command.value[3..])
  }

  /** Until the renamed service is installed, a legacy definition supplies the arguments. */
  function ReadStartArguments(current: Definition, legacy: Definition): Result<Option<seq<string>>, Refusal> {
    var definition := if !current.Missing? || legacy.Missing? then current else legacy;
    match definition
    case Missing => Ok(None)
    case Irregular => Err(UnsafeDefinition)
    case Regular(size, text) =>
      if size > MAX_DEFINITION_BYTES then Err(UnsafeDefinition)
      else
        var arguments := ReadDefinition(text);
        if arguments.Err? then Err(arguments.error) else Ok(Some(arguments.value))
  }

  // ---- lines ----

  predicate Unbroken(line: string) {
    forall c :: c in line ==> c != '\r' && c != '\n'
  }

  lemma {:induction false} FirstLine(line: string, rest: string)
    requires Unbroken(line)
    ensures Lines(line + (['\n'] + rest)) == [line] + Lines(rest)
  {
    var text := line + (['\n'] + rest);
    if line == [] {
      assert text == ['\n'] + rest;
    } else {
      assert Unbroken(line[1..]) by {
        forall c | c in line[1..] ensures c in line {}
      }
      assert line[0] in line && [line[0]] + line[1..] == line;
      assert text[1..] == line[1..] + (['\n'] + rest);
      FirstLine(line[1..], rest);
    }
  }

  predicate AllUnbroken(lines: seq<string>) {
    forall i :: 0 <= i < |lines| ==> Unbroken(lines[i])
  }

  lemma {:induction false} LinesOfText(lines: seq<string>)
    requires AllUnbroken(lines)
    ensures Lines(Text(lines)) == lines + [[]]
  {
    if lines != [] {
      LinesOfText(lines[1..]);
      FirstLine(lines[0], Text(lines[1..]));
      assert lines[0] + ['\n'] + Text(lines[1..]) == lines[0] + (['\n'] + Text(lines[1..]));
    }
  }

  lemma {:induction false} ValuesAppend(a: seq<string>, b: seq<string>, prefix: string)
    ensures Values(a + b, prefix) == Values(a, prefix) + Values(b, prefix)
  {
    if a == [] {
      assert a + b == b;
    } else {
      assert (a + b)[1..] == a[1..] + b;
      ValuesAppend(a[1..], b, prefix);
    }
  }

  /** A line other than the start command: it holds no line break and names another setting. */
  predicate Other(line: string) {
    Unbroken(line) && (|line| < 2 || line[0] != 'E' || line[1] != 'x')
  }

  predicate Others(lines: seq<string>) {
    forall i :: 0 <= i < |lines| ==> Other(lines[i])
  }

  lemma {:induction false} OthersHaveNoValue(lines: seq<string>)
    requires Others(lines)
    ensures Values(lines, EXEC_START) == []
  {
    if lines != [] {
      OthersHaveNoValue(lines[1..]);
      assert EXEC_START[0] == 'E' && EXEC_START[1] == 'x';
    }
  }

  lemma UnbrokenAppend(a: string, b: string)
    requires Unbroken(a) && Unbroken(b)
    ensures Unbroken(a + b)
  {
  }

  lemma DescriptionIsUnbroken()
    ensures Unbroken(DESCRIPTION)
  {
  }

  lemma OthersAppend(a: seq<string>, b: seq<string>)
    requires Others(a) && Others(b)
    ensures Others(a + b)
  {
  }

  lemma BeforeIsOther()
    ensures Others(BEFORE)
  {
    DescriptionIsUnbroken();
    UnbrokenAppend("Description=", DESCRIPTION);
    assert Other("[Unit]") && Other("After=network.target") && Other("[Service]") && Other("Type=simple");
    assert Other("StartLimitIntervalSec=60") && Other("StartLimitBurst=5");
  }

  lemma ProcessIsOther()
    ensures Others(PROCESS)
  {
    assert Other("Restart=on-failure");
    assert Other("KillMode=control-group");
    assert Other("TimeoutStopSec=15");
  }

  lemma InstallIsOther()
    ensures Others(INSTALL)
  {
  }

  lemma SettingsAreOther(directory: string, path: string)
    requires Unbroken(directory) && Unbroken(path)
    ensures Others(Settings(directory, path))
  {
    UnbrokenAppend("WorkingDirectory=", directory);
    UnbrokenAppend("Environment=", path);
  }

  /** The unit has exactly one start command, the one printed. */
  lemma OneStartCommand(command: string, directory: string, path: string)
    requires Unbroken(command) && Unbroken(directory) && Unbroken(path)
    ensures Values(Lines(Text(UnitLines(command, directory, path))), EXEC_START) == [command]
  {
    var start, settings := EXEC_START + command, Settings(directory, path);
    BeforeIsOther();
    SettingsAreOther(directory, path);
    ProcessIsOther();
    InstallIsOther();
    OthersAppend(PROCESS, INSTALL);
    OthersAppend(settings, PROCESS + INSTALL);
    UnbrokenAppend(EXEC_START, command);
    OneValue(BEFORE, start, settings + (PROCESS + INSTALL));
    assert BEFORE + [start] + settings + PROCESS + INSTALL == BEFORE + [start] + (settings + (PROCESS + INSTALL));
  }

  lemma OneValue(before: seq<string>, start: string, after: seq<string>)
    requires Others(before) && Others(after) && Unbroken(start) && EXEC_START <= start
    ensures Values(Lines(Text(before + [start] + after)), EXEC_START) == [start[|EXEC_START|..]]
  {
    var lines, tail := before + [start] + after, after + [[]];
    LinesOfText(lines);
    assert lines + [[]] == (before + [start]) + tail;
    ValuesAppend(before + [start], tail, EXEC_START);
    ValuesAppend(before, [start], EXEC_START);
    OthersHaveNoValue(before);
    OthersHaveNoValue(tail);
  }

  // ---- what is rendered is read back ----

  lemma {:induction false} ReplacePrintable(s: string)
    requires Printable(s)
    ensures Printable(Replace(s, '%', ['%', '%']))
  {
    if s != [] {
      assert s[0] in s;
      assert Printable(s[1..]) by {
        forall c | c in s[1..] ensures c in s {}
      }
      ReplacePrintable(s[1..]);
    }
  }

  lemma QuotePrintable(s: string)
    requires Printable(s)
    ensures Printable(InQuotes(QuoteBody(s)))
  {
    QuoteBodyIsEscape(s);
    EscapePrintable(s);
  }

  lemma CommandPrintable(args: seq<string>)
    requires PrintCommand(args).Ok?
    ensures Printable(PrintCommand(args).value)
  {
    forall i | 0 <= i < |args| ensures Printable(QuoteBodies(args)[i]) {
      QuoteBodyIsEscape(args[i]);
      EscapePrintable(args[i]);
    }
    JoinedPrintable(QuoteBodies(args));
  }

  /** Whatever the options, the arguments of a unit that could be rendered are inherited unchanged. */
  lemma RenderedUnitReadsBack(options: Options, size: nat, legacy: Definition)
    requires RenderSystemdUnit(options).Ok? && size <= MAX_DEFINITION_BYTES
    ensures ReadStartArguments(Regular(size, RenderSystemdUnit(options).value), legacy)
            == Ok(Some(options.startArguments))
  {
    var args := Command(options);
    var command, directory := PrintCommand(args), DirectivePath(options.workingDirectory);
    var path := Quote("PATH=" + options.path);
    CommandPrintable(args);
    ReplacePrintable(options.workingDirectory);
    QuotePrintable("PATH=" + options.path);
    OneStartCommand(command.value, directory.value, path.value);
    PrintedCommandReadsBack(args);
    assert StartsController(args);
  }

  lemma {:induction false} EscapeUnbroken(s: string)
    requires Unbroken(s)
    ensures Unbroken(Escape(s))
  {
    if s != [] {
      assert s[0] in s;
      assert Unbroken(s[1..]) by {
        forall c | c in s[1..] ensures c in s {}
      }
      EscapeUnbroken(s[1..]);
      UnbrokenAppend(EscapeChar(s[0]), Escape(s[1..]));
    }
  }

  lemma {:induction false} JoinedUnbroken(bodies: seq<string>)
    requires AllUnbroken(bodies)
    ensures Unbroken(JoinQuoted(bodies))
    decreases |bodies|
  {
    if |bodies| > 1 {
      JoinedUnbroken(bodies[1..]);
      UnbrokenAppend(InQuotes(bodies[0]) + [' '], JoinQuoted(bodies[1..]));
    }
  }

  /** A definition with this start command, whoever wrote it. */
  function Installed(options: Options): string {
    Text(UnitLines(JoinQuoted(QuoteBodies(Command(options))), options.workingDirectory, InQuotes("PATH=" + options.path)))
  }

  /** Reading asks less than writing: unbroken arguments without NUL are inherited, dollar signs included. */
  lemma UnbrokenDefinitionReadsBack(options: Options, size: nat, legacy: Definition)
    requires AllUnbroken(Command(options)) && StartsController(Command(options)) && size <= MAX_DEFINITION_BYTES
    requires Unbroken(options.workingDirectory) && Unbroken(options.path)
    ensures ReadStartArguments(Regular(size, Installed(options)), legacy) == Ok(Some(options.startArguments))
  {
    var args := Command(options);
    forall i | 0 <= i < |args| ensures Unbroken(QuoteBodies(args)[i]) {
      QuoteBodyIsEscape(args[i]);
      EscapeUnbroken(args[i]);
    }
    JoinedUnbroken(QuoteBodies(args));
    UnbrokenAppend("PATH=", options.path);
    OneStartCommand(JoinQuoted(QuoteBodies(args)), options.workingDirectory, InQuotes("PATH=" + options.path));
    PrintedCommandReadsBack(args);
  }

  /** A definition whose argument is a dollar sign is inherited from, and the unit to replace it refused. */
  lemma DollarIsReadButNotWritten(size: nat, legacy: Definition)
    requires size <= MAX_DEFINITION_BYTES
    ensures var options := Options("/n", "/e", "/", "/", ["$"]);
            && ReadStartArguments(Regular(size, Installed(options)), legacy) == Ok(Some(["$"]))
            && RenderSystemdUnit(options) == Err(UnprintableArgument)
  {
    var options := Options("/n", "/e", "/", "/", ["$"]);
    UnbrokenDefinitionReadsBack(options, size, legacy);
    assert Command(options)[3] == "$" && '$' in "$";
  }

  /**
   * Which definition the arguments come from: the legacy one only where the new one is missing, none if both
   * are, and no definition that is not a regular file of at most 256 KiB.
   */
  lemma InheritsFrom(current: Definition, legacy: Definition)
    ensures current.Missing? && legacy.Missing? ==> ReadStartArguments(current, legacy) == Ok(None)
    ensures current.Missing? ==> ReadStartArguments(current, legacy) == ReadStartArguments(legacy, Missing)
    ensures !current.Missing? ==> ReadStartArguments(current, legacy) == ReadStartArguments(current, Missing)
    ensures current.Irregular? || (current.Regular? && current.size > 262144) ==>
      ReadStartArguments(current, legacy) == Err(UnsafeDefinition)
  {
  }

  /** No NUL, no line break, no dollar sign. */
  ghost predicate Plain(s: string) { '\0' !in s && '\r' !in s && '\n' !in s && '$' !in s }

  /** Rendering refuses exactly an argument or path with a refused character, or a relative directory. */
  lemma RenderSucceedsExactly(options: Options)
    ensures RenderSystemdUnit(options).Ok? <==>
      && Plain(options.nodePath) && Plain(options.entrypointPath)
      && (forall i :: 0 <= i < |options.startArguments| ==> Plain(options.startArguments[i]))
      && ['/'] <= options.workingDirectory && Plain(options.workingDirectory) && Plain(options.path)
  {
    var args := Command(options);
    assert args[0] == options.nodePath && args[1] == options.entrypointPath && args[2] == START;
    assert args[3..] == options.startArguments;
    PrintableAppend("PATH=", options.path);
  }
}
