/** Agent operations and the argument lists they travel as: the ordered chain that reads, and the table that prints. */
module OperationCodec {
  import opened JsonText
  import opened ManagedAdminPolicy
  import opened ManagedAdminTicket
  import opened Sequences
  import opened Texts
  import opened Wrappers

  datatype Operation =
    | Hostname
    | Uname
    | LoadAvg
    | UptimePretty
    | UptimeSince
    | OsRelease
    | DiskUsage
    | Memory
    | DockerList
    | DockerRunning
    | DockerHealth(container: Text)
    | DockerInspect(container: Text)
    | DockerLogs(container: Text, lines: int)
    | DockerExec(container: Text, program: Text, argv: seq<Text>)
    | DockerAction(action: Text, container: Text)
    | ServiceStatus(unit: Text)
    | ServiceAction(action: Text, unit: Text)
    | ServiceLogs(unit: Text, lines: int)
    | GitHead(repo: Text)
    | GitLog(repo: Text)
    | GitStatus(repo: Text)
    | GitDiffStaged(repo: Text)
    | GitDiff(repo: Text)
    | FsRealpath(path: Text)
    | FsList(path: Text)
    | FsStatSize(path: Text)
    | FsReadHead(bytes: int, path: Text)

  datatype CodecError =
    | PathInvalid
    | SecretPathDenied
    | IdentifierInvalid
    | LinesInvalid
    | BytesInvalid
    | ProgramInvalid
    | ArgvInvalid
    | ArgumentInvalid
    | ActionInvalid
    | Unsupported

  type Parsed = Result<Operation, CodecError>
  type Printed = Result<seq<Text>, CodecError>

  /** `secret` is the secret-path pattern; `number` reads a text as JavaScript does, if that gives an integer. */
  datatype Reader = Reader(secret: Text -> bool, number: Text -> Option<int>) {
    ghost predicate Lawful() {
      forall n: int :: number(DecimalText(n)) == Some(n)
    }
  }

  function DecimalText(n: int): Text {
    Decimal(n)
  }

  /* The checks on arguments. */

  predicate IsIdStart(p: Point) { IsAlnum(p) }

  predicate IsIdRest(p: Point) { IsAlnum(p) || p in Ascii("_.@+-") }

  predicate IsIdentifier(t: Text) {
    1 <= |t| <= 100 && IsIdStart(t[0]) && forall i | 1 <= i < |t| :: IsIdRest(t[i])
  }

  function SafePath(t: Text, r: Reader): Result<Text, CodecError> {
    if !CwdWellFormed(t) then Err(PathInvalid) else if r.secret(t) then Err(SecretPathDenied) else Ok(t)
  }

  function SafeId(t: Text): Result<Text, CodecError> {
    if IsIdentifier(t) then Ok(t) else Err(IdentifierInvalid)
  }

  function SafeLines(n: Option<int>): Result<int, CodecError> {
    if n.Some? && 1 <= n.value <= 500 then Ok(n.value) else Err(LinesInvalid)
  }

  function SafeBytes(n: Option<int>): Result<int, CodecError> {
    if n.Some? && 1 <= n.value <= 1048576 then Ok(n.value) else Err(BytesInvalid)
  }

  function SafeProgram(t: Text): Result<Text, CodecError> {
    if IsProgram(t) then Ok(t) else Err(CodecError.ProgramInvalid)
  }

  function SafeArgv(argv: seq<Text>): Result<seq<Text>, CodecError> {
    if |argv| > 80 then Err(CodecError.ArgvInvalid)
    else if exists i | 0 <= i < |argv| :: !IsArgument(argv[i]) then Err(CodecError.ArgumentInvalid)
    else Ok(argv)
  }

  predicate IsDockerAction(t: Text) {
    t == Ascii("start") || t == Ascii("stop") || t == Ascii("restart")
  }

  predicate IsServiceAction(t: Text) {
    IsDockerAction(t) || t == Ascii("reload")
  }

  /* Reading: the chain, arranged by command. Within a command the order of the branches is kept. */

  predicate At(a: seq<Text>, i: nat, s: string) {
    i < |a| && a[i] == Ascii(s)
  }

  /** A missing argument reads as the empty text, and as no number. */
  function Arg(a: seq<Text>, i: nat): Text {
    if i < |a| then a[i] else []
  }

  function Number(a: seq<Text>, i: nat, r: Reader): Option<int> {
    if i < |a| then r.number(a[i]) else None
  }

  predicate Spaced(a: seq<Text>, s: string) {
    Join(a, [0x20]) == Ascii(s)
  }

  function ParseHost(cmd: Text, a: seq<Text>): Parsed {
    if cmd == Ascii("hostname") && |a| == 0 then Ok(Hostname)
    else if cmd == Ascii("uname") && Spaced(a, "-srm") then Ok(Uname)
    else if cmd == Ascii("cat") && |a| == 1 && At(a, 0, "/proc/loadavg") then Ok(LoadAvg)
    else if cmd == Ascii("uptime") && |a| == 1 && At(a, 0, "-p") then Ok(UptimePretty)
    else if cmd == Ascii("uptime") && |a| == 1 && At(a, 0, "-s") then Ok(UptimeSince)
    else if cmd == Ascii("df") && Spaced(a, "-hP") then Ok(DiskUsage)
    else if cmd == Ascii("free") && Spaced(a, "-b") then Ok(Memory)
    else Err(Unsupported)
  }

  function ParseDocker(a: seq<Text>, r: Reader): Parsed {
    if Spaced(a, "ps -a --format {{json .}}") then Ok(DockerList)
    else if Spaced(a, "ps -q") then Ok(DockerRunning)
    else if At(a, 0, "inspect") && At(a, 1, "--format") && At(a, 2, "{{json .State}}") && |a| == 4 then
      var container :- SafeId(a[3]);
      Ok(DockerHealth(container))
    else if At(a, 0, "inspect") && |a| == 2 then
      var container :- SafeId(a[1]);
      Ok(DockerInspect(container))
    else if At(a, 0, "logs") && At(a, 1, "--tail") && At(a, 3, "--timestamps") && |a| == 5 then
      var container :- SafeId(a[4]);
      var lines :- SafeLines(Number(a, 2, r));
      Ok(DockerLogs(container, lines))
    else if At(a, 0, "exec") && |a| >= 3 then
      var container :- SafeId(a[1]);
      var program :- SafeProgram(a[2]);
      var argv :- SafeArgv(a[3..]);
      Ok(DockerExec(container, program, argv))
    else if |a| == 2 && IsDockerAction(a[0]) then
      var container :- SafeId(a[1]);
      Ok(DockerAction(a[0], container))
    else Err(Unsupported)
  }

  function ParseService(a: seq<Text>): Parsed {
    if At(a, 0, "show") && |a| >= 2 then
      var unit :- SafeId(a[1]);
      Ok(ServiceStatus(unit))
    else if |a| == 2 && IsServiceAction(a[0]) then
      var unit :- SafeId(a[1]);
      Ok(ServiceAction(a[0], unit))
    else Err(Unsupported)
  }

  function ParseJournal(a: seq<Text>, r: Reader): Parsed {
    if At(a, 0, "-u") && At(a, 2, "-n") then
      var unit :- SafeId(Arg(a, 1));
      var lines :- SafeLines(Number(a, 3, r));
      Ok(ServiceLogs(unit, lines))
    else Err(Unsupported)
  }

  function ParseGit(a: seq<Text>, r: Reader): Parsed {
    if !At(a, 0, "-C") then Err(Unsupported)
    else if At(a, 2, "rev-parse") && At(a, 3, "HEAD") then
      var repo :- SafePath(Arg(a, 1), r);
      Ok(GitHead(repo))
    else if At(a, 2, "log") then
      var repo :- SafePath(Arg(a, 1), r);
      Ok(GitLog(repo))
    else if Ascii("status") in a then
      var repo :- SafePath(Arg(a, 1), r);
      Ok(GitStatus(repo))
    else if At(a, 2, "diff") && Ascii("--cached") in a then
      var repo :- SafePath(Arg(a, 1), r);
      Ok(GitDiffStaged(repo))
    else if At(a, 2, "diff") then
      var repo :- SafePath(Arg(a, 1), r);
      Ok(GitDiff(repo))
    else Err(Unsupported)
  }

  function ParseFiles(cmd: Text, a: seq<Text>, r: Reader): Parsed {
    if cmd == Ascii("realpath") && At(a, 0, "-e") && At(a, 1, "--") && |a| == 3 then
      var path :- SafePath(a[2], r);
      Ok(FsRealpath(path))
    else if cmd == Ascii("ls") && At(a, 0, "-la") && At(a, 1, "--time-style=long-iso") && |a| == 3 then
      var path :- SafePath(a[2], r);
      Ok(FsList(path))
    else if cmd == Ascii("stat") && At(a, 0, "-c") && At(a, 1, "%s") && |a| == 3 then
      var path :- SafePath(a[2], r);
      Ok(FsStatSize(path))
    else Err(Unsupported)
  }

  function ParseHead(a: seq<Text>, r: Reader): Parsed {
    if |a| == 3 && At(a, 0, "-n") && At(a, 1, "5") && At(a, 2, "/etc/os-release") then Ok(OsRelease)
    else if At(a, 0, "-c") && |a| == 3 then
      var bytes :- SafeBytes(Number(a, 1, r));
      var path :- SafePath(a[2], r);
      Ok(FsReadHead(bytes, path))
    else Err(Unsupported)
  }

  datatype Branch = Host | Head | Docker | Service | Journal | Git | Files

  function BranchOf(cmd: Text): Branch {
    if cmd == Ascii("hostname") || cmd == Ascii("uname") || cmd == Ascii("cat") || cmd == Ascii("uptime")
       || cmd == Ascii("df") || cmd == Ascii("free") then Host
    else if cmd == Ascii("head") then Head
    else if cmd == Ascii("docker") then Docker
    else if cmd == Ascii("systemctl") then Service
    else if cmd == Ascii("journalctl") then Journal
    else if cmd == Ascii("git") then Git
    else Files
  }

  function ArgvToAgentOperation(argv: seq<Text>, r: Reader): Parsed {
    if argv == [] then Err(Unsupported) else ParseAs(BranchOf(argv[0]), argv[0], argv[1..], r)
  }

  function ParseAs(branch: Branch, cmd: Text, a: seq<Text>, r: Reader): Parsed {
    match branch
    case Host => ParseHost(cmd, a)
    case Head => ParseHead(a, r)
    case Docker => ParseDocker(a, r)
    case Service => ParseService(a)
    case Journal => ParseJournal(a, r)
    case Git => ParseGit(a, r)
    case Files => ParseFiles(cmd, a, r)
  }

  /* Printing. */

  /** The checks made while printing; container execution and actions have no printed form. */
  function Checked(x: Operation, r: Reader): Result<(), CodecError> {
    if IsGit(x) then
      var _ :- SafePath(x.repo, r);
      Ok(())
    else if IsFile(x) then
      var _ :- SafePath(x.path, r);
      Ok(())
    else
    match x
    case DockerHealth(container) =>
      var _ :- SafeId(container);
      Ok(())
    case DockerInspect(container) =>
      var _ :- SafeId(container);
      Ok(())
    case DockerLogs(container, lines) =>
      var _ :- SafeLines(Some(lines));
      var _ :- SafeId(container);
      Ok(())
    case DockerExec(_, _, _) => Err(Unsupported)
    case DockerAction(_, _) => Err(Unsupported)
    case ServiceStatus(unit) =>
      var _ :- SafeId(unit);
      Ok(())
    case ServiceAction(action, unit) =>
      :- Need(IsServiceAction(action), ActionInvalid);
      var _ :- SafeId(unit);
      Ok(())
    case ServiceLogs(unit, lines) =>
      var _ :- SafeId(unit);
      var _ :- SafeLines(Some(lines));
      Ok(())
    case FsReadHead(bytes, path) =>
      var _ :- SafeBytes(Some(bytes));
      var _ :- SafePath(path, r);
      Ok(())
    case _ => Ok(())
  }

  predicate IsGit(x: Operation) {
    x.GitHead? || x.GitLog? || x.GitStatus? || x.GitDiff? || x.GitDiffStaged?
  }

  predicate IsFile(x: Operation) {
    x.FsRealpath? || x.FsList? || x.FsStatSize?
  }

  function CommandOf(x: Operation): string {
    match x
    case Hostname => "hostname"
    case Uname => "uname"
    case LoadAvg => "cat"
    case UptimePretty => "uptime"
    case UptimeSince => "uptime"
    case DiskUsage => "df"
    case Memory => "free"
    case OsRelease => "head"
    case FsReadHead(_, _) => "head"
    case ServiceStatus(_) => "systemctl"
    case ServiceAction(_, _) => "systemctl"
    case ServiceLogs(_, _) => "journalctl"
    case FsRealpath(_) => "realpath"
    case FsList(_) => "ls"
    case FsStatSize(_) => "stat"
    case _ => if IsGit(x) then "git" else "docker"
  }

  function WordsOf(x: Operation): seq<Text> {
    match x
    case Hostname => []
    case Uname => [Ascii("-srm")]
    case LoadAvg => [Ascii("/proc/loadavg")]
    case UptimePretty => [Ascii("-p")]
    case UptimeSince => [Ascii("-s")]
    case OsRelease => [Ascii("-n"), Ascii("5"), Ascii("/etc/os-release")]
    case DiskUsage => [Ascii("-hP")]
    case Memory => [Ascii("-b")]
    case DockerList => [Ascii("ps"), Ascii("-a"), Ascii("--format"), Ascii("{{json .}}")]
    case DockerRunning => [Ascii("ps"), Ascii("-q")]
    case DockerHealth(id) => [Ascii("inspect"), Ascii("--format"), Ascii("{{json .State}}"), id]
    case DockerInspect(id) => [Ascii("inspect"), id]
    case DockerLogs(id, n) => [Ascii("logs"), Ascii("--tail"), DecimalText(n), Ascii("--timestamps"), id]
    case ServiceStatus(id) =>
      [Ascii("show"), id, Ascii("-p"), Ascii("LoadState"), Ascii("-p"), Ascii("ActiveState"), Ascii("-p"),
       Ascii("SubState"), Ascii("-p"), Ascii("UnitFileState"), Ascii("-p"), Ascii("ExecMainPID"), Ascii("-p"),
       Ascii("MemoryCurrent"), Ascii("-p"), Ascii("NRestarts"), Ascii("-p"), Ascii("FragmentPath"),
       Ascii("--no-pager")]
    case ServiceLogs(id, n) =>
      [Ascii("-u"), id, Ascii("-n"), DecimalText(n), Ascii("--no-pager"), Ascii("-o"), Ascii("short-iso")]
    case ServiceAction(action, id) => [action, id]
    case GitHead(repo) => [Ascii("-C"), repo, Ascii("rev-parse"), Ascii("HEAD")]
    case GitLog(repo) => [Ascii("-C"), repo, Ascii("log"), Ascii("-1"), Ascii("--format=%H%n%an%n%aI%n%s")]
    case GitStatus(repo) =>
      [Ascii("-C"), repo, Ascii("-c"), Ascii("core.quotepath=false"), Ascii("status"), Ascii("--porcelain=v1"),
       Ascii("-b")]
    case GitDiff(repo) => [Ascii("-C"), repo, Ascii("diff"), Ascii("--stat")]
    case GitDiffStaged(repo) => [Ascii("-C"), repo, Ascii("diff"), Ascii("--cached"), Ascii("--stat")]
    case FsRealpath(path) => [Ascii("-e"), Ascii("--"), path]
    case FsList(path) => [Ascii("-la"), Ascii("--time-style=long-iso"), path]
    case FsStatSize(path) => [Ascii("-c"), Ascii("%s"), path]
    case FsReadHead(n, path) => [Ascii("-c"), DecimalText(n), path]
    case _ => []
  }

  function OperationArgv(x: Operation, r: Reader): Printed {
    var _ :- Checked(x, r);
    Ok([Ascii(CommandOf(x))] + WordsOf(x))
  }

  /* Round trip. */

  lemma AsciiIsInjective(s: string, t: string)
    requires Ascii(s) == Ascii(t)
    ensures s == t
  {
    assert |s| == |Ascii(s)| == |Ascii(t)| == |t|;
    forall i | 0 <= i < |s| ensures s[i] == t[i] {
      assert Ascii(s)[i] == Ascii(t)[i];
    }
  }

  lemma Literal(s: string, t: string)
    ensures Ascii(s) == Ascii(t) <==> s == t
  {
    if Ascii(s) == Ascii(t) {
      AsciiIsInjective(s, t);
    }
  }

  /** Which branch a literal command reaches. */
  function LiteralBranch(cmd: string): Branch {
    if cmd == "hostname" || cmd == "uname" || cmd == "cat" || cmd == "uptime" || cmd == "df" || cmd == "free" then Host
    else if cmd == "head" then Head
    else if cmd == "docker" then Docker
    else if cmd == "systemctl" then Service
    else if cmd == "journalctl" then Journal
    else if cmd == "git" then Git
    else Files
  }

  lemma BranchOfLiteral(cmd: string)
    ensures BranchOf(Ascii(cmd)) == LiteralBranch(cmd)
  {
    Literal(cmd, "hostname");
    Literal(cmd, "uname");
    Literal(cmd, "cat");
    Literal(cmd, "uptime");
    Literal(cmd, "df");
    Literal(cmd, "free");
    Literal(cmd, "head");
    Literal(cmd, "docker");
    Literal(cmd, "systemctl");
    Literal(cmd, "journalctl");
    Literal(cmd, "git");
  }

  lemma GitIsRead(a: seq<Text>, repo: Text, r: Reader)
    requires |a| >= 3 && a[0] == Ascii("-C") && a[1] == repo && SafePath(repo, r).Ok?
    ensures |a| >= 4 && a[2] == Ascii("rev-parse") && a[3] == Ascii("HEAD") ==> ParseGit(a, r) == Ok(GitHead(repo))
    ensures a[2] == Ascii("log") ==> ParseGit(a, r) == Ok(GitLog(repo))
    ensures a[2] == Ascii("-c") && Ascii("status") in a ==> ParseGit(a, r) == Ok(GitStatus(repo))
    ensures a[2] == Ascii("diff") && Ascii("status") !in a ==>
              ParseGit(a, r) == Ok(if Ascii("--cached") in a then GitDiffStaged(repo) else GitDiff(repo))
  {
    Literal("log", "rev-parse");
    Literal("-c", "rev-parse");
    Literal("-c", "log");
    Literal("diff", "rev-parse");
    Literal("diff", "log");
  }

  lemma GitDiffWords(repo: Text, r: Reader)
    requires SafePath(repo, r).Ok?
    ensures Ascii("status") !in [Ascii("-C"), repo, Ascii("diff"), Ascii("--stat")]
    ensures Ascii("--cached") !in [Ascii("-C"), repo, Ascii("diff"), Ascii("--stat")]
    ensures Ascii("status") !in [Ascii("-C"), repo, Ascii("diff"), Ascii("--cached"), Ascii("--stat")]
  {
    Literal("status", "-C");
    Literal("status", "diff");
    Literal("status", "--stat");
    Literal("status", "--cached");
    Literal("--cached", "-C");
    Literal("--cached", "diff");
    Literal("--cached", "--stat");
    assert Ascii("status")[0] != repo[0] && Ascii("--cached")[0] != repo[0];
  }

  lemma GitRoundTrip(x: Operation, r: Reader)
    requires IsGit(x) && SafePath(x.repo, r).Ok?
    ensures ParseGit(WordsOf(x), r) == Ok(x)
  {
    var a := WordsOf(x);
    GitIsRead(a, x.repo, r);
    if x.GitStatus? {
      assert a[4] == Ascii("status");
    } else if x.GitDiff? {
      GitDiffWords(x.repo, r);
    } else if x.GitDiffStaged? {
      GitDiffWords(x.repo, r);
      assert a[3] == Ascii("--cached");
    }
  }

  lemma FileRoundTrip(x: Operation, r: Reader)
    requires IsFile(x) && SafePath(x.path, r).Ok?
    ensures ParseFiles(Ascii(CommandOf(x)), WordsOf(x), r) == Ok(x)
  {
    Literal("ls", "realpath");
    Literal("stat", "realpath");
    Literal("stat", "ls");
  }

  lemma HeadRoundTrip(x: Operation, r: Reader)
    requires (x.OsRelease? || x.FsReadHead?) && Checked(x, r).Ok? && r.Lawful()
    ensures ParseHead(WordsOf(x), r) == Ok(x)
  {
    Literal("-c", "-n");
  }

  lemma ServiceRoundTrip(x: Operation, r: Reader)
    requires (x.ServiceStatus? || x.ServiceAction?) && Checked(x, r).Ok?
    ensures ParseService(WordsOf(x)) == Ok(x)
  {
    Literal("show", "start");
    Literal("show", "stop");
    Literal("show", "restart");
    Literal("show", "reload");
  }

  lemma JournalRoundTrip(x: Operation, r: Reader)
    requires x.ServiceLogs? && Checked(x, r).Ok? && r.Lawful()
    ensures ParseJournal(WordsOf(x), r) == Ok(x)
  {
  }

  predicate IsHost(x: Operation) {
    x.Hostname? || x.Uname? || x.LoadAvg? || x.UptimePretty? || x.UptimeSince? || x.DiskUsage? || x.Memory?
  }

  lemma HostRoundTrip(x: Operation)
    requires IsHost(x)
    ensures ParseHost(Ascii(CommandOf(x)), WordsOf(x)) == Ok(x)
  {
    var cmd := CommandOf(x);
    Literal(cmd, "hostname");
    Literal(cmd, "uname");
    Literal(cmd, "cat");
    Literal(cmd, "uptime");
    Literal(cmd, "df");
    Literal(cmd, "free");
    Literal("-s", "-p");
  }

  lemma JoinStart(a: seq<Text>, sep: Text)
    requires a != [] && a[0] != []
    ensures Join(a, sep) != [] && Join(a, sep)[0] == a[0][0]
  {
  }

  /** Only a list starting with "p" can read as one of the two `docker ps` forms. */
  lemma NotPs(a: seq<Text>)
    requires a != [] && a[0] != [] && a[0][0] != 'p' as int
    ensures !Spaced(a, "ps -a --format {{json .}}") && !Spaced(a, "ps -q")
  {
    JoinStart(a, [0x20]);
    assert Ascii("ps -a --format {{json .}}")[0] == 'p' as int && Ascii("ps -q")[0] == 'p' as int;
  }

  lemma OneJoined(s: string)
    ensures Join([Ascii(s)], [0x20]) == Ascii(s)
  {
  }

  lemma OneMoreJoined(s: string, rest: seq<Text>, joined: string)
    requires rest != [] && Join(rest, [0x20]) == Ascii(joined)
    ensures Join([Ascii(s)] + rest, [0x20]) == Ascii(s + " " + joined)
  {
    assert ([Ascii(s)] + rest)[1..] == rest;
    assert Ascii(s) + [0x20] + Ascii(joined) == Ascii(s + " " + joined);
  }

  lemma ListForm()
    ensures Spaced(WordsOf(DockerList), "ps -a --format {{json .}}")
  {
    var format, all := [Ascii("--format"), Ascii("{{json .}}")], [Ascii("-a"), Ascii("--format"), Ascii("{{json .}}")];
    OneJoined("{{json .}}");
    OneMoreJoined("--format", [Ascii("{{json .}}")], "{{json .}}");
    assert format == [Ascii("--format")] + [Ascii("{{json .}}")];
    OneMoreJoined("-a", format, "--format" + " " + "{{json .}}");
    assert all == [Ascii("-a")] + format;
    OneMoreJoined("ps", all, "-a" + " " + ("--format" + " " + "{{json .}}"));
    assert WordsOf(DockerList) == [Ascii("ps")] + all;
    assert "ps" + " " + ("-a" + " " + ("--format" + " " + "{{json .}}")) == "ps -a --format {{json .}}";
  }

  lemma RunningForm()
    ensures Spaced(WordsOf(DockerRunning), "ps -q") && !Spaced(WordsOf(DockerRunning), "ps -a --format {{json .}}")
  {
    OneJoined("-q");
    OneMoreJoined("ps", [Ascii("-q")], "-q");
    assert WordsOf(DockerRunning) == [Ascii("ps")] + [Ascii("-q")];
    assert "ps" + " " + "-q" == "ps -q";
    Literal("ps -q", "ps -a --format {{json .}}");
  }

  lemma DockerRoundTrip(x: Operation, r: Reader)
    requires CommandOf(x) == "docker" && Checked(x, r).Ok? && r.Lawful()
    ensures ParseDocker(WordsOf(x), r) == Ok(x)
  {
    if x.DockerList? {
      ListForm();
    } else if x.DockerRunning? {
      RunningForm();
    } else {
      assert Ascii("inspect")[0] == 'i' as int && Ascii("logs")[0] == 'l' as int;
      NotPs(WordsOf(x));
      Literal("logs", "inspect");
    }
  }

  lemma BranchRoundTrip(x: Operation, r: Reader)
    requires Checked(x, r).Ok? && r.Lawful()
    ensures ParseAs(LiteralBranch(CommandOf(x)), Ascii(CommandOf(x)), WordsOf(x), r) == Ok(x)
  {
    match LiteralBranch(CommandOf(x))
    case Host => HostRoundTrip(x);
    case Head => HeadRoundTrip(x, r);
    case Docker => DockerRoundTrip(x, r);
    case Service => ServiceRoundTrip(x, r);
    case Journal => JournalRoundTrip(x, r);
    case Git => GitRoundTrip(x, r);
    case Files => FileRoundTrip(x, r);
  }

  /** Reading what was printed gives the operation back, for every operation that prints. */
  lemma ParseOfPrint(x: Operation, r: Reader)
    requires OperationArgv(x, r).Ok? && r.Lawful()
    ensures ArgvToAgentOperation(OperationArgv(x, r).value, r) == Ok(x)
  {
    DropAppended([Ascii(CommandOf(x))], WordsOf(x));
    BranchOfLiteral(CommandOf(x));
    BranchRoundTrip(x, r);
  }

  /** No two operations print alike. */
  lemma PrintIsInjective(x: Operation, y: Operation, r: Reader)
    requires r.Lawful() && OperationArgv(x, r).Ok? && OperationArgv(x, r) == OperationArgv(y, r)
    ensures x == y
  {
    ParseOfPrint(x, r);
    ParseOfPrint(y, r);
  }

  predicate Unprinted(x: Operation) {
    x.DockerExec? || x.DockerAction?
  }

  lemma DockerReadIsChecked(a: seq<Text>, r: Reader)
    requires ParseDocker(a, r).Ok?
    ensures Checked(ParseDocker(a, r).value, r).Ok? <==> !Unprinted(ParseDocker(a, r).value)
  {
  }

  lemma GitReadIsChecked(a: seq<Text>, r: Reader)
    requires ParseGit(a, r).Ok?
    ensures IsGit(ParseGit(a, r).value) && Checked(ParseGit(a, r).value, r).Ok?
  {
  }

  lemma ServiceReadIsChecked(a: seq<Text>, r: Reader)
    ensures ParseService(a).Ok? ==> Checked(ParseService(a).value, r).Ok? && !Unprinted(ParseService(a).value)
    ensures ParseJournal(a, r).Ok? ==> Checked(ParseJournal(a, r).value, r).Ok? && !Unprinted(ParseJournal(a, r).value)
  {
  }

  lemma FileReadIsChecked(cmd: Text, a: seq<Text>, r: Reader)
    ensures ParseFiles(cmd, a, r).Ok? ==>
              IsFile(ParseFiles(cmd, a, r).value) && Checked(ParseFiles(cmd, a, r).value, r).Ok?
  {
  }

  lemma HostReadIsChecked(cmd: Text, a: seq<Text>, r: Reader)
    ensures ParseHost(cmd, a).Ok? ==> IsHost(ParseHost(cmd, a).value)
    ensures ParseHead(a, r).Ok? ==> Checked(ParseHead(a, r).value, r).Ok? && !Unprinted(ParseHead(a, r).value)
  {
  }

  /** Whatever is read can be printed, except container execution and container actions. */
  lemma ReadIsPrintable(argv: seq<Text>, r: Reader)
    requires ArgvToAgentOperation(argv, r).Ok?
    ensures var x := ArgvToAgentOperation(argv, r).value; OperationArgv(x, r).Ok? <==> !Unprinted(x)
  {
    var cmd, a := argv[0], argv[1..];
    match BranchOf(cmd)
    case Docker => DockerReadIsChecked(a, r);
    case Git => GitReadIsChecked(a, r);
    case Files => FileReadIsChecked(cmd, a, r);
    case Service => ServiceReadIsChecked(a, r);
    case Journal => ServiceReadIsChecked(a, r);
    case _ => HostReadIsChecked(cmd, a, r);
  }

  /** Printing what was read gives a canonical list: it reads as the same operation, and prints as itself. */
  lemma CanonicalFormIsStable(argv: seq<Text>, r: Reader)
    requires r.Lawful() && ArgvToAgentOperation(argv, r).Ok? && !Unprinted(ArgvToAgentOperation(argv, r).value)
    ensures OperationArgv(ArgvToAgentOperation(argv, r).value, r).Ok?
    ensures var canonical := OperationArgv(ArgvToAgentOperation(argv, r).value, r).value;
            && ArgvToAgentOperation(canonical, r) == ArgvToAgentOperation(argv, r)
            && OperationArgv(ArgvToAgentOperation(canonical, r).value, r) == Ok(canonical)
  {
    ReadIsPrintable(argv, r);
    ParseOfPrint(ArgvToAgentOperation(argv, r).value, r);
  }

  lemma {:induction false} JoinGlues(before: seq<Text>, x: Text, y: Text, rest: seq<Text>, sep: Text)
    ensures Join(before + [x, y] + rest, sep) == Join(before + [x + sep + y] + rest, sep)
  {
    var two, one := before + [x, y] + rest, before + [x + sep + y] + rest;
    if before == [] {
      assert two[1..] == [y] + rest && one[1..] == rest;
      if rest != [] {
        assert ([y] + rest)[1..] == rest;
        JoinAssociates(x, sep, y, Join(rest, sep));
      }
    } else {
      assert two[1..] == before[1..] + [x, y] + rest && one[1..] == before[1..] + [x + sep + y] + rest;
      JoinGlues(before[1..], x, y, rest, sep);
    }
  }

  lemma JoinAssociates(x: Text, sep: Text, y: Text, z: Text)
    ensures x + sep + (y + sep + z) == (x + sep + y) + sep + z
  {
    AppendIsAssociative(x + sep, y + sep, z);
    AppendIsAssociative(x + sep, y, sep);
  }

  /** The operations the chain recognizes by joining all words. */
  predicate ReadJoined(x: Operation) {
    x.Uname? || x.DiskUsage? || x.Memory? || x.DockerList? || x.DockerRunning?
  }

  lemma JoinedWordsDecide(cmd: Text, a: seq<Text>, b: seq<Text>, x: Operation, r: Reader)
    requires ReadJoined(x) && Join(a, [0x20]) == Join(b, [0x20])
    ensures ParseAs(BranchOf(cmd), cmd, a, r) == Ok(x) ==> ParseAs(BranchOf(cmd), cmd, b, r) == Ok(x)
  {
    match BranchOf(cmd)
    case Host =>
    case Docker =>
    case _ => NotJoined(cmd, a, r);
  }

  lemma NotJoined(cmd: Text, a: seq<Text>, r: Reader)
    ensures ParseHead(a, r).Ok? ==> !ReadJoined(ParseHead(a, r).value)
    ensures ParseService(a).Ok? ==> !ReadJoined(ParseService(a).value)
    ensures ParseJournal(a, r).Ok? ==> !ReadJoined(ParseJournal(a, r).value)
    ensures ParseGit(a, r).Ok? ==> !ReadJoined(ParseGit(a, r).value)
    ensures ParseFiles(cmd, a, r).Ok? ==> !ReadJoined(ParseFiles(cmd, a, r).value)
  {
  }

  /** Where the chain compares joined words, any two neighbours written as one word with a blank read the same. */
  lemma GluedWordsRead(
    cmd: Text, before: seq<Text>, x: Text, y: Text, rest: seq<Text>, operation: Operation, r: Reader)
    requires ReadJoined(operation)
    ensures ArgvToAgentOperation([cmd] + (before + [x, y] + rest), r) == Ok(operation) <==>
            ArgvToAgentOperation([cmd] + (before + [x + [0x20] + y] + rest), r) == Ok(operation)
  {
    var two, one := before + [x, y] + rest, before + [x + [0x20] + y] + rest;
    JoinGlues(before, x, y, rest, [0x20]);
    DropAppended([cmd], two);
    DropAppended([cmd], one);
    JoinedWordsDecide(cmd, two, one, operation, r);
    JoinedWordsDecide(cmd, one, two, operation, r);
  }

  /** So the word "ps -q" alone lists the running containers. */
  lemma OneWordListsRunning(r: Reader)
    ensures ArgvToAgentOperation([Ascii("docker"), Ascii("ps -q")], r) == Ok(DockerRunning)
  {
    var argv := [Ascii("docker"), Ascii("ps -q")];
    assert argv[1..] == [Ascii("ps -q")];
    BranchOfLiteral("docker");
    OneJoined("ps -q");
    Literal("ps -q", "ps -a --format {{json .}}");
  }
}
