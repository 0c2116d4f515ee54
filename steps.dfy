/**
 * The build as a sequence of steps over a machine state: the file system,
 * the trace of what happened, the number of shell commands issued so far
 * and whether the process is still running. A step taken after the
 * process has exited does nothing, which is how sys.exit and an uncaught
 * exception end every later stage.
 */
module Steps {
  import opened Text
  import opened Wrappers
  import opened Naming
  import opened ConfigFiles
  import opened ProfileJson
  import opened FileSys
  import opened Shell

  const ApiServerPackage := "github.com/projectOpenRAP/OpenRAP/apiserver"

  /** The shell commands the build hands to run_cmd. */
  datatype Command =
    | GoGetDep
    | LinkApiServer(parent: Path)
    | DepEnsure(parent: Path)
      /** `cp -r from+name into`: the tree from+name lands at into+name. */
    | Copy(from: Path, name: string, into: Path, force: bool)
    | CompileApiServer(img: Path)
    | Tar(out: Path, archive: string)
    | Remove(dir: Path)
  {
    /** The command line as the shell receives it. */
    function Line(): string {
      match this
      case GoGetDep => "go get -u github.com/golang/dep/cmd/dep"
      case LinkApiServer(parent) => "cd " + parent + " && ln -s ../../../../../../apiserver"
      case DepEnsure(parent) => "cd " + parent + "apiserver" + " && dep ensure"
      case Copy(from, name, into, force) => (if force then "cp -rf " else "cp -r ") + from + name + " " + into
      case CompileApiServer(img) =>
        "cd " + img + "CDN/" + " && env CGO_ENABLED=0 GOOS=linux GOARCH=arm go build " + ApiServerPackage
      case Tar(out, archive) => "cd " + DistDir(out) + " && tar -zcf " + archive + "   ../opencdn"
      case Remove(dir) => "rm -rf  " + dir
    }
  }

  /** As written, the clean command leaves the directory unquoted, so the
      shell splits a directory holding a blank: `rm` receives the pieces
      as separate operands, and none of them is the directory. */
  lemma RemoveLineSplits(a: string, b: string)
    requires Plain(a) && a != [] && Plain(b) && b != []
    ensures Words(Remove(a + " " + b).Line()) == ["rm", "-rf", a, b]
  {
    var line := Remove(a + " " + b).Line();
    assert line == "rm" + " " + ("-rf" + " " + (" " + (a + " " + b)));
    assert Plain("rm") by { assert "rm"[0] == 'r' && "rm"[1] == 'm'; }
    assert Plain("-rf") by { assert "-rf"[0] == '-' && "-rf"[1] == 'r' && "-rf"[2] == 'f'; }
    WordThenBlank("rm", "-rf" + " " + (" " + (a + " " + b)));
    WordThenBlank("-rf", " " + (a + " " + b));
    LeadingBlank(a + " " + b);
    WordThenBlank(a, b);
    LastWord(b);
  }

  /** The clean command with its operand quoted. */
  function QuotedRemoveLine(dir: Path): string {
    "rm -rf  " + Quote(dir)
  }

  /** Quoted, the directory reaches `rm` as its one operand whatever blanks
      it holds; this is the command whose effect Effect gives for Remove. */
  lemma QuotedRemoveWords(dir: Path)
    requires '\'' !in dir
    ensures Words(QuotedRemoveLine(dir)) == ["rm", "-rf", dir]
  {
    assert QuotedRemoveLine(dir) == "rm" + " " + ("-rf" + " " + (" " + Quote(dir)));
    assert Plain("rm") by { assert "rm"[0] == 'r' && "rm"[1] == 'm'; }
    assert Plain("-rf") by { assert "-rf"[0] == '-' && "-rf"[1] == 'r' && "-rf"[2] == 'f'; }
    WordThenBlank("rm", "-rf" + " " + (" " + Quote(dir)));
    WordThenBlank("-rf", " " + Quote(dir));
    LeadingBlank(Quote(dir));
    QuotedWord(dir);
  }

  /** A path as the shell resolves it from the working directory base. */
  function Resolve(base: Path, p: Path): Path {
    if StartsWith(p, "/") then p else base + p
  }

  /** What a command that exits with status 0 does to the file system. The
      Go toolchain commands change nothing the model tracks. */
  function Effect(base: Path, fs: Fs, cmd: Command): Fs {
    match cmd
    case GoGetDep => fs
    case LinkApiServer(_) => fs
    case DepEnsure(_) => fs
    case Copy(from, name, into, _) => CopyTree(fs, Resolve(base, from) + name + "/", into + name + "/")
    case CompileApiServer(img) => fs.(files := fs.files[img + "CDN/apiserver" := Executable(ApiServerPackage)])
    case Tar(out, archive) => fs.(files := fs.files[DistDir(out) + archive := Archive(Subtree(fs.files, ImgDir(out)))])
    case Remove(dir) => RemoveTree(fs, dir)
  }

  datatype Stage = Prepare | Config | Build

  /** The exceptions the script does not catch. */
  datatype Fault =
    | NotADirectory(path: Path)
    | CannotOpen(path: Path)
    | Undecodable(path: Path)
    | Unparsable(path: Path)
    | NoVersionLine(path: Path)
    | NotAnObject(path: Path)

  datatype Event =
    | Ran(cmd: Command, status: int)
    | Made(dir: Path)
    | LogOpened(path: Path)
    | Wrote(path: Path)
    | Hook(stage: Stage)
    | GoMissing
    | Raised(fault: Fault)

  datatype Status = Running | Exited(code: int)

  /** The working directory as the script forms it from $PWD: an absolute
      path with a trailing "/", so a path built on it resolves to itself. */
  type AbsPath = p: Path | StartsWith(p, "/") && EndsWith(p, "/") witness "/"

  /** What the build cannot see into: its working directory (absolute,
      with a trailing "/"), whether a `go` executable is on the PATH, and the exit
      status the shell reports for the n-th command issued. */
  datatype World = World(base: AbsPath, goFound: bool, shell: nat -> int)

  datatype Machine = Machine(fs: Fs, trace: seq<Event>, issued: nat, status: Status)

  datatype Step =
    | RunCmd(cmd: Command)
    | MakeDir(path: Path)
    | OpenLog(dir: Path)
    | WriteText(dir: Path, name: string, text: string)
    | UpdateHostapd(dir: Path, name: string, hostname: string)
    | UpdateProfileJson(dir: Path, name: string, profile: string)
    | BoardHook(stage: Stage)
    | GolangInit
    | Package(out: Path, profile: string)

  // ---------------------------------------------------------------------
  // One step

  /** run_cmd: the command is issued; a non-zero status ends the process
      with that status and the command's effect is not recorded. */
  function RunCommand(w: World, m: Machine, cmd: Command): (next: Machine)
    ensures next.trace == m.trace + [Ran(cmd, w.shell(m.issued))]
    ensures next.issued == m.issued + 1
    ensures next.status == if w.shell(m.issued) == 0 then m.status else Exited(w.shell(m.issued))
    ensures next.fs == if w.shell(m.issued) == 0 then Effect(w.base, m.fs, cmd) else m.fs
  {
    var code := w.shell(m.issued);
    var issued := m.(trace := m.trace + [Ran(cmd, code)], issued := m.issued + 1);
    if code == 0 then issued.(fs := Effect(w.base, m.fs, cmd)) else issued.(status := Exited(code))
  }

  /** Commands run one after another until one of them fails. */
  function RunCommands(w: World, m: Machine, cmds: seq<Command>): (next: Machine)
    decreases |cmds|
  {
    if cmds == [] || m.status.Exited? then m
    else RunCommands(w, RunCommand(w, m, cmds[0]), cmds[1..])
  }

  /** An uncaught exception: the interpreter exits with status 1. */
  function Raise(m: Machine, fault: Fault): (next: Machine)
    ensures next.fs == m.fs && next.issued == m.issued
  {
    m.(trace := m.trace + [Raised(fault)], status := Exited(1))
  }

  function FaultOf(e: ReadError, path: Path): Fault {
    match e
    case Missing => CannotOpen(path)
    case NotText => Undecodable(path)
    case NotJson => Unparsable(path)
  }

  /** open(dir + name, "w").write(...) */
  function WriteContent(m: Machine, dir: Path, name: string, c: Content): (next: Machine)
  {
    match Write(m.fs, dir, name, c)
    case None => Raise(m, CannotOpen(dir + name))
    case Some(fs) => m.(fs := fs, trace := m.trace + [Wrote(dir + name)])
  }

  function GoDirs(base: Path): seq<Path> {
    [GoPath(base), GoPath(base) + "bin", GoPath(base) + "src", GoPath(base) + "pkg", ApiServerParentDir(base)]
  }

  function GoCommands(base: Path): seq<Command> {
    [GoGetDep, LinkApiServer(ApiServerParentDir(base)), DepEnsure(ApiServerParentDir(base))]
  }

  /** golang_init: without a `go` executable the script exits with status 0;
      with an existing GOPATH directory it does nothing; otherwise it makes
      the GOPATH tree (stopping quietly at the first failure) and runs the
      three toolchain commands. */
  function GoInit(w: World, m: Machine): (next: Machine)
  {
    if !w.goFound then m.(trace := m.trace + [GoMissing], status := Exited(0))
    else if IsDir(m.fs, GoPath(w.base)) then m
    else RunCommands(w, m.(fs := MakeAll(m.fs, GoDirs(w.base))), GoCommands(w.base))
  }

  /** The toolchain commands of golang_init leave the file system as they
      found it, whatever their exit status. */
  lemma {:induction false} ToolCommandsKeepFs(w: World, m: Machine, cmds: seq<Command>)
    requires forall i :: 0 <= i < |cmds| ==> cmds[i].GoGetDep? || cmds[i].LinkApiServer? || cmds[i].DepEnsure?
    ensures RunCommands(w, m, cmds).fs == m.fs
    decreases |cmds|
  {
    if cmds != [] && m.status.Running? {
      var rest := cmds[1..];
      assert forall i :: 0 <= i < |rest| ==> rest[i].GoGetDep? || rest[i].LinkApiServer? || rest[i].DepEnsure? by {
        forall i | 0 <= i < |rest| ensures rest[i].GoGetDep? || rest[i].LinkApiServer? || rest[i].DepEnsure? {
          assert rest[i] == cmds[i + 1];
        }
      }
      ToolCommandsKeepFs(w, RunCommand(w, m, cmds[0]), rest);
    }
  }

  /** golang_init that lets the process go on found `go`, keeps every file
      and loses no directory; GOPATH is a directory afterwards whenever it
      was one before or os.makedirs could create it. */
  lemma GoInitDirs(w: World, m: Machine)
    requires m.status.Running? && GoInit(w, m).status.Running?
    ensures w.goFound
    ensures GoInit(w, m).fs.files == m.fs.files && m.fs.dirs <= GoInit(w, m).fs.dirs
    ensures IsDir(m.fs, GoPath(w.base)) || MakeDirs(m.fs, GoPath(w.base)).Some? ==> IsDir(GoInit(w, m).fs, GoPath(w.base))
  {
    GoInitKeeps(w, m);
    if w.goFound {
      GoInitMakesGoPath(w, m);
    }
  }

  lemma GoInitKeeps(w: World, m: Machine)
    ensures GoInit(w, m).fs.files == m.fs.files && m.fs.dirs <= GoInit(w, m).fs.dirs
  {
    if w.goFound && !IsDir(m.fs, GoPath(w.base)) {
      MakeThenRun(w, m, GoDirs(w.base), GoCommands(w.base));
    }
  }

  lemma GoInitMakesGoPath(w: World, m: Machine)
    requires w.goFound
    ensures IsDir(m.fs, GoPath(w.base)) || MakeDirs(m.fs, GoPath(w.base)).Some? ==> IsDir(GoInit(w, m).fs, GoPath(w.base))
  {
    if !IsDir(m.fs, GoPath(w.base)) {
      MakeThenRun(w, m, GoDirs(w.base), GoCommands(w.base));
      assert GoDirs(w.base)[0] == GoPath(w.base);
    }
  }

  /** The try block of makedirs calls followed by the toolchain commands. */
  lemma MakeThenRun(w: World, m: Machine, ps: seq<Path>, cmds: seq<Command>)
    requires ps != []
    requires forall i :: 0 <= i < |cmds| ==> cmds[i].GoGetDep? || cmds[i].LinkApiServer? || cmds[i].DepEnsure?
    ensures var next := RunCommands(w, m.(fs := MakeAll(m.fs, ps)), cmds);
            && next.fs.files == m.fs.files && m.fs.dirs <= next.fs.dirs
            && (MakeDirs(m.fs, ps[0]).Some? ==> IsDir(next.fs, ps[0]))
  {
    ToolCommandsKeepFs(w, m.(fs := MakeAll(m.fs, ps)), cmds);
    MakeAllFirst(m.fs, ps);
  }

  /** The directory the try block makes first is there afterwards whenever
      os.makedirs could make it. */
  lemma MakeAllFirst(fs: Fs, ps: seq<Path>)
    requires ps != []
    ensures MakeDirs(fs, ps[0]).Some? ==> IsDir(MakeAll(fs, ps), ps[0])
  {
    if MakeDirs(fs, ps[0]).Some? {
      var next := MakeDirs(fs, ps[0]).value;
      assert MakeAll(fs, ps) == MakeAll(next, ps[1..]);
    }
  }

  /** version_get: the first line of the version file; an empty file has
      no first line and the lookup raises. */
  function VersionGet(fs: Fs, path: Path): (r: Result<string, Fault>)
    ensures r.Ok? <==> path in fs.files && !IsDir(fs, path) && fs.files[path].TextFile? && fs.files[path].text != []
    ensures r.Ok? ==> r.value == FirstLine(Translate(fs.files[path].text))
  {
    match ReadText(fs, path)
    case Err(e) => Err(FaultOf(e, path))
    case Ok(raw) =>
      var text := Translate(raw);
      if text == [] then Err(NoVersionLine(path)) else Ok(FirstLine(text))
  }

  /** Profile.do_pkg after its base: give the version the profile suffix,
      write it back and archive the staging tree under the name the
      rewritten version gives. */
  function PackageImage(w: World, m: Machine, out: Path, profile: string): (next: Machine)
  {
    var dir := ImgDir(out) + "CDN/";
    match VersionGet(m.fs, dir + "version.txt")
    case Err(fault) => Raise(m, fault)
    case Ok(word) =>
      var version := RewriteVersion(word, profile);
      match Write(m.fs, dir, "version.txt", TextFile(version))
      case None => Raise(m, CannotOpen(dir + "version.txt"))
      case Some(fs) =>
        RunCommand(w, m.(fs := fs, trace := m.trace + [Wrote(dir + "version.txt")]), Tar(out, ArchiveName(version)))
  }

  /** The successful path through PackageImage, for a version file read
      and written as given. */
  lemma PackageImageTar(w: World, m: Machine, out: Path, profile: string, word: string, fs: Fs)
    requires VersionGet(m.fs, ImgDir(out) + "CDN/" + "version.txt") == Ok(word)
    requires Write(m.fs, ImgDir(out) + "CDN/", "version.txt", TextFile(RewriteVersion(word, profile))) == Some(fs)
    ensures PackageImage(w, m, out, profile)
            == RunCommand(w, m.(fs := fs, trace := m.trace + [Wrote(ImgDir(out) + "CDN/" + "version.txt")]),
                          Tar(out, ArchiveName(RewriteVersion(word, profile))))
  {
  }

  /** The guarded creation of a build directory. */
  function MakeDirStep(m: Machine, path: Path): (next: Machine)
  {
    match EnsureDir(m.fs, path)
    case None => Raise(m, NotADirectory(path))
    case Some(fs) => m.(fs := fs, trace := m.trace + [Made(path)])
  }

  /** Opening the log file in append mode: it is created when missing and
      kept as it is otherwise. */
  function OpenLogStep(m: Machine, dir: Path): (next: Machine)
  {
    var path := dir + BuildLogFile;
    match Write(m.fs, dir, BuildLogFile, TextFile(""))
    case None => Raise(m, CannotOpen(path))
    case Some(created) =>
      m.(fs := if path in m.fs.files then m.fs else created, trace := m.trace + [LogOpened(path)])
  }

  /** file_hostapdconf_update: read the file, write back its rewrite. */
  function UpdateHostapdStep(m: Machine, dir: Path, name: string, hostname: string): (next: Machine)
  {
    match ReadText(m.fs, dir + name)
    case Err(e) => Raise(m, FaultOf(e, dir + name))
    case Ok(raw) => WriteContent(m, dir, name, TextFile(HostapdConf(raw, hostname)))
  }

  /** file_profilejson_update: load the document, make the profile active,
      write it back. */
  function UpdateProfileJsonStep(m: Machine, dir: Path, name: string, profile: string): (next: Machine)
  {
    match ReadJson(m.fs, dir + name)
    case Err(e) => Raise(m, FaultOf(e, dir + name))
    case Ok(doc) =>
      match SetActiveProfile(doc, profile)
      case None => Raise(m, NotAnObject(dir + name))
      case Some(updated) => WriteContent(m, dir, name, Document(updated))
  }

  /** One step; once the process has exited, nothing happens. */
  function Exec(w: World, m: Machine, s: Step): (next: Machine)
  {
    if m.status.Exited? then m
    else match s
      case RunCmd(cmd) => RunCommand(w, m, cmd)
      case MakeDir(path) => MakeDirStep(m, path)
      case OpenLog(dir) => OpenLogStep(m, dir)
      case WriteText(dir, name, text) => WriteContent(m, dir, name, TextFile(text))
      case UpdateHostapd(dir, name, hostname) => UpdateHostapdStep(m, dir, name, hostname)
      case UpdateProfileJson(dir, name, profile) => UpdateProfileJsonStep(m, dir, name, profile)
      case BoardHook(stage) => m.(trace := m.trace + [Hook(stage)])
      case GolangInit => GoInit(w, m)
      case Package(out, profile) => PackageImage(w, m, out, profile)
  }

  // Some kinds of step, as Exec takes them.

  lemma ExecRunCmd(w: World, m: Machine, cmd: Command)
    ensures Exec(w, m, RunCmd(cmd)) == if m.status.Exited? then m else RunCommand(w, m, cmd)
  {
  }

  lemma ExecWriteText(w: World, m: Machine, dir: Path, name: string, text: string)
    ensures Exec(w, m, WriteText(dir, name, text)) == if m.status.Exited? then m else WriteContent(m, dir, name, TextFile(text))
  {
  }

  lemma ExecUpdateHostapd(w: World, m: Machine, dir: Path, name: string, hostname: string)
    ensures Exec(w, m, UpdateHostapd(dir, name, hostname))
         == if m.status.Exited? then m else UpdateHostapdStep(m, dir, name, hostname)
  {
  }

  lemma ExecUpdateProfileJson(w: World, m: Machine, dir: Path, name: string, profile: string)
    ensures Exec(w, m, UpdateProfileJson(dir, name, profile))
         == if m.status.Exited? then m else UpdateProfileJsonStep(m, dir, name, profile)
  {
  }

  lemma ExecGolangInit(w: World, m: Machine)
    ensures Exec(w, m, GolangInit) == if m.status.Exited? then m else GoInit(w, m)
  {
  }

  lemma ExecPackage(w: World, m: Machine, s: Step)
    requires m.status.Running? && s.Package?
    ensures Exec(w, m, s) == PackageImage(w, m, s.out, s.profile)
  {
  }

  /** The steps of a plan, one after another. */
  function Run(w: World, m: Machine, plan: seq<Step>): (last: Machine)
    decreases |plan|
  {
    if plan == [] then m else Run(w, Exec(w, m, plan[0]), plan[1..])
  }

  // ---------------------------------------------------------------------
  // Sequencing

  lemma {:induction false} RunAppend(w: World, m: Machine, a: seq<Step>, b: seq<Step>)
    ensures Run(w, m, a + b) == Run(w, Run(w, m, a), b)
    decreases |a|
  {
    if a == [] {
      assert a + b == b;
    } else {
      assert (a + b)[1..] == a[1..] + b;
      RunAppend(w, Exec(w, m, a[0]), a[1..], b);
    }
  }

  /** Once the process has exited, no later step changes anything. */
  lemma {:induction false} RunExited(w: World, m: Machine, plan: seq<Step>)
    requires m.status.Exited?
    ensures Run(w, m, plan) == m
    decreases |plan|
  {
    if plan != [] {
      RunExited(w, m, plan[1..]);
    }
  }

  // ---------------------------------------------------------------------
  // How a run ends

  /** The events that end the process: a failed command, a missing `go`
      and an uncaught exception. */
  predicate Fatal(e: Event) {
    match e
    case Ran(_, status) => status != 0
    case GoMissing => true
    case Raised(_) => true
    case _ => false
  }

  /** The status the process exits with after a fatal event. */
  function ExitCode(e: Event): int {
    match e
    case Ran(_, status) => status
    case GoMissing => 0
    case _ => 1
  }

  /** The process runs exactly as long as nothing fatal has happened; a
      fatal event is always the last thing in the trace, and the exit code
      is the one that event dictates. */
  predicate Coherent(m: Machine) {
    && (forall i :: 0 <= i < |m.trace| - 1 ==> !Fatal(m.trace[i]))
    && (m.status.Running? <==> m.trace == [] || !Fatal(m.trace[|m.trace| - 1]))
    && (m.status.Exited? ==> m.status.code == ExitCode(m.trace[|m.trace| - 1]))
  }

  /** A running machine that appends the events d and ends in status. */
  lemma AppendCoherent(m: Machine, next: Machine, d: seq<Event>)
    requires Coherent(m) && m.status.Running?
    requires next.trace == m.trace + d
    requires forall i :: 0 <= i < |d| - 1 ==> !Fatal(d[i])
    requires next.status.Running? <==> d == [] || !Fatal(d[|d| - 1])
    requires next.status.Exited? ==> d != [] && next.status.code == ExitCode(d[|d| - 1])
    ensures Coherent(next)
  {
    if d != [] {
      forall i | 0 <= i < |next.trace| - 1
        ensures !Fatal(next.trace[i])
      {
        if i < |m.trace| {
          if i == |m.trace| - 1 {
            assert m.trace[i] == m.trace[|m.trace| - 1];
          }
        } else {
          assert next.trace[i] == d[i - |m.trace|];
        }
      }
    }
  }

  lemma {:induction false} RunCommandsCoherent(w: World, m: Machine, cmds: seq<Command>)
    requires Coherent(m)
    ensures Coherent(RunCommands(w, m, cmds))
    decreases |cmds|
  {
    if cmds != [] && m.status.Running? {
      var next := RunCommand(w, m, cmds[0]);
      AppendCoherent(m, next, [Ran(cmds[0], w.shell(m.issued))]);
      RunCommandsCoherent(w, next, cmds[1..]);
    }
  }

  lemma RaiseCoherent(m: Machine, fault: Fault)
    requires Coherent(m) && m.status.Running?
    ensures Coherent(Raise(m, fault))
  {
    AppendCoherent(m, Raise(m, fault), [Raised(fault)]);
  }

  /** A command that exits with status 0 adds its record to the trace and
      applies its effect. */
  lemma RunCommandSucceeded(w: World, m: Machine, cmd: Command)
    requires m.status.Running? && RunCommand(w, m, cmd).status.Running?
    ensures RunCommand(w, m, cmd).trace == m.trace + [Ran(cmd, 0)]
    ensures RunCommand(w, m, cmd).fs == Effect(w.base, m.fs, cmd)
  {
  }

  /** What a successful tar leaves: the archive of the staging tree. */
  lemma TarEffect(base: Path, fs: Fs, cmd: Command)
    requires cmd.Tar?
    ensures Effect(base, fs, cmd).files
         == fs.files[DistDir(cmd.out) + cmd.archive := Archive(Subtree(fs.files, ImgDir(cmd.out)))]
  {
  }

  lemma RunCommandCoherent(w: World, m: Machine, cmd: Command)
    requires Coherent(m) && m.status.Running?
    ensures Coherent(RunCommand(w, m, cmd))
  {
    AppendCoherent(m, RunCommand(w, m, cmd), [Ran(cmd, w.shell(m.issued))]);
  }

  lemma WriteContentCoherent(m: Machine, dir: Path, name: string, c: Content)
    requires Coherent(m) && m.status.Running?
    ensures Coherent(WriteContent(m, dir, name, c))
  {
    match Write(m.fs, dir, name, c)
    case None => RaiseCoherent(m, CannotOpen(dir + name));
    case Some(fs) => AppendCoherent(m, WriteContent(m, dir, name, c), [Wrote(dir + name)]);
  }

  lemma PackageCoherent(w: World, m: Machine, out: Path, profile: string)
    requires Coherent(m) && m.status.Running?
    ensures Coherent(PackageImage(w, m, out, profile))
  {
    var dir := ImgDir(out) + "CDN/";
    match VersionGet(m.fs, dir + "version.txt") {
      case Err(fault) => RaiseCoherent(m, fault);
      case Ok(word) =>
        var version := RewriteVersion(word, profile);
        match Write(m.fs, dir, "version.txt", TextFile(version)) {
          case None => RaiseCoherent(m, CannotOpen(dir + "version.txt"));
          case Some(fs) =>
            var written := m.(fs := fs, trace := m.trace + [Wrote(dir + "version.txt")]);
            AppendCoherent(m, written, [Wrote(dir + "version.txt")]);
            RunCommandCoherent(w, written, Tar(out, ArchiveName(version)));
        }
    }
  }

  lemma MakeDirCoherent(w: World, m: Machine, path: Path)
    requires Coherent(m) && m.status.Running?
    ensures Coherent(Exec(w, m, MakeDir(path)))
  {
    if EnsureDir(m.fs, path).None? {
      RaiseCoherent(m, NotADirectory(path));
    } else {
      AppendCoherent(m, Exec(w, m, MakeDir(path)), [Made(path)]);
    }
  }

  lemma OpenLogCoherent(w: World, m: Machine, dir: Path)
    requires Coherent(m) && m.status.Running?
    ensures Coherent(Exec(w, m, OpenLog(dir)))
  {
    if Write(m.fs, dir, BuildLogFile, TextFile("")).None? {
      RaiseCoherent(m, CannotOpen(dir + BuildLogFile));
    } else {
      AppendCoherent(m, Exec(w, m, OpenLog(dir)), [LogOpened(dir + BuildLogFile)]);
    }
  }

  lemma UpdateHostapdCoherent(w: World, m: Machine, dir: Path, name: string, hostname: string)
    requires Coherent(m) && m.status.Running?
    ensures Coherent(Exec(w, m, UpdateHostapd(dir, name, hostname)))
  {
    match ReadText(m.fs, dir + name)
    case Err(e) => RaiseCoherent(m, FaultOf(e, dir + name));
    case Ok(raw) => WriteContentCoherent(m, dir, name, TextFile(HostapdConf(raw, hostname)));
  }

  lemma UpdateProfileJsonCoherent(w: World, m: Machine, dir: Path, name: string, profile: string)
    requires Coherent(m) && m.status.Running?
    ensures Coherent(Exec(w, m, UpdateProfileJson(dir, name, profile)))
  {
    match ReadJson(m.fs, dir + name)
    case Err(e) => RaiseCoherent(m, FaultOf(e, dir + name));
    case Ok(doc) =>
      match SetActiveProfile(doc, profile) {
        case None => RaiseCoherent(m, NotAnObject(dir + name));
        case Some(updated) => WriteContentCoherent(m, dir, name, Document(updated));
      }
  }

  lemma GolangInitCoherent(w: World, m: Machine)
    requires Coherent(m) && m.status.Running?
    ensures Coherent(GoInit(w, m))
  {
    if !w.goFound {
      AppendCoherent(m, GoInit(w, m), [GoMissing]);
    } else if !IsDir(m.fs, GoPath(w.base)) {
      var start := m.(fs := MakeAll(m.fs, GoDirs(w.base)));
      RunCommandsCoherent(w, start, GoCommands(w.base));
    }
  }

  /** Every step keeps the trace and the exit status in agreement. */
  lemma ExecCoherent(w: World, m: Machine, s: Step)
    requires Coherent(m)
    ensures Coherent(Exec(w, m, s))
  {
    if m.status.Running? {
      match s
      case RunCmd(cmd) => RunCommandCoherent(w, m, cmd);
      case MakeDir(path) => MakeDirCoherent(w, m, path);
      case OpenLog(dir) => OpenLogCoherent(w, m, dir);
      case WriteText(dir, name, text) => WriteContentCoherent(m, dir, name, TextFile(text));
      case UpdateHostapd(dir, name, hostname) => UpdateHostapdCoherent(w, m, dir, name, hostname);
      case UpdateProfileJson(dir, name, profile) => UpdateProfileJsonCoherent(w, m, dir, name, profile);
      case BoardHook(stage) => AppendCoherent(m, Exec(w, m, s), [Hook(stage)]);
      case GolangInit => GolangInitCoherent(w, m); assert Exec(w, m, s) == GoInit(w, m);
      case Package(out, profile) => PackageCoherent(w, m, out, profile);
    }
  }

  /** Every run keeps the machine coherent: the first fatal event ends the
      run, and the exit code is the failed command's status (0 when `go` is
      missing, 1 for an uncaught exception). */
  lemma {:induction false} RunCoherent(w: World, m: Machine, plan: seq<Step>)
    requires Coherent(m)
    ensures Coherent(Run(w, m, plan))
    decreases |plan|
  {
    if plan != [] {
      ExecCoherent(w, m, plan[0]);
      RunCoherent(w, Exec(w, m, plan[0]), plan[1..]);
    }
  }
}
