/**
 * The stage methods of Board, Platform, Device and Profile as step plans,
 * the driver's sequencing of them, and what a run of each plan does.
 */
module Stages {
  import opened Text
  import opened Wrappers
  import opened Naming
  import opened ConfigFiles
  import opened ProfileJson
  import opened FileSys
  import opened Steps

  // ---------------------------------------------------------------------
  // The plans

  /** Board.do_prepare / do_config / do_build do nothing; the model records
      that the hook was reached. Platform forwards to its board. */
  function BoardPlan(stage: Stage): seq<Step> {
    [BoardHook(stage)]
  }

  function PlatformPlan(stage: Stage): seq<Step> {
    BoardPlan(stage)
  }

  /** Device.__init__: make the output directory (guarded) and open the log
      file in append mode. */
  function DeviceInitPlan(out: Path): seq<Step> {
    [MakeDir(out), OpenLog(out)]
  }

  function DevicePreparePlan(out: Path): seq<Step> {
    [GolangInit, MakeDir(ImgDir(out)), MakeDir(DistDir(out))] + PlatformPlan(Prepare)
  }

  function DeviceConfigPlan(): seq<Step> {
    PlatformPlan(Config)
  }

  function DeviceBuildPlan(base: Path, out: Path): seq<Step> {
    [ RunCmd(Copy(base, "rootfs_overlay", ImgDir(out), false)),
      RunCmd(Copy(base, "CDN", ImgDir(out), false)),
      RunCmd(Copy(base, "devmgmt", ImgDir(out), false)),
      RunCmd(CompileApiServer(ImgDir(out))) ]
    + PlatformPlan(Build)
  }

  function DevicePkgPlan(): seq<Step> {
    []
  }

  function DeviceCleanPlan(out: Path): seq<Step> {
    [RunCmd(Remove(out))]
  }

  function EtcDir(out: Path): Path { ImgDir(out) + "rootfs_overlay/etc/" }
  function HostapdDir(out: Path): Path { EtcDir(out) + "hostapd/" }
  function CdnDir(out: Path): Path { ImgDir(out) + "CDN/" }

  /** What Profile.do_build adds after the device build. */
  function ProfileOverlayPlan(out: Path, profile: string): seq<Step> {
    var hostname := HostnameGet(profile);
    [ RunCmd(Copy("profile/" + profile + "/", "rootfs_overlay", ImgDir(out), true)),
      WriteText(EtcDir(out), "hostname", hostname),
      WriteText(EtcDir(out), "hosts", HostsText(hostname)),
      UpdateHostapd(HostapdDir(out), "hostapd.conf", hostname),
      UpdateProfileJson(CdnDir(out), "profile.json", profile) ]
  }

  function ProfileBuildPlan(base: Path, out: Path, profile: string): seq<Step> {
    DeviceBuildPlan(base, out) + ProfileOverlayPlan(out, profile)
  }

  function ProfilePkgPlan(out: Path, profile: string): seq<Step> {
    DevicePkgPlan() + [Package(out, profile)]
  }

  /** The output directory of the one device kind the driver builds. */
  function Out(base: Path, platform: PlatformKind, board: BoardKind): Path {
    OutputDir(base, platform.Name(), board.Name(), OpenRap.Name())
  }

  /** The driver: construct the profile object, then either clean, or
      prepare, configure, build and package. */
  function DriverPlan(base: Path, platform: PlatformKind, board: BoardKind, profile: ProfileKind, clean: bool): seq<Step> {
    var out := Out(base, platform, board);
    DeviceInitPlan(out) +
    if clean then DeviceCleanPlan(out)
    else DevicePreparePlan(out) + DeviceConfigPlan() + ProfileBuildPlan(base, out, profile.Name()) + ProfilePkgPlan(out, profile.Name())
  }

  // ---------------------------------------------------------------------
  // Steps that leave one event behind when they succeed

  predicate Simple(s: Step) {
    !s.GolangInit? && !s.Package?
  }

  /** The event a simple step leaves when it succeeds. */
  function Expected(s: Step): Event
    requires Simple(s)
  {
    match s
    case RunCmd(cmd) => Ran(cmd, 0)
    case MakeDir(path) => Made(path)
    case OpenLog(dir) => LogOpened(dir + BuildLogFile)
    case WriteText(dir, name, _) => Wrote(dir + name)
    case UpdateHostapd(dir, name, _) => Wrote(dir + name)
    case UpdateProfileJson(dir, name, _) => Wrote(dir + name)
    case BoardHook(stage) => Hook(stage)
  }

  function Events(plan: seq<Step>): (events: seq<Event>)
    requires forall i :: 0 <= i < |plan| ==> Simple(plan[i])
  {
    seq(|plan|, i requires 0 <= i < |plan| => Expected(plan[i]))
  }

  /** A simple step that leaves the process running has left exactly its
      expected event. */
  lemma ExecSimple(w: World, m: Machine, s: Step)
    requires Simple(s) && m.status.Running? && Exec(w, m, s).status.Running?
    ensures Exec(w, m, s).trace == m.trace + [Expected(s)]
  {
    match s
    case RunCmd(cmd) =>
    case MakeDir(path) =>
    case OpenLog(dir) =>
    case WriteText(dir, name, text) =>
    case UpdateHostapd(dir, name, hostname) =>
      match ReadText(m.fs, dir + name) {
        case Err(e) =>
        case Ok(raw) =>
      }
    case UpdateProfileJson(dir, name, profile) =>
      match ReadJson(m.fs, dir + name) {
        case Err(e) =>
        case Ok(doc) =>
      }
    case BoardHook(stage) =>
  }

  /** A plan of simple steps that ends with the process running has left
      exactly the expected events, one per step, in plan order. */
  lemma {:induction false} RunSimple(w: World, m: Machine, plan: seq<Step>)
    requires forall i :: 0 <= i < |plan| ==> Simple(plan[i])
    requires m.status.Running? && Run(w, m, plan).status.Running?
    ensures Run(w, m, plan).trace == m.trace + Events(plan)
    decreases |plan|
  {
    if plan != [] {
      var rest := plan[1..];
      var next := SimpleFirst(w, m, plan);
      RunSimple(w, next, rest);
      assert Events(plan) == [Expected(plan[0])] + Events(rest);
    }
  }

  /** The first step of such a run: it keeps running, leaves its expected
      event, and the rest of the plan runs from where it left off. */
  lemma SimpleFirst(w: World, m: Machine, plan: seq<Step>) returns (next: Machine)
    requires plan != [] && forall i :: 0 <= i < |plan| ==> Simple(plan[i])
    requires m.status.Running? && Run(w, m, plan).status.Running?
    ensures next.status.Running? && next.trace == m.trace + [Expected(plan[0])]
    ensures Run(w, m, plan) == Run(w, next, plan[1..])
    ensures forall i :: 0 <= i < |plan[1..]| ==> Simple(plan[1..][i])
  {
    assert forall i :: 0 <= i < |plan[1..]| ==> plan[1..][i] == plan[i + 1];
    next := Exec(w, m, plan[0]);
    RunFirst(w, m, plan);
    ExecSimple(w, m, plan[0]);
  }

  // ---------------------------------------------------------------------
  // What the stages do

  /** run_cmd's abort: when the command at position k of a plan fails, the
      run ends right there, with the command's status as exit code and
      nothing after it done. */
  lemma FailedCommandStops(w: World, m: Machine, plan: seq<Step>, k: nat)
    requires k < |plan| && plan[k].RunCmd?
    requires Run(w, m, plan[..k]).status.Running?
    requires w.shell(Run(w, m, plan[..k]).issued) != 0
    ensures Run(w, m, plan) == RunCommand(w, Run(w, m, plan[..k]), plan[k].cmd)
    ensures Run(w, m, plan).status == Exited(w.shell(Run(w, m, plan[..k]).issued))
    ensures Run(w, m, plan).trace == Run(w, m, plan[..k]).trace + [Ran(plan[k].cmd, w.shell(Run(w, m, plan[..k]).issued))]
  {
    var before := Run(w, m, plan[..k]);
    assert plan == plan[..k] + ([plan[k]] + plan[k + 1..]);
    RunAppend(w, m, plan[..k], [plan[k]] + plan[k + 1..]);
    var failed := Exec(w, before, plan[k]);
    assert Run(w, before, [plan[k]] + plan[k + 1..]) == Run(w, failed, plan[k + 1..]);
    RunExited(w, failed, plan[k + 1..]);
  }

  /** Device.do_build copies rootfs_overlay, then CDN, then devmgmt into the
      staging directory, compiles the API server there, then calls the
      platform hook. */
  lemma DeviceBuildEvents(w: World, m: Machine, base: Path, out: Path)
    requires m.status.Running? && Run(w, m, DeviceBuildPlan(base, out)).status.Running?
    ensures Run(w, m, DeviceBuildPlan(base, out)).trace == m.trace +
      [ Ran(Copy(base, "rootfs_overlay", ImgDir(out), false), 0),
        Ran(Copy(base, "CDN", ImgDir(out), false), 0),
        Ran(Copy(base, "devmgmt", ImgDir(out), false), 0),
        Ran(CompileApiServer(ImgDir(out)), 0),
        Hook(Build) ]
  {
    RunSimple(w, m, DeviceBuildPlan(base, out));
  }

  /** Profile.do_build runs the whole device build first, then copies the
      profile overlay and rewrites hostname, hosts, hostapd.conf and
      profile.json, in that order. */
  lemma ProfileBuildEvents(w: World, m: Machine, base: Path, out: Path, profile: string)
    requires m.status.Running? && Run(w, m, ProfileBuildPlan(base, out, profile)).status.Running?
    ensures Run(w, m, ProfileBuildPlan(base, out, profile)).trace == m.trace +
      [ Ran(Copy(base, "rootfs_overlay", ImgDir(out), false), 0),
        Ran(Copy(base, "CDN", ImgDir(out), false), 0),
        Ran(Copy(base, "devmgmt", ImgDir(out), false), 0),
        Ran(CompileApiServer(ImgDir(out)), 0),
        Hook(Build),
        Ran(Copy("profile/" + profile + "/", "rootfs_overlay", ImgDir(out), true), 0),
        Wrote(EtcDir(out) + "hostname"),
        Wrote(EtcDir(out) + "hosts"),
        Wrote(HostapdDir(out) + "hostapd.conf"),
        Wrote(CdnDir(out) + "profile.json") ]
  {
    var mid := Run(w, m, DeviceBuildPlan(base, out));
    RunAppend(w, m, DeviceBuildPlan(base, out), ProfileOverlayPlan(out, profile));
    if mid.status.Exited? {
      RunExited(w, mid, ProfileOverlayPlan(out, profile));
    }
    DeviceBuildEvents(w, m, base, out);
    OverlayEvents(w, mid, out, profile);
  }

  /** The profile part of Profile.do_build copies the profile's overlay,
      then writes hostname, hosts, hostapd.conf and profile.json, in that
      order. */
  lemma OverlayEvents(w: World, m: Machine, out: Path, profile: string)
    requires m.status.Running? && Run(w, m, ProfileOverlayPlan(out, profile)).status.Running?
    ensures Run(w, m, ProfileOverlayPlan(out, profile)).trace == m.trace +
      [ Ran(Copy("profile/" + profile + "/", "rootfs_overlay", ImgDir(out), true), 0),
        Wrote(EtcDir(out) + "hostname"),
        Wrote(EtcDir(out) + "hosts"),
        Wrote(HostapdDir(out) + "hostapd.conf"),
        Wrote(CdnDir(out) + "profile.json") ]
  {
    RunSimple(w, m, ProfileOverlayPlan(out, profile));
  }

  function HostnameFile(out: Path): Path { EtcDir(out) + "hostname" }
  function HostsFile(out: Path): Path { EtcDir(out) + "hosts" }
  function HostapdFile(out: Path): Path { HostapdDir(out) + "hostapd.conf" }
  function ProfileJsonFile(out: Path): Path { CdnDir(out) + "profile.json" }

  /** The four files the profile overlay rewrites are four different
      files. */
  lemma OverlayPathsDistinct(out: Path)
    ensures HostnameFile(out) != HostsFile(out)
    ensures HostapdFile(out) !in {HostnameFile(out), HostsFile(out)}
    ensures ProfileJsonFile(out) !in {HostnameFile(out), HostsFile(out), HostapdFile(out)}
  {
    var etc := EtcDir(out);
    var img := ImgDir(out);
    assert HostnameFile(out)[|etc| + 4] == 'n';
    assert HostsFile(out)[|etc| + 4] == 's';
    assert HostapdFile(out)[|etc| + 4] == 'a';
    assert ProfileJsonFile(out)[|img|] == 'C';
    assert HostnameFile(out)[|img|] == 'r';
    assert HostsFile(out)[|img|] == 'r';
    assert HostapdFile(out)[|img|] == 'r';
  }

  /** A text write that succeeds replaces that one file. */
  lemma WriteTextSucceeded(w: World, m: Machine, dir: Path, name: string, text: string)
    requires m.status.Running? && Exec(w, m, WriteText(dir, name, text)).status.Running?
    ensures Exec(w, m, WriteText(dir, name, text)).fs.files == m.fs.files[dir + name := TextFile(text)]
  {
  }

  /** A successful hostapd.conf update found a text file there and replaced
      it with its rewrite. */
  lemma UpdateHostapdSucceeded(w: World, m: Machine, dir: Path, name: string, hostname: string)
    requires m.status.Running? && Exec(w, m, UpdateHostapd(dir, name, hostname)).status.Running?
    ensures dir + name in m.fs.files && m.fs.files[dir + name].TextFile?
    ensures Exec(w, m, UpdateHostapd(dir, name, hostname)).fs.files
         == m.fs.files[dir + name := TextFile(HostapdConf(m.fs.files[dir + name].text, hostname))]
  {
  }

  /** A successful profile.json update found a JSON object there and
      replaced it with the updated object. */
  lemma UpdateProfileJsonSucceeded(w: World, m: Machine, dir: Path, name: string, profile: string)
    requires m.status.Running? && Exec(w, m, UpdateProfileJson(dir, name, profile)).status.Running?
    ensures dir + name in m.fs.files && m.fs.files[dir + name].Document?
    ensures m.fs.files[dir + name].json.Object?
    ensures Exec(w, m, UpdateProfileJson(dir, name, profile)).fs.files
         == m.fs.files[dir + name := Document(SetActiveProfile(m.fs.files[dir + name].json, profile).value)]
  {
    match ReadJson(m.fs, dir + name) {
      case Err(e) =>
      case Ok(doc) =>
    }
  }

  /** A run that ends running was running after its first step, and the
      rest of the plan continues from there. */
  lemma RunFirst(w: World, m: Machine, plan: seq<Step>)
    requires plan != [] && Run(w, m, plan).status.Running?
    ensures Exec(w, m, plan[0]).status.Running?
    ensures Run(w, m, plan) == Run(w, Exec(w, m, plan[0]), plan[1..])
  {
    if Exec(w, m, plan[0]).status.Exited? {
      RunExited(w, Exec(w, m, plan[0]), plan[1..]);
    }
  }

  /** The states a five-step run passes through. */
  lemma FiveSteps(w: World, m: Machine, plan: seq<Step>)
      returns (m1: Machine, m2: Machine, m3: Machine, m4: Machine)
    requires |plan| == 5 && Run(w, m, plan).status.Running?
    ensures && m1 == Exec(w, m, plan[0]) && m2 == Exec(w, m1, plan[1])
            && m3 == Exec(w, m2, plan[2]) && m4 == Exec(w, m3, plan[3])
            && Run(w, m, plan) == Exec(w, m4, plan[4])
            && m1.status.Running? && m2.status.Running? && m3.status.Running? && m4.status.Running?
  {
    RunFirst(w, m, plan);
    m1 := Exec(w, m, plan[0]);
    RunFirst(w, m1, plan[1..]);
    m2 := Exec(w, m1, plan[1]);
    RunFirst(w, m2, plan[2..]);
    m3 := Exec(w, m2, plan[2]);
    RunFirst(w, m3, plan[3..]);
    m4 := Exec(w, m3, plan[3]);
    RunFirst(w, m4, plan[4..]);
    assert plan[1..][1..] == plan[2..] && plan[2..][1..] == plan[3..];
    assert plan[3..][1..] == plan[4..] && plan[4..][1..] == [];
  }

  /** After the profile overlay has been copied in, the rest of
      Profile.do_build leaves the hostname file holding the hostname, the
      hosts file holding the two fixed lines, hostapd.conf rewritten from
      what the copy left there, profile.json with the profile made active,
      and every other file as the copy left it. */
  lemma OverlayFiles(w: World, m: Machine, out: Path, profile: string)
    requires m.status.Running? && Run(w, m, ProfileOverlayPlan(out, profile)).status.Running?
    ensures var copied := Exec(w, m, ProfileOverlayPlan(out, profile)[0]).fs.files;
            var files := Run(w, m, ProfileOverlayPlan(out, profile)).fs.files;
            var hostname := HostnameGet(profile);
            && HostapdFile(out) in copied && copied[HostapdFile(out)].TextFile?
            && ProfileJsonFile(out) in copied && copied[ProfileJsonFile(out)].Document?
            && copied[ProfileJsonFile(out)].json.Object?
            && files == copied[HostnameFile(out) := TextFile(hostname)]
                              [HostsFile(out) := TextFile(HostsText(hostname))]
                              [HostapdFile(out) := TextFile(HostapdConf(copied[HostapdFile(out)].text, hostname))]
                              [ProfileJsonFile(out) := Document(SetActiveProfile(copied[ProfileJsonFile(out)].json, profile).value)]
  {
    var hostname := HostnameGet(profile);
    var m1, m2, m3, m4 := FiveSteps(w, m, ProfileOverlayPlan(out, profile));
    OverlayPathsDistinct(out);
    WriteTextSucceeded(w, m1, EtcDir(out), "hostname", hostname);
    WriteTextSucceeded(w, m2, EtcDir(out), "hosts", HostsText(hostname));
    UpdateHostapdSucceeded(w, m3, HostapdDir(out), "hostapd.conf", hostname);
    UpdateProfileJsonSucceeded(w, m4, CdnDir(out), "profile.json", profile);
  }

  /** Device.do_clean removes the output directory and everything below it
      (the log file just opened included) and leaves every other file and
      directory as it was. */
  lemma CleanRemovesOutput(w: World, m: Machine, out: Path)
    requires m.status.Running? && Run(w, m, DeviceCleanPlan(out)).status.Running?
    ensures var after := Run(w, m, DeviceCleanPlan(out)).fs;
            && (forall p :: p in after.files <==> p in m.fs.files && !StartsWith(p, out))
            && (forall p :: p in after.files ==> after.files[p] == m.fs.files[p])
            && (forall d :: d in after.dirs <==> d in m.fs.dirs && !StartsWith(d, out))
            && !IsDir(after, out)
  {
    var after := Run(w, m, DeviceCleanPlan(out)).fs;
    assert after == RemoveTree(m.fs, out);
    if out != "" {
      assert StartsWith(DirKey(out), out);
    }
  }

  // ---------------------------------------------------------------------
  // Preparing again

  /** The guarded creation of an existing directory only records it. */
  lemma MakeDirExisting(w: World, m: Machine, path: Path)
    requires m.status.Running? && IsDir(m.fs, path)
    ensures Exec(w, m, MakeDir(path)) == m.(trace := m.trace + [Made(path)])
  {
  }

  /** Opening an existing log file in append mode only records it. */
  lemma OpenLogExisting(w: World, m: Machine, dir: Path)
    requires m.status.Running? && IsDir(m.fs, dir)
    requires dir + BuildLogFile in m.fs.files && !IsDir(m.fs, dir + BuildLogFile)
    ensures Exec(w, m, OpenLog(dir)) == m.(trace := m.trace + [LogOpened(dir + BuildLogFile)])
  {
  }

  /** golang_init with `go` installed and GOPATH present does nothing. */
  lemma GolangInitExisting(w: World, m: Machine)
    requires m.status.Running? && w.goFound && IsDir(m.fs, GoPath(w.base))
    ensures Exec(w, m, GolangInit) == m
  {
  }

  /** Device.__init__ on an existing output directory with its log file
      changes nothing. */
  lemma InitAgain(w: World, m: Machine, out: Path)
    requires m.status.Running? && IsDir(m.fs, out)
    requires out + BuildLogFile in m.fs.files && !IsDir(m.fs, out + BuildLogFile)
    ensures Run(w, m, DeviceInitPlan(out)) == m.(trace := m.trace + [Made(out), LogOpened(out + BuildLogFile)])
  {
    var plan := DeviceInitPlan(out);
    MakeDirExisting(w, m, out);
    var m1 := m.(trace := m.trace + [Made(out)]);
    OpenLogExisting(w, m1, out);
    var m2 := m1.(trace := m1.trace + [LogOpened(out + BuildLogFile)]);
    assert Run(w, m, plan) == Run(w, m1, plan[1..]);
    assert Run(w, m1, plan[1..]) == Run(w, m2, []);
  }

  /** Device.do_prepare with go installed, GOPATH present and the staging
      and dist directories present changes nothing. */
  lemma DevicePrepareAgain(w: World, m: Machine, out: Path)
    requires m.status.Running? && w.goFound && IsDir(m.fs, GoPath(w.base))
    requires IsDir(m.fs, ImgDir(out)) && IsDir(m.fs, DistDir(out))
    ensures Run(w, m, DevicePreparePlan(out)) == m.(trace := m.trace + [Made(ImgDir(out)), Made(DistDir(out)), Hook(Prepare)])
  {
    var plan := DevicePreparePlan(out);
    GolangInitExisting(w, m);
    MakeDirExisting(w, m, ImgDir(out));
    var m1 := m.(trace := m.trace + [Made(ImgDir(out))]);
    MakeDirExisting(w, m1, DistDir(out));
    var m2 := m1.(trace := m1.trace + [Made(DistDir(out))]);
    var m3 := m2.(trace := m2.trace + [Hook(Prepare)]);
    assert Run(w, m, plan) == Run(w, m, plan[1..]);
    assert Run(w, m, plan[1..]) == Run(w, m1, plan[2..]);
    assert Run(w, m1, plan[2..]) == Run(w, m2, plan[3..]);
    assert Run(w, m2, plan[3..]) == Run(w, m3, []);
  }

  /** A guarded mkdir that lets the process go on leaves the directory in
      place, keeps every file and loses no directory. */
  lemma MakeDirEstablishes(w: World, m: Machine, path: Path)
    requires m.status.Running? && Exec(w, m, MakeDir(path)).status.Running?
    ensures IsDir(Exec(w, m, MakeDir(path)).fs, path)
    ensures Exec(w, m, MakeDir(path)).fs.files == m.fs.files && m.fs.dirs <= Exec(w, m, MakeDir(path)).fs.dirs
  {
  }

  /** A first Device.__init__ that lets the process go on leaves what
      InitAgain asks for: the output directory, holding the log file. */
  lemma InitEstablishes(w: World, m: Machine, out: Path)
    requires Run(w, m, DeviceInitPlan(out)).status.Running?
    ensures var after := Run(w, m, DeviceInitPlan(out)).fs;
            IsDir(after, out) && out + BuildLogFile in after.files && !IsDir(after, out + BuildLogFile)
  {
    var plan := DeviceInitPlan(out);
    if m.status.Exited? {
      RunExited(w, m, plan);
      assert false;
    }
    RunFirst(w, m, plan);
    var m1 := Exec(w, m, MakeDir(out));
    MakeDirEstablishes(w, m, out);
    RunFirst(w, m1, plan[1..]);
    var m2 := Exec(w, m1, OpenLog(out));
    assert plan[1..][1..] == [];
    assert Run(w, m, plan) == m2;
  }

  /** So Device.__init__ twice in a row changes no file or directory the
      first one did not. */
  lemma InitTwice(w: World, m: Machine, out: Path)
    requires Run(w, m, DeviceInitPlan(out)).status.Running?
    ensures var once := Run(w, m, DeviceInitPlan(out));
            Run(w, once, DeviceInitPlan(out)).fs == once.fs
  {
    InitEstablishes(w, m, out);
    InitAgain(w, Run(w, m, DeviceInitPlan(out)), out);
  }

  /** A first Device.do_prepare that lets the process go on found `go` and
      leaves the staging and dist directories in place, and GOPATH too
      unless a file stood in the way of os.makedirs: what DevicePrepareAgain
      asks for. */
  lemma PrepareEstablishes(w: World, m: Machine, out: Path)
    requires Run(w, m, DevicePreparePlan(out)).status.Running?
    ensures var after := Run(w, m, DevicePreparePlan(out)).fs;
            && w.goFound && IsDir(after, ImgDir(out)) && IsDir(after, DistDir(out))
            && (IsDir(m.fs, GoPath(w.base)) || MakeDirs(m.fs, GoPath(w.base)).Some? ==> IsDir(after, GoPath(w.base)))
  {
    var plan := DevicePreparePlan(out);
    assert plan == [GolangInit, MakeDir(ImgDir(out)), MakeDir(DistDir(out)), BoardHook(Prepare)];
    PrepareShape(w, m, plan, ImgDir(out), DistDir(out));
  }

  /** The same for any plan of that shape. */
  lemma PrepareShape(w: World, m: Machine, plan: seq<Step>, img: Path, dist: Path)
    requires |plan| == 4 && plan[0] == GolangInit && plan[1] == MakeDir(img) && plan[2] == MakeDir(dist) && plan[3].BoardHook?
    requires Run(w, m, plan).status.Running?
    ensures var after := Run(w, m, plan).fs;
            && w.goFound && IsDir(after, img) && IsDir(after, dist)
            && (IsDir(m.fs, GoPath(w.base)) || MakeDirs(m.fs, GoPath(w.base)).Some? ==> IsDir(after, GoPath(w.base)))
  {
    var m1 := GolangInitFirst(w, m, plan);
    var m2 := MakeDirFirst(w, m1, plan[1..], img);
    assert plan[1..][1..] == plan[2..];
    var m3 := MakeDirFirst(w, m2, plan[2..], dist);
    assert plan[2..][1..] == plan[3..];
    HookLast(w, m3, plan[3..]);
  }

  /** A board hook as the last step keeps the file system. */
  lemma HookLast(w: World, m: Machine, plan: seq<Step>)
    requires |plan| == 1 && plan[0].BoardHook?
    ensures Run(w, m, plan).fs == m.fs
  {
    assert plan[1..] == [];
  }

  /** golang_init at the head of a run that goes on: see GoInitDirs. */
  lemma GolangInitFirst(w: World, m: Machine, plan: seq<Step>) returns (next: Machine)
    requires plan != [] && plan[0] == GolangInit
    requires Run(w, m, plan).status.Running?
    ensures w.goFound && next.status.Running?
    ensures next.fs.files == m.fs.files && m.fs.dirs <= next.fs.dirs
    ensures IsDir(m.fs, GoPath(w.base)) || MakeDirs(m.fs, GoPath(w.base)).Some? ==> IsDir(next.fs, GoPath(w.base))
    ensures Run(w, m, plan) == Run(w, next, plan[1..])
  {
    if m.status.Exited? {
      RunExited(w, m, plan);
      assert false;
    }
    next := Exec(w, m, plan[0]);
    RunFirst(w, m, plan);
    ExecGolangInit(w, m);
    GoInitDirs(w, m);
  }

  /** A guarded mkdir at the head of a run that goes on: see
      MakeDirEstablishes. */
  lemma MakeDirFirst(w: World, m: Machine, plan: seq<Step>, path: Path) returns (next: Machine)
    requires plan != [] && plan[0] == MakeDir(path)
    requires m.status.Running? && Run(w, m, plan).status.Running?
    ensures next.status.Running? && IsDir(next.fs, path)
    ensures next.fs.files == m.fs.files && m.fs.dirs <= next.fs.dirs
    ensures Run(w, m, plan) == Run(w, next, plan[1..])
  {
    next := Exec(w, m, plan[0]);
    RunFirst(w, m, plan);
    MakeDirEstablishes(w, m, path);
  }

  /** So Device.do_prepare twice in a row changes no file or directory the
      first one did not, when GOPATH could be made. */
  lemma PrepareTwice(w: World, m: Machine, out: Path)
    requires Run(w, m, DevicePreparePlan(out)).status.Running?
    requires IsDir(m.fs, GoPath(w.base)) || MakeDirs(m.fs, GoPath(w.base)).Some?
    ensures var once := Run(w, m, DevicePreparePlan(out));
            Run(w, once, DevicePreparePlan(out)).fs == once.fs
  {
    PrepareEstablishes(w, m, out);
    DevicePrepareAgain(w, Run(w, m, DevicePreparePlan(out)), out);
  }

  // ---------------------------------------------------------------------
  // Packaging

  function VersionFile(out: Path): Path { CdnDir(out) + "version.txt" }

  /** The version the package step derives from a version file's text. */
  function PackagedVersion(text: string, profile: string): string {
    RewriteVersion(FirstLine(Translate(text)), profile)
  }

  /** Past a readable version file, Profile.do_pkg writes the suffixed
      version back and runs tar; nothing else happens in between. */
  lemma PackageSteps(w: World, m: Machine, out: Path, profile: string)
    requires m.status.Running? && PackageImage(w, m, out, profile).status.Running?
    ensures VersionGet(m.fs, VersionFile(out)).Ok?
    ensures var version := RewriteVersion(VersionGet(m.fs, VersionFile(out)).value, profile);
            var fs := Write(m.fs, CdnDir(out), "version.txt", TextFile(version));
            && fs.Some?
            && PackageImage(w, m, out, profile)
               == RunCommand(w, m.(fs := fs.value, trace := m.trace + [Wrote(VersionFile(out))]), Tar(out, ArchiveName(version)))
  {
    assert CdnDir(out) + "version.txt" == VersionFile(out);
  }

  /** Without a non-empty text version file, version_get raises: do_pkg
      exits with status 1 and changes no file. */
  lemma PackageNeedsVersion(w: World, m: Machine, out: Path, profile: string)
    requires m.status.Running?
    requires !(VersionFile(out) in m.fs.files && !IsDir(m.fs, VersionFile(out))
               && m.fs.files[VersionFile(out)].TextFile? && m.fs.files[VersionFile(out)].text != [])
    ensures PackageImage(w, m, out, profile).status == Exited(1)
    ensures PackageImage(w, m, out, profile).fs == m.fs
    ensures PackageImage(w, m, out, profile).trace == m.trace + [Raised(VersionGet(m.fs, VersionFile(out)).error)]
  {
    assert CdnDir(out) + "version.txt" == VersionFile(out);
  }

  /** Writing a version into the version file and then running tar, when
      both succeed, replaces that one file and adds the archive named after
      the version, which packs the staging tree as it is after the write. */
  lemma WriteThenTar(w: World, m: Machine, out: Path, version: string)
    requires Write(m.fs, CdnDir(out), "version.txt", TextFile(version)).Some?
    requires var written := Write(m.fs, CdnDir(out), "version.txt", TextFile(version)).value;
             RunCommand(w, m.(fs := written, trace := m.trace + [Wrote(VersionFile(out))]), Tar(out, ArchiveName(version))).status.Running?
    ensures var written := Write(m.fs, CdnDir(out), "version.txt", TextFile(version)).value;
            var after := RunCommand(w, m.(fs := written, trace := m.trace + [Wrote(VersionFile(out))]), Tar(out, ArchiveName(version)));
            var staged := m.fs.files[VersionFile(out) := TextFile(version)];
            && after.trace == m.trace + [Wrote(VersionFile(out)), Ran(Tar(out, ArchiveName(version)), 0)]
            && after.fs.files == staged[DistDir(out) + ArchiveName(version) := Archive(Subtree(staged, ImgDir(out)))]
  {
    var written := Write(m.fs, CdnDir(out), "version.txt", TextFile(version)).value;
    var tar := Tar(out, ArchiveName(version));
    RunCommandSucceeded(w, m.(fs := written, trace := m.trace + [Wrote(VersionFile(out))]), tar);
    TarEffect(w.base, written, tar);
  }

  /** A successful Profile.do_pkg found a non-empty text version file,
      wrote the suffixed version back over it and packed the staging tree
      into the archive named after that version. */
  lemma PackageResult(w: World, m: Machine, out: Path, profile: string)
    requires m.status.Running? && PackageImage(w, m, out, profile).status.Running?
    ensures VersionFile(out) in m.fs.files && m.fs.files[VersionFile(out)].TextFile?
    ensures m.fs.files[VersionFile(out)].text != []
    ensures var version := PackagedVersion(m.fs.files[VersionFile(out)].text, profile);
            var staged := m.fs.files[VersionFile(out) := TextFile(version)];
            var after := PackageImage(w, m, out, profile);
            && after.trace == m.trace + [Wrote(VersionFile(out)), Ran(Tar(out, ArchiveName(version)), 0)]
            && after.fs.files == staged[DistDir(out) + ArchiveName(version) := Archive(Subtree(staged, ImgDir(out)))]
  {
    PackageSteps(w, m, out, profile);
    var version := RewriteVersion(VersionGet(m.fs, VersionFile(out)).value, profile);
    WriteThenTar(w, m, out, version);
  }

  /** The archive packs the version file that was written into the tree. */
  lemma ArchiveHoldsVersion(files: map<Path, Content>, out: Path, version: string)
    requires VersionFile(out) in files && files[VersionFile(out)] == TextFile(version)
    ensures "CDN/version.txt" in Subtree(files, ImgDir(out))
    ensures Subtree(files, ImgDir(out))["CDN/version.txt"] == TextFile(version)
  {
    assert ImgDir(out) + "CDN/version.txt" == VersionFile(out);
    SubtreeFacts(files, ImgDir(out));
  }

  /** Text with no line boundary is its own first line. */
  lemma FirstLineWhole(s: string)
    requires forall i :: 0 <= i < |s| ==> !IsLineBoundary(s[i])
    ensures FirstLine(s) == s
  {
    var line := FirstLine(s);
    assert |line| == |s|;
  }

  /** A packaged version reads back as itself and is not changed by a
      second rewrite with the same profile. */
  lemma PackagedVersionStable(text: string, profile: string)
    ensures PackagedVersion(PackagedVersion(text, profile), profile) == PackagedVersion(text, profile)
  {
    var word := FirstLine(Translate(text));
    var version := RewriteVersion(word, profile);
    var suffix := VersionSuffix(profile, word);
    assert version == (if |word| >= 2 then word[..|word| - 2] else "") + suffix;
    forall i | 0 <= i < |version|
      ensures !IsLineBoundary(version[i]) && version[i] != '\r'
    {
      if i < |version| - 2 {
        assert version[i] == word[i];
      } else {
        assert version[i] == suffix[i - (|version| - 2)];
      }
    }
    TranslateKeeps(version);
    FirstLineWhole(version);
    RewriteVersionIdempotent(word, profile);
  }


  /** Packaging twice writes the same version and the same archive name:
      the suffix is not applied twice. */
  lemma RepackageSameVersion(w: World, m: Machine, out: Path, profile: string)
    requires m.status.Running? && PackageImage(w, m, out, profile).status.Running?
    requires PackageImage(w, PackageImage(w, m, out, profile), out, profile).status.Running?
    ensures var once := PackageImage(w, m, out, profile);
            var twice := PackageImage(w, once, out, profile);
            && VersionFile(out) in once.fs.files && once.fs.files[VersionFile(out)].TextFile?
            && var version := once.fs.files[VersionFile(out)].text;
               && VersionFile(out) in twice.fs.files && twice.fs.files[VersionFile(out)] == TextFile(version)
               && twice.trace == once.trace + [Wrote(VersionFile(out)), Ran(Tar(out, ArchiveName(version)), 0)]
  {
    var once := PackageImage(w, m, out, profile);
    PackageResult(w, m, out, profile);
    PackageResult(w, once, out, profile);
    var version := PackagedVersion(m.fs.files[VersionFile(out)].text, profile);
    LayoutSeparated(out);
    assert DistDir(out) + ArchiveName(version) != VersionFile(out) by {
      assert (DistDir(out) + ArchiveName(version))[|out|] == 'd';
      assert VersionFile(out)[|out|] == 'o';
    }
    assert once.fs.files[VersionFile(out)] == TextFile(version);
    PackagedVersionStable(m.fs.files[VersionFile(out)].text, profile);
  }

  // ---------------------------------------------------------------------
  // The whole script

  /** The status the interpreter leaves with: sys.exit(0) at the end, or the
      code of the sys.exit or exception that ended it, as the operating
      system reports it. */
  function ExitStatus(m: Machine): (code: int)
    ensures 0 <= code < 256
  {
    if m.status.Running? then 0 else m.status.code % 256
  }

  /** The exit status a machine's trace explains: the process keeps
      running exactly when nothing fatal happened, and then exits 0;
      otherwise it stopped at its first fatal event, the last event of the
      trace, and the exit status is the one that event dictates, which is
      0 too when that event is a missing `go`. */
  predicate TraceExplainsExit(last: Machine) {
    && (last.status.Running? <==> forall i :: 0 <= i < |last.trace| ==> !Fatal(last.trace[i]))
    && (last.status.Running? ==> ExitStatus(last) == 0)
    && (last.status.Exited? ==>
          && last.trace != []
          && Fatal(last.trace[|last.trace| - 1])
          && ExitStatus(last) == ExitCode(last.trace[|last.trace| - 1]) % 256
          && forall i :: 0 <= i < |last.trace| - 1 ==> !Fatal(last.trace[i]))
  }

  lemma CoherentExplainsExit(last: Machine)
    requires Coherent(last)
    ensures TraceExplainsExit(last)
  {
  }

  /** Every run from a coherent machine ends in a state its trace explains. */
  lemma RunExitStatus(w: World, m: Machine, plan: seq<Step>)
    requires Coherent(m)
    ensures TraceExplainsExit(Run(w, m, plan))
  {
    RunCoherent(w, m, plan);
    CoherentExplainsExit(Run(w, m, plan));
  }

  /** The script's exit status is the one its trace explains. */
  lemma DriverExitStatus(w: World, fs: Fs, platform: PlatformKind, board: BoardKind, profile: ProfileKind, clean: bool)
    ensures TraceExplainsExit(Run(w, Machine(fs, [], 0, Running), DriverPlan(w.base, platform, board, profile, clean)))
  {
    RunExitStatus(w, Machine(fs, [], 0, Running), DriverPlan(w.base, platform, board, profile, clean));
  }

  /** A successful Profile.do_pkg leaves the version file holding the
      packaged version and, in the dist directory, an archive named after
      that version that packs the version file. */
  lemma PackageArchive(w: World, m: Machine, out: Path, profile: string)
    requires m.status.Running? && PackageImage(w, m, out, profile).status.Running?
    ensures var last := PackageImage(w, m, out, profile);
            && VersionFile(out) in last.fs.files && last.fs.files[VersionFile(out)].TextFile?
            && var version := last.fs.files[VersionFile(out)].text;
               var archive := DistDir(out) + ArchiveName(version);
               && version == PackagedVersion(m.fs.files[VersionFile(out)].text, profile)
               && archive in last.fs.files && last.fs.files[archive].Archive?
               && "CDN/version.txt" in last.fs.files[archive].tree
               && last.fs.files[archive].tree["CDN/version.txt"] == TextFile(version)
               && last.trace != [] && last.trace[|last.trace| - 1] == Ran(Tar(out, ArchiveName(version)), 0)
  {
    PackageResult(w, m, out, profile);
    var version := PackagedVersion(m.fs.files[VersionFile(out)].text, profile);
    var staged := m.fs.files[VersionFile(out) := TextFile(version)];
    LayoutSeparated(out);
    assert DistDir(out) + ArchiveName(version) != VersionFile(out) by {
      assert (DistDir(out) + ArchiveName(version))[|out|] == 'd';
      assert VersionFile(out)[|out|] == 'o';
    }
    ArchiveHoldsVersion(staged, out, version);
  }

  /** A build that ends without error leaves in the dist directory an
      archive named after the version in the staged version file, packing
      that version file; packing it was the last thing the script did. */
  lemma DriverArchive(w: World, fs: Fs, platform: PlatformKind, board: BoardKind, profile: ProfileKind)
    requires Run(w, Machine(fs, [], 0, Running), DriverPlan(w.base, platform, board, profile, false)).status.Running?
    ensures var last := Run(w, Machine(fs, [], 0, Running), DriverPlan(w.base, platform, board, profile, false));
            var out := Out(w.base, platform, board);
            && VersionFile(out) in last.fs.files && last.fs.files[VersionFile(out)].TextFile?
            && var version := last.fs.files[VersionFile(out)].text;
               var archive := DistDir(out) + ArchiveName(version);
               && archive in last.fs.files && last.fs.files[archive].Archive?
               && "CDN/version.txt" in last.fs.files[archive].tree
               && last.fs.files[archive].tree["CDN/version.txt"] == TextFile(version)
               && last.trace != [] && last.trace[|last.trace| - 1] == Ran(Tar(out, ArchiveName(version)), 0)
  {
    var start := Machine(fs, [], 0, Running);
    var out := Out(w.base, platform, board);
    var init := DeviceInitPlan(out);
    var stages := DevicePreparePlan(out) + DeviceConfigPlan() + ProfileBuildPlan(w.base, out, profile.Name());
    var pkg := ProfilePkgPlan(out, profile.Name());
    assert DriverPlan(w.base, platform, board, profile, false) == init + (stages + pkg);
    RunAppend(w, start, init, stages + pkg);
    RunAppend(w, Run(w, start, init), stages, pkg);
    var before := Run(w, Run(w, start, init), stages);
    PackageLast(w, before, out, profile.Name());
    PackageArchive(w, before, out, profile.Name());
  }

  /** The package plan, run to the end, is the package step on a running
      machine. */
  lemma PackageLast(w: World, m: Machine, out: Path, profile: string)
    requires Run(w, m, ProfilePkgPlan(out, profile)).status.Running?
    ensures m.status.Running?
    ensures Run(w, m, ProfilePkgPlan(out, profile)) == PackageImage(w, m, out, profile)
  {
    var pkg := ProfilePkgPlan(out, profile);
    assert pkg == [Package(out, profile)];
    if m.status.Exited? {
      RunExited(w, m, pkg);
      assert false;
    }
    RunFirst(w, m, pkg);
    assert pkg[1..] == [];
    ExecPackage(w, m, pkg[0]);
  }
}
