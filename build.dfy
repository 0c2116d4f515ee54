/**
 * The build script as it runs: the process (its file system, what it has
 * done so far, the commands it has issued and whether it still runs), the
 * Board, Platform, Device and Profile objects whose stage methods act on
 * it, and the driver that picks a profile and runs its stages. Every
 * method is proved to do what the corresponding step plan prescribes.
 */
module Build {
  import opened Wrappers
  import opened Naming
  import opened ConfigFiles
  import opened ProfileJson
  import opened FileSys
  import opened Steps
  import opened Stages

  /** The running interpreter and the world it lives in. */
  class Host {
    const world: World
    var fs: Fs
    var trace: seq<Event>
    var issued: nat
    var status: Status

    function State(): Machine
      reads this
    {
      Machine(fs, trace, issued, status)
    }

    constructor(world: World, fs: Fs)
      ensures this.world == world && State() == Machine(fs, [], 0, Running)
    {
      this.world := world;
      this.fs := fs;
      trace := [];
      issued := 0;
      status := Running;
    }

    /** An exception nobody catches: the interpreter exits with status 1. */
    method Abort(fault: Fault)
      modifies this
      ensures State() == Raise(old(State()), fault)
    {
      trace := trace + [Raised(fault)];
      status := Exited(1);
    }

    /** run_cmd: issue the command; a non-zero status exits with it. */
    method Shell(cmd: Command)
      modifies this
      ensures State() == if old(status).Exited? then old(State()) else RunCommand(world, old(State()), cmd)
    {
      if status.Running? {
        var code := world.shell(issued);
        trace := trace + [Ran(cmd, code)];
        issued := issued + 1;
        if code == 0 {
          fs := Effect(world.base, fs, cmd);
        } else {
          status := Exited(code);
        }
      }
    }

    /** `try: os.makedirs(path) except OSError: if not os.path.isdir(path): raise` */
    method MakeDirectory(path: Path)
      modifies this
      ensures State() == if old(status).Exited? then old(State()) else MakeDirStep(old(State()), path)
    {
      if status.Running? {
        ghost var m0 := State();
        var made := MakeDirs(fs, path);
        if made.Some? {
          fs := made.value;
        } else if !IsDir(fs, path) {
          Abort(NotADirectory(path));
          assert State() == MakeDirStep(m0, path);
          return;
        }
        trace := trace + [Made(path)];
        assert State() == MakeDirStep(m0, path);
      }
    }

    /** Device.logging_init: open the log file in append mode, which
        creates it when it is missing and keeps what it holds otherwise. */
    method OpenLogFile(dir: Path)
      modifies this
      ensures State() == if old(status).Exited? then old(State()) else OpenLogStep(old(State()), dir)
    {
      if status.Running? {
        var path := dir + BuildLogFile;
        var created := Write(fs, dir, BuildLogFile, TextFile(""));
        if created.None? {
          Abort(CannotOpen(path));
          return;
        }
        if path !in fs.files {
          fs := created.value;
        }
        trace := trace + [LogOpened(path)];
      }
    }

    /** `with open(dir + name, "w") as f: f.write(...)` */
    method WriteFile(dir: Path, name: string, c: Content)
      requires status.Running?
      modifies this
      ensures State() == WriteContent(old(State()), dir, name, c)
    {
      var written := Write(fs, dir, name, c);
      if written.None? {
        Abort(CannotOpen(dir + name));
        return;
      }
      fs := written.value;
      trace := trace + [Wrote(dir + name)];
    }

    /** file_hostname_update and file_hosts_update. */
    method WriteTextFile(dir: Path, name: string, text: string)
      modifies this
      ensures State() == if old(status).Exited? then old(State()) else WriteContent(old(State()), dir, name, TextFile(text))
    {
      if status.Running? {
        WriteFile(dir, name, TextFile(text));
      }
    }

    /** file_hostapdconf_update. */
    method UpdateHostapdConf(dir: Path, name: string, hostname: string)
      modifies this
      ensures State() == if old(status).Exited? then old(State()) else UpdateHostapdStep(old(State()), dir, name, hostname)
    {
      if status.Running? {
        var read := ReadText(fs, dir + name);
        if read.Err? {
          Abort(FaultOf(read.error, dir + name));
          return;
        }
        var text := RewriteHostapdConf(read.value, hostname);
        WriteFile(dir, name, TextFile(text));
      }
    }

    /** file_profilejson_update. */
    method UpdateProfileJsonFile(dir: Path, name: string, profile: string)
      modifies this
      ensures State() == if old(status).Exited? then old(State()) else UpdateProfileJsonStep(old(State()), dir, name, profile)
    {
      if status.Running? {
        var read := ReadJson(fs, dir + name);
        if read.Err? {
          Abort(FaultOf(read.error, dir + name));
          return;
        }
        var updated := SetActiveProfile(read.value, profile);
        if updated.None? {
          Abort(NotAnObject(dir + name));
          return;
        }
        WriteFile(dir, name, Document(updated.value));
      }
    }

    /** A Board stage method: it does nothing, which is recorded. */
    method ReachHook(stage: Stage)
      modifies this
      ensures State() == if old(status).Exited? then old(State()) else old(State()).(trace := old(trace) + [Hook(stage)])
    {
      if status.Running? {
        trace := trace + [Hook(stage)];
      }
    }

    /** golang_init. */
    method InitGolang()
      modifies this
      ensures State() == if old(status).Exited? then old(State()) else GoInit(world, old(State()))
    {
      if status.Exited? {
        return;
      }
      if !world.goFound {
        trace := trace + [GoMissing];
        status := Exited(0);
        return;
      }
      if IsDir(fs, GoPath(world.base)) {
        return;
      }
      fs := MakeAll(fs, GoDirs(world.base));
      ghost var start := State();
      Shell(GoGetDep);
      ghost var m1 := State();
      Shell(LinkApiServer(ApiServerParentDir(world.base)));
      ghost var m2 := State();
      Shell(DepEnsure(ApiServerParentDir(world.base)));
      GoCommandsRun(world, start, m1, m2, State());
    }

    /** The part of Profile.do_pkg that follows its base: version_get, the
        profile suffix, file_version_update and the tar command. */
    method PackageVersion(out: Path, profile: string)
      modifies this
      ensures State() == if old(status).Exited? then old(State()) else PackageImage(world, old(State()), out, profile)
    {
      if status.Exited? {
        return;
      }
      ghost var m0 := State();
      var dir := ImgDir(out) + "CDN/";
      var read := VersionGet(fs, dir + "version.txt");
      if read.Err? {
        Abort(read.error);
        return;
      }
      var version := RewriteVersion(read.value, profile);
      var written := Write(fs, dir, "version.txt", TextFile(version));
      if written.None? {
        Abort(CannotOpen(dir + "version.txt"));
        return;
      }
      fs := written.value;
      trace := trace + [Wrote(dir + "version.txt")];
      ghost var staged := State();
      assert staged == m0.(fs := written.value, trace := m0.trace + [Wrote(dir + "version.txt")]);
      PackageImageTar(world, m0, out, profile, read.value, written.value);
      Shell(Tar(out, ArchiveName(version)));
    }
  }

  /** golang_init's three commands, issued one after another until one
      fails. */
  lemma GoCommandsRun(w: World, m: Machine, m1: Machine, m2: Machine, m3: Machine)
    requires m1 == if m.status.Exited? then m else RunCommand(w, m, GoGetDep)
    requires m2 == if m1.status.Exited? then m1 else RunCommand(w, m1, LinkApiServer(ApiServerParentDir(w.base)))
    requires m3 == if m2.status.Exited? then m2 else RunCommand(w, m2, DepEnsure(ApiServerParentDir(w.base)))
    ensures RunCommands(w, m, GoCommands(w.base)) == m3
  {
    var cmds := GoCommands(w.base);
    assert cmds[1..][1..] == [cmds[2]] && [cmds[2]][1..] == [];
    assert RunCommands(w, m2, [cmds[2]]) == m3;
    assert RunCommands(w, m1, cmds[1..]) == m3;
  }

  // ---------------------------------------------------------------------
  // The method sequences as runs of the plans

  lemma HookRun(w: World, m0: Machine, m1: Machine, stage: Stage)
    requires m1 == if m0.status.Exited? then m0 else m0.(trace := m0.trace + [Hook(stage)])
    ensures m1 == Run(w, m0, BoardPlan(stage))
  {
    assert m1 == Exec(w, m0, BoardHook(stage));
  }

  lemma InitRun(w: World, m0: Machine, m1: Machine, m2: Machine, out: Path)
    requires m1 == if m0.status.Exited? then m0 else MakeDirStep(m0, out)
    requires m2 == if m1.status.Exited? then m1 else OpenLogStep(m1, out)
    ensures m2 == Run(w, m0, DeviceInitPlan(out))
  {
    var plan := DeviceInitPlan(out);
    assert m1 == Exec(w, m0, plan[0]);
    assert Run(w, m0, plan) == Run(w, m1, plan[1..]);
    assert m2 == Exec(w, m1, plan[1]);
    assert Run(w, m1, plan[1..]) == Run(w, m2, []);
  }

  lemma PrepareRun(w: World, m0: Machine, m1: Machine, m2: Machine, m3: Machine, m4: Machine, out: Path)
    requires m1 == if m0.status.Exited? then m0 else GoInit(w, m0)
    requires m2 == if m1.status.Exited? then m1 else MakeDirStep(m1, ImgDir(out))
    requires m3 == if m2.status.Exited? then m2 else MakeDirStep(m2, DistDir(out))
    requires m4 == Run(w, m3, PlatformPlan(Prepare))
    ensures m4 == Run(w, m0, DevicePreparePlan(out))
  {
    var plan := DevicePreparePlan(out);
    ExecGolangInit(w, m0);
    assert Run(w, m0, plan) == Run(w, m1, plan[1..]);
    assert m2 == Exec(w, m1, MakeDir(ImgDir(out)));
    assert Run(w, m1, plan[1..]) == Run(w, m2, plan[2..]);
    assert m3 == Exec(w, m2, MakeDir(DistDir(out)));
    assert Run(w, m2, plan[2..]) == Run(w, m3, plan[3..]);
    assert plan[3..] == PlatformPlan(Prepare);
  }

  lemma CleanRun(w: World, m0: Machine, m1: Machine, out: Path)
    requires m1 == if m0.status.Exited? then m0 else RunCommand(w, m0, Remove(out))
    ensures m1 == Run(w, m0, DeviceCleanPlan(out))
  {
    assert m1 == Exec(w, m0, RunCmd(Remove(out)));
  }

  lemma BuildRun(w: World, m0: Machine, m1: Machine, m2: Machine, m3: Machine, m4: Machine, m5: Machine, out: Path)
    requires m1 == if m0.status.Exited? then m0 else RunCommand(w, m0, Copy(w.base, "rootfs_overlay", ImgDir(out), false))
    requires m2 == if m1.status.Exited? then m1 else RunCommand(w, m1, Copy(w.base, "CDN", ImgDir(out), false))
    requires m3 == if m2.status.Exited? then m2 else RunCommand(w, m2, Copy(w.base, "devmgmt", ImgDir(out), false))
    requires m4 == if m3.status.Exited? then m3 else RunCommand(w, m3, CompileApiServer(ImgDir(out)))
    requires m5 == Run(w, m4, PlatformPlan(Build))
    ensures m5 == Run(w, m0, DeviceBuildPlan(w.base, out))
  {
    var plan := DeviceBuildPlan(w.base, out);
    assert m1 == Exec(w, m0, plan[0]);
    assert Run(w, m0, plan) == Run(w, m1, plan[1..]);
    assert m2 == Exec(w, m1, plan[1]);
    assert Run(w, m1, plan[1..]) == Run(w, m2, plan[2..]);
    assert m3 == Exec(w, m2, plan[2]);
    assert Run(w, m2, plan[2..]) == Run(w, m3, plan[3..]);
    assert m4 == Exec(w, m3, plan[3]);
    assert Run(w, m3, plan[3..]) == Run(w, m4, plan[4..]);
    assert plan[4..] == PlatformPlan(Build);
  }

  lemma OverlayRun(w: World, m0: Machine, m1: Machine, m2: Machine, m3: Machine, m4: Machine, m5: Machine, m6: Machine,
                   out: Path, profile: string)
    requires m1 == Run(w, m0, DeviceBuildPlan(w.base, out))
    requires m2 == if m1.status.Exited? then m1 else RunCommand(w, m1, Copy("profile/" + profile + "/", "rootfs_overlay", ImgDir(out), true))
    requires m3 == if m2.status.Exited? then m2 else WriteContent(m2, EtcDir(out), "hostname", TextFile(HostnameGet(profile)))
    requires m4 == if m3.status.Exited? then m3 else WriteContent(m3, EtcDir(out), "hosts", TextFile(HostsText(HostnameGet(profile))))
    requires m5 == if m4.status.Exited? then m4 else UpdateHostapdStep(m4, HostapdDir(out), "hostapd.conf", HostnameGet(profile))
    requires m6 == if m5.status.Exited? then m5 else UpdateProfileJsonStep(m5, CdnDir(out), "profile.json", profile)
    ensures m6 == Run(w, m0, ProfileBuildPlan(w.base, out, profile))
  {
    var plan := ProfileOverlayPlan(out, profile);
    var hostname := HostnameGet(profile);
    var s1 := RunCmd(Copy("profile/" + profile + "/", "rootfs_overlay", ImgDir(out), true));
    var s2 := WriteText(EtcDir(out), "hostname", hostname);
    var s3 := WriteText(EtcDir(out), "hosts", HostsText(hostname));
    var s4 := UpdateHostapd(HostapdDir(out), "hostapd.conf", hostname);
    var s5 := UpdateProfileJson(CdnDir(out), "profile.json", profile);
    assert plan == [s1, s2, s3, s4, s5];
    ExecRunCmd(w, m1, s1.cmd);
    assert Run(w, m1, plan) == Run(w, m2, [s2, s3, s4, s5]);
    ExecWriteText(w, m2, EtcDir(out), "hostname", hostname);
    assert Run(w, m2, [s2, s3, s4, s5]) == Run(w, m3, [s3, s4, s5]);
    ExecWriteText(w, m3, EtcDir(out), "hosts", HostsText(hostname));
    assert Run(w, m3, [s3, s4, s5]) == Run(w, m4, [s4, s5]);
    ExecUpdateHostapd(w, m4, HostapdDir(out), "hostapd.conf", hostname);
    assert Run(w, m4, [s4, s5]) == Run(w, m5, [s5]);
    ExecUpdateProfileJson(w, m5, CdnDir(out), "profile.json", profile);
    assert Run(w, m5, [s5]) == Run(w, m6, []);
    RunAppend(w, m0, DeviceBuildPlan(w.base, out), ProfileOverlayPlan(out, profile));
  }

  lemma PackageRun(w: World, m0: Machine, m1: Machine, out: Path, profile: string)
    requires m1 == if m0.status.Exited? then m0 else PackageImage(w, m0, out, profile)
    ensures m1 == Run(w, m0, ProfilePkgPlan(out, profile))
  {
    var plan := ProfilePkgPlan(out, profile);
    assert plan == [Package(out, profile)];
    if m0.status.Exited? {
      RunExited(w, m0, plan);
    } else {
      var s := plan[0];
      ExecPackage(w, m0, s);
      assert plan[1..] == [];
      assert Run(w, m0, plan) == Run(w, Exec(w, m0, s), []);
    }
  }

  /** The driver's stages, one after another, run the driver's plan. */
  lemma DriverRun(w: World, start: Machine, m0: Machine, m1: Machine, m2: Machine, m3: Machine, m4: Machine,
                  platform: PlatformKind, board: BoardKind, profile: ProfileKind)
    requires var out := Out(w.base, platform, board);
             && m0 == Run(w, start, DeviceInitPlan(out))
             && m1 == Run(w, m0, DevicePreparePlan(out))
             && m2 == Run(w, m1, DeviceConfigPlan())
             && m3 == Run(w, m2, ProfileBuildPlan(w.base, out, profile.Name()))
             && m4 == Run(w, m3, ProfilePkgPlan(out, profile.Name()))
    ensures m4 == Run(w, start, DriverPlan(w.base, platform, board, profile, false))
  {
    var out := Out(w.base, platform, board);
    var prepare := DevicePreparePlan(out);
    var config := DeviceConfigPlan();
    var build := ProfileBuildPlan(w.base, out, profile.Name());
    var pkg := ProfilePkgPlan(out, profile.Name());
    RunAppend(w, m0, prepare, config);
    RunAppend(w, m0, prepare + config, build);
    RunAppend(w, m0, prepare + config + build, pkg);
    RunAppend(w, start, DeviceInitPlan(out), prepare + config + build + pkg);
  }

  lemma DriverCleanRun(w: World, start: Machine, m0: Machine, m1: Machine, platform: PlatformKind, board: BoardKind, profile: ProfileKind)
    requires var out := Out(w.base, platform, board);
             && m0 == Run(w, start, DeviceInitPlan(out))
             && m1 == Run(w, m0, DeviceCleanPlan(out))
    ensures m1 == Run(w, start, DriverPlan(w.base, platform, board, profile, true))
  {
    var out := Out(w.base, platform, board);
    RunAppend(w, start, DeviceInitPlan(out), DeviceCleanPlan(out));
  }

  // ---------------------------------------------------------------------
  // The objects of the build

  /** A board; its stage methods have nothing to do. */
  class Board {
    const kind: BoardKind
    const host: Host

    constructor(host: Host, kind: BoardKind)
      ensures this.host == host && this.kind == kind
    {
      this.host := host;
      this.kind := kind;
    }

    method DoPrepare()
      modifies host
      ensures host.State() == Run(host.world, old(host.State()), BoardPlan(Prepare))
    {
      ghost var m0 := host.State();
      host.ReachHook(Prepare);
      HookRun(host.world, m0, host.State(), Prepare);
    }

    method DoConfig()
      modifies host
      ensures host.State() == Run(host.world, old(host.State()), BoardPlan(Config))
    {
      ghost var m0 := host.State();
      host.ReachHook(Config);
      HookRun(host.world, m0, host.State(), Config);
    }

    method DoBuild()
      modifies host
      ensures host.State() == Run(host.world, old(host.State()), BoardPlan(Build))
    {
      ghost var m0 := host.State();
      host.ReachHook(Build);
      HookRun(host.world, m0, host.State(), Build);
    }
  }

  /** A platform; every stage is its board's. */
  class Platform {
    const kind: PlatformKind
    const board: Board

    constructor(host: Host, platformtype: PlatformKind, boardtype: BoardKind)
      ensures kind == platformtype && board.kind == boardtype && board.host == host
    {
      kind := platformtype;
      board := new Board(host, boardtype);
    }

    method DoPrepare()
      modifies board.host
      ensures board.host.State() == Run(board.host.world, old(board.host.State()), PlatformPlan(Prepare))
    {
      board.DoPrepare();
    }

    method DoConfig()
      modifies board.host
      ensures board.host.State() == Run(board.host.world, old(board.host.State()), PlatformPlan(Config))
    {
      board.DoConfig();
    }

    method DoBuild()
      modifies board.host
      ensures board.host.State() == Run(board.host.world, old(board.host.State()), PlatformPlan(Build))
    {
      board.DoBuild();
    }
  }

  /** A device: its output, staging and dist directories, and the stages
      common to every profile. */
  class Device {
    const kind: DeviceKind
    const platform: Platform
    const host: Host
    const out: Path
    const imgDir: Path
    const distDir: Path

    predicate Valid() {
      platform.board.host == host && imgDir == ImgDir(out) && distDir == DistDir(out)
    }

    /** Device.__init__: make the output directory and open the log. */
    constructor(host: Host, devicetype: DeviceKind, platformtype: PlatformKind, boardtype: BoardKind)
      modifies host
      ensures Valid() && this.host == host && kind == devicetype
      ensures platform.kind == platformtype && platform.board.kind == boardtype
      ensures out == OutputDir(host.world.base, platformtype.Name(), boardtype.Name(), devicetype.Name())
      ensures host.State() == Run(host.world, old(host.State()), DeviceInitPlan(out))
    {
      kind := devicetype;
      platform := new Platform(host, platformtype, boardtype);
      this.host := host;
      var output := BuildDir(host.world.base) + "output_" + platformtype.Name() + "_" + boardtype.Name() + "_" + devicetype.Name() + "/";
      out := output;
      imgDir := output + "opencdn/";
      distDir := output + "dist/";
      new;
      ghost var m0 := host.State();
      host.MakeDirectory(out);
      ghost var m1 := host.State();
      host.OpenLogFile(out);
      InitRun(host.world, m0, m1, host.State(), out);
    }

    method DoPrepare()
      requires Valid()
      modifies host
      ensures host.State() == Run(host.world, old(host.State()), DevicePreparePlan(out))
    {
      ghost var m0 := host.State();
      host.InitGolang();
      ghost var m1 := host.State();
      host.MakeDirectory(imgDir);
      ghost var m2 := host.State();
      host.MakeDirectory(distDir);
      ghost var m3 := host.State();
      platform.DoPrepare();
      PrepareRun(host.world, m0, m1, m2, m3, host.State(), out);
    }

    method DoConfig()
      requires Valid()
      modifies host
      ensures host.State() == Run(host.world, old(host.State()), DeviceConfigPlan())
    {
      platform.DoConfig();
    }

    method DoClean()
      requires Valid()
      modifies host
      ensures host.State() == Run(host.world, old(host.State()), DeviceCleanPlan(out))
    {
      ghost var m0 := host.State();
      host.Shell(Remove(out));
      CleanRun(host.world, m0, host.State(), out);
    }

    method DoBuild()
      requires Valid()
      modifies host
      ensures host.State() == Run(host.world, old(host.State()), DeviceBuildPlan(host.world.base, out))
    {
      ghost var m0 := host.State();
      host.Shell(Copy(host.world.base, "rootfs_overlay", imgDir, false));
      ghost var m1 := host.State();
      host.Shell(Copy(host.world.base, "CDN", imgDir, false));
      ghost var m2 := host.State();
      host.Shell(Copy(host.world.base, "devmgmt", imgDir, false));
      ghost var m3 := host.State();
      host.Shell(CompileApiServer(imgDir));
      ghost var m4 := host.State();
      platform.DoBuild();
      BuildRun(host.world, m0, m1, m2, m3, m4, host.State(), out);
    }

    method DoPkg()
      requires Valid()
      modifies host
      ensures host.State() == Run(host.world, old(host.State()), DevicePkgPlan())
    {
    }
  }

  /** A profile: a device build with the profile's overlay, hostname and
      version suffix. */
  class Profile {
    const kind: ProfileKind
    const profile: string
    const hostname: string
    const device: Device

    predicate Valid() {
      device.Valid() && profile == kind.Name() && hostname == HostnameGet(profile)
    }

    constructor(host: Host, profiletype: ProfileKind, devicetype: DeviceKind, platformtype: PlatformKind, boardtype: BoardKind)
      modifies host
      ensures Valid() && device.host == host && kind == profiletype
      ensures device.out == OutputDir(host.world.base, platformtype.Name(), boardtype.Name(), devicetype.Name())
      ensures host.State() == Run(host.world, old(host.State()), DeviceInitPlan(device.out))
    {
      device := new Device(host, devicetype, platformtype, boardtype);
      kind := profiletype;
      profile := profiletype.Name();
      hostname := HostnameGet(profiletype.Name());
    }

    method DoPrepare()
      requires Valid()
      modifies device.host
      ensures device.host.State() == Run(device.host.world, old(device.host.State()), DevicePreparePlan(device.out))
    {
      device.DoPrepare();
    }

    method DoConfig()
      requires Valid()
      modifies device.host
      ensures device.host.State() == Run(device.host.world, old(device.host.State()), DeviceConfigPlan())
    {
      device.DoConfig();
    }

    method DoBuild()
      requires Valid()
      modifies device.host
      ensures device.host.State()
           == Run(device.host.world, old(device.host.State()), ProfileBuildPlan(device.host.world.base, device.out, profile))
    {
      var host := device.host;
      var img := device.imgDir;
      ghost var w := host.world;
      ghost var out := device.out;
      ghost var m0 := host.State();
      device.DoBuild();
      ghost var m1 := host.State();
      assert m1 == Run(w, m0, DeviceBuildPlan(w.base, out));
      host.Shell(Copy("profile/" + profile + "/", "rootfs_overlay", img, true));
      ghost var m2 := host.State();
      assert m2 == if m1.status.Exited? then m1 else RunCommand(w, m1, Copy("profile/" + profile + "/", "rootfs_overlay", ImgDir(out), true));
      var etc := img + "rootfs_overlay/etc/";
      assert etc == EtcDir(out);
      host.WriteTextFile(etc, "hostname", hostname);
      ghost var m3 := host.State();
      assert m3 == if m2.status.Exited? then m2 else WriteContent(m2, EtcDir(out), "hostname", TextFile(HostnameGet(profile)));
      host.WriteTextFile(etc, "hosts", HostsText(hostname));
      ghost var m4 := host.State();
      assert m4 == if m3.status.Exited? then m3 else WriteContent(m3, EtcDir(out), "hosts", TextFile(HostsText(HostnameGet(profile))));
      host.UpdateHostapdConf(etc + "hostapd/", "hostapd.conf", hostname);
      ghost var m5 := host.State();
      assert m5 == if m4.status.Exited? then m4 else UpdateHostapdStep(m4, HostapdDir(out), "hostapd.conf", HostnameGet(profile));
      host.UpdateProfileJsonFile(img + "CDN/", "profile.json", profile);
      assert host.State() == if m5.status.Exited? then m5 else UpdateProfileJsonStep(m5, CdnDir(out), "profile.json", profile);
      OverlayRun(host.world, m0, m1, m2, m3, m4, m5, host.State(), device.out, profile);
    }

    method DoPkg()
      requires Valid()
      modifies device.host
      ensures device.host.State() == Run(device.host.world, old(device.host.State()), ProfilePkgPlan(device.out, profile))
    {
      ghost var m0 := device.host.State();
      device.DoPkg();
      device.host.PackageVersion(device.out, profile);
      PackageRun(device.host.world, m0, device.host.State(), device.out, profile);
    }

    method DoClean()
      requires Valid()
      modifies device.host
      ensures device.host.State() == Run(device.host.world, old(device.host.State()), DeviceCleanPlan(device.out))
    {
      device.DoClean();
    }
  }

  /** The script's main block. */
  method BuildImage(world: World, fs: Fs, board: BoardKind, platform: PlatformKind, profile: ProfileKind, clean: bool)
      returns (code: int, final: Fs)
    ensures var last := Run(world, Machine(fs, [], 0, Running), DriverPlan(world.base, platform, board, profile, clean));
            code == ExitStatus(last) && final == last.fs
  {
    var host := new Host(world, fs);
    ghost var start := host.State();
    var d := new Profile(host, profile, OpenRap, platform, board);
    ghost var m0 := host.State();
    if clean {
      d.DoClean();
      DriverCleanRun(world, start, m0, host.State(), platform, board, profile);
    } else {
      d.DoPrepare();
      ghost var m1 := host.State();
      d.DoConfig();
      ghost var m2 := host.State();
      d.DoBuild();
      ghost var m3 := host.State();
      d.DoPkg();
      DriverRun(world, start, m0, m1, m2, m3, host.State(), platform, board, profile);
    }
    code := if host.status.Running? then 0 else host.status.code % 256;
    final := host.fs;
  }
}
