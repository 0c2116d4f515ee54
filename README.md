# OpenRAP image build driver, modelled in Dafny

`buildimage.py` builds the OpenRAP content-server image for one combination
of board (`rpi`, `opi`), platform (`raspbian`, `armbian`), device (`openrap`)
and profile (`meghshala`, `ekstep`). It can also clean that combination's
build output. Without `--clean`, a `Profile` object (a `Device`, which
owns a `Platform`, which owns a `Board`) goes through four stages:

- prepare: set up the Go workspace, then make the staging (`opencdn/`) and
  `dist/` directories;
- config: nothing beyond the board hook;
- build: copy the root filesystem overlay, the CDN tree and the device
  manager, compile the API server, then lay the profile's overlay on top.
  After that it rewrites hostname, hosts, the hostapd SSID and
  `profile.json`;
- pkg: give the version in `CDN/version.txt` the profile's two-letter
  suffix, then pack the staging tree into `dist/openrap-<version>.tgz`.

Every shell command goes through `run_cmd`. A non-zero status ends the
process with that status, an uncaught exception ends it with status 1, and
a missing `go` ends it with status 0.

The model has four layers.

- **Values** (`text.dfy`, `naming.dfy`, `config_files.dfy`,
  `profile_json.dfy`, `filesys.dfy`, `shell.dfy`):
  - Python's text-mode reading, `for line in f` and `str.splitlines()[0]`;
  - the version suffix, hostname, version rewrite, archive name and
    directory layout;
  - the hosts and hostapd.conf rewrites (the latter also as the script's
    loop, `ConfigFiles.RewriteHostapdConf`);
  - the `active_profile` update of a parsed JSON document;
  - a file system of directories and files with `os.makedirs`, `open`,
    `cp -r`, `rm -rf` and the tree `tar` packs;
  - how the shell cuts a command line into words at blanks and quotes.
- **Steps** (`steps.dfy`): a `Machine` holds the file system, the trace of
  events, the number of commands issued and the process status. A `World`
  supplies what the script cannot see into:
  - the working directory, an absolute path with a trailing "/" as the script forms it from `$PWD`;
  - whether `go` is on the PATH;
  - the exit status of the n-th shell command.

  `Exec` performs one step and does nothing once the process has exited.
  `Run` performs a plan of steps. `Coherent` is the invariant tying the
  trace to the exit status.
- **Stages** (`stages.dfy`): each stage method of Board, Platform, Device
  and Profile, and the main block, as a plan. The lemmas state what running
  the plans does.
- **Objects** (`build.dfy`): class `Host` is the running interpreter, whose
  fields the methods update. Classes `Board`, `Platform`, `Device` and
  `Profile` hold the script's stage methods. `BuildImage` is the main
  block. Every method is proved to leave exactly the state its plan
  prescribes.

Packaging the same build directory twice does not compound the version
suffix. The code:
- reads back the first line of the version it wrote itself;
- replaces that line's last two characters with the suffix;
- writes the result without a newline.

So a second packaging with the same profile writes the same version and
archive name (`Stages.RepackageSameVersion`). Packaging with another
profile replaces the suffix rather than adding to it
(`Naming.RewriteVersionLastWins`).

## Model

| member | source | states |
|---|---|---|
| Naming.VersionSuffix | buildimage.py:40-47 | the suffix is "MS" exactly for meghshala, "ES" exactly for ekstep and "DF" for every other profile; it has two characters and ignores the version |
| Naming.HostnameRoundTrip | buildimage.py:50-55 | hostname_get is one-to-one: ProfileOfHostname gives back a profile exactly when hostname_get maps that profile to the hostname |
| Naming.RewriteVersion | buildimage.py:336 | `version[:-2] + suffix`: the result ends in the profile's suffix. From a version of two or more characters it keeps all but the last two, at the same length; from a shorter one it is the suffix alone |
| Naming.RewriteVersionLastWins | buildimage.py:336 | rewriting with one profile and then another equals rewriting with the second alone |
| Naming.RewriteVersionIdempotent | buildimage.py:336 | rewriting a rewritten version with the same profile changes nothing |
| Naming.ArchiveNameRoundTrip | buildimage.py:338 | the archive name `openrap-<version>.tgz` determines the version: VersionOfArchive recovers it exactly from names of that form |
| Naming.LayoutSeparated | buildimage.py:185-188 | the staging and dist directories both lie inside the output directory and neither lies inside the other |
| Naming.OutputDirsSeparate | buildimage.py:185 | two different (platform, board) choices get output directories neither of which lies inside the other |
| Text.Translate | buildimage.py:29-30 | text-mode reading leaves no carriage return, never lengthens the text and gives empty text only from an empty file |
| Text.TranslateKeeps | buildimage.py:29-30 | text without a carriage return reads back unchanged |
| Text.LinesJoin | buildimage.py:69-70 | iterating a file yields lines, each ending in its newline except possibly the last, whose concatenation is the whole text |
| Text.JoinLines | buildimage.py:75-77 | writing such lines and reading them back gives the same lines |
| Text.FirstLine | buildimage.py:30-32 | `splitlines()[0]` is the longest prefix of the text that holds no line boundary character |
| ConfigFiles.HostsLines | buildimage.py:61-65 | the hosts file reads back as exactly two lines: 127.0.0.1 localhost, then 127.0.1.1 with the hostname |
| ConfigFiles.KeptAppend | buildimage.py:70-72 | the filter distributes over concatenation, so surviving lines keep their input order |
| ConfigFiles.KeptMembers | buildimage.py:70-72 | a line survives exactly when it is an input line that does not start with "ssid" |
| ConfigFiles.KeptIdempotent | buildimage.py:70-72 | filtering the survivors again keeps all of them |
| ConfigFiles.RewriteHostapdConf | buildimage.py:67-77 | the loop over the file's lines produces the SSID line followed by the concatenated surviving lines (HostapdConf) |
| ConfigFiles.HostapdConfLines | buildimage.py:67-77 | read back line by line, the rewritten file is the new SSID line followed by exactly the input lines that do not start with "ssid", in order |
| ConfigFiles.HostapdConfIdempotent | buildimage.py:67-77 | rewriting the rewritten file with the same hostname gives the same file |
| ProfileJson.SetActiveProfile | buildimage.py:80-86 | the update succeeds exactly on a JSON object; it sets "active_profile" to the profile string, adds no other key and keeps every other member |
| ProfileJson.SetActiveProfileReadBack | buildimage.py:80-86 | the active profile reads back as the one written, and the update leaves a document unchanged exactly when it already names that profile |
| ProfileJson.SetActiveProfileIdempotent | buildimage.py:80-86 | updating twice with the same profile equals updating once |
| FileSys.MakeDirs | buildimage.py:189-190 | `os.makedirs` succeeds exactly on a non-empty path that is not yet a directory and has no plain file on its way; it then adds the path and all its ancestors and leaves the files alone |
| FileSys.EnsureDir | buildimage.py:189-193 | the guarded creation fails exactly when the path is not a directory and cannot be made one; on success the path is a directory, no directory is lost, files are untouched, and an existing directory leaves everything as it was |
| FileSys.EnsureDirIdempotent | buildimage.py:237-248 | creating a build directory a second time changes nothing and cannot fail |
| FileSys.MakeAll | buildimage.py:107-115 | the GOPATH directories made inside one try block add directories only and never touch a file |
| FileSys.Write | buildimage.py:36-38 | opening for writing succeeds exactly when the parent directory exists and the path is not a directory; the file then holds the new content and every other file and every directory is unchanged |
| FileSys.ReadText | buildimage.py:29-30 | a read succeeds exactly on an existing text file and yields its text |
| FileSys.ReadJson | buildimage.py:81-82 | `json.load` succeeds exactly on an existing JSON file and yields its document |
| FileSys.SubtreeFacts | buildimage.py:339 | the tree tar packs holds, under its relative path, exactly the files below the staging directory |
| FileSys.CopyTreeFacts | buildimage.py:264-273 | `cp -r` (the overlay copies at buildimage.py line 311) puts every file of the source tree at the same relative path below the target. It keeps, with its content, every file the source tree does not shadow, including files already below the target (the device overlay under the profile overlay). It creates no file and no directory except the copies of the source's files and directories |
| FileSys.RemoveTreeLargest | buildimage.py:259-260 | `rm -rf` leaves the largest part of the file system with nothing below the path: nothing below it survives, nothing appears and no content changes, and every part with nothing below the path is kept whole |
| FileSys.RemoveTreeIdempotent | buildimage.py:256-260 | removing the tree twice removes nothing more |
| Steps.RemoveLineSplits | buildimage.py:259 | the clean command as written, with a blank in the directory, hands `rm` the pieces of the path as separate operands and never the directory itself |
| Steps.QuotedRemoveWords | buildimage.py:256-260 | with the directory quoted, `rm` receives `-rf` and the directory as its one operand, whatever blanks the path holds |
| Steps.RunCommand | buildimage.py:354-362 | run_cmd records the command with its status and counts it; status 0 applies the command's effect and keeps running; any other status exits with it and leaves the files as they were |
| Steps.Raise | buildimage.py:192-193 | an uncaught exception changes no file and issues no command |
| Steps.VersionGet | buildimage.py:28-33 | version_get succeeds exactly on a non-empty text file and yields the first line of its text as text mode reads it |
| Steps.RunExited | buildimage.py:362 | once the process has exited, no later step changes anything |
| Steps.RunCommandSucceeded | buildimage.py:354-362 | a command that exits with 0 appends its record and applies its effect |
| Steps.ToolCommandsKeepFs | buildimage.py:117-125 | the three toolchain commands leave the modelled file system as they found it, whatever their status |
| Steps.GoInitDirs | buildimage.py:89-127 | a golang_init that lets the script go on found `go`, keeps every file and loses no directory, and leaves GOPATH a directory whenever it was one or os.makedirs could make it |
| Steps.GolangInitCoherent | buildimage.py:89-127 | golang_init keeps the trace and exit status in agreement (missing go exits 0, a failed command exits with its status) |
| Steps.ExecCoherent | buildimage.py:354-362 | every kind of step keeps the machine coherent: no fatal event before the last, running exactly when the last event is not fatal, exit code dictated by that event |
| Steps.RunCoherent | buildimage.py:354-362 | every run from a coherent machine stays coherent |
| Stages.FailedCommandStops | buildimage.py:359-362 | when the command at position k of a plan fails, the run ends right there with that status, and nothing after it is done |
| Stages.RunSimple | buildimage.py:354-362 | a run of one-event steps that ends running has left exactly one expected event per step, in plan order |
| Stages.DeviceBuildEvents | buildimage.py:262-282 | Device.do_build copies rootfs_overlay, CDN and devmgmt, compiles the API server and reaches the platform hook, in that order |
| Stages.OverlayEvents | buildimage.py:310-328 | the profile part of do_build copies the profile overlay, then writes hostname, hosts, hostapd.conf and profile.json, in that order |
| Stages.ProfileBuildEvents | buildimage.py:305-328 | Profile.do_build is the device build followed by the profile overlay, all ten events in order |
| Stages.OverlayPathsDistinct | buildimage.py:315-327 | the four files the profile rewrites are four different paths |
| Stages.WriteTextSucceeded | buildimage.py:57-65 | a successful text write replaces exactly that one file |
| Stages.UpdateHostapdSucceeded | buildimage.py:67-77 | a successful hostapd.conf update found a text file and replaced exactly it with its rewrite |
| Stages.UpdateProfileJsonSucceeded | buildimage.py:80-86 | a successful profile.json update found a JSON object and replaced exactly it with the updated object |
| Stages.OverlayFiles | buildimage.py:310-328 | after the overlay copy, do_build leaves hostname = the hostname, hosts = the two fixed lines, hostapd.conf rewritten from what the copy left, profile.json with the profile active, and every other file as the copy left it |
| Stages.CleanRemovesOutput | buildimage.py:256-260 | a successful clean removes the output directory with everything below it and keeps every other file and directory |
| Stages.MakeDirExisting | buildimage.py:189-193 | creating an existing build directory only records it |
| Stages.OpenLogExisting | buildimage.py:208-211 | opening an existing log file in append mode keeps its content |
| Stages.GolangInitExisting | buildimage.py:102-104 | golang_init with go installed and GOPATH present does nothing |
| Stages.MakeDirEstablishes | buildimage.py:189-193 | a guarded makedirs that lets the script go on leaves the path a directory, keeps every file and loses no directory |
| Stages.InitEstablishes | buildimage.py:180-211 | a first Device construction that goes on leaves the output directory holding the log file, as InitAgain asks |
| Stages.InitTwice | buildimage.py:180-211 | constructing the device a second time over what the first left changes no file or directory |
| Stages.InitAgain | buildimage.py:180-196 | constructing the device again over an existing output directory and log file changes no file |
| Stages.DevicePrepareAgain | buildimage.py:231-250 | preparing again with the workspace and directories present changes no file or directory |
| Stages.PrepareEstablishes | buildimage.py:231-250 | a first do_prepare that goes on found `go` and leaves staging and dist in place, and GOPATH too unless a file stood in the way, as DevicePrepareAgain asks |
| Stages.PrepareTwice | buildimage.py:231-250 | preparing a second time over what the first left changes no file or directory, when GOPATH could be made |
| Stages.PackageNeedsVersion | buildimage.py:28-33 | with no non-empty text version file, get_version raises inside do_pkg: the script exits with status 1, records the fault and changes no file |
| Stages.PackageSteps | buildimage.py:330-340 | a successful do_pkg read a version, wrote the suffixed version back and then ran tar, with nothing in between |
| Stages.PackageResult | buildimage.py:330-340 | a successful do_pkg found a non-empty text version file. It replaced it with the packaged version and added, under dist, the archive named after that version, packing the staging tree as written; the trace gains exactly the write and the tar |
| Stages.ArchiveHoldsVersion | buildimage.py:339 | the packed tree holds the version file with the written version |
| Stages.PackagedVersionStable | buildimage.py:28-38 | a written version reads back as itself, so deriving the packaged version again gives the same version |
| Stages.RepackageSameVersion | buildimage.py:330-340 | packaging a packaged build again writes the same version and runs tar for the same archive name |
| Stages.ExitStatus | buildimage.py:362 | the process status lies in 0..255 |
| Stages.RunExitStatus | buildimage.py:354-362 | every run from a coherent machine ends in a state its trace explains (TraceExplainsExit) |
| Stages.DriverExitStatus | buildimage.py:372-393 | the script runs to the end exactly when nothing fatal happened, and then exits 0; otherwise its first fatal event is the last event and dictates the exit status (0 for a missing `go`, the command's status for a failed command, 1 for an uncaught exception) |
| Stages.PackageArchive | buildimage.py:330-341 | after a successful do_pkg the version file holds the packaged version, and dist holds an archive of that name packing the version file; the tar was the last event |
| Stages.DriverArchive | buildimage.py:384-393 | a build that ends without error leaves in dist an archive named after the staged version, packing that version file; the tar was the last thing the script did |
| Build.Host.constructor | buildimage.py:8-9 | the interpreter starts running with the given file system, an empty trace and no command issued |
| Build.Host.Abort | buildimage.py:192-193 | an uncaught exception exits with status 1 and records the fault |
| Build.Host.Shell | buildimage.py:354-362 | the method performs exactly RunCommand, and does nothing once exited |
| Build.Host.MakeDirectory | buildimage.py:189-193 | the try/except around os.makedirs performs exactly the guarded directory step |
| Build.Host.OpenLogFile | buildimage.py:208-211 | append-mode open of the log file performs exactly the log step |
| Build.Host.WriteFile | buildimage.py:36-38 | an `open(..., "w")` write performs exactly WriteContent |
| Build.Host.WriteTextFile | buildimage.py:57-65 | file_hostname_update and file_hosts_update write their text, or do nothing once exited |
| Build.Host.UpdateHostapdConf | buildimage.py:67-77 | file_hostapdconf_update performs exactly the hostapd step, using the loop RewriteHostapdConf |
| Build.Host.UpdateProfileJsonFile | buildimage.py:80-86 | file_profilejson_update performs exactly the profile.json step |
| Build.Host.ReachHook | buildimage.py:160-167 | a board stage method only records that it was reached |
| Build.Host.InitGolang | buildimage.py:89-127 | golang_init performs exactly GoInit |
| Build.Host.PackageVersion | buildimage.py:333-340 | the version part of do_pkg performs exactly PackageImage |
| Build.Board.constructor | buildimage.py:156-158 | the board records its kind |
| Build.Board.DoPrepare | buildimage.py:160-161 | the board's prepare runs the board plan for Prepare |
| Build.Board.DoConfig | buildimage.py:163-164 | the board's config runs the board plan for Config |
| Build.Board.DoBuild | buildimage.py:166-167 | the board's build runs the board plan for Build |
| Build.Platform.constructor | buildimage.py:135-137 | the platform records its kind and owns a board of the given kind |
| Build.Platform.DoPrepare | buildimage.py:139-140 | forwards to the board: runs the platform plan for Prepare |
| Build.Platform.DoConfig | buildimage.py:142-143 | forwards to the board: runs the platform plan for Config |
| Build.Platform.DoBuild | buildimage.py:145-146 | forwards to the board: runs the platform plan for Build |
| Build.Device.constructor | buildimage.py:180-196 | the output directory is `build/output_<platform>_<board>_<device>/`, staging and dist lie below it, and construction runs the init plan (guarded mkdir, log open) |
| Build.Device.DoPrepare | buildimage.py:231-250 | runs golang_init, the two guarded mkdirs and the platform hook, as the prepare plan |
| Build.Device.DoConfig | buildimage.py:253-254 | runs the config plan |
| Build.Device.DoClean | buildimage.py:256-260 | runs `rm -rf` on the output directory, as the clean plan |
| Build.Device.DoBuild | buildimage.py:262-282 | runs the three copies, the compile and the platform hook, as the device build plan |
| Build.Device.DoPkg | buildimage.py:284-285 | does nothing |
| Build.Profile.constructor | buildimage.py:294-297 | constructs the device (running its init plan) and derives the hostname from the profile |
| Build.Profile.DoPrepare | buildimage.py:299-300 | runs the device prepare plan |
| Build.Profile.DoConfig | buildimage.py:302-303 | runs the device config plan |
| Build.Profile.DoBuild | buildimage.py:305-328 | runs the device build and then the profile overlay steps, as the profile build plan |
| Build.Profile.DoPkg | buildimage.py:330-341 | runs the device pkg and then the version rewrite and tar, as the profile pkg plan |
| Build.Profile.DoClean | buildimage.py:343-348 | runs the device clean plan |
| Build.BuildImage | buildimage.py:372-393 | the main block's exit status and final file system are those of the driver plan's run |

## Left out

- Logging: the logger, its handlers, the console output and the `print` calls are not modelled. Only the log file's creation by the append-mode open is.
- Environment variables: GOPATH, GOBIN and PATH are set but never read by the model. The working directory is a parameter (`World.base`), taken as the directory the script runs in.
- Shell commands are not executed. Their exit status comes from the `World.shell` oracle, indexed by the order of issue. The file-system effects of `go get`, `ln -s` and `dep ensure` (the dep tool under GOPATH, the apiserver link, the vendor tree) are not modelled: `Steps.ToolCommandsKeepFs` states that they keep the files and directories as the GOPATH `os.makedirs` calls left them. `go build` leaves an executable named after the package it builds.
- Steps.RunCommand: a command that fails leaves the files as they were; whatever it did before failing is not modelled.
- Archive member names: `tar` run from dist on `../opencdn` stores each member under `opencdn/` (with the leading `../` stripped). The model keys an archive's tree by the path relative to the staging directory.
- `cp -r` of a plain file and copies whose source is missing: a failed copy is modelled only through its exit status.
- File contents are text, parsed JSON, an executable or an archive. Reading a non-text file as text is a failure. JSON text, key order and `json.dumps` formatting are not modelled.
- File permissions, links, the clock and concurrent builds are not modelled.
- Inheritance (Profile from Device) is modelled as composition: a Profile owns its Device and forwards to it.
- Board hooks do nothing in the source; the model records a `Hook` event so the stage order stays visible.
- `Device.__str__` is not modelled: it refers to attributes that do not exist and is never called.
- The unused module-level `ver_file` is not modelled: `do_pkg` shadows it.
- Command-line parsing: `argparse` choices are the enumerated kinds. The defaults and the usage messages are not modelled.
- The exit status of `sys.exit(n)` is taken as `n` modulo 256.
- `dbsdk/index.js`, `src/sdks/DataBaseSDK.ts` and `src/managers/DownloadManager/DownloadManagerHelper.ts` are not part of this model: the build script does not use them.
- Stages.CleanRemovesOutput: states what `rm -rf` does when the output directory reaches it as one shell word. The command as written does not quote it, so a blank in the working directory makes the shell remove other paths instead (see Findings).
- Steps.Effect: every command is taken to receive each path and the archive name as one shell word. The `cp`, `cd`, `go build` and `tar` lines (buildimage.py:264-273, 278, 311, 339) are unquoted too, so a blank or a shell metacharacter (`;`, `&`, `$`, `*`, quotes) in the working directory or the version text changes what they do. The word splitting of `Shell.Words` covers blanks and single quotes only.
- Stages.PackageArchive: the archive name is built from the version file's text and reaches `tar` unquoted; the lemma takes it as one shell word.
- Stages.DriverArchive: takes the working directory and the version text as shell words, as Steps.Effect does.
- Stages.PrepareTwice: assumes GOPATH is a directory or can be made. When a file stands at its path, os.makedirs fails quietly and every later do_prepare runs the three toolchain commands again.
- FileSys.MakeAll: the contract states only that no file changes and no directory is lost; which directories it makes before the first failure is given by its definition.
- Steps.Raise: the contract states only that the files and the command count are kept; the recorded fault and exit status 1 are stated by Build.Host.Abort and Steps.ExecCoherent.

## Findings

| source | as written | input that shows it | evidently intended | confidence | as-written member | corrected member |
|---|---|---|---|---|---|---|
| buildimage.py:259 | `do_clean` hands `rm -rf` followed by the output directory, unquoted, to a shell (buildimage.py:357) | working directory `/home/my builds/`: the shell splits the line, and `rm -rf` receives `/home/my` and `builds/build/output_raspbian_rpi_openrap/` as two operands | remove the output directory and nothing else, i.e. pass it as one quoted word | not executed; /bin/sh splits unquoted words at blanks | Steps.RemoveLineSplits | Steps.QuotedRemoveWords |
