/**
 * The names the build derives from its inputs: the enumerated kinds the
 * command line accepts, the version suffix, the hostname, the rewritten
 * version, the archive name and the directory layout of one build.
 */
module Naming {
  import opened Text
  import opened Wrappers

  datatype BoardKind = Rpi | Opi {
    function Name(): string {
      match this
      case Rpi => "rpi"
      case Opi => "opi"
    }
  }

  datatype PlatformKind = Raspbian | Armbian {
    function Name(): string {
      match this
      case Raspbian => "raspbian"
      case Armbian => "armbian"
    }
  }

  /** The device kind is fixed by the driver; "openrap" is its only value. */
  datatype DeviceKind = OpenRap {
    function Name(): string { "openrap" }
  }

  datatype ProfileKind = Meghshala | Ekstep {
    function Name(): string {
      match this
      case Meghshala => "meghshala"
      case Ekstep => "ekstep"
    }
  }

  // ---------------------------------------------------------------------
  // version_suffix, hostname_get, the version rewrite and the archive name

  /** The two-letter code of a profile; the version argument plays no part. */
  function VersionSuffix(profile: string, version: string): (suffix: string)
    ensures |suffix| == 2
    ensures suffix == "MS" <==> profile == "meghshala"
    ensures suffix == "ES" <==> profile == "ekstep"
    ensures suffix == "DF" <==> profile != "meghshala" && profile != "ekstep"
  {
    if profile == "meghshala" then "MS"
    else if profile == "ekstep" then "ES"
    else "DF"
  }

  function HostnameGet(profile: string): (hostname: string)
  {
    if profile == "openrap" then "openRAP" else profile + "ORAP"
  }

  /** The inverse of HostnameGet: the profile a hostname was derived from. */
  function ProfileOfHostname(hostname: string): (profile: Option<string>)
  {
    if hostname == "openRAP" then Some("openrap")
    else if EndsWith(hostname, "ORAP") && hostname[..|hostname| - 4] != "openrap" then
      Some(hostname[..|hostname| - 4])
    else None
  }

  /** HostnameGet is one-to-one: a hostname names exactly one profile, and
      ProfileOfHostname recovers it. */
  lemma HostnameRoundTrip(profile: string, hostname: string)
    ensures ProfileOfHostname(hostname) == Some(profile) <==> HostnameGet(profile) == hostname
  {
    if profile != "openrap" {
      var h := profile + "ORAP";
      assert h[..|h| - 4] == profile;
      assert h[|h| - 4..] == "ORAP";
    }
    if hostname != "openRAP" && EndsWith(hostname, "ORAP") {
      assert hostname[..|hostname| - 4] + "ORAP" == hostname;
    }
  }

  /** Python's `version[:-2] + suffix`. */
  function RewriteVersion(version: string, profile: string): (v: string)
    ensures |v| >= 2 && v[|v| - 2..] == VersionSuffix(profile, version)
    ensures |version| >= 2 ==> |v| == |version| && v[..|v| - 2] == version[..|version| - 2]
    ensures |version| < 2 ==> v == VersionSuffix(profile, version)
  {
    (if |version| >= 2 then version[..|version| - 2] else "") + VersionSuffix(profile, version)
  }

  /** Rewriting an already rewritten version with the same profile changes
      nothing: repackaging does not pile suffixes up. */
  lemma RewriteVersionIdempotent(version: string, profile: string)
    ensures RewriteVersion(RewriteVersion(version, profile), profile) == RewriteVersion(version, profile)
  {
    RewriteVersionLastWins(version, profile, profile);
  }

  /** Rewriting with one profile and then another gives what rewriting
      with the second alone gives: a later suffix replaces an earlier one
      and never piles onto it. */
  lemma RewriteVersionLastWins(version: string, first: string, second: string)
    ensures RewriteVersion(RewriteVersion(version, first), second) == RewriteVersion(version, second)
  {
    var v := RewriteVersion(version, first);
    assert v[..|v| - 2] == if |version| >= 2 then version[..|version| - 2] else "";
  }

  function ArchiveName(version: string): (name: string)
  {
    "openrap-" + version + ".tgz"
  }

  /** The version an archive name carries. */
  function VersionOfArchive(name: string): (version: Option<string>)
  {
    if StartsWith(name, "openrap-") && EndsWith(name, ".tgz") && |name| >= 12 then
      Some(name[8..|name| - 4])
    else None
  }

  lemma ArchiveNameRoundTrip(version: string, name: string)
    ensures VersionOfArchive(name) == Some(version) <==> ArchiveName(version) == name
  {
    var a := ArchiveName(version);
    assert a[..8] == "openrap-" && a[|a| - 4..] == ".tgz" && a[8..|a| - 4] == version;
    if VersionOfArchive(name) == Some(version) {
      assert name == name[..8] + name[8..|name| - 4] + name[|name| - 4..];
    }
  }

  // ---------------------------------------------------------------------
  // Directory layout

  function BuildDir(base: string): string { base + "build/" }
  function GoPath(base: string): string { base + "build/go/" }
  function ApiServerParentDir(base: string): string { GoPath(base) + "src/github.com/projectOpenRAP/OpenRAP/" }
  const BuildLogFile := "buildimage.log"

  function OutputDir(base: string, platform: string, board: string, device: string): (out: string)
  {
    BuildDir(base) + "output_" + platform + "_" + board + "_" + device + "/"
  }

  function ImgDir(out: string): string { out + "opencdn/" }
  function DistDir(out: string): string { out + "dist/" }

  /** The staging and dist directories sit side by side in the output
      directory: neither lies inside the other, so the archive written to
      dist is never part of the tree it archives. */
  lemma LayoutSeparated(out: string)
    ensures StartsWith(ImgDir(out), out) && StartsWith(DistDir(out), out)
    ensures !StartsWith(ImgDir(out), DistDir(out)) && !StartsWith(DistDir(out), ImgDir(out))
  {
    assert ImgDir(out)[|out|] == 'o' && DistDir(out)[|out|] == 'd';
    assert ImgDir(out)[..|out|] == out && DistDir(out)[..|out|] == out;
  }

  function Combination(platform: PlatformKind, board: BoardKind, device: DeviceKind): string
  {
    platform.Name() + "_" + board.Name() + "_" + device.Name() + "/"
  }

  /** Two strings extending one prefix with suffixes that differ somewhere
      in their common range: neither extends the other. */
  lemma DifferentSuffixes(pre: string, a: string, b: string, k: nat)
    requires k < |a| && k < |b| && a[k] != b[k]
    ensures !StartsWith(pre + a, pre + b)
  {
    assert (pre + a)[|pre| + k] != (pre + b)[|pre| + k];
  }

  lemma OutputDirSplit(base: string, platform: string, board: string, device: string)
    ensures OutputDir(base, platform, board, device)
         == (BuildDir(base) + "output_") + (platform + "_" + board + "_" + device + "/")
  {
  }

  /** Each command-line combination gets its own output directory, and no
      combination's directory lies inside another's. */
  lemma OutputDirsSeparate(base: string, p1: PlatformKind, b1: BoardKind, p2: PlatformKind, b2: BoardKind, d: DeviceKind)
    requires (p1, b1) != (p2, b2)
    ensures !StartsWith(OutputDir(base, p1.Name(), b1.Name(), d.Name()), OutputDir(base, p2.Name(), b2.Name(), d.Name()))
  {
    var pre := BuildDir(base) + "output_";
    var c1, c2 := Combination(p1, b1, d), Combination(p2, b2, d);
    OutputDirSplit(base, p1.Name(), b1.Name(), d.Name());
    OutputDirSplit(base, p2.Name(), b2.Name(), d.Name());
    var k := if p1 != p2 then 0 else |p1.Name()| + 1;
    assert c1[k] != c2[k];
    DifferentSuffixes(pre, c1, c2, k);
  }
}
