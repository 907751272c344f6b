/** Names of the distribution archives and the URLs they are fetched from. */
module ArchiveNames {
  import opened Results
  import opened Strings
  import opened Constants

  /** The supported operating systems, one per platform class. */
  datatype Family = FreeBSD | Linux | MacOSX

  /** The platform string each class fixes in its constructor. */
  function PlatformName(f: Family): string
  {
    match f
    case FreeBSD => "freebsd"
    case Linux => "linux"
    case MacOSX => "darwin"
  }

  /** The architecture string every class fixes: from the word size of the host. */
  function Architecture(is64: bool): string
  {
    if is64 then "amd64" else "386"
  }

  /** The archive extension every class fixes. */
  const Extension: string := "tar.gz"

  /** The archive file name template: `go{version}.{platform}-{architecture}.{extension}`. */
  function ArchiveName(version: string, platform: string, architecture: string, extension: string): string
  {
    "go" + version + "." + platform + "-" + architecture + "." + extension
  }

  /** The path template on the download host: `/golang/{filename}`. */
  function DownloadPath(filename: string): string
  {
    "/golang/" + filename
  }

  /** The URL an archive is requested from. */
  function DownloadUrl(filename: string): string
  {
    "http://" + DownloadHostname + DownloadPath(filename)
  }

  /** What an archive name identifies: a version for one platform and word size. */
  datatype Target = Target(version: string, family: Family, is64: bool)

  /** The archive name a platform object of `t.family` builds for `t`. */
  function TargetName(t: Target): string
  {
    ArchiveName(t.version, PlatformName(t.family), Architecture(t.is64), Extension)
  }

  /** `s` with `suffix` removed from its end, when it ends with it. */
  function StripSuffix(s: string, suffix: string): (r: Option<string>)
    ensures r.Some? <==> EndsWith(s, suffix)
    ensures r.Some? ==> r.value + suffix == s
  {
    if EndsWith(s, suffix) then Some(s[..|s| - |suffix|]) else None
  }

  /** The family whose platform string, after a `.`, ends `s`. */
  function FamilyOf(s: string): Option<Family>
  {
    if EndsWith(s, "." + PlatformName(Linux)) then Some(Linux)
    else if EndsWith(s, "." + PlatformName(MacOSX)) then Some(MacOSX)
    else if EndsWith(s, "." + PlatformName(FreeBSD)) then Some(FreeBSD)
    else None
  }

  /** Reads an archive name back, from its end: extension, architecture, platform,
      then the `go` prefix; what remains is the version. */
  function ParseArchiveName(name: string): Option<Target>
  {
    match StripSuffix(name, "." + Extension)
    case None => None
    case Some(rest) =>
      var is64 := EndsWith(rest, "-" + Architecture(true));
      match StripSuffix(rest, "-" + Architecture(is64))
      case None => None
      case Some(rest') =>
        match FamilyOf(rest')
        case None => None
        case Some(f) =>
          match StripSuffix(rest', "." + PlatformName(f))
          case None => None
          case Some(head) =>
            if StartsWith(head, "go") then Some(Target(head[2..], f, is64)) else None
  }

  lemma StripAppended(x: string, suffix: string)
    ensures StripSuffix(x + suffix, suffix) == Some(x)
  {
    assert (x + suffix)[|x + suffix| - |suffix|..] == suffix;
    assert (x + suffix)[..|x|] == x;
  }

  /** Two suffixes of one text end in the same element. */
  lemma EndsWithSameLast(s: string, a: string, b: string)
    requires a != [] && b != [] && EndsWith(s, a) && EndsWith(s, b)
    ensures a[|a| - 1] == b[|b| - 1]
  {
    assert a[|a| - 1] == s[|s| - 1];
    assert b[|b| - 1] == s[|s| - 1];
  }

  /** The architecture is read back from the end of a name. */
  lemma ArchitectureReadBack(rest': string, is64: bool)
    ensures var rest := rest' + ("-" + Architecture(is64));
            EndsWith(rest, "-" + Architecture(true)) == is64 &&
            StripSuffix(rest, "-" + Architecture(is64)) == Some(rest')
  {
    var rest := rest' + ("-" + Architecture(is64));
    StripAppended(rest', "-" + Architecture(is64));
    if !is64 && EndsWith(rest, "-" + Architecture(true)) {
      EndsWithSameLast(rest, "-" + Architecture(is64), "-" + Architecture(true));
    }
  }

  /** The platform is read back from the end of a name: the three platform strings
      end in different letters. */
  lemma FamilyReadBack(head: string, f: Family)
    ensures FamilyOf(head + ("." + PlatformName(f))) == Some(f)
  {
    var s := head + ("." + PlatformName(f));
    StripAppended(head, "." + PlatformName(f));
    forall g | g != f ensures !EndsWith(s, "." + PlatformName(g)) {
      if EndsWith(s, "." + PlatformName(g)) {
        EndsWithSameLast(s, "." + PlatformName(f), "." + PlatformName(g));
      }
    }
  }

  /** Every archive name reads back as the target it was built for. */
  lemma ParseTargetName(t: Target)
    ensures ParseArchiveName(TargetName(t)) == Some(t)
  {
    var p := "." + PlatformName(t.family);
    var head := "go" + t.version;
    var rest' := head + p;
    var rest := rest' + ("-" + Architecture(t.is64));
    assert TargetName(t) == rest + ("." + Extension);
    StripAppended(rest, "." + Extension);
    ArchitectureReadBack(rest', t.is64);
    FamilyReadBack(head, t.family);
    StripAppended(head, p);
    assert StartsWith(head, "go") && head[2..] == t.version;
  }

  /** An archive name is its four parts, each suffix with its separator. */
  lemma TargetNameParts(t: Target)
    ensures TargetName(t) == ("go" + t.version) + ("." + PlatformName(t.family))
                             + ("-" + Architecture(t.is64)) + ("." + Extension)
  {
  }

  /** Every name that reads back as a target is that target's archive name. */
  lemma TargetNameOfParse(name: string, t: Target)
    requires ParseArchiveName(name) == Some(t)
    ensures TargetName(t) == name
  {
    var rest := StripSuffix(name, "." + Extension).value;
    var rest' := StripSuffix(rest, "-" + Architecture(t.is64)).value;
    var head := StripSuffix(rest', "." + PlatformName(t.family)).value;
    assert head == "go" + t.version by {
      assert StartsWith(head, "go") && t.version == head[2..];
    }
    TargetNameParts(t);
  }

  /** Distinct targets never share an archive name, so a cached archive is only
      ever reused for the version, platform and word size it was fetched for. */
  lemma TargetNameInjective(t1: Target, t2: Target)
    requires TargetName(t1) == TargetName(t2)
    ensures t1 == t2
  {
    ParseTargetName(t1);
    ParseTargetName(t2);
  }

  /** With a version free of `/`, the archive is saved under the same name the
      URL ends with. */
  lemma UrlEndsWithTargetName(t: Target)
    requires '/' !in t.version
    ensures LastSegment(DownloadUrl(TargetName(t))) == TargetName(t)
  {
    var name := TargetName(t);
    assert '/' !in PlatformName(t.family) && '/' !in Architecture(t.is64);
    assert '/' !in name;
    assert DownloadUrl(name) == ("http://" + DownloadHostname + "/golang") + "/" + name;
    LastSegmentOfChild("http://" + DownloadHostname + "/golang", name);
  }
}
