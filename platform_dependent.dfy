/** The platform objects and the install pipeline they run: download the
    archive (reusing a cached copy), extract it once per version, then either
    write an activation script or print how to use the installed toolchain. */
module PlatformDependent {
  import opened Results
  import opened Strings
  import opened Environment
  import opened ArchiveNames

  // ---------------------------------------------------------------------------
  // Platform objects

  /** A platform object. Its fields are assigned while it is constructed and
      never again, so it is a value. `opts` holds the keyword options. */
  datatype Plat = Plat(
    platform: string,
    architecture: string,
    extension: string,
    version: string,
    gopath: seq<string>,
    opts: map<string, bool>)
  {
    /** `opts.get("quiet", False)`. */
    function Quiet(): (q: bool)
      ensures q <==> "quiet" in opts && opts["quiet"]
    {
      if "quiet" in opts then opts["quiet"] else false
    }

    /** Whether to write an activation script: unless install-only was asked for. */
    function DoSubshell(): (b: bool)
      ensures b <==> !("install_only" in opts && opts["install_only"])
    {
      "install_only" !in opts || !opts["install_only"]
    }

    /** The toolchain root inside an extracted distribution directory. */
    function GoRoot(godir: string): (r: string)
      ensures godir != [] && godir[|godir| - 1] != '/' ==> r == godir + "/go"
      ensures godir == [] ==> r == "go"
    {
      Relative("go");
      PathJoin(godir, "go")
    }
  }

  /** The shared initialiser: with no version, the latest one (an input here) is used. */
  function Init(platform: string, architecture: string, extension: string, version: Option<string>,
                latest: string, gopath: seq<string>, opts: map<string, bool>): (p: Plat)
    ensures p.version == (if version.Some? then version.value else latest)
    ensures p.platform == platform && p.architecture == architecture && p.extension == extension
    ensures p.gopath == gopath && p.opts == opts
  {
    Plat(platform, architecture, extension, if version.None? then latest else version.value, gopath, opts)
  }

  /** The constructors of the three platform classes. Each fixes its platform
      string, the architecture from the host's word size and the extension, then
      runs the shared initialiser; the macOS one passes on only the positional
      arguments, so its keyword options are dropped. */
  function Make(family: Family, is64: bool, version: Option<string>, latest: string,
                gopath: seq<string>, opts: map<string, bool>): (p: Plat)
    ensures p.platform == PlatformName(family) && p.extension == "tar.gz"
    ensures p.architecture == (if is64 then "amd64" else "386")
    ensures p.version == (if version.Some? then version.value else latest) && p.gopath == gopath
    ensures p.opts == (if family == MacOSX then map[] else opts)
  {
    match family
    case FreeBSD => Init("freebsd", Architecture(is64), Extension, version, latest, gopath, opts)
    case Linux => Init("linux", Architecture(is64), Extension, version, latest, gopath, opts)
    case MacOSX => Init("darwin", Architecture(is64), Extension, version, latest, gopath, map[])
  }

  /** The archive a platform object downloads names exactly its version, platform
      and word size. */
  lemma MadeArchiveName(family: Family, is64: bool, version: Option<string>, latest: string,
                        gopath: seq<string>, opts: map<string, bool>)
    ensures var p := Make(family, is64, version, latest, gopath, opts);
            ParseArchiveName(ArchiveName(p.version, p.platform, p.architecture, p.extension))
              == Some(Target(p.version, family, is64))
  {
    var p := Make(family, is64, version, latest, gopath, opts);
    ParseTargetName(Target(p.version, family, is64));
  }

  /** The macOS object never sees the options: it always writes an activation
      script and is never quiet. */
  lemma MacOSXIgnoresOptions(is64: bool, version: Option<string>, latest: string,
                             gopath: seq<string>, opts: map<string, bool>)
    ensures var p := Make(MacOSX, is64, version, latest, gopath, opts);
            p.DoSubshell() && !p.Quiet()
  {
  }

  // ---------------------------------------------------------------------------
  // Streaming the response body

  /** The body assembled from streamed chunks: the chunks in order, up to the
      first empty one. */
  function Received(chunks: seq<seq<byte>>): seq<byte>
    decreases |chunks|
  {
    if chunks == [] || chunks[0] == [] then [] else chunks[0] + Received(chunks[1..])
  }

  /** The body is the concatenation of the chunks before the first empty one (or
      of all of them when none is empty). */
  lemma {:induction false} ReceivedPrefix(chunks: seq<seq<byte>>, k: nat)
    requires k <= |chunks|
    requires forall j :: 0 <= j < k ==> chunks[j] != []
    requires k == |chunks| || chunks[k] == []
    ensures Received(chunks) == JoinWith(chunks[..k], [])
    decreases k
  {
    if k > 0 {
      ReceivedPrefix(chunks[1..], k - 1);
      assert chunks[..k] == [chunks[0]] + chunks[1..][..k - 1];
      assert ([chunks[0]] + chunks[1..][..k - 1])[1..] == chunks[1..][..k - 1];
    }
  }

  /** Whatever follows an empty chunk is ignored. */
  lemma {:induction false} ReceivedStopsAtEmpty(before: seq<seq<byte>>, after: seq<seq<byte>>)
    ensures Received(before + [[]] + after) == Received(before)
    decreases |before|
  {
    if before != [] {
      assert (before + [[]] + after)[1..] == before[1..] + [[]] + after;
      ReceivedStopsAtEmpty(before[1..], after);
    }
  }

  /** Reads the streamed body, chunk by chunk, until the stream ends or a chunk
      is empty, and joins what it read. */
  method DoDownload(chunks: seq<seq<byte>>) returns (body: seq<byte>)
    ensures body == Received(chunks)
  {
    var totalRead := 0;
    var whole: seq<seq<byte>> := [];
    var i := 0;
    while i < |chunks|
      invariant 0 <= i <= |chunks|
      invariant whole == chunks[..i]
      invariant forall j :: 0 <= j < i ==> chunks[j] != []
    {
      var part := chunks[i];
      totalRead := totalRead + |part|;
      if part == [] {
        break;
      }
      whole := whole + [part];
      i := i + 1;
    }
    ReceivedPrefix(chunks, i);
    body := JoinWith(whole, []);
  }

  // ---------------------------------------------------------------------------
  // Download

  /** The archive file name a platform object builds. */
  function FileName(p: Plat): string
  {
    ArchiveName(p.version, p.platform, p.architecture, p.extension)
  }

  /** Where a platform object keeps its archive in the download directory. */
  function ArchivePath(p: Plat, downloadpath: string): string
  {
    PathJoin(downloadpath, FileName(p))
  }

  /** The effect of `download`: reuse the archive when its path exists; otherwise
      request it and write the received body there. */
  function DownloadStep(p: Plat, w: World, downloadpath: string, resp: Response): (World, Outcome<string>)
  {
    var fullpath := ArchivePath(p, downloadpath);
    if !w.Exists(fullpath) then
      var url := DownloadUrl(FileName(p));
      var w1 := w.(log := w.log + [Message("Downloading " + url, Stderr, p.Quiet(), false)],
                   requests := w.requests + [url]);
      match resp
      case RequestError => (w1, Aborted(RequestFailed))
      case Streamed(chunks) => (w1.(files := w1.files[fullpath := Binary(Received(chunks))]), Done(fullpath))
    else
      (w.(log := w.log + [Message("Using existing tarball", Stderr, p.Quiet(), false)]), Done(fullpath))
  }

  /** Downloads the archive into `downloadpath` unless it is already there. */
  method Download(p: Plat, host: Host, downloadpath: string, resp: Response) returns (r: Outcome<string>)
    modifies host
    ensures (host.State(), r) == DownloadStep(p, old(host.State()), downloadpath, resp)
  {
    var filename := ArchiveName(p.version, p.platform, p.architecture, p.extension);
    var path := DownloadPath(filename);
    var fullpath := PathJoin(downloadpath, filename);
    if !host.State().Exists(fullpath) {
      var url := "http://" + Constants.DownloadHostname + path;
      host.Emit(Message("Downloading " + url, Stderr, p.Quiet(), false));
      host.Request(url);
      match resp
      case RequestError =>
        return Aborted(RequestFailed);
      case Streamed(chunks) =>
        var response := DoDownload(chunks);
        host.WriteFile(fullpath, Binary(response));
    } else {
      host.Emit(Message("Using existing tarball", Stderr, p.Quiet(), false));
    }
    r := Done(fullpath);
  }

  /** Cache hit: when the archive path exists nothing is requested, the
      filesystem is unchanged and that path is returned. */
  lemma DownloadHit(p: Plat, w: World, downloadpath: string, resp: Response)
    requires w.Exists(ArchivePath(p, downloadpath))
    ensures var (w', r) := DownloadStep(p, w, downloadpath, resp);
            r == Done(ArchivePath(p, downloadpath)) &&
            w'.dirs == w.dirs && w'.files == w.files && w'.requests == w.requests && w'.unpacked == w.unpacked
  {
  }

  /** Cache miss: exactly one request is made, for the archive's URL; when it
      delivers, exactly the archive path is written with the received body and
      returned; when it fails, nothing is written and the run stops. */
  lemma DownloadMiss(p: Plat, w: World, downloadpath: string, resp: Response)
    requires !w.Exists(ArchivePath(p, downloadpath))
    ensures var (w', r) := DownloadStep(p, w, downloadpath, resp);
            var fullpath := ArchivePath(p, downloadpath);
            w'.requests == w.requests + [DownloadUrl(FileName(p))] &&
            w'.dirs == w.dirs && w'.unpacked == w.unpacked &&
            (resp.Streamed? ==>
               r == Done(fullpath) && w'.files == w.files[fullpath := Binary(Received(resp.chunks))]) &&
            (resp.RequestError? ==> r == Aborted(RequestFailed) && w'.files == w.files)
  {
  }

  /** A second download after a successful one is a cache hit: same path, no
      request, no change to the filesystem. */
  lemma DownloadTwice(p: Plat, w: World, downloadpath: string, resp1: Response, resp2: Response)
    requires DownloadStep(p, w, downloadpath, resp1).1.Done?
    ensures var (w1, r1) := DownloadStep(p, w, downloadpath, resp1);
            var (w2, r2) := DownloadStep(p, w1, downloadpath, resp2);
            r2 == r1 && w2.dirs == w1.dirs && w2.files == w1.files && w2.requests == w1.requests
  {
  }

  // ---------------------------------------------------------------------------
  // Extract

  /** The effect of `extract`: the distribution directory is keyed on the version
      alone, and the archive is unpacked into it only when it does not exist. */
  function ExtractStep(p: Plat, w: World, filename: string, distpath: string): (World, string)
  {
    var godir := PathJoin(distpath, p.version);
    if !w.Exists(godir) then
      (w.(log := w.log + [Message("Extracting " + filename + " to " + godir, Stderr, p.Quiet(), false)],
          dirs := w.dirs + {godir},
          unpacked := w.unpacked + [(filename, godir)]),
       godir)
    else
      (w.(log := w.log + [Message("Go version " + p.version + " already exists, skipping extract",
                                  Stderr, p.Quiet(), false)]),
       godir)
  }

  /** Extracts the archive into `distpath/version` unless that already exists. */
  method Extract(p: Plat, host: Host, filename: string, distpath: string) returns (godir: string)
    modifies host
    ensures (host.State(), godir) == ExtractStep(p, old(host.State()), filename, distpath)
  {
    var version := p.version;
    godir := PathJoin(distpath, version);
    if !host.State().Exists(godir) {
      host.Emit(Message("Extracting " + filename + " to " + godir, Stderr, p.Quiet(), false));
      host.Unpack(filename, godir);
    } else {
      host.Emit(Message("Go version " + version + " already exists, skipping extract", Stderr, p.Quiet(), false));
    }
  }

  /** `extract` returns `distpath/version`, and afterwards that directory exists. */
  lemma ExtractResult(p: Plat, w: World, filename: string, distpath: string)
    ensures var (w', godir) := ExtractStep(p, w, filename, distpath);
            godir == PathJoin(distpath, p.version) && w'.Exists(godir) &&
            w'.files == w.files && w'.requests == w.requests
  {
  }

  /** When `distpath/version` already exists, for whatever reason, nothing is
      unpacked and no path changes; only the skip message is logged. */
  lemma ExtractHit(p: Plat, w: World, filename: string, distpath: string)
    requires w.Exists(PathJoin(distpath, p.version))
    ensures var (w', godir) := ExtractStep(p, w, filename, distpath);
            godir == PathJoin(distpath, p.version) &&
            w'.dirs == w.dirs && w'.files == w.files && w'.unpacked == w.unpacked && w'.requests == w.requests &&
            w'.log == w.log + [Message("Go version " + p.version + " already exists, skipping extract",
                                       Stderr, p.Quiet(), false)]
  {
  }

  /** When `distpath/version` is missing, exactly this archive is unpacked into
      it, which is the one directory added; no file changes. */
  lemma ExtractMiss(p: Plat, w: World, filename: string, distpath: string)
    requires !w.Exists(PathJoin(distpath, p.version))
    ensures var (w', godir) := ExtractStep(p, w, filename, distpath);
            godir == PathJoin(distpath, p.version) &&
            w'.unpacked == w.unpacked + [(filename, godir)] &&
            w'.dirs == w.dirs + {godir} && w'.files == w.files && w'.requests == w.requests &&
            w'.log == w.log + [Message("Extracting " + filename + " to " + godir, Stderr, p.Quiet(), false)]
  {
  }

  /** Extraction is idempotent: a second call, with any archive, returns the same
      directory, unpacks nothing and changes no path. */
  lemma ExtractIdempotent(p: Plat, w: World, archive1: string, archive2: string, distpath: string)
    ensures var (w1, godir1) := ExtractStep(p, w, archive1, distpath);
            var (w2, godir2) := ExtractStep(p, w1, archive2, distpath);
            godir2 == godir1 && w2.dirs == w1.dirs && w2.files == w1.files &&
            w2.unpacked == w1.unpacked && w2.requests == w1.requests
  {
  }

  // ---------------------------------------------------------------------------
  // Activation script

  const GopathPlaceholder: string := "__GOPATH__"
  const GorootPlaceholder: string := "__GOROOT__"
  const VersionPlaceholder: string := "__VER__"
  const PromptPlaceholder: string := "__GO_PROMPT__"

  /** The four placeholders of the activation template. */
  ghost predicate NoPlaceholders(s: string)
  {
    Absent(GopathPlaceholder, s) && Absent(GorootPlaceholder, s) &&
    Absent(VersionPlaceholder, s) && Absent(PromptPlaceholder, s)
  }

  /** The activation script: the template with its placeholders replaced, in
      turn, by the gopath, the toolchain root, the version and the last segment
      of the gopath. */
  function Render(template: string, gopath: string, goroot: string, version: string): string
  {
    var s1 := Replace(template, GopathPlaceholder, gopath);
    var s2 := Replace(s1, GorootPlaceholder, goroot);
    var s3 := Replace(s2, VersionPlaceholder, version);
    Replace(s3, PromptPlaceholder, LastSegment(gopath))
  }

  /** A template without placeholders is copied unchanged. */
  lemma RenderWithoutPlaceholders(template: string, gopath: string, goroot: string, version: string)
    requires NoPlaceholders(template)
    ensures Render(template, gopath, goroot, version) == template
  {
    ReplaceAbsent(template, GopathPlaceholder, gopath);
    ReplaceAbsent(template, GorootPlaceholder, goroot);
    ReplaceAbsent(template, VersionPlaceholder, version);
    ReplaceAbsent(template, PromptPlaceholder, LastSegment(gopath));
  }

  /** Each of the four rounds substitutes every occurrence of its placeholder:
      the text before the round is pieces free of that placeholder joined by it,
      and the text after is the same pieces joined by the value. */
  lemma RenderRounds(template: string, gopath: string, goroot: string, version: string)
    ensures var s1 := Replace(template, GopathPlaceholder, gopath);
            var s2 := Replace(s1, GorootPlaceholder, goroot);
            var s3 := Replace(s2, VersionPlaceholder, version);
            Substitutes(template, GopathPlaceholder, gopath, s1) &&
            Substitutes(s1, GorootPlaceholder, goroot, s2) &&
            Substitutes(s2, VersionPlaceholder, version, s3) &&
            Substitutes(s3, PromptPlaceholder, LastSegment(gopath), Render(template, gopath, goroot, version))
  {
    var s1 := Replace(template, GopathPlaceholder, gopath);
    var s2 := Replace(s1, GorootPlaceholder, goroot);
    var s3 := Replace(s2, VersionPlaceholder, version);
    ReplaceSubstitutes(template, GopathPlaceholder, gopath);
    ReplaceSubstitutes(s1, GorootPlaceholder, goroot);
    ReplaceSubstitutes(s2, VersionPlaceholder, version);
    ReplaceSubstitutes(s3, PromptPlaceholder, LastSegment(gopath));
  }

  /** Every substitution splits the text at its placeholder and joins the pieces
      with the value, in the fixed order gopath, root, version, prompt. */
  lemma RenderAsSplitJoin(template: string, gopath: string, goroot: string, version: string)
    ensures Render(template, gopath, goroot, version) ==
            JoinWith(Split(
              JoinWith(Split(
                JoinWith(Split(
                  JoinWith(Split(template, GopathPlaceholder), gopath),
                  GorootPlaceholder), goroot),
                VersionPlaceholder), version),
              PromptPlaceholder), LastSegment(gopath))
  {
    var s1 := Replace(template, GopathPlaceholder, gopath);
    var s2 := Replace(s1, GorootPlaceholder, goroot);
    var s3 := Replace(s2, VersionPlaceholder, version);
    ReplaceIsSplitJoin(template, GopathPlaceholder, gopath);
    ReplaceIsSplitJoin(s1, GorootPlaceholder, goroot);
    ReplaceIsSplitJoin(s2, VersionPlaceholder, version);
    ReplaceIsSplitJoin(s3, PromptPlaceholder, LastSegment(gopath));
  }

  /** Where the activation script of a joined gopath is written. */
  function ActivatePath(gopath: string): string
  {
    gopath + "/bin/activate"
  }

  /** The effect of `subshell`: join the gopath entries with `:`, render the
      script and write it to `<gopath>/bin/activate`. With no entries the
      substitution fails before anything is written. */
  function SubshellStep(p: Plat, w: World, godir: string, gopath: seq<string>, template: string): (World, Status)
  {
    if gopath == [] then (w, Failed(GopathMissing))
    else
      var joined := JoinWith(gopath, ":");
      var script := Render(template, joined, PathJoin(godir, "go"), p.version);
      (w.(dirs := w.dirs + {joined + "/bin/"},
          files := w.files[ActivatePath(joined) := Text(script)],
          log := w.log + [Message("Please use source bin/activate", Stdout, p.Quiet(), false)]),
       Success)
  }

  /** Writes the activation script for the extracted toolchain. */
  method Subshell(p: Plat, host: Host, godir: string, gopath: seq<string>, template: string) returns (st: Status)
    modifies host
    ensures (host.State(), st) == SubshellStep(p, old(host.State()), godir, gopath, template)
  {
    var version := p.version;
    if gopath == [] {
      return Failed(GopathMissing);
    }
    var joined := JoinWith(gopath, ":");
    var goroot := PathJoin(godir, "go");
    var activate := Render(template, joined, goroot, version);
    host.MakeDirs(joined + "/bin/");
    host.WriteFile(joined + "/bin/activate", Text(activate));
    host.Emit(Message("Please use source bin/activate", Stdout, p.Quiet(), false));
    st := Success;
  }

  // ---------------------------------------------------------------------------
  // Install-only report

  /** The instructions printed in install-only mode when not quiet: how to set
      GOROOT and PATH in bash/zsh, csh/tcsh and fish. */
  function InstallHint(goroot: string): string
  {
    "Go installed, run the following commands (for your shell) to start using Go.\n\n"
    + "bash/zsh:\n\n"
    + "    export GOROOT=" + goroot + "\n"
    + "    export PATH=\"" + goroot + "/bin:${PATH}\"\n\n"
    + "csh/tcsh:\n\n"
    + "    setenv GOROOT " + goroot + "\n"
    + "    setenv PATH " + goroot + "/bin:$PATH\n\n"
    + "fish:\n\n"
    + "    set -xg GOROOT " + goroot + "\n"
    + "    set -xg PATH " + goroot + "/bin $PATH\n\n"
  }

  /** The message printed in install-only mode and whether it overrides quiet
      mode: quiet prints exactly the toolchain root, overriding; otherwise the
      instructions, which set GOROOT to that root, without overriding. */
  function InstallMessage(goroot: string, quiet: bool): (m: (string, bool))
    ensures quiet ==> m == (goroot, true)
    ensures !quiet ==> !m.1 && m.0 == InstallHint(goroot)
  {
    if !quiet then (InstallHint(goroot), false) else (goroot, true)
  }

  // ---------------------------------------------------------------------------
  // The pipeline

  /** What happens once the distribution directory is in place: the activation
      script, or the install-only report. */
  function FinishStep(p: Plat, w: World, godir: string, template: string): (World, Status)
  {
    if p.DoSubshell() then SubshellStep(p, w, godir, p.gopath, template)
    else
      var m := InstallMessage(p.GoRoot(godir), p.Quiet());
      (w.(log := w.log + [Message(m.0, Stdout, p.Quiet(), m.1)]), Success)
  }

  /** The effect of `go`: download into the `cache` directory, extract into the
      `distrib` directory, then finish. */
  function GoStep(p: Plat, w: World, configs: map<string, string>, resp: Response, template: string): (World, Status)
    requires "cache" in configs && "distrib" in configs
  {
    var (w1, archive) := DownloadStep(p, w, configs["cache"], resp);
    match archive
    case Aborted(why) => (w1, Failed(why))
    case Done(path) =>
      var (w2, godir) := ExtractStep(p, w1, path, configs["distrib"]);
      FinishStep(p, w2, godir, template)
  }

  /** Installs the toolchain and makes it usable. */
  method Go(p: Plat, host: Host, configs: map<string, string>, resp: Response, template: string) returns (st: Status)
    requires "cache" in configs && "distrib" in configs
    modifies host
    ensures (host.State(), st) == GoStep(p, old(host.State()), configs, resp, template)
  {
    var archive := Download(p, host, configs["cache"], resp);
    if archive.Aborted? {
      return Failed(archive.why);
    }
    var godir := Extract(p, host, archive.value, configs["distrib"]);
    if p.DoSubshell() {
      st := Subshell(p, host, godir, p.gopath, template);
    } else {
      var goroot := p.GoRoot(godir);
      var m := InstallMessage(goroot, p.Quiet());
      host.Emit(Message(m.0, Stdout, p.Quiet(), m.1));
      st := Success;
    }
  }

  /** When a script is asked for, it is written (with its rendered contents) to
      `<joined gopath>/bin/activate` and no other file changes. */
  lemma FinishWritesScript(p: Plat, w: World, godir: string, template: string)
    requires p.DoSubshell() && p.gopath != []
    ensures var (w', st) := FinishStep(p, w, godir, template);
            var joined := JoinWith(p.gopath, ":");
            st == Success &&
            w'.files == w.files[ActivatePath(joined) := Text(Render(template, joined, p.GoRoot(godir), p.version))]
  {
  }

  /** In install-only mode no file or directory changes; the one message is the
      toolchain root, overriding quiet mode, when quiet, and the instructions
      otherwise. */
  lemma FinishInstallOnly(p: Plat, w: World, godir: string, template: string)
    requires !p.DoSubshell()
    ensures var (w', st) := FinishStep(p, w, godir, template);
            st == Success && w'.files == w.files && w'.dirs == w.dirs &&
            (p.Quiet() ==> w'.log == w.log + [Message(p.GoRoot(godir), Stdout, true, true)]) &&
            (!p.Quiet() ==> w'.log == w.log + [Message(InstallHint(p.GoRoot(godir)), Stdout, false, false)])
  {
  }

  /** Files and directories only accumulate. */
  ghost predicate Grows(w: World, w': World)
  {
    w.dirs <= w'.dirs && w.files.Keys <= w'.files.Keys
  }

  /** After a download that did not stop the run, the archive path exists and
      is the result; nothing was removed. */
  lemma DownloadLeavesArchive(p: Plat, w: World, downloadpath: string, resp: Response)
    requires DownloadStep(p, w, downloadpath, resp).1.Done?
    ensures var (w', r) := DownloadStep(p, w, downloadpath, resp);
            r == Done(ArchivePath(p, downloadpath)) && w'.Exists(ArchivePath(p, downloadpath)) && Grows(w, w')
  {
  }

  /** The files and directories `FinishStep` leaves depend only on the files and
      directories it starts from, and a second call adds nothing to them. */
  lemma FinishRepeat(p: Plat, w: World, u: World, godir: string, template: string)
    requires FinishStep(p, w, godir, template).1 == Success
    requires u.dirs == FinishStep(p, w, godir, template).0.dirs
    requires u.files == FinishStep(p, w, godir, template).0.files
    ensures var (u', st) := FinishStep(p, u, godir, template);
            st == Success && u'.dirs == u.dirs && u'.files == u.files &&
            u'.requests == u.requests && u'.unpacked == u.unpacked
  {
  }

  /** A second `go` after a successful one, on the state it left, requests
      nothing, unpacks nothing and leaves every file and directory as it was. */
  lemma GoRepeat(p: Plat, w: World, configs: map<string, string>, resp1: Response, resp2: Response, template: string)
    requires "cache" in configs && "distrib" in configs
    requires GoStep(p, w, configs, resp1, template).1 == Success
    ensures var w1 := GoStep(p, w, configs, resp1, template).0;
            var (w2, st2) := GoStep(p, w1, configs, resp2, template);
            st2 == Success && w2.dirs == w1.dirs && w2.files == w1.files &&
            w2.requests == w1.requests && w2.unpacked == w1.unpacked
  {
    var cache, distrib := configs["cache"], configs["distrib"];
    var first := DownloadStep(p, w, cache, resp1);
    DownloadLeavesArchive(p, w, cache, resp1);
    var path := ArchivePath(p, cache);
    var extracted := ExtractStep(p, first.0, path, distrib);
    var godir := extracted.1;
    var finished := FinishStep(p, extracted.0, godir, template);
    assert finished == GoStep(p, w, configs, resp1, template);
    var w1 := finished.0;
    assert Grows(extracted.0, w1);
    DownloadHit(p, w1, cache, resp2);
    var again := DownloadStep(p, w1, cache, resp2);
    var extractedAgain := ExtractStep(p, again.0, path, distrib);
    assert extractedAgain.1 == godir;
    assert extractedAgain.0.dirs == w1.dirs && extractedAgain.0.files == w1.files;
    FinishRepeat(p, extracted.0, extractedAgain.0, godir, template);
    assert FinishStep(p, extractedAgain.0, godir, template) == GoStep(p, w1, configs, resp2, template);
  }

  /** A download changes no file but the archive. */
  lemma DownloadOnlyWritesArchive(p: Plat, w: World, downloadpath: string, resp: Response)
    ensures DownloadStep(p, w, downloadpath, resp).0.files - {ArchivePath(p, downloadpath)}
         == w.files - {ArchivePath(p, downloadpath)}
  {
    var path := ArchivePath(p, downloadpath);
    if !w.Exists(path) && resp.Streamed? {
      var c := Binary(Received(resp.chunks));
      assert w.files[path := c] - {path} == w.files - {path};
    }
  }

  /** A successful `go` is its finishing step run on the state extraction of the
      archive left, for the directory `<distrib>/<version>`. */
  lemma GoStepSucceeded(p: Plat, w: World, configs: map<string, string>, resp: Response, template: string)
    requires "cache" in configs && "distrib" in configs
    requires GoStep(p, w, configs, resp, template).1 == Success
    ensures var first := DownloadStep(p, w, configs["cache"], resp).0;
            var extracted := ExtractStep(p, first, ArchivePath(p, configs["cache"]), configs["distrib"]).0;
            GoStep(p, w, configs, resp, template)
              == FinishStep(p, extracted, PathJoin(configs["distrib"], p.version), template)
  {
    DownloadLeavesArchive(p, w, configs["cache"], resp);
  }

  /** Files and directories only accumulate over a successful `go`. */
  lemma GoGrows(p: Plat, w: World, configs: map<string, string>, resp: Response, template: string)
    requires "cache" in configs && "distrib" in configs
    requires GoStep(p, w, configs, resp, template).1 == Success
    ensures Grows(w, GoStep(p, w, configs, resp, template).0)
  {
    var path := ArchivePath(p, configs["cache"]);
    var first := DownloadStep(p, w, configs["cache"], resp).0;
    DownloadLeavesArchive(p, w, configs["cache"], resp);
    var extracted := ExtractStep(p, first, path, configs["distrib"]).0;
    ExtractResult(p, first, path, configs["distrib"]);
    assert Grows(w, extracted);
    GoStepSucceeded(p, w, configs, resp, template);
    assert Grows(extracted, FinishStep(p, extracted, PathJoin(configs["distrib"], p.version), template).0);
  }

  /** A successful `go` in install-only mode writes no file but the archive; its
      last message is the install-only report for `<distrib>/<version>/go`. */
  lemma GoInstallOnly(p: Plat, w: World, configs: map<string, string>, resp: Response, template: string)
    requires "cache" in configs && "distrib" in configs
    requires !p.DoSubshell()
    requires GoStep(p, w, configs, resp, template).1 == Success
    ensures var w' := GoStep(p, w, configs, resp, template).0;
            var archive := ArchivePath(p, configs["cache"]);
            var m := InstallMessage(p.GoRoot(PathJoin(configs["distrib"], p.version)), p.Quiet());
            w'.log != [] && w'.log[|w'.log| - 1] == Message(m.0, Stdout, p.Quiet(), m.1) &&
            w'.files - {archive} == w.files - {archive}
  {
    var path := ArchivePath(p, configs["cache"]);
    var godir := PathJoin(configs["distrib"], p.version);
    var first := DownloadStep(p, w, configs["cache"], resp).0;
    DownloadOnlyWritesArchive(p, w, configs["cache"], resp);
    var extracted := ExtractStep(p, first, path, configs["distrib"]).0;
    ExtractResult(p, first, path, configs["distrib"]);
    GoStepSucceeded(p, w, configs, resp, template);
    var m := InstallMessage(p.GoRoot(godir), p.Quiet());
    assert FinishStep(p, extracted, godir, template).0
        == extracted.(log := extracted.log + [Message(m.0, Stdout, p.Quiet(), m.1)]);
  }

  /** A successful `go` that writes a script leaves it, rendered for the joined
      gopath and `<distrib>/<version>/go`, at `<joined gopath>/bin/activate`. */
  lemma GoWritesActivation(p: Plat, w: World, configs: map<string, string>, resp: Response, template: string)
    requires "cache" in configs && "distrib" in configs
    requires p.DoSubshell()
    requires GoStep(p, w, configs, resp, template).1 == Success
    ensures var w' := GoStep(p, w, configs, resp, template).0;
            var joined := JoinWith(p.gopath, ":");
            var goroot := p.GoRoot(PathJoin(configs["distrib"], p.version));
            ActivatePath(joined) in w'.files &&
            w'.files[ActivatePath(joined)] == Text(Render(template, joined, goroot, p.version))
  {
    var (va, archive) := DownloadStep(p, w, configs["cache"], resp);
    var (vb, godir) := ExtractStep(p, va, archive.value, configs["distrib"]);
    assert p.gopath != [];
  }
}
