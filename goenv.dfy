/** The command-line entry point: derive the configuration, cache and
    distribution directories from the base directory, choose the version, pick
    the platform class for the host and run its install pipeline. */
module Goenv {
  import opened Results
  import opened Strings
  import opened Constants
  import opened Environment
  import opened ArchiveNames
  import opened PlatformDependent

  /** The parsed command line. `basedir` is taken after the user's path
      substitution, which is not part of this model. */
  datatype Args = Args(
    basedir: string,
    goVersion: Option<string>,
    exclude: seq<string>,
    installOnly: bool,
    quiet: bool)

  // ---------------------------------------------------------------------------
  // Directories

  /** The configuration, cache and distribution directories of one environment. */
  datatype Layout = Layout(config: string, cache: string, distrib: string)

  /** The directories derived from the base directory: the configuration
      directory `.goenv` under it, and the cache and distribution directories
      directly under that. The three are distinct. */
  function DeriveLayout(basedir: string): (l: Layout)
    ensures l.config == PathJoin(basedir, GoenvConfigHome)
    ensures basedir != [] && basedir[|basedir| - 1] != '/' ==> l.config == basedir + "/" + GoenvConfigHome
    ensures l.cache == l.config + "/" + GoenvCacheHome
    ensures l.distrib == l.config + "/" + GolangDistributionsDir
    ensures l.config != l.cache && l.config != l.distrib && l.cache != l.distrib
  {
    Relative(GoenvConfigHome);
    Relative(GoenvCacheHome);
    Relative(GolangDistributionsDir);
    var config := PathJoin(basedir, GoenvConfigHome);
    assert config[|config| - 1] == GoenvConfigHome[|GoenvConfigHome| - 1];
    Layout(config, PathJoin(config, GoenvCacheHome), PathJoin(config, GolangDistributionsDir))
  }

  /** The directories handed to the platform object, by name. */
  function Configs(l: Layout): map<string, string>
  {
    map["config" := l.config, "cache" := l.cache, "distrib" := l.distrib]
  }

  // ---------------------------------------------------------------------------
  // Version

  /** The version asked for on the command line, or else the default one. */
  function ChooseVersion(requested: Option<string>, default: string): (v: string)
    ensures requested.Some? ==> v == requested.value
    ensures requested.None? ==> v == default
  {
    if requested.Some? then requested.value else default
  }

  // ---------------------------------------------------------------------------
  // Platform dispatch

  /** The dispatch table's keys, in the order the loop visits them. */
  const PlatformKeys: seq<string> := ["linux", "darwin", "freebsd"]

  /** The dispatch table: key to platform class. */
  const Platforms: map<string, Family> := map["linux" := Linux, "darwin" := MacOSX, "freebsd" := FreeBSD]

  /** The key that selects each platform class. The dispatch keys coincide with
      the platform strings the classes put in archive names (`PlatformName`). */
  function Key(f: Family): string
  {
    match f
    case Linux => "linux"
    case MacOSX => "darwin"
    case FreeBSD => "freebsd"
  }

  /** The class the dispatch loop picks for a host identifier: the first key, in
      table order, that begins the identifier. */
  function Dispatch(ident: string): Option<Family>
  {
    if StartsWith(ident, PlatformKeys[0]) then Some(Platforms[PlatformKeys[0]])
    else if StartsWith(ident, PlatformKeys[1]) then Some(Platforms[PlatformKeys[1]])
    else if StartsWith(ident, PlatformKeys[2]) then Some(Platforms[PlatformKeys[2]])
    else None
  }

  /** No identifier begins with two different keys: they differ in their first letter. */
  lemma AtMostOneKey(ident: string, f: Family, g: Family)
    requires StartsWith(ident, Key(f)) && StartsWith(ident, Key(g))
    ensures f == g
  {
    assert Key(f)[0] == ident[0] == Key(g)[0];
  }

  /** The table order does not matter: the loop picks a class exactly when the
      identifier begins with that class's key. */
  lemma DispatchMatches(ident: string, f: Family)
    ensures Dispatch(ident) == Some(f) <==> StartsWith(ident, Key(f))
  {
    assert PlatformKeys[0] == Key(Linux) && Platforms[Key(Linux)] == Linux;
    assert PlatformKeys[1] == Key(MacOSX) && Platforms[Key(MacOSX)] == MacOSX;
    assert PlatformKeys[2] == Key(FreeBSD) && Platforms[Key(FreeBSD)] == FreeBSD;
    if StartsWith(ident, Key(f)) {
      forall g | StartsWith(ident, Key(g)) ensures g == f {
        AtMostOneKey(ident, f, g);
      }
    }
  }

  /** Walks the dispatch table and stops at the first key that begins the
      identifier. */
  method SelectPlatform(ident: string) returns (impl: Option<Family>)
    ensures impl == Dispatch(ident)
  {
    var keys := PlatformKeys;
    var i := 0;
    while i < |keys|
      invariant 0 <= i <= |keys|
      invariant forall j :: 0 <= j < i ==> !StartsWith(ident, keys[j])
    {
      var key := keys[i];
      if StartsWith(ident, key) {
        return Some(Platforms[key]);
      }
      i := i + 1;
    }
    return None;
  }

  // ---------------------------------------------------------------------------
  // The run

  /** The keyword options forwarded to the platform class. */
  function Options(args: Args): map<string, bool>
  {
    map["install_only" := args.installOnly, "quiet" := args.quiet]
  }

  /** The platform object built for a run: the chosen version, the base
      directory as the only gopath entry, and the forwarded options. Since a
      version is always passed, the latest-version lookup is never consulted. */
  function PlatformFor(args: Args, family: Family, is64: bool, defaultVersion: string): Plat
  {
    Make(family, is64, Some(ChooseVersion(args.goVersion, defaultVersion)), "", [args.basedir], Options(args))
  }

  /** The platform object of a run: the chosen version, the archive named for
      that version, family and word size, the base directory as gopath, a
      script unless install-only off macOS, quiet only when asked off macOS. */
  lemma PlatformForFacts(args: Args, family: Family, is64: bool, defaultVersion: string)
    ensures var p := PlatformFor(args, family, is64, defaultVersion);
            var version := ChooseVersion(args.goVersion, defaultVersion);
            p.version == version && p.gopath == [args.basedir] &&
            FileName(p) == TargetName(Target(version, family, is64)) &&
            (p.DoSubshell() <==> family == MacOSX || !args.installOnly) &&
            (p.Quiet() <==> family != MacOSX && args.quiet)
  {
  }

  /** The warning for a host that matches no dispatch key. */
  function Unsupported(ident: string, quiet: bool): Message
  {
    Message("Your platform '" + ident + "' is not supported, sorry!", Stderr, quiet, false)
  }

  /** The effect of a whole run: the three directories are made to exist, then
      the platform class is chosen and its pipeline run; with no class, a warning
      is given and the run stops before any download. */
  function RunStep(w: World, args: Args, ident: string, is64: bool, defaultVersion: string,
                   resp: Response, template: string): (World, Status)
  {
    var layout := DeriveLayout(args.basedir);
    var w1 := w.(dirs := w.dirs + {layout.config, layout.cache, layout.distrib});
    match Dispatch(ident)
    case None => (w1.(log := w1.log + [Unsupported(ident, args.quiet)]), Failed(ImplUnbound))
    case Some(family) => GoStep(PlatformFor(args, family, is64, defaultVersion), w1, Configs(layout), resp, template)
  }

  /** On an unsupported host a run is the warning after the three directories. */
  lemma RunStepUnsupported(w: World, args: Args, ident: string, is64: bool, defaultVersion: string,
                           resp: Response, template: string)
    requires Dispatch(ident) == None
    ensures var l := DeriveLayout(args.basedir);
            var w1 := w.(dirs := w.dirs + {l.config, l.cache, l.distrib});
            RunStep(w, args, ident, is64, defaultVersion, resp, template)
              == (w1.(log := w1.log + [Unsupported(ident, args.quiet)]), Failed(ImplUnbound))
  {
  }

  /** The entry point. `ident` is the host's platform identifier, `is64` its word
      size, `defaultVersion` the default version, `resp` what the archive request
      would deliver and `template` the activation script template. */
  method Run(host: Host, args: Args, ident: string, is64: bool, defaultVersion: string,
             resp: Response, template: string) returns (st: Status)
    modifies host
    ensures (host.State(), st) == RunStep(old(host.State()), args, ident, is64, defaultVersion, resp, template)
  {
    ghost var w := host.State();
    var exclude := args.exclude;
    var version := ChooseVersion(args.goVersion, defaultVersion);
    var newgoenv := args.basedir;
    var gopath := [newgoenv];
    var config := PathJoin(newgoenv, GoenvConfigHome);
    var cache := PathJoin(config, GoenvCacheHome);
    var distrib := PathJoin(config, GolangDistributionsDir);
    var quiet := args.quiet;
    host.MakeDirs(config);
    host.MakeDirs(cache);
    host.MakeDirs(distrib);
    ghost var layout := DeriveLayout(args.basedir);
    assert layout == Layout(config, cache, distrib);
    assert host.State() == w.(dirs := w.dirs + {config, cache, distrib});
    var impl := SelectPlatform(ident);
    if impl.None? {
      RunStepUnsupported(w, args, ident, is64, defaultVersion, resp, template);
      host.Emit(Unsupported(ident, quiet));
      return Failed(ImplUnbound);
    }
    var installOnly := args.installOnly;
    var p := Make(impl.value, is64, Some(version), "", gopath, map["install_only" := installOnly, "quiet" := quiet]);
    assert p == PlatformFor(args, impl.value, is64, defaultVersion);
    var configs := map["config" := config, "cache" := cache, "distrib" := distrib];
    assert configs == Configs(layout);
    RunStepSupported(w, args, ident, is64, defaultVersion, resp, template);
    st := Go(p, host, configs, resp, template);
  }

  // ---------------------------------------------------------------------------
  // Properties of a run

  /** An unsupported host: the run stops with `impl` unbound after the warning;
      nothing is requested, unpacked or written, and only the three directories
      are created. */
  lemma RunUnsupported(w: World, args: Args, ident: string, is64: bool, defaultVersion: string,
                       resp: Response, template: string)
    requires Dispatch(ident) == None
    ensures var (w', st) := RunStep(w, args, ident, is64, defaultVersion, resp, template);
            var l := DeriveLayout(args.basedir);
            st == Failed(ImplUnbound) &&
            w'.requests == w.requests && w'.unpacked == w.unpacked && w'.files == w.files &&
            w'.dirs == w.dirs + {l.config, l.cache, l.distrib} &&
            w'.log == w.log + [Unsupported(ident, args.quiet)]
  {
  }

  /** The exclude list has no effect on a run. */
  lemma RunIgnoresExclude(w: World, args: Args, exclude: seq<string>, ident: string, is64: bool,
                          defaultVersion: string, resp: Response, template: string)
    ensures RunStep(w, args, ident, is64, defaultVersion, resp, template)
         == RunStep(w, args.(exclude := exclude), ident, is64, defaultVersion, resp, template)
  {
  }

  /** On a supported host a run is the platform's `go`, on the world in which
      the three directories exist, with the derived directories as its
      configuration. */
  lemma RunStepSupported(w: World, args: Args, ident: string, is64: bool, defaultVersion: string,
                         resp: Response, template: string)
    requires Dispatch(ident).Some?
    ensures var l := DeriveLayout(args.basedir);
            var p := PlatformFor(args, Dispatch(ident).value, is64, defaultVersion);
            RunStep(w, args, ident, is64, defaultVersion, resp, template)
              == GoStep(p, w.(dirs := w.dirs + {l.config, l.cache, l.distrib}), Configs(l), resp, template)
  {
  }

  /** Making directories that already exist changes nothing. */
  lemma PrepareExisting(w: World, l: Layout)
    requires l.config in w.dirs && l.cache in w.dirs && l.distrib in w.dirs
    ensures w.(dirs := w.dirs + {l.config, l.cache, l.distrib}) == w
  {
  }

  /** When the three directories already exist, a run on a supported host is
      the platform's `go` on the world as it is. */
  lemma RunStepPrepared(w: World, args: Args, ident: string, is64: bool, defaultVersion: string,
                        resp: Response, template: string)
    requires Dispatch(ident).Some?
    requires var l := DeriveLayout(args.basedir); l.config in w.dirs && l.cache in w.dirs && l.distrib in w.dirs
    ensures var p := PlatformFor(args, Dispatch(ident).value, is64, defaultVersion);
            RunStep(w, args, ident, is64, defaultVersion, resp, template)
              == GoStep(p, w, Configs(DeriveLayout(args.basedir)), resp, template)
  {
    RunStepSupported(w, args, ident, is64, defaultVersion, resp, template);
    PrepareExisting(w, DeriveLayout(args.basedir));
  }

  /** After a successful run the three directories exist. */
  lemma RunPrepares(w: World, args: Args, ident: string, is64: bool, defaultVersion: string,
                    resp: Response, template: string)
    requires RunStep(w, args, ident, is64, defaultVersion, resp, template).1 == Success
    ensures Dispatch(ident).Some?
    ensures var w1 := RunStep(w, args, ident, is64, defaultVersion, resp, template).0;
            var l := DeriveLayout(args.basedir);
            l.config in w1.dirs && l.cache in w1.dirs && l.distrib in w1.dirs
  {
    var l := DeriveLayout(args.basedir);
    var p := PlatformFor(args, Dispatch(ident).value, is64, defaultVersion);
    var v0 := w.(dirs := w.dirs + {l.config, l.cache, l.distrib});
    RunStepSupported(w, args, ident, is64, defaultVersion, resp, template);
    GoGrows(p, v0, Configs(l), resp, template);
  }

  /** Repeating a successful run with the same arguments requests nothing,
      unpacks nothing and leaves every file and directory as it was: the archive
      and the distribution directory are reused and the activation script is
      rewritten with the same contents. */
  lemma RunRepeat(w: World, args: Args, ident: string, is64: bool, defaultVersion: string,
                  resp1: Response, resp2: Response, template: string)
    requires RunStep(w, args, ident, is64, defaultVersion, resp1, template).1 == Success
    ensures var w1 := RunStep(w, args, ident, is64, defaultVersion, resp1, template).0;
            var second := RunStep(w1, args, ident, is64, defaultVersion, resp2, template);
            var w2 := second.0;
            second.1 == Success && w2.dirs == w1.dirs && w2.files == w1.files &&
            w2.requests == w1.requests && w2.unpacked == w1.unpacked
  {
    RunPrepares(w, args, ident, is64, defaultVersion, resp1, template);
    var w1 := RunStep(w, args, ident, is64, defaultVersion, resp1, template).0;
    RunStepPrepared(w1, args, ident, is64, defaultVersion, resp2, template);
    var l := DeriveLayout(args.basedir);
    var p := PlatformFor(args, Dispatch(ident).value, is64, defaultVersion);
    RunStepSupported(w, args, ident, is64, defaultVersion, resp1, template);
    GoRepeat(p, w.(dirs := w.dirs + {l.config, l.cache, l.distrib}), Configs(l), resp1, resp2, template);
  }

  /** Install-only and quiet on Linux or FreeBSD: the last message is exactly the
      toolchain root `<distrib>/<version>/go`, overriding quiet mode, and no file
      other than the archive is written, so no activation script. */
  lemma RunInstallOnlyQuiet(w: World, args: Args, ident: string, is64: bool, defaultVersion: string,
                            resp: Response, template: string)
    requires Dispatch(ident).Some? && Dispatch(ident).value != MacOSX
    requires args.installOnly && args.quiet
    requires RunStep(w, args, ident, is64, defaultVersion, resp, template).1 == Success
    ensures var w' := RunStep(w, args, ident, is64, defaultVersion, resp, template).0;
            var l := DeriveLayout(args.basedir);
            var version := ChooseVersion(args.goVersion, defaultVersion);
            var archive := PathJoin(l.cache, TargetName(Target(version, Dispatch(ident).value, is64)));
            w'.log != [] &&
            w'.log[|w'.log| - 1] == Message(PathJoin(PathJoin(l.distrib, version), "go"), Stdout, true, true) &&
            w'.files - {archive} == w.files - {archive}
  {
    var l := DeriveLayout(args.basedir);
    var p := PlatformFor(args, Dispatch(ident).value, is64, defaultVersion);
    var v0 := w.(dirs := w.dirs + {l.config, l.cache, l.distrib});
    PlatformForFacts(args, Dispatch(ident).value, is64, defaultVersion);
    RunStepSupported(w, args, ident, is64, defaultVersion, resp, template);
    GoInstallOnly(p, v0, Configs(l), resp, template);
  }

  /** Whenever a script is written (on macOS always, elsewhere unless
      install-only), it goes to `<basedir>/bin/activate`, rendered with the base
      directory as gopath and `<distrib>/<version>/go` as toolchain root. */
  lemma RunWritesActivation(w: World, args: Args, ident: string, is64: bool, defaultVersion: string,
                            resp: Response, template: string)
    requires Dispatch(ident).Some? && (Dispatch(ident).value == MacOSX || !args.installOnly)
    requires RunStep(w, args, ident, is64, defaultVersion, resp, template).1 == Success
    ensures var w' := RunStep(w, args, ident, is64, defaultVersion, resp, template).0;
            var l := DeriveLayout(args.basedir);
            var version := ChooseVersion(args.goVersion, defaultVersion);
            var goroot := PathJoin(PathJoin(l.distrib, version), "go");
            ActivatePath(args.basedir) in w'.files &&
            w'.files[ActivatePath(args.basedir)] == Text(Render(template, args.basedir, goroot, version))
  {
    var l := DeriveLayout(args.basedir);
    var p := PlatformFor(args, Dispatch(ident).value, is64, defaultVersion);
    var v0 := w.(dirs := w.dirs + {l.config, l.cache, l.distrib});
    PlatformForFacts(args, Dispatch(ident).value, is64, defaultVersion);
    RunStepSupported(w, args, ident, is64, defaultVersion, resp, template);
    GoWritesActivation(p, v0, Configs(l), resp, template);
    assert JoinWith([args.basedir], ":") == args.basedir;
  }
}
