# goenv, modelled in Dafny

goenv sets up an isolated Go environment under a base directory. It first
derives three directories: the configuration directory `<basedir>/.goenv`,
with the download cache `downloads` and the distribution directory `dists`
under it. It then picks the platform class for the host (Linux, macOS or
FreeBSD) and runs that class's install pipeline:

- download the Go archive `go<version>.<platform>-<arch>.tar.gz` from
  `http://storage.googleapis.com/golang/…`, unless a copy is already cached;
- unpack it into `dists/<version>`, unless that directory already exists;
- then do one of two things:
  - write an activation script to `<gopath>/bin/activate`, rendered from a
    template with four placeholders;
  - in install-only mode, print how to use the toolchain root
    `dists/<version>/go`, or print only that path when quiet.

The model works on an abstract host, `Environment.World`. It has these parts:

- a set of directories;
- a map from file path to contents;
- the log of message-helper calls;
- the requested URLs;
- the archives unpacked and their target directories.

The host is the class `Environment.Host`, and its methods (`Emit`, `Request`,
`WriteFile`, `MakeDirs`, `Unpack`) update it in place. Each step of the
installer is a module-level method that takes the host as a parameter and
changes it through those methods. Each step's postcondition ties the host's
new state and the result to a pure function of the old state: `DownloadStep`,
`ExtractStep`, `SubshellStep`, `GoStep` and `RunStep`.
The properties of the installer are lemmas about those functions.

A platform object's fields are only set while it is constructed, so
`PlatformDependent.Plat` is a value. The three constructors are
`PlatformDependent.Make`.

The HTTP response is an input, a sequence of streamed chunks or a request
error. So are:

- the host's platform identifier and word size;
- the default version;
- the activation template.

The Python built-ins the code relies on are modelled in `Strings`:

- `os.path.join` (POSIX);
- `str.replace`, scanning left to right for non-overlapping matches;
- `str.split`;
- `str.join`;
- taking the last element of `split("/")`.

Behaviour is modelled as the code is written, including these quirks:

- The macOS constructor passes only its positional arguments on, so the
  platform object never sees `--install-only` or `--quiet` on macOS. It always
  writes the activation script, and its own messages are never quiet. The
  quiet flag still reaches the directory setup, which `main` does itself.
- On an unsupported platform the warning is printed, with the quiet flag, and
  then the run fails, because `impl` is unbound. The three directories already
  exist by then.
- The exclude list is computed but never used.
- When the request raises, the handler reads `ex.message`, which Python 3
  exceptions do not have. The handler was evidently meant to print the error
  and exit with status 1. Instead it raises `AttributeError`, which also ends
  the run with status 1, but without that message. The model follows the
  code: the run stops and no error message is logged.
- `subshell` with no gopath entries fails in the first substitution, before
  anything is written.

## Model

| member | source | states |
|---|---|---|
| Strings.PathJoin | goenv/platform_dependent.py:71 | `os.path.join`: an absolute second part replaces the first; otherwise the second part is appended to the first, with one `/` between them exactly when the first is non-empty and does not already end in `/`; the result always ends with the second part |
| Strings.JoinWith | goenv/platform_dependent.py:134 | `sep.join(parts)`; the definition `SplitJoin` and `ReplaceIsSplitJoin` are about |
| Strings.Split | goenv/platform_dependent.py:263 | `str.split` on a non-empty separator always gives at least one piece; its pieces are what `SplitJoin`, `SplitPiecesFree` and `LastSegment` are about |
| Strings.Replace | goenv/platform_dependent.py:263 | `str.replace`, left to right, non-overlapping; the definition `ReplaceIsSplitJoin`, `ReplaceSelf` and `ReplaceAbsent` are about |
| Strings.SplitPiecesFree | goenv/platform_dependent.py:263 | no piece of a split contains the separator, for every non-empty separator |
| Strings.ReplaceSubstitutes | goenv/platform_dependent.py:263 | `replace` substitutes every occurrence: the text is pieces free of the pattern joined by it, and the result is the same pieces joined by the replacement |
| Strings.ReplaceIsSplitJoin | goenv/platform_dependent.py:263 | `s.replace(p, r)` equals `r.join(s.split(p))` for every text and non-empty pattern |
| Strings.SplitJoin | goenv/platform_dependent.py:263 | joining the pieces of a split with the same separator gives back the text |
| Strings.ReplaceSelf | goenv/platform_dependent.py:263 | replacing a pattern by itself leaves any text unchanged |
| Strings.ReplaceAbsent | goenv/platform_dependent.py:263 | a text in which the pattern occurs nowhere is left unchanged by `replace` |
| Strings.LastSegment | goenv/platform_dependent.py:263 | `split("/")[-1]` holds no `/`, ends the path, and is preceded by a `/` whenever it is not the whole path |
| Strings.LastSegmentOfChild | goenv/platform_dependent.py:263 | the last segment of `a/f` is `f` for every `f` without `/` |
| ArchiveNames.ArchiveName | goenv/constants.py:15 | the filename template `go{version}.{platform}-{architecture}.{extension}`; the definition `ParseTargetName` and `TargetNameOfParse` are about |
| ArchiveNames.DownloadPath | goenv/constants.py:14 | the path template `/golang/{filename}`; the definition `UrlEndsWithTargetName` is about |
| ArchiveNames.DownloadUrl | goenv/platform_dependent.py:70-73 | `http://` + host + path; the definition `UrlEndsWithTargetName` is about |
| ArchiveNames.ParseTargetName | goenv/constants.py:15 | every archive name built from the filename template reads back as exactly the version, platform and word size it was built from |
| ArchiveNames.TargetNameOfParse | goenv/constants.py:15 | every name that reads back as a target is that target's archive name (the converse of the round trip) |
| ArchiveNames.TargetNameInjective | goenv/platform_dependent.py:66-71 | distinct versions, platforms or word sizes never share an archive file, so a cached archive is only reused for what it was fetched for |
| ArchiveNames.UrlEndsWithTargetName | goenv/platform_dependent.py:66-73 | for a version without `/`, the last segment of the download URL is the archive file name |
| PlatformDependent.Plat.Quiet | goenv/platform_dependent.py:24-25 | quiet exactly when the `quiet` option is present and true |
| PlatformDependent.Plat.DoSubshell | goenv/platform_dependent.py:92-94 | a script is written exactly when `install_only` is absent or false |
| PlatformDependent.Plat.GoRoot | goenv/platform_dependent.py:128-129 | the toolchain root is `<godir>/go` for a directory without a trailing `/` |
| PlatformDependent.Init | goenv/platform_dependent.py:17-22 | the latest version is used exactly when no version is given; gopath and options are kept |
| PlatformDependent.Make | goenv/platform_dependent.py:284-306 | each class fixes its platform string, `amd64`/`386` by word size and `tar.gz`; the macOS class keeps no options |
| PlatformDependent.MadeArchiveName | goenv/platform_dependent.py:284-306 | the archive a constructed object downloads reads back as its own version, family and word size |
| PlatformDependent.MacOSXIgnoresOptions | goenv/platform_dependent.py:300-306 | a macOS object always writes a script and is never quiet, whatever options it is given |
| PlatformDependent.Received | goenv/platform_dependent.py:50-58 | the body read from the chunks, stopping at the first empty one; the specification `DoDownload` is proved against, with `ReceivedPrefix` and `ReceivedStopsAtEmpty` about it |
| PlatformDependent.DoDownload | goenv/platform_dependent.py:45-58 | the body is the received chunks joined, stopping at the first empty chunk |
| PlatformDependent.ReceivedPrefix | goenv/platform_dependent.py:50-58 | the body is the join of exactly the chunks before the first empty one |
| PlatformDependent.ReceivedStopsAtEmpty | goenv/platform_dependent.py:53-54 | nothing after an empty chunk reaches the body |
| PlatformDependent.DownloadStep | goenv/platform_dependent.py:60-85 | the effect of `download` on the host; the definition `DownloadHit`, `DownloadMiss`, `DownloadTwice`, `DownloadLeavesArchive` and `DownloadOnlyWritesArchive` are about |
| PlatformDependent.Download | goenv/platform_dependent.py:60-85 | the host's new state and the result are those of `DownloadStep` on the old state |
| PlatformDependent.DownloadHit | goenv/platform_dependent.py:72-85 | when the archive path exists, nothing is requested, the filesystem is unchanged and that path is returned |
| PlatformDependent.DownloadMiss | goenv/platform_dependent.py:72-82 | when it is missing, exactly one request for the archive URL; on success only the archive path is written, with the received body; on a request error nothing is written and the run stops |
| PlatformDependent.DownloadTwice | goenv/platform_dependent.py:60-85 | a download after a successful one returns the same path with no request and no filesystem change |
| PlatformDependent.DownloadLeavesArchive | goenv/platform_dependent.py:71-85 | a download that does not stop the run returns the archive path, which then exists; nothing is removed |
| PlatformDependent.DownloadOnlyWritesArchive | goenv/platform_dependent.py:81-82 | a download changes no file but the archive |
| PlatformDependent.ExtractStep | goenv/platform_dependent.py:269-278 | the effect of `extract` on the host; the definition `ExtractHit`, `ExtractMiss`, `ExtractResult` and `ExtractIdempotent` are about |
| PlatformDependent.ExtractHit | goenv/platform_dependent.py:272-277 | when `<distpath>/<version>` already exists, for whatever reason, nothing is unpacked, no path changes and only the skip message is logged |
| PlatformDependent.ExtractMiss | goenv/platform_dependent.py:272-275 | when it is missing, exactly this archive is unpacked into it, that directory is the one added, no file changes and the extracting message is logged |
| PlatformDependent.Extract | goenv/platform_dependent.py:269-278 | the host's new state and the result are those of `ExtractStep` on the old state |
| PlatformDependent.ExtractResult | goenv/platform_dependent.py:269-278 | extract returns `<distpath>/<version>`, which exists afterwards; no file changes and nothing is requested |
| PlatformDependent.ExtractIdempotent | goenv/platform_dependent.py:271-278 | a second extract, of any archive, returns the same directory and unpacks and changes nothing |
| PlatformDependent.Render | goenv/platform_dependent.py:263 | the four chained replacements; the definition `RenderWithoutPlaceholders` and `RenderAsSplitJoin` are about |
| PlatformDependent.ActivatePath | goenv/platform_dependent.py:265 | `<gopath>/bin/activate`; the definition `FinishWritesScript`, `GoWritesActivation` and `RunWritesActivation` are about |
| PlatformDependent.RenderRounds | goenv/platform_dependent.py:263 | in each of the four rounds, in source order, the text is pieces free of that round's placeholder joined by it, and the next text is the same pieces joined by the value (the gopath, the root, the version, the last segment of the gopath) |
| PlatformDependent.RenderWithoutPlaceholders | goenv/platform_dependent.py:263 | a template containing none of the four placeholders is written out unchanged |
| PlatformDependent.RenderAsSplitJoin | goenv/platform_dependent.py:263 | each substitution splits at its placeholder and joins with its value, in the order gopath, root, version, prompt (the last segment of the gopath) |
| PlatformDependent.SubshellStep | goenv/platform_dependent.py:131-267 | the effect of `subshell` on the host; the definition `FinishWritesScript` is about |
| PlatformDependent.Subshell | goenv/platform_dependent.py:131-267 | the host's new state and the status are those of `SubshellStep` on the old state |
| PlatformDependent.InstallHint | goenv/platform_dependent.py:103-120 | the install-only instructions for a toolchain root; the text `InstallMessage` chooses when not quiet |
| PlatformDependent.InstallMessage | goenv/platform_dependent.py:101-126 | quiet prints exactly the toolchain root, overriding quiet mode; otherwise the shell instructions for that root, not overriding |
| PlatformDependent.FinishStep | goenv/platform_dependent.py:98-126 | the script or the install-only report; the definition `FinishWritesScript`, `FinishInstallOnly` and `FinishRepeat` are about |
| PlatformDependent.GoStep | goenv/platform_dependent.py:96-99 | the effect of `go` on the host; the definition `GoRepeat`, `GoInstallOnly`, `GoWritesActivation` and `GoGrows` are about |
| PlatformDependent.Go | goenv/platform_dependent.py:96-126 | the host's new state and the status are those of `GoStep` on the old state |
| PlatformDependent.FinishWritesScript | goenv/platform_dependent.py:98-99 | with a gopath, the rendered script is written to `<joined gopath>/bin/activate` and no other file changes |
| PlatformDependent.FinishInstallOnly | goenv/platform_dependent.py:100-126 | install-only changes no file or directory and logs exactly the root (quiet) or the instructions (not quiet) |
| PlatformDependent.GoGrows | goenv/platform_dependent.py:96-99 | a successful `go` removes no file and no directory |
| PlatformDependent.GoStepSucceeded | goenv/platform_dependent.py:97 | a successful `go` finishes in `<distrib>/<version>`, after extracting the archive kept in the cache directory |
| PlatformDependent.GoRepeat | goenv/platform_dependent.py:96-99 | a second `go` after a successful one requests nothing, unpacks nothing and leaves every file and directory as it was |
| PlatformDependent.GoInstallOnly | goenv/platform_dependent.py:100-126 | a successful install-only `go` writes no file but the archive; its last message is the install-only report for `<distrib>/<version>/go` |
| PlatformDependent.GoWritesActivation | goenv/platform_dependent.py:97-99 | a successful `go` that writes a script leaves the script, rendered for the joined gopath and `<distrib>/<version>/go`, at `<joined gopath>/bin/activate` |
| Goenv.DeriveLayout | goenv/__init__.py:52-54 | the configuration directory is `<basedir>/.goenv`; the cache and distribution directories are `downloads` and `dists` under it; the three are distinct |
| Goenv.ChooseVersion | goenv/__init__.py:41 | the version given on the command line wins; the default is used only when none is given |
| Goenv.Dispatch | goenv/__init__.py:59-68 | the class of the first table key that begins the identifier; the specification `SelectPlatform` is proved against and `DispatchMatches` is about |
| Goenv.AtMostOneKey | goenv/__init__.py:59-68 | no platform identifier begins with two different dispatch keys |
| Goenv.DispatchMatches | goenv/__init__.py:59-68 | the loop picks a class exactly when the identifier begins with that class's key, whatever the table order |
| Goenv.SelectPlatform | goenv/__init__.py:65-68 | the loop returns the class of the first key that begins the identifier, and none when no key does |
| Goenv.Options | goenv/__init__.py:72-73 | the keyword options `install_only` and `quiet`; the definition `PlatformForFacts` is about |
| Goenv.PlatformFor | goenv/__init__.py:72-73 | the platform object built for a run; the definition `PlatformForFacts` is about |
| Goenv.Configs | goenv/__init__.py:73-77 | the `config`, `cache` and `distrib` entries handed to `go`; the definition `RunStepSupported` is about |
| Goenv.Unsupported | goenv/__init__.py:70 | the warning for an unsupported host, to standard error; the message `RunUnsupported` states is logged |
| Goenv.RunStep | goenv/__init__.py:32-77 | the effect of `main` on the host; the definition `RunUnsupported`, `RunRepeat`, `RunInstallOnlyQuiet` and `RunWritesActivation` are about |
| Goenv.PlatformForFacts | goenv/__init__.py:72-73 | the object built for a run has the chosen version and the base directory as gopath; it names the archive for that version, family and word size; it writes a script unless install-only off macOS, and is quiet only when asked off macOS |
| Goenv.Run | goenv/__init__.py:32-77 | the host's new state and the status are those of `RunStep` on the old state |
| Goenv.RunStepSupported | goenv/__init__.py:57-77 | on a supported host a run is the class's `go` on the world with the three directories, configured with them |
| Goenv.RunStepUnsupported | goenv/__init__.py:57-70 | on an unsupported host a run is the three directories followed by the warning, and fails |
| Goenv.RunUnsupported | goenv/__init__.py:65-70 | on an unsupported host, nothing is requested, unpacked or written; only the three directories are created and the warning is logged |
| Goenv.RunIgnoresExclude | goenv/__init__.py:36-39 | the exclude list has no effect on a run |
| Goenv.RunPrepares | goenv/__init__.py:57 | after a successful run the three directories exist |
| Goenv.RunStepPrepared | goenv/__init__.py:57-77 | when the three directories already exist, a run is the class's `go` on the world as it is |
| Goenv.RunRepeat | goenv/__init__.py:57-77 | repeating a successful run with the same arguments requests nothing, unpacks nothing and leaves every file and directory as it was |
| Goenv.RunInstallOnlyQuiet | goenv/__init__.py:72-77 | install-only and quiet off macOS: the last message is exactly `<distrib>/<version>/go`, overriding quiet mode, and no file but the archive is written |
| Goenv.RunWritesActivation | goenv/__init__.py:72-77 | whenever a script is written, it is `<basedir>/bin/activate`, rendered for the base directory and `<distrib>/<version>/go` |

## Left out

- Every filesystem operation succeeds in the model. The source can raise at these points, and the model does not capture them:
  - opening the archive for writing (goenv/platform_dependent.py:81), for example when the version holds a `/` so that the archive's directory under `downloads` does not exist, or when the base directory is read-only;
  - making `<gopath>/bin/` and writing the script (goenv/platform_dependent.py:264-265);
  - making the three directories.
- A response without a `Content-Length` header makes `do_download` raise before any write (goenv/platform_dependent.py:46), and that error is not a request exception. In the model a streamed response is always written.
- Goenv.RunRepeat: holds for a rerun in a new process. `main` rebinds the module-level directory names (goenv/__init__.py:44-54), so a second call of `main` in the same interpreter joins onto the already joined paths. The model derives the directories afresh on every run.
- The HTTP transport is not modelled: the request, its headers, `Content-Length` and the progress bar (`print_progress`). The response is an input: the chunks, or a request error.
- Unpacking is recorded as the pair (archive, directory) and makes the directory exist. The tar format, the unpacked files and corrupt archives are not modelled.
- PlatformDependent.Init: the latest version is an input, `latest`. In the code, line 19 of `goenv/platform_dependent.py` calls `self.latest_version()`, but no class in that file defines it, so a platform object built without a version would raise `AttributeError` there. `main` always passes a version, so that path is never taken in a run.
- `default_version`, `substitute` and `ensure_paths` come from `goenv/utils.py`, which is not part of this model. The default version and the substituted base directory are inputs. `ensure_paths` is modelled as making the three directories exist.
- Whether a quiet message reaches the console is decided by the `message` helper, which is not part of this model. The log records each call with its quiet and override flags.
- The activation template is an input, and the properties are proved for every template. The shell text of the template is not reproduced.
- `os.path.realpath` of the excluded paths is not modelled, since the list is never used.
- `os.environ["PATH"]` and the `gobin`/`newpath` values in `subshell` are not modelled, since they are computed but never used.
- `os.makedirs` creates parent directories; the model adds only the directory named.
- Paths are compared as plain strings, with no normalisation and no symbolic links.
- Console messages and requests are kept in two separate logs, so their relative order is not recorded.
- Process exit is a `Status` value: `sys.exit`, the uncaught exceptions and their tracebacks are not modelled.
- Reading `sys.platform` and `sys.maxsize` is not modelled. They become the inputs `ident` and `is64`.
