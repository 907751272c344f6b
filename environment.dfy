/** What the installer sees of its host: the filesystem (a set of directories
    and a map from file path to contents), the console messages it emits, the
    URLs it requests and the archives it unpacks. Paths are compared as plain
    strings. */
module Environment {

  newtype byte = b: int | 0 <= b < 256

  /** Contents of a file: the bytes of a downloaded archive or a text file. */
  datatype Content = Binary(bytes: seq<byte>) | Text(text: string)

  datatype Stream = Stdout | Stderr

  /** One call of the message helper: the text, the stream it goes to, the quiet
      flag in force and whether the message overrides quiet mode. Whether a quiet
      message actually reaches the console is decided by that helper, which is
      not part of this model. */
  datatype Message = Message(text: string, stream: Stream, quiet: bool, override: bool)

  /** What an HTTP request for an archive delivers: the streamed body, chunk by
      chunk, or an exception raised by the request. */
  datatype Response = Streamed(chunks: seq<seq<byte>>) | RequestError

  /** A snapshot of the host. `dirs` are paths that exist without modelled
      contents (directories); `files` are paths holding contents. */
  datatype World = World(
    dirs: set<string>,
    files: map<string, Content>,
    log: seq<Message>,
    requests: seq<string>,
    unpacked: seq<(string, string)>)
  {
    /** `os.path.exists(p)`. */
    predicate Exists(p: string)
    {
      p in dirs || p in files
    }
  }

  /** The host, updated in place by the installer's steps. */
  class Host {
    var dirs: set<string>
    var files: map<string, Content>
    var log: seq<Message>
    var requests: seq<string>
    var unpacked: seq<(string, string)>

    function State(): World
      reads this
    {
      World(dirs, files, log, requests, unpacked)
    }

    constructor (w: World)
      ensures State() == w
    {
      dirs, files, log, requests, unpacked := w.dirs, w.files, w.log, w.requests, w.unpacked;
    }

    /** Calls the message helper. */
    method Emit(m: Message)
      modifies this
      ensures State() == old(State()).(log := old(log) + [m])
    {
      log := log + [m];
    }

    /** Issues the HTTP request for `url`; what it delivers is an input of the caller. */
    method Request(url: string)
      modifies this
      ensures State() == old(State()).(requests := old(requests) + [url])
    {
      requests := requests + [url];
    }

    /** Opens `path` for writing, truncating it, and writes `c`. */
    method WriteFile(path: string, c: Content)
      modifies this
      ensures State() == old(State()).(files := old(files)[path := c])
    {
      files := files[path := c];
    }

    /** `os.makedirs(path, exist_ok=True)`. */
    method MakeDirs(path: string)
      modifies this
      ensures State() == old(State()).(dirs := old(dirs) + {path})
    {
      dirs := dirs + {path};
    }

    /** Unpacks the archive at `archive` into the directory `dir`, which then exists. */
    method Unpack(archive: string, dir: string)
      modifies this
      ensures State() == old(State()).(dirs := old(dirs) + {dir}, unpacked := old(unpacked) + [(archive, dir)])
    {
      dirs := dirs + {dir};
      unpacked := unpacked + [(archive, dir)];
    }
  }
}
