/**
 * The part of the file system the plugin touches: a set of directories, a
 * map from file paths to their bytes, and which operations the platform
 * refuses (permissions, full disks and the like), as fixed functions of the path.
 */
module FileSystem {
  import opened Java

  type Path = string

  /** File.separator on the platforms this model describes. */
  const Separator: string := "/"

  /** The path of leaf inside dir, as both dir + File.separator + leaf and Paths.get(dir, leaf) form it. */
  function Join(dir: Path, leaf: string): (p: Path)
    ensures |p| == |dir| + |Separator| + |leaf|
    ensures p[..|dir|] == dir && p[|dir| + |Separator|..] == leaf
  {
    dir + Separator + leaf
  }

  /** Within one directory, distinct leaf names give distinct paths. */
  lemma JoinInjective(dir: Path, a: string, b: string)
    requires Join(dir, a) == Join(dir, b)
    ensures a == b
  {
  }

  /**
   * The IOException of a failed Files.write: its message and, when it came
   * after the target was opened (created or truncated), how many bytes had
   * reached the target by then; None when it came before the target was opened.
   */
  datatype WriteFailure = WriteFailure(message: string, written: Option<nat>)

  /**
   * Why Files.write(Join(dir, leaf), ...) fails, if it does. When nothing
   * exists at dir, opening the target fails with NoSuchFileException; when a
   * regular file is there, with FileSystemException ("Not a directory").
   * Either way nothing is created, and the model's message is the target path.
   * Inside a directory the platform decides.
   */
  function WriteError(dirs: set<Path>, writeFailure: Path -> Option<WriteFailure>, dir: Path, leaf: string)
    : (err: Option<WriteFailure>)
    ensures dir !in dirs ==> err.Some? && err.value.written.None?
    ensures dir in dirs ==> err == writeFailure(Join(dir, leaf))
  {
    if dir !in dirs then Some(WriteFailure(Join(dir, leaf), None)) else writeFailure(Join(dir, leaf))
  }

  /**
   * What a failed write of data leaves in its target: nothing, if it failed
   * before opening the target; otherwise the bytes written before the failure,
   * a prefix of data (empty for a failure right after truncation).
   */
  function Leftover(data: seq<byte>, f: WriteFailure): (left: Option<seq<byte>>)
    ensures left.Some? <==> f.written.Some?
    ensures left.Some? ==> left.value <= data
    ensures left.Some? && f.written.value < |data| ==> |left.value| == f.written.value
  {
    match f.written
    case None => None
    case Some(n) => Some(data[..if n < |data| then n else |data|])
  }

  class FileSystem {
    var dirs: set<Path>
    var files: map<Path, seq<byte>>
    /** The IOException message Files.createDirectories throws for a path, if it fails. */
    const mkdirFailure: Path -> Option<string>
    /** The IOException Files.write throws for a path inside an existing directory, if it fails. */
    const writeFailure: Path -> Option<WriteFailure>

    constructor (dirs: set<Path>, files: map<Path, seq<byte>>,
                 mkdirFailure: Path -> Option<string>, writeFailure: Path -> Option<WriteFailure>)
      ensures this.dirs == dirs && this.files == files
      ensures this.mkdirFailure == mkdirFailure && this.writeFailure == writeFailure
    {
      this.dirs := dirs;
      this.files := files;
      this.mkdirFailure := mkdirFailure;
      this.writeFailure := writeFailure;
    }

    /** File.exists: true for a directory and for a regular file alike. */
    predicate Exists(p: Path)
      reads this
    {
      p in dirs || p in files
    }

    /** Files.createDirectories: adds the directory unless the platform refuses. */
    method CreateDirectories(p: Path) returns (err: Option<string>)
      modifies this`dirs
      ensures err == mkdirFailure(p)
      ensures dirs == if err.None? then old(dirs) + {p} else old(dirs)
    {
      err := mkdirFailure(p);
      if err.None? {
        dirs := dirs + {p};
      }
    }

    /**
     * Files.write with no options (CREATE, TRUNCATE_EXISTING, WRITE): the file
     * leaf in dir holds data afterwards. A failure before the target is opened
     * changes nothing; a later one leaves the target holding what was written.
     */
    method Write(dir: Path, leaf: string, data: seq<byte>) returns (err: Option<WriteFailure>)
      modifies this`files
      ensures err == WriteError(dirs, writeFailure, dir, leaf)
      ensures err.None? ==> files == old(files)[Join(dir, leaf) := data]
      ensures err.Some? ==>
        files == match Leftover(data, err.value)
                 case None => old(files)
                 case Some(left) => old(files)[Join(dir, leaf) := left]
    {
      err := WriteError(dirs, writeFailure, dir, leaf);
      match err {
        case None =>
          files := files[Join(dir, leaf) := data];
        case Some(f) =>
          match Leftover(data, f) {
            case None =>
            case Some(left) =>
              files := files[Join(dir, leaf) := left];
          }
      }
    }
  }
}
