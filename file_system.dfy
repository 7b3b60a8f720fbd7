/** The part of Node's synchronous `fs` API that the cache code uses, over a
    filesystem that holds directories and files. Every call that the source
    may see fail takes the error it fails with as a parameter (`None`: it
    does not fail for reasons outside the model). */
module FileSystem {
  import opened Wrappers
  import opened Errors
  import opened Weather

  datatype Path = Path(dir: string, name: string)

  /** A snapshot of the filesystem. */
  datatype Fs = Fs(dirs: set<string>, files: map<Path, Text>)

  /** `fs.mkdirSync(dir, {recursive: true})`. */
  function MakeDir(s: Fs, dir: string): (s': Fs)
    ensures s'.dirs == s.dirs + {dir} && s'.files == s.files
  {
    Fs(s.dirs + {dir}, s.files)
  }

  /** `if (!fs.existsSync(dir)) fs.mkdirSync(dir, ...)`. */
  function EnsureDir(s: Fs, dir: string): (s': Fs)
    ensures s'.dirs == s.dirs + {dir} && s'.files == s.files
  {
    if dir in s.dirs then s else MakeDir(s, dir)
  }

  /** `fs.readFileSync(p)`: the contents, ENOENT for a missing file, or the
      injected failure. */
  function Read(s: Fs, p: Path, fault: Option<OsError>): (r: Result<Text, Error>)
    ensures r.Success? <==> fault.None? && p in s.files
    ensures r.Success? ==> r.value == s.files[p]
    ensures r.Failure? ==> r.error == Os(if fault.Some? then fault.value else ENOENT)
  {
    if fault.Some? then Failure(Os(fault.value))
    else if p !in s.files then Failure(Os(ENOENT))
    else Success(s.files[p])
  }

  /** `fs.writeFileSync(p, t)`: creates or replaces p when its directory
      exists; a failed write changes nothing. */
  function Write(s: Fs, p: Path, t: Text, fault: Option<OsError>): (r: (Outcome<Error>, Fs))
    ensures r.0.Pass? <==> fault.None? && p.dir in s.dirs
    ensures r.0.Pass? ==> r.1 == Fs(s.dirs, s.files[p := t])
    ensures r.0.Fail? ==> r.1 == s
  {
    if fault.Some? then (Fail(Os(fault.value)), s)
    else if p.dir !in s.dirs then (Fail(Os(ENOENT)), s)
    else (Pass, Fs(s.dirs, s.files[p := t]))
  }

  /** `fs.renameSync(from, to)`: moves the contents of `from` onto `to` in one
      step, replacing whatever `to` held; a failed rename changes nothing. */
  function Rename(s: Fs, from: Path, to: Path, fault: Option<OsError>): (r: (Outcome<Error>, Fs))
    ensures r.0.Pass? <==> fault.None? && from in s.files && to.dir in s.dirs
    ensures r.0.Pass? ==> r.1 == Fs(s.dirs, (s.files - {from})[to := s.files[from]])
    ensures r.0.Fail? ==> r.1 == s
  {
    if fault.Some? then (Fail(Os(fault.value)), s)
    else if from !in s.files || to.dir !in s.dirs then (Fail(Os(ENOENT)), s)
    else (Pass, Fs(s.dirs, (s.files - {from})[to := s.files[from]]))
  }

  /** The mutable filesystem the modules share. */
  class FileSystem {
    var dirs: set<string>
    var files: map<Path, Text>

    function State(): Fs
      reads this
    {
      Fs(dirs, files)
    }

    constructor (initial: Fs)
      ensures State() == initial
    {
      dirs := initial.dirs;
      files := initial.files;
    }

    /** `fs.existsSync(p)` for a file. */
    method FileExists(p: Path) returns (b: bool)
      ensures b <==> p in files
    {
      b := p in files;
    }

    /** `fs.existsSync(dir)` for a directory. */
    method DirExists(dir: string) returns (b: bool)
      ensures b <==> dir in dirs
    {
      b := dir in dirs;
    }

    method MakeDirectory(dir: string)
      modifies this
      ensures State() == MakeDir(old(State()), dir)
    {
      dirs := dirs + {dir};
    }

    method ReadFile(p: Path, fault: Option<OsError>) returns (r: Result<Text, Error>)
      ensures r == Read(State(), p, fault)
    {
      if fault.Some? {
        r := Failure(Os(fault.value));
      } else if p !in files {
        r := Failure(Os(ENOENT));
      } else {
        r := Success(files[p]);
      }
    }

    method WriteFile(p: Path, t: Text, fault: Option<OsError>) returns (o: Outcome<Error>)
      modifies this
      ensures (o, State()) == Write(old(State()), p, t, fault)
    {
      if fault.Some? {
        o := Fail(Os(fault.value));
      } else if p.dir !in dirs {
        o := Fail(Os(ENOENT));
      } else {
        files := files[p := t];
        o := Pass;
      }
    }

    method RenameFile(from: Path, to: Path, fault: Option<OsError>) returns (o: Outcome<Error>)
      modifies this
      ensures (o, State()) == Rename(old(State()), from, to, fault)
    {
      if fault.Some? {
        o := Fail(Os(fault.value));
      } else if from !in files || to.dir !in dirs {
        o := Fail(Os(ENOENT));
      } else {
        files := (files - {from})[to := files[from]];
        o := Pass;
      }
    }
  }
}
