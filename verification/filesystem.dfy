/** An abstract filesystem: a finite map from path strings to entries, and the
    handful of `fs` primitives the project-file operations call. Paths are the
    strings the source builds with template literals; `path.join` is assumed to
    yield the same normalised string. */
module FileSystem {
  import opened Wrappers

  type Path = string

  /** What `fs.stat` reports for an existing path. `Special` stands for every
      kind that is neither a directory nor a regular file (FIFO, socket, device),
      so `isFile()` and `isDirectory()` are both false for it. */
  datatype Entry = Directory | RegularFile(contents: string) | Special

  type Fs = map<Path, Entry>

  /** The error kinds an operation can reject with. */
  datatype Error = ReadError | ParseError | WriteError | TemplateError

  /** The two filters applied to a directory listing. */
  datatype Kind = DirectoryKind | FileKind

  function Join(dir: Path, name: string): Path {
    dir + "/" + name
  }

  predicate IsDir(fs: Fs, p: Path) {
    p in fs && fs[p].Directory?
  }

  predicate IsFile(fs: Fs, p: Path) {
    p in fs && fs[p].RegularFile?
  }

  predicate HasKind(e: Entry, k: Kind) {
    match k
    case DirectoryKind => e.Directory?
    case FileKind => e.RegularFile?
  }

  /** `fs.promises.access(p, F_OK)` resolves. A trailing slash makes the path
      resolve only to a directory, as on POSIX systems. */
  predicate Access(fs: Fs, p: Path) {
    if |p| > 0 && p[|p| - 1] == '/' then IsDir(fs, p[..|p| - 1]) else p in fs
  }

  /** A name `readdir` can report: non-empty, not `.` or `..`, no separator. */
  predicate IsEntryName(name: string) {
    name != "" && name != "." && name != ".." && '/' !in name
  }

  /** `names` is exactly what `readdir(dir)` enumerates, in some order and
      without repetition. */
  ghost predicate IsListing(fs: Fs, dir: Path, names: seq<string>) {
    && (forall k :: 0 <= k < |names| ==> IsEntryName(names[k]) && Join(dir, names[k]) in fs)
    && (forall k, l :: 0 <= k < l < |names| ==> names[k] != names[l])
    && (forall name :: IsEntryName(name) && Join(dir, name) in fs ==> name in names)
  }

  /** `fs.promises.readFile(p)`: the contents of a regular file. */
  function ReadFile(fs: Fs, p: Path): (r: Result<string, Error>)
    ensures r.Success? <==> IsFile(fs, p)
    ensures r.Success? ==> fs[p] == RegularFile(r.value)
  {
    if IsFile(fs, p) then Success(fs[p].contents) else Failure(ReadError)
  }

  /** `fs.promises.writeFile(Join(dir, name), contents)`: creates or truncates
      a regular file. It rejects when the parent is not a directory or the
      target is something other than a regular file. */
  function WriteFile(fs: Fs, dir: Path, name: string, contents: string): (r: Result<Fs, Error>)
    ensures r.Success? <==> IsDir(fs, dir) && (Join(dir, name) in fs ==> IsFile(fs, Join(dir, name)))
    ensures r.Success? ==> r.value.Keys == fs.Keys + {Join(dir, name)}
    ensures r.Success? ==> r.value[Join(dir, name)] == RegularFile(contents)
    ensures r.Success? ==> forall p :: p in fs && p != Join(dir, name) ==> r.value[p] == fs[p]
  {
    var target := Join(dir, name);
    if !IsDir(fs, dir) then Failure(WriteError)
    else if target in fs && !fs[target].RegularFile? then Failure(WriteError)
    else Success(fs[target := RegularFile(contents)])
  }

  /** `fs.unlink(p)`: removes anything but a directory; rejects otherwise. */
  function Unlink(fs: Fs, p: Path): (r: Result<Fs, Error>)
    ensures r.Success? <==> p in fs && !fs[p].Directory?
    ensures r.Success? ==> r.value.Keys == fs.Keys - {p}
    ensures r.Success? ==> forall q :: q in r.value ==> r.value[q] == fs[q]
  {
    if p in fs && !fs[p].Directory? then Success(fs - {p}) else Failure(WriteError)
  }

  /** `fs.promises.mkdir(levels[last], {recursive: true})`, where `levels` is
      the chain of directories from the outermost one that this model tracks
      down to the target. Existing directories are accepted; a level that
      exists as anything else makes the call reject before anything is made. */
  function MakeDirs(fs: Fs, levels: seq<Path>): (r: Result<Fs, Error>)
    ensures r.Success? <==> forall k :: 0 <= k < |levels| && levels[k] in fs ==> fs[levels[k]].Directory?
    ensures r.Success? ==> r.value.Keys == fs.Keys + set k | 0 <= k < |levels| :: levels[k]
    ensures r.Success? ==> forall k :: 0 <= k < |levels| ==> IsDir(r.value, levels[k])
    ensures r.Success? ==> forall p :: p in fs ==> r.value[p] == fs[p]
    ensures r.Failure? ==> r.error == WriteError
    decreases |levels|
  {
    if |levels| == 0 then Success(fs)
    else if levels[0] in fs && !fs[levels[0]].Directory? then Failure(WriteError)
    else
      var fs1 := if levels[0] in fs then fs else fs[levels[0] := Directory];
      MakeDirs(fs1, levels[1..])
  }

  /** `a` is obtained from `b` by deleting elements: it keeps their relative
      order and uses each position of `b` at most once. */
  ghost predicate IsSubsequence<T>(a: seq<T>, b: seq<T>)
    decreases |b|
  {
    if |b| == 0 then |a| == 0
    else (|a| > 0 && a[0] == b[0] && IsSubsequence(a[1..], b[1..])) || IsSubsequence(a, b[1..])
  }

  /** `names.filter(f => fs.statSync(Join(dir, f)).is<Kind>())`. `statSync`
      throws for a name that does not exist, which rejects the whole listing. */
  function FilterByKind(fs: Fs, dir: Path, names: seq<string>, kind: Kind): (r: Result<seq<string>, Error>)
    ensures r.Success? <==> forall k :: 0 <= k < |names| ==> Join(dir, names[k]) in fs
    ensures r.Success? ==> |r.value| <= |names|
    ensures r.Success? ==> IsSubsequence(r.value, names)
    ensures r.Failure? ==> r.error == ReadError
    ensures r.Success? ==> forall name :: name in r.value <==>
              name in names && Join(dir, name) in fs && HasKind(fs[Join(dir, name)], kind)
  {
    if |names| == 0 then Success([])
    else if Join(dir, names[0]) !in fs then Failure(ReadError)
    else
      match FilterByKind(fs, dir, names[1..], kind)
      case Failure(e) => Failure(e)
      case Success(rest) =>
        if HasKind(fs[Join(dir, names[0])], kind) then Success([names[0]] + rest) else Success(rest)
  }
}
