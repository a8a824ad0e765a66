/**
 * The part of the host filesystem the server touches, and the two writers of
 * src/utils.rs: `store_json_data` and `save_onnx_file`.  Paths are compared as
 * strings; there is no normalisation of `.`, `..` or repeated separators.
 */
module Files {
  import opened Wrappers
  import opened Types

  /** What a file holds: text written from a string, or raw bytes. */
  datatype Content = Text(text: string) | Bytes(bytes: seq<byte>)

  predicate IsEmpty(c: Content) {
    match c
    case Text(s) => s == []
    case Bytes(b) => b == []
  }

  datatype IoError = NotFound | IsADirectory | NotADirectory | StorageFull | InvalidData

  /** Errors of `save_onnx_file`: bad base64, or an I/O error. */
  datatype SaveError = Decode | Io(error: IoError)

  /** Index of the last `/` of `p`, or -1 when there is none. */
  function LastSlash(p: string): (k: int)
    ensures -1 <= k < |p|
    ensures k >= 0 ==> p[k] == '/'
    ensures forall j :: k < j < |p| ==> p[j] != '/'
    decreases |p|
  {
    if p == [] then -1
    else if p[|p| - 1] == '/' then |p| - 1
    else LastSlash(p[..|p| - 1])
  }

  /** The directory a path names its file in; "" stands for the working directory. */
  function ParentDir(p: string): string {
    var k := LastSlash(p);
    if k < 0 then "" else p[..k]
  }

  /** A `/`-prefixed file name joined to a directory has that directory as its parent. */
  lemma ParentOfJoin(dir: string, rest: string)
    requires rest != [] && rest[0] == '/' && '/' !in rest[1..]
    ensures ParentDir(dir + rest) == dir
  {
    var p := dir + rest;
    assert p[|dir|] == '/';
    assert forall j :: |dir| < j < |p| ==> p[j] == rest[1..][j - |dir| - 1];
    assert LastSlash(p) == |dir|;
    assert p[..|dir|] == dir;
  }

  /** `p` and every directory named along it, as `fs::create_dir_all` creates them. */
  function DirChain(p: string): set<string> {
    (set i | 0 < i < |p| && p[i] == '/' :: p[..i]) + {p}
  }

  /** `File::create` succeeds at `p` on a filesystem with directories `dirs`:
      the parent directory is there and `p` is not a directory. */
  predicate Creatable(dirs: set<string>, p: string) {
    p !in dirs && (ParentDir(p) == "" || ParentDir(p) in dirs)
  }

  /** `File::create` followed by `write_all` of `c` succeeds at `p`: the file
      can be created and the device has room for `c`. */
  predicate Storable(dirs: set<string>, full: bool, p: string, c: Content) {
    Creatable(dirs, p) && (!full || IsEmpty(c))
  }

  /** The files after `File::create` and `write_all` of `c` at `p`, whether
      they succeed or not: a create error leaves them as they were, a write
      error leaves the file created empty. */
  function AfterStore(dirs: set<string>, full: bool, files: map<string, Content>, p: string, c: Content): map<string, Content> {
    if !Creatable(dirs, p) then files
    else if Storable(dirs, full, p, c) then files[p := c]
    else files[p := Text([])]
  }

  class FileSystem {
    var files: map<string, Content>
    var dirs: set<string>
    /** No space is left on the device: every non-empty write fails. */
    var full: bool

    /** No path is both a file and a directory. */
    ghost predicate Valid()
      reads this
    {
      files.Keys !! dirs
    }

    constructor (files: map<string, Content>, dirs: set<string>, full: bool)
      requires files.Keys !! dirs
      ensures this.files == files && this.dirs == dirs && this.full == full
      ensures Valid()
    {
      this.files := files;
      this.dirs := dirs;
      this.full := full;
    }

    /** `Path::exists`: a file or a directory is there. */
    predicate Exists(p: string)
      reads this
    {
      p in files || p in dirs
    }

    /** `fs::read_to_string`: the file's text, if it is there and is text. */
    function ReadToString(p: string): (r: Result<string, IoError>)
      reads this
      ensures r.Ok? <==> p in files && files[p].Text?
      ensures r.Ok? ==> files[p] == Text(r.value)
    {
      if p !in files then (if p in dirs then Err(IsADirectory) else Err(NotFound))
      else match files[p]
        case Text(s) => Ok(s)
        case Bytes(_) => Err(InvalidData)
    }

    /** `fs::create_dir_all`: creates `p` and its missing ancestors, and fails
        when one of them is an existing file. */
    method CreateDirAll(p: string) returns (r: Result<(), IoError>)
      modifies this
      ensures files == old(files) && full == old(full)
      ensures r.Ok? <==> DirChain(p) * old(files.Keys) == {}
      ensures dirs == if r.Ok? then old(dirs) + DirChain(p) else old(dirs)
      ensures old(Valid()) ==> Valid()
    {
      if DirChain(p) * files.Keys != {} {
        return Err(NotADirectory);
      }
      dirs := dirs + DirChain(p);
      return Ok(());
    }

    /** `File::create`: creates the file, or truncates it when it is there. */
    method Create(p: string) returns (r: Result<(), IoError>)
      modifies this
      ensures dirs == old(dirs) && full == old(full)
      ensures r.Ok? <==> old(Creatable(dirs, p))
      ensures files == if r.Ok? then old(files)[p := Text([])] else old(files)
      ensures old(Valid()) ==> Valid()
    {
      if !Creatable(dirs, p) {
        return Err(if p in dirs then IsADirectory else NotFound);
      }
      files := files[p := Text([])];
      return Ok(());
    }

    /** `write_all` on a file `Create` has just opened. */
    method WriteAll(p: string, c: Content) returns (r: Result<(), IoError>)
      requires p in files && files[p] == Text([])
      modifies this
      ensures dirs == old(dirs) && full == old(full)
      ensures r.Ok? <==> !full || IsEmpty(c)
      ensures files == if r.Ok? then old(files)[p := c] else old(files)
      ensures old(Valid()) ==> Valid()
    {
      if full && !IsEmpty(c) {
        return Err(StorageFull);
      }
      files := files[p := c];
      return Ok(());
    }
  }

  /** `store_json_data`: the file at `path` ends up holding exactly `jsonStr`,
      replacing what it held, and no other file changes.  A create error leaves
      everything as it was; a write error leaves the file truncated, since
      `File::create` has already emptied it. */
  method StoreJsonData(fs: FileSystem, jsonStr: string, path: string) returns (r: Result<(), IoError>)
    modifies fs
    ensures fs.dirs == old(fs.dirs) && fs.full == old(fs.full)
    ensures r.Ok? <==> Storable(old(fs.dirs), old(fs.full), path, Text(jsonStr))
    ensures r.Ok? ==> fs.files == old(fs.files)[path := Text(jsonStr)] && fs.ReadToString(path) == Ok(jsonStr)
    ensures r.Err? && old(Creatable(fs.dirs, path)) ==> fs.files == old(fs.files)[path := Text([])]
    ensures !old(Creatable(fs.dirs, path)) ==> fs.files == old(fs.files)
    ensures fs.files == AfterStore(old(fs.dirs), old(fs.full), old(fs.files), path, Text(jsonStr))
    ensures old(fs.Valid()) ==> fs.Valid()
  {
    r := fs.Create(path);
    if r.Err? {
      return;
    }
    r := fs.WriteAll(path, Text(jsonStr));
  }

  /** `save_onnx_file`: decodes the base64 model and writes it to
      `<base_path>/network.onnx`; a decoding error is returned before any file
      is created. */
  method SaveOnnxFile(fs: FileSystem, base64Decode: string -> Option<seq<byte>>,
                      onnxFileData: string, basePath: string) returns (r: Result<(), SaveError>)
    modifies fs
    ensures fs.dirs == old(fs.dirs) && fs.full == old(fs.full)
    ensures base64Decode(onnxFileData).None? ==> r == Err(Decode) && fs.files == old(fs.files)
    ensures base64Decode(onnxFileData).Some? ==>
      var path := basePath + "/network.onnx";
      var bytes := base64Decode(onnxFileData).value;
      (r.Ok? <==> Storable(old(fs.dirs), old(fs.full), path, Bytes(bytes))) &&
      (r.Ok? ==> fs.files == old(fs.files)[path := Bytes(bytes)]) &&
      (r.Err? && old(Creatable(fs.dirs, path)) ==> fs.files == old(fs.files)[path := Text([])]) &&
      (!old(Creatable(fs.dirs, path)) ==> fs.files == old(fs.files)) &&
      fs.files == AfterStore(old(fs.dirs), old(fs.full), old(fs.files), path, Bytes(bytes))
    ensures old(fs.Valid()) ==> fs.Valid()
  {
    var decoded := base64Decode(onnxFileData);
    if decoded.None? {
      return Err(Decode);
    }
    var path := basePath + "/network.onnx";
    var created := fs.Create(path);
    if created.Err? {
      return Err(Io(created.error));
    }
    var written := fs.WriteAll(path, Bytes(decoded.value));
    if written.Err? {
      return Err(Io(written.error));
    }
    return Ok(());
  }
}
