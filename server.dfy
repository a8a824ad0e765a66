/**
 * The request handlers of src/lib.rs.  Each is a fixed sequence of steps over
 * the filesystem, the process-wide `EZKLCONF` variable and the proving engine:
 * write the inputs, render and write the configs, set `EZKLCONF`, run the
 * engine, read the artifacts back.  The engine is opaque: each run's result
 * and the files it writes are given to the handler as an `EngineOutcome`, and
 * the server keeps a log of what each run was handed.
 */
module Server {
  import opened Wrappers
  import opened Types
  import opened Render
  import opened Files

  // ---------------------------------------------------------------------------
  // Project workspace paths
  // ---------------------------------------------------------------------------

  /** The paths of one project, all derived from its name by concatenation. */
  datatype Workspace = Workspace(
    base: string, input: string, model: string, vk: string, proof: string,
    proveConfig: string, verifierConfig: string, deploymentCode: string, solCode: string)

  function Layout(name: string): Workspace {
    var base := "./data/" + name;
    Workspace(
      base := base,
      input := base + "/input.json",
      model := base + "/network.onnx",
      vk := base + "/" + name + ".vk",
      proof := base + "/" + name + ".pf",
      proveConfig := base + "/prove_" + name + ".json",
      verifierConfig := base + "/genevm_" + name + ".json",
      deploymentCode := base + "/" + name + ".code",
      solCode := name + ".sol")
  }

  /** The files kept inside the project directory. */
  function Artifacts(w: Workspace): seq<string> {
    [w.input, w.model, w.vk, w.proof, w.proveConfig, w.verifierConfig, w.deploymentCode]
  }

  function LastChar(s: string): char
    requires s != []
  {
    s[|s| - 1]
  }

  lemma StartsWithJoin(dir: string, file: string)
    ensures StartsWith(dir + file, dir)
  {
    assert (dir + file)[..|dir|] == dir;
  }

  lemma StartsWithSlash(base: string, rest: string)
    requires rest != [] && rest[0] == '/'
    ensures StartsWith(base + rest, base + "/")
  {
    assert (base + rest)[..|base| + 1] == base + [rest[0]];
  }

  /** Every artifact lies in `./data/<name>/`, whatever the name (it is not
      checked), and the Solidity file does not: it is `<name>.sol` in the
      working directory. */
  lemma ArtifactsInWorkspace(name: string)
    ensures Layout(name).base == "./data/" + name
    ensures forall p :: p in Artifacts(Layout(name)) ==> StartsWith(p, "./data/" + name + "/")
    ensures !StartsWith(Layout(name).solCode, "./data/" + name + "/")
    ensures Layout(name).solCode == name + ".sol"
  {
    var w := Layout(name);
    var dir := w.base + "/";
    StartsWithSlash(w.base, "/input.json");
    StartsWithSlash(w.base, "/network.onnx");
    StartsWithJoin(dir, name + ".vk");
    StartsWithJoin(dir, name + ".pf");
    StartsWithSlash(w.base, "/prove_" + name + ".json");
    StartsWithSlash(w.base, "/genevm_" + name + ".json");
    StartsWithJoin(dir, name + ".code");
    assert w.vk == dir + (name + ".vk");
    assert w.proof == dir + (name + ".pf");
    assert w.proveConfig == w.base + ("/prove_" + name + ".json");
    assert w.verifierConfig == w.base + ("/genevm_" + name + ".json");
    assert w.deploymentCode == dir + (name + ".code");
  }

  /** No two artifacts of a project share a path, so writing one never
      overwrites another. */
  lemma ArtifactsDistinct(name: string)
    ensures var a := Artifacts(Layout(name));
      forall i, j :: 0 <= i < j < |a| ==> a[i] != a[j]
  {
    var w := Layout(name);
    var a := Artifacts(w);
    var n := |w.base| + 1;
    assert LastChar(w.input) == 'n' && LastChar(w.proveConfig) == 'n' && LastChar(w.verifierConfig) == 'n';
    assert LastChar(w.model) == 'x' && LastChar(w.vk) == 'k' && LastChar(w.proof) == 'f';
    assert LastChar(w.deploymentCode) == 'e';
    assert w.input[n] == 'i' && w.proveConfig[n] == 'p' && w.verifierConfig[n] == 'g';
  }

  /** What the Prove run writes lands on none of the files written before it. */
  lemma ProveOutputsApart(name: string)
    ensures var w := Layout(name);
      DeclaredOutputs(ProveCli(w).command) == {w.vk, w.proof} &&
      w.vk !in {w.input, w.model, w.proveConfig, w.verifierConfig} &&
      w.proof !in {w.input, w.model, w.proveConfig, w.verifierConfig} &&
      w.proveConfig !in {w.input, w.model} && w.verifierConfig !in {w.input, w.model, w.proveConfig}
  {
    var w := Layout(name);
    var a := Artifacts(w);
    ArtifactsDistinct(name);
    assert a[0] != a[2] && a[0] != a[3] && a[1] != a[2] && a[1] != a[3];
    assert a[2] != a[4] && a[3] != a[4] && a[2] != a[5] && a[3] != a[5];
    assert a[0] != a[4] && a[1] != a[4] && a[0] != a[5] && a[1] != a[5] && a[4] != a[5];
  }

  /** The verifier run writes the deployment code and the Solidity file. */
  lemma VerifierOutputs(w: Workspace)
    ensures DeclaredOutputs(VerifierCli(w).command) == {w.deploymentCode, w.solCode}
  {
  }

  /** The configs are written next to the input only when the name has no `/`:
      otherwise their parent is a directory nobody creates. */
  lemma ConfigParentIsWorkspace(name: string)
    ensures var w := Layout(name);
      ParentDir(w.input) == w.base && ParentDir(w.model) == w.base &&
      (ParentDir(w.proveConfig) == w.base <==> '/' !in name) &&
      (ParentDir(w.verifierConfig) == w.base <==> '/' !in name)
  {
    var w := Layout(name);
    FileParent(w.base, "/input.json");
    FileParent(w.base, "/network.onnx");
    ConfigParent(w.base, "/prove_", name);
    ConfigParent(w.base, "/genevm_", name);
  }

  lemma FileParent(base: string, file: string)
    requires file == "/input.json" || file == "/network.onnx"
    ensures ParentDir(base + file) == base
  {
    assert file[0] == '/';
    assert forall k :: 1 <= k < |file| ==> file[k] != '/';
    assert '/' !in file[1..] by {
      forall k | 0 <= k < |file| - 1 ensures file[1..][k] != '/' { assert file[1..][k] == file[k + 1]; }
    }
    ParentOfJoin(base, file);
  }

  lemma ConfigParent(base: string, prefix: string, name: string)
    requires prefix != [] && prefix[0] == '/' && '/' !in prefix[1..]
    ensures ParentDir(base + prefix + name + ".json") == base <==> '/' !in name
  {
    var rest := prefix + name + ".json";
    var p := base + prefix + name + ".json";
    assert p == base + rest;
    if '/' !in name {
      forall j | 1 <= j < |rest| ensures rest[j] != '/' {
        if j < |prefix| { assert rest[j] == prefix[1..][j - 1]; }
        else if j < |prefix| + |name| { assert rest[j] == name[j - |prefix|]; }
        else { assert rest[j] == ".json"[j - |prefix| - |name|]; }
      }
      assert '/' !in rest[1..] by {
        forall k | 0 <= k < |rest| - 1 ensures rest[1..][k] != '/' { assert rest[1..][k] == rest[k + 1]; }
      }
      ParentOfJoin(base, rest);
    } else {
      var j :| 0 <= j < |name| && name[j] == '/';
      var at := |base| + |prefix| + j;
      assert p[at] == name[j];
      assert LastSlash(p) >= at;
      assert |ParentDir(p)| > |base|;
    }
  }

  // ---------------------------------------------------------------------------
  // Engine commands
  // ---------------------------------------------------------------------------

  /** The run parameters of the per-project endpoints. */
  const ProjectRunArgs := RunArgs(
    bits := 16,
    checkMode := UNSAFE,
    logrows := 17,
    packBase := 1,
    publicInputs := false,
    publicOutputs := true,
    publicParams := false,
    scale := 7,
    tolerance := 0,
    allocatedConstraints := None)

  const ParamsPath := "kzg.params"

  function ProveCli(w: Workspace): Cli {
    Cli(Prove(w.input, w.model, w.vk, w.proof, ParamsPath, EVM, Single), ProjectRunArgs)
  }

  function VerifierCli(w: Workspace): Cli {
    Cli(CreateEVMVerifier(w.input, w.model, w.vk, Some(w.deploymentCode), ParamsPath, Some(w.solCode)),
        ProjectRunArgs)
  }

  lemma PlainConcat(a: string, b: string)
    ensures Plain(a + b) <==> Plain(a) && Plain(b)
  {
    if Plain(a) && Plain(b) {
      forall i | 0 <= i < |a + b| ensures PlainChar((a + b)[i]) {
        if i < |a| { assert (a + b)[i] == a[i]; } else { assert (a + b)[i] == b[i - |a|]; }
      }
    }
    if Plain(a + b) {
      forall i | 0 <= i < |a| ensures PlainChar(a[i]) { assert (a + b)[i] == a[i]; }
      forall i | 0 <= i < |b| ensures PlainChar(b[i]) { assert (a + b)[i + |a|] == b[i]; }
    }
  }

  lemma PlainLiterals()
    ensures Plain("./data/") && Plain("/input.json") && Plain("/network.onnx") && Plain("/")
    ensures Plain(".vk") && Plain(".pf") && Plain(".code") && Plain(".sol")
    ensures Plain("/prove_") && Plain("/genevm_") && Plain(".json")
  {
  }

  lemma PlainPaths(name: string)
    ensures var w := Layout(name);
      (Plain(w.input) <==> Plain(name)) && (Plain(w.model) <==> Plain(name)) &&
      (Plain(w.vk) <==> Plain(name)) && (Plain(w.proof) <==> Plain(name)) &&
      (Plain(w.deploymentCode) <==> Plain(name)) && (Plain(w.solCode) <==> Plain(name)) &&
      (Plain(w.proveConfig) <==> Plain(name)) && (Plain(w.verifierConfig) <==> Plain(name))
  {
    var w := Layout(name);
    PlainLiterals();
    PlainConcat("./data/", name);
    PlainConcat(w.base, "/input.json");
    PlainConcat(w.base, "/network.onnx");
    PlainConcat(w.base, "/");
    PlainConcat(w.base + "/", name);
    PlainConcat(w.base + "/" + name, ".vk");
    PlainConcat(w.base + "/" + name, ".pf");
    PlainConcat(w.base + "/" + name, ".code");
    PlainConcat(name, ".sol");
    PlainConcat(w.base, "/prove_");
    PlainConcat(w.base + "/prove_", name);
    PlainConcat(w.base + "/prove_" + name, ".json");
    PlainConcat(w.base, "/genevm_");
    PlainConcat(w.base + "/genevm_", name);
    PlainConcat(w.base + "/genevm_" + name, ".json");
  }

  /** The Prove config written for a project names the same files and the same
      run parameters as the command the handler passes to the engine in memory;
      the paths read back intact exactly when the project name needs no escaping. */
  lemma ProveConfigMatchesCli(name: string)
    ensures var w := Layout(name);
      var c := ProveCli(w).command;
      var doc := GenerateEvmConfigJson(w.input, w.model, w.vk, w.proof);
      (Read(ProveTemplate, doc) == Some([c.data, c.model, c.vkPath, c.proofPath]) <==> Plain(name)) &&
      EndsWith(doc, RenderArgs(ProveCli(w).args)) &&
      EndsWith(doc, ProveFixed + ArgsBlock)
  {
    var w := Layout(name);
    ProveConfigShape(w.input, w.model, w.vk, w.proof);
    PlainPaths(name);
    ArgsBlockDescribes(ProjectRunArgs);
  }

  /** Likewise for the verifier config and the CreateEVMVerifier command. */
  lemma VerifierConfigMatchesCli(name: string)
    ensures var w := Layout(name);
      var c := VerifierCli(w).command;
      var doc := GenerateGenevmConfigJson(w.input, w.model, w.vk, w.deploymentCode, w.solCode);
      var slots := [c.data, c.model, c.vkPath, c.deploymentCodePath.value, c.solCodePath.value];
      (Read(VerifierTemplate, doc) == Some(slots) <==> Plain(name)) &&
      EndsWith(doc, RenderArgs(VerifierCli(w).args)) &&
      c.vkPath == ProveCli(w).command.vkPath
  {
    var w := Layout(name);
    VerifierConfigShape(w.input, w.model, w.vk, w.deploymentCode, w.solCode);
    PlainPaths(name);
    ArgsBlockDescribes(ProjectRunArgs);
  }

  /** The fixed-project endpoints all work on the `baby_gaia_2d` directory. */
  const GaiaInput := "./data/baby_gaia_2d/input.json"
  const GaiaModel := "./data/baby_gaia_2d/network.onnx"
  const GaiaOutput := "./data/baby_gaia_2d/output.json"
  const ForwardConf := "./data/forward.json"
  const MockConf := "./data/baby_gaia_2d/mock_baby_gaia.json"
  const SubmitProofConf := "./data/baby_gaia_2d/prove_baby_gaia.json"

  function ForwardCli(): Cli {
    Cli(Forward(GaiaInput, GaiaModel, GaiaOutput), ServerArgs)
  }

  function MockCli(): Cli {
    Cli(Mock(GaiaInput, GaiaModel),
        RunArgs(16, UNSAFE, 19, 1, false, true, false, 7, 0, None))
  }

  function SubmitProofCli(): Cli {
    Cli(Prove(GaiaInput, GaiaModel, "./data/baby_gaia_2d/baby_gaia_2d.vk", "./data/baby_gaia_2d/baby_gaia_2d.pf",
              ParamsPath, EVM, Single),
        RunArgs(16, UNSAFE, 19, 1, false, true, false, 7, 0, None))
  }

  /** The fixed-project endpoints run with `SERVER_ARGS` (logrows 19), which
      is not what the `args` block of the rendered configs (logrows 17) says. */
  lemma FixedProjectArgs()
    ensures MockCli().args == ServerArgs && SubmitProofCli().args == ServerArgs
    ensures RenderArgs(ServerArgs) != ArgsBlock
    ensures RenderArgs(ProjectRunArgs) == ArgsBlock
  {
    ArgsBlockDescribes(ServerArgs);
    ArgsBlockDescribes(ProjectRunArgs);
  }

  // ---------------------------------------------------------------------------
  // Handlers
  // ---------------------------------------------------------------------------

  /** One engine run as the opaque engine performs it: its result (the error's
      debug text on failure) and the files it writes. */
  datatype EngineOutcome = EngineOutcome(result: Result<(), string>, writes: map<string, Content>)

  /** What the engine was handed on one run: the command, the value of
      `EZKLCONF` and the files as they stood. */
  datatype Invocation = Invocation(cli: Cli, ezklconf: Option<string>, files: map<string, Content>)

  /** The library calls the handlers make: `serde_json` and `base64`.
      `parseValue` parses text into a `serde_json::Value` and gives back that
      value's `to_string`. */
  datatype Codecs = Codecs(
    toJson: EchoData -> string,
    parseValue: string -> Option<string>,
    parseParams: string -> Option<JsonRpcParams>,
    parseProof: string -> Option<ProofData>,
    base64Decode: string -> Option<seq<byte>>)

  /** The step whose `unwrap`, `expect` or `panic!` ended a request. */
  datatype Step = CreateDir | SaveOnnx | StoreInput | StoreConfig | EngineRun | ReadOutput | ParseOutput | ReadSol | ReadProof

  datatype Reply<T> = Responded(body: T) | Panicked(at: Step)

  /** The body of `/prove`: the debug text of the engine result and the proof read back. */
  datatype ProveResponse = ProveResponse(status: string, proof: ProofData)

  /** `format!("{:?}", res)` of the engine's `Result<(), _>`. */
  function DebugText(res: Result<(), string>): (s: string)
    ensures res.Ok? <==> s == "Ok(())"
    ensures res.Err? ==> StartsWith(s, "Err(")
  {
    match res
    case Ok(_) => "Ok(())"
    case Err(e) =>
      var s := "Err(" + e + ")";
      assert s[0] == 'E';
      s
  }

  /** The files an engine run writes: only those its command declares as
      outputs, and none where a directory is. */
  function EngineWrites(cli: Cli, outcome: EngineOutcome, dirs: set<string>): map<string, Content> {
    map p | p in outcome.writes && p in DeclaredOutputs(cli.command) && p !in dirs :: outcome.writes[p]
  }

  /** `retrieve_json_data(path).unwrap()` followed by parsing its text as
      `JsonRpcParams` and unwrapping: the reply of the fixed-project endpoints. */
  function ReadParams(fs: FileSystem, codecs: Codecs, path: string): (r: Reply<JsonRpcParams>)
    reads fs
    ensures r.Responded? <==>
      fs.ReadToString(path).Ok? && codecs.parseValue(fs.ReadToString(path).value).Some? &&
      codecs.parseParams(codecs.parseValue(fs.ReadToString(path).value).value).Some?
    ensures r.Responded? ==> codecs.parseParams(codecs.parseValue(fs.files[path].text).value) == Some(r.body)
    ensures r.Panicked? ==> (r.at == ReadOutput <==> !fs.ReadToString(path).Ok? || codecs.parseValue(fs.files[path].text).None?)
    ensures r.Panicked? ==> r.at == ReadOutput || r.at == ParseOutput
  {
    match fs.ReadToString(path)
    case Err(_) => Panicked(ReadOutput)
    case Ok(text) =>
      match codecs.parseValue(text)
      case None => Panicked(ReadOutput)
      case Some(value) =>
        match codecs.parseParams(value)
        case None => Panicked(ParseOutput)
        case Some(params) => Responded(params)
  }

  /** `retrieve_proof_data(path)`: the proof file read and parsed. */
  function ReadProofData(fs: FileSystem, codecs: Codecs, path: string): (r: Option<ProofData>)
    reads fs
    ensures r.Some? <==> fs.ReadToString(path).Ok? && codecs.parseProof(fs.ReadToString(path).value).Some?
    ensures r.Some? ==> path in fs.files && codecs.parseProof(fs.files[path].text) == r
  {
    match fs.ReadToString(path)
    case Err(_) => None
    case Ok(text) => codecs.parseProof(text)
  }

  /** The run was handed `cli` with `EZKLCONF` naming `conf`, whose file held `doc`. */
  ghost predicate HandedConfig(run: Invocation, cli: Cli, conf: string, doc: string) {
    run.cli == cli && run.ezklconf == Some(conf) && conf in run.files && run.files[conf] == Text(doc)
  }

  /** The project's model and `input.json` hold what the request carried. */
  ghost predicate HasInputs(files: map<string, Content>, w: Workspace, data: CreateEvmContractData, codecs: Codecs) {
    codecs.base64Decode(data.onnxFileData).Some? &&
    w.model in files && files[w.model] == Bytes(codecs.base64Decode(data.onnxFileData).value) &&
    w.input in files && files[w.input] == Text(codecs.toJson(data.echoData))
  }

  /** Files other than `written` are as they were. */
  ghost predicate Untouched(before: map<string, Content>, after: map<string, Content>, written: set<string>) {
    forall p :: p in before && p !in written ==> p in after && after[p] == before[p]
  }

  lemma UntouchedStep(a: map<string, Content>, b: map<string, Content>, c: map<string, Content>,
                      first: set<string>, second: set<string>)
    requires Untouched(a, b, first) && Untouched(b, c, second)
    ensures Untouched(a, c, first + second)
  {
  }

  /** Both configs of `generate_evm_contract` can be written. */
  predicate ConfigsStorable(dirs: set<string>, full: bool, w: Workspace, proveConfig: string, genevmConfig: string) {
    Storable(dirs, full, w.proveConfig, Text(proveConfig)) && Storable(dirs, full, w.verifierConfig, Text(genevmConfig))
  }

  /** `fs::create_dir_all` is called, because nothing is at the project's
      path, and fails, because a file lies on the directory chain. */
  predicate CreateDirFails(dirs: set<string>, files: set<string>, base: string) {
    base !in files && base !in dirs && DirChain(base) * files != {}
  }

  /** The step at which preparing a project fails, if any: `dirFails` says
      whether creating its directory failed, and `dirs` are the directories
      after that step. */
  function PrepareFailure(dirs: set<string>, full: bool, dirFails: bool, w: Workspace,
                          data: CreateEvmContractData, codecs: Codecs): Option<Step> {
    var bytes := codecs.base64Decode(data.onnxFileData);
    if dirFails then Some(CreateDir)
    else if bytes.None? || !Storable(dirs, full, w.model, Bytes(bytes.value)) then Some(SaveOnnx)
    else if !Storable(dirs, full, w.input, Text(codecs.toJson(data.echoData))) then Some(StoreInput)
    else None
  }

  /** The files after `generate_evm_contract` writes its two configs: the
      second write is attempted only when the first succeeded. */
  function ConfigsStored(dirs: set<string>, full: bool, files: map<string, Content>, w: Workspace,
                         proveConfig: string, genevmConfig: string): map<string, Content> {
    var first := AfterStore(dirs, full, files, w.proveConfig, Text(proveConfig));
    if Storable(dirs, full, w.proveConfig, Text(proveConfig))
    then AfterStore(dirs, full, first, w.verifierConfig, Text(genevmConfig))
    else first
  }

  /** The files after preparing a project, whether it succeeds or not: the
      model is written only once the directory exists and the upload decodes,
      and `input.json` only once the model was written. */
  function PreparedFiles(dirs: set<string>, full: bool, dirFails: bool, files: map<string, Content>,
                         w: Workspace, data: CreateEvmContractData, codecs: Codecs): map<string, Content> {
    var bytes := codecs.base64Decode(data.onnxFileData);
    if dirFails || bytes.None? then files
    else
      var saved := AfterStore(dirs, full, files, w.model, Bytes(bytes.value));
      if Storable(dirs, full, w.model, Bytes(bytes.value))
      then AfterStore(dirs, full, saved, w.input, Text(codecs.toJson(data.echoData)))
      else saved
  }

  /** Writes both configs of `generate_evm_contract`; `ok` is false as soon as one write fails. */
  method StoreConfigs(fs: FileSystem, w: Workspace, proveConfig: string, genevmConfig: string) returns (ok: bool)
    modifies fs
    ensures fs.dirs == old(fs.dirs) && fs.full == old(fs.full)
    ensures ok <==> ConfigsStorable(old(fs.dirs), old(fs.full), w, proveConfig, genevmConfig)
    ensures ok ==> fs.files == old(fs.files)[w.proveConfig := Text(proveConfig)][w.verifierConfig := Text(genevmConfig)]
    ensures !Creatable(old(fs.dirs), w.proveConfig) ==> fs.files == old(fs.files)
    ensures Creatable(old(fs.dirs), w.proveConfig) && !Storable(old(fs.dirs), old(fs.full), w.proveConfig, Text(proveConfig)) ==>
      fs.files == old(fs.files)[w.proveConfig := Text([])]
    ensures Storable(old(fs.dirs), old(fs.full), w.proveConfig, Text(proveConfig)) && !Creatable(old(fs.dirs), w.verifierConfig) ==>
      fs.files == old(fs.files)[w.proveConfig := Text(proveConfig)]
    ensures Storable(old(fs.dirs), old(fs.full), w.proveConfig, Text(proveConfig)) && Creatable(old(fs.dirs), w.verifierConfig) &&
            !Storable(old(fs.dirs), old(fs.full), w.verifierConfig, Text(genevmConfig)) ==>
      fs.files == old(fs.files)[w.proveConfig := Text(proveConfig)][w.verifierConfig := Text([])]
    ensures Untouched(old(fs.files), fs.files, {w.proveConfig, w.verifierConfig})
    ensures old(fs.Valid()) ==> fs.Valid()
  {
    var stored := StoreJsonData(fs, proveConfig, w.proveConfig);
    if stored.Err? {
      return false;
    }
    stored := StoreJsonData(fs, genevmConfig, w.verifierConfig);
    return stored.Ok?;
  }

  class Server {
    const fs: FileSystem
    /** The process-wide `EZKLCONF` variable. */
    var ezklconf: Option<string>
    /** Every engine run so far, oldest first. */
    ghost var runs: seq<Invocation>

    constructor (fs: FileSystem, ezklconf: Option<string>)
      ensures this.fs == fs && this.ezklconf == ezklconf && runs == []
    {
      this.fs := fs;
      this.ezklconf := ezklconf;
      runs := [];
    }

    /** `run(cli).await`: the engine reads `EZKLCONF` and the files, writes its
        outputs and reports a result. */
    method Run(cli: Cli, outcome: EngineOutcome) returns (res: Result<(), string>)
      modifies this, fs
      ensures ezklconf == old(ezklconf) && fs.dirs == old(fs.dirs) && fs.full == old(fs.full)
      ensures runs == old(runs) + [Invocation(cli, old(ezklconf), old(fs.files))]
      ensures fs.files == old(fs.files) + EngineWrites(cli, outcome, fs.dirs)
      ensures Untouched(old(fs.files), fs.files, DeclaredOutputs(cli.command))
      ensures res == outcome.result
      ensures old(fs.Valid()) ==> fs.Valid()
    {
      runs := runs + [Invocation(cli, ezklconf, fs.files)];
      fs.files := fs.files + EngineWrites(cli, outcome, fs.dirs);
      res := outcome.result;
    }

    /** The steps `generate_evm_contract` and `prove` share: create the project
        directory only when nothing is at its path, then write the model and
        `input.json`. */
    method PrepareProject(data: CreateEvmContractData, codecs: Codecs) returns (r: Result<Workspace, Step>)
      modifies fs
      ensures old(fs.Valid()) ==> fs.Valid()
      ensures var w := Layout(data.projectName);
        var bytes := codecs.base64Decode(data.onnxFileData);
        (r.Ok? ==> r.value == w) &&
        fs.full == old(fs.full) &&
        var dirFails := CreateDirFails(old(fs.dirs), old(fs.files.Keys), w.base);
        fs.dirs == (if old(fs.Exists(w.base)) || dirFails then old(fs.dirs) else old(fs.dirs) + DirChain(w.base)) &&
        (if r.Ok? then None else Some(r.error)) == PrepareFailure(fs.dirs, fs.full, dirFails, w, data, codecs) &&
        fs.files == PreparedFiles(fs.dirs, fs.full, dirFails, old(fs.files), w, data, codecs) &&
        (bytes.None? ==> r.Err? && fs.files == old(fs.files)) &&
        (r.Ok? ==> fs.files == old(fs.files)[w.model := Bytes(bytes.value)][w.input := Text(codecs.toJson(data.echoData))]) &&
        Untouched(old(fs.files), fs.files, {w.model, w.input})
    {
      var w := Layout(data.projectName);
      if !fs.Exists(w.base) {
        var made := fs.CreateDirAll(w.base);
        if made.Err? {
          return Err(CreateDir);
        }
      }
      var saved := SaveOnnxFile(fs, codecs.base64Decode, data.onnxFileData, w.base);
      if saved.Err? {
        return Err(SaveOnnx);
      }
      var stored := StoreJsonData(fs, codecs.toJson(data.echoData), w.input);
      if stored.Err? {
        return Err(StoreInput);
      }
      return Ok(w);
    }

    /** `generate_evm_contract`: prepare the project, write both configs, run
        Prove and then CreateEVMVerifier, each under `EZKLCONF` naming its own
        config, and reply with `<name>.sol`.  The Prove result is never looked
        at: the verifier run happens whenever the configs were written. */
    method GenerateEvmContract(data: CreateEvmContractData, codecs: Codecs,
                               proveRun: EngineOutcome, verifierRun: EngineOutcome)
      returns (reply: Reply<string>)
      modifies this, fs
      ensures old(fs.Valid()) ==> fs.Valid()
      ensures var n := |old(runs)|;
        (runs == old(runs) || (|runs| == n + 2 && runs[..n] == old(runs))) &&
        (|runs| == n + 2 <==> reply.Responded? || reply == Panicked(ReadSol))
      ensures reply.Panicked? ==> reply.at in {CreateDir, SaveOnnx, StoreInput, StoreConfig, ReadSol}
      ensures var w := Layout(data.projectName);
        var failure := PrepareFailure(fs.dirs, fs.full, old(CreateDirFails(fs.dirs, fs.files.Keys, w.base)), w, data, codecs);
        var prepared := PreparedFiles(fs.dirs, fs.full, old(CreateDirFails(fs.dirs, fs.files.Keys, w.base)),
                                      old(fs.files), w, data, codecs);
        var proveDoc := GenerateEvmConfigJson(w.input, w.model, w.vk, w.proof);
        var genevmDoc := GenerateGenevmConfigJson(w.input, w.model, w.vk, w.deploymentCode, w.solCode);
        (failure.Some? ==> reply == Panicked(failure.value) && fs.files == prepared) &&
        (failure.None? ==>
          (reply.Panicked? ==> reply.at in {StoreConfig, ReadSol}) &&
          (reply == Panicked(StoreConfig) <==> !ConfigsStorable(fs.dirs, fs.full, w, proveDoc, genevmDoc)) &&
          (reply == Panicked(StoreConfig) ==> fs.files == ConfigsStored(fs.dirs, fs.full, prepared, w, proveDoc, genevmDoc)))
      ensures runs == old(runs) ==> ezklconf == old(ezklconf)
      ensures var w := Layout(data.projectName); var n := |old(runs)|;
        |runs| == n + 2 ==>
          HandedConfig(runs[n], ProveCli(w), w.proveConfig, GenerateEvmConfigJson(w.input, w.model, w.vk, w.proof)) &&
          HasInputs(runs[n].files, w, data, codecs) &&
          HandedConfig(runs[n + 1], VerifierCli(w), w.verifierConfig,
                       GenerateGenevmConfigJson(w.input, w.model, w.vk, w.deploymentCode, w.solCode)) &&
          codecs.base64Decode(data.onnxFileData).Some? &&
          runs[n].files == old(fs.files)[w.model := Bytes(codecs.base64Decode(data.onnxFileData).value)]
                                        [w.input := Text(codecs.toJson(data.echoData))]
                                        [w.proveConfig := Text(GenerateEvmConfigJson(w.input, w.model, w.vk, w.proof))]
                                        [w.verifierConfig := Text(GenerateGenevmConfigJson(w.input, w.model, w.vk,
                                                                                           w.deploymentCode, w.solCode))] &&
          runs[n + 1].files == runs[n].files + EngineWrites(ProveCli(w), proveRun, fs.dirs) &&
          fs.files == runs[n + 1].files + EngineWrites(VerifierCli(w), verifierRun, fs.dirs) &&
          ezklconf == Some(w.verifierConfig) &&
          (reply.Responded? <==> fs.ReadToString(w.solCode).Ok?)
      ensures var w := Layout(data.projectName);
        reply.Responded? ==> fs.ReadToString(w.solCode) == Ok(reply.body)
      ensures var w := Layout(data.projectName);
        fs.full == old(fs.full) &&
        fs.dirs == (if old(fs.Exists(w.base)) || old(CreateDirFails(fs.dirs, fs.files.Keys, w.base))
                    then old(fs.dirs) else old(fs.dirs) + DirChain(w.base))
      ensures var w := Layout(data.projectName);
        Untouched(old(fs.files), fs.files,
                  {w.model, w.input} + {w.proveConfig, w.verifierConfig, w.vk, w.proof, w.deploymentCode, w.solCode})
    {
      ProveOutputsApart(data.projectName);
      var prepared := PrepareProject(data, codecs);
      if prepared.Err? {
        return Panicked(prepared.error);
      }
      var w := prepared.value;
      var proveConfig := GenerateEvmConfigJson(w.input, w.model, w.vk, w.proof);
      var genevmConfig := GenerateGenevmConfigJson(w.input, w.model, w.vk, w.deploymentCode, w.solCode);
      ghost var afterPrepare := fs.files;
      reply := GenerateWithConfigs(w, proveConfig, genevmConfig, data, codecs, proveRun, verifierRun);
      UntouchedStep(old(fs.files), afterPrepare, fs.files, {w.model, w.input},
                    {w.proveConfig, w.verifierConfig, w.vk, w.proof, w.deploymentCode, w.solCode});
    }

    /** The steps of `generate_evm_contract` once the project's directory, model
        and input are in place: `proveConfig` and `genevmConfig` are the
        rendered configs. */
    method GenerateWithConfigs(w: Workspace, proveConfig: string, genevmConfig: string,
                               data: CreateEvmContractData, codecs: Codecs,
                               proveRun: EngineOutcome, verifierRun: EngineOutcome)
      returns (reply: Reply<string>)
      requires w.vk !in {w.input, w.model, w.proveConfig, w.verifierConfig}
      requires w.proof !in {w.input, w.model, w.proveConfig, w.verifierConfig}
      requires w.proveConfig !in {w.input, w.model} && w.verifierConfig !in {w.input, w.model, w.proveConfig}
      requires HasInputs(fs.files, w, data, codecs)
      modifies this, fs
      ensures old(fs.Valid()) ==> fs.Valid()
      ensures var n := |old(runs)|;
        (runs == old(runs) || (|runs| == n + 2 && runs[..n] == old(runs))) &&
        (|runs| == n + 2 <==> reply.Responded? || reply == Panicked(ReadSol))
      ensures reply.Panicked? ==> reply.at in {StoreConfig, ReadSol}
      ensures reply == Panicked(StoreConfig) <==> !ConfigsStorable(old(fs.dirs), old(fs.full), w, proveConfig, genevmConfig)
      ensures reply == Panicked(StoreConfig) ==>
        fs.files == ConfigsStored(old(fs.dirs), old(fs.full), old(fs.files), w, proveConfig, genevmConfig)
      ensures runs == old(runs) ==> ezklconf == old(ezklconf)
      ensures var n := |old(runs)|;
        |runs| == n + 2 ==>
          HandedConfig(runs[n], ProveCli(w), w.proveConfig, proveConfig) &&
          HasInputs(runs[n].files, w, data, codecs) &&
          HandedConfig(runs[n + 1], VerifierCli(w), w.verifierConfig, genevmConfig) &&
          runs[n].files == old(fs.files)[w.proveConfig := Text(proveConfig)][w.verifierConfig := Text(genevmConfig)] &&
          runs[n + 1].files == runs[n].files + EngineWrites(ProveCli(w), proveRun, fs.dirs) &&
          fs.files == runs[n + 1].files + EngineWrites(VerifierCli(w), verifierRun, fs.dirs) &&
          ezklconf == Some(w.verifierConfig) &&
          (reply.Responded? <==> fs.ReadToString(w.solCode).Ok?)
      ensures reply.Responded? ==> fs.ReadToString(w.solCode) == Ok(reply.body)
      ensures fs.full == old(fs.full) && fs.dirs == old(fs.dirs)
      ensures Untouched(old(fs.files), fs.files,
                        {w.proveConfig, w.verifierConfig, w.vk, w.proof, w.deploymentCode, w.solCode})
    {
      var stored := StoreConfigs(fs, w, proveConfig, genevmConfig);
      if !stored {
        return Panicked(StoreConfig);
      }
      ghost var configured := fs.files;
      reply := RunProveThenVerifier(w, proveConfig, genevmConfig, data, codecs, proveRun, verifierRun);
      UntouchedStep(old(fs.files), configured, fs.files, {w.proveConfig, w.verifierConfig},
                    {w.vk, w.proof, w.deploymentCode, w.solCode});
    }

    /** The two runs of `generate_evm_contract` once both configs are written,
        and the `.sol` file read back.  The Prove result is not looked at. */
    method RunProveThenVerifier(w: Workspace, proveConfig: string, genevmConfig: string,
                                data: CreateEvmContractData, codecs: Codecs,
                                proveRun: EngineOutcome, verifierRun: EngineOutcome)
      returns (reply: Reply<string>)
      requires w.vk !in {w.input, w.model, w.proveConfig, w.verifierConfig}
      requires w.proof !in {w.input, w.model, w.proveConfig, w.verifierConfig}
      requires HasInputs(fs.files, w, data, codecs)
      requires w.proveConfig in fs.files && fs.files[w.proveConfig] == Text(proveConfig)
      requires w.verifierConfig in fs.files && fs.files[w.verifierConfig] == Text(genevmConfig)
      modifies this, fs
      ensures old(fs.Valid()) ==> fs.Valid()
      ensures var n := |old(runs)|;
        |runs| == n + 2 && runs[..n] == old(runs) &&
        HandedConfig(runs[n], ProveCli(w), w.proveConfig, proveConfig) &&
        HasInputs(runs[n].files, w, data, codecs) &&
        HandedConfig(runs[n + 1], VerifierCli(w), w.verifierConfig, genevmConfig) &&
        runs[n].files == old(fs.files) &&
        runs[n + 1].files == runs[n].files + EngineWrites(ProveCli(w), proveRun, fs.dirs) &&
        fs.files == runs[n + 1].files + EngineWrites(VerifierCli(w), verifierRun, fs.dirs)
      ensures ezklconf == Some(w.verifierConfig)
      ensures reply.Responded? || reply == Panicked(ReadSol)
      ensures reply.Responded? <==> fs.ReadToString(w.solCode).Ok?
      ensures reply.Responded? ==> fs.ReadToString(w.solCode) == Ok(reply.body)
      ensures fs.full == old(fs.full) && fs.dirs == old(fs.dirs)
      ensures Untouched(old(fs.files), fs.files, {w.vk, w.proof, w.deploymentCode, w.solCode})
    {
      ezklconf := Some(w.proveConfig);
      var proveResult := Run(ProveCli(w), proveRun);
      ghost var proved := fs.files;
      assert w.verifierConfig in proved && proved[w.verifierConfig] == Text(genevmConfig);
      ezklconf := Some(w.verifierConfig);
      var verifierResult := Run(VerifierCli(w), verifierRun);
      VerifierOutputs(w);
      UntouchedStep(old(fs.files), proved, fs.files, {w.vk, w.proof}, {w.deploymentCode, w.solCode});
      var sol := fs.ReadToString(w.solCode);
      if sol.Err? {
        return Panicked(ReadSol);
      }
      return Responded(sol.value);
    }

    /** `prove`: prepare the project, write the Prove config, run Prove under
        `EZKLCONF` naming it, and reply with the debug text of the run's result
        and the proof read back from `<name>.pf`, whatever that result was. */
    method Prove(data: CreateEvmContractData, codecs: Codecs, proveRun: EngineOutcome)
      returns (reply: Reply<ProveResponse>)
      modifies this, fs
      ensures old(fs.Valid()) ==> fs.Valid()
      ensures var n := |old(runs)|;
        (runs == old(runs) || (|runs| == n + 1 && runs[..n] == old(runs))) &&
        (|runs| == n + 1 <==> reply.Responded? || reply == Panicked(ReadProof))
      ensures reply.Panicked? ==> reply.at in {CreateDir, SaveOnnx, StoreInput, StoreConfig, ReadProof}
      ensures var w := Layout(data.projectName);
        var failure := PrepareFailure(fs.dirs, fs.full, old(CreateDirFails(fs.dirs, fs.files.Keys, w.base)), w, data, codecs);
        var prepared := PreparedFiles(fs.dirs, fs.full, old(CreateDirFails(fs.dirs, fs.files.Keys, w.base)),
                                      old(fs.files), w, data, codecs);
        var doc := GenerateEvmConfigJson(w.input, w.model, w.vk, w.proof);
        (failure.Some? ==> reply == Panicked(failure.value) && fs.files == prepared) &&
        (failure.None? ==>
          (reply.Panicked? ==> reply.at in {StoreConfig, ReadProof}) &&
          (reply == Panicked(StoreConfig) <==> !Storable(fs.dirs, fs.full, w.proveConfig, Text(doc))) &&
          (reply == Panicked(StoreConfig) ==> fs.files == AfterStore(fs.dirs, fs.full, prepared, w.proveConfig, Text(doc))))
      ensures runs == old(runs) ==> ezklconf == old(ezklconf)
      ensures var w := Layout(data.projectName); var n := |old(runs)|;
        |runs| == n + 1 ==>
          HandedConfig(runs[n], ProveCli(w), w.proveConfig, GenerateEvmConfigJson(w.input, w.model, w.vk, w.proof)) &&
          HasInputs(runs[n].files, w, data, codecs) &&
          codecs.base64Decode(data.onnxFileData).Some? &&
          runs[n].files == old(fs.files)[w.model := Bytes(codecs.base64Decode(data.onnxFileData).value)]
                                        [w.input := Text(codecs.toJson(data.echoData))]
                                        [w.proveConfig := Text(GenerateEvmConfigJson(w.input, w.model, w.vk, w.proof))] &&
          fs.files == runs[n].files + EngineWrites(ProveCli(w), proveRun, fs.dirs) &&
          ezklconf == Some(w.proveConfig) &&
          (reply.Responded? <==> ReadProofData(fs, codecs, w.proof).Some?)
      ensures var w := Layout(data.projectName);
        reply.Responded? ==>
          reply.body.status == DebugText(proveRun.result) &&
          ReadProofData(fs, codecs, w.proof) == Some(reply.body.proof)
      ensures var w := Layout(data.projectName);
        fs.full == old(fs.full) &&
        fs.dirs == (if old(fs.Exists(w.base)) || old(CreateDirFails(fs.dirs, fs.files.Keys, w.base))
                    then old(fs.dirs) else old(fs.dirs) + DirChain(w.base))
      ensures var w := Layout(data.projectName);
        Untouched(old(fs.files), fs.files, {w.model, w.input, w.proveConfig, w.vk, w.proof})
    {
      ProveOutputsApart(data.projectName);
      var prepared := PrepareProject(data, codecs);
      if prepared.Err? {
        return Panicked(prepared.error);
      }
      var w := prepared.value;
      reply := ProveWithConfig(w, GenerateEvmConfigJson(w.input, w.model, w.vk, w.proof), data, codecs, proveRun);
    }

    /** The steps of `prove` once the project's directory, model and input are
        in place: `evmConfig` is the rendered Prove config. */
    method ProveWithConfig(w: Workspace, evmConfig: string, data: CreateEvmContractData, codecs: Codecs,
                           proveRun: EngineOutcome)
      returns (reply: Reply<ProveResponse>)
      requires w.vk !in {w.input, w.model, w.proveConfig, w.verifierConfig}
      requires w.proof !in {w.input, w.model, w.proveConfig, w.verifierConfig}
      requires w.proveConfig !in {w.input, w.model}
      requires HasInputs(fs.files, w, data, codecs)
      modifies this, fs
      ensures old(fs.Valid()) ==> fs.Valid()
      ensures var n := |old(runs)|;
        (runs == old(runs) || (|runs| == n + 1 && runs[..n] == old(runs))) &&
        (|runs| == n + 1 <==> reply.Responded? || reply == Panicked(ReadProof))
      ensures reply.Panicked? ==> reply.at in {StoreConfig, ReadProof}
      ensures reply == Panicked(StoreConfig) <==> !Storable(old(fs.dirs), old(fs.full), w.proveConfig, Text(evmConfig))
      ensures reply == Panicked(StoreConfig) ==>
        fs.files == AfterStore(old(fs.dirs), old(fs.full), old(fs.files), w.proveConfig, Text(evmConfig))
      ensures runs == old(runs) ==> ezklconf == old(ezklconf)
      ensures var n := |old(runs)|;
        |runs| == n + 1 ==>
          HandedConfig(runs[n], ProveCli(w), w.proveConfig, evmConfig) &&
          HasInputs(runs[n].files, w, data, codecs) &&
          runs[n].files == old(fs.files)[w.proveConfig := Text(evmConfig)] &&
          fs.files == runs[n].files + EngineWrites(ProveCli(w), proveRun, fs.dirs) &&
          ezklconf == Some(w.proveConfig) &&
          (reply.Responded? <==> ReadProofData(fs, codecs, w.proof).Some?)
      ensures reply.Responded? ==>
          reply.body.status == DebugText(proveRun.result) &&
          ReadProofData(fs, codecs, w.proof) == Some(reply.body.proof)
      ensures fs.full == old(fs.full) && fs.dirs == old(fs.dirs)
      ensures Untouched(old(fs.files), fs.files, {w.proveConfig, w.vk, w.proof})
    {
      var stored := StoreJsonData(fs, evmConfig, w.proveConfig);
      if stored.Err? {
        return Panicked(StoreConfig);
      }
      ezklconf := Some(w.proveConfig);
      var res := Run(ProveCli(w), proveRun);
      var proofData := ReadProofData(fs, codecs, w.proof);
      if proofData.None? {
        return Panicked(ReadProof);
      }
      return Responded(ProveResponse(DebugText(res), proofData.value));
    }

    /** `forward`: set `EZKLCONF`, write the request to the fixed project's
        `input.json`, run Forward, stop on an engine error, and reply with
        `output.json` parsed. */
    method Forward(input: EchoData, codecs: Codecs, run: EngineOutcome) returns (reply: Reply<JsonRpcParams>)
      modifies this, fs
      ensures old(fs.Valid()) ==> fs.Valid()
      ensures ezklconf == Some(ForwardConf)
      ensures var n := |old(runs)|;
        (runs == old(runs) || (|runs| == n + 1 && runs[..n] == old(runs))) &&
        (|runs| == n + 1 <==> reply != Panicked(StoreInput))
      ensures reply == Panicked(StoreInput) <==> !Storable(old(fs.dirs), old(fs.full), GaiaInput, Text(codecs.toJson(input)))
      ensures reply == Panicked(StoreInput) ==>
        fs.files == AfterStore(old(fs.dirs), old(fs.full), old(fs.files), GaiaInput, Text(codecs.toJson(input)))
      ensures var n := |old(runs)|;
        |runs| == n + 1 ==>
          runs[n] == Invocation(ForwardCli(), Some(ForwardConf), old(fs.files)[GaiaInput := Text(codecs.toJson(input))]) &&
          fs.files == runs[n].files + EngineWrites(ForwardCli(), run, fs.dirs) &&
          (reply == Panicked(EngineRun) <==> run.result.Err?) &&
          (run.result.Ok? ==> reply == ReadParams(fs, codecs, GaiaOutput))
      ensures fs.dirs == old(fs.dirs) && fs.full == old(fs.full)
      ensures Untouched(old(fs.files), fs.files, {GaiaInput, GaiaOutput})
    {
      ezklconf := Some(ForwardConf);
      var stored := StoreJsonData(fs, codecs.toJson(input), GaiaInput);
      if stored.Err? {
        return Panicked(StoreInput);
      }
      var res := Run(ForwardCli(), run);
      if res.Err? {
        return Panicked(EngineRun);
      }
      return ReadParams(fs, codecs, GaiaOutput);
    }

    /** `mock`: set `EZKLCONF`, write the request to the fixed project's
        `input.json`, run Mock, and reply with `output.json` parsed whatever
        the run's result.  Mock declares no output, so the reply is read from
        `output.json` as earlier requests left it. */
    method Mock(input: EchoData, codecs: Codecs, run: EngineOutcome) returns (reply: Reply<JsonRpcParams>)
      modifies this, fs
      ensures old(fs.Valid()) ==> fs.Valid()
      ensures ezklconf == Some(MockConf)
      ensures var n := |old(runs)|;
        (runs == old(runs) || (|runs| == n + 1 && runs[..n] == old(runs))) &&
        (|runs| == n + 1 <==> reply != Panicked(StoreInput))
      ensures reply == Panicked(StoreInput) <==> !Storable(old(fs.dirs), old(fs.full), GaiaInput, Text(codecs.toJson(input)))
      ensures reply == Panicked(StoreInput) ==>
        fs.files == AfterStore(old(fs.dirs), old(fs.full), old(fs.files), GaiaInput, Text(codecs.toJson(input)))
      ensures reply != Panicked(EngineRun)
      ensures var n := |old(runs)|;
        |runs| == n + 1 ==>
          runs[n] == Invocation(MockCli(), Some(MockConf), old(fs.files)[GaiaInput := Text(codecs.toJson(input))]) &&
          fs.files == runs[n].files &&
          reply == ReadParams(fs, codecs, GaiaOutput)
      ensures fs.dirs == old(fs.dirs) && fs.full == old(fs.full)
      ensures Untouched(old(fs.files), fs.files, {GaiaInput})
    {
      ezklconf := Some(MockConf);
      var stored := StoreJsonData(fs, codecs.toJson(input), GaiaInput);
      if stored.Err? {
        return Panicked(StoreInput);
      }
      var res := Run(MockCli(), run);
      return ReadParams(fs, codecs, GaiaOutput);
    }

    /** `submit_proof`: set `EZKLCONF`, write the request to the fixed
        project's `input.json`, run Prove, and reply with `output.json` parsed
        whatever the run's result.  Prove writes the key and the proof, not
        `output.json`. */
    method SubmitProof(input: EchoData, codecs: Codecs, run: EngineOutcome) returns (reply: Reply<JsonRpcParams>)
      modifies this, fs
      ensures old(fs.Valid()) ==> fs.Valid()
      ensures ezklconf == Some(SubmitProofConf)
      ensures var n := |old(runs)|;
        (runs == old(runs) || (|runs| == n + 1 && runs[..n] == old(runs))) &&
        (|runs| == n + 1 <==> reply != Panicked(StoreInput))
      ensures reply == Panicked(StoreInput) <==> !Storable(old(fs.dirs), old(fs.full), GaiaInput, Text(codecs.toJson(input)))
      ensures reply == Panicked(StoreInput) ==>
        fs.files == AfterStore(old(fs.dirs), old(fs.full), old(fs.files), GaiaInput, Text(codecs.toJson(input)))
      ensures reply != Panicked(EngineRun)
      ensures var n := |old(runs)|;
        |runs| == n + 1 ==>
          runs[n] == Invocation(SubmitProofCli(), Some(SubmitProofConf), old(fs.files)[GaiaInput := Text(codecs.toJson(input))]) &&
          fs.files == runs[n].files + EngineWrites(SubmitProofCli(), run, fs.dirs) &&
          reply == ReadParams(fs, codecs, GaiaOutput)
      ensures fs.dirs == old(fs.dirs) && fs.full == old(fs.full)
      ensures Untouched(old(fs.files), fs.files, {GaiaInput} + DeclaredOutputs(SubmitProofCli().command))
    {
      ezklconf := Some(SubmitProofConf);
      var stored := StoreJsonData(fs, codecs.toJson(input), GaiaInput);
      if stored.Err? {
        return Panicked(StoreInput);
      }
      var res := Run(SubmitProofCli(), run);
      return ReadParams(fs, codecs, GaiaOutput);
    }
  }
}
