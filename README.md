# ezkl-rust-server, modelled in Dafny

The server exposes five HTTP endpoints around the ezkl proving engine.

- `generate_evm_contract` and `prove` work on a per-request project directory `./data/<project_name>`.
  - They write the uploaded ONNX model and the request's `input.json` into it.
  - They render JSON job configs for the engine (`prove_<name>.json`, `genevm_<name>.json`) and write them there too.
  - They point the process-wide `EZKLCONF` variable at a config and run the engine.
  - They read back the Solidity verifier or the proof.
- `forward`, `mock` and `submit_proof` work on the fixed `baby_gaia_2d` project.
  - They write only the request's `input.json`; no model and no config is written.
  - They point `EZKLCONF` at a fixed config path that the server itself never writes, run the engine with the `SERVER_ARGS` parameters, and read back `output.json`.

The model has five modules.

- `Types` (`types.dfy`) holds:
  - the request and response records;
  - the `SERVER_ARGS` constant;
  - the shapes of the engine's `Cli`, `Commands` and `RunArgs`.
- `Render` (`render.dfy`) holds the two config renderers, `generate_evm_config_json` and `generate_genevm_config_json`.
  - Each is one `format!` call. It is modelled as a template: literal pieces with holes between them, filled by `Fill`, which copies each argument into its slot verbatim.
  - A small reader, `Read`, reads a filled document back against the same template. Each hole is read as a JSON string token.
  - With the reader, the model can state when the rendered document really carries its arguments:
    - every argument reads back intact exactly when it needs no escaping;
    - nothing is escaped, so a path holding a quote breaks the document.
  - The `args` block is rendered from a `RunArgs` by `RenderArgs`. The model proves which run parameters produce the block both renderers hard-code.
- `Files` (`files.dfy`) is the part of the filesystem the server touches.
  - It is a `FileSystem` class with a map from paths to contents, the set of existing directories, and a "device full" flag. No path is both a file and a directory, and every operation keeps it so.
  - `File::create`, `write_all`, `create_dir_all` and `read_to_string` are its operations.
  - On top of them sit `store_json_data` and `save_onnx_file`.
- `Server` (`server.dfy`) holds the path derivation of `src/lib.rs` and the five handlers.
  - The handlers are methods of a `Server` class whose state is the filesystem and the `EZKLCONF` variable.
  - The engine is opaque. Each run is given to the handler as an `EngineOutcome`: the result it reports and the files it writes.
  - The server keeps a ghost log of what each run was handed: the command, the value of `EZKLCONF` and the files.
  - An `unwrap`, `expect` or `panic!` ends the request with `Panicked(step)`.
  - `serde_json` and `base64` are passed in as functions (`Codecs`).
- `Wrappers` holds `Option` and `Result`.

What is proved, in the system's terms:

- **Config contents.**
  - The Prove config carries the tag `Prove` and its four paths in the `data`, `model`, `vk_path` and `proof_path` slots.
  - Whatever the paths, it carries the fixed `params_path`, `transcript` and `strategy` fields and the shared `args` block.
  - The verifier config has its fields in the source's order, with `params_path` between `model` and `vk_path`.
  - Changing one argument changes only its slot.
  - The paths read back exactly when none of them holds a quote, a backslash or a control character.
- **Run parameters.**
  - The `args` block both renderers emit is exactly the rendering of bits 16, UNSAFE, logrows 17, pack_base 1, only outputs public, scale 7 and tolerance 0.
  - So it agrees with the `RunArgs` that `generate_evm_contract` and `prove` pass to the engine in memory.
  - It disagrees with `SERVER_ARGS` (logrows 19).
- **Project paths.**
  - Every artifact path is `./data/<name>/` followed by a file name: `input.json`, `network.onnx`, or a name built from the project name (`<name>.vk`, `<name>.pf`, `<name>.code`, `prove_<name>.json`, `genevm_<name>.json`). No two artifacts share a path.
  - The Solidity file is `<name>.sol` in the working directory, outside the project directory.
  - The configs only land next to the input when the name has no `/`.
- **Handler ordering.**
  - In `generate_evm_contract` and `prove`, before each run `EZKLCONF` names the config written just before it, and that file holds the rendered document.
  - In `generate_evm_contract` and `prove`, the first run is handed exactly the files as they stood, plus the decoded model, the request's input and the rendered configs. Earlier keys, proofs and `.sol` files are left as they were.
  - In every handler, the request's `input.json` is in place before the run; `generate_evm_contract` and `prove` also write the model first.
  - `generate_evm_contract` and `prove` create the project directory and the directories above it exactly when nothing is at its path and no file lies along it.
  - Every handler panics at a write step exactly when that write fails: a missing parent directory, a directory in the way, or a full device. The files are then exactly as the failed write left them: unchanged when the file could not be created, emptied when the write itself failed. Otherwise the handler goes on to run the engine.
  - `generate_evm_contract` runs the verifier generation whenever both configs were written, whatever Prove reported: it performs either no run or two.
  - `prove` replies with the debug text of the engine result together with the proof read back.
  - `mock` and `submit_proof` read `output.json` back whatever the run reported.
  - `forward` stops when the run fails.
  - An existing project directory is never recreated or cleared.
  - Files other than the request's own artifacts are left as they were.

Two consequences of the code are worth stating on their own:

- Project names are not validated. A name with `/` or `"` goes into every path. The model proves what follows:
  - with a `/`, the configs land in a subdirectory of the project directory that the server never creates, so writing them succeeds only if that subdirectory already exists;
  - with a `"`, the paths no longer read back from the rendered config.
- The Prove result is discarded in `generate_evm_contract`. The verifier generation runs whether Prove succeeded or not, and `GenerateEvmContract`'s contract states exactly that.

## Model

| member | source | states |
|---|---|---|
| Types.ServerArgsValues | src/types.rs:10-21 | `SERVER_ARGS` is bits 16, UNSAFE, logrows 19, pack_base 1, scale 7, tolerance 0, no allocated constraints, and only outputs are public |
| Render.FillSlot | src/utils.rs:18-44 | each `format!` argument lands in its own slot: the text before and after slot `i` does not depend on argument `i`, so replacing one argument changes only that slot |
| Render.FillStartsWith | src/utils.rs:18-44 | a rendered document opens with the format string's first literal piece, whatever the arguments |
| Render.FillEndsWith | src/utils.rs:18-44 | a rendered document closes with the format string's last literal piece, whatever the arguments |
| Render.ReadSound | src/utils.rs:18-44 | whatever the reader accepts against a template is that template filled with plain arguments |
| Render.ReadFill | src/utils.rs:18-44 | a filled template reads back as exactly its arguments iff every argument is plain, since nothing is escaped |
| Render.FillInjective | src/utils.rs:31-41 | when every hole stops before the next piece's first character, two fillings are equal iff their arguments are |
| Render.Decimal | src/utils.rs:32 | an integer is printed as a non-empty run of decimal digits |
| Render.DecimalRoundTrip | src/utils.rs:32 | the printed digits read back as the number printed |
| Render.DecimalInjective | src/utils.rs:31-41 | two numbers print the same iff they are equal |
| Render.ArgsBlockFilled | src/utils.rs:31-41 | the literal `args` block is the args format filled with 16, UNSAFE, 17, 1, false, true, false, 7, 0 |
| Render.ArgsBlockDescribes | src/utils.rs:31-41 | `RenderArgs(r)` is the hard-coded `args` block iff `r` has bits 16, UNSAFE, logrows 17, pack_base 1, only outputs public, scale 7 and tolerance 0 |
| Render.ProveTemplateShape | src/utils.rs:19-44 | in the Prove format, each hole is the string value of `data`, `model`, `vk_path`, `proof_path` in that order, closed by a quote |
| Render.VerifierTemplateShape | src/utils.rs:56-80 | in the verifier format, the holes are `data`, `model`, `vk_path`, `deployment_code_path`, `sol_code_path`, with the fixed `params_path: "kzg.params"` between `model` and `vk_path` |
| Render.ProveConfigShape | src/utils.rs:12-45 | the Prove document `GenerateEvmConfigJson` renders opens with the `Prove` tag and the `data` key; whatever the arguments it ends with the fixed params_path, transcript and strategy fields and the `args` block; the four paths read back in their slots iff they are plain |
| Render.VerifierConfigShape | src/utils.rs:48-81 | the verifier document `GenerateGenevmConfigJson` renders opens with the `CreateEVMVerifier` tag; whatever the arguments it ends with the `args` block; the five paths read back in their slots iff they are plain |
| Files.ParentOfJoin | src/lib.rs:159 | `dir + "/file"` has `dir` as its parent directory |
| Files.FileSystem.ReadToString | src/utils.rs:119 | reading succeeds iff the path holds a text file, and then gives back exactly its text |
| Files.FileSystem.CreateDirAll | src/lib.rs:151 | creates the path and every directory along it, and fails, changing nothing, iff one of them is a file |
| Files.FileSystem.Create | src/utils.rs:87 | creating succeeds iff the parent directory exists and the path is not a directory, and leaves the file empty |
| Files.FileSystem.WriteAll | src/utils.rs:90 | the freshly created file takes the content unless the device is full |
| Files.StoreJsonData | src/utils.rs:85-93 | succeeds iff the parent directory exists, the path is not a directory and the device has room; on success the file holds exactly the given text and no other file changes; a create error changes nothing; a write error leaves the file truncated; the final files are given in every case by one function of the old state; no path becomes both a file and a directory |
| Files.SaveOnnxFile | src/utils.rs:109-116 | a decoding error is returned before any file is touched; otherwise it succeeds iff `<base>/network.onnx` can be created and written, the decoded bytes go there and nowhere else, and a write error leaves that file truncated; the final files are given in every case by the same function as for `store_json_data` |
| Server.ArtifactsInWorkspace | src/lib.rs:149-171 | for the paths `Layout` derives from the name: the base is `./data/<name>`; all seven artifacts lie under `./data/<name>/` whatever the name; the `.sol` file is `<name>.sol` and does not |
| Server.ArtifactsDistinct | src/lib.rs:159-170 | no two of a project's seven artifact paths are equal |
| Server.ProveOutputsApart | src/lib.rs:176-181 | the Prove run's outputs (the key and the proof) are none of the input, model or config files |
| Server.VerifierOutputs | src/lib.rs:204-211 | the verifier run's outputs are the deployment code and the Solidity file |
| Server.ConfigParentIsWorkspace | src/lib.rs:159-168 | input and model sit directly in the project directory; each config does iff the name has no `/` |
| Server.ConfigParent | src/lib.rs:167-168 | `<base>/prove_<name>.json` has parent `<base>` iff the name has no `/` |
| Server.PlainConcat | src/lib.rs:159-171 | a path built by concatenation needs no escaping iff none of its parts does |
| Server.PlainPaths | src/lib.rs:159-171 | every path derived from the name (the five spliced into the configs, the proof, and both config paths) needs no escaping iff the project name does not |
| Server.ProveConfigMatchesCli | src/lib.rs:176-197 | the Prove config written for a project names the same four paths as the in-memory Prove command iff the name is plain, and its `args` block is that command's `RunArgs` rendered |
| Server.VerifierConfigMatchesCli | src/lib.rs:203-224 | the same for the verifier config and the CreateEVMVerifier command, whose `vk_path` is the Prove command's |
| Server.FixedProjectArgs | src/lib.rs:75-123 | `mock` and `submit_proof` spell out `SERVER_ARGS` (logrows 19), which renders to a different `args` block than the configs carry; the project endpoints' parameters render to it exactly |
| Server.DebugText | src/lib.rs:293 | the status text is `Ok(())` iff the run succeeded, and starts with `Err(` otherwise |
| Server.ReadParams | src/lib.rs:56-57 | the reply is the parsed output iff the output file is text, is JSON, and parses as `JsonRpcParams`; otherwise it panics at the failing step |
| Server.ReadProofData | src/utils.rs:118-122 | a proof is returned iff the proof file is text that parses as `ProofData`, and it is that parse |
| Server.StoreConfigs | src/lib.rs:173-174 | succeeds iff both config files can be created and written; on success both hold their rendered text; on failure the files are exactly as the failed write left them, and the verifier config is not touched when the Prove config failed; in every case no other file changes |
| Server.Server.Run | src/lib.rs:201 | the run is logged with the command, the current `EZKLCONF` and the files as they stood; only the command's declared outputs change, and never one that is a directory, so no path becomes both a file and a directory |
| Server.Server.PrepareProject | src/lib.rs:149-161 | creates the directory chain only when nothing is at its path, never touching an existing one; fails at exactly the first step whose condition fails (directory creation, decoding or writing the model, writing `input.json`); on success the model holds the decoded bytes and `input.json` the serialised input; on failure the files are exactly as the failing step left them, so a directory or decoding failure changes no file |
| Server.Server.GenerateEvmContract | src/lib.rs:142-233 | creates the directory chain exactly when nothing is at the base and no file lies on it; panics at preparation or at the config writes exactly when that step fails, with the files as that step left them; once preparation succeeds no preparation step is reported; the Prove run is handed the old files plus model, input and both configs; otherwise two runs, whatever Prove reported; each run is handed its own config under `EZKLCONF`; the verifier run sees Prove's outputs; the reply is the text of `<name>.sol` |
| Server.Server.GenerateWithConfigs | src/lib.rs:173-232 | the steps after preparation: panics at the config writes iff one cannot be written, leaving the files as the writes did; otherwise two runs in order, each under its own config, the first handed the files as they stood plus both configs, and `.sol` read back |
| Server.Server.RunProveThenVerifier | src/lib.rs:200-232 | with both configs written: exactly two runs, Prove then CreateEVMVerifier, each handed its own config under `EZKLCONF`; the verifier run sees Prove's outputs; the reply is the `.sol` text iff it can be read |
| Server.Server.Prove | src/lib.rs:235-296 | creates the directory chain exactly when nothing is at the base and no file lies on it; panics at preparation or at the config write exactly when that step fails, with the files as that step left them; once preparation succeeds no preparation step is reported; the run is handed the old files plus model, input and the config; otherwise one run, whatever its result; the run is handed the Prove config, model and input; the reply pairs the run's debug text with the proof read from `<name>.pf` |
| Server.Server.ProveWithConfig | src/lib.rs:262-295 | the steps after preparation: panics at the config write iff it cannot be written, leaving the files as `store_json_data` did; otherwise one run, handed the files as they stood plus the config, and the proof read back whatever the run reported |
| Server.Server.Forward | src/lib.rs:35-61 | `EZKLCONF` is `./data/forward.json` even when the input write fails; the request panics before the run iff `input.json` cannot be written, leaving the files as `store_json_data` did; the run sees the new `input.json`; an engine error panics; otherwise the reply is `output.json` parsed |
| Server.Server.Mock | src/lib.rs:105-140 | the request panics before the run iff `input.json` cannot be written, leaving the files as `store_json_data` did; the run sees the new `input.json`; the engine result never stops the request; the reply is `output.json` as earlier requests left it |
| Server.Server.SubmitProof | src/lib.rs:63-103 | the request panics before the run iff `input.json` cannot be written, leaving the files as `store_json_data` did; the run sees the new `input.json` under `prove_baby_gaia.json`; the engine result never stops the request; the reply is `output.json` parsed |

## Left out

- The proving engine (`ezkl_lib::execute::run`) is not modelled. Each run's result and written files are parameters (`EngineOutcome`), and a run may write only the outputs its command declares (`DeclaredOutputs`) that are not directories. This is an assumption about the engine, not something the server checks.
- `serde_json::to_string`, `serde_json::from_str` and `base64::decode` are functions passed in (`Codecs`). Their own behaviour is not modelled. `to_string` is assumed total, since it never fails on these records.
- File contents are `Text` or `Bytes`. UTF-8 validity, encoding of written text and reading bytes as text are not modelled. Reading a file holding bytes is an error.
- Paths are compared as strings. `.`, `..` and repeated `/` are not normalised, and symbolic links do not exist.
- I/O errors are limited to a missing parent, a directory in the way, a file in the way and a full device. Permissions and other OS errors are not modelled.
- Files.FileSystem.WriteAll: a failed write writes nothing, because partial writes are not modelled.
- Concurrency is not modelled. Requests run one at a time, so the race between handlers on the process-wide `EZKLCONF` variable does not appear.
- `f32` tensor elements are carried as bit patterns with no arithmetic.
- Logging (`info!`, `println!`) is left out, since it does not affect state.
- The HTTP layer is left out: actix routing, `run_server`, the `PORT` lookup and `src/main.rs`.
- `src/blockchain/hunter_caller.rs`, `src/request.rs`, `src/hunter_z_hunter_rpc.rs` and the Python under `data/` are not part of this model.
- The HTTP response of a panicking handler is not modelled. A panic is `Panicked(step)`.
