/**
 * Records of the server (src/types.rs) and the shapes of the proving engine's
 * command line that the handlers build (`Cli`, `Commands`, `RunArgs`).
 * Tensor elements are `f32` in the source; the model carries their bit
 * patterns and never computes on them.
 */
module Types {
  import opened Wrappers

  type byte = x: int | 0 <= x < 0x100
  type u64 = x: int | 0 <= x < 0x1_0000_0000_0000_0000

  /** An `f32` tensor element, kept as its IEEE-754 bit pattern. */
  datatype F32 = F32(bits: bv32)

  datatype CheckMode = SAFE | UNSAFE

  /** The engine's numeric run parameters. */
  datatype RunArgs = RunArgs(
    bits: nat,
    checkMode: CheckMode,
    logrows: nat,
    packBase: nat,
    publicInputs: bool,
    publicOutputs: bool,
    publicParams: bool,
    scale: nat,
    tolerance: nat,
    allocatedConstraints: Option<nat>)

  /** `SERVER_ARGS`: the run parameters of the fixed-project endpoints. */
  const ServerArgs := RunArgs(
    bits := 16,
    checkMode := UNSAFE,
    logrows := 19,
    packBase := 1,
    publicInputs := false,
    publicOutputs := true,
    publicParams := false,
    scale := 7,
    tolerance := 0,
    allocatedConstraints := None)

  /** Only the model's outputs are public: inputs and proving parameters stay private. */
  predicate OnlyOutputsPublic(a: RunArgs) {
    !a.publicInputs && a.publicOutputs && !a.publicParams
  }

  lemma ServerArgsValues()
    ensures ServerArgs.bits == 16 && ServerArgs.checkMode == UNSAFE && ServerArgs.logrows == 19
    ensures ServerArgs.packBase == 1 && ServerArgs.scale == 7 && ServerArgs.tolerance == 0
    ensures ServerArgs.allocatedConstraints == None
    ensures OnlyOutputsPublic(ServerArgs)
  {
  }

  /** Body of the fixed-project endpoints' requests. */
  datatype EchoData = EchoData(
    inputData: seq<seq<F32>>,
    inputShapes: seq<seq<nat>>,
    outputData: seq<seq<F32>>)

  /** What the fixed-project endpoints read back from the engine's output file. */
  datatype JsonRpcParams = JsonRpcParams(
    inputData: seq<seq<F32>>,
    inputShapes: seq<seq<nat>>,
    outputData: seq<seq<F32>>)

  /** Body of the per-project endpoints: a name, the input record and the base64 model. */
  datatype CreateEvmContractData = CreateEvmContractData(
    projectName: string,
    echoData: EchoData,
    onnxFileData: string)

  /** A proof file as the engine writes it. */
  datatype ProofData = ProofData(
    numInstance: seq<nat>,
    instances: seq<seq<seq<u64>>>,
    proof: seq<byte>)

  datatype TranscriptType = EVM | Poseidon

  datatype StrategyType = Single | Accum

  /** The engine commands the handlers issue. */
  datatype Command =
    | Forward(data: string, model: string, output: string)
    | Mock(data: string, model: string)
    | Prove(data: string, model: string, vkPath: string, proofPath: string,
            paramsPath: string, transcript: TranscriptType, strategy: StrategyType)
    | CreateEVMVerifier(data: string, model: string, vkPath: string,
                        deploymentCodePath: Option<string>, paramsPath: string,
                        solCodePath: Option<string>)

  datatype Cli = Cli(command: Command, args: RunArgs)

  /** The files a command asks the engine to produce. */
  function DeclaredOutputs(c: Command): set<string> {
    match c
    case Forward(_, _, output) => {output}
    case Mock(_, _) => {}
    case Prove(_, _, vk, proof, _, _, _) => {vk, proof}
    case CreateEVMVerifier(_, _, _, code, _, sol) =>
      (if code.Some? then {code.value} else {}) + (if sol.Some? then {sol.value} else {})
  }
}
