/** The TripoSR worker handler: request normalisation, the export format
    choice, the response dictionary with its large-file warning, the
    exception classification, and the lazily loaded model. */
module TripoSrHandler {
  import opened HandlerCommon

  const McResolutions: set<int> := {128, 256, 512}
  const DefaultMcResolution: int := 256
  const OutputFormats: set<string> := {"glb", "obj"}
  const DefaultOutputFormat: string := "glb"
  /** Files at or above 5 MiB carry a warning in the response. */
  const LargeFileThreshold: int := 5 * 1024 * 1024
  const LargeFileWarning: string := "Large file returned as base64. Consider using S3 for production."
  const OomAdvice: string := "GPU out of memory. Try a lower resolution (128 or 256)."

  // ---------------------------------------------------- request parameters

  /** The request's `input` mapping, typed: the image text, each numeric
      option as `float()` or `int()` left it, and the string option as the
      text before `.lower()`. */
  datatype Request = Request(
    image: Option<string>,
    foregroundRatio: Field<real>,
    mcResolution: Field<int>,
    outputFormat: Field<string>)

  datatype Params = Params(
    image: string,
    foregroundRatio: real,
    mcResolution: int,
    outputFormat: string)

  /** The ranges the handler guarantees before any work starts. */
  predicate ValidParams(p: Params)
  {
    && p.image != ""
    && 0.5 <= p.foregroundRatio <= 1.0
    && p.mcResolution in McResolutions
    && p.outputFormat in OutputFormats
  }

  /** `input_data.get("output_format", "glb").lower()`. */
  function LoweredFormat(q: Request): string
    requires !q.outputFormat.Unconvertible?
  {
    Lower(Read(q.outputFormat, DefaultOutputFormat))
  }

  /** Parameter extraction and validation of `handler`: the conversions run
      first, in source order, then the image check; `mc_resolution` is snapped
      by membership, not clamped. */
  function Normalize(q: Request): (r: Normalized<Params>)
    ensures r.ConversionFailed? <==>
      q.foregroundRatio.Unconvertible? || q.mcResolution.Unconvertible? || q.outputFormat.Unconvertible?
    ensures q.foregroundRatio.Unconvertible? ==> r == ConversionFailed(q.foregroundRatio.message)
    ensures !q.foregroundRatio.Unconvertible? && q.mcResolution.Unconvertible?
            ==> r == ConversionFailed(q.mcResolution.message)
    ensures !q.foregroundRatio.Unconvertible? && !q.mcResolution.Unconvertible? && q.outputFormat.Unconvertible?
            ==> r == ConversionFailed(q.outputFormat.message)
    ensures r.MissingImage? <==> !r.ConversionFailed? && ImageMissing(q.image)
    ensures r.Accepted? ==> ValidParams(r.params) && q.image == Some(r.params.image)
    ensures r.Accepted? && q.foregroundRatio.Given? && 0.5 <= q.foregroundRatio.value <= 1.0
            ==> r.params.foregroundRatio == q.foregroundRatio.value
    ensures r.Accepted? && !(q.foregroundRatio.Given? && 0.5 <= q.foregroundRatio.value <= 1.0)
            ==> r.params.foregroundRatio == DefaultForegroundRatio
    ensures r.Accepted? && q.mcResolution.Given? && q.mcResolution.value in McResolutions
            ==> r.params.mcResolution == q.mcResolution.value
    ensures r.Accepted? && !(q.mcResolution.Given? && q.mcResolution.value in McResolutions)
            ==> r.params.mcResolution == DefaultMcResolution
    ensures r.Accepted? && LoweredFormat(q) in OutputFormats ==> r.params.outputFormat == LoweredFormat(q)
    ensures r.Accepted? && LoweredFormat(q) !in OutputFormats ==> r.params.outputFormat == DefaultOutputFormat
  {
    if q.foregroundRatio.Unconvertible? then ConversionFailed(q.foregroundRatio.message)
    else if q.mcResolution.Unconvertible? then ConversionFailed(q.mcResolution.message)
    else if q.outputFormat.Unconvertible? then ConversionFailed(q.outputFormat.message)
    else if ImageMissing(q.image) then MissingImage
    else
      Accepted(Params(
        q.image.value,
        ClampRatio(Read(q.foregroundRatio, DefaultForegroundRatio)),
        Snap(Read(q.mcResolution, DefaultMcResolution), McResolutions, DefaultMcResolution),
        Snap(LoweredFormat(q), OutputFormats, DefaultOutputFormat)))
  }

  /** The request that spells out normalised parameters. */
  function Resubmit(p: Params): Request
  {
    Request(Some(p.image), Given(p.foregroundRatio), Given(p.mcResolution), Given(p.outputFormat))
  }

  /** Normalising is idempotent: parameters that passed through the handler
      once pass through again unchanged. */
  lemma NormalizeIdempotent(q: Request)
    requires Normalize(q).Accepted?
    ensures Normalize(Resubmit(Normalize(q).params)) == Normalize(q)
  {
    var p := Normalize(q).params;
    assert Lower(p.outputFormat) == p.outputFormat by {
      assert Lower("glb") == "glb" && Lower("obj") == "obj";
    }
  }

  // ----------------------------------------------------------------- export

  /** Where `export_mesh` writes: a fresh temporary file with a suffix, or the
      caller's path. */
  datatype OutputPath = TempFile(suffix: string) | GivenPath(path: string)

  datatype ExportPlan = ExportPlan(path: OutputPath, fileType: string)

  /** `export_mesh(mesh, output_format, output_path)`: "glb" is exported as
      GLB, every other format as OBJ; a temporary file's suffix always names
      the file type written into it. */
  function ExportMesh(outputFormat: string, outputPath: Option<string>): (e: ExportPlan)
    ensures e.fileType in OutputFormats
    ensures e.fileType == "glb" <==> outputFormat == "glb"
    ensures outputFormat in OutputFormats ==> e.fileType == outputFormat
    ensures outputPath.None? ==> e.path == TempFile("." + e.fileType)
    ensures outputPath.Some? ==> e.path == GivenPath(outputPath.value)
  {
    var path :=
      if outputPath.None? then TempFile(if outputFormat == "glb" then ".glb" else ".obj")
      else GivenPath(outputPath.value);
    assert "." + "glb" == ".glb" && "." + "obj" == ".obj";
    if outputFormat == "glb" then ExportPlan(path, "glb") else ExportPlan(path, "obj")
  }

  // ---------------------------------------------------------------- results

  datatype Vertex = Vertex(x: real, y: real, z: real)
  datatype Face = Face(a: nat, b: nat, c: nat)

  /** The mesh `extract_mesh` returns; only its vertex and face lists are read. */
  datatype Mesh = Mesh(vertices: seq<Vertex>, faces: seq<Face>)

  const SuccessKeys: set<string> := {"model_base64", "file_size", "vertices", "faces", "format", "execution_time"}

  /** The two success dictionaries of `handler`: below 5 MiB, and at or above
      it with the extra warning. Every field but the warning is the same in
      both. */
  function SuccessDict(p: Params, mesh: Mesh, data: seq<bv8>, base64: string, elapsed: real): (d: Dict)
    ensures "warning" in d <==> |data| >= LargeFileThreshold
    ensures "warning" in d ==> d["warning"] == Str(LargeFileWarning)
    ensures d.Keys - {"warning"} == SuccessKeys
    ensures d["model_base64"] == Str(base64)
    ensures d["file_size"] == Int(|data|)
    ensures d["vertices"] == Int(|mesh.vertices|) && d["faces"] == Int(|mesh.faces|)
    ensures d["format"] == Str(p.outputFormat)
    ensures d["execution_time"] == Real(elapsed)
  {
    if |data| < LargeFileThreshold then
      map[
        "model_base64" := Str(base64),
        "file_size" := Int(|data|),
        "vertices" := Int(|mesh.vertices|),
        "faces" := Int(|mesh.faces|),
        "format" := Str(p.outputFormat),
        "execution_time" := Real(elapsed)]
    else
      map[
        "model_base64" := Str(base64),
        "file_size" := Int(|data|),
        "vertices" := Int(|mesh.vertices|),
        "faces" := Int(|mesh.faces|),
        "format" := Str(p.outputFormat),
        "execution_time" := Real(elapsed),
        "warning" := Str(LargeFileWarning)]
  }

  /** The two `except` clauses of `handler`: the exception type, not its text,
      selects the out-of-memory advice. */
  function Classify(e: Exception): (d: Dict)
    ensures d.Keys == {"error"}
    ensures e.isCudaOom ==> d["error"] == Str(OomAdvice)
    ensures !e.isCudaOom ==> d["error"] == Str(GenerationFailedPrefix + e.message)
  {
    if e.isCudaOom then ErrorDict(OomAdvice) else ErrorDict(GenerationFailedPrefix + e.message)
  }

  /** How `preprocess_image` ended. `Image.open` reads only the header, so
      pixel data that does not decode first raises here, as can background
      removal and the resize; all of this runs before the model is loaded. */
  datatype Preprocessing = Preprocessed | PreprocessFailed(error: Exception)

  /** The handler gets past validation, decoding and preprocessing and starts
      the work that loads the model. */
  predicate ReachesGeneration(q: Request, decoding: Decoding, preprocessing: Preprocessing)
  {
    Normalize(q).Accepted? && decoding.Decoded? && preprocessing.Preprocessed?
  }

  /** The dictionary `handler` returns, given how decoding and the foreign
      stages after it ended. A conversion failure is never the CUDA error, so
      it always gets the generic message. */
  function Respond(q: Request, decoding: Decoding, preprocessing: Preprocessing, outcome: Outcome<Mesh>): (d: Dict)
    ensures "error" in d <==> !(ReachesGeneration(q, decoding, preprocessing) && outcome.Produced?)
    ensures Normalize(q).MissingImage? ==> d == ErrorDict(NoImageMessage)
    ensures Normalize(q).ConversionFailed?
            ==> d == ErrorDict(GenerationFailedPrefix + Normalize(q).message)
    ensures Normalize(q).Accepted? && decoding.DecodeFailed?
            ==> d == ErrorDict(DecodeFailedPrefix + decoding.message)
    ensures Normalize(q).Accepted? && decoding.Decoded? && preprocessing.PreprocessFailed?
            ==> d == Classify(preprocessing.error)
    ensures ReachesGeneration(q, decoding, preprocessing) && outcome.Raised? ==> d == Classify(outcome.error)
    ensures ReachesGeneration(q, decoding, preprocessing) && outcome.Produced? ==>
            var p := Normalize(q).params;
            && d == SuccessDict(p, outcome.mesh, outcome.data, outcome.base64, outcome.elapsed)
            && d["format"] == Str(ExportMesh(p.outputFormat, None).fileType)
  {
    match Normalize(q)
    case ConversionFailed(message) => Classify(Exception(false, message))
    case MissingImage => ErrorDict(NoImageMessage)
    case Accepted(p) =>
      match decoding
      case DecodeFailed(message) => ErrorDict(DecodeFailedPrefix + message)
      case Decoded =>
        if preprocessing.PreprocessFailed? then Classify(preprocessing.error)
        else match outcome
        case Raised(e) => Classify(e)
        case Produced(mesh, data, base64, elapsed) => SuccessDict(p, mesh, data, base64, elapsed)
  }

  // ------------------------------------------------------- worker global

  /** The model `TSR.from_pretrained` loads, with the renderer chunk size set
      on it. */
  datatype Model = Pretrained(repo: string, configName: string, weightName: string, chunkSize: int)

  const TripoWeights: Model := Pretrained("stabilityai/TripoSR", "config.yaml", "model.ckpt", 8192)

  /** One run of preprocessing, mesh extraction and export, with the arguments
      the handler passed. */
  datatype GenerationCall = GenerationCall(image: Picture, foregroundRatio: real, mcResolution: int, exportPlan: ExportPlan)

  /** The module global `model` of one worker process, with a ghost count of
      loads and a log of generation runs. */
  class Worker {
    var model: Option<Model>
    ghost var modelLoads: nat
    ghost var generations: seq<GenerationCall>

    ghost predicate Valid()
      reads this
    {
      && (model.None? ==> modelLoads == 0)
      && (model.Some? ==> model == Some(TripoWeights) && modelLoads == 1)
    }

    constructor()
      ensures Valid() && model.None? && generations == []
    {
      model := None;
      modelLoads := 0;
      generations := [];
    }

    /** `load_model`: loads the model only while the global is unbound. */
    method LoadModel() returns (m: Model)
      requires Valid()
      modifies this`model, this`modelLoads
      ensures Valid()
      ensures model == Some(m) && m == TripoWeights
      ensures old(model).Some? ==> modelLoads == old(modelLoads)
      ensures old(model).None? ==> modelLoads == old(modelLoads) + 1
    {
      if model.None? {
        model := Some(TripoWeights);
        modelLoads := modelLoads + 1;
      }
      m := model.value;
    }

    /** `handler`: a request rejected by validation, decoding or preprocessing
        touches no global; any other one loads the model if needed and runs
        generation with the normalised ratio, resolution and export format. */
    method Handle(q: Request, decoding: Decoding, preprocessing: Preprocessing, outcome: Outcome<Mesh>) returns (d: Dict)
      requires Valid()
      modifies this
      ensures Valid()
      ensures d == Respond(q, decoding, preprocessing, outcome)
      ensures !ReachesGeneration(q, decoding, preprocessing) ==> unchanged(this)
      ensures ReachesGeneration(q, decoding, preprocessing) ==>
                var p := Normalize(q).params;
                && model == Some(TripoWeights) && modelLoads == 1
                && (old(model).Some? ==> modelLoads == old(modelLoads))
                && generations == old(generations) + [GenerationCall(
                     DecodedFrom(p.image), p.foregroundRatio, p.mcResolution, ExportMesh(p.outputFormat, None))]
    {
      var n := Normalize(q);
      if !n.Accepted? || !decoding.Decoded? || !preprocessing.Preprocessed? {
        return Respond(q, decoding, preprocessing, outcome);
      }
      var p := n.params;
      var tsr := LoadModel();
      generations := generations + [GenerationCall(
        DecodedFrom(p.image), p.foregroundRatio, p.mcResolution, ExportMesh(p.outputFormat, None))];
      d := Respond(q, decoding, preprocessing, outcome);
    }
  }
}
