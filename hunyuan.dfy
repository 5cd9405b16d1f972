/** The Hunyuan3D-2 worker handler: request normalisation, texture gating,
    the response dictionary and exception classification, and the lazily
    loaded pipelines, whose memory profile the first load fixes. */
module Hunyuan3dHandler {
  import opened HandlerCommon

  const DefaultProfile: int := 3
  const MinProfile: int := 1
  const MaxProfile: int := 5
  const OomAdvice: string := "GPU out of memory. Try increasing the memory profile (3-5)."

  // ---------------------------------------------------- request parameters

  /** The request's `input` mapping, typed: the image text, the two flags as
      given (absent means true), and `profile` as `int()` left it. */
  datatype Request = Request(
    image: Option<string>,
    generateTexture: Option<bool>,
    removeBackground: Option<bool>,
    profile: Field<int>)

  datatype Params = Params(
    image: string,
    generateTexture: bool,
    removeBackground: bool,
    profile: int)

  /** A flag read with `input_data.get(key, True)`. */
  function Flag(b: Option<bool>): bool
  {
    if b.Some? then b.value else true
  }

  /** Parameter extraction and validation of `handler`: `int(profile)` runs
      before the image check; the profile is then clamped to [1, 5]. */
  function Normalize(q: Request): (r: Normalized<Params>)
    ensures r.ConversionFailed? <==> q.profile.Unconvertible?
    ensures r.ConversionFailed? ==> r.message == q.profile.message
    ensures r.MissingImage? <==> !q.profile.Unconvertible? && ImageMissing(q.image)
    ensures r.Accepted? ==>
            && q.image == Some(r.params.image) && r.params.image != ""
            && MinProfile <= r.params.profile <= MaxProfile
            && r.params.generateTexture == (q.generateTexture != Some(false))
            && r.params.removeBackground == (q.removeBackground != Some(false))
    ensures r.Accepted? && q.profile.Absent? ==> r.params.profile == DefaultProfile
    ensures r.Accepted? && q.profile.Given? ==>
            var v := q.profile.value;
            && (MinProfile <= v <= MaxProfile ==> r.params.profile == v)
            && (v < MinProfile ==> r.params.profile == MinProfile)
            && (v > MaxProfile ==> r.params.profile == MaxProfile)
  {
    if q.profile.Unconvertible? then ConversionFailed(q.profile.message)
    else if ImageMissing(q.image) then MissingImage
    else
      Accepted(Params(
        q.image.value,
        Flag(q.generateTexture),
        Flag(q.removeBackground),
        Clamp(MinProfile, MaxProfile, Read(q.profile, DefaultProfile))))
  }

  /** The request that spells out normalised parameters. */
  function Resubmit(p: Params): Request
  {
    Request(Some(p.image), Some(p.generateTexture), Some(p.removeBackground), Given(p.profile))
  }

  /** Normalising is idempotent: parameters that passed through the handler
      once pass through again unchanged. */
  lemma NormalizeIdempotent(q: Request)
    requires Normalize(q).Accepted?
    ensures Normalize(Resubmit(Normalize(q).params)) == Normalize(q)
  {
  }

  // ---------------------------------------------------------------- results

  const SuccessKeys: set<string> := {"model_base64", "file_size", "format", "textured", "execution_time"}

  /** The handler gets past validation and decoding and starts the work that
      fills the caches. */
  predicate ReachesGeneration(q: Request, decoding: Decoding)
  {
    Normalize(q).Accepted? && decoding.Decoded?
  }

  function SuccessDict(p: Params, data: seq<bv8>, base64: string, elapsed: real): Dict
  {
    map[
      "model_base64" := Str(base64),
      "file_size" := Int(|data|),
      "format" := Str("glb"),
      "textured" := Bool(p.generateTexture),
      "execution_time" := Real(elapsed)]
  }

  /** The dictionary `handler` returns, given how decoding and the foreign
      stages after it ended. */
  function Respond(q: Request, decoding: Decoding, outcome: Outcome<()>): (d: Dict)
    ensures "error" in d <==> !(ReachesGeneration(q, decoding) && outcome.Produced?)
    ensures Normalize(q).MissingImage? ==> d == ErrorDict(NoImageMessage)
    ensures Normalize(q).ConversionFailed? ==> d == ClassifyMessage(Normalize(q).message, OomAdvice)
    ensures Normalize(q).Accepted? && decoding.DecodeFailed?
            ==> d == ErrorDict(DecodeFailedPrefix + decoding.message)
    ensures ReachesGeneration(q, decoding) && outcome.Raised?
            ==> d == ClassifyMessage(outcome.error.message, OomAdvice)
    ensures ReachesGeneration(q, decoding) && outcome.Produced? ==>
            && d.Keys == SuccessKeys
            && d["model_base64"] == Str(outcome.base64)
            && d["file_size"] == Int(|outcome.data|)
            && d["format"] == Str("glb")
            && d["textured"] == Bool(q.generateTexture != Some(false))
            && d["execution_time"] == Real(outcome.elapsed)
  {
    match Normalize(q)
    case ConversionFailed(message) => ClassifyMessage(message, OomAdvice)
    case MissingImage => ErrorDict(NoImageMessage)
    case Accepted(p) =>
      match decoding
      case DecodeFailed(message) => ErrorDict(DecodeFailedPrefix + message)
      case Decoded =>
        match outcome
        case Raised(e) => ClassifyMessage(e.message, OomAdvice)
        case Produced(_, data, base64, elapsed) => SuccessDict(p, data, base64, elapsed)
  }

  // ------------------------------------------------------ worker globals

  const RembgRemove: Import := Import("rembg.remove")
  const RembgNewSession: Import := Import("rembg.new_session")
  const HunyuanRepo: string := "tencent/Hunyuan3D-2"

  /** A pipeline loaded with `from_pretrained`. */
  datatype Pipeline = ShapePipeline(repo: string) | PaintPipeline(repo: string)

  const Shape: Pipeline := ShapePipeline(HunyuanRepo)
  const Paint: Pipeline := PaintPipeline(HunyuanRepo)

  /** `generate_texture and paint_pipe is not None`: texturing runs. */
  function AppliesTexture(generateTexture: bool, paint: Option<Pipeline>): bool
  {
    generateTexture && paint.Some?
  }

  /** One generation run: the image handed to the shape pipeline and whether
      the paint pipeline textured the mesh. */
  datatype GenerationCall = GenerationCall(image: Picture, textured: bool)

  /** The module globals of one worker process (`remove`, `new_session`,
      `rembg_session`, `shape_pipeline`, `paint_pipeline`) and the
      `HY3D_PROFILE` value this worker wrote, with ghost counters of loads and
      a log of generation runs. Whether rembg can be imported is fixed for the
      worker's life. */
  class Worker {
    const rembgInstalled: bool
    var remove: Option<Import>
    var newSession: Option<Import>
    var rembgSession: Option<Session>
    var shapePipeline: Option<Pipeline>
    var paintPipeline: Option<Pipeline>
    /** The integer whose `str()` `load_models` wrote to `HY3D_PROFILE`. */
    var profileSetting: Option<int>
    ghost var shapeLoads: nat
    ghost var paintLoads: nat
    ghost var sessionsCreated: nat
    ghost var generations: seq<GenerationCall>

    /** Each pipeline and the session is created at most once, and the profile
        is written exactly when the shape pipeline is loaded. */
    ghost predicate Valid()
      reads this
    {
      && (remove.Some? <==> newSession.Some?)
      && (remove.Some? ==> rembgInstalled && remove == Some(RembgRemove) && newSession == Some(RembgNewSession))
      && (rembgSession.Some? ==> rembgInstalled && rembgSession == Some(Session(U2Net)))
      && sessionsCreated == (if rembgSession.Some? then 1 else 0)
      && (shapePipeline.None? ==> shapeLoads == 0 && profileSetting.None?)
      && (shapePipeline.Some? ==> shapePipeline == Some(Shape) && shapeLoads == 1 && profileSetting.Some?)
      && (paintPipeline.None? ==> paintLoads == 0)
      && (paintPipeline.Some? ==> paintPipeline == Some(Paint) && paintLoads == 1)
    }

    /** A fresh worker: every global is unbound and no profile was written. */
    constructor(rembgInstalled: bool)
      ensures Valid()
      ensures this.rembgInstalled == rembgInstalled
      ensures remove.None? && rembgSession.None? && shapePipeline.None? && paintPipeline.None?
      ensures profileSetting.None? && generations == []
    {
      this.rembgInstalled := rembgInstalled;
      remove, newSession, rembgSession := None, None, None;
      shapePipeline, paintPipeline, profileSetting := None, None, None;
      shapeLoads, paintLoads, sessionsCreated := 0, 0, 0;
      generations := [];
    }

    /** `lazy_import`: rebinds `remove` and `new_session` on every call, to
        rembg's functions when it is installed and to `None` otherwise. */
    method LazyImport()
      requires Valid()
      modifies this`remove, this`newSession
      ensures Valid()
      ensures remove.Some? <==> rembgInstalled
    {
      if rembgInstalled {
        remove, newSession := Some(RembgRemove), Some(RembgNewSession);
      } else {
        remove, newSession := None, None;
      }
    }

    /** `remove_background`: without rembg the image comes back unchanged;
        with it, the u2net session is created only while none is cached and
        the image is cut out with it. */
    method RemoveBackground(image: Picture) returns (out: Picture)
      requires Valid()
      modifies this`remove, this`newSession, this`rembgSession, this`sessionsCreated
      ensures Valid()
      ensures remove.Some? <==> rembgInstalled
      ensures !rembgInstalled ==> out == image && rembgSession == old(rembgSession)
      ensures rembgInstalled ==>
                rembgSession == Some(Session(U2Net)) && out == Cutout(image, Session(U2Net))
      ensures old(rembgSession).Some? ==> sessionsCreated == old(sessionsCreated)
    {
      LazyImport();
      if remove.None? {
        return image;
      }
      if rembgSession.None? {
        rembgSession := Some(Session(U2Net));
        sessionsCreated := sessionsCreated + 1;
      }
      out := Cutout(image, rembgSession.value);
    }

    /** `load_models(generate_texture, profile)`: the profile is written and
        the shape pipeline loaded only while it is unbound, so a later call
        with another profile changes neither; the paint pipeline is loaded
        only when texturing is asked for and it is not cached. */
    method LoadModels(generateTexture: bool, profile: int) returns (shape: Pipeline, paint: Option<Pipeline>)
      requires Valid()
      modifies this`shapePipeline, this`paintPipeline, this`profileSetting, this`shapeLoads, this`paintLoads
      ensures Valid()
      ensures shapePipeline == Some(shape) && shape == Shape && paint == paintPipeline
      ensures old(shapePipeline).None? ==> profileSetting == Some(profile) && shapeLoads == old(shapeLoads) + 1
      ensures old(shapePipeline).Some? ==> profileSetting == old(profileSetting) && shapeLoads == old(shapeLoads)
      ensures generateTexture ==> paintPipeline == Some(Paint)
      ensures !generateTexture || old(paintPipeline).Some? ==>
                paintPipeline == old(paintPipeline) && paintLoads == old(paintLoads)
      ensures generateTexture && old(paintPipeline).None? ==> paintLoads == old(paintLoads) + 1
    {
      if shapePipeline.None? {
        profileSetting := Some(profile);
        shapePipeline := Some(Shape);
        shapeLoads := shapeLoads + 1;
      }
      if generateTexture && paintPipeline.None? {
        paintPipeline := Some(Paint);
        paintLoads := paintLoads + 1;
      }
      shape, paint := shapePipeline.value, paintPipeline;
    }

    /** The image the shape pipeline receives for normalised parameters `p`. */
    function PipelineInput(p: Params): Picture
      reads this
    {
      if p.removeBackground && rembgInstalled then Cutout(DecodedFrom(p.image), Session(U2Net))
      else DecodedFrom(p.image)
    }

    /** `handler`: a request rejected by validation or decoding touches no
        global; any other one removes the background when asked, loads the
        pipelines, and textures the mesh exactly when `generate_texture`
        holds. The profile of the first load stays in force. */
    method Handle(q: Request, decoding: Decoding, outcome: Outcome<()>) returns (d: Dict)
      requires Valid()
      modifies this
      ensures Valid()
      ensures d == Respond(q, decoding, outcome)
      ensures !ReachesGeneration(q, decoding) ==> unchanged(this)
      ensures ReachesGeneration(q, decoding) ==>
                var p := Normalize(q).params;
                && shapePipeline == Some(Shape) && shapeLoads == 1
                && profileSetting == (if old(shapePipeline).None? then Some(p.profile) else old(profileSetting))
                && (p.generateTexture ==> paintPipeline == Some(Paint))
                && (!p.generateTexture ==> paintPipeline == old(paintPipeline))
                && rembgSession == (if p.removeBackground && rembgInstalled then Some(Session(U2Net))
                                    else old(rembgSession))
                && (p.removeBackground ==> (remove.Some? <==> rembgInstalled))
                && (!p.removeBackground ==> remove == old(remove) && newSession == old(newSession))
                && generations == old(generations) + [GenerationCall(PipelineInput(p), p.generateTexture)]
    {
      var n := Normalize(q);
      if !n.Accepted? || !decoding.Decoded? {
        return Respond(q, decoding, outcome);
      }
      Generate(n.params);
      d := Respond(q, decoding, outcome);
    }

    /** The stateful part of `handler` once validation and decoding passed:
        background removal when asked, loading the pipelines, and the run. */
    method Generate(p: Params)
      requires Valid()
      modifies this
      ensures Valid()
      ensures shapePipeline == Some(Shape) && shapeLoads == 1
      ensures profileSetting == (if old(shapePipeline).None? then Some(p.profile) else old(profileSetting))
      ensures p.generateTexture ==> paintPipeline == Some(Paint)
      ensures !p.generateTexture ==> paintPipeline == old(paintPipeline)
      ensures rembgSession == (if p.removeBackground && rembgInstalled then Some(Session(U2Net))
                               else old(rembgSession))
      ensures p.removeBackground ==> (remove.Some? <==> rembgInstalled)
      ensures !p.removeBackground ==> remove == old(remove) && newSession == old(newSession)
      ensures generations == old(generations) + [GenerationCall(PipelineInput(p), p.generateTexture)]
    {
      var image := DecodedFrom(p.image);
      if p.removeBackground {
        image := RemoveBackground(image);
      }
      assert image == PipelineInput(p);
      var shape, paint := LoadModels(p.generateTexture, p.profile);
      assert AppliesTexture(p.generateTexture, paint) == p.generateTexture;
      generations := generations + [GenerationCall(image, p.generateTexture)];
    }
  }

  /** Two requests in a row on a fresh worker: the profile written by the
      first load stays in force whatever profile the second request asks for. */
  method ProfileOfFirstLoadStays(installed: bool, first: Request, second: Request, outcome: Outcome<()>)
    returns (written: Option<int>)
    requires Normalize(first).Accepted?
    ensures written == Some(Normalize(first).params.profile)
    ensures MinProfile <= written.value <= MaxProfile
  {
    var w := new Worker(installed);
    var d1 := w.Handle(first, Decoded, outcome);
    var d2 := w.Handle(second, Decoded, outcome);
    written := w.profileSetting;
  }
}
