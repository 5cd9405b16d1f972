/** The SF3D (Stable Fast 3D) worker handler: request normalisation, the
    square padding of the foreground before inference, the response
    dictionary, and the module globals it fills lazily once per worker. */
module Sf3dHandler {
  import opened HandlerCommon

  const RemeshOptions: set<string> := {"none", "triangle", "quad"}
  const DefaultRemesh: string := "none"
  const DefaultTextureResolution: int := 1024
  const MinTextureResolution: int := 512
  const MaxTextureResolution: int := 2048
  const OomAdvice: string := "GPU out of memory. Try a lower texture_resolution (512 or 1024)."

  // ---------------------------------------------------- request parameters

  /** The request's `input` mapping, typed: the image text, each numeric
      option as `float()` or `int()` left it, and the string option as the
      text before `.lower()`. */
  datatype Request = Request(
    image: Option<string>,
    foregroundRatio: Field<real>,
    textureResolution: Field<int>,
    remeshOption: Field<string>)

  datatype Params = Params(
    image: string,
    foregroundRatio: real,
    textureResolution: int,
    remeshOption: string)

  /** The ranges the handler guarantees before any work starts. */
  predicate ValidParams(p: Params)
  {
    && p.image != ""
    && 0.5 <= p.foregroundRatio <= 1.0
    && MinTextureResolution <= p.textureResolution <= MaxTextureResolution
    && p.remeshOption in RemeshOptions
  }

  /** `input_data.get("remesh_option", "none").lower()`. */
  function LoweredRemesh(q: Request): string
    requires !q.remeshOption.Unconvertible?
  {
    Lower(Read(q.remeshOption, DefaultRemesh))
  }

  /** Parameter extraction and validation of `handler`: the conversions run
      first, in source order, then the image check, then the clamps. */
  function Normalize(q: Request): (r: Normalized<Params>)
    ensures r.ConversionFailed? <==>
      q.foregroundRatio.Unconvertible? || q.textureResolution.Unconvertible? || q.remeshOption.Unconvertible?
    ensures q.foregroundRatio.Unconvertible? ==> r == ConversionFailed(q.foregroundRatio.message)
    ensures !q.foregroundRatio.Unconvertible? && q.textureResolution.Unconvertible?
            ==> r == ConversionFailed(q.textureResolution.message)
    ensures !q.foregroundRatio.Unconvertible? && !q.textureResolution.Unconvertible? && q.remeshOption.Unconvertible?
            ==> r == ConversionFailed(q.remeshOption.message)
    ensures r.MissingImage? <==> !r.ConversionFailed? && ImageMissing(q.image)
    ensures r.Accepted? ==> ValidParams(r.params) && q.image == Some(r.params.image)
    ensures r.Accepted? && q.foregroundRatio.Given? && 0.5 <= q.foregroundRatio.value <= 1.0
            ==> r.params.foregroundRatio == q.foregroundRatio.value
    ensures r.Accepted? && !(q.foregroundRatio.Given? && 0.5 <= q.foregroundRatio.value <= 1.0)
            ==> r.params.foregroundRatio == DefaultForegroundRatio
    ensures r.Accepted? && q.textureResolution.Absent? ==> r.params.textureResolution == DefaultTextureResolution
    ensures r.Accepted? && q.textureResolution.Given? ==>
            var t := q.textureResolution.value;
            && (MinTextureResolution <= t <= MaxTextureResolution ==> r.params.textureResolution == t)
            && (t < MinTextureResolution ==> r.params.textureResolution == MinTextureResolution)
            && (t > MaxTextureResolution ==> r.params.textureResolution == MaxTextureResolution)
    ensures r.Accepted? && LoweredRemesh(q) in RemeshOptions ==> r.params.remeshOption == LoweredRemesh(q)
    ensures r.Accepted? && LoweredRemesh(q) !in RemeshOptions ==> r.params.remeshOption == DefaultRemesh
  {
    if q.foregroundRatio.Unconvertible? then ConversionFailed(q.foregroundRatio.message)
    else if q.textureResolution.Unconvertible? then ConversionFailed(q.textureResolution.message)
    else if q.remeshOption.Unconvertible? then ConversionFailed(q.remeshOption.message)
    else if ImageMissing(q.image) then MissingImage
    else
      Accepted(Params(
        q.image.value,
        ClampRatio(Read(q.foregroundRatio, DefaultForegroundRatio)),
        Clamp(MinTextureResolution, MaxTextureResolution, Read(q.textureResolution, DefaultTextureResolution)),
        Snap(LoweredRemesh(q), RemeshOptions, DefaultRemesh)))
  }

  /** The request that spells out normalised parameters. */
  function Resubmit(p: Params): Request
  {
    Request(Some(p.image), Given(p.foregroundRatio), Given(p.textureResolution), Given(p.remeshOption))
  }

  /** Normalising is idempotent: parameters that passed through the handler
      once pass through again unchanged. */
  lemma NormalizeIdempotent(q: Request)
    requires Normalize(q).Accepted?
    ensures Normalize(Resubmit(Normalize(q).params)) == Normalize(q)
  {
    var p := Normalize(q).params;
    var q' := Resubmit(p);
    RemeshOptionsAreLower(p.remeshOption);
    assert LoweredRemesh(q') == p.remeshOption;
    assert Normalize(q') == Accepted(Params(
      p.image,
      ClampRatio(p.foregroundRatio),
      Clamp(MinTextureResolution, MaxTextureResolution, p.textureResolution),
      Snap(p.remeshOption, RemeshOptions, DefaultRemesh)));
  }

  /** Every whitelisted remesh option is already lower-case. */
  lemma RemeshOptionsAreLower(o: string)
    requires o in RemeshOptions
    ensures Lower(o) == o
  {
    RemeshOptionsHaveNoUpper(o);
    LowerOfLower(o);
  }

  /** The whitelisted remesh options are written in lower case. */
  lemma RemeshOptionsHaveNoUpper(o: string)
    requires o in RemeshOptions
    ensures NoUpper(o)
  {
  }

  /** The `remesh` argument of `run_image`: no remeshing for "none". */
  function RemeshArgument(option: string): (a: Option<string>)
    ensures a.None? <==> option == DefaultRemesh
    ensures option != DefaultRemesh ==> a == Some(option)
  {
    if option != DefaultRemesh then Some(option) else None
  }

  // -------------------------------------------------- foreground geometry

  /** A PIL bounding box `(left, upper, right, lower)`. */
  datatype Box = Box(left: int, upper: int, right: int, lower: int)

  /** The geometry of the background-removed image: its size, whether its
      mode is RGBA, and what `getbbox()` of its alpha band returns. */
  datatype Layer = Layer(width: nat, height: nat, rgba: bool, alphaBox: Option<Box>)

  /** What `getbbox()` can return: nothing, or a non-empty box inside the image. */
  predicate WellFormedLayer(l: Layer)
  {
    l.alphaBox.Some? ==>
      var b := l.alphaBox.value;
      0 <= b.left < b.right <= l.width && 0 <= b.upper < b.lower <= l.height
  }

  /** The size of the image after the optional crop to its alpha bounding box. */
  function ForegroundSize(l: Layer): (size: (nat, nat))
    requires WellFormedLayer(l)
    ensures size.0 <= l.width && size.1 <= l.height
    ensures l.rgba && l.alphaBox.Some? ==> 0 < size.0 && 0 < size.1
    ensures l.rgba && l.alphaBox.Some? ==>
            var b := l.alphaBox.value;
            size == (b.right - b.left, b.lower - b.upper)
    ensures !(l.rgba && l.alphaBox.Some?) ==> size == (l.width, l.height)
  {
    if l.rgba && l.alphaBox.Some? then
      var b := l.alphaBox.value;
      (b.right - b.left, b.lower - b.upper)
    else (l.width, l.height)
  }

  /** The square canvas `resize_foreground` creates and where it pastes the
      foreground of size `width` x `height`. */
  datatype Placement = Placement(side: int, offsetX: int, offsetY: int, width: nat, height: nat)

  /** `resize_foreground(image, ratio)`: the side is `int(max(size) / ratio)`,
      here the floor of the exact quotient (Python divides in IEEE doubles,
      which can put the side one pixel lower), and each offset is
      `(side - dimension) // 2`, a floor division. */
  function ResizeForeground(l: Layer, ratio: real): (p: Placement)
    requires WellFormedLayer(l)
    requires ratio > 0.0
    ensures (p.width, p.height) == ForegroundSize(l)
    ensures 0 <= p.side
    ensures p.side as real <= Max(p.width, p.height) as real / ratio < p.side as real + 1.0
    ensures 2 * p.offsetX <= p.side - p.width < 2 * p.offsetX + 2
    ensures 2 * p.offsetY <= p.side - p.height < 2 * p.offsetY + 2
  {
    var (w, h) := ForegroundSize(l);
    var quotient := Max(w, h) as real / ratio;
    assert quotient * ratio == Max(w, h) as real;
    assert 0.0 <= quotient;
    var side := quotient.Floor;
    Placement(side, (side - w) / 2, (side - h) / 2, w, h)
  }

  /** For a quotient of a non-negative `m` by a ratio in [0.5, 1.0], the floor
      lies between `m` and `2 * m`. */
  lemma FloorOfScaled(m: nat, ratio: real)
    requires 0.5 <= ratio <= 1.0
    ensures m <= (m as real / ratio).Floor <= 2 * m
  {
    var q := m as real / ratio;
    assert q * ratio == m as real;
    assert q >= 0.0;
    ProductNonnegative(q, 1.0 - ratio);
    assert q * (1.0 - ratio) == q - q * ratio;
    assert m as real <= q;
    ProductNonnegative(q, ratio - 0.5);
    assert q * (ratio - 0.5) == q * ratio - q * 0.5;
    assert q <= 2.0 * m as real;
  }

  lemma ProductNonnegative(a: real, b: real)
    requires 0.0 <= a && 0.0 <= b
    ensures 0.0 <= a * b
  {
  }

  /** With the normalised ratio the pasted foreground fits the square: the side
      is between the larger dimension and twice it, both offsets are
      non-negative, the foreground ends inside the canvas on each axis, and the
      margin after it is the margin before it or one pixel more. */
  lemma PasteFits(l: Layer, ratio: real)
    requires WellFormedLayer(l)
    requires 0.5 <= ratio <= 1.0
    ensures var p := ResizeForeground(l, ratio);
            && Max(p.width, p.height) <= p.side <= 2 * Max(p.width, p.height)
            && 0 <= p.offsetX && p.offsetX + p.width <= p.side
            && 0 <= p.offsetY && p.offsetY + p.height <= p.side
            && 0 <= (p.side - p.offsetX - p.width) - p.offsetX <= 1
            && 0 <= (p.side - p.offsetY - p.height) - p.offsetY <= 1
  {
    var (w, h) := ForegroundSize(l);
    FloorOfScaled(Max(w, h), ratio);
  }

  // ---------------------------------------------------------------- results

  const SuccessKeys: set<string> := {"model_base64", "file_size", "format", "texture_resolution", "execution_time"}

  /** The handler gets past validation and decoding and starts the work that
      fills the caches. */
  predicate ReachesGeneration(q: Request, decoding: Decoding)
  {
    Normalize(q).Accepted? && decoding.Decoded?
  }

  function SuccessDict(p: Params, data: seq<bv8>, base64: string, elapsed: real): Dict
  {
    map[
      "model_base64" := Str(base64),
      "file_size" := Int(|data|),
      "format" := Str("glb"),
      "texture_resolution" := Int(p.textureResolution),
      "execution_time" := Real(elapsed)]
  }

  /** The dictionary `handler` returns, given how decoding and the foreign
      stages after it ended. */
  function Respond(q: Request, decoding: Decoding, outcome: Outcome<()>): (d: Dict)
    ensures "error" in d <==> !(ReachesGeneration(q, decoding) && outcome.Produced?)
    ensures Normalize(q).MissingImage? ==> d == ErrorDict(NoImageMessage)
    ensures Normalize(q).ConversionFailed? ==> d == ClassifyMessage(Normalize(q).message, OomAdvice)
    ensures Normalize(q).Accepted? && decoding.DecodeFailed?
            ==> d == ErrorDict(DecodeFailedPrefix + decoding.message)
    ensures ReachesGeneration(q, decoding) && outcome.Raised?
            ==> d == ClassifyMessage(outcome.error.message, OomAdvice)
    ensures ReachesGeneration(q, decoding) && outcome.Produced? ==>
            && d.Keys == SuccessKeys
            && d["model_base64"] == Str(outcome.base64)
            && d["file_size"] == Int(|outcome.data|)
            && d["format"] == Str("glb")
            && d["texture_resolution"] == Int(Normalize(q).params.textureResolution)
            && MinTextureResolution <= Normalize(q).params.textureResolution <= MaxTextureResolution
            && d["execution_time"] == Real(outcome.elapsed)
  {
    match Normalize(q)
    case ConversionFailed(message) => ClassifyMessage(message, OomAdvice)
    case MissingImage => ErrorDict(NoImageMessage)
    case Accepted(p) =>
      match decoding
      case DecodeFailed(message) => ErrorDict(DecodeFailedPrefix + message)
      case Decoded =>
        match outcome
        case Raised(e) => ClassifyMessage(e.message, OomAdvice)
        case Produced(_, data, base64, elapsed) => SuccessDict(p, data, base64, elapsed)
  }

  // ------------------------------------------------------ worker globals

  const Sf3dClass: Import := Import("sf3d.system.SF3D")
  const RembgRemove: Import := Import("rembg.remove")
  const RembgNewSession: Import := Import("rembg.new_session")

  /** Weights loaded by `SF3D.from_pretrained`. */
  datatype Model = Pretrained(repo: string, configName: string, weightName: string)

  const Sf3dWeights: Model := Pretrained("stabilityai/stable-fast-3d", "config.yaml", "model.safetensors")

  /** One call of `run_image`: the padded image and the arguments passed. */
  datatype RunImageCall = RunImageCall(image: Picture, padding: Placement, bakeResolution: int, remesh: Option<string>)

  /** The module globals of one worker process (`SF3D`, `remove`,
      `new_session`, `model`, `rembg_session`), with ghost counters of how
      often each was filled and a log of the inference calls. */
  class Worker {
    var sf3d: Option<Import>
    var remove: Option<Import>
    var newSession: Option<Import>
    var model: Option<Model>
    var rembgSession: Option<Session>
    ghost var imports: nat
    ghost var modelLoads: nat
    ghost var sessionsCreated: nat
    ghost var runs: seq<RunImageCall>

    /** Each global is bound at most once, to what its loader produces; a
        session is created at most twice over the worker's life. */
    ghost predicate Valid()
      reads this
    {
      && (sf3d.None? ==> remove.None? && newSession.None? && imports == 0)
      && (sf3d.Some? ==>
            sf3d == Some(Sf3dClass) && remove == Some(RembgRemove)
            && newSession == Some(RembgNewSession) && imports == 1)
      && (model.None? ==> modelLoads == 0)
      && (model.Some? ==> model == Some(Sf3dWeights) && modelLoads == 1 && sf3d.Some? && rembgSession.Some?)
      && (rembgSession.None? ==> sessionsCreated == 0)
      && (rembgSession.Some? ==> rembgSession == Some(Session(U2Net)) && sf3d.Some?)
      && sessionsCreated <= modelLoads + 1
    }

    /** A fresh worker: every global is `None`. */
    constructor()
      ensures Valid()
      ensures sf3d.None? && model.None? && rembgSession.None? && runs == []
    {
      sf3d, remove, newSession := None, None, None;
      model, rembgSession := None, None;
      imports, modelLoads, sessionsCreated := 0, 0, 0;
      runs := [];
    }

    /** `lazy_import`: binds `SF3D`, `remove` and `new_session` when `SF3D` is
        still unbound, and does nothing afterwards. */
    method LazyImport()
      requires Valid()
      modifies this`sf3d, this`remove, this`newSession, this`imports
      ensures Valid()
      ensures sf3d == Some(Sf3dClass)
      ensures old(sf3d).Some? ==> imports == old(imports)
      ensures old(sf3d).None? ==> imports == old(imports) + 1
    {
      if sf3d.None? {
        sf3d, remove, newSession := Some(Sf3dClass), Some(RembgRemove), Some(RembgNewSession);
        imports := imports + 1;
      }
    }

    /** `load_model`: loads the weights when `model` is unbound and then also
        (re)creates the u2net session; later calls return the cached model. */
    method LoadModel() returns (m: Model)
      requires Valid()
      modifies this`sf3d, this`remove, this`newSession, this`imports
      modifies this`model, this`modelLoads, this`rembgSession, this`sessionsCreated
      ensures Valid()
      ensures model == Some(m) && m == Sf3dWeights
      ensures old(model).Some? ==>
                rembgSession == old(rembgSession) && modelLoads == old(modelLoads)
                && sessionsCreated == old(sessionsCreated)
      ensures old(model).None? ==>
                modelLoads == old(modelLoads) + 1 && sessionsCreated == old(sessionsCreated) + 1
    {
      LazyImport();
      if model.None? {
        model := Some(Sf3dWeights);
        modelLoads := modelLoads + 1;
        rembgSession := Some(Session(U2Net));
        sessionsCreated := sessionsCreated + 1;
      }
      m := model.value;
    }

    /** `remove_background`: creates the u2net session only while none is
        cached, and cuts the image out with the cached one. */
    method RemoveBackground(image: Picture) returns (out: Picture)
      requires Valid()
      modifies this`sf3d, this`remove, this`newSession, this`imports, this`rembgSession, this`sessionsCreated
      ensures Valid()
      ensures rembgSession == Some(Session(U2Net)) && out == Cutout(image, Session(U2Net))
      ensures old(rembgSession).Some? ==> sessionsCreated == old(sessionsCreated)
      ensures old(rembgSession).None? ==> sessionsCreated == old(sessionsCreated) + 1
    {
      LazyImport();
      if rembgSession.None? {
        rembgSession := Some(Session(U2Net));
        sessionsCreated := sessionsCreated + 1;
      }
      out := Cutout(image, rembgSession.value);
    }

    /** `handler`: a request rejected by validation or decoding touches no
        global; any other request removes the background, pads the cut-out,
        loads the model and runs it once. On the first such request the u2net
        session is created twice, by `remove_background` and again by
        `load_model`; afterwards never. `cutout` is the geometry of the image
        rembg returns. */
    method Handle(q: Request, decoding: Decoding, cutout: Layer, outcome: Outcome<()>) returns (d: Dict)
      requires Valid()
      requires WellFormedLayer(cutout)
      modifies this
      ensures Valid()
      ensures d == Respond(q, decoding, outcome)
      ensures !ReachesGeneration(q, decoding) ==> unchanged(this)
      ensures ReachesGeneration(q, decoding) ==>
                var p := Normalize(q).params;
                && model == Some(Sf3dWeights) && rembgSession == Some(Session(U2Net))
                && modelLoads == 1
                && sessionsCreated == old(sessionsCreated)
                     + (if old(rembgSession).None? then 1 else 0) + (if old(model).None? then 1 else 0)
                && runs == old(runs) + [RunImageCall(
                     Cutout(DecodedFrom(p.image), Session(U2Net)),
                     ResizeForeground(cutout, p.foregroundRatio),
                     p.textureResolution,
                     RemeshArgument(p.remeshOption))]
    {
      var n := Normalize(q);
      if !n.Accepted? || !decoding.Decoded? {
        return Respond(q, decoding, outcome);
      }
      var p := n.params;
      var image := RemoveBackground(DecodedFrom(p.image));
      var padding := ResizeForeground(cutout, p.foregroundRatio);
      var sf3dModel := LoadModel();
      runs := runs + [RunImageCall(image, padding, p.textureResolution, RemeshArgument(p.remeshOption))];
      d := Respond(q, decoding, outcome);
    }
  }

  /** Two requests in a row on a fresh worker: the model is loaded once, and
      the u2net session is created twice, both times during the first request. */
  method TwoRequests(first: Request, second: Request, cutout: Layer, outcome: Outcome<()>)
    returns (ghost loads: nat, ghost sessions: nat)
    requires Normalize(first).Accepted? && Normalize(second).Accepted?
    requires WellFormedLayer(cutout)
    ensures loads == 1 && sessions == 2
  {
    var w := new Worker();
    var d1 := w.Handle(first, Decoded, cutout, outcome);
    assert w.sessionsCreated == 2;
    var d2 := w.Handle(second, Decoded, cutout, outcome);
    loads, sessions := w.modelLoads, w.sessionsCreated;
  }
}
