# 3D-generation worker handlers, modelled in Dafny

The repository runs three serverless GPU workers: SF3D (Stable Fast 3D), TripoSR and
Hunyuan3D-2. Each one turns an `{"input": {...}}` event into a response dictionary. That
dictionary holds either a base64 mesh with some statistics, or an `{"error": ...}` message.
Most of each handler calls ML libraries. This project models the exact logic around those calls:

- **Request normalisation.** The image is required. Numeric options are clamped
  (`texture_resolution`, `profile`), snapped to an allowed set (`mc_resolution`) or replaced
  by a default (`foreground_ratio`). String options are lowercased and whitelisted
  (`remesh_option`, `output_format`).
- **SF3D foreground padding.** `resize_foreground` computes a square side and integer centre
  offsets.
- **Result shaping and error classification.** This covers the keys of the success
  dictionary, TripoSR's large-file warning, the export suffix and file type, and how an
  exception becomes the out-of-memory advice or the generic `Generation failed: ` message.
- **The worker's lazily filled module globals.** These are the imported names, the models and
  pipelines and the rembg session, plus the `HY3D_PROFILE` value Hunyuan3D writes. Each
  handler becomes a `Worker` class whose fields are these. Ghost counters record how often
  each model, pipeline and session was loaded.

Files: `common.dfy` (module `HandlerCommon`, shared definitions), `sf3d.dfy`
(`Sf3dHandler`), `triposr.dfy` (`TripoSrHandler`), `hunyuan.dfy` (`Hunyuan3dHandler`).

Modelling decisions:

- A request is a typed record. Each option is a `Field`: absent (the default applies), a
  converted value, or `Unconvertible(message)`. The last stands for `float()`, `int()` or
  `.lower()` raising. In the source these conversions run *before* the image check, so a
  conversion failure wins over a missing image. It then reaches the outer `except` like any
  other exception.
- Foreign stages are inputs to the model, not computations. These are base64 decoding with
  PIL (`Decoding`), the pixel geometry rembg leaves (`Layer`) and everything after the caches
  are filled: inference, export, file reading and base64 encoding (`Outcome`). TripoSR's
  `preprocess_image` runs before its model is loaded and can raise on its own
  (`Preprocessing`): its `Image.open` reads only the header, so pixel data that does not
  decode first fails there. Images are
  terms over the foreign calls (`DecodedFrom`, `Cutout`). Loaded models are values naming
  what `from_pretrained` was given.
- `Lower` lowercases ASCII letters only. For the decisions the handlers make, this matches
  Python's `str.lower()`. Those decisions are membership in `{none, triangle, quad}` or
  `{glb, obj}` and the substring test for `out of memory`. The only non-ASCII characters that
  Python lowercases to ASCII letters are U+0130 and U+212A. Neither can make those tests
  succeed.
- Each `Worker.Handle` is proved equal to a pure `Respond` function. It also states the
  cache effects: a request rejected by validation or decoding changes nothing. Its ghost log
  records the arguments of each inference run.
- As written, SF3D creates the u2net session twice on the first request that reaches
  inference. `remove_background` creates it, and then `load_model` creates it again.
  `Sf3dHandler.TwoRequests` shows that two requests on a fresh worker load the model once
  and create the session twice.
- Where the docstrings and the code disagree, the model follows the code. SF3D's docstring
  lists `texture_resolution` as 512, 1024 or 2048, but the code clamps it to the range
  [512, 2048]. TripoSR's docstring promises a `model_url` for files over 5 MB, but the code
  returns base64 with a `warning`.
- The repository also contains client-side job submission and polling code. That code is not
  part of this model.

## Model

| member | source | states |
|---|---|---|
| HandlerCommon.ClampRatio | runpod-handler-sf3d/handler.py:155-156 | the ratio ends in [0.5, 1.0]; values inside are kept, values outside become 0.85 |
| HandlerCommon.Clamp | runpod-handler-sf3d/handler.py:159 | `max(lo, min(hi, x))` lies in [lo, hi], keeps in-range values and maps below/above to lo/hi |
| HandlerCommon.Snap | runpod-handler/handler.py:152-156 | membership snapping: members are kept, every non-member becomes the fallback |
| HandlerCommon.LowerChar | runpod-handler-sf3d/handler.py:148 | an upper-case ASCII letter becomes the letter 32 code points above it (its lower-case form); the result is never upper-case; other characters are kept |
| HandlerCommon.Lower | runpod-handler-sf3d/handler.py:148 | `.lower()` keeps the length and lowercases every position |
| HandlerCommon.ContainsIffOccurs | runpod-handler-sf3d/handler.py:233 | the `in` test on strings holds exactly when the needle occurs at some index |
| HandlerCommon.LowerKeepsOccurrence | runpod-handler-sf3d/handler.py:233 | an occurrence at index i survives lowercasing both strings |
| HandlerCommon.ClassifyMessage | runpod-handler-sf3d/handler.py:233-235 | an error dict whose text is the OOM advice when the lowercased message contains "out of memory", else "Generation failed: " + message |
| HandlerCommon.ClassifyMessageOccurrence | runpod-handler-hunyuan3d/handler.py:204-206 | "out of memory" in any case anywhere in the message selects the advice; a message with no such occurrence gets the generic text |
| Sf3dHandler.Normalize | runpod-handler-sf3d/handler.py:143-163 | conversion failures first, and the first failing of foreground_ratio, texture_resolution, remesh_option (source order) supplies the message; then missing/empty image gives exactly MissingImage; accepted parameters have ratio in [0.5, 1.0] (kept in range, else 0.85), texture resolution in [512, 2048] (kept in range, default 1024, clamped outside) and remesh option lowercased and in {none, triangle, quad}, else none |
| Sf3dHandler.NormalizeIdempotent | runpod-handler-sf3d/handler.py:154-163 | normalised parameters resubmitted normalise to themselves |
| Sf3dHandler.RemeshArgument | runpod-handler-sf3d/handler.py:193 | "none", and only "none", is passed as no remeshing; every other option is passed through unchanged |
| Sf3dHandler.ForegroundSize | runpod-handler-sf3d/handler.py:104-112 | for an RGBA image with an alpha bounding box the size is the box's extent (non-empty, never larger than the image); otherwise the full image size |
| Sf3dHandler.ResizeForeground | runpod-handler-sf3d/handler.py:112-119 | the side is the floor of the exact quotient max(w, h) / ratio and each offset the floor of half the slack |
| Sf3dHandler.FloorOfScaled | runpod-handler-sf3d/handler.py:113 | for a ratio in [0.5, 1.0], `int(m / ratio)` lies in [m, 2m] |
| Sf3dHandler.PasteFits | runpod-handler-sf3d/handler.py:112-120 | with the normalised ratio, max(w, h) <= side <= 2 max(w, h), offsets are non-negative, the foreground ends inside the square, and the right/bottom margin equals the left/top margin or exceeds it by one |
| Sf3dHandler.Respond | runpod-handler-sf3d/handler.py:139-235 | the dict has "error" unless validation, decoding and generation all succeed; missing image gives exactly the no-image error; decode failures get "Failed to decode image: "; exceptions are classified by message; success has exactly model_base64, file_size (= byte length), format "glb", texture_resolution (the clamped value) and execution_time |
| Sf3dHandler.Worker.constructor | runpod-handler-sf3d/handler.py:27-32 | a fresh worker has every global unbound |
| Sf3dHandler.Worker.LazyImport | runpod-handler-sf3d/handler.py:35-63 | SF3D, remove and new_session are bound on the first call and never again |
| Sf3dHandler.Worker.LoadModel | runpod-handler-sf3d/handler.py:66-87 | the model is loaded only while unbound (at most once per worker) and then the session is (re)created; later calls return the cached model |
| Sf3dHandler.Worker.RemoveBackground | runpod-handler-sf3d/handler.py:90-96 | the u2net session is created only while none is cached and the image is cut out with it |
| Sf3dHandler.Worker.Handle | runpod-handler-sf3d/handler.py:125-226 | returns Respond; rejected requests leave every global unchanged; otherwise model and session are bound, sessions created grow by one per empty cache, and run_image is called once with the padded cut-out, the clamped bake resolution and the remesh argument |
| Sf3dHandler.TwoRequests | runpod-handler-sf3d/handler.py:66-96 | two accepted requests on a fresh worker load the model once and create the u2net session twice |
| TripoSrHandler.Normalize | runpod-handler/handler.py:138-156 | conversion failures first, and the first failing of foreground_ratio, mc_resolution, output_format (source order) supplies the message; then missing/empty image gives exactly MissingImage; accepted ratio in [0.5, 1.0] (kept in range, else 0.85); mc_resolution kept when in {128, 256, 512}, else 256; output_format lowercased and kept when glb/obj, else glb |
| TripoSrHandler.NormalizeIdempotent | runpod-handler/handler.py:149-156 | normalised parameters resubmitted normalise to themselves |
| TripoSrHandler.ExportMesh | runpod-handler/handler.py:103-117 | file type glb exactly when the format is "glb", obj otherwise; a temporary file's suffix is "." + file type; a given path is used as is |
| TripoSrHandler.SuccessDict | runpod-handler/handler.py:196-221 | "warning" is present iff file_size >= 5 MiB; all other keys (model_base64, file_size, vertices, faces, format, execution_time) are the same in both branches; vertices/faces are the mesh list lengths |
| TripoSrHandler.Classify | runpod-handler/handler.py:223-231 | the CUDA out-of-memory exception type gets the fixed advice; every other exception "Generation failed: " + message |
| TripoSrHandler.Respond | runpod-handler/handler.py:134-231 | "error" unless all stages succeed; missing image gives the no-image error; conversion failures always get the generic message; an exception from preprocessing is classified by type like one from generation; success is SuccessDict and its format is the exported file type |
| TripoSrHandler.Worker.constructor | runpod-handler/handler.py:36-37 | a fresh worker has no model |
| TripoSrHandler.Worker.LoadModel | runpod-handler/handler.py:40-54 | the model is loaded only while unbound, so at most once per worker |
| TripoSrHandler.Worker.Handle | runpod-handler/handler.py:120-221 | returns Respond; requests rejected by validation or decoding, or whose preprocessing raises, change nothing (no model load, no run); otherwise the model is bound (loaded once) and generation runs with the normalised ratio, resolution and the export plan of the normalised format |
| Hunyuan3dHandler.Normalize | runpod-handler-hunyuan3d/handler.py:114-126 | `int(profile)` failure first; then missing/empty image gives exactly MissingImage; accepted profile in [1, 5] (kept in range, default 3, clamped outside); the flags default to true |
| Hunyuan3dHandler.NormalizeIdempotent | runpod-handler-hunyuan3d/handler.py:116-126 | normalised parameters resubmitted normalise to themselves |
| Hunyuan3dHandler.Respond | runpod-handler-hunyuan3d/handler.py:110-206 | "error" unless all stages succeed; missing image gives the no-image error; exceptions are classified by message with the profile advice; success has exactly model_base64, file_size, format "glb", textured (= generate_texture) and execution_time |
| Hunyuan3dHandler.Worker.constructor | runpod-handler-hunyuan3d/handler.py:26-29 | a fresh worker has every global unbound and has written no profile |
| Hunyuan3dHandler.Worker.LazyImport | runpod-handler-hunyuan3d/handler.py:31-41 | remove/new_session are rebound on every call, bound exactly when rembg is installed |
| Hunyuan3dHandler.Worker.RemoveBackground | runpod-handler-hunyuan3d/handler.py:82-93 | `remove` and `new_session` end bound exactly when rembg is installed; without rembg the image is returned unchanged; with it the session is created once and reused |
| Hunyuan3dHandler.Worker.LoadModels | runpod-handler-hunyuan3d/handler.py:44-79 | the profile is written and the shape pipeline loaded only while it is unbound; the paint pipeline is loaded only when texturing is asked for and it is not cached, and a call without texturing leaves it untouched |
| Hunyuan3dHandler.Worker.Handle | runpod-handler-hunyuan3d/handler.py:96-197 | returns Respond; rejected requests change nothing; otherwise the profile of the first load stays, texturing is applied exactly when generate_texture holds, and background removal happens only when asked and rembg is installed; `remove`/`new_session` are rebound (bound exactly when rembg is installed) when removal is asked for and untouched otherwise |
| Hunyuan3dHandler.Worker.Generate | runpod-handler-hunyuan3d/handler.py:139-166 | after decoding: background removal only when asked (remove/new_session rebound, bound exactly when rembg is installed, untouched otherwise), the shape pipeline bound and loaded once, the first load's profile kept, the paint pipeline bound when texturing is asked for and untouched otherwise, and one run logged with the pipeline input and texturing exactly when generate_texture holds |
| Hunyuan3dHandler.ProfileOfFirstLoadStays | runpod-handler-hunyuan3d/handler.py:48-54 | after two requests on a fresh worker the written profile is the first request's clamped profile |

## Left out

- All ML inference: `SF3D.run_image`, TripoSR's model call and `extract_mesh`, the Hunyuan3D pipelines, and torch `no_grad`/`autocast`/`.to("cuda")`. Their results and exceptions are one given `Outcome`.
- PIL pixel work and rembg internals: decoding, `convert`, `getbbox`, `crop`, pasting pixels and RGBA-to-RGB compositing. SF3D's padding is modelled on the geometry only, with the alpha bounding box as an input.
- TripoSR's `remove_background` and `resize_foreground` come from `tsr.utils`, which is not part of this model. The handler's own `preprocess_image` (runpod-handler/handler.py:57-80) calls them and composites the result onto white; its pixel work is not modelled, only whether it raised and the ratio it was given.
- Base64 encoding and decoding (section 4 of RFC 4648) are library calls. `model_base64` is the given text of the exported bytes.
- Temporary files, file reads, `os.remove`, `sys.path` and `os.listdir` probing, and logging are I/O.
- `execution_time` is wall-clock time. The response carries the given rounded value.
- `runpod.serverless.start` is serverless plumbing.
- Failures inside the loaders are not modelled. These are `from_pretrained`, `new_session` and `remove` raising, which would leave the caches partly filled. Loaders always succeed, and exceptions come only from the stages after the caches are filled, and in TripoSR also from preprocessing, which runs before the model is loaded.
- Which foreign stage raised is not distinguished. All of them reach the same outer `except`.
- Python coercion details: how `float()`/`int()` parse text, NaN passing the ratio comparisons, the truthiness of a non-string `image`, and non-boolean `generate_texture`/`remove_background` values (echoed raw in `textured`). Inputs are typed. A failed conversion is the single `Unconvertible` case.
- `HandlerCommon.Lower`: does not model Unicode case mapping beyond ASCII letters. This changes no whitelist or out-of-memory decision, as argued above.
- `Sf3dHandler.ResizeForeground`: requires a positive ratio. A ratio of zero or below (a `ZeroDivisionError`, or PIL rejecting a negative size) is not modelled, because the handler only ever passes a normalised ratio.
- `Sf3dHandler.ResizeForeground`: the ratio is a real and the quotient `max(w, h) / ratio` is exact. Python divides in IEEE doubles, and rounding can put `int(...)` one pixel below the exact floor (135 at 0.54 gives 249 in Python, 250 here). The bounds `PasteFits` proves still hold under IEEE division: m / 1.0 and m / 0.5 are exact and division is monotone, so the side stays in [m, 2m], and the offsets are computed from whatever side results.
- A `HY3D_PROFILE` value inherited from the container environment is not modelled. `profileSetting` is only what this worker wrote.
