/** Definitions shared by the three GPU worker handlers: the typed view of a
    request option, the response dictionary, and the range, whitelist and
    string helpers their validation code is built from. */
module HandlerCommon {

  datatype Option<T> = None | Some(value: T)

  /** An exception caught by a handler's outer `except`: whether it is torch's
      `torch.cuda.OutOfMemoryError`, and its `str()`. */
  datatype Exception = Exception(isCudaOom: bool, message: string)

  /** One option read with `input_data.get(key, default)` and passed through
      `float()`, `int()` or `.lower()`: absent (the default applies), converted
      to a value, or the conversion raised (a `ValueError`, `TypeError` or
      `AttributeError` with the given message). */
  datatype Field<T> = Absent | Given(value: T) | Unconvertible(message: string)

  /** The value of a field whose conversion did not raise. */
  function Read<T>(f: Field<T>, default: T): T
    requires !f.Unconvertible?
  {
    if f.Given? then f.value else default
  }

  /** The values a response dictionary holds. */
  datatype Value = Str(s: string) | Int(i: int) | Real(r: real) | Bool(b: bool)

  /** The dictionary a handler returns to the serverless runtime. */
  type Dict = map<string, Value>

  function ErrorDict(message: string): Dict
  {
    map["error" := Str(message)]
  }

  const NoImageMessage: string := "No image provided. Include 'image' key with base64 encoded image."
  const DecodeFailedPrefix: string := "Failed to decode image: "
  const GenerationFailedPrefix: string := "Generation failed: "
  const OutOfMemory: string := "out of memory"

  /** Python's `not image_b64` for an absent or string-valued `image`. */
  predicate ImageMissing(image: Option<string>)
  {
    image.None? || image.value == ""
  }

  /** How a handler's parameter extraction and validation ends: with the
      normalised parameters, with the "no image" error, or with the exception
      a conversion raised (which the outer `except` then classifies). */
  datatype Normalized<P> = Accepted(params: P) | MissingImage | ConversionFailed(message: string)

  /** How decoding the base64 image with PIL ends. */
  datatype Decoding = Decoded | DecodeFailed(message: string)

  /** What the foreign stages after the last cache fill produced: the mesh (for
      the handlers that read statistics from it), the bytes of the exported
      file, the library's base64 text of those bytes and the rounded elapsed
      seconds; or the exception they raised. */
  datatype Outcome<M> = Produced(mesh: M, data: seq<bv8>, base64: string, elapsed: real)
                      | Raised(error: Exception)

  /** A rembg session, created by `new_session(modelName)`. */
  datatype Session = Session(modelName: string)

  const U2Net: string := "u2net"

  /** A module-level name bound by an import statement. */
  datatype Import = Import(qualifiedName: string)

  /** An image as a term over the foreign calls that produced it: decoded from
      the request's base64 text, or cut out by rembg's `remove` with a session. */
  datatype Picture = DecodedFrom(base64: string) | Cutout(source: Picture, session: Session)

  // ---------------------------------------------------------------- ranges

  const DefaultForegroundRatio: real := 0.85

  /** `foreground_ratio` outside [0.5, 1.0] is replaced by 0.85; values inside
      are kept. */
  function ClampRatio(ratio: real): (r: real)
    ensures 0.5 <= r <= 1.0
    ensures 0.5 <= ratio <= 1.0 ==> r == ratio
    ensures ratio < 0.5 || ratio > 1.0 ==> r == DefaultForegroundRatio
  {
    if ratio < 0.5 || ratio > 1.0 then DefaultForegroundRatio else ratio
  }

  function Min(a: int, b: int): int { if a <= b then a else b }
  function Max(a: int, b: int): int { if a <= b then b else a }

  /** Python's `max(lo, min(hi, x))`. */
  function Clamp(lo: int, hi: int, x: int): (r: int)
    ensures lo <= hi ==> lo <= r <= hi
    ensures lo <= x <= hi ==> r == x
    ensures x < lo ==> r == lo
    ensures lo <= hi && hi < x ==> r == hi
  {
    Max(lo, Min(hi, x))
  }

  /** Python's `if x not in allowed: x = fallback`. */
  function Snap<T(==)>(x: T, allowed: set<T>, fallback: T): (r: T)
    ensures x in allowed ==> r == x
    ensures x !in allowed ==> r == fallback
  {
    if x in allowed then x else fallback
  }

  // ---------------------------------------------------------------- strings

  predicate IsUpper(c: char) { 'A' <= c <= 'Z' }

  function LowerChar(c: char): (d: char)
    ensures !IsUpper(d)
    ensures !IsUpper(c) ==> d == c
    ensures IsUpper(c) ==> d as int == c as int + 32
  {
    if IsUpper(c) then (c as int + 32) as char else c
  }

  /** `str.lower()` on the ASCII letters; every other character is kept. */
  function Lower(s: string): (r: string)
    ensures |r| == |s|
    ensures forall i :: 0 <= i < |s| ==> r[i] == LowerChar(s[i])
  {
    if s == [] then [] else [LowerChar(s[0])] + Lower(s[1..])
  }

  /** The string holds no upper-case letter. */
  predicate NoUpper(s: string)
  {
    forall i :: 0 <= i < |s| ==> !IsUpper(s[i])
  }

  /** A string without upper-case letters is its own lowercase. */
  lemma LowerOfLower(s: string)
    requires NoUpper(s)
    ensures Lower(s) == s
  {
    assert forall i :: 0 <= i < |s| ==> Lower(s)[i] == s[i];
  }

  /** `needle` occurs in `s` starting at index `i`. */
  predicate OccursAt(s: string, needle: string, i: int)
  {
    0 <= i && i + |needle| <= |s| && s[i..i + |needle|] == needle
  }

  /** Python's `needle in s` on strings. */
  predicate Contains(s: string, needle: string)
    decreases |s|
  {
    (|needle| <= |s| && s[..|needle|] == needle) || (s != [] && Contains(s[1..], needle))
  }

  /** `Contains` finds exactly the occurrences `OccursAt` describes. */
  lemma {:induction false} ContainsIffOccurs(s: string, needle: string)
    ensures Contains(s, needle) <==> exists i :: OccursAt(s, needle, i)
    decreases |s|
  {
    if |needle| <= |s| && s[..|needle|] == needle {
      assert OccursAt(s, needle, 0);
    } else if s == [] {
    } else {
      ContainsIffOccurs(s[1..], needle);
      if exists i :: OccursAt(s[1..], needle, i) {
        var i :| OccursAt(s[1..], needle, i);
        OccursInTail(s, needle, i + 1);
      }
      if exists i :: OccursAt(s, needle, i) {
        var i :| OccursAt(s, needle, i);
        if i != 0 {
          OccursInTail(s, needle, i);
        }
      }
    }
  }

  /** An occurrence past the first character is an occurrence in the tail,
      one position earlier. */
  lemma OccursInTail(s: string, needle: string, i: int)
    requires 1 <= i <= |s|
    ensures OccursAt(s, needle, i) <==> OccursAt(s[1..], needle, i - 1)
  {
    if i + |needle| <= |s| {
      assert s[1..][i - 1..i - 1 + |needle|] == s[i..i + |needle|];
    }
  }

  /** An occurrence survives lowering both strings. */
  lemma LowerKeepsOccurrence(s: string, needle: string, i: int)
    requires OccursAt(s, needle, i)
    ensures OccursAt(Lower(s), Lower(needle), i)
  {
  }

  // ------------------------------------------------------- error messages

  /** The outer `except` of the SF3D and Hunyuan3D handlers: an exception whose
      lowercased text contains "out of memory" gets the handler's fixed advice,
      every other one the generic "Generation failed: " message. */
  function ClassifyMessage(message: string, oomAdvice: string): (d: Dict)
    ensures d.Keys == {"error"}
    ensures Contains(Lower(message), OutOfMemory) ==> d["error"] == Str(oomAdvice)
    ensures !Contains(Lower(message), OutOfMemory) ==> d["error"] == Str(GenerationFailedPrefix + message)
  {
    if Contains(Lower(message), OutOfMemory) then ErrorDict(oomAdvice)
    else ErrorDict(GenerationFailedPrefix + message)
  }

  /** The test is case-insensitive: "out of memory" written in any mix of
      cases anywhere in the message selects the advice, and a message with no
      such occurrence gets the generic text. */
  lemma ClassifyMessageOccurrence(message: string, oomAdvice: string)
    ensures (exists i, w :: OccursAt(message, w, i) && Lower(w) == OutOfMemory)
            ==> ClassifyMessage(message, oomAdvice) == ErrorDict(oomAdvice)
    ensures (forall i :: !OccursAt(Lower(message), OutOfMemory, i))
            ==> ClassifyMessage(message, oomAdvice) == ErrorDict(GenerationFailedPrefix + message)
  {
    ContainsIffOccurs(Lower(message), OutOfMemory);
    if exists i, w :: OccursAt(message, w, i) && Lower(w) == OutOfMemory {
      var i, w :| OccursAt(message, w, i) && Lower(w) == OutOfMemory;
      LowerKeepsOccurrence(message, w, i);
    }
  }
}
