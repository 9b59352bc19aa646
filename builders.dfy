/**
 * The request builders of `ImagePig` (src/lib.rs:216-374) and the wire tokens
 * of `Proportion` and `UpscalingFactor` (src/lib.rs:112-131).
 *
 * Every endpoint starts from the caller's extra parameters and inserts its own
 * keys on top, so a key the builder manages always wins over an extra under
 * the same name, and every other extra is passed through. The POST itself
 * (`call_api`) is not modelled: a builder yields the endpoint and the payload
 * it would send, or, where the source calls `.unwrap()` on a failed
 * `prepare_image`, an abort that sends nothing.
 */
module Builders {
  import opened Wrappers
  import opened Errors
  import opened Json
  import opened Externals
  import opened Images

  datatype Proportion = Landscape | Portrait | Square | Wide

  /** The `#[derive(Debug)]` name of a variant. */
  function DebugName(p: Proportion): string {
    match p
    case Landscape => "Landscape"
    case Portrait => "Portrait"
    case Square => "Square"
    case Wide => "Wide"
  }

  function LowerChar(c: char): char {
    if 'A' <= c <= 'Z' then (c as int + 32) as char else c
  }

  /** `str::to_lowercase`, on the ASCII names it is applied to here. */
  function Lowercase(s: string): (r: string)
    ensures |r| == |s|
    ensures forall i :: 0 <= i < |s| ==> r[i] == LowerChar(s[i])
  {
    if s == [] then [] else [LowerChar(s[0])] + Lowercase(s[1..])
  }

  /** The API's proportion tokens, which `Display` produces (DisplayIsToken). */
  function ProportionToken(p: Proportion): string {
    match p
    case Landscape => "landscape"
    case Portrait => "portrait"
    case Square => "square"
    case Wide => "wide"
  }

  /** `impl Display for Proportion`: the Debug name in lower case is exactly the API's token. */
  lemma DisplayIsToken(p: Proportion)
    ensures Lowercase(DebugName(p)) == ProportionToken(p)
  {
    match p
    case Landscape => LowercaseIs("Landscape", "landscape");
    case Portrait => LowercaseIs("Portrait", "portrait");
    case Square => LowercaseIs("Square", "square");
    case Wide => LowercaseIs("Wide", "wide");
  }

  /** A string whose characters are those of `s` lower-cased is Lowercase(s). */
  lemma LowercaseIs(s: string, t: string)
    requires |t| == |s|
    requires forall i :: 0 <= i < |s| ==> t[i] == LowerChar(s[i])
    ensures Lowercase(s) == t
  {
  }

  /** Distinct proportions are sent as distinct tokens. */
  lemma ProportionTokensDistinct(p: Proportion, q: Proportion)
    requires p != q
    ensures ProportionToken(p) != ProportionToken(q)
  {
  }

  datatype UpscalingFactor = Two | Four | Eight

  /** The explicit discriminants `Two = 2, Four = 4, Eight = 8`, sent as `factor as u8`. */
  function FactorValue(f: UpscalingFactor): (v: Byte)
    ensures v == 2 || v == 4 || v == 8
    ensures FactorFromValue(v) == Some(f)
  {
    match f
    case Two => 2
    case Four => 4
    case Eight => 8
  }

  /** Which factor a wire value stands for, if any. */
  function FactorFromValue(v: int): (r: Option<UpscalingFactor>)
    ensures r.Some? <==> v in {2, 4, 8}
  {
    if v == 2 then Some(Two) else if v == 4 then Some(Four) else if v == 8 then Some(Eight) else None
  }

  /** What an endpoint hands to `call_api`, or the abort of an `.unwrap()` on a failed `prepare_image`. */
  datatype Dispatch = Send(endpoint: string, payload: Params) | Abort(error: ImagePigError)

  /** The prompt entries of the text endpoints: `negative_prompt` is always sent, empty when absent. */
  function PromptEntries(prompt: string, negativePrompt: Option<string>): Params {
    map["positive_prompt" := JString(prompt), "negative_prompt" := JString(negativePrompt.GetOr(""))]
  }

  /** A `u32` argument sent as a number, 0 when absent (`unwrap_or_default`). */
  function Margin(m: Option<U32>): JsonValue {
    JNumber(PosInt(m.GetOr(0)))
  }

  /** `ImagePig::default`: POST to the root endpoint with both prompts. */
  method Default(prompt: string, negativePrompt: Option<string>, extras: Option<Params>) returns (d: Dispatch)
    ensures d == Send("", extras.GetOr(map[]) + PromptEntries(prompt, negativePrompt))
    ensures d.payload["positive_prompt"] == JString(prompt)
    ensures d.payload["negative_prompt"] == JString(negativePrompt.GetOr(""))
  {
    var params := new ParamMap(extras.GetOr(map[]));
    params.Insert("positive_prompt", JString(prompt));
    params.Insert("negative_prompt", JString(negativePrompt.GetOr("")));
    d := Send("", params.entries);
  }

  /** `ImagePig::xl`: as `default`, on the `xl` endpoint. */
  method Xl(prompt: string, negativePrompt: Option<string>, extras: Option<Params>) returns (d: Dispatch)
    ensures d == Send("xl", extras.GetOr(map[]) + PromptEntries(prompt, negativePrompt))
    ensures d.payload["positive_prompt"] == JString(prompt)
    ensures d.payload["negative_prompt"] == JString(negativePrompt.GetOr(""))
  {
    var params := new ParamMap(extras.GetOr(map[]));
    params.Insert("positive_prompt", JString(prompt));
    params.Insert("negative_prompt", JString(negativePrompt.GetOr("")));
    d := Send("xl", params.entries);
  }

  /** `ImagePig::flux`: the prompt and a proportion token, `landscape` when none is given; no negative prompt. */
  method Flux(prompt: string, proportion: Option<Proportion>, extras: Option<Params>) returns (d: Dispatch)
    ensures d == Send("flux", extras.GetOr(map[]) + map["positive_prompt" := JString(prompt),
                                               "proportion" := JString(ProportionToken(proportion.GetOr(Landscape)))])
    ensures proportion.None? ==> d.payload["proportion"] == JString("landscape")
  {
    var params := new ParamMap(extras.GetOr(map[]));
    params.Insert("positive_prompt", JString(prompt));
    params.Insert("proportion", JString(ProportionToken(proportion.GetOr(Landscape))));
    d := Send("flux", params.entries);
  }

  /**
   * `ImagePig::faceswap`: both images under `source_image` and `target_image`.
   * The source's generic parameter makes both images the same kind.
   */
  method Faceswap(source: ImageInput, target: ImageInput, extras: Option<Params>, codecs: Codecs) returns (d: Dispatch)
    requires source.Reference? == target.Reference?
    ensures match (ImageEntry(source, "source_image", codecs), ImageEntry(target, "target_image", codecs))
      case (Failure(e), _) => d == Abort(e)
      case (Success(_), Failure(e)) => d == Abort(e)
      case (Success(s), Success(t)) => d == Send("faceswap", extras.GetOr(map[]) + map[s.0 := s.1, t.0 := t.1])
    ensures d.Send? && NoImageKeys(extras, "source_image") && NoImageKeys(extras, "target_image") ==>
      CarriesImage(d.payload, "source_image", source) && CarriesImage(d.payload, "target_image", target)
  {
    var params := new ParamMap(extras.GetOr(map[]));
    var prepared := PrepareImage(source, "source_image", params, codecs);
    if prepared.Failure? {
      return Abort(prepared.error);
    }
    prepared := PrepareImage(target, "target_image", params, codecs);
    if prepared.Failure? {
      return Abort(prepared.error);
    }
    d := Send("faceswap", params.entries);
    if NoImageKeys(extras, "source_image") && NoImageKeys(extras, "target_image") {
      var e := extras.GetOr(map[]);
      var s := ImageEntry(source, "source_image", codecs).value;
      var t := ImageEntry(target, "target_image", codecs).value;
      assert UrlKey("target_image")[0] != UrlKey("source_image")[0];
      assert DataKey("target_image")[0] != DataKey("source_image")[0];
      ExactlyOneImageKey(e, source, "source_image", codecs);
      ExactlyOneImageKey(e[s.0 := s.1], target, "target_image", codecs);
    }
  }

  /** The extras hold neither key the image could be written under. */
  predicate NoImageKeys(extras: Option<Params>, paramName: string) {
    UrlKey(paramName) !in extras.GetOr(map[]) && DataKey(paramName) !in extras.GetOr(map[])
  }

  /** `ImagePig::upscale`: the image and the factor's value, 2 when none is given. */
  method Upscale(image: ImageInput, factor: Option<UpscalingFactor>, extras: Option<Params>, codecs: Codecs)
    returns (d: Dispatch)
    ensures match ImageEntry(image, "image", codecs)
      case Failure(e) => d == Abort(e)
      case Success(entry) =>
        d == Send("upscale", extras.GetOr(map[]) + map[entry.0 := entry.1,
                                              "upscaling_factor" := JNumber(PosInt(FactorValue(factor.GetOr(Two))))])
    ensures d.Send? && factor.None? ==> d.payload["upscaling_factor"] == JNumber(PosInt(2))
    ensures d.Send? && NoImageKeys(extras, "image") ==> CarriesImage(d.payload, "image", image)
  {
    var params := new ParamMap(extras.GetOr(map[]));
    var prepared := PrepareImage(image, "image", params, codecs);
    if prepared.Failure? {
      return Abort(prepared.error);
    }
    params.Insert("upscaling_factor", JNumber(PosInt(FactorValue(factor.GetOr(Two)))));
    d := Send("upscale", params.entries);
    ghost var entry := ImageEntry(image, "image", codecs).value;
    ImageKeysKept(extras, image, "image", codecs,
                  map[entry.0 := entry.1, "upscaling_factor" := JNumber(PosInt(FactorValue(factor.GetOr(Two))))]);
  }

  /** `ImagePig::cutout`: the image alone. */
  method Cutout(image: ImageInput, extras: Option<Params>, codecs: Codecs) returns (d: Dispatch)
    ensures match ImageEntry(image, "image", codecs)
      case Failure(e) => d == Abort(e)
      case Success(entry) => d == Send("cutout", extras.GetOr(map[]) + map[entry.0 := entry.1])
    ensures d.Send? && NoImageKeys(extras, "image") ==> CarriesImage(d.payload, "image", image)
  {
    var params := new ParamMap(extras.GetOr(map[]));
    var prepared := PrepareImage(image, "image", params, codecs);
    if prepared.Failure? {
      return Abort(prepared.error);
    }
    d := Send("cutout", params.entries);
    ghost var entry := ImageEntry(image, "image", codecs).value;
    ImageKeysKept(extras, image, "image", codecs, map[entry.0 := entry.1]);
  }

  /** `ImagePig::replace`: the image, the selection prompt and both prompts. */
  method Replace(image: ImageInput, selectPrompt: string, prompt: string, negativePrompt: Option<string>,
                 extras: Option<Params>, codecs: Codecs)
    returns (d: Dispatch)
    ensures match ImageEntry(image, "image", codecs)
      case Failure(e) => d == Abort(e)
      case Success(entry) =>
        d == Send("replace", extras.GetOr(map[]) + map[entry.0 := entry.1,
                                              "select_prompt" := JString(selectPrompt),
                                              "positive_prompt" := JString(prompt),
                                              "negative_prompt" := JString(negativePrompt.GetOr(""))])
    ensures d.Send? ==> d.payload["negative_prompt"] == JString(negativePrompt.GetOr(""))
    ensures d.Send? && NoImageKeys(extras, "image") ==> CarriesImage(d.payload, "image", image)
  {
    var params := new ParamMap(extras.GetOr(map[]));
    var prepared := PrepareImage(image, "image", params, codecs);
    if prepared.Failure? {
      return Abort(prepared.error);
    }
    params.Insert("select_prompt", JString(selectPrompt));
    params.Insert("positive_prompt", JString(prompt));
    params.Insert("negative_prompt", JString(negativePrompt.GetOr("")));
    ReplaceInserts(extras, image, codecs, selectPrompt, prompt, negativePrompt);
    d := Send("replace", params.entries);
  }

  /**
   * The three inserts of `replace` after the image put its managed entries
   * over the extras, and the image is carried under its own key alone when the
   * extras hold neither image key.
   */
  lemma ReplaceInserts(extras: Option<Params>, image: ImageInput, codecs: Codecs,
                       selectPrompt: string, prompt: string, negativePrompt: Option<string>)
    requires ImageEntry(image, "image", codecs).Success?
    ensures var e := extras.GetOr(map[]);
      var entry := ImageEntry(image, "image", codecs).value;
      var sent := e + map[entry.0 := entry.1,
                          "select_prompt" := JString(selectPrompt),
                          "positive_prompt" := JString(prompt),
                          "negative_prompt" := JString(negativePrompt.GetOr(""))];
      && e[entry.0 := entry.1]["select_prompt" := JString(selectPrompt)]["positive_prompt" := JString(prompt)]
          ["negative_prompt" := JString(negativePrompt.GetOr(""))]
         == sent
      && sent["negative_prompt"] == JString(negativePrompt.GetOr(""))
      && (NoImageKeys(extras, "image") ==> CarriesImage(sent, "image", image))
  {
    var e := extras.GetOr(map[]);
    var entry := ImageEntry(image, "image", codecs).value;
    var managed: Params := map[entry.0 := entry.1];
    assert e + map[] == e;
    UnionUpdate(e, map[], entry.0, entry.1);
    UnionUpdate(e, managed, "select_prompt", JString(selectPrompt));
    managed := managed["select_prompt" := JString(selectPrompt)];
    UnionUpdate(e, managed, "positive_prompt", JString(prompt));
    managed := managed["positive_prompt" := JString(prompt)];
    UnionUpdate(e, managed, "negative_prompt", JString(negativePrompt.GetOr("")));
    managed := managed["negative_prompt" := JString(negativePrompt.GetOr(""))];
    ImageKeysKept(extras, image, "image", codecs, managed);
  }

  /** `ImagePig::outpaint`: the image, both prompts and the four margins, each 0 when absent. */
  method Outpaint(image: ImageInput, prompt: string, negativePrompt: Option<string>,
                  top: Option<U32>, right: Option<U32>, bottom: Option<U32>, left: Option<U32>,
                  extras: Option<Params>, codecs: Codecs)
    returns (d: Dispatch)
    ensures match ImageEntry(image, "image", codecs)
      case Failure(e) => d == Abort(e)
      case Success(entry) =>
        d == Send("outpaint", extras.GetOr(map[]) + map[entry.0 := entry.1,
                                               "positive_prompt" := JString(prompt),
                                               "negative_prompt" := JString(negativePrompt.GetOr("")),
                                               "top" := Margin(top), "right" := Margin(right),
                                               "bottom" := Margin(bottom), "left" := Margin(left)])
    ensures d.Send? ==>
      && d.payload["top"] == Margin(top) && d.payload["right"] == Margin(right)
      && d.payload["bottom"] == Margin(bottom) && d.payload["left"] == Margin(left)
    ensures d.Send? && NoImageKeys(extras, "image") ==> CarriesImage(d.payload, "image", image)
  {
    var params := new ParamMap(extras.GetOr(map[]));
    var prepared := PrepareImage(image, "image", params, codecs);
    if prepared.Failure? {
      return Abort(prepared.error);
    }
    params.Insert("positive_prompt", JString(prompt));
    params.Insert("negative_prompt", JString(negativePrompt.GetOr("")));
    params.Insert("top", Margin(top));
    params.Insert("right", Margin(right));
    params.Insert("bottom", Margin(bottom));
    params.Insert("left", Margin(left));
    OutpaintInserts(extras, ImageEntry(image, "image", codecs).value, prompt, negativePrompt, top, right, bottom, left);
    OutpaintMargins(extras, ImageEntry(image, "image", codecs).value, prompt, negativePrompt, top, right, bottom, left);
    OutpaintImageKey(extras, image, codecs, prompt, negativePrompt, top, right, bottom, left);
    d := Send("outpaint", params.entries);
  }

  /** The seven successive inserts of `outpaint` put its managed entries over the extras. */
  lemma OutpaintInserts(extras: Option<Params>, entry: (string, JsonValue), prompt: string,
                        negativePrompt: Option<string>,
                        top: Option<U32>, right: Option<U32>, bottom: Option<U32>, left: Option<U32>)
    ensures var e := extras.GetOr(map[]);
      e[entry.0 := entry.1]["positive_prompt" := JString(prompt)]
       ["negative_prompt" := JString(negativePrompt.GetOr(""))]
       ["top" := Margin(top)]["right" := Margin(right)]["bottom" := Margin(bottom)]["left" := Margin(left)]
      == e + map[entry.0 := entry.1,
                 "positive_prompt" := JString(prompt),
                 "negative_prompt" := JString(negativePrompt.GetOr("")),
                 "top" := Margin(top), "right" := Margin(right),
                 "bottom" := Margin(bottom), "left" := Margin(left)]
  {
    var e := extras.GetOr(map[]);
    var managed: Params := map[entry.0 := entry.1];
    assert e + map[] == e;
    UnionUpdate(e, map[], entry.0, entry.1);
    UnionUpdate(e, managed, "positive_prompt", JString(prompt));
    managed := managed["positive_prompt" := JString(prompt)];
    UnionUpdate(e, managed, "negative_prompt", JString(negativePrompt.GetOr("")));
    managed := managed["negative_prompt" := JString(negativePrompt.GetOr(""))];
    UnionUpdate(e, managed, "top", Margin(top));
    managed := managed["top" := Margin(top)];
    UnionUpdate(e, managed, "right", Margin(right));
    managed := managed["right" := Margin(right)];
    UnionUpdate(e, managed, "bottom", Margin(bottom));
    managed := managed["bottom" := Margin(bottom)];
    UnionUpdate(e, managed, "left", Margin(left));
  }

  /** `outpaint` sends the margins as given, whatever the extras hold under those names. */
  lemma OutpaintMargins(extras: Option<Params>, entry: (string, JsonValue), prompt: string,
                        negativePrompt: Option<string>,
                        top: Option<U32>, right: Option<U32>, bottom: Option<U32>, left: Option<U32>)
    ensures var sent := extras.GetOr(map[]) + map[entry.0 := entry.1,
                                                  "positive_prompt" := JString(prompt),
                                                  "negative_prompt" := JString(negativePrompt.GetOr("")),
                                                  "top" := Margin(top), "right" := Margin(right),
                                                  "bottom" := Margin(bottom), "left" := Margin(left)];
      && sent["top"] == Margin(top) && sent["right"] == Margin(right)
      && sent["bottom"] == Margin(bottom) && sent["left"] == Margin(left)
  {
  }

  /** `outpaint` carries the image under its own key alone when the extras hold neither image key. */
  lemma OutpaintImageKey(extras: Option<Params>, image: ImageInput, codecs: Codecs, prompt: string,
                         negativePrompt: Option<string>,
                         top: Option<U32>, right: Option<U32>, bottom: Option<U32>, left: Option<U32>)
    requires ImageEntry(image, "image", codecs).Success?
    ensures var entry := ImageEntry(image, "image", codecs).value;
      NoImageKeys(extras, "image") ==>
        CarriesImage(extras.GetOr(map[]) + map[entry.0 := entry.1,
                                               "positive_prompt" := JString(prompt),
                                               "negative_prompt" := JString(negativePrompt.GetOr("")),
                                               "top" := Margin(top), "right" := Margin(right),
                                               "bottom" := Margin(bottom), "left" := Margin(left)],
                     "image", image)
  {
    var entry := ImageEntry(image, "image", codecs).value;
    ImageKeysKept(extras, image, "image", codecs,
                  map[entry.0 := entry.1,
                      "positive_prompt" := JString(prompt),
                      "negative_prompt" := JString(negativePrompt.GetOr("")),
                      "top" := Margin(top), "right" := Margin(right),
                      "bottom" := Margin(bottom), "left" := Margin(left)]);
  }

  /** Inserting into a union is inserting into its right-hand side. */
  lemma UnionUpdate(extras: Params, managed: Params, key: string, value: JsonValue)
    ensures (extras + managed)[key := value] == extras + managed[key := value]
  {
  }

  /**
   * An image endpoint whose other managed keys are not image keys: with
   * extras free of both image keys, the payload carries exactly the image's
   * own key.
   */
  lemma ImageKeysKept(extras: Option<Params>, image: ImageInput, paramName: string, codecs: Codecs, managed: Params)
    requires ImageEntry(image, paramName, codecs).Success?
    requires ImageEntry(image, paramName, codecs).value.0 in managed
    requires forall k :: k in managed && k != ImageEntry(image, paramName, codecs).value.0 ==>
      k != UrlKey(paramName) && k != DataKey(paramName)
    ensures NoImageKeys(extras, paramName) ==> CarriesImage(extras.GetOr(map[]) + managed, paramName, image)
  {
    DistinctImageKeys(paramName);
  }
}
