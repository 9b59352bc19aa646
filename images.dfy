/**
 * Image-input normalisation (`trait Image` and its implementations for `&str`
 * and `Vec<u8>`, src/lib.rs:133-175): an image given as a URL or as base64
 * text becomes exactly one entry, `<name>_url` or `<name>_data`, of the
 * request's parameter map, which is updated in place.
 */
module Images {
  import opened Wrappers
  import opened Errors
  import opened Json
  import opened Externals

  /** An image argument: a `&str` (a URL) or a `Vec<u8>` (base64-encoded image bytes). */
  datatype ImageInput = Reference(url: string) | Inline(encoded: seq<Byte>)

  function UrlKey(paramName: string): string { paramName + "_url" }
  function DataKey(paramName: string): string { paramName + "_data" }

  /**
   * The entry `prepare_image` adds, or the error it returns: a URL that parses
   * is stored as a string under `<name>_url`, otherwise `InvalidUrl` carries
   * it; base64 text that decodes is stored as its bytes under `<name>_data`,
   * otherwise `InvalidInput`.
   */
  function ImageEntry(image: ImageInput, paramName: string, codecs: Codecs): (r: Result<(string, JsonValue), ImagePigError>)
    ensures image.Reference? ==> (r.Success? <==> codecs.urlParses(image.url))
    ensures image.Reference? && r.Success? ==> r.value == (UrlKey(paramName), JString(image.url))
    ensures image.Reference? && r.Failure? ==> r.error == InvalidUrl(image.url)
    ensures image.Inline? ==> (r.Success? <==> codecs.base64Decode(image.encoded).Some?)
    ensures image.Inline? && r.Success? ==>
      r.value.0 == DataKey(paramName) && ToBytes(r.value.1) == codecs.base64Decode(image.encoded)
    ensures image.Inline? && r.Failure? ==> r.error == InvalidInput
  {
    match image
    case Reference(url) =>
      if codecs.urlParses(url) then Success((UrlKey(paramName), JString(url))) else Failure(InvalidUrl(url))
    case Inline(encoded) =>
      match codecs.base64Decode(encoded)
      case Some(bytes) => BytesRoundTrip(bytes); Success((DataKey(paramName), FromBytes(bytes)))
      case None => Failure(InvalidInput)
  }

  /** A request parameter map under construction (`serde_json::Map<String, Value>`). */
  class ParamMap {
    var entries: Params

    /** `extra_params.unwrap_or_default()` */
    constructor (initial: Params)
      ensures entries == initial
    {
      entries := initial;
    }

    /** `Map::insert`: adds the entry, replacing any earlier value under the same key. */
    method Insert(key: string, value: JsonValue)
      modifies this
      ensures entries == old(entries)[key := value]
    {
      entries := entries[key := value];
    }
  }

  /** `<&str as Image>::prepare_image` */
  method PrepareUrl(url: string, paramName: string, params: ParamMap, codecs: Codecs)
    returns (outcome: Result<(), ImagePigError>)
    modifies params
    ensures codecs.urlParses(url) ==>
      outcome == Success(()) && params.entries == old(params.entries)[UrlKey(paramName) := JString(url)]
    ensures !codecs.urlParses(url) ==>
      outcome == Failure(InvalidUrl(url)) && params.entries == old(params.entries)
  {
    if codecs.urlParses(url) {
      params.Insert(UrlKey(paramName), JString(url));
      return Success(());
    }
    return Failure(InvalidUrl(url));
  }

  /** `<Vec<u8> as Image>::prepare_image`: the decode runs before the insert, so a failure leaves the map alone. */
  method PrepareBytes(encoded: seq<Byte>, paramName: string, params: ParamMap, codecs: Codecs)
    returns (outcome: Result<(), ImagePigError>)
    modifies params
    ensures codecs.base64Decode(encoded).Some? ==>
      && outcome == Success(())
      && params.entries == old(params.entries)[DataKey(paramName) := FromBytes(codecs.base64Decode(encoded).value)]
    ensures codecs.base64Decode(encoded).None? ==>
      outcome == Failure(InvalidInput) && params.entries == old(params.entries)
  {
    var decoded := codecs.base64Decode(encoded);
    if decoded.None? {
      return Failure(InvalidInput);
    }
    params.Insert(DataKey(paramName), FromBytes(decoded.value));
    return Success(());
  }

  /**
   * `prepare_image` for either kind of image: on success the map gains the
   * entry ImageEntry names and nothing else changes; on failure the map is
   * unchanged and the error is returned.
   */
  method PrepareImage(image: ImageInput, paramName: string, params: ParamMap, codecs: Codecs)
    returns (outcome: Result<(), ImagePigError>)
    modifies params
    ensures match ImageEntry(image, paramName, codecs)
      case Success(entry) => outcome == Success(()) && params.entries == old(params.entries)[entry.0 := entry.1]
      case Failure(e) => outcome == Failure(e) && params.entries == old(params.entries)
  {
    match image
    case Reference(url) => outcome := PrepareUrl(url, paramName, params, codecs);
    case Inline(encoded) => outcome := PrepareBytes(encoded, paramName, params, codecs);
  }

  /** The two keys an image can be written under never coincide. */
  lemma DistinctImageKeys(paramName: string)
    ensures UrlKey(paramName) != DataKey(paramName)
  {
    assert UrlKey(paramName)[|paramName| + 1] == 'u';
    assert DataKey(paramName)[|paramName| + 1] == 'd';
  }

  /** The payload holds the key of the image's own kind and not the other one. */
  predicate CarriesImage(payload: Params, paramName: string, image: ImageInput) {
    && (UrlKey(paramName) in payload <==> image.Reference?)
    && (DataKey(paramName) in payload <==> image.Inline?)
  }

  /**
   * A map that held neither image key holds exactly one after a successful
   * `prepare_image`: `<name>_url` for a URL, `<name>_data` for bytes.
   */
  lemma ExactlyOneImageKey(params: Params, image: ImageInput, paramName: string, codecs: Codecs)
    requires ImageEntry(image, paramName, codecs).Success?
    requires UrlKey(paramName) !in params && DataKey(paramName) !in params
    ensures var entry := ImageEntry(image, paramName, codecs).value;
      CarriesImage(params[entry.0 := entry.1], paramName, image)
  {
    DistinctImageKeys(paramName);
  }

  /**
   * The map is not cleared first: an extra parameter already under the other
   * key survives, and the payload then carries both keys.
   */
  lemma ExtrasKeepOtherImageKey(params: Params, url: string, paramName: string, codecs: Codecs)
    requires codecs.urlParses(url)
    requires DataKey(paramName) in params
    ensures var entry := ImageEntry(Reference(url), paramName, codecs).value;
      UrlKey(paramName) in params[entry.0 := entry.1] && DataKey(paramName) in params[entry.0 := entry.1]
  {
    DistinctImageKeys(paramName);
  }
}
