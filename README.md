# imagepig-rust core, modelled in Dafny

This project models the client side of the ImagePig image-generation API as the
Rust crate `imagepig` implements it in `src/lib.rs`. It covers three parts:

- **The response handle** (`APIResponse`): the `url`, `seed`, `mime_type` and
  `duration` accessors over the JSON body, and the materialisation protocol
  `data()`. `data()` decodes inline base64 `image_data` when that member is a
  string. Otherwise it downloads `image_url` in a loop of at most
  `DOWNLOAD_ATTEMPTS` (10) GETs:
  - a 2xx reply returns its body (or `HttpError` when reading the body fails);
  - a 404 pauses for `DOWNLOAD_INTERRUPTION` (1 s) and retries;
  - any other status leaves the loop;
  - a transport failure is skipped without a pause.

  Every other case ends in `MissingData`. The network is a script, `network(i)`
  being what the i-th GET produces. `Response.Data` is an imperative loop with
  early returns and a `break`. It is proved equal to the recursive
  reference definition `Download`, about which the outcome, the GET count, the pause
  count and the requests themselves are proved.
- **Image-input normalisation** (`Image::prepare_image` for `&str` and
  `Vec<u8>`). It updates a parameter map (`ParamMap`, a class whose `entries`
  the methods reassign) in place. It writes `<name>_url` for a URL that parses
  and `<name>_data` for base64 text that decodes, stored as a JSON array of the
  decoded bytes. On failure it returns `InvalidUrl` or `InvalidInput` and leaves
  the map unchanged.
- **The request builders** `default`, `xl`, `flux`, `faceswap`, `upscale`,
  `cutout`, `replace` and `outpaint`, and the wire tokens of `Proportion` and
  `UpscalingFactor`. Each builder starts from the caller's extra parameters and
  inserts its own keys, so a managed key always replaces an extra of the same
  name. A builder yields `Send(endpoint, payload)`, the request it would POST.
  Where the source calls `.unwrap()` on a failed `prepare_image`, which panics,
  it yields `Abort(error)` instead.

The project has four files:
- `foundation.dfy`: `Option` and `Result`, the error type, a JSON value type
  with serde_json's accessors, and the foreign codecs.
- `response.dfy`: the response handle and the download loop.
- `images.dfy`: image normalisation.
- `builders.dfy`: the builders and the wire tokens.

The base64 decoder (the `base64` crate's standard engine) and the URL parser
(the `url` crate) are foreign code. They are parameters of the model (the
`Codecs` datatype) and nothing is assumed about them. A Rust `&str` reaches the
decoder as its UTF-8 bytes, which `Externals.Utf8Encode` computes.

A transport failure does not end the download: the `if let Ok(resp)` at
src/lib.rs:51 has no `else`, so the loop goes on to the next attempt without a
pause.

A payload can carry both `<name>_url` and `<name>_data`, because
`prepare_image` does not remove the other key from the extras
(`Images.ExtrasKeepOtherImageKey`). The one-key property holds for extras that
hold neither key (`Images.ExactlyOneImageKey` and the builders' last `ensures`).

## Model

| member | source | states |
|---|---|---|
| Response.APIResponse.Url | src/lib.rs:72-76 | Some exactly when `image_url` is present and a JSON string, and then it is that string |
| Response.APIResponse.Seed | src/lib.rs:78-82 | Some exactly when `seed` is a number stored as an unsigned 64-bit integer, and then it is that number |
| Response.APIResponse.MimeType | src/lib.rs:84-88 | Some exactly when `mime_type` is present and a JSON string, and then it is that string |
| Response.APIResponse.Duration | src/lib.rs:90-101 | Some exactly when both timestamps are present, are strings and are accepted by the RFC 3339 parser; then completed minus started |
| Response.Data | src/lib.rs:35-70 | the loop's result and trace of GETs and pauses equal the reference definition `Materialise`, i.e. inline data first, then the bounded download, MissingData otherwise |
| Response.Classify | src/lib.rs:51-64 | one attempt's effect on the loop, by definition; its contract is ClassifyCases |
| Response.ClassifyCases | src/lib.rs:51-64 | only a 2xx delivers, its body or HttpError; a 404 and a transport failure retry, only the 404 with a pause; every other status gives up |
| Response.Download | src/lib.rs:45-66 | the loop from attempt i on, defined attempt by attempt as Classify steers it; its properties are DownloadErrors, DownloadStep and DownloadOutcome |
| Response.DownloadErrors | src/lib.rs:45-69 | the download fails only with MissingData (the attempts run out or one gives up) or HttpError (a body read failed), and it makes a GET exactly when an attempt remains |
| Response.Materialise | src/lib.rs:35-70 | `data()` as a function: a string `image_data` is decoded (UnexpectedResponse on failure) with no GET; otherwise a string `image_url` is downloaded; otherwise MissingData with no GET; its properties are the lemmas below |
| Response.DataErrors | src/lib.rs:35-70 | `data()` fails only with UnexpectedResponse, MissingData or HttpError, and UnexpectedResponse comes with no GET |
| Response.DownloadStep | src/lib.rs:45-65 | one turn of the loop: a transport failure moves on with no pause, a 2xx returns its body or HttpError, a 404 pauses once and moves on, any other status stops with MissingData |
| Response.FirstDecisive | src/lib.rs:51-64 | the first attempt that ends the loop (2xx or a status other than 404) lies within the attempt bound, and every attempt before it retries |
| Response.DownloadOutcome | src/lib.rs:44-69 | the download makes the GETs up to and including the first decisive attempt (all 10 when there is none), pauses once per earlier 404, returns that attempt's body when it is a 2xx and MissingData otherwise, and every GET is of the URL with the fixed User-Agent |
| Response.InlineDataWins | src/lib.rs:36-41 | a string `image_data` is decoded and no GET is made; a decode failure gives UnexpectedResponse |
| Response.NoSourceMissing | src/lib.rs:44-69 | with no string `image_data` and no string `image_url`, the result is MissingData with no GET |
| Response.DataBounds | src/lib.rs:12-45 | at most DOWNLOAD_ATTEMPTS GETs, and never more pauses than GETs |
| Response.AlwaysNotFound | src/lib.rs:45-69 | every attempt a 404: MissingData after exactly 10 GETs and 10 pauses |
| Response.AlwaysTransportError | src/lib.rs:45-69 | every attempt a transport failure: MissingData after exactly 10 GETs and no pause |
| Response.FirstSuccess | src/lib.rs:51-58 | attempt k the first 2xx after 404s and transport failures: k + 1 GETs, one pause per earlier 404, and the body, or HttpError when reading it failed |
| Response.OtherStatusStops | src/lib.rs:60-64 | attempt k the first status that is neither 2xx nor 404: the loop stops there with MissingData after k + 1 GETs |
| Response.DownloadSucceedsIff | src/lib.rs:45-69 | the download yields bytes exactly when some attempt is a 2xx whose body was read and every earlier attempt retried |
| Response.ThreeNotFoundsThenHello | src/lib.rs:51-61 | three 404s, then a 200 with a body: that body after 4 GETs and 3 pauses |
| Response.ServerErrorNoRetry | src/lib.rs:60-64 | a 500 on the first GET: MissingData after one GET with no retry |
| Response.EmptyBodyMissing | src/lib.rs:44-69 | the body `{}` gives MissingData with no GET |
| Response.InlineHello | src/lib.rs:36-41 | the body `{"image_data": "aGVsbG8="}`, with a decoder that reads the text's character codes as "hello", gives those bytes with no GET |
| Response.HelloTextCodes | src/lib.rs:38-39 | the text "aGVsbG8=" reaches the decoder as its eight ASCII codes |
| Json.FromBytes | src/lib.rs:167-171 | `Value::from(Vec<u8>)` is an array with one number per byte, in order |
| Json.ToBytes | src/lib.rs:167-171 | reading an array of byte-sized numbers back yields one byte per element, in order |
| Json.BytesRoundTrip | src/lib.rs:165-171 | the bytes stored under `<name>_data` are read back unchanged |
| Externals.EncodeChar | src/lib.rs:38-39 | the UTF-8 encoding of a character is 1 to 4 bytes, a single byte equal to the code exactly for ASCII |
| Externals.Utf8Encode | src/lib.rs:38-39 | a string's UTF-8 bytes number between its length and four times its length |
| Externals.AsciiEncodesToCodes | src/lib.rs:38-39 | an ASCII string, such as base64 text, reaches the decoder as its character codes, one byte per character |
| Images.ImageEntry | src/lib.rs:141-175 | a URL that parses becomes `<name>_url` holding the URL, otherwise InvalidUrl of that URL; base64 text that decodes becomes `<name>_data` holding the decoded bytes, otherwise InvalidInput |
| Images.ParamMap.constructor | src/lib.rs:222 | the map starts as the given extras |
| Images.ParamMap.Insert | src/lib.rs:148-151 | inserting sets the key to the value and leaves every other key unchanged |
| Images.PrepareUrl | src/lib.rs:141-156 | a URL that parses is stored under `<name>_url`, nothing else changes, and Ok is returned; otherwise InvalidUrl of that URL and the map is unchanged |
| Images.PrepareBytes | src/lib.rs:159-175 | decoded bytes are stored under `<name>_data`, nothing else changes, and Ok is returned; a decode failure gives InvalidInput and the map is unchanged |
| Images.PrepareImage | src/lib.rs:133-139 | either kind of image: on success the map gains exactly the ImageEntry entry, on failure it is unchanged and the error is returned |
| Images.DistinctImageKeys | src/lib.rs:149-166 | `<name>_url` and `<name>_data` never coincide |
| Images.ExactlyOneImageKey | src/lib.rs:141-175 | a map that held neither image key holds exactly the key of the image's kind after a successful prepare_image |
| Images.ExtrasKeepOtherImageKey | src/lib.rs:147-151 | an existing `<name>_data` entry survives the insert of `<name>_url`, so both keys are present |
| Builders.Lowercase | src/lib.rs:122 | the result has the same length and each character in lower case |
| Builders.DisplayIsToken | src/lib.rs:120-124 | the lower-cased Debug name of each proportion is its token: `landscape`, `portrait`, `square` or `wide` |
| Builders.ProportionTokensDistinct | src/lib.rs:120-124 | distinct proportions are sent as distinct tokens |
| Builders.FactorValue | src/lib.rs:127-131 | the factors are sent as 2, 4 and 8, and each value identifies its factor |
| Builders.FactorFromValue | src/lib.rs:127-131 | exactly 2, 4 and 8 name a factor |
| Builders.Default | src/lib.rs:216-232 | POST to the root endpoint of the extras overlaid with `positive_prompt` and `negative_prompt`, the latter empty when absent |
| Builders.Xl | src/lib.rs:234-250 | as Default, on the `xl` endpoint |
| Builders.Flux | src/lib.rs:252-268 | the extras overlaid with the prompt and the proportion token, `landscape` when absent |
| Builders.Faceswap | src/lib.rs:270-284 | a failed source or target image aborts with its error (source first); otherwise the extras overlaid with both image entries, and with extras free of the image keys each image carried under its own key alone |
| Builders.Upscale | src/lib.rs:286-299 | a failed image aborts; otherwise the extras overlaid with the image entry and the factor's value, 2 when absent, the image carried under its own key alone when the extras hold neither image key |
| Builders.Cutout | src/lib.rs:301-309 | a failed image aborts; otherwise the extras overlaid with the image entry |
| Builders.Replace | src/lib.rs:311-334 | a failed image aborts; otherwise the extras overlaid with the image entry, `select_prompt`, `positive_prompt` and `negative_prompt` (empty when absent) |
| Builders.Outpaint | src/lib.rs:336-374 | a failed image aborts; otherwise the extras overlaid with the image entry, both prompts and the four margins, each margin sent as given and 0 when absent |
| Builders.ReplaceInserts | src/lib.rs:319-332 | the successive inserts equal the extras overlaid with the managed entries, `negative_prompt` is the one sent, and the image is carried under its own key alone when the extras hold neither image key |
| Builders.OutpaintInserts | src/lib.rs:347-372 | the seven successive inserts equal the extras overlaid with the managed entries |
| Builders.OutpaintMargins | src/lib.rs:357-372 | the four margins are sent as given (0 when absent), whatever the extras hold under those names |
| Builders.OutpaintImageKey | src/lib.rs:347-348 | with extras free of both image keys, the payload carries the image under its own key alone |
| Builders.ImageKeysKept | src/lib.rs:292-293 | managed keys other than the image entry are not image keys, so extras free of both image keys leave exactly the image's own key in the payload |

## Left out

- `APIResponse::save` (src/lib.rs:103-109) is not modelled: it is file-system I/O around `data()`.
- `ImagePig::new` and `call_api` (src/lib.rs:185-214) are not modelled: the POST, its `Api-Key` header and the JSON decoding of the reply are HTTP and serde I/O. A builder yields the request it would send.
- The HTTP client is a scripted network: what each GET produces is an input, and nothing is modelled about connections, timeouts or the reading of the body.
- `tokio::time::sleep` appears only as a `Sleep(1)` event in the trace. Timing, `async`/`await` and cancellation are not modelled.
- Response.APIResponse.Duration: chrono's RFC 3339 parsing and its signed-duration arithmetic are a parameter, a parser that maps a timestamp to an instant on a common integer time line. Precision and range limits are not modelled.
- Base64 decoding and URL parsing are parameters of the model. Their internals, and any property of them (for example that a decoder inverts an encoder), are not modelled.
- Builders.Lowercase: models `to_lowercase` on ASCII letters only, because it is only applied to the ASCII `Debug` names of `Proportion`.
- A JSON floating-point number is modelled by its real value. Rounding is not modelled.
- `faceswap`'s generic parameter makes both images the same Rust type; the model states this as a precondition (`source.Reference? == target.Reference?`).
- The panic of `Client::new()` (src/lib.rs:46), which reqwest raises when the TLS backend cannot be initialised or the resolver configuration cannot be loaded, is not modelled: every download attempt is assumed to get a client. The only panic modelled is the `.unwrap()` on a failed `prepare_image`.
- `tests/api.rs` is a live-network test with no logic of its own.
