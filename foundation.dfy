/** Option and Result, the two failure-carrying wrappers the rest of the model uses. */
module Wrappers {

  datatype Option<+T> = None | Some(value: T) {
    /** The wrapped value, or `default` when there is none (Rust's `unwrap_or`). */
    function GetOr(default: T): T {
      match this
      case Some(v) => v
      case None => default
    }
  }

  datatype Result<+T, +E> = Success(value: T) | Failure(error: E)
}

/** The library's error type, `ImagePigError`. */
module Errors {

  /** What the HTTP client reported when a request or a body read failed; opaque to the library. */
  datatype HttpFailure = HttpFailure(description: string)

  datatype ImagePigError =
    | HttpError(cause: HttpFailure)
    | InvalidUrl(url: string)
    | UnexpectedResponse
    | MissingData
    | InvalidInput
}

/**
 * The dynamic JSON value the library reads responses from and writes request
 * parameters into (serde_json's `Value`), with the few accessors the library uses.
 */
module Json {
  import opened Wrappers

  type Byte = b: int | 0 <= b < 0x100

  const U64_LIMIT: int := 0x1_0000_0000_0000_0000
  type U64 = n: int | 0 <= n < U64_LIMIT

  const U32_LIMIT: int := 0x1_0000_0000
  type U32 = n: int | 0 <= n < U32_LIMIT

  type NegI64 = n: int | -0x8000_0000_0000_0000 <= n < 0 witness -1

  /**
   * A JSON number as serde_json stores it: a non-negative integer that fits
   * 64 unsigned bits, a negative integer that fits 64 signed bits, or a
   * (finite) floating-point number, modelled by its real value.
   */
  datatype Number = PosInt(u: U64) | NegInt(i: NegI64) | Float(f: real)

  datatype JsonValue =
    | JNull
    | JBool(b: bool)
    | JNumber(n: Number)
    | JString(s: string)
    | JArray(items: seq<JsonValue>)
    | JObject(fields: map<string, JsonValue>)

  /** A request parameter map (`serde_json::Map<String, Value>`). */
  type Params = map<string, JsonValue>

  /** `Value::get(key)`: only an object has members; any other value yields nothing. */
  function Get(v: JsonValue, key: string): Option<JsonValue> {
    if v.JObject? && key in v.fields then Some(v.fields[key]) else None
  }

  /** `Value::as_str`. */
  function AsStr(v: JsonValue): Option<string> {
    if v.JString? then Some(v.s) else None
  }

  /** `Value::as_u64`: only a number stored as a non-negative integer. */
  function AsU64(v: JsonValue): Option<U64> {
    if v.JNumber? && v.n.PosInt? then Some(v.n.u) else None
  }

  /** `Value::from(Vec<u8>)`: an array holding one number per byte. */
  function FromBytes(bytes: seq<Byte>): (v: JsonValue)
    ensures v.JArray? && |v.items| == |bytes|
    ensures forall i :: 0 <= i < |bytes| ==> v.items[i] == JNumber(PosInt(bytes[i]))
  {
    JArray(seq(|bytes|, i requires 0 <= i < |bytes| => JNumber(PosInt(bytes[i]))))
  }

  /** Reads a JSON array of numbers 0..255 back as bytes; the inverse of FromBytes. */
  function ToBytes(v: JsonValue): (r: Option<seq<Byte>>)
    ensures r.Some? ==> v.JArray? && |r.value| == |v.items|
    ensures r.Some? ==> forall i :: 0 <= i < |r.value| ==> v.items[i] == JNumber(PosInt(r.value[i]))
  {
    if v.JArray? && forall i :: 0 <= i < |v.items| ==> IsByte(v.items[i])
    then Some(seq(|v.items|, i requires 0 <= i < |v.items| => ByteOf(v.items[i])))
    else None
  }

  predicate IsByte(v: JsonValue) {
    v.JNumber? && v.n.PosInt? && v.n.u < 0x100
  }

  /** The byte a value holds when IsByte says it holds one (0 otherwise). */
  function ByteOf(v: JsonValue): Byte {
    if IsByte(v) then v.n.u else 0
  }

  /** The bytes written as `Value::from(bytes)` are read back unchanged, and FromBytes is injective. */
  lemma BytesRoundTrip(bytes: seq<Byte>)
    ensures ToBytes(FromBytes(bytes)) == Some(bytes)
  {
    var v := FromBytes(bytes);
    assert forall i :: 0 <= i < |v.items| ==> IsByte(v.items[i]);
    var back := ToBytes(v).value;
    assert |back| == |bytes|;
    forall i | 0 <= i < |bytes| ensures back[i] == bytes[i] {
      assert v.items[i] == JNumber(PosInt(bytes[i]));
    }
    assert back == bytes;
  }
}

/**
 * The foreign libraries the core calls: the `base64` crate's standard engine
 * and the `url` crate's parser. Their internals are not modelled; a caller
 * supplies them as functions. A Rust `&str` is handed to the decoder as its
 * UTF-8 bytes, which Utf8Encode computes.
 */
module Externals {
  import opened Wrappers
  import opened Json

  /**
   * `BASE64_STANDARD.decode` (RFC 4648 section 4 alphabet, padded) and
   * `Url::parse(s).is_ok()`.
   */
  datatype Codecs = Codecs(base64Decode: seq<Byte> -> Option<seq<Byte>>, urlParses: string -> bool)

  /** The UTF-8 encoding of one Unicode scalar value. */
  function EncodeChar(c: char): (r: seq<Byte>)
    ensures 1 <= |r| <= 4
    ensures |r| == 1 <==> (c as int) < 0x80
    ensures |r| == 1 ==> r[0] == c as int
  {
    var n := c as int;
    if n < 0x80 then [n]
    else if n < 0x800 then [0xC0 + n / 0x40, 0x80 + n % 0x40]
    else if n < 0x1_0000 then [0xE0 + n / 0x1000, 0x80 + (n / 0x40) % 0x40, 0x80 + n % 0x40]
    else [0xF0 + n / 0x4_0000, 0x80 + (n / 0x1000) % 0x40, 0x80 + (n / 0x40) % 0x40, 0x80 + n % 0x40]
  }

  /** The bytes of a Rust string (`str::as_bytes`). */
  function Utf8Encode(s: string): (r: seq<Byte>)
    ensures |s| <= |r| <= 4 * |s|
  {
    if s == [] then [] else EncodeChar(s[0]) + Utf8Encode(s[1..])
  }

  predicate IsAscii(s: string) {
    forall i :: 0 <= i < |s| ==> (s[i] as int) < 0x80
  }

  /** Base64 text is ASCII, and an ASCII string's UTF-8 bytes are its character codes, one per character. */
  lemma {:induction false} AsciiEncodesToCodes(s: string)
    requires IsAscii(s)
    ensures |Utf8Encode(s)| == |s|
    ensures forall i :: 0 <= i < |s| ==> Utf8Encode(s)[i] == s[i] as int
  {
    if s != [] {
      assert IsAscii(s[1..]) by {
        forall i | 0 <= i < |s[1..]| ensures (s[1..][i] as int) < 0x80 {
          assert s[1..][i] == s[i + 1];
        }
      }
      AsciiEncodesToCodes(s[1..]);
      assert (s[0] as int) < 0x80;
    }
  }
}
