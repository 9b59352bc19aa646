/**
 * The response handle (`APIResponse`, src/lib.rs:29-110): metadata accessors
 * over the JSON body and the materialisation protocol `data()`, which either
 * decodes inline base64 image data or downloads the image from the returned
 * URL, retrying while the storage answers 404.
 *
 * The network is scripted: `network(i)` is what the i-th GET of the image URL
 * (counting from 0) produces. `data()` reports, besides its result, the trace
 * of GETs and pauses it made.
 */
module Response {
  import opened Wrappers
  import opened Errors
  import opened Json
  import opened Externals

  /** `DOWNLOAD_ATTEMPTS`: the most GETs one `data()` call makes. */
  const DOWNLOAD_ATTEMPTS: nat := 10
  /** `DOWNLOAD_INTERRUPTION`: seconds slept after a 404. */
  const DOWNLOAD_INTERRUPTION: nat := 1
  /** The User-Agent header sent with every download. */
  const USER_AGENT: string := "Mozilla/5.0"
  const NOT_FOUND: int := 404

  /** An HTTP status as the client library represents it: a three-digit code. */
  type StatusCode = c: int | 100 <= c < 1000 witness 200

  /** `StatusCode::is_success`. */
  predicate IsSuccess(c: StatusCode) {
    200 <= c < 300
  }

  /** What one GET produced: no response at all, or a status and the outcome of reading the body. */
  datatype Attempt =
    | TransportError(cause: HttpFailure)
    | Reply(status: StatusCode, body: Result<seq<Byte>, HttpFailure>)

  type Network = nat -> Attempt

  datatype Event = Fetch(url: string, userAgent: string) | Sleep(seconds: nat)

  datatype Materialised = Materialised(result: Result<seq<Byte>, ImagePigError>, trace: seq<Event>)

  datatype APIResponse = APIResponse(content: JsonValue) {

    /** `url()`: the `image_url` member, when it is a string. */
    function Url(): (r: Option<string>)
      ensures r.Some? <==> Get(content, "image_url").Some? && Get(content, "image_url").value.JString?
      ensures r.Some? ==> Get(content, "image_url") == Some(JString(r.value))
    {
      match Get(content, "image_url")
      case Some(v) => AsStr(v)
      case None => None
    }

    /** `seed()`: the `seed` member, when it is a number stored as an unsigned 64-bit integer. */
    function Seed(): (r: Option<U64>)
      ensures r.Some? <==> (Get(content, "seed").Some? && Get(content, "seed").value.JNumber?
                            && Get(content, "seed").value.n.PosInt?)
      ensures r.Some? ==> Get(content, "seed") == Some(JNumber(PosInt(r.value)))
    {
      match Get(content, "seed")
      case Some(v) => AsU64(v)
      case None => None
    }

    /** `mime_type()`: the `mime_type` member, when it is a string. */
    function MimeType(): (r: Option<string>)
      ensures r.Some? <==> Get(content, "mime_type").Some? && Get(content, "mime_type").value.JString?
      ensures r.Some? ==> Get(content, "mime_type") == Some(JString(r.value))
    {
      match Get(content, "mime_type")
      case Some(v) => AsStr(v)
      case None => None
    }

    /**
     * `duration()`: `completed_at - started_at`. `parseRfc3339` stands for
     * chrono's RFC 3339 parser and gives an instant on a common time line.
     */
    function Duration(parseRfc3339: string -> Option<int>): (r: Option<int>)
      ensures r.Some? <==>
        && Get(content, "started_at").Some? && Get(content, "started_at").value.JString?
        && Get(content, "completed_at").Some? && Get(content, "completed_at").value.JString?
        && parseRfc3339(Get(content, "started_at").value.s).Some?
        && parseRfc3339(Get(content, "completed_at").value.s).Some?
      ensures r.Some? ==>
        r.value == parseRfc3339(Get(content, "completed_at").value.s).value
                   - parseRfc3339(Get(content, "started_at").value.s).value
    {
      match (Get(content, "started_at"), Get(content, "completed_at"))
      case (Some(started), Some(completed)) =>
        if started.JString? && completed.JString? then
          match (parseRfc3339(started.s), parseRfc3339(completed.s))
          case (Some(s), Some(c)) => Some(c - s)
          case _ => None
        else None
      case _ => None
    }
  }

  /** The number of GETs in a trace. */
  function Fetches(trace: seq<Event>): nat {
    if trace == [] then 0 else (if trace[0].Fetch? then 1 else 0) + Fetches(trace[1..])
  }

  /** The number of pauses in a trace. */
  function Sleeps(trace: seq<Event>): nat {
    if trace == [] then 0 else (if trace[0].Sleep? then 1 else 0) + Sleeps(trace[1..])
  }

  /** How one attempt steers the download loop. */
  datatype Step =
    | Deliver(result: Result<seq<Byte>, ImagePigError>)  // a 2xx: the loop returns this
    | Retry(pause: bool)                                  // go on to the next attempt, pausing first after a 404
    | GiveUp                                              // any other status: leave the loop

  function Classify(a: Attempt): Step {
    match a
    case TransportError(_) => Retry(false)
    case Reply(status, body) =>
      if IsSuccess(status) then
        Deliver(match body
                case Success(bytes) => Success(bytes)
                case Failure(cause) => Failure(HttpError(cause)))
      else if status == NOT_FOUND then Retry(true)
      else GiveUp
  }

  /**
   * Classify's three outcomes, stated from the attempt: only a 2xx delivers,
   * with its body or HttpError; a 404 and a transport failure retry, and only
   * the 404 pauses; every other status gives up.
   */
  lemma ClassifyCases(a: Attempt)
    ensures var s := Classify(a);
      && (s.Deliver? <==> a.Reply? && IsSuccess(a.status))
      && (s.Deliver? ==> s.result == (if a.body.Success? then Success(a.body.value) else Failure(HttpError(a.body.error))))
      && (s.Retry? <==> a.TransportError? || a.status == NOT_FOUND)
      && (s.Retry? ==> (s.pause <==> a.Reply?))
      && (s.GiveUp? <==> a.Reply? && !IsSuccess(a.status) && a.status != NOT_FOUND)
  {
  }

  /**
   * The download loop from attempt `i` on: what it returns and the GETs and
   * pauses it makes, one attempt at a time as Classify steers it.
   */
  function Download(url: string, network: Network, i: nat): Materialised
    requires i <= DOWNLOAD_ATTEMPTS
    decreases DOWNLOAD_ATTEMPTS - i
  {
    if i == DOWNLOAD_ATTEMPTS then Materialised(Failure(MissingData), [])
    else
      var fetch := Fetch(url, USER_AGENT);
      match Classify(network(i))
      case Deliver(result) => Materialised(result, [fetch])
      case GiveUp => Materialised(Failure(MissingData), [fetch])
      case Retry(pause) =>
        var rest := Download(url, network, i + 1);
        var trace := if pause then [fetch, Sleep(DOWNLOAD_INTERRUPTION)] + rest.trace else [fetch] + rest.trace;
        Materialised(rest.result, trace)
  }

  /**
   * The download fails only with MissingData (the attempts run out or one
   * gives up) or HttpError (a body read failed), and it makes a GET exactly
   * when an attempt remains.
   */
  lemma {:induction false} DownloadErrors(url: string, network: Network, i: nat)
    requires i <= DOWNLOAD_ATTEMPTS
    ensures var m := Download(url, network, i);
      && (m.result.Failure? ==> m.result.error == MissingData || m.result.error.HttpError?)
      && (m.trace != [] <==> i < DOWNLOAD_ATTEMPTS)
    decreases DOWNLOAD_ATTEMPTS - i
  {
    if i < DOWNLOAD_ATTEMPTS && Classify(network(i)).Retry? {
      DownloadErrors(url, network, i + 1);
    }
  }

  /** `data()` as a function of the response body, the base64 decoder and the scripted network. */
  function Materialise(response: APIResponse, codecs: Codecs, network: Network): Materialised {
    match Get(response.content, "image_data")
    case Some(JString(s)) =>
      (match codecs.base64Decode(Utf8Encode(s))
       case Some(bytes) => Materialised(Success(bytes), [])
       case None => Materialised(Failure(UnexpectedResponse), []))
    case _ =>
      match response.Url()
      case Some(url) => Download(url, network, 0)
      case None => Materialised(Failure(MissingData), [])
  }

  /**
   * `APIResponse::data`: inline data first; otherwise up to DOWNLOAD_ATTEMPTS
   * GETs of `image_url`, returning the body of the first 2xx reply, sleeping
   * after each 404, skipping an attempt that failed in transport, and leaving
   * the loop on any other status; `MissingData` in every other case.
   */
  method Data(response: APIResponse, codecs: Codecs, network: Network)
    returns (result: Result<seq<Byte>, ImagePigError>, trace: seq<Event>)
    ensures Materialised(result, trace) == Materialise(response, codecs, network)
  {
    trace := [];
    var imageData := Get(response.content, "image_data");
    if imageData.Some? && imageData.value.JString? {
      var decoded := codecs.base64Decode(Utf8Encode(imageData.value.s));
      if decoded.Some? {
        return Success(decoded.value), trace;
      }
      return Failure(UnexpectedResponse), trace;
    }

    var url := response.Url();
    if url.Some? {
      ghost var whole := Download(url.value, network, 0);
      var i := 0;
      while i < DOWNLOAD_ATTEMPTS
        invariant 0 <= i <= DOWNLOAD_ATTEMPTS
        invariant whole.result == Download(url.value, network, i).result
        invariant whole.trace == trace + Download(url.value, network, i).trace
      {
        DownloadStep(url.value, network, i, trace);
        var attempt := network(i);
        trace := trace + [Fetch(url.value, USER_AGENT)];
        if attempt.Reply? {
          if IsSuccess(attempt.status) {
            match attempt.body
            case Success(bytes) => return Success(bytes), trace;
            case Failure(cause) => return Failure(HttpError(cause)), trace;
          }
          if attempt.status == NOT_FOUND {
            trace := trace + [Sleep(DOWNLOAD_INTERRUPTION)];
          } else {
            break;
          }
        }
        i := i + 1;
      }
    }
    result := Failure(MissingData);
  }

  /**
   * One turn of the download loop, stated after a trace `before` of the
   * earlier attempts so that it matches the loop's invariant as written.
   */
  lemma DownloadStep(url: string, network: Network, i: nat, before: seq<Event>)
    requires i < DOWNLOAD_ATTEMPTS
    ensures var here, next, fetch := Download(url, network, i), Download(url, network, i + 1), Fetch(url, USER_AGENT);
      match network(i)
      case TransportError(_) =>
        here.result == next.result && before + here.trace == before + [fetch] + next.trace
      case Reply(status, body) =>
        if IsSuccess(status) then
          here == Materialised(if body.Success? then Success(body.value) else Failure(HttpError(body.error)), [fetch])
        else if status == NOT_FOUND then
          here.result == next.result && before + here.trace == before + [fetch] + [Sleep(DOWNLOAD_INTERRUPTION)] + next.trace
        else
          here == Materialised(Failure(MissingData), [fetch])
  {
    match network(i)
    case TransportError(_) =>
    case Reply(status, body) =>
  }

  /** The first attempt at or after `i` that ends the loop (a 2xx, or a status other than 404), if any. */
  function FirstDecisive(network: Network, i: nat): (k: Option<nat>)
    requires i <= DOWNLOAD_ATTEMPTS
    ensures k.Some? ==> i <= k.value < DOWNLOAD_ATTEMPTS && !Classify(network(k.value)).Retry?
    ensures forall j :: i <= j < (if k.Some? then k.value else DOWNLOAD_ATTEMPTS) ==> Classify(network(j)).Retry?
    decreases DOWNLOAD_ATTEMPTS - i
  {
    if i == DOWNLOAD_ATTEMPTS then None
    else if Classify(network(i)).Retry? then FirstDecisive(network, i + 1)
    else Some(i)
  }

  predicate IsNotFound(a: Attempt) {
    a.Reply? && a.status == NOT_FOUND
  }

  /** The number of 404 replies among attempts `i` .. `k - 1`. */
  function NotFounds(network: Network, i: nat, k: nat): nat
    requires i <= k
    decreases k - i
  {
    if i == k then 0 else (if IsNotFound(network(i)) then 1 else 0) + NotFounds(network, i + 1, k)
  }

  /**
   * The download loop, characterised by the first decisive attempt k: it makes
   * the GETs up to and including k (all of them when there is none), pauses
   * once per 404 before k and nowhere else, returns the body of k when k is a
   * 2xx and `MissingData` otherwise, and every GET is of `url` with the fixed
   * User-Agent.
   */
  lemma {:induction false} DownloadOutcome(url: string, network: Network, i: nat)
    requires i <= DOWNLOAD_ATTEMPTS
    ensures var m, k := Download(url, network, i), FirstDecisive(network, i);
      && Fetches(m.trace) == (if k.Some? then k.value + 1 else DOWNLOAD_ATTEMPTS) - i
      && Sleeps(m.trace) == NotFounds(network, i, if k.Some? then k.value else DOWNLOAD_ATTEMPTS)
      && m.result == (if k.Some? && Classify(network(k.value)).Deliver?
                      then Classify(network(k.value)).result
                      else Failure(MissingData))
      && forall e :: e in m.trace ==> e == Fetch(url, USER_AGENT) || e == Sleep(DOWNLOAD_INTERRUPTION)
    decreases DOWNLOAD_ATTEMPTS - i
  {
    if i < DOWNLOAD_ATTEMPTS {
      var fetch := Fetch(url, USER_AGENT);
      var step := Classify(network(i));
      if step.Retry? {
        var rest := Download(url, network, i + 1);
        DownloadOutcome(url, network, i + 1);
        var k := FirstDecisive(network, i + 1);
        if step.pause {
          var t := [fetch, Sleep(DOWNLOAD_INTERRUPTION)] + rest.trace;
          assert t[1..][1..] == rest.trace;
          assert IsNotFound(network(i));
        } else {
          var t := [fetch] + rest.trace;
          assert t[1..] == rest.trace;
          assert !IsNotFound(network(i));
        }
      } else {
        assert [fetch][1..] == [];
      }
    }
  }

  /** When every attempt in `i` .. `k - 1` is a 404, each of them is counted. */
  lemma {:induction false} AllNotFound(network: Network, i: nat, k: nat)
    requires i <= k
    requires forall j :: i <= j < k ==> IsNotFound(network(j))
    ensures NotFounds(network, i, k) == k - i
    decreases k - i
  {
    if i < k {
      AllNotFound(network, i + 1, k);
    }
  }

  /** When no attempt in `i` .. `k - 1` is a 404, none is counted. */
  lemma {:induction false} NoneNotFound(network: Network, i: nat, k: nat)
    requires i <= k
    requires forall j :: i <= j < k ==> !IsNotFound(network(j))
    ensures NotFounds(network, i, k) == 0
    decreases k - i
  {
    if i < k {
      NoneNotFound(network, i + 1, k);
    }
  }

  /** `data()` takes the download path for `url`: image_data is not a string and image_url is `url`. */
  predicate DownloadsFrom(response: APIResponse, url: string) {
    AsStr(Get(response.content, "image_data").GetOr(JNull)).None? && response.Url() == Some(url)
  }

  /** The image_data member when it is a string: `data()` decodes it and never downloads. */
  lemma InlineDataWins(response: APIResponse, codecs: Codecs, network: Network, s: string)
    requires Get(response.content, "image_data") == Some(JString(s))
    ensures var m := Materialise(response, codecs, network);
      && m.trace == []
      && (codecs.base64Decode(Utf8Encode(s)).Some? ==> m.result == Success(codecs.base64Decode(Utf8Encode(s)).value))
      && (codecs.base64Decode(Utf8Encode(s)).None? ==> m.result == Failure(UnexpectedResponse))
  {
  }

  /** With neither a string image_data nor a string image_url, `data()` fails at once with MissingData. */
  lemma NoSourceMissing(response: APIResponse, codecs: Codecs, network: Network)
    requires AsStr(Get(response.content, "image_data").GetOr(JNull)).None?
    requires response.Url().None?
    ensures Materialise(response, codecs, network) == Materialised(Failure(MissingData), [])
  {
  }

  /** `data()` fails only with UnexpectedResponse, MissingData or HttpError, and UnexpectedResponse comes with no GET. */
  lemma DataErrors(response: APIResponse, codecs: Codecs, network: Network)
    ensures var m := Materialise(response, codecs, network);
      && (m.result.Failure? ==> m.result.error in {UnexpectedResponse, MissingData} || m.result.error.HttpError?)
      && (m.result.Failure? && m.result.error == UnexpectedResponse ==> m.trace == [])
  {
    var url := response.Url();
    if AsStr(Get(response.content, "image_data").GetOr(JNull)).None? && url.Some? {
      DownloadErrors(url.value, network, 0);
    }
  }

  /** The GET count never exceeds DOWNLOAD_ATTEMPTS, nor the pause count the GET count. */
  lemma DataBounds(response: APIResponse, codecs: Codecs, network: Network)
    ensures var m := Materialise(response, codecs, network);
      && Fetches(m.trace) <= DOWNLOAD_ATTEMPTS
      && Sleeps(m.trace) <= Fetches(m.trace)
  {
    var url := response.Url();
    if AsStr(Get(response.content, "image_data").GetOr(JNull)).None? && url.Some? {
      DownloadOutcome(url.value, network, 0);
      var k := FirstDecisive(network, 0);
      NotFoundsBound(network, 0, if k.Some? then k.value else DOWNLOAD_ATTEMPTS);
    }
  }

  lemma {:induction false} NotFoundsBound(network: Network, i: nat, k: nat)
    requires i <= k
    ensures NotFounds(network, i, k) <= k - i
    decreases k - i
  {
    if i < k {
      NotFoundsBound(network, i + 1, k);
    }
  }

  /** Every attempt a 404: MissingData after exactly DOWNLOAD_ATTEMPTS GETs and as many pauses. */
  lemma AlwaysNotFound(response: APIResponse, codecs: Codecs, network: Network, url: string)
    requires DownloadsFrom(response, url)
    requires forall j :: 0 <= j < DOWNLOAD_ATTEMPTS ==> IsNotFound(network(j))
    ensures var m := Materialise(response, codecs, network);
      m.result == Failure(MissingData) && Fetches(m.trace) == DOWNLOAD_ATTEMPTS && Sleeps(m.trace) == DOWNLOAD_ATTEMPTS
  {
    DownloadOutcome(url, network, 0);
    AllNotFound(network, 0, DOWNLOAD_ATTEMPTS);
  }

  /** Every attempt a transport failure: each is skipped without a pause, and the loop runs out. */
  lemma AlwaysTransportError(response: APIResponse, codecs: Codecs, network: Network, url: string)
    requires DownloadsFrom(response, url)
    requires forall j :: 0 <= j < DOWNLOAD_ATTEMPTS ==> network(j).TransportError?
    ensures var m := Materialise(response, codecs, network);
      m.result == Failure(MissingData) && Fetches(m.trace) == DOWNLOAD_ATTEMPTS && Sleeps(m.trace) == 0
  {
    DownloadOutcome(url, network, 0);
    NoneNotFound(network, 0, DOWNLOAD_ATTEMPTS);
  }

  /**
   * Attempt k the first 2xx, every earlier one a 404 or a transport failure:
   * exactly k + 1 GETs, one pause per earlier 404, and the reply's body (or
   * HttpError when reading it failed).
   */
  lemma FirstSuccess(response: APIResponse, codecs: Codecs, network: Network, url: string, k: nat)
    requires DownloadsFrom(response, url)
    requires k < DOWNLOAD_ATTEMPTS
    requires forall j :: 0 <= j < k ==> network(j).TransportError? || IsNotFound(network(j))
    requires network(k).Reply? && IsSuccess(network(k).status)
    ensures var m := Materialise(response, codecs, network);
      && Fetches(m.trace) == k + 1
      && Sleeps(m.trace) == NotFounds(network, 0, k)
      && (network(k).body.Success? ==> m.result == Success(network(k).body.value))
      && (network(k).body.Failure? ==> m.result == Failure(HttpError(network(k).body.error)))
  {
    DownloadOutcome(url, network, 0);
    FirstDecisiveAt(network, 0, k);
  }

  /**
   * Attempt k the first reply that is neither 2xx nor 404, every earlier one a
   * 404 or a transport failure: the loop stops there with MissingData after
   * exactly k + 1 GETs.
   */
  lemma OtherStatusStops(response: APIResponse, codecs: Codecs, network: Network, url: string, k: nat)
    requires DownloadsFrom(response, url)
    requires k < DOWNLOAD_ATTEMPTS
    requires forall j :: 0 <= j < k ==> network(j).TransportError? || IsNotFound(network(j))
    requires network(k).Reply? && !IsSuccess(network(k).status) && network(k).status != NOT_FOUND
    ensures var m := Materialise(response, codecs, network);
      m.result == Failure(MissingData) && Fetches(m.trace) == k + 1 && Sleeps(m.trace) == NotFounds(network, 0, k)
  {
    DownloadOutcome(url, network, 0);
    FirstDecisiveAt(network, 0, k);
  }

  /** The first decisive attempt is the one that ends a run of retries. */
  lemma {:induction false} FirstDecisiveAt(network: Network, i: nat, k: nat)
    requires i <= k < DOWNLOAD_ATTEMPTS
    requires forall j :: i <= j < k ==> Classify(network(j)).Retry?
    requires !Classify(network(k)).Retry?
    ensures FirstDecisive(network, i) == Some(k)
    decreases k - i
  {
    if i < k {
      FirstDecisiveAt(network, i + 1, k);
    }
  }

  /**
   * The download delivers bytes exactly when some attempt is a 2xx whose body
   * was read, and every attempt before it a 404 or a transport failure.
   */
  lemma DownloadSucceedsIff(response: APIResponse, codecs: Codecs, network: Network, url: string)
    requires DownloadsFrom(response, url)
    ensures Materialise(response, codecs, network).result.Success? <==>
      exists k :: 0 <= k < DOWNLOAD_ATTEMPTS && DeliversAt(network, k)
  {
    DownloadOutcome(url, network, 0);
    var first := FirstDecisive(network, 0);
    if Download(url, network, 0).result.Success? {
      assert DeliversAt(network, first.value);
    }
    if k :| 0 <= k < DOWNLOAD_ATTEMPTS && DeliversAt(network, k) {
      FirstDecisiveAt(network, 0, k);
    }
  }

  /** Attempt k is a 2xx whose body was read, and every attempt before it retried. */
  predicate DeliversAt(network: Network, k: nat) {
    && network(k).Reply? && IsSuccess(network(k).status) && network(k).body.Success?
    && forall j :: 0 <= j < k ==> Classify(network(j)).Retry?
  }

  /** The body `{"image_url": "http://x/y"}`. */
  function UrlOnly(): APIResponse {
    APIResponse(JObject(map["image_url" := JString("http://x/y")]))
  }

  /** Three 404s, then a 200 with body "hello": the bytes after four GETs and three one-second pauses. */
  lemma ThreeNotFoundsThenHello(codecs: Codecs)
    ensures var hello: seq<Byte> := [0x68, 0x65, 0x6C, 0x6C, 0x6F];
      var network: Network := j => if j < 3 then Reply(404, Failure(HttpFailure("not found"))) else Reply(200, Success(hello));
      var m := Materialise(UrlOnly(), codecs, network);
      m.result == Success(hello) && Fetches(m.trace) == 4 && Sleeps(m.trace) == 3
  {
    var hello: seq<Byte> := [0x68, 0x65, 0x6C, 0x6C, 0x6F];
    var network: Network := j => if j < 3 then Reply(404, Failure(HttpFailure("not found"))) else Reply(200, Success(hello));
    FirstSuccess(UrlOnly(), codecs, network, "http://x/y", 3);
    AllNotFound(network, 0, 3);
  }

  /** A 500 on the first GET: MissingData after that one GET, without a retry. */
  lemma ServerErrorNoRetry(codecs: Codecs, body: Result<seq<Byte>, HttpFailure>)
    ensures var network: Network := j => Reply(500, body);
      var m := Materialise(UrlOnly(), codecs, network);
      m.result == Failure(MissingData) && Fetches(m.trace) == 1 && Sleeps(m.trace) == 0
  {
    var network: Network := j => Reply(500, body);
    OtherStatusStops(UrlOnly(), codecs, network, "http://x/y", 0);
  }

  /** The body `{}`: MissingData with no GET at all. */
  lemma EmptyBodyMissing(codecs: Codecs, network: Network)
    ensures Materialise(APIResponse(JObject(map[])), codecs, network) == Materialised(Failure(MissingData), [])
  {
    NoSourceMissing(APIResponse(JObject(map[])), codecs, network);
  }

  /**
   * The body `{"image_data": "aGVsbG8="}` with a decoder that reads the
   * character codes of that text as "hello": those bytes, no GET.
   */
  lemma InlineHello(codecs: Codecs, network: Network)
    requires codecs.base64Decode([0x61, 0x47, 0x56, 0x73, 0x62, 0x47, 0x38, 0x3D]) == Some([0x68, 0x65, 0x6C, 0x6C, 0x6F])
    ensures Materialise(APIResponse(JObject(map["image_data" := JString("aGVsbG8=")])), codecs, network)
            == Materialised(Success([0x68, 0x65, 0x6C, 0x6C, 0x6F]), [])
  {
    HelloTextCodes();
    InlineDataWins(APIResponse(JObject(map["image_data" := JString("aGVsbG8=")])), codecs, network, "aGVsbG8=");
  }

  /** The text "aGVsbG8=" reaches the decoder as its ASCII codes. */
  lemma HelloTextCodes()
    ensures Utf8Encode("aGVsbG8=") == [0x61, 0x47, 0x56, 0x73, 0x62, 0x47, 0x38, 0x3D]
  {
    var text := "aGVsbG8=";
    var codes: seq<Byte> := [0x61, 0x47, 0x56, 0x73, 0x62, 0x47, 0x38, 0x3D];
    assert IsAscii(text);
    AsciiEncodesToCodes(text);
    assert forall i :: 0 <= i < |codes| ==> codes[i] == text[i] as int;
  }
}
