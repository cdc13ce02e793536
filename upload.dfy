/**
  How `create_chart` reads the image host's answer to the upload: status
  check, Content-Encoding decompression, the JSON success/url path and the
  header/body fallback with its last-resort base64 decoding. Brotli, gzip,
  the JSON parser, UTF-8 decoding and base64 are library calls; they are
  parameters here (`Codecs`), each a partial function returning None where
  the library raises.
 */
module Upload {
  import opened Wrappers
  import opened Text

  newtype byte = x: int | 0 <= x < 256
  type Bytes = seq<byte>

  /** A parsed JSON document (numbers limited to integers). */
  datatype Json =
    | JNull
    | JBool(b: bool)
    | JInt(i: int)
    | JStr(s: string)
    | JArr(items: seq<Json>)
    | JObj(fields: map<string, Json>)

  /** Python truthiness of the value `json.loads` returns. */
  predicate Truthy(j: Json)
    ensures !Truthy(j) <==>
      j in {JNull, JBool(false), JInt(0), JStr(""), JArr([]), JObj(map[])}
  {
    match j
    case JNull => false
    case JBool(b) => b
    case JInt(i) => i != 0
    case JStr(s) => s != ""
    case JArr(items) => items != []
    case JObj(fields) => fields != map[]
  }

  /**
    The response object: its status code, its headers keyed by lower-case
    name (lookups in `requests` ignore case) and its raw body.
   */
  datatype Response = Response(status: int, headers: map<string, string>, content: Bytes)

  const ContentEncoding: string := "content-encoding"
  const ContentType: string := "content-type"
  const Location: string := "location"

  /** `response.headers.get(name, default)` */
  function HeaderOr(r: Response, name: string, default: string): (v: string)
    ensures name in r.headers ==> v == r.headers[name]
    ensures name !in r.headers ==> v == default
  {
    if name in r.headers then r.headers[name] else default
  }

  /**
    The library calls of the response handling. `brotli` is None when the
    module cannot be imported; every function returns None where the
    library raises.
   */
  datatype Codecs = Codecs(
    brotli: Option<Bytes -> Option<Bytes>>,
    gzip: Bytes -> Option<Bytes>,
    parseJson: Bytes -> Option<Json>,
    utf8: Bytes -> Option<string>,
    base64: string -> Option<Bytes>)

  /** Why no URL came out of the response; create_chart turns each into a 500. */
  datatype UploadError =
    | BadStatus(code: int)        // any status other than 200
    | JsonContentTypeUnusable     // fallback refused: the response claims to be JSON
    | BodyNotUtf8                 // fallback: the body does not decode as UTF-8
    | NoValidUrl                  // fallback: neither the candidate nor its base64 decoding is a URL

  // ---------------------------------------------------------------------------
  // The chain of attempts, step by step
  // ---------------------------------------------------------------------------

  /**
    Step 1, Content-Encoding. `content` is the body the later steps see;
    `jsonTried` is false when `import brotli` raised, which skips the JSON
    step and goes straight to the fallback with the raw body.
   */
  datatype Decoded = Decoded(content: Bytes, jsonTried: bool)

  function Decode(r: Response, c: Codecs): (d: Decoded)
    ensures var enc := Lower(HeaderOr(r, ContentEncoding, ""));
      (enc != "br" && enc != "gzip" ==> d == Decoded(r.content, true)) &&
      (enc == "gzip" ==> d.jsonTried && DecompressedOrRaw(d.content, c.gzip(r.content), r.content)) &&
      (enc == "br" && c.brotli.None? ==> d == Decoded(r.content, false)) &&
      (enc == "br" && c.brotli.Some? ==>
         d.jsonTried && DecompressedOrRaw(d.content, c.brotli.value(r.content), r.content))
  {
    var enc := Lower(HeaderOr(r, ContentEncoding, ""));
    if enc == "br" then
      match c.brotli
      case None => Decoded(r.content, false)
      case Some(decompress) => Decoded(OrRaw(decompress(r.content), r.content), true)
    else if enc == "gzip" then Decoded(OrRaw(c.gzip(r.content), r.content), true)
    else Decoded(r.content, true)
  }

  /** `content` is the decompressed body, or the raw body when decompression raised. */
  predicate DecompressedOrRaw(content: Bytes, decompressed: Option<Bytes>, raw: Bytes) {
    (decompressed.Some? ==> content == decompressed.value) &&
    (decompressed.None? ==> content == raw)
  }

  /** The decompressed body, or the raw body when decompression raised. */
  function OrRaw(d: Option<Bytes>, raw: Bytes): Bytes {
    match d
    case Some(b) => b
    case None => raw
  }

  /**
    Step 2, on the parsed document: `response_data.get('success')` is truthy
    and `response_data['data']['url']` exists. Anything else (a falsy
    success, a document that is not an object, a missing key) raises inside
    the inner try and so gives None.
   */
  function SuccessUrl(doc: Json): (url: Option<Json>)
    ensures url.Some? <==>
      doc.JObj? && "success" in doc.fields && Truthy(doc.fields["success"]) &&
      "data" in doc.fields && doc.fields["data"].JObj? && "url" in doc.fields["data"].fields
    ensures url.Some? ==> url.value == doc.fields["data"].fields["url"]
  {
    match doc
    case JObj(fields) =>
      if "success" in fields && Truthy(fields["success"]) && "data" in fields then
        match fields["data"]
        case JObj(data) => if "url" in data then Some(data["url"]) else None
        case _ => None
      else None
    case _ => None
  }

  function JsonUrl(d: Decoded, c: Codecs): (url: Option<Json>)
    ensures url.Some? <==>
      d.jsonTried && c.parseJson(d.content).Some? && SuccessUrl(c.parseJson(d.content).value).Some?
    ensures url.Some? ==> url == SuccessUrl(c.parseJson(d.content).value)
  {
    if !d.jsonTried then None
    else
      match c.parseJson(d.content)
      case None => None
      case Some(doc) => SuccessUrl(doc)
  }

  /** `image_url.startswith(('http://', 'https://'))` */
  predicate IsHttpUrl(s: string) {
    StartsWith(s, "http://") || StartsWith(s, "https://")
  }

  /** An accepted URL begins with "http", then "://" or "s://". */
  lemma HttpUrlScheme(s: string)
    ensures IsHttpUrl(s) <==>
      |s| >= 7 && s[..4] == "http" && (s[4..7] == "://" || (|s| >= 8 && s[4..8] == "s://"))
  {
  }

  /**
    Step 3, the fallback candidate: the Location header when it is present
    and not empty, else the body decoded as UTF-8 and stripped.
   */
  function Candidate(r: Response, content: Bytes, c: Codecs): (cand: Option<string>)
    ensures Location in r.headers && r.headers[Location] != "" ==> cand == Some(r.headers[Location])
    ensures HeaderOr(r, Location, "") == "" ==>
      (cand.None? <==> c.utf8(content).None?) &&
      (cand.Some? ==> cand.value == Strip(c.utf8(content).value))
  {
    var location := HeaderOr(r, Location, "");
    if location != "" then Some(location)
    else
      match c.utf8(content)
      case None => None
      case Some(text) => Some(Strip(text))
  }

  /** Step 4, last resort: the candidate read as base64 text of a URL. */
  function Base64Url(candidate: string, c: Codecs): (url: Option<string>)
    ensures url.Some? ==> IsHttpUrl(url.value)
    ensures url.Some? <==>
      c.base64(candidate).Some? && c.utf8(c.base64(candidate).value).Some? &&
      IsHttpUrl(c.utf8(c.base64(candidate).value).value)
  {
    match c.base64(candidate)
    case None => None
    case Some(raw) =>
      match c.utf8(raw)
      case None => None
      case Some(text) => if IsHttpUrl(text) then Some(text) else None
  }

  /** Steps 3 and 4, reached whenever the JSON step did not return a URL. */
  function Fallback(r: Response, content: Bytes, c: Codecs): (res: Result<Json, UploadError>)
    ensures res.Success? ==> res.value.JStr? && IsHttpUrl(res.value.s)
    ensures Contains(HeaderOr(r, ContentType, ""), "application/json") ==> res == Failure(JsonContentTypeUnusable)
  {
    if Contains(HeaderOr(r, ContentType, ""), "application/json") then Failure(JsonContentTypeUnusable)
    else
      match Candidate(r, content, c)
      case None => Failure(BodyNotUtf8)
      case Some(candidate) =>
        if candidate == "" then Failure(NoValidUrl)
        else if IsHttpUrl(candidate) then Success(JStr(candidate))
        else
          match Base64Url(candidate, c)
          case Some(url) => Success(JStr(url))
          case None => Failure(NoValidUrl)
  }

  /** The whole interpretation of one response, as an ordered chain of attempts. */
  function Interpret(r: Response, c: Codecs): (res: Result<Json, UploadError>)
    ensures r.status != 200 ==> res == Failure(BadStatus(r.status))
  {
    if r.status != 200 then Failure(BadStatus(r.status))
    else
      var d := Decode(r, c);
      match JsonUrl(d, c)
      case Some(url) => Success(url)
      case None => Fallback(r, d.content, c)
  }

  // ---------------------------------------------------------------------------
  // What the chain guarantees
  // ---------------------------------------------------------------------------

  /**
    A document that reports success and carries data.url yields exactly that
    url, whatever the headers say.
   */
  lemma JsonSuccessReturnsUrl(r: Response, c: Codecs, doc: Json)
    requires r.status == 200 && Decode(r, c).jsonTried
    requires c.parseJson(Decode(r, c).content) == Some(doc)
    requires doc.JObj? && "success" in doc.fields && Truthy(doc.fields["success"])
    requires "data" in doc.fields && doc.fields["data"].JObj? && "url" in doc.fields["data"].fields
    ensures Interpret(r, c) == Success(doc.fields["data"].fields["url"])
  {
  }

  /**
    A document that reports failure is not an error by itself: the exception
    raised for it is caught with every other one and the fallback runs.
   */
  lemma RejectedUploadFallsBack(r: Response, c: Codecs, doc: Json)
    requires r.status == 200
    requires c.parseJson(Decode(r, c).content) == Some(doc)
    requires doc.JObj? && "success" in doc.fields && !Truthy(doc.fields["success"])
    ensures Interpret(r, c) == Fallback(r, Decode(r, c).content, c)
  {
  }

  /**
    Every URL the chain returns comes from one of two places: data.url of a
    successful JSON document, or a string starting with http:// or https://
    found by the fallback.
   */
  lemma SuccessHasOrigin(r: Response, c: Codecs)
    requires Interpret(r, c).Success?
    ensures r.status == 200
    ensures var d := Decode(r, c); var url := Interpret(r, c).value;
      JsonUrl(d, c) == Some(url) ||
      (JsonUrl(d, c).None? && url.JStr? && IsHttpUrl(url.s) &&
       !Contains(HeaderOr(r, ContentType, ""), "application/json"))
  {
  }

  /**
    When JSON gave nothing and the response does not claim to be JSON, a
    Location header that is already a URL is returned as it is.
   */
  lemma LocationHeaderAccepted(r: Response, c: Codecs)
    requires r.status == 200 && JsonUrl(Decode(r, c), c).None?
    requires !Contains(HeaderOr(r, ContentType, ""), "application/json")
    requires Location in r.headers && IsHttpUrl(r.headers[Location])
    ensures Interpret(r, c) == Success(JStr(r.headers[Location]))
  {
  }

  /**
    Without a Location header the stripped body is the candidate: surrounding
    whitespace does not stop a URL body from being accepted.
   */
  lemma StrippedBodyAccepted(r: Response, c: Codecs, pad1: string, url: string, pad2: string)
    requires r.status == 200 && JsonUrl(Decode(r, c), c).None?
    requires !Contains(HeaderOr(r, ContentType, ""), "application/json")
    requires HeaderOr(r, Location, "") == ""
    requires AllSpace(pad1) && AllSpace(pad2) && IsHttpUrl(url) && !IsSpace(url[|url| - 1])
    requires c.utf8(Decode(r, c).content) == Some(pad1 + url + pad2)
    ensures Interpret(r, c) == Success(JStr(url))
  {
    assert url[0] == 'h';
    StripOfPadded(pad1, url, pad2);
  }

  /**
    A candidate that is not a URL is returned only through its base64
    decoding, and only when that decoding is a URL.
   */
  lemma NonUrlCandidateNeedsBase64(r: Response, c: Codecs, candidate: string)
    requires r.status == 200 && JsonUrl(Decode(r, c), c).None?
    requires !Contains(HeaderOr(r, ContentType, ""), "application/json")
    requires Candidate(r, Decode(r, c).content, c) == Some(candidate)
    requires candidate != "" && !IsHttpUrl(candidate)
    ensures Interpret(r, c).Success? <==> Base64Url(candidate, c).Some?
    ensures Interpret(r, c).Success? ==> Interpret(r, c).value == JStr(Base64Url(candidate, c).value)
  {
  }

  /**
    A non-empty Location header shadows the body: when it is not a URL, only
    its own base64 decoding can succeed, whatever the body holds.
   */
  lemma LocationShadowsBody(r: Response, c: Codecs)
    requires r.status == 200 && JsonUrl(Decode(r, c), c).None?
    requires !Contains(HeaderOr(r, ContentType, ""), "application/json")
    requires Location in r.headers && r.headers[Location] != "" && !IsHttpUrl(r.headers[Location])
    ensures Interpret(r, c).Success? <==> Base64Url(r.headers[Location], c).Some?
    ensures Interpret(r, c).Success? ==>
      Interpret(r, c).value == JStr(Base64Url(r.headers[Location], c).value)
  {
  }

  /** Without a Location header, a body that is not UTF-8 ends the chain. */
  lemma UndecodableBodyFails(r: Response, c: Codecs)
    requires r.status == 200 && JsonUrl(Decode(r, c), c).None?
    requires !Contains(HeaderOr(r, ContentType, ""), "application/json")
    requires HeaderOr(r, Location, "") == ""
    requires c.utf8(Decode(r, c).content).None?
    ensures Interpret(r, c) == Failure(BodyNotUtf8)
  {
  }

  /** An empty candidate is refused without trying base64. */
  lemma EmptyCandidateFails(r: Response, c: Codecs)
    requires r.status == 200 && JsonUrl(Decode(r, c), c).None?
    requires !Contains(HeaderOr(r, ContentType, ""), "application/json")
    requires Candidate(r, Decode(r, c).content, c) == Some("")
    ensures Interpret(r, c) == Failure(NoValidUrl)
  {
  }

  // ---------------------------------------------------------------------------
  // The handler as the routine runs it
  // ---------------------------------------------------------------------------

  /**
    Lines 195-265 of create_chart, in their own order: `content` is
    reassigned by the decompression step, any failure of the inner try falls
    into the fallback, and every branch either returns a URL or raises.
   */
  method InterpretResponse(r: Response, c: Codecs) returns (res: Result<Json, UploadError>)
    ensures res == Interpret(r, c)
    ensures res.Success? ==> r.status == 200
  {
    if r.status != 200 {
      return Failure(BadStatus(r.status));
    }
    ghost var d := Decode(r, c);
    var content := r.content;
    var encoding := Lower(HeaderOr(r, ContentEncoding, ""));
    var raised := false;
    if encoding == "br" {
      if c.brotli.None? {
        raised := true;
      } else {
        var decompressed := c.brotli.value(content);
        if decompressed.Some? {
          content := decompressed.value;
        } else {
          content := r.content;
        }
      }
    } else if encoding == "gzip" {
      var decompressed := c.gzip(content);
      if decompressed.Some? {
        content := decompressed.value;
      } else {
        content := r.content;
      }
    }
    assert content == d.content && raised == !d.jsonTried;
    if !raised {
      var parsed := c.parseJson(content);
      if parsed.Some? {
        var url := SuccessUrl(parsed.value);
        if url.Some? {
          assert JsonUrl(d, c) == url;
          return Success(url.value);
        }
      }
    }
    assert JsonUrl(d, c).None?;
    // the `except Exception` branch
    res := FallbackResponse(r, content, c);
  }

  /**
    Lines 236-262, the `except Exception` branch: refuse a response labelled
    JSON, take the Location header or else the stripped body, accept it when
    it is an http(s) URL, else try it as base64 of one.
   */
  method FallbackResponse(r: Response, content: Bytes, c: Codecs) returns (res: Result<Json, UploadError>)
    ensures res == Fallback(r, content, c)
  {
    var contentType := HeaderOr(r, ContentType, "");
    if Contains(contentType, "application/json") {
      return Failure(JsonContentTypeUnusable);
    }
    var imageUrl := HeaderOr(r, Location, "");
    if imageUrl == "" {
      var text := c.utf8(content);
      if text.None? {
        return Failure(BodyNotUtf8);
      }
      imageUrl := Strip(text.value);
    }
    if imageUrl != "" {
      if IsHttpUrl(imageUrl) {
        return Success(JStr(imageUrl));
      }
      var raw := c.base64(imageUrl);
      if raw.Some? {
        var decodedUrl := c.utf8(raw.value);
        if decodedUrl.Some? && IsHttpUrl(decodedUrl.value) {
          return Success(JStr(decodedUrl.value));
        }
      }
    }
    return Failure(NoValidUrl);
  }
}
