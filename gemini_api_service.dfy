/** The request builder and response parser of `AIRenderer.Services.GeminiAPIService`.
    The HTTP exchange, the JPEG/base64 encoding of the source image and the base64/bitmap
    decoding of the answer are parameters: `send`, `encode` and `decode`. */
module GeminiApiService {
  import opened Wrappers
  import opened Clr
  import opened Json
  import opened Imaging
  import opened Models

  /** Why the service produced no image. Each `return null` of the C# code is one tag;
      the caller sees them all as "no image" (`Result.ToOption`). */
  datatype Failure =
    | MissingBaseUrl        // blank base URL; nothing sent
    | MissingApiKey         // blank API key; nothing sent
    | MissingSourceImage    // no source image; nothing sent
    | EncodeFailed          // encoding the source image threw; nothing sent
    | ApiError(status: int) // the service answered with a non-success status
    | HttpError(message: string)   // HttpRequestException
    | Timeout(message: string)     // TaskCanceledException (the client's five-minute timeout)
    | Unexpected(message: string)  // any other exception around the exchange
    | MalformedJson         // the body is not a JSON object
    | NoCandidates          // `candidates` missing or without values
    | NoContent             // `candidates[0]` has no `content`
    | NoParts               // the content has no `parts`
    | NoImageData           // no part carries non-blank `inlineData.data`
    | ShapeError            // a Json.NET indexer threw on a token of the wrong kind
    | DecodeFailed          // the chosen data is not base64 of a readable image

  /** The POST the service issues: endpoint, `x-goog-api-key` header and JSON body. */
  datatype HttpRequest = HttpRequest(url: string, apiKey: string, payload: JValue)

  /** What the awaited exchange delivered. A response body that is not JSON is `None`. */
  datatype HttpOutcome =
    | Response(status: int, body: Option<JValue>)
    | RequestFailed(message: string)
    | Canceled(message: string)
    | Faulted(message: string)

  // ---------------------------------------------------------------- request

  /** The text part of the request: the system prompt, a blank line, then the user's prompt;
      just the user's prompt when the system prompt is blank. */
  function FullPrompt(systemPrompt: string, prompt: string): (r: string)
    ensures |r| >= |prompt| && r[|r| - |prompt|..] == prompt
    ensures r == prompt <==> IsNullOrWhiteSpace(systemPrompt)
    ensures !IsNullOrWhiteSpace(systemPrompt) ==>
              |r| == |systemPrompt| + 2 + |prompt| &&
              r[..|systemPrompt|] == systemPrompt && r[|systemPrompt|..|systemPrompt| + 2] == "\n\n"
  {
    if IsNullOrWhiteSpace(systemPrompt) then prompt else systemPrompt + "\n\n" + prompt
  }

  const EndpointPrefix: string := "/v1beta/models/"
  const EndpointSuffix: string := ":generateContent"

  /** `{baseUrl.TrimEnd('/')}/v1beta/models/{model}:generateContent` */
  function EndpointUrl(baseUrl: string, model: string): string {
    TrimEnd(baseUrl, '/') + EndpointPrefix + model + EndpointSuffix
  }

  /** The endpoint is the base URL without its trailing slashes, followed by the model's path. */
  lemma EndpointUrlShape(baseUrl: string, model: string)
    ensures exists n: nat | n <= |baseUrl| ::
              var b := baseUrl[..|baseUrl| - n];
              baseUrl == b + Repeat('/', n) && (b == [] || b[|b| - 1] != '/') &&
              EndpointUrl(baseUrl, model) == b + EndpointPrefix + model + EndpointSuffix
  {
    var b := TrimEnd(baseUrl, '/');
    var n := |baseUrl| - |b|;
    assert baseUrl[..|baseUrl| - n] == b;
    assert baseUrl == b + Repeat('/', n);
  }

  /** "u" and "u///" address the same endpoint. */
  lemma EndpointUrlIgnoresTrailingSlashes(baseUrl: string, model: string, n: nat)
    ensures EndpointUrl(baseUrl + Repeat('/', n), model) == EndpointUrl(baseUrl, model)
  {
    TrimEndAbsorbs(baseUrl, '/', n);
  }

  /** `generationConfig.imageConfig`: `aspectRatio` only when a non-empty ratio is selected,
      `imageSize` always, "1K" when none is selected. */
  function ImageConfig(aspectRatio: Option<string>, imageSize: Option<string>): (r: JValue)
    ensures r.JObj?
    ensures At(r, "aspectRatio").Some? <==> aspectRatio.Some? && aspectRatio.value != ""
    ensures At(r, "aspectRatio").Some? ==> At(r, "aspectRatio") == Some(JStr(aspectRatio.value))
    ensures At(r, "imageSize") == Some(JStr(imageSize.GetOr("1K")))
    ensures forall i | 0 <= i < |r.fields| :: r.fields[i].0 in {"aspectRatio", "imageSize"}
  {
    var ratio := aspectRatio.GetOr("");
    var size := imageSize.GetOr("1K");
    assert "imageSize" != "aspectRatio" by { assert "imageSize"[0] != "aspectRatio"[0]; }
    LookupOne(("imageSize", JStr(size)), "aspectRatio");
    LookupTwo(("aspectRatio", JStr(ratio)), ("imageSize", JStr(size)), "aspectRatio");
    LookupTwo(("aspectRatio", JStr(ratio)), ("imageSize", JStr(size)), "imageSize");
    if IsNullOrEmpty(ratio) then JObj([("imageSize", JStr(size))])
    else JObj([("aspectRatio", JStr(ratio)), ("imageSize", JStr(size))])
  }

  /** The request body. The image part is declared `image/png` although the data the
      service puts there is JPEG-encoded. */
  function Payload(fullPrompt: string, imageBase64: string, imageConfig: JValue): JValue {
    JObj([
      ("contents", JArr([
        JObj([("parts", JArr([
          JObj([("text", JStr(fullPrompt))]),
          JObj([("inline_data", JObj([("mime_type", JStr("image/png")), ("data", JStr(imageBase64))]))])
        ]))])
      ])),
      ("tools", JArr([JObj([("google_search", JObj([]))])])),
      ("generationConfig", JObj([
        ("responseModalities", JArr([JStr("TEXT"), JStr("IMAGE")])),
        ("imageConfig", imageConfig)
      ]))
    ])
  }

  /** The request for a validated call with the given settings and encoded source image. */
  function BuildRequest(baseUrl: string, apiKey: string, prompt: string, settings: SettingsValues,
                        imageBase64: string): HttpRequest
  {
    HttpRequest(
      EndpointUrl(baseUrl, settings.selectedModel),
      apiKey,
      Payload(FullPrompt(settings.systemPrompt, prompt), imageBase64,
              ImageConfig(settings.aspectRatio, settings.imageSize)))
  }

  // Readers that take a request body apart again; they state what a body carries.

  /** `contents[0].parts` */
  function PartsOf(payload: JValue): Option<seq<JValue>> {
    var contents :- At(payload, "contents");
    var first :- Nth(contents, 0);
    var parts :- At(first, "parts");
    if parts.JArr? then Some(parts.items) else None
  }

  /** `contents[0].parts[0].text` */
  function TextOf(payload: JValue): Option<string> {
    var parts :- PartsOf(payload);
    if |parts| == 0 then None
    else
      var text :- At(parts[0], "text");
      AsString(text)
  }

  /** `(mime_type, data)` of `contents[0].parts[1].inline_data` */
  function InlineDataOf(payload: JValue): Option<(string, string)> {
    var parts :- PartsOf(payload);
    if |parts| < 2 then None
    else
      var inline :- At(parts[1], "inline_data");
      var mime :- At(inline, "mime_type");
      var data :- At(inline, "data");
      var m :- AsString(mime);
      var d :- AsString(data);
      Some((m, d))
  }

  /** `generationConfig.imageConfig` */
  function ImageConfigOf(payload: JValue): Option<JValue> {
    var config :- At(payload, "generationConfig");
    At(config, "imageConfig")
  }

  /** The body has one `contents` entry whose parts are the prompt text and then the image,
      declared PNG. */
  lemma PayloadCarriesPromptThenImage(fullPrompt: string, imageBase64: string, imageConfig: JValue)
    ensures var p := Payload(fullPrompt, imageBase64, imageConfig);
      && At(p, "contents").Some? && At(p, "contents").value.JArr? && |At(p, "contents").value.items| == 1
      && PartsOf(p).Some? && |PartsOf(p).value| == 2
      && TextOf(p) == Some(fullPrompt)
      && InlineDataOf(p) == Some(("image/png", imageBase64))
  {
    var p := Payload(fullPrompt, imageBase64, imageConfig);
    assert "contents" != "tools" && "contents" != "generationConfig" by {
      assert "contents"[0] != "tools"[0] && "contents"[0] != "generationConfig"[0];
    }
    LookupThree(p.fields[0], p.fields[1], p.fields[2], "contents");
    var parts := PartsOf(p).value;
    LookupOne(parts[0].fields[0], "text");
    LookupOne(parts[1].fields[0], "inline_data");
    var inline := parts[1].fields[0].1;
    assert "mime_type" != "data" by { assert "mime_type"[0] != "data"[0]; }
    LookupTwo(inline.fields[0], inline.fields[1], "mime_type");
    LookupTwo(inline.fields[0], inline.fields[1], "data");
  }

  /** The body always enables the Google-search tool, asks for text and image back and carries
      the given image configuration. */
  lemma PayloadCarriesToolsAndConfig(fullPrompt: string, imageBase64: string, imageConfig: JValue)
    ensures var p := Payload(fullPrompt, imageBase64, imageConfig);
      && At(p, "tools") == Some(JArr([JObj([("google_search", JObj([]))])]))
      && At(p, "generationConfig").Some?
      && At(At(p, "generationConfig").value, "responseModalities") == Some(JArr([JStr("TEXT"), JStr("IMAGE")]))
      && ImageConfigOf(p) == Some(imageConfig)
  {
    var p := Payload(fullPrompt, imageBase64, imageConfig);
    assert "tools" != "generationConfig" by { assert "tools"[0] != "generationConfig"[0]; }
    LookupThree(p.fields[0], p.fields[1], p.fields[2], "tools");
    LookupThree(p.fields[0], p.fields[1], p.fields[2], "generationConfig");
    var config := p.fields[2].1;
    assert "responseModalities" != "imageConfig" by { assert "responseModalities"[0] != "imageConfig"[0]; }
    LookupTwo(config.fields[0], config.fields[1], "responseModalities");
    LookupTwo(config.fields[0], config.fields[1], "imageConfig");
  }

  /** With ratio "16:9", size "2K", a non-blank system prompt and the prompt "add sunset lighting",
      the request asks for exactly that geometry and carries the combined prompt. */
  lemma SunsetScenario(baseUrl: string, apiKey: string, settings: SettingsValues, imageBase64: string)
    requires settings.aspectRatio == Some("16:9") && settings.imageSize == Some("2K")
    requires !IsNullOrWhiteSpace(settings.systemPrompt)
    ensures var r := BuildRequest(baseUrl, apiKey, "add sunset lighting", settings, imageBase64);
      && ImageConfigOf(r.payload) == Some(JObj([("aspectRatio", JStr("16:9")), ("imageSize", JStr("2K"))]))
      && TextOf(r.payload) == Some(settings.systemPrompt + "\n\n" + "add sunset lighting")
      && InlineDataOf(r.payload) == Some(("image/png", imageBase64))
      && r.apiKey == apiKey
  {
    var config := ImageConfig(settings.aspectRatio, settings.imageSize);
    PayloadCarriesPromptThenImage(FullPrompt(settings.systemPrompt, "add sunset lighting"), imageBase64, config);
    PayloadCarriesToolsAndConfig(FullPrompt(settings.systemPrompt, "add sunset lighting"), imageBase64, config);
  }

  // ---------------------------------------------------------------- response

  /** What `inlineData["data"]?.ToString()` yields, as far as the parser cares: null or "",
      a non-empty scalar text, or the JSON text of an array or object (which begins with
      '[' or '{' and so is never base64). */
  datatype DataText = EmptyText | Text(s: string) | JsonText

  function DataTextOf(v: JValue): (r: DataText)
    ensures r.Text? ==> r.s != ""
  {
    match v
    case JNull => EmptyText
    case JBool(b) => Text(if b then "True" else "False")
    case JNum(t) => if t == "" then EmptyText else Text(t)
    case JStr(s) => if s == "" then EmptyText else Text(s)
    case JArr(_) => JsonText
    case JObj(_) => JsonText
  }

  /** One turn of the loop over the parts: go on, stop with some data, or throw. */
  datatype Step = Skip | Take(data: DataText) | Throw

  function PartStep(part: JValue): (r: Step)
    ensures r.Take? ==> !r.data.EmptyText?
  {
    match Get(part, "inlineData")
    case Throws => Throw
    case Absent => Skip
    case Present(inlineData) =>
      match Get(inlineData, "data")
      case Throws => Throw
      case Absent => Skip
      case Present(d) => if DataTextOf(d).EmptyText? then Skip else Take(DataTextOf(d))
  }

  datatype Scan = Found(data: DataText) | NotFound | Threw

  /** The loop over the parts, as a recursive definition: the first part that is not skipped decides. */
  function ScanParts(parts: seq<JValue>): Scan {
    if parts == [] then NotFound
    else match PartStep(parts[0])
      case Skip => ScanParts(parts[1..])
      case Take(d) => Found(d)
      case Throw => Threw
  }

  /** Part `i` holds the first data the scan meets. */
  predicate IsFirstData(parts: seq<JValue>, i: int, d: DataText) {
    0 <= i < |parts| && PartStep(parts[i]) == Take(d) &&
    forall j | 0 <= j < i :: PartStep(parts[j]).Skip?
  }

  /** A part that carries data, preceded only by parts that are skipped, is what the scan finds. */
  lemma {:induction false} ScanFindsFirstData(parts: seq<JValue>, i: int, d: DataText)
    requires IsFirstData(parts, i, d)
    ensures ScanParts(parts) == Found(d)
  {
    if i > 0 {
      assert PartStep(parts[0]).Skip?;
      forall j | 0 <= j < i - 1 ensures PartStep(parts[1..][j]).Skip? {
        assert parts[1..][j] == parts[j + 1];
      }
      ScanFindsFirstData(parts[1..], i - 1, d);
    }
  }

  /** Whatever the scan finds is the data of the first part that is not skipped. */
  lemma {:induction false} ScanFoundIsFirstData(parts: seq<JValue>)
    ensures ScanParts(parts).Found? ==> exists i :: IsFirstData(parts, i, ScanParts(parts).data)
  {
    if parts != [] && PartStep(parts[0]).Skip? {
      ScanFoundIsFirstData(parts[1..]);
      if ScanParts(parts).Found? {
        var i :| IsFirstData(parts[1..], i, ScanParts(parts).data);
        assert IsFirstData(parts, i + 1, ScanParts(parts).data) by {
          forall j | 0 <= j < i + 1 ensures PartStep(parts[j]).Skip? {
            if j > 0 { assert parts[j] == parts[1..][j - 1]; }
          }
        }
      }
    } else if parts != [] && PartStep(parts[0]).Take? {
      assert IsFirstData(parts, 0, ScanParts(parts).data);
    }
  }

  /** The scan finds nothing exactly when every part is skipped. */
  lemma {:induction false} ScanNotFoundIffAllSkipped(parts: seq<JValue>)
    ensures ScanParts(parts) == NotFound <==> forall j | 0 <= j < |parts| :: PartStep(parts[j]).Skip?
  {
    if parts != [] {
      ScanNotFoundIffAllSkipped(parts[1..]);
      assert forall j | 1 <= j < |parts| :: parts[j] == parts[1..][j - 1];
    }
  }

  /** The tokens `foreach (var part in parts)` visits, or `None` when its first turn throws:
      the children of a non-empty object are properties, whose string indexer throws;
      a scalar has no children. */
  function PartsToScan(parts: JValue): (r: Option<seq<JValue>>)
    ensures r.None? <==> parts.JObj? && parts.fields != []
    ensures parts.JArr? ==> r == Some(parts.items)
    ensures r.Some? && !parts.JArr? ==> r.value == []
  {
    match parts
    case JArr(items) => Some(items)
    case JObj(fields) => if fields == [] then Some([]) else None
    case _ => Some([])
  }

  /** The image the scan's outcome stands for. */
  function ImageFromScan(scan: Scan, decode: string -> Option<Image>): Result<Image, Failure> {
    match scan
    case Threw => Failure(ShapeError)
    case NotFound => Failure(NoImageData)
    case Found(EmptyText) => Failure(NoImageData)
    case Found(JsonText) => Failure(DecodeFailed)
    case Found(Text(s)) =>
      if IsNullOrWhiteSpace(s) then Failure(NoImageData)
      else match decode(s)
        case None => Failure(DecodeFailed)
        case Some(image) => Success(image)
  }

  /** What `candidates[0]` yields. */
  function CandidateImage(candidate: JValue, decode: string -> Option<Image>): Result<Image, Failure> {
    match Get(candidate, "content")
    case Throws => Failure(ShapeError)
    case Absent => Failure(NoContent)
    case Present(content) =>
      match Get(content, "parts")
      case Throws => Failure(ShapeError)
      case Absent => Failure(NoParts)
      case Present(parts) =>
        match PartsToScan(parts)
        case None => Failure(ShapeError)
        case Some(ps) => ImageFromScan(ScanParts(ps), decode)
  }

  /** The parser as a function of the (already parsed) response body. */
  function ParseResponse(body: Option<JValue>, decode: string -> Option<Image>): Result<Image, Failure> {
    if body.None? || !body.value.JObj? then Failure(MalformedJson)
    else match Get(body.value, "candidates")
      case Throws => Failure(ShapeError)
      case Absent => Failure(NoCandidates)
      case Present(candidates) =>
        if !HasValues(candidates) then Failure(NoCandidates)
        else if !candidates.JArr? then Failure(ShapeError)
        else CandidateImage(candidates.items[0], decode)
  }

  /** `ParseGeneratedImage`: walks `candidates[0].content.parts[]` for the first part with
      non-empty `inlineData.data` and decodes it. */
  method ParseGeneratedImage(body: Option<JValue>, decode: string -> Option<Image>)
    returns (result: Result<Image, Failure>)
    ensures result == ParseResponse(body, decode)
  {
    if body.None? || !body.value.JObj? {
      return Failure(MalformedJson);
    }
    var json := body.value;
    var candidates := Get(json, "candidates");
    if candidates.Throws? {
      return Failure(ShapeError);
    }
    if candidates.Absent? || !HasValues(candidates.value) {
      return Failure(NoCandidates);
    }
    if !candidates.value.JArr? {
      return Failure(ShapeError);
    }
    var firstCandidate := candidates.value.items[0];
    var content := Get(firstCandidate, "content");
    if content.Throws? {
      return Failure(ShapeError);
    }
    if content.Absent? {
      return Failure(NoContent);
    }
    var parts := Get(content.value, "parts");
    if parts.Throws? {
      return Failure(ShapeError);
    }
    if parts.Absent? {
      return Failure(NoParts);
    }
    var toScan := PartsToScan(parts.value);
    if toScan.None? {
      return Failure(ShapeError);
    }
    var ps := toScan.value;
    assert ParseResponse(body, decode) == ImageFromScan(ScanParts(ps), decode);

    var base64Image := EmptyText;
    var i := 0;
    while i < |ps|
      invariant 0 <= i <= |ps|
      invariant base64Image == EmptyText
      invariant ScanParts(ps) == ScanParts(ps[i..])
    {
      var inlineData := Get(ps[i], "inlineData");
      if inlineData.Throws? {
        return Failure(ShapeError);
      }
      if inlineData.Present? {
        var data := Get(inlineData.value, "data");
        if data.Throws? {
          return Failure(ShapeError);
        }
        base64Image := if data.Present? then DataTextOf(data.value) else EmptyText;
        if !base64Image.EmptyText? {
          break;
        }
      }
      i := i + 1;
    }
    assert base64Image.EmptyText? ==> ScanParts(ps) == NotFound;
    assert !base64Image.EmptyText? ==> ScanParts(ps) == Found(base64Image);

    match base64Image
    case EmptyText =>
      result := Failure(NoImageData);
    case JsonText =>
      result := Failure(DecodeFailed);
    case Text(s) =>
      if IsNullOrWhiteSpace(s) {
        result := Failure(NoImageData);
      } else {
        var image := decode(s);
        result := if image.Some? then Success(image.value) else Failure(DecodeFailed);
      }
  }

  /** Only `candidates[0]` is inspected: the answer is that candidate's image, whatever follows it. */
  lemma ParseInspectsFirstCandidateOnly(fields: seq<(string, JValue)>, candidates: seq<JValue>,
                                        decode: string -> Option<Image>)
    requires Lookup(fields, "candidates") == Some(JArr(candidates)) && |candidates| > 0
    ensures ParseResponse(Some(JObj(fields)), decode) == CandidateImage(candidates[0], decode)
  {
  }

  /** The early failures: no candidates, no content, no parts. */
  lemma ParseResponseStructuralFailures(fields: seq<(string, JValue)>, decode: string -> Option<Image>)
    ensures Lookup(fields, "candidates").None? ==>
              ParseResponse(Some(JObj(fields)), decode) == Failure(NoCandidates)
    ensures Lookup(fields, "candidates") == Some(JArr([])) ==>
              ParseResponse(Some(JObj(fields)), decode) == Failure(NoCandidates)
    ensures forall c: seq<(string, JValue)>, rest: seq<JValue> |
              Lookup(fields, "candidates") == Some(JArr([JObj(c)] + rest)) && Lookup(c, "content").None? ::
              ParseResponse(Some(JObj(fields)), decode) == Failure(NoContent)
    ensures forall c: seq<(string, JValue)>, rest: seq<JValue>, k: seq<(string, JValue)> |
              Lookup(fields, "candidates") == Some(JArr([JObj(c)] + rest)) &&
              Lookup(c, "content") == Some(JObj(k)) && Lookup(k, "parts").None? ::
              ParseResponse(Some(JObj(fields)), decode) == Failure(NoParts)
  {
  }

  /** `candidates` that is not an array: a scalar or an empty object has no values (no candidates),
      and a non-empty object passes `HasValues` but its `[0]` throws. */
  lemma NonArrayCandidates(fields: seq<(string, JValue)>, decode: string -> Option<Image>)
    ensures forall s :: Lookup(fields, "candidates") == Some(JStr(s)) ==>
              ParseResponse(Some(JObj(fields)), decode) == Failure(NoCandidates)
    ensures Lookup(fields, "candidates") == Some(JNull) ==>
              ParseResponse(Some(JObj(fields)), decode) == Failure(NoCandidates)
    ensures Lookup(fields, "candidates") == Some(JObj([])) ==>
              ParseResponse(Some(JObj(fields)), decode) == Failure(NoCandidates)
    ensures forall c: seq<(string, JValue)> | c != [] && Lookup(fields, "candidates") == Some(JObj(c)) ::
              ParseResponse(Some(JObj(fields)), decode) == Failure(ShapeError)
  {
  }

  /** `parts` that is not an array: enumerating a non-empty object yields properties, whose indexer
      throws; a scalar or an empty object yields nothing, so no image data is found. */
  lemma NonArrayParts(parts: JValue, decode: string -> Option<Image>)
    requires !parts.JArr?
    ensures parts.JObj? && parts.fields != [] ==>
              CandidateImage(JObj([("content", JObj([("parts", parts)]))]), decode) == Failure(ShapeError)
    ensures !(parts.JObj? && parts.fields != []) ==>
              CandidateImage(JObj([("content", JObj([("parts", parts)]))]), decode) == Failure(NoImageData)
  {
    LookupOne(("content", JObj([("parts", parts)])), "content");
    LookupOne(("parts", parts), "parts");
  }

  /** With a well-formed `candidates[0].content.parts` array, the parser succeeds exactly when the
      first part that carries data carries non-blank text that decodes, and returns that image. */
  lemma {:induction false} ParseSuccessIsFirstImagePart(fields: seq<(string, JValue)>, candidates: seq<JValue>,
      content: JValue, parts: seq<JValue>, decode: string -> Option<Image>, image: Image)
    requires Lookup(fields, "candidates") == Some(JArr(candidates)) && |candidates| > 0
    requires Get(candidates[0], "content") == Present(content)
    requires Get(content, "parts") == Present(JArr(parts))
    ensures ParseResponse(Some(JObj(fields)), decode) == Success(image) <==>
            exists i, s :: IsFirstData(parts, i, Text(s)) && !IsNullOrWhiteSpace(s) && decode(s) == Some(image)
  {
    ScanFoundIsFirstData(parts);
    if exists i, s :: IsFirstData(parts, i, Text(s)) && !IsNullOrWhiteSpace(s) && decode(s) == Some(image) {
      var i, s :| IsFirstData(parts, i, Text(s)) && !IsNullOrWhiteSpace(s) && decode(s) == Some(image);
      ScanFindsFirstData(parts, i, Text(s));
    }
  }

  /** Two parts of which only the second carries `inlineData`: the second part's data is taken. */
  lemma SecondPartImageIsTaken(text: string, mimeType: string, data: string)
    requires data != ""
    ensures ScanParts([
              JObj([("text", JStr(text))]),
              JObj([("inlineData", JObj([("mimeType", JStr(mimeType)), ("data", JStr(data))]))])
            ]) == Found(Text(data))
  {
    assert "text" != "inlineData" by { assert "text"[0] != "inlineData"[0]; }
    LookupOne(("text", JStr(text)), "inlineData");
    LookupTwo(("mimeType", JStr(mimeType)), ("data", JStr(data)), "data");
  }

  /** A whitespace-only `data` stops the scan, so a later part with real data is never reached. */
  lemma WhitespaceDataEndsScan(later: string, decode: string -> Option<Image>)
    ensures var parts := [
              JObj([("inlineData", JObj([("data", JStr(" "))]))]),
              JObj([("inlineData", JObj([("data", JStr(later))]))])
            ];
            CandidateImage(JObj([("content", JObj([("parts", JArr(parts))]))]), decode) == Failure(NoImageData)
  {
    assert IsNullOrWhiteSpace(" ");
  }

  // ---------------------------------------------------------------- the call

  /** How the awaited exchange is classified. */
  function Classify(outcome: HttpOutcome, decode: string -> Option<Image>): Result<Image, Failure> {
    match outcome
    case Response(status, body) =>
      if 200 <= status <= 299 then ParseResponse(body, decode) else Failure(ApiError(status))
    case RequestFailed(m) => Failure(HttpError(m))
    case Canceled(m) => Failure(Timeout(m))
    case Faulted(m) => Failure(Unexpected(m))
  }

  /** An image comes back only from a success status; every other outcome is a failure. */
  lemma ImageOnlyFromSuccessStatus(outcome: HttpOutcome, decode: string -> Option<Image>)
    ensures Classify(outcome, decode).Success? ==> outcome.Response? && 200 <= outcome.status <= 299
    ensures outcome.Response? && !(200 <= outcome.status <= 299) ==>
              Classify(outcome, decode) == Failure(ApiError(outcome.status))
    ensures outcome.RequestFailed? || outcome.Canceled? || outcome.Faulted? ==> Classify(outcome, decode).Failure?
  {
  }

  /** What `GenerateImageAsync` hands back, as a function of its inputs: the first failed check,
      the encoder's failure, or the classified exchange of the request built from the settings. */
  function GenerateOutcome(baseUrl: string, apiKey: string, prompt: string, source: Option<Image>,
                           settings: SettingsValues, encode: Image -> Option<string>,
                           send: HttpRequest -> HttpOutcome, decode: string -> Option<Image>): Result<Image, Failure>
  {
    if IsNullOrWhiteSpace(baseUrl) then Failure(MissingBaseUrl)
    else if IsNullOrWhiteSpace(apiKey) then Failure(MissingApiKey)
    else if source.None? then Failure(MissingSourceImage)
    else match encode(source.value)
      case None => Failure(EncodeFailed)
      case Some(imageBase64) => Classify(send(BuildRequest(baseUrl, apiKey, prompt, settings, imageBase64)), decode)
  }

  /** `GenerateImageAsync`: validates in order base URL, API key, source image (sending nothing on
      failure), builds the request from the settings and the encoded image, sends it once and
      classifies the outcome. It never throws: every path ends in a `Result`. */
  method GenerateImage(baseUrl: string, apiKey: string, prompt: string, source: Option<Image>,
                       settings: RenderSettings, encode: Image -> Option<string>,
                       send: HttpRequest -> HttpOutcome, decode: string -> Option<Image>)
    returns (result: Result<Image, Failure>, sent: Option<HttpRequest>)
    ensures IsNullOrWhiteSpace(baseUrl) ==> result == Failure(MissingBaseUrl) && sent == None
    ensures !IsNullOrWhiteSpace(baseUrl) && IsNullOrWhiteSpace(apiKey) ==>
              result == Failure(MissingApiKey) && sent == None
    ensures !IsNullOrWhiteSpace(baseUrl) && !IsNullOrWhiteSpace(apiKey) && source.None? ==>
              result == Failure(MissingSourceImage) && sent == None
    ensures (!IsNullOrWhiteSpace(baseUrl) && !IsNullOrWhiteSpace(apiKey) && source.Some? &&
             encode(source.value).None?) ==> result == Failure(EncodeFailed) && sent == None
    ensures sent.Some? <==>
              !IsNullOrWhiteSpace(baseUrl) && !IsNullOrWhiteSpace(apiKey) && source.Some? &&
              encode(source.value).Some?
    ensures sent.Some? ==>
              sent.value == BuildRequest(baseUrl, apiKey, prompt, settings.Values(), encode(source.value).value) &&
              result == Classify(send(sent.value), decode)
    ensures result == GenerateOutcome(baseUrl, apiKey, prompt, source, settings.Values(), encode, send, decode)
  {
    if IsNullOrWhiteSpace(baseUrl) {
      return Failure(MissingBaseUrl), None;
    }
    if IsNullOrWhiteSpace(apiKey) {
      return Failure(MissingApiKey), None;
    }
    if source.None? {
      return Failure(MissingSourceImage), None;
    }

    var fullPrompt := FullPrompt(settings.systemPrompt, prompt);
    var imageBase64 := encode(source.value);
    if imageBase64.None? {
      return Failure(EncodeFailed), None;
    }
    var fullUrl := EndpointUrl(baseUrl, settings.selectedModel);
    var imageConfig := ImageConfig(settings.aspectRatio, settings.imageSize);
    var payload := Payload(fullPrompt, imageBase64.value, imageConfig);
    var request := HttpRequest(fullUrl, apiKey, payload);
    assert request == BuildRequest(baseUrl, apiKey, prompt, settings.Values(), imageBase64.value);
    sent := Some(request);

    result := SendAndClassify(request, send, decode);
  }

  /** The exchange inside the `try` of `GenerateImageAsync`: one POST, a non-success status is an
      API error, a success body goes to the parser, and each caught exception is its own failure. */
  method SendAndClassify(request: HttpRequest, send: HttpRequest -> HttpOutcome, decode: string -> Option<Image>)
    returns (result: Result<Image, Failure>)
    ensures result == Classify(send(request), decode)
  {
    var response := send(request);
    match response
    case Response(status, body) =>
      if !(200 <= status <= 299) {
        result := Failure(ApiError(status));
      } else {
        result := ParseGeneratedImage(body, decode);
      }
    case RequestFailed(m) =>
      result := Failure(HttpError(m));
    case Canceled(m) =>
      result := Failure(Timeout(m));
    case Faulted(m) =>
      result := Failure(Unexpected(m));
  }
}
