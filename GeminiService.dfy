/** services/geminiService.ts: the request part lists sent to the two remote
    calls and the reading of their replies. The calls themselves are not modelled:
    each is a parameter that maps the request it is given to the reply it returns. */
module GeminiService {
  import opened Wrappers
  import opened Types
  import opened DataUrl
  import opened Sequences

  /** An inline image: mime type and base64 payload, either of which JavaScript
      may leave `undefined` (None). */
  datatype Blob = Blob(mimeType: Option<string>, data: Option<string>)

  /** A content part, as sent in a request and as found in a response. */
  datatype Part = Part(text: Option<string>, inlineData: Option<Blob>)

  datatype Content = Content(parts: Option<seq<Part>>)
  datatype Candidate = Candidate(content: Option<Content>)
  datatype Response = Response(candidates: Option<seq<Candidate>>)

  /** What the content-analysis call gives back: a transport error, or a response
      whose `text` may be missing. */
  datatype AnalysisReply = AnalysisTransportError(message: string) | AnalysisResponse(text: Option<string>)

  /** What one image-generation call gives back. */
  datatype ImageReply = ImageTransportError(message: string) | ImageResponse(response: Response)

  /** The two remote calls: each receives the request's part list. */
  type Analyzer = seq<Part> -> AnalysisReply
  type Endpoint = seq<Part> -> ImageReply

  /** The fixed instruction that opens every analysis request; its wording is not modelled. */
  const AnalysisPrompt: string := "<storyboard analysis instructions>"
  const ContentTextLabel: string := "Content Text: "
  /** The continuity instruction put before the scene prompt when a reference image
      is sent; only its closing words are kept. */
  const ContinuityInstruction: string := "<continuity instructions> Scene to generate: "
  const AnalysisFailureMessage: string := "Failed to interpret content analysis."
  const NoImageMessage: string := "No image data returned from generator."

  function TextPart(text: string): Part
  {
    Part(Some(text), None)
  }

  function InlinePart(mime: string, data: string): Part
  {
    Part(None, Some(Blob(Some(mime), Some(data))))
  }

  // ---------------------------------------------------------------------------
  // analyzeContent (services/geminiService.ts:5-65)

  /** The inline part built from one encoded input image by the two `split` readings. */
  function ImagePart(url: string): Part
  {
    Part(None, Some(Blob(SplitMime(url), SplitData(url))))
  }

  /** `xs.map(f)`: f applied to every element, in order. */
  function Map<A, B>(f: A -> B, xs: seq<A>): (ys: seq<B>)
    ensures |ys| == |xs|
    ensures forall j :: 0 <= j < |xs| ==> ys[j] == f(xs[j])
  {
    if xs == [] then [] else [f(xs[0])] + Map(f, xs[1..])
  }

  /** One inline part per input image, in input order. */
  function ImageParts(images: seq<string>): (parts: seq<Part>)
  {
    Map(ImagePart, images)
  }

  /** The analysis request: the fixed prompt, then the user's text only when it is
      non-empty, then one inline part per image in input order. */
  function AnalysisParts(text: string, images: seq<string>): (parts: seq<Part>)
    ensures |parts| == 1 + (if text != "" then 1 else 0) + |images|
    ensures parts[0] == TextPart(AnalysisPrompt)
    ensures text != "" ==> parts[1] == TextPart(ContentTextLabel + text)
    ensures forall j :: 0 <= j < |images| ==>
      parts[1 + (if text != "" then 1 else 0) + j] == ImagePart(images[j])
  {
    [TextPart(AnalysisPrompt)]
    + (if text != "" then [TextPart(ContentTextLabel + text)] else [])
    + ImageParts(images)
  }

  /** The `parts` array of analyzeContent, built by `push` and a `forEach` over the images. */
  method BuildAnalysisParts(text: string, images: seq<string>) returns (parts: seq<Part>)
    ensures parts == AnalysisParts(text, images)
  {
    parts := [TextPart(AnalysisPrompt)];
    if text != "" {
      parts := parts + [TextPart(ContentTextLabel + text)];
    }
    ghost var opening := parts;
    var i := 0;
    while i < |images|
      invariant 0 <= i <= |images|
      invariant parts == opening + ImageParts(images[..i])
    {
      MapSnoc(ImagePart, images, i);
      Assoc3(opening, ImageParts(images[..i]), [ImagePart(images[i])]);
      parts := parts + [ImagePart(images[i])];
      i := i + 1;
    }
    assert images[..|images|] == images;
  }

  /** Extending a list by one element extends its image by that element's image. */
  lemma {:induction false} MapSnoc<A, B>(f: A -> B, xs: seq<A>, i: nat)
    requires i < |xs|
    ensures Map(f, xs[..i + 1]) == Map(f, xs[..i]) + [f(xs[i])]
  {
    var longer, shorter := Map(f, xs[..i + 1]), Map(f, xs[..i]);
    assert forall j :: 0 <= j < i ==> longer[j] == shorter[j] by {
      forall j | 0 <= j < i ensures longer[j] == shorter[j] {
        assert xs[..i + 1][j] == xs[..i][j];
      }
    }
  }

  /** `response.text || '{}'`: a missing or empty text is read as an empty object. */
  function ResponseBody(text: Option<string>): string
  {
    if text == None || text.value == "" then "{}" else text.value
  }

  /** JSON.parse followed by the cast to StoryboardData. The parser itself is not
      modelled and is a parameter, except on "{}", which yields an object without
      `scenes`. */
  function ParseJson(parse: string -> Option<StoryboardData>, body: string): Option<StoryboardData>
  {
    if body == "{}" then Some(StoryboardData(None)) else parse(body)
  }

  /** The outcome of analyzeContent for a given reply: the transport error, the
      parse failure message, or the parsed (unchecked) data. */
  function AnalysisOutcome(reply: AnalysisReply, parse: string -> Option<StoryboardData>): Result<StoryboardData, string>
  {
    match reply
    case AnalysisTransportError(message) => Failure(message)
    case AnalysisResponse(text) =>
      match ParseJson(parse, ResponseBody(text))
      case None => Failure(AnalysisFailureMessage)
      case Some(data) => Success(data)
  }

  /** analyzeContent: builds the request, sends it, and reads the reply. */
  method AnalyzeContent(text: string, images: seq<string>, analyzer: Analyzer, parse: string -> Option<StoryboardData>)
    returns (parts: seq<Part>, r: Result<StoryboardData, string>)
    ensures parts == AnalysisParts(text, images)
    ensures r == AnalysisOutcome(analyzer(parts), parse)
    ensures analyzer(parts).AnalysisTransportError? ==> r == Failure(analyzer(parts).message)
    ensures analyzer(parts).AnalysisResponse? && r.Failure? ==> r.error == AnalysisFailureMessage
    ensures analyzer(parts).AnalysisResponse? && ResponseBody(analyzer(parts).text) == "{}" ==>
      r == Success(StoryboardData(None))
  {
    parts := BuildAnalysisParts(text, images);
    var reply := analyzer(parts);
    match reply
    case AnalysisTransportError(message) =>
      r := Failure(message);
    case AnalysisResponse(responseText) =>
      var body := if responseText == None || responseText.value == "" then "{}" else responseText.value;
      var result := ParseJson(parse, body);
      if result == None {
        r := Failure(AnalysisFailureMessage);
      } else {
        r := Success(result.value);
      }
  }

  // ---------------------------------------------------------------------------
  // generateSceneImage (services/geminiService.ts:67-108)

  /** The image request: with a reference the pattern accepts, the reference image
      then the continuity instruction followed by the prompt; otherwise the prompt
      alone. `if (previousImageUrl)` treats the empty string as no reference. */
  function ImageRequestParts(prompt: string, previous: Option<string>): seq<Part>
  {
    if previous.Some? && previous.value != "" then
      match Match(previous.value)
      case Some((mime, data)) => [InlinePart(mime, data), TextPart(ContinuityInstruction + prompt)]
      case None => [TextPart(prompt)]
    else [TextPart(prompt)]
  }

  /** The `parts` array of generateSceneImage, built by `push` in the two branches. */
  method BuildImageParts(prompt: string, previous: Option<string>) returns (parts: seq<Part>)
    ensures parts == ImageRequestParts(prompt, previous)
    ensures |parts| == 2 <==> previous.Some? && Match(previous.value).Some?
    ensures |parts| == 1 <==> previous.None? || Match(previous.value).None?
    ensures |parts| == 1 ==> parts == [TextPart(prompt)]
    ensures |parts| == 2 ==>
      && parts[0] == InlinePart(Match(previous.value).value.0, Match(previous.value).value.1)
      && parts[1] == TextPart(ContinuityInstruction + prompt)
  {
    parts := [];
    if previous.Some? && previous.value != "" {
      var match_ := Match(previous.value);
      if match_.Some? {
        parts := parts + [Part(None, Some(Blob(Some(match_.value.0), Some(match_.value.1))))];
        parts := parts + [Part(Some(ContinuityInstruction + prompt), None)];
      } else {
        parts := parts + [Part(Some(prompt), None)];
      }
    } else {
      parts := parts + [Part(Some(prompt), None)];
    }
  }

  /** A reference produced by formatting a mime type and payload of the accepted
      shape is sent back as exactly that inline image, before the continuity text. */
  lemma {:induction false} ContinuityRequest(prompt: string, mime: string, data: string)
    requires Matchable(mime, data)
    ensures ImageRequestParts(prompt, Some(Format(mime, data)))
      == [InlinePart(mime, data), TextPart(ContinuityInstruction + prompt)]
  {
    MatchFormat(mime, data);
  }

  /** `response.candidates?.[0]?.content?.parts || []`. */
  function ResponseParts(response: Response): seq<Part>
  {
    match response.candidates
    case None => []
    case Some(candidates) =>
      if candidates == [] then []
      else
        match candidates[0].content
        case None => []
        case Some(content) =>
          match content.parts
          case None => []
          case Some(parts) => parts
  }

  /** Index of the first part that carries inline data, if any. */
  function FirstInline(parts: seq<Part>): (r: Option<nat>)
    ensures r.Some? ==> r.value < |parts| && parts[r.value].inlineData.Some?
    ensures r.Some? ==> forall j :: 0 <= j < r.value ==> parts[j].inlineData.None?
    ensures r.None? ==> forall j :: 0 <= j < |parts| ==> parts[j].inlineData.None?
  {
    if parts == [] then None
    else if parts[0].inlineData.Some? then Some(0)
    else
      match FirstInline(parts[1..])
      case None => None
      case Some(k) => Some(k + 1)
  }

  /** `${x}` in a template string: `undefined` is spelled out. */
  function Show(field: Option<string>): string
  {
    if field.None? then "undefined" else field.value
  }

  /** The data URL made of an inline part's mime type and payload. */
  function FormatBlob(blob: Blob): string
  {
    Format(Show(blob.mimeType), Show(blob.data))
  }

  /** The image a response yields: the data URL of its first inline part, or the
      "no image" error. */
  function ImageOf(response: Response): Result<string, string>
  {
    var parts := ResponseParts(response);
    match FirstInline(parts)
    case Some(k) => Success(FormatBlob(parts[k].inlineData.value))
    case None => Failure(NoImageMessage)
  }

  /** The `for` loop over the response parts that returns at the first inline one. */
  method ExtractImage(response: Response) returns (r: Result<string, string>)
    ensures r == ImageOf(response)
    ensures r.Success? <==> exists k :: 0 <= k < |ResponseParts(response)| && ResponseParts(response)[k].inlineData.Some?
    ensures r.Success? ==> exists k :: (
      && 0 <= k < |ResponseParts(response)|
      && ResponseParts(response)[k].inlineData.Some?
      && (forall j :: 0 <= j < k ==> ResponseParts(response)[j].inlineData.None?)
      && r.value == FormatBlob(ResponseParts(response)[k].inlineData.value))
    ensures r.Failure? ==> r.error == NoImageMessage
  {
    var parts := ResponseParts(response);
    var i := 0;
    while i < |parts|
      invariant 0 <= i <= |parts|
      invariant forall j :: 0 <= j < i ==> parts[j].inlineData.None?
    {
      var part := parts[i];
      if part.inlineData.Some? {
        var blob := part.inlineData.value;
        assert FirstInline(parts) == Some(i);
        return Success(Format(Show(blob.mimeType), Show(blob.data)));
      }
      i := i + 1;
    }
    return Failure(NoImageMessage);
  }

  /** What one generateSceneImage call yields for a given reply. */
  function ReplyOutcome(reply: ImageReply): Result<string, string>
  {
    match reply
    case ImageTransportError(message) => Failure(message)
    case ImageResponse(response) => ImageOf(response)
  }

  /** What generateSceneImage yields for a prompt and reference against an endpoint. */
  function GenerateOutcome(prompt: string, previous: Option<string>, endpoint: Endpoint): Result<string, string>
  {
    ReplyOutcome(endpoint(ImageRequestParts(prompt, previous)))
  }

  /** generateSceneImage: builds the request, sends it, and reads the reply. */
  method GenerateSceneImage(prompt: string, previous: Option<string>, endpoint: Endpoint)
    returns (parts: seq<Part>, r: Result<string, string>)
    ensures parts == ImageRequestParts(prompt, previous)
    ensures r == GenerateOutcome(prompt, previous, endpoint)
  {
    parts := BuildImageParts(prompt, previous);
    var reply := endpoint(parts);
    match reply
    case ImageTransportError(message) =>
      r := Failure(message);
    case ImageResponse(response) =>
      r := ExtractImage(response);
  }

  /** The image a call returns, when its first inline part has a mime type and a
      payload of the accepted shape, goes into the next request as exactly that
      mime type and payload. */
  lemma {:induction false} ReturnedImageIsNextReference(response: Response, prompt: string)
    requires FirstInline(ResponseParts(response)).Some?
    requires var blob := ResponseParts(response)[FirstInline(ResponseParts(response)).value].inlineData.value;
      blob.mimeType.Some? && blob.data.Some? && Matchable(blob.mimeType.value, blob.data.value)
    ensures ImageOf(response).Success?
    ensures var blob := ResponseParts(response)[FirstInline(ResponseParts(response)).value].inlineData.value;
      ImageRequestParts(prompt, Some(ImageOf(response).value))
        == [Part(None, Some(blob)), TextPart(ContinuityInstruction + prompt)]
  {
    var blob := ResponseParts(response)[FirstInline(ResponseParts(response)).value].inlineData.value;
    ContinuityRequest(prompt, blob.mimeType.value, blob.data.value);
  }
}
