/** `src/services/breedIdentificationService.js`: the decisions the client
    makes around the vendor's vision API. The API call itself is a
    parameter: the reply it produced, or the error it threw. */
module BreedIdentificationService {
  import opened Wrappers
  import opened Text
  import opened Json
  import opened Browser

  /** An error as the `catch` blocks see it: `error.status` and `error.message`
      (`None` when the property is missing). */
  datatype ThrownError = ThrownError(status: Option<int>, message: Option<string>)

  /** JavaScript truthiness of an optional string: present and non-empty. */
  predicate Truthy(s: Option<string>)
  {
    s.Some? && s.value != ""
  }

  // ---------------------------------------------------------------------
  // identifyBreedWithOpenAI
  // ---------------------------------------------------------------------

  const InvalidKeyMessage := "OpenAI API key is invalid. Please check your configuration."
  const RateLimitMessage := "OpenAI API rate limit exceeded. Please try again later."
  const BadRequestMessage := "Invalid request to OpenAI API. The image may be too large or in an unsupported format."
  const NetworkMessage := "Network error. Please check your internet connection and try again."
  const DefaultIdentifyMessage := "Failed to identify breed. Please try again with a clearer image."

  /** `error?.message?.includes('network')`. */
  predicate MentionsNetwork(message: Option<string>)
  {
    message.Some? && Contains(message.value, "network")
  }

  predicate HasMappedStatus(e: ThrownError)
  {
    e.status == Some(401) || e.status == Some(429) || e.status == Some(400)
  }

  /** The message of the error `identifyBreedWithOpenAI` rethrows for a caught
      error: the status codes 401, 429 and 400 take priority over the message
      text, a message mentioning "network" comes next, and anything else keeps
      the original message when it has one. */
  function VendorErrorMessage(e: ThrownError): (message: string)
    ensures e.status == Some(401) ==> message == InvalidKeyMessage
    ensures e.status == Some(429) ==> message == RateLimitMessage
    ensures e.status == Some(400) ==> message == BadRequestMessage
    ensures !HasMappedStatus(e) && MentionsNetwork(e.message) ==> message == NetworkMessage
    ensures !HasMappedStatus(e) && !MentionsNetwork(e.message) ==>
              message == if Truthy(e.message) then e.message.value else DefaultIdentifyMessage
    ensures message != ""
  {
    if e.status == Some(401) then InvalidKeyMessage
    else if e.status == Some(429) then RateLimitMessage
    else if e.status == Some(400) then BadRequestMessage
    else if e.message.Some? && Contains(e.message.value, "network") then NetworkMessage
    else if e.message.Some? && e.message.value != "" then e.message.value
    else DefaultIdentifyMessage
  }

  /** The status code outranks the message: a 401, 429 or 400 error gets the
      same user-facing message whatever its own message says. */
  lemma StatusOutranksMessage(status: int, m1: Option<string>, m2: Option<string>)
    requires status == 401 || status == 429 || status == 400
    ensures VendorErrorMessage(ThrownError(Some(status), m1))
         == VendorErrorMessage(ThrownError(Some(status), m2))
  {
  }

  /** The "network" test is case-sensitive: a message saying "Network Error"
      is passed through unchanged, while "network error" is replaced. */
  lemma NetworkTestIsCaseSensitive()
    ensures VendorErrorMessage(ThrownError(None, Some("Network Error"))) == "Network Error"
  {
    var upper := "Network Error";
    assert forall j :: 0 <= j < |upper| ==> upper[j] != 'n';
    AbsentFirstCharMeansNoMatch(upper, "network");
  }

  lemma LowerCaseNetworkIsReplaced()
    ensures VendorErrorMessage(ThrownError(None, Some("network error"))) == NetworkMessage
  {
  }

  /** `{...result, timestamp: Date.now(), id: Date.now().toString()}`: every
      field of the parsed reply, with `timestamp` and `id` added last so that
      they replace same-named fields. The two clock readings are separate
      calls of `Date.now()`. */
  function WithIdentity(parsed: Record, timestamp: nat, idClock: nat): (r: Record)
    ensures r.Keys == parsed.Keys + {"timestamp", "id"}
    ensures r["timestamp"] == Num(timestamp as real)
    ensures r["id"] == Str(DecimalString(idClock))
    ensures forall k :: k in parsed && k != "timestamp" && k != "id" ==> r[k] == parsed[k]
  {
    parsed["timestamp" := Num(timestamp as real)]["id" := Str(DecimalString(idClock))]
  }

  /** Reading the `id` back recovers the clock reading it was made from. */
  lemma IdEncodesClock(parsed: Record, timestamp: nat, idClock: nat)
    ensures WithIdentity(parsed, timestamp, idClock)["id"].Str?
    ensures DecimalValue(WithIdentity(parsed, timestamp, idClock)["id"].s) == idClock
  {
    DecimalRoundTrip(idClock);
  }

  /** What the vendor call and `JSON.parse` of its content produced: the parsed
      object, or the error either of them threw. */
  datatype BreedReply = Answered(fields: Record) | Threw(error: ThrownError)

  /** `identifyBreedWithOpenAI(imageFile)`. The temporary object URL is
      created first and revoked only on the success path: on the error path
      it stays live. On failure the result carries the rethrown message. */
  method IdentifyBreedWithOpenAI(urls: ObjectUrls, imageFile: File, reply: BreedReply,
                                 timestamp: nat, idClock: nat)
    returns (r: Result<Record, string>)
    requires urls.Valid()
    modifies urls
    ensures urls.Valid() && urls.minted == old(urls.minted) + 1
    ensures BlobUrl(old(urls.minted)) !in old(urls.live)
    ensures reply.Answered? ==>
              && r == Success(WithIdentity(reply.fields, timestamp, idClock))
              && urls.log == old(urls.log) + [Created(BlobUrl(old(urls.minted))), Revoked(BlobUrl(old(urls.minted)))]
              && urls.live == old(urls.live)
    ensures reply.Threw? ==>
              && r == Failure(VendorErrorMessage(reply.error))
              && urls.log == old(urls.log) + [Created(BlobUrl(old(urls.minted)))]
              && urls.live == old(urls.live) + {BlobUrl(old(urls.minted))}
  {
    var imageUrl := urls.Create(imageFile);
    match reply
    case Answered(fields) =>
      urls.Revoke(imageUrl);
      r := Success(WithIdentity(fields, timestamp, idClock));
    case Threw(error) =>
      r := Failure(VendorErrorMessage(error));
  }

  // ---------------------------------------------------------------------
  // analyzeImageWithGPT4o
  // ---------------------------------------------------------------------

  /** The `image` argument: a string, an object (whose `url` property may be
      missing and which may be a `File`), or null/undefined/another primitive. */
  datatype ImageArg = TextArg(s: string) | ObjectArg(url: Option<string>, file: Option<File>) | Nullish

  predicate IsFile(image: ImageArg)
  {
    image.ObjectArg? && image.file.Some?
  }

  /** Where the image URL sent to the vendor comes from. */
  datatype ImageSource = GivenUrl(url: string) | NewObjectUrl(file: File) | NoValidImage

  /** The branch chain that picks the image URL: a string is used as is; else
      an object with a truthy `url` gives that url; else a `File` needs a
      fresh object URL; anything else is rejected. */
  function ResolveImage(image: ImageArg): (src: ImageSource)
    ensures image.TextArg? ==> src == GivenUrl(image.s)
    ensures image.ObjectArg? && Truthy(image.url) ==> src == GivenUrl(image.url.value)
    ensures src.NewObjectUrl? <==> IsFile(image) && !Truthy(image.url)
    ensures src.NewObjectUrl? ==> src.file == image.file.value
    ensures src.NoValidImage? <==> image.Nullish? || (image.ObjectArg? && !Truthy(image.url) && !IsFile(image))
  {
    match image
    case TextArg(s) => GivenUrl(s)
    case ObjectArg(url, file) =>
      if url.Some? && url.value != "" then GivenUrl(url.value)
      else if file.Some? then NewObjectUrl(file.value)
      else NoValidImage
    case Nullish => NoValidImage
  }

  const BreedPrompt := "You are an expert livestock breed identification specialist. Analyze this image to identify cattle or buffalo breeds with detailed characteristics and confidence levels."
  const HealthPrompt := "You are a veterinary expert. Analyze this livestock image for visible health indicators, body condition, and any signs of wellness or concerns."
  const ConditionPrompt := "You are a livestock condition assessment expert. Evaluate the animal's body condition score, nutritional status, and overall physical appearance."

  /** The names `systemPrompts` inherits from `Object.prototype`. */
  const InheritedMemberNames: set<string> := {
    "constructor", "hasOwnProperty", "isPrototypeOf", "propertyIsEnumerable",
    "toString", "toLocaleString", "valueOf", "__proto__",
    "__defineGetter__", "__defineSetter__", "__lookupGetter__", "__lookupSetter__"
  }

  /** What `systemPrompts?.[analysisType] || systemPrompts?.breed` evaluates to
      as written: an own prompt, an inherited (truthy) member of
      `Object.prototype`, or the breed prompt. */
  datatype PromptValue = PromptText(text: string) | InheritedMember(name: string)

  function PromptLookupAsWritten(analysisType: string): (v: PromptValue)
    ensures v.InheritedMember? <==> analysisType in InheritedMemberNames
  {
    if analysisType == "breed" then PromptText(BreedPrompt)
    else if analysisType == "health" then PromptText(HealthPrompt)
    else if analysisType == "condition" then PromptText(ConditionPrompt)
    else if analysisType in InheritedMemberNames then InheritedMember(analysisType)
    else PromptText(BreedPrompt)
  }

  /** An analysis type named after an inherited member misses the fallback:
      the system message is not the breed prompt (nor any prompt). */
  lemma InheritedNameMissesFallback()
    ensures PromptLookupAsWritten("toString") == InheritedMember("toString")
    ensures PromptLookupAsWritten("toString") != PromptText(BreedPrompt)
  {
  }

  /** The system prompt for an analysis type, with every type other than
      "health" and "condition" falling back to the breed prompt. */
  function SystemPrompt(analysisType: string): (p: string)
    ensures p == BreedPrompt || p == HealthPrompt || p == ConditionPrompt
    ensures p == HealthPrompt <==> analysisType == "health"
    ensures p == ConditionPrompt <==> analysisType == "condition"
  {
    if analysisType == "health" then HealthPrompt
    else if analysisType == "condition" then ConditionPrompt
    else BreedPrompt
  }

  /** The corrected lookup agrees with the source on every analysis type that
      is not an inherited member name. */
  lemma SystemPromptAgreesWithSource(analysisType: string)
    requires analysisType !in InheritedMemberNames
    ensures PromptLookupAsWritten(analysisType) == PromptText(SystemPrompt(analysisType))
  {
  }

  /** The `analysisType` parameter after its default `'breed'`. */
  function EffectiveAnalysisType(analysisType: Option<string>): string
  {
    if analysisType.Some? then analysisType.value else "breed"
  }

  const MaxAnalysisTokens := 1000

  /** The request `analyzeImageWithGPT4o` sends (model `gpt-4o`). */
  datatype VisionRequest = VisionRequest(systemPrompt: string, userText: string, imageUrl: string, maxTokens: nat)

  function AnalysisRequest(analysisType: string, imageUrl: string): VisionRequest
  {
    VisionRequest(SystemPrompt(analysisType), "Please analyze this image with focus on: " + analysisType,
                  imageUrl, MaxAnalysisTokens)
  }

  /** The vendor's reply (`choices[0].message.content`, possibly missing) or
      the error it threw. */
  datatype AnalysisReply = Replied(content: Option<string>) | Failed(error: ThrownError)

  /** The object `analyzeImageWithGPT4o` returns. */
  datatype Analysis = Analysis(analysis: Option<string>, analysisType: string, imageUrl: Option<string>)

  const NoValidImageError := ThrownError(None, Some("No valid image provided"))

  /** `imageUrl` of the returned object: the input when it was a string and
      null otherwise, an object with a `url` included. */
  function ReturnedImageUrl(image: ImageArg): (u: Option<string>)
    ensures u.Some? <==> image.TextArg?
    ensures u.Some? ==> u.value == image.s
  {
    if image.TextArg? then Some(image.s) else None
  }

  /** `analyzeImageWithGPT4o(image, analysisType)`. The ghost `request` is what
      was sent to the vendor (`None`: no call was made). A temporary URL is
      created only for a `File` without a `url`; a revoke happens on both
      paths exactly when the input is a `File` (of the URL actually used, so
      a `File` carrying a truthy `url` revokes that url). */
  method AnalyzeImageWithGPT4o(urls: ObjectUrls, image: ImageArg, analysisType: Option<string>,
                               reply: AnalysisReply)
    returns (r: Result<Analysis, ThrownError>, ghost request: Option<VisionRequest>)
    requires urls.Valid()
    modifies urls
    ensures urls.Valid()
    ensures ResolveImage(image).NoValidImage? ==>
              r == Failure(NoValidImageError) && request == None && unchanged(urls)
    ensures ResolveImage(image).GivenUrl? ==>
              request == Some(AnalysisRequest(EffectiveAnalysisType(analysisType), ResolveImage(image).url))
    ensures ResolveImage(image).NewObjectUrl? ==>
              request == Some(AnalysisRequest(EffectiveAnalysisType(analysisType), BlobUrl(old(urls.minted))))
    ensures !ResolveImage(image).NoValidImage? && reply.Replied? ==>
              r == Success(Analysis(reply.content, EffectiveAnalysisType(analysisType), ReturnedImageUrl(image)))
    ensures !ResolveImage(image).NoValidImage? && reply.Failed? ==> r == Failure(reply.error)
    // object-URL discipline, on both the success and the error path
    ensures !IsFile(image) ==> unchanged(urls)
    ensures ResolveImage(image).NewObjectUrl? ==>
              && urls.minted == old(urls.minted) + 1
              && urls.log == old(urls.log) + [Created(BlobUrl(old(urls.minted))), Revoked(BlobUrl(old(urls.minted)))]
              && urls.live == old(urls.live)
    ensures IsFile(image) && Truthy(image.url) ==>
              && urls.minted == old(urls.minted)
              && urls.log == old(urls.log) + [Revoked(image.url.value)]
              && urls.live == old(urls.live) - {image.url.value}
  {
    var imageUrl: string;
    match ResolveImage(image) {
      case GivenUrl(u) =>
        imageUrl := u;
      case NewObjectUrl(file) =>
        imageUrl := urls.Create(file);
      case NoValidImage =>
        return Failure(NoValidImageError), None;
    }
    var kind := EffectiveAnalysisType(analysisType);
    request := Some(AnalysisRequest(kind, imageUrl));
    match reply
    case Replied(content) =>
      if IsFile(image) {
        urls.Revoke(imageUrl);
      }
      r := Success(Analysis(content, kind, ReturnedImageUrl(image)));
    case Failed(error) =>
      if IsFile(image) {
        urls.Revoke(imageUrl);
      }
      r := Failure(error);
  }
}
