/** The server route that proxies a try-on request to the remote service: it checks the
    required fields and the uploaded files, rebuilds the form, and turns the remote
    answer (or a timeout, or a crash) into the response the browser gets. */
module OutfitRoute {
  import opened Wrappers
  import opened Strings
  import opened Http

  const MaxFileSize: nat := 10 * 1024 * 1024
  /** Stands for the key compiled into the route when the environment provides none. */
  const BuiltInKey := "built-in-key"

  const KeyMissing := "API configuration error. Please configure your RapidAPI key."
  const ModelRequired := "Please provide either a model image or avatar description"
  const ClothingRequired := "Clothing image is required"
  const DefaultFailure := "Failed to generate virtual try-on"
  const BadInput := "Invalid input provided. Please check your images and try again."
  const AuthFailed := "Authentication failed. Please check your API key."
  const RateLimited := "Too many requests. Please wait a moment and try again."
  const Unavailable := "Service temporarily unavailable. Please try again later."
  const InvalidResponse := "Invalid response from image generation service"
  const EmptyImage := "Empty image received from service"
  const Timeout := "Request timeout. Please try again."
  const Unexpected := "An unexpected error occurred. Please try again."
  const NoCache := "no-cache"

  /** `RAPID_API_KEY`: the environment's key, or the built-in one. Never empty, so the
      route's missing-key answer cannot occur as configured. */
  function ConfiguredKey(env: string): (key: string)
    ensures key != []
    ensures env != [] ==> key == env
  {
    Or(env, BuiltInKey)
  }

  // ---------------------------------------------------------------------------
  // Request checks
  // ---------------------------------------------------------------------------

  /** `ALLOWED_FILE_TYPES.includes(type)`. */
  predicate AllowedType(mimeType: string) {
    mimeType == "image/jpeg" || mimeType == "image/jpg" || mimeType == "image/png" || mimeType == "image/webp"
  }

  /** The label an uploaded file is named by in messages. */
  datatype FileLabel = ModelImageLabel | ClothingImageLabel | BackgroundImageLabel

  function LabelText(which: FileLabel): string {
    match which
    case ModelImageLabel => "Model image"
    case ClothingImageLabel => "Clothing image"
    case BackgroundImageLabel => "Background image"
  }

  function TooLarge(which: FileLabel): string {
    LabelText(which) + " file is too large. Maximum size is 10MB."
  }

  function NotAnImage(which: FileLabel): string {
    LabelText(which) + " must be a valid image (JPEG, PNG, WebP)."
  }

  /** A file passes the route's checks. */
  predicate FileOk(file: Option<File>) {
    file.None? || (file.value.size <= MaxFileSize && AllowedType(file.value.mimeType))
  }

  /** The inner `validateFile`: the size is checked before the type, so an oversized
      file of a wrong type is reported as too large. */
  function ValidateFile(file: Option<File>, which: FileLabel): (r: Option<string>)
    ensures r.None? <==> FileOk(file)
    ensures file.Some? && file.value.size > MaxFileSize ==> r == Some(TooLarge(which))
    ensures (file.Some? && file.value.size <= MaxFileSize && !AllowedType(file.value.mimeType)) ==>
      r == Some(NotAnImage(which))
  {
    if file.None? then None
    else if file.value.size > MaxFileSize then Some(TooLarge(which))
    else if !AllowedType(file.value.mimeType) then Some(NotAnImage(which))
    else None
  }

  /** Every check passes: an avatar (image or non-blank description), a clothing image,
      and every uploaded file within size and of an allowed type. */
  predicate Acceptable(u: Upload) {
    (u.avatarImage.Some? || !Blank(u.avatarPrompt)) && u.clothingImage.Some?
    && FileOk(u.avatarImage) && FileOk(u.clothingImage) && FileOk(u.backgroundImage)
  }

  /** `a || b || c` on optional messages: the first one present. */
  function FirstOf(a: Option<string>, b: Option<string>, c: Option<string>): Option<string> {
    if a.Some? then a else if b.Some? then b else c
  }

  /** The message of the first failed check, in the order the handler runs them: the
      avatar, the clothing image, then the model, clothing and background files. */
  function RequestError(u: Upload): (r: Option<string>)
    ensures r.None? <==> Acceptable(u)
    ensures u.avatarImage.None? && Blank(u.avatarPrompt) ==> r == Some(ModelRequired)
    ensures (u.avatarImage.Some? || !Blank(u.avatarPrompt)) && u.clothingImage.None? ==> r == Some(ClothingRequired)
    ensures (u.avatarImage.Some? || !Blank(u.avatarPrompt)) && u.clothingImage.Some? ==>
      r == FirstOf(ValidateFile(u.avatarImage, ModelImageLabel), ValidateFile(u.clothingImage, ClothingImageLabel),
                   ValidateFile(u.backgroundImage, BackgroundImageLabel))
  {
    if u.avatarImage.None? && Blank(u.avatarPrompt) then Some(ModelRequired)
    else if u.clothingImage.None? then Some(ClothingRequired)
    else FirstOf(ValidateFile(u.avatarImage, ModelImageLabel), ValidateFile(u.clothingImage, ClothingImageLabel),
                 ValidateFile(u.backgroundImage, BackgroundImageLabel))
  }

  // ---------------------------------------------------------------------------
  // The forwarded form
  // ---------------------------------------------------------------------------

  /** The form sent upstream: the pair rule with trimmed descriptions, the clothing image,
      no seed. */
  function RouteForm(u: Upload): seq<Part> {
    TryOnForm(Slot(u.avatarImage, u.avatarPrompt, JsTrim(u.avatarPrompt)), u.clothingImage,
              Slot(u.backgroundImage, u.backgroundPrompt, JsTrim(u.backgroundPrompt)), None)
  }

  /** For an accepted request, the forwarded form always holds the clothing image and
      exactly one avatar part, at most one background part, a non-blank description wins
      and is trimmed, and there is no seed. */
  lemma RouteFormSpec(u: Upload)
    requires Acceptable(u)
    ensures var form := RouteForm(u);
      InFieldOrder(form) && DistinctNames(form) && Exclusive(form)
      && Lookup(form, ClothingImage) == Some(FilePart(ClothingImage, u.clothingImage.value))
      && (Has(form, AvatarImage) || Has(form, AvatarPrompt))
      && SlotSent(form, Slot(u.avatarImage, u.avatarPrompt, JsTrim(u.avatarPrompt)), AvatarImage, AvatarPrompt)
      && SlotSent(form, Slot(u.backgroundImage, u.backgroundPrompt, JsTrim(u.backgroundPrompt)),
                  BackgroundImage, BackgroundPrompt)
      && !Has(form, Seed)
  {
    TryOnFormSpec(Slot(u.avatarImage, u.avatarPrompt, JsTrim(u.avatarPrompt)), u.clothingImage,
                  Slot(u.backgroundImage, u.backgroundPrompt, JsTrim(u.backgroundPrompt)), None);
  }

  /** The `apiForm.append` calls. */
  method BuildRouteForm(u: Upload) returns (form: seq<Part>)
    requires u.clothingImage.Some?
    ensures form == RouteForm(u)
  {
    form := [];
    if u.avatarImage.Some? && Blank(u.avatarPrompt) {
      form := form + [FilePart(AvatarImage, u.avatarImage.value)];
    } else if !Blank(u.avatarPrompt) {
      form := form + [TextPart(AvatarPrompt, JsTrim(u.avatarPrompt))];
    }
    form := form + [FilePart(ClothingImage, u.clothingImage.value)];
    ghost var upToClothing := form;
    if u.backgroundImage.Some? && Blank(u.backgroundPrompt) {
      form := form + [FilePart(BackgroundImage, u.backgroundImage.value)];
    } else if !Blank(u.backgroundPrompt) {
      form := form + [TextPart(BackgroundPrompt, JsTrim(u.backgroundPrompt))];
    }
    assert form == upToClothing
      + SlotBlock(Slot(u.backgroundImage, u.backgroundPrompt, JsTrim(u.backgroundPrompt)), BackgroundImage, BackgroundPrompt);
    assert form == form + TextBlock(Seed, None);
  }

  // ---------------------------------------------------------------------------
  // The remote answer
  // ---------------------------------------------------------------------------

  /** How the upstream call ended: a response, the 60-second abort, or another thrown error. */
  datatype RouteOutcome = Responded(response: UpstreamResponse) | TimedOut | Failed

  /** The message taken from a failed response's body: `detail`, else `message`, else
      the default (a `null` body, read with `?.`, has neither); a body that does not
      parse gives the status text, else the default. */
  function BodyMessage(resp: UpstreamResponse): string {
    match resp.errorBody
    case Json(detail, message) => Or(detail, Or(message, DefaultFailure))
    case Null => DefaultFailure
    case Unparsable => Or(resp.statusText, DefaultFailure)
  }

  /** With `?.`, a body that parsed to `null` reads like one with neither `detail` nor
      `message`. */
  lemma NullBodyLikeEmpty(resp: UpstreamResponse)
    requires resp.errorBody.Null?
    ensures BodyMessage(resp) == BodyMessage(resp.(errorBody := Json("", "")))
    ensures UpstreamMessage(resp) == UpstreamMessage(resp.(errorBody := Json("", "")))
  {
  }

  /** The statuses the `switch` overrides, with their messages. */
  function FixedMessage(status: nat): Option<string> {
    match status
    case 400 => Some(BadInput)
    case 401 => Some(AuthFailed)
    case 429 => Some(RateLimited)
    case 500 => Some(Unavailable)
    case 502 => Some(Unavailable)
    case 503 => Some(Unavailable)
    case _ => None
  }

  /** The message for a failed response: a listed status has its fixed message whatever
      the body says; any other status keeps the body's message. Never empty. */
  function UpstreamMessage(resp: UpstreamResponse): (m: string)
    ensures m != []
    ensures resp.status == 400 ==> m == BadInput
    ensures resp.status == 401 ==> m == AuthFailed
    ensures resp.status == 429 ==> m == RateLimited
    ensures resp.status in {500, 502, 503} ==> m == Unavailable
    ensures resp.status !in {400, 401, 429, 500, 502, 503} ==> m == BodyMessage(resp)
  {
    match FixedMessage(resp.status)
    case Some(fixed) => fixed
    case None => BodyMessage(resp)
  }

  /** The status the browser gets for a failed upstream response: a server error upstream
      is reported as 503 (service unavailable), anything else as 400. */
  function ClientStatus(upstreamStatus: nat): (status: nat)
    ensures status == 503 <==> upstreamStatus >= 500
    ensures status == 400 <==> upstreamStatus < 500
  {
    if upstreamStatus >= 500 then 503 else 400
  }

  /** The `errorMessage` variable, reassigned by the body parse and then by the `switch`. */
  method TranslateUpstreamError(resp: UpstreamResponse) returns (message: string, status: nat)
    ensures message == UpstreamMessage(resp) && status == ClientStatus(resp.status)
  {
    message := DefaultFailure;
    match resp.errorBody {
      case Json(detail, bodyMessage) =>
        message := Or(detail, Or(bodyMessage, message));
      case Null =>
      case Unparsable =>
        message := Or(resp.statusText, message);
    }
    match resp.status {
      case 400 => message := BadInput;
      case 401 => message := AuthFailed;
      case 429 => message := RateLimited;
      case 500 => message := Unavailable;
      case 502 => message := Unavailable;
      case 503 => message := Unavailable;
      case _ =>
    }
    status := if resp.status >= 500 then 503 else 400;
  }

  /** The answer once the form has been sent. The image is passed on exactly when the
      response is 2xx, declares an `image/` type and has a non-empty body; it then carries
      status 200, the upstream type, its size as `Content-Length` and `no-cache`. Every
      other answer is an error with a 4xx or 5xx status: 408 for the timeout, 500 for a
      crash or a bad success body, 400/503 for a failed response. */
  function Reply(outcome: RouteOutcome): (r: ProxyResponse)
    ensures r.ImageReply? <==>
      outcome.Responded? && IsOk(outcome.response.status)
      && IsImageType(outcome.response.contentType) && outcome.response.blobSize > 0
    ensures r.ImageReply? ==>
      r.status == 200 && r.contentType == outcome.response.contentType.value
      && r.size == outcome.response.blobSize && r.contentLength == Some(NatToString(r.size))
      && r.cacheControl == Some(NoCache)
    ensures r.JsonError? ==> 400 <= r.status <= 599 && r.error != []
    ensures outcome.TimedOut? ==> r == JsonError(408, Timeout)
    ensures outcome.Failed? ==> r == JsonError(500, Unexpected)
    ensures outcome.Responded? && !IsOk(outcome.response.status) ==>
      r == JsonError(ClientStatus(outcome.response.status), UpstreamMessage(outcome.response))
    ensures (outcome.Responded? && IsOk(outcome.response.status)
             && !IsImageType(outcome.response.contentType)) ==> r == JsonError(500, InvalidResponse)
    ensures (outcome.Responded? && IsOk(outcome.response.status)
             && IsImageType(outcome.response.contentType) && outcome.response.blobSize == 0) ==>
      r == JsonError(500, EmptyImage)
  {
    match outcome
    case TimedOut => JsonError(408, Timeout)
    case Failed => JsonError(500, Unexpected)
    case Responded(resp) =>
      if !IsOk(resp.status) then JsonError(ClientStatus(resp.status), UpstreamMessage(resp))
      else if !IsImageType(resp.contentType) then JsonError(500, InvalidResponse)
      else if resp.blobSize == 0 then JsonError(500, EmptyImage)
      else ImageReply(200, resp.contentType.value, Some(NatToString(resp.blobSize)), Some(NoCache), resp.blobSize)
  }

  /** The `Content-Length` header of a passed-on image reads back as the body's size. */
  lemma ContentLengthReadsBack(outcome: RouteOutcome)
    requires Reply(outcome).ImageReply?
    ensures var r := Reply(outcome);
      All(r.contentLength.value, IsDigit) && ParseDecimal(r.contentLength.value) == r.size
  {
    ParseNatToString(Reply(outcome).size);
  }

  /** `POST`: the key check, reading the form (a failure lands in the catch block, which
      answers 408 for an `AbortError` and 500 otherwise), the required fields, the file
      checks (first error only), then the rebuilt form is sent and the outcome translated. */
  method Post(apiKey: string, request: FormRead, outcome: RouteOutcome)
    returns (response: ProxyResponse, forwarded: Option<seq<Part>>)
    ensures apiKey == [] ==> response == JsonError(500, KeyMissing) && forwarded.None?
    ensures apiKey != [] && request.Unreadable? ==>
      forwarded.None?
      && response == (if request.isAbort then JsonError(408, Timeout) else JsonError(500, Unexpected))
    ensures apiKey != [] && request.Parsed? && RequestError(request.upload).Some? ==>
      response == JsonError(400, RequestError(request.upload).value) && forwarded.None?
    ensures apiKey != [] && request.Parsed? && RequestError(request.upload).None? ==>
      forwarded == Some(RouteForm(request.upload)) && response == Reply(outcome)
  {
    if apiKey == [] {
      return JsonError(500, KeyMissing), None;
    }
    if request.Unreadable? {
      if request.isAbort {
        return JsonError(408, Timeout), None;
      }
      return JsonError(500, Unexpected), None;
    }
    var upload := request.upload;
    if upload.avatarImage.None? && Blank(upload.avatarPrompt) {
      return JsonError(400, ModelRequired), None;
    }
    if upload.clothingImage.None? {
      return JsonError(400, ClothingRequired), None;
    }
    var modelError := ValidateFile(upload.avatarImage, ModelImageLabel);
    var garmentError := ValidateFile(upload.clothingImage, ClothingImageLabel);
    var backgroundError := ValidateFile(upload.backgroundImage, BackgroundImageLabel);
    if modelError.Some? || garmentError.Some? || backgroundError.Some? {
      return JsonError(400, FirstOf(modelError, garmentError, backgroundError).value), None;
    }
    var form := BuildRouteForm(upload);
    forwarded := Some(form);
    match outcome {
      case TimedOut =>
        response := JsonError(408, Timeout);
      case Failed =>
        response := JsonError(500, Unexpected);
      case Responded(resp) =>
        if !IsOk(resp.status) {
          var message, status := TranslateUpstreamError(resp);
          response := JsonError(status, message);
        } else if !IsImageType(resp.contentType) {
          response := JsonError(500, InvalidResponse);
        } else if resp.blobSize == 0 {
          response := JsonError(500, EmptyImage);
        } else {
          response := ImageReply(200, resp.contentType.value, Some(NatToString(resp.blobSize)), Some(NoCache), resp.blobSize);
        }
    }
  }
}
