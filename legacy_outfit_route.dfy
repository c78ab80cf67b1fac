/** The older copy of the try-on route: untrimmed presence checks, no file checks, a
    stricter pair rule that drops a pair given both ways, and every failure past the
    presence checks reported as a 500 with the thrown error's message. */
module LegacyOutfitRoute {
  import opened Wrappers
  import opened Strings
  import opened Http

  const ModelRequired := "Either a model image or an avatar description is required."
  const ClothingRequired := "A clothing image is required."
  const ApiErrorPrefix := "API Error: "
  const NonErrorMessage := "Unexpected error"
  const ImageJpeg := "image/jpeg"

  /** The presence checks, on the raw values: a description made only of spaces counts
      as given. */
  function RequestError(u: Upload): (r: Option<string>)
    ensures r.None? <==> (u.avatarImage.Some? || u.avatarPrompt != []) && u.clothingImage.Some?
    ensures r.Some? ==> r.value in {ModelRequired, ClothingRequired}
    ensures u.avatarImage.None? && u.avatarPrompt == [] ==> r == Some(ModelRequired)
  {
    if u.avatarImage.None? && u.avatarPrompt == [] then Some(ModelRequired)
    else if u.clothingImage.None? then Some(ClothingRequired)
    else None
  }

  /** One pair as this route sends it: the image only when there is no description, the
      description (as typed) only when there is no image, and nothing when both or
      neither are given. */
  function PairBlock(file: Option<File>, prompt: string, image: FieldName, text: FieldName): seq<Part> {
    if file.Some? && prompt == [] then [FilePart(image, file.value)]
    else if file.None? && prompt != [] then [TextPart(text, prompt)]
    else []
  }

  /** The lookups of a pair's names in a form follow that rule. */
  predicate PairSent(form: seq<Part>, file: Option<File>, prompt: string, image: FieldName, text: FieldName) {
    Lookup(form, image) == (if file.Some? && prompt == [] then Some(FilePart(image, file.value)) else None)
    && Lookup(form, text) == (if file.None? && prompt != [] then Some(TextPart(text, prompt)) else None)
  }

  /** The form this route forwards. */
  function LegacyForm(u: Upload): seq<Part>
    requires u.clothingImage.Some?
  {
    PairBlock(u.avatarImage, u.avatarPrompt, AvatarImage, AvatarPrompt)
    + [FilePart(ClothingImage, u.clothingImage.value)]
    + PairBlock(u.backgroundImage, u.backgroundPrompt, BackgroundImage, BackgroundPrompt)
  }

  /** A pair's block holds at most one part, of the pair's rank, and obeys the rule. */
  lemma PairBlockSent(file: Option<File>, prompt: string, image: FieldName, text: FieldName)
    requires image != text && FieldRank(image) == FieldRank(text)
    ensures BlockOfRank(PairBlock(file, prompt, image, text), FieldRank(image))
    ensures PairSent(PairBlock(file, prompt, image, text), file, prompt, image, text)
  {
  }

  /** A form agreeing with a block on both names of a pair obeys the rule too, and so
      never carries both. */
  lemma PairSentTransfer(form: seq<Part>, block: seq<Part>, file: Option<File>, prompt: string,
                         image: FieldName, text: FieldName)
    requires PairSent(block, file, prompt, image, text)
    requires Lookup(form, image) == Lookup(block, image) && Lookup(form, text) == Lookup(block, text)
    ensures PairSent(form, file, prompt, image, text)
    ensures !(Has(form, image) && Has(form, text))
  {
  }

  /** The forwarded form is in field order with distinct names, never carries both parts
      of a pair, carries the clothing image and no seed, and sends each pair by the rule
      above. */
  lemma LegacyFormSpec(u: Upload)
    requires u.clothingImage.Some?
    ensures var form := LegacyForm(u);
      InFieldOrder(form) && DistinctNames(form) && Exclusive(form)
      && Lookup(form, ClothingImage) == Some(FilePart(ClothingImage, u.clothingImage.value))
      && PairSent(form, u.avatarImage, u.avatarPrompt, AvatarImage, AvatarPrompt)
      && PairSent(form, u.backgroundImage, u.backgroundPrompt, BackgroundImage, BackgroundPrompt)
      && !Has(form, Seed)
  {
    var a := PairBlock(u.avatarImage, u.avatarPrompt, AvatarImage, AvatarPrompt);
    var c := [FilePart(ClothingImage, u.clothingImage.value)];
    var b := PairBlock(u.backgroundImage, u.backgroundPrompt, BackgroundImage, BackgroundPrompt);
    var s: seq<Part> := [];
    var form := a + c + b + s;
    assert LegacyForm(u) == form;
    PairBlockSent(u.avatarImage, u.avatarPrompt, AvatarImage, AvatarPrompt);
    PairBlockSent(u.backgroundImage, u.backgroundPrompt, BackgroundImage, BackgroundPrompt);
    assert BlockOfRank(c, 1);
    AssembledForm(a, c, b, s);
    AssembledLookup(a, c, b, s, AvatarImage);
    AssembledLookup(a, c, b, s, AvatarPrompt);
    AssembledLookup(a, c, b, s, ClothingImage);
    AssembledLookup(a, c, b, s, BackgroundImage);
    AssembledLookup(a, c, b, s, BackgroundPrompt);
    AssembledLookup(a, c, b, s, Seed);
    PairSentTransfer(form, a, u.avatarImage, u.avatarPrompt, AvatarImage, AvatarPrompt);
    PairSentTransfer(form, b, u.backgroundImage, u.backgroundPrompt, BackgroundImage, BackgroundPrompt);
  }

  /** A request giving both a model image and an avatar description passes the checks,
      yet the form forwarded for it carries no avatar at all. */
  lemma BothAvatarsDropped(u: Upload)
    requires u.avatarImage.Some? && u.avatarPrompt != [] && u.clothingImage.Some?
    ensures RequestError(u).None?
    ensures !Has(LegacyForm(u), AvatarImage) && !Has(LegacyForm(u), AvatarPrompt)
  {
    LegacyFormSpec(u);
  }

  /** The `apiFormData.append` calls. */
  method BuildLegacyForm(u: Upload) returns (form: seq<Part>)
    requires u.clothingImage.Some?
    ensures form == LegacyForm(u)
  {
    form := [];
    if u.avatarImage.Some? && u.avatarPrompt == [] {
      form := form + [FilePart(AvatarImage, u.avatarImage.value)];
    } else if u.avatarImage.None? && u.avatarPrompt != [] {
      form := form + [TextPart(AvatarPrompt, u.avatarPrompt)];
    }
    form := form + [FilePart(ClothingImage, u.clothingImage.value)];
    if u.backgroundImage.Some? && u.backgroundPrompt == [] {
      form := form + [FilePart(BackgroundImage, u.backgroundImage.value)];
    } else if u.backgroundImage.None? && u.backgroundPrompt != [] {
      form := form + [TextPart(BackgroundPrompt, u.backgroundPrompt)];
    }
  }

  /** How the upstream call ended: a response (with the message thrown while reading a
      failed response's body: `response.json()` failing to parse it, or the read of
      `detail` on a body that parsed to `null`), or a thrown value — an `Error` with its message (the
      30-second abort among them) or anything else. */
  datatype LegacyOutcome =
    | Responded(response: UpstreamResponse, readError: string)
    | Threw(message: string)
    | ThrewNonError

  /** The answer once the form has been sent. The body is passed on, labelled JPEG
      whatever its real type or size, exactly when the response is 2xx; every other
      outcome is a 500, and a failed response's error names the upstream `detail`
      (or, failing that, the status text) after the `API Error: ` prefix. */
  function Reply(outcome: LegacyOutcome): (r: ProxyResponse)
    ensures r.ImageReply? <==> outcome.Responded? && IsOk(outcome.response.status)
    ensures r.ImageReply? ==>
      r.status == 200 && r.contentType == ImageJpeg && r.size == outcome.response.blobSize
      && r.contentLength.None? && r.cacheControl.None?
    ensures r.JsonError? ==> r.status == 500
    ensures (outcome.Responded? && !IsOk(outcome.response.status) && outcome.response.errorBody.Json?) ==>
      StartsWith(r.error, ApiErrorPrefix)
      && r.error[|ApiErrorPrefix|..] == Or(outcome.response.errorBody.detail, outcome.response.statusText)
    ensures (outcome.Responded? && !IsOk(outcome.response.status)
             && (outcome.response.errorBody.Unparsable? || outcome.response.errorBody.Null?)) ==>
      r.error == outcome.readError
    ensures outcome.Threw? ==> r.error == outcome.message
    ensures outcome.ThrewNonError? ==> r.error == NonErrorMessage
  {
    match outcome
    case Threw(message) => JsonError(500, message)
    case ThrewNonError => JsonError(500, NonErrorMessage)
    case Responded(resp, readError) =>
      if IsOk(resp.status) then ImageReply(200, ImageJpeg, None, None, resp.blobSize)
      else match resp.errorBody
        case Unparsable => JsonError(500, readError)
        case Null => JsonError(500, readError)
        case Json(detail, _) => JsonError(500, ApiErrorPrefix + Or(detail, resp.statusText))
  }

  /** `POST`: reading the form (a failure lands in the catch block, which answers 500
      with its message), the presence checks, then the form is sent and the outcome
      translated. */
  method Post(request: FormRead, outcome: LegacyOutcome)
    returns (response: ProxyResponse, forwarded: Option<seq<Part>>)
    ensures request.Unreadable? ==> response == JsonError(500, request.message) && forwarded.None?
    ensures request.Parsed? && RequestError(request.upload).Some? ==>
      response == JsonError(400, RequestError(request.upload).value) && forwarded.None?
    ensures request.Parsed? && RequestError(request.upload).None? ==>
      forwarded == Some(LegacyForm(request.upload)) && response == Reply(outcome)
  {
    if request.Unreadable? {
      return JsonError(500, request.message), None;
    }
    var upload := request.upload;
    if upload.avatarImage.None? && upload.avatarPrompt == [] {
      return JsonError(400, ModelRequired), None;
    }
    if upload.clothingImage.None? {
      return JsonError(400, ClothingRequired), None;
    }
    var form := BuildLegacyForm(upload);
    forwarded := Some(form);
    // The catch block: the message of whatever was thrown.
    var thrown: Option<string> := None;
    match outcome {
      case Threw(message) =>
        thrown := Some(message);
      case ThrewNonError =>
        thrown := Some(NonErrorMessage);
      case Responded(resp, readError) =>
        if !IsOk(resp.status) {
          match resp.errorBody {
            case Unparsable =>
              thrown := Some(readError);
            case Null =>
              thrown := Some(readError);
            case Json(detail, _) =>
              thrown := Some(ApiErrorPrefix + Or(detail, resp.statusText));
          }
        }
    }
    if thrown.Some? {
      response := JsonError(500, thrown.value);
    } else {
      response := ImageReply(200, ImageJpeg, None, None, outcome.response.blobSize);
    }
  }
}
