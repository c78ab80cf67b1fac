/** The browser-side service that calls the remote try-on API directly:
    a fixed-window request counter kept in local storage, validation of the
    uploaded files and prompts, the multipart payload, and the translation of
    the remote response into a success or an error message. */
module ClientApi {
  import opened Wrappers
  import opened Strings
  import opened Http

  // ---------------------------------------------------------------------------
  // Constants (file constraints and user-facing messages)
  // ---------------------------------------------------------------------------

  const MaxFileSize: nat := 12 * 1024 * 1024
  /** The megabyte bound handed to `isValidImageSize`: `maxSize / (1024 * 1024)`. */
  const MaxFileSizeMb: nat := MaxFileSize / (1024 * 1024)
  const MinFileSize: nat := 1024
  const MinDimension: nat := 256
  const MaxDimension: nat := 4096
  const MinPromptLength: nat := 3
  const MaxPromptLength: nat := 500

  const FileTooLarge := "File too large. Maximum size is 12MB."
  const FileInvalidType := "Invalid file type. Please upload a JPEG, PNG, or WebP image."
  const FileTooSmall := "File too small. Minimum size is 1KB."
  const DimensionsTooSmall := "Image too small. Minimum dimensions are 256x256 pixels."
  const DimensionsTooLarge := "Image too large. Maximum dimensions are 4096x4096 pixels."
  const ModelRequired := "Please provide either a model image or avatar description."
  const ClothingRequired := "Please upload a clothing image."
  const InvalidPrompt := "Please provide a valid description."
  const ApiError := "Failed to generate virtual try-on. Please try again."
  const ApiRateLimit := "Too many requests. Please wait a moment and try again."
  const ApiInvalidResponse := "Invalid response from image generation service."
  const ApiEmptyResponse := "Empty image received from service."
  const Offline := "You appear to be offline. Please check your connection."
  const KeyNotConfigured := "API key not configured properly"
  const RequestCancelled := "Request cancelled"
  const BadInput := "Invalid input provided. Please check your images and try again."
  const AuthFailed := "Authentication failed. Please check your API key."
  const Unavailable := "Service temporarily unavailable. Please try again later."
  const KeyPlaceholder := "your_rapidapi_key_here"
  /** Stands for the key compiled into the service when the environment provides none. */
  const BuiltInKey := "built-in-key"

  // ---------------------------------------------------------------------------
  // Validation
  // ---------------------------------------------------------------------------

  /** The `field` of a validation error. */
  datatype Field =
    | NetworkField | ModelField | GarmentField
    | ModelFileField | GarmentFileField | BackgroundFileField
    | AvatarPromptField | BackgroundPromptField

  function FieldName(f: Field): string {
    match f
    case NetworkField => "network"
    case ModelField => "model"
    case GarmentField => "garment"
    case ModelFileField => "modelFile"
    case GarmentFileField => "garmentFile"
    case BackgroundFileField => "backgroundFile"
    case AvatarPromptField => "avatarPrompt"
    case BackgroundPromptField => "backgroundPrompt"
  }

  /** The position at which `validateInputs` checks each field. */
  function Rank(f: Field): nat {
    match f
    case NetworkField => 0
    case ModelField => 1
    case GarmentField => 2
    case ModelFileField => 3
    case GarmentFileField => 4
    case BackgroundFileField => 5
    case AvatarPromptField => 6
    case BackgroundPromptField => 7
  }

  datatype ValidationError = ValidationError(field: Field, message: string)

  datatype Dimensions = Dimensions(width: nat, height: nat)

  /** The image helpers the service imports; their code is not part of this
      model, so each is an arbitrary function. `getImageDimensions` yields None
      when it throws. */
  datatype ImageUtils = ImageUtils(
    isValidImageType: File -> bool,
    isValidImageSize: (File, nat) -> bool,
    getImageDimensions: File -> Option<Dimensions>)

  /** The dimension check passes, or the dimensions could not be read. */
  predicate DimensionsAcceptable(d: Option<Dimensions>) {
    d.None? ||
    (MinDimension <= d.value.width <= MaxDimension && MinDimension <= d.value.height <= MaxDimension)
  }

  /** A file passes every check of `validateFile`. */
  predicate FileAcceptable(f: File, utils: ImageUtils) {
    utils.isValidImageType(f) && utils.isValidImageSize(f, MaxFileSizeMb)
    && f.size >= MinFileSize && DimensionsAcceptable(utils.getImageDimensions(f))
  }

  /** `validateFile`: no file is fine; otherwise the first failing check, in the
      order type, maximum size, minimum size, too-small dimensions, too-large
      dimensions. Unreadable dimensions never fail the file. */
  function ValidateFile(file: Option<File>, field: Field, utils: ImageUtils): (r: Option<ValidationError>)
    ensures r.Some? ==> r.value.field == field
    ensures r.None? <==> file.None? || FileAcceptable(file.value, utils)
    ensures file.Some? && !utils.isValidImageType(file.value) ==>
      r == Some(ValidationError(field, FileInvalidType))
    ensures (file.Some? && utils.isValidImageType(file.value)
             && !utils.isValidImageSize(file.value, MaxFileSizeMb)) ==>
      r == Some(ValidationError(field, FileTooLarge))
    ensures (file.Some? && utils.isValidImageType(file.value)
             && utils.isValidImageSize(file.value, MaxFileSizeMb) && file.value.size < MinFileSize) ==>
      r == Some(ValidationError(field, FileTooSmall))
    ensures file.Some? && utils.getImageDimensions(file.value).None? ==>
      (r.None? <==> utils.isValidImageType(file.value)
                    && utils.isValidImageSize(file.value, MaxFileSize / (1024 * 1024))
                    && file.value.size >= MinFileSize)
    ensures (file.Some? && utils.isValidImageType(file.value) && utils.isValidImageSize(file.value, MaxFileSizeMb)
             && file.value.size >= MinFileSize && utils.getImageDimensions(file.value).Some?) ==>
      var d := utils.getImageDimensions(file.value).value;
      (d.width < MinDimension || d.height < MinDimension ==>
         r == Some(ValidationError(field, DimensionsTooSmall)))
      && (d.width >= MinDimension && d.height >= MinDimension && (d.width > MaxDimension || d.height > MaxDimension) ==>
            r == Some(ValidationError(field, DimensionsTooLarge)))
  {
    if file.None? then None
    else
      var f := file.value;
      if !utils.isValidImageType(f) then Some(ValidationError(field, FileInvalidType))
      else if !utils.isValidImageSize(f, MaxFileSizeMb) then Some(ValidationError(field, FileTooLarge))
      else if f.size < MinFileSize then Some(ValidationError(field, FileTooSmall))
      else match utils.getImageDimensions(f)
        case None => None
        case Some(d) =>
          if d.width < MinDimension || d.height < MinDimension then
            Some(ValidationError(field, DimensionsTooSmall))
          else if d.width > MaxDimension || d.height > MaxDimension then
            Some(ValidationError(field, DimensionsTooLarge))
          else None
  }

  /** `validatePrompt`: an empty or blank prompt is fine; otherwise its trimmed
      length must lie in [3, 500]. */
  function ValidatePrompt(prompt: string, field: Field): (r: Option<ValidationError>)
    ensures r.None? <==> |JsTrim(prompt)| == 0 || MinPromptLength <= |JsTrim(prompt)| <= MaxPromptLength
    ensures r.Some? ==> r.value.field == field
    ensures 0 < |JsTrim(prompt)| < MinPromptLength ==> r == Some(ValidationError(field, InvalidPrompt))
    ensures |JsTrim(prompt)| > MaxPromptLength ==>
      r == Some(ValidationError(field, FieldName(field) + " description too long. Maximum 500 characters."))
  {
    if prompt == [] then None
    else
      var trimmed := JsTrim(prompt);
      if |trimmed| == 0 then None
      else if |trimmed| < MinPromptLength then Some(ValidationError(field, InvalidPrompt))
      else if |trimmed| > MaxPromptLength then
        Some(ValidationError(field, FieldName(field) + " description too long. Maximum 500 characters."))
      else None
  }

  /** The options a caller passes to the service ("" stands for an absent prompt or seed). */
  datatype TryOnOptions = TryOnOptions(
    modelFile: Option<File>,
    avatarPrompt: string,
    garmentFile: Option<File>,
    backgroundFile: Option<File>,
    backgroundPrompt: string,
    seed: string)

  /** Errors appear in check order, so each field at most once. */
  predicate InCheckOrder(errors: seq<ValidationError>) {
    forall i, j :: 0 <= i < j < |errors| ==> Rank(errors[i].field) < Rank(errors[j].field)
  }

  /** Every input is present and passes its checks. */
  predicate InputsAcceptable(o: TryOnOptions, utils: ImageUtils) {
    (o.modelFile.Some? || !Blank(o.avatarPrompt)) && o.garmentFile.Some?
    && ValidateFile(o.modelFile, ModelFileField, utils).None?
    && ValidateFile(o.garmentFile, GarmentFileField, utils).None?
    && ValidateFile(o.backgroundFile, BackgroundFileField, utils).None?
    && ValidatePrompt(o.avatarPrompt, AvatarPromptField).None?
    && ValidatePrompt(o.backgroundPrompt, BackgroundPromptField).None?
  }

  /** The error of a presence check. */
  function Required(missing: bool, field: Field, message: string): Option<ValidationError> {
    if missing then Some(ValidationError(field, message)) else None
  }

  /** The outcome of every check `validateInputs` runs when online, in its order. */
  function Checks(o: TryOnOptions, utils: ImageUtils): seq<Option<ValidationError>> {
    [Required(o.modelFile.None? && Blank(o.avatarPrompt), ModelField, ModelRequired),
     Required(o.garmentFile.None?, GarmentField, ClothingRequired),
     ValidateFile(o.modelFile, ModelFileField, utils),
     ValidateFile(o.garmentFile, GarmentFileField, utils),
     ValidateFile(o.backgroundFile, BackgroundFileField, utils),
     ValidatePrompt(o.avatarPrompt, AvatarPromptField),
     ValidatePrompt(o.backgroundPrompt, BackgroundPromptField)]
  }

  /** The errors that occurred, in order: exactly the failed checks. */
  function Present(checks: seq<Option<ValidationError>>): seq<ValidationError> {
    if checks == [] then []
    else Present(checks[..|checks| - 1]) + OptionToSeq(checks[|checks| - 1])
  }

  /** An error is reported exactly when some check produced it, and nothing is
      reported exactly when every check passed. */
  lemma {:induction false} PresentMembers(checks: seq<Option<ValidationError>>)
    ensures forall e :: e in Present(checks) <==> Some(e) in checks
    ensures Present(checks) == [] <==> forall i :: 0 <= i < |checks| ==> checks[i].None?
    decreases |checks|
  {
    if checks != [] {
      var init := checks[..|checks| - 1];
      PresentMembers(init);
      assert checks == init + [checks[|checks| - 1]];
    }
  }

  lemma PresentAppend(checks: seq<Option<ValidationError>>, c: Option<ValidationError>)
    ensures Present(checks + [c]) == Present(checks) + OptionToSeq(c)
  {
    assert (checks + [c])[..|checks|] == checks;
  }

  /** The report of seven checks, as successive pushes build it. */
  lemma PresentOfSeven(c1: Option<ValidationError>, c2: Option<ValidationError>, c3: Option<ValidationError>,
                       c4: Option<ValidationError>, c5: Option<ValidationError>, c6: Option<ValidationError>,
                       c7: Option<ValidationError>)
    ensures Present([c1, c2, c3, c4, c5, c6, c7]) ==
      [] + OptionToSeq(c1) + OptionToSeq(c2) + OptionToSeq(c3) + OptionToSeq(c4)
      + OptionToSeq(c5) + OptionToSeq(c6) + OptionToSeq(c7)
  {
    assert [] + [c1] == [c1];
    assert [c1] + [c2] == [c1, c2];
    assert [c1, c2] + [c3] == [c1, c2, c3];
    assert [c1, c2, c3] + [c4] == [c1, c2, c3, c4];
    assert [c1, c2, c3, c4] + [c5] == [c1, c2, c3, c4, c5];
    assert [c1, c2, c3, c4, c5] + [c6] == [c1, c2, c3, c4, c5, c6];
    assert [c1, c2, c3, c4, c5, c6] + [c7] == [c1, c2, c3, c4, c5, c6, c7];
    PresentAppend([], c1);
    PresentAppend([c1], c2);
    PresentAppend([c1, c2], c3);
    PresentAppend([c1, c2, c3], c4);
    PresentAppend([c1, c2, c3, c4], c5);
    PresentAppend([c1, c2, c3, c4, c5], c6);
    PresentAppend([c1, c2, c3, c4, c5, c6], c7);
  }

  /** The i-th check can only report the field of rank i + 1. */
  predicate RanksMatch(checks: seq<Option<ValidationError>>) {
    forall i :: 0 <= i < |checks| && checks[i].Some? ==> Rank(checks[i].value.field) == i + 1
  }

  /** Checks whose fields follow the check order report in check order, every error
      coming from the check at its field's rank. */
  lemma {:induction false} PresentInCheckOrder(checks: seq<Option<ValidationError>>)
    requires RanksMatch(checks)
    ensures var r := Present(checks);
      InCheckOrder(r) && forall k :: 0 <= k < |r| ==> 1 <= Rank(r[k].field) <= |checks|
    decreases |checks|
  {
    if checks != [] {
      var init := checks[..|checks| - 1];
      var last := checks[|checks| - 1];
      assert RanksMatch(init);
      PresentInCheckOrder(init);
      var p := Present(init);
      var r := Present(checks);
      assert r == p + OptionToSeq(last);
      forall k | 0 <= k < |r| ensures 1 <= Rank(r[k].field) <= |checks| {
        if k >= |p| {
          assert r[k] == last.value;
        }
      }
    }
  }

  /** What `validateInputs` reports: offline, the network error alone; online, the
      errors of the failed checks in check order. */
  function InputErrors(o: TryOnOptions, online: bool, utils: ImageUtils): seq<ValidationError> {
    if !online then [ValidationError(NetworkField, Offline)] else Present(Checks(o, utils))
  }

  /** Online, the report is in check order, every error is the outcome of the check of
      its own field (so no field is reported twice and no other error appears), every
      failed check is reported, and the report is empty exactly when the inputs are
      acceptable. */
  lemma InputErrorsByField(o: TryOnOptions, online: bool, utils: ImageUtils)
    ensures !online ==> InputErrors(o, online, utils) == [ValidationError(NetworkField, Offline)]
    ensures online ==> InCheckOrder(InputErrors(o, online, utils))
    ensures online ==> forall e :: e in InputErrors(o, online, utils) ==>
      e.field != NetworkField && Checks(o, utils)[Rank(e.field) - 1] == Some(e)
    ensures online ==> forall k :: 0 <= k < 7 && Checks(o, utils)[k].Some? ==>
      Checks(o, utils)[k].value in InputErrors(o, online, utils)
    ensures online ==> (InputErrors(o, online, utils) == [] <==> InputsAcceptable(o, utils))
  {
    if online {
      var checks := Checks(o, utils);
      ChecksRanksMatch(o, utils);
      ChecksPassIffAcceptable(o, utils);
      PresentInCheckOrder(checks);
      PresentMembers(checks);
      PresentFromOwnCheck(checks);
    }
  }

  /** When the i-th check reports only the field of rank i + 1, every reported error
      is the outcome of the check at its field's rank. */
  lemma PresentFromOwnCheck(checks: seq<Option<ValidationError>>)
    requires RanksMatch(checks)
    ensures forall e :: e in Present(checks) ==>
      1 <= Rank(e.field) <= |checks| && checks[Rank(e.field) - 1] == Some(e)
  {
    PresentMembers(checks);
    forall e | e in Present(checks) ensures 1 <= Rank(e.field) <= |checks| && checks[Rank(e.field) - 1] == Some(e) {
      var i :| 0 <= i < |checks| && checks[i] == Some(e);
    }
  }

  /** The seven checks report the fields of ranks 1 to 7, in that order. */
  lemma ChecksRanksMatch(o: TryOnOptions, utils: ImageUtils)
    ensures |Checks(o, utils)| == 7 && RanksMatch(Checks(o, utils))
  {
    var m1 := Required(o.modelFile.None? && Blank(o.avatarPrompt), ModelField, ModelRequired);
    var m2 := Required(o.garmentFile.None?, GarmentField, ClothingRequired);
    var m3 := ValidateFile(o.modelFile, ModelFileField, utils);
    var m4 := ValidateFile(o.garmentFile, GarmentFileField, utils);
    var m5 := ValidateFile(o.backgroundFile, BackgroundFileField, utils);
    var m6 := ValidatePrompt(o.avatarPrompt, AvatarPromptField);
    var m7 := ValidatePrompt(o.backgroundPrompt, BackgroundPromptField);
    SevenRanksMatch(m1, m2, m3, m4, m5, m6, m7);
  }

  /** Seven checks, each reporting at most its own field, report in rank order. */
  lemma SevenRanksMatch(c1: Option<ValidationError>, c2: Option<ValidationError>, c3: Option<ValidationError>,
                        c4: Option<ValidationError>, c5: Option<ValidationError>, c6: Option<ValidationError>,
                        c7: Option<ValidationError>)
    requires c1.Some? ==> c1.value.field == ModelField
    requires c2.Some? ==> c2.value.field == GarmentField
    requires c3.Some? ==> c3.value.field == ModelFileField
    requires c4.Some? ==> c4.value.field == GarmentFileField
    requires c5.Some? ==> c5.value.field == BackgroundFileField
    requires c6.Some? ==> c6.value.field == AvatarPromptField
    requires c7.Some? ==> c7.value.field == BackgroundPromptField
    ensures RanksMatch([c1, c2, c3, c4, c5, c6, c7])
  {
  }

  /** Every check passes exactly when the inputs are acceptable. */
  lemma ChecksPassIffAcceptable(o: TryOnOptions, utils: ImageUtils)
    ensures (forall i :: 0 <= i < |Checks(o, utils)| ==> Checks(o, utils)[i].None?)
      <==> InputsAcceptable(o, utils)
  {
    var checks := Checks(o, utils);
    if InputsAcceptable(o, utils) {
      forall i | 0 <= i < |checks| ensures checks[i].None? {
      }
    } else {
      assert !(checks[0].None? && checks[1].None? && checks[2].None? && checks[3].None?
               && checks[4].None? && checks[5].None? && checks[6].None?);
    }
  }

  function Messages(errors: seq<ValidationError>): (r: seq<string>)
    ensures |r| == |errors| && forall i :: 0 <= i < |r| ==> r[i] == errors[i].message
  {
    seq(|errors|, i requires 0 <= i < |errors| => errors[i].message)
  }

  // ---------------------------------------------------------------------------
  // Client-side rate limiting
  // ---------------------------------------------------------------------------

  /** The record kept under the `stylesync_requests` storage key. */
  datatype RequestData = RequestData(count: int, resetTime: int)

  /** The browser's storage slot for the request record. None when nothing is
      stored or the stored text does not parse. */
  class RequestStore {
    var stored: Option<RequestData>

    constructor(initial: Option<RequestData>)
      ensures stored == initial
    {
      stored := initial;
    }

    /** `getStoredRequests`: the stored record, or a fresh window that has seen no request. */
    function Current(now: int, windowMs: int): (d: RequestData)
      reads this
      ensures stored.None? ==> d.count == 0 && d.resetTime == now + windowMs
      ensures stored.Some? ==> d == stored.value
    {
      if stored.Some? then stored.value else RequestData(0, now + windowMs)
    }
  }

  /** The outcome of one `checkClientRateLimit` call on the current record. */
  datatype RateDecision = Allow(record: RequestData) | Refuse

  function RateLimitDecision(current: RequestData, now: int, windowMs: int, maxRequests: int): RateDecision {
    if now > current.resetTime then Allow(RequestData(1, now + windowMs))
    else if current.count >= maxRequests then Refuse
    else Allow(current.(count := current.count + 1))
  }

  /** The stored record after a decision: rewritten when the call is allowed,
      untouched when it is refused. */
  function StoredAfter(stored: Option<RequestData>, d: RateDecision): Option<RequestData> {
    if d.Allow? then Some(d.record) else stored
  }

  /** `checkClientRateLimit` against the storage slot. */
  method CheckClientRateLimit(store: RequestStore, now: int, windowMs: int, maxRequests: int)
    returns (allowed: bool)
    modifies store
    ensures var d := RateLimitDecision(old(store.Current(now, windowMs)), now, windowMs, maxRequests);
      allowed == d.Allow? && store.stored == StoredAfter(old(store.stored), d)
  {
    var current := store.Current(now, windowMs);
    if now > current.resetTime {
      store.stored := Some(RequestData(1, now + windowMs));
      return true;
    }
    if current.count >= maxRequests {
      return false;
    }
    current := current.(count := current.count + 1);
    store.stored := Some(current);
    return true;
  }

  /** With at least one request allowed per window, the stored count never exceeds
      the maximum: a record within the bound stays within it. */
  lemma CountStaysBounded(current: RequestData, now: int, windowMs: int, maxRequests: int)
    requires maxRequests >= 1 && current.count <= maxRequests
    ensures var d := RateLimitDecision(current, now, windowMs, maxRequests);
      d.Allow? ==> d.record.count <= maxRequests
  {
  }

  /** The decisions and final stored record of successive calls at the given times. */
  function Run(stored: Option<RequestData>, times: seq<int>, windowMs: int, maxRequests: int)
    : (r: (seq<bool>, Option<RequestData>))
    ensures |r.0| == |times|
    ensures stored.Some? ==> r.1.Some?
    decreases |times|
  {
    if times == [] then ([], stored)
    else
      var current := if stored.Some? then stored.value else RequestData(0, times[0] + windowMs);
      var d := RateLimitDecision(current, times[0], windowMs, maxRequests);
      var rest := Run(StoredAfter(stored, d), times[1..], windowMs, maxRequests);
      ([d.Allow?] + rest.0, rest.1)
  }

  /** Over any sequence of calls, the stored count never exceeds the limit. */
  lemma {:induction false} RunCountBounded(stored: Option<RequestData>, times: seq<int>, windowMs: int, maxRequests: int)
    requires maxRequests >= 1 && (stored.Some? ==> stored.value.count <= maxRequests)
    ensures var last := Run(stored, times, windowMs, maxRequests).1;
      last.Some? ==> last.value.count <= maxRequests
    decreases |times|
  {
    if times != [] {
      var current := if stored.Some? then stored.value else RequestData(0, times[0] + windowMs);
      CountStaysBounded(current, times[0], windowMs, maxRequests);
      var d := RateLimitDecision(current, times[0], windowMs, maxRequests);
      RunCountBounded(StoredAfter(stored, d), times[1..], windowMs, maxRequests);
    }
  }

  /** Within one window (no call after `resetTime`), the i-th call is allowed
      exactly when fewer than `maxRequests` calls have been counted before it:
      the first `maxRequests - count` calls pass and every later one is refused. */
  lemma {:induction false} RunWithinWindow(r: RequestData, times: seq<int>, windowMs: int, maxRequests: int)
    requires forall k :: 0 <= k < |times| ==> times[k] <= r.resetTime
    ensures forall i :: 0 <= i < |times| ==> Run(Some(r), times, windowMs, maxRequests).0[i] == (r.count + i < maxRequests)
    decreases |times|
  {
    if times != [] {
      var d := RateLimitDecision(r, times[0], windowMs, maxRequests);
      var next := if d.Allow? then d.record else r;
      assert StoredAfter(Some(r), d) == Some(next);
      assert next.resetTime == r.resetTime;
      assert d.Allow? ==> next.count == r.count + 1;
      assert !d.Allow? ==> r.count >= maxRequests;
      RunWithinWindow(next, times[1..], windowMs, maxRequests);
      var decisions := Run(Some(r), times, windowMs, maxRequests).0;
      var rest := Run(Some(next), times[1..], windowMs, maxRequests).0;
      assert decisions == [d.Allow?] + rest;
      forall i | 1 <= i < |times| ensures decisions[i] == (r.count + i < maxRequests) {
        assert decisions[i] == rest[i - 1];
        assert rest[i - 1] == (next.count + (i - 1) < maxRequests);
      }
    }
  }

  /** The (N+1)-th attempt inside a fresh window is refused, and once the window has
      passed the next attempt is allowed again and starts a new window of count 1. */
  lemma WindowAdmitsExactlyMax(start: int, times: seq<int>, later: int, windowMs: int, maxRequests: nat)
    requires windowMs >= 0 && |times| == maxRequests + 1
    requires forall k :: 0 <= k < |times| ==> start <= times[k] <= start + windowMs
    requires later > start + windowMs
    ensures var decisions := Run(Some(RequestData(0, start + windowMs)), times, windowMs, maxRequests).0;
      (forall i :: 0 <= i < maxRequests ==> decisions[i]) && !decisions[maxRequests]
    ensures var s := Run(Some(RequestData(0, start + windowMs)), times, windowMs, maxRequests).1;
      RateLimitDecision(s.value, later, windowMs, maxRequests) == Allow(RequestData(1, later + windowMs))
  {
    var r := RequestData(0, start + windowMs);
    RunWithinWindow(r, times, windowMs, maxRequests);
    RunKeepsReset(r, times, windowMs, maxRequests);
  }

  /** Calls inside the window never move its end. */
  lemma {:induction false} RunKeepsReset(r: RequestData, times: seq<int>, windowMs: int, maxRequests: int)
    requires forall k :: 0 <= k < |times| ==> times[k] <= r.resetTime
    ensures var s := Run(Some(r), times, windowMs, maxRequests).1;
      s.Some? && s.value.resetTime == r.resetTime
    decreases |times|
  {
    if times != [] {
      var d := RateLimitDecision(r, times[0], windowMs, maxRequests);
      var next := if d.Allow? then d.record else r;
      assert StoredAfter(Some(r), d) == Some(next);
      RunKeepsReset(next, times[1..], windowMs, maxRequests);
    }
  }

  // ---------------------------------------------------------------------------
  // The remote call
  // ---------------------------------------------------------------------------

  /** What `generateTryOn` returns: the image (as its size) and the seed used, or a message. */
  datatype ApiResponse = Success(dataSize: nat, seed: string) | Failure(error: string)

  /** How the `fetch` to the remote service ended: a response (with its `X-Seed`
      header, "" when absent), an abort through the caller's signal, or another
      thrown error, carried as the text `sanitizeError` makes of it. */
  datatype FetchOutcome =
    | Responded(response: UpstreamResponse, seedHeader: string)
    | Aborted
    | Threw(sanitized: string)

  /** The message for a failed response whose body did not parse. */
  function StatusMessage(status: nat): (r: string)
    ensures status == 400 ==> r == BadInput
    ensures status == 401 ==> r == AuthFailed
    ensures status == 429 ==> r == ApiRateLimit
    ensures status in {500, 502, 503} ==> r == Unavailable
    ensures status !in {400, 401, 429, 500, 502, 503} ==> r == "API Error: " + NatToString(status)
  {
    match status
    case 400 => BadInput
    case 401 => AuthFailed
    case 429 => ApiRateLimit
    case 500 => Unavailable
    case 502 => Unavailable
    case 503 => Unavailable
    case _ => "API Error: " + NatToString(status)
  }

  /** An unlisted status is named in its message, and can be read back from it. */
  lemma UnlistedStatusIsNamed(status: nat)
    requires status !in {400, 401, 429, 500, 502, 503}
    ensures var m := StatusMessage(status);
      StartsWith(m, "API Error: ") && All(m[11..], IsDigit) && ParseDecimal(m[11..]) == status
  {
    var m := StatusMessage(status);
    assert m[11..] == NatToString(status);
    ParseNatToString(status);
  }

  /** The status and content-type handling after the `fetch`. */
  function InterpretResponse(outcome: FetchOutcome, requestSeed: string): (r: ApiResponse)
    ensures r.Success? <==>
      outcome.Responded? && IsOk(outcome.response.status)
      && IsImageType(outcome.response.contentType) && outcome.response.blobSize > 0
    ensures r.Success? ==>
      r.dataSize == outcome.response.blobSize && r.seed == Or(outcome.seedHeader, requestSeed)
    ensures outcome.Aborted? ==> r == Failure(RequestCancelled)
    ensures outcome.Threw? ==> r == Failure(outcome.sanitized)
    ensures outcome.Responded? && !IsOk(outcome.response.status) ==>
      r == Failure(match outcome.response.errorBody
                   case Unparsable => StatusMessage(outcome.response.status)
                   case Null => ApiError
                   case Json(detail, message) => Or(detail, Or(message, ApiError)))
    ensures (outcome.Responded? && IsOk(outcome.response.status)
             && !IsImageType(outcome.response.contentType)) ==> r == Failure(ApiInvalidResponse)
    ensures (outcome.Responded? && IsOk(outcome.response.status)
             && IsImageType(outcome.response.contentType) && outcome.response.blobSize == 0) ==>
      r == Failure(ApiEmptyResponse)
  {
    match outcome
    case Aborted => Failure(RequestCancelled)
    case Threw(m) => Failure(m)
    case Responded(resp, seedHeader) =>
      if !IsOk(resp.status) then
        match resp.errorBody
        case Unparsable => Failure(StatusMessage(resp.status))
        case Null => Failure(ApiError)
        case Json(detail, message) => Failure(Or(detail, Or(message, ApiError)))
      else if !IsImageType(resp.contentType) then Failure(ApiInvalidResponse)
      else if resp.blobSize == 0 then Failure(ApiEmptyResponse)
      else Success(resp.blobSize, Or(seedHeader, requestSeed))
  }

  /** With `?.`, a failed response whose body parsed to `null` is reported like one whose
      body has neither `detail` nor `message`. */
  lemma NullBodyLikeEmpty(resp: UpstreamResponse, seedHeader: string, requestSeed: string)
    requires resp.errorBody.Null? && !IsOk(resp.status)
    ensures InterpretResponse(Responded(resp, seedHeader), requestSeed)
         == InterpretResponse(Responded(resp.(errorBody := Json("", "")), seedHeader), requestSeed)
    ensures InterpretResponse(Responded(resp, seedHeader), requestSeed) == Failure(ApiError)
  {
  }

  /** The seed field: sent, trimmed, when not blank. */
  function SeedValue(seed: string): Option<string> {
    if Blank(seed) then None else Some(JsTrim(seed))
  }

  /** The multipart payload sent to the remote service: both descriptions are sent
      trimmed. */
  function Payload(o: TryOnOptions): seq<Part> {
    TryOnForm(Slot(o.modelFile, o.avatarPrompt, JsTrim(o.avatarPrompt)), o.garmentFile,
              Slot(o.backgroundFile, o.backgroundPrompt, JsTrim(o.backgroundPrompt)), SeedValue(o.seed))
  }

  /** A non-blank description wins over the image of its pair and is sent trimmed, so no
      pair ever carries both; the clothing image is sent when present; the seed is sent,
      trimmed, only when not blank. */
  lemma PayloadSpec(o: TryOnOptions)
    ensures var form := Payload(o);
      InFieldOrder(form) && DistinctNames(form) && Exclusive(form)
      && (!Blank(o.avatarPrompt) ==>
            Lookup(form, AvatarPrompt) == Some(TextPart(AvatarPrompt, JsTrim(o.avatarPrompt)))
            && !Has(form, AvatarImage))
      && (Blank(o.avatarPrompt) ==>
            !Has(form, AvatarPrompt)
            && Lookup(form, AvatarImage) == (if o.modelFile.Some? then Some(FilePart(AvatarImage, o.modelFile.value)) else None))
      && (!Blank(o.backgroundPrompt) ==>
            Lookup(form, BackgroundPrompt) == Some(TextPart(BackgroundPrompt, JsTrim(o.backgroundPrompt)))
            && !Has(form, BackgroundImage))
      && (Blank(o.backgroundPrompt) ==>
            !Has(form, BackgroundPrompt)
            && Lookup(form, BackgroundImage) ==
               (if o.backgroundFile.Some? then Some(FilePart(BackgroundImage, o.backgroundFile.value)) else None))
      && Lookup(form, ClothingImage) == (if o.garmentFile.Some? then Some(FilePart(ClothingImage, o.garmentFile.value)) else None)
      && (!Blank(o.seed) ==> Lookup(form, Seed) == Some(TextPart(Seed, JsTrim(o.seed))))
      && (Blank(o.seed) ==> !Has(form, Seed))
  {
    TryOnFormSpec(Slot(o.modelFile, o.avatarPrompt, JsTrim(o.avatarPrompt)), o.garmentFile,
                  Slot(o.backgroundFile, o.backgroundPrompt, JsTrim(o.backgroundPrompt)), SeedValue(o.seed));
  }

  /** The payload built by successive appends, as `generateTryOn` does. */
  method BuildPayload(o: TryOnOptions) returns (form: seq<Part>)
    ensures form == Payload(o)
  {
    form := [];
    if o.modelFile.Some? && Blank(o.avatarPrompt) {
      form := form + [FilePart(AvatarImage, o.modelFile.value)];
    } else if !Blank(o.avatarPrompt) {
      form := form + [TextPart(AvatarPrompt, JsTrim(o.avatarPrompt))];
    }
    ghost var avatar := form;
    assert avatar == SlotBlock(Slot(o.modelFile, o.avatarPrompt, JsTrim(o.avatarPrompt)), AvatarImage, AvatarPrompt);
    if o.garmentFile.Some? {
      form := form + [FilePart(ClothingImage, o.garmentFile.value)];
    }
    assert form == avatar + FileBlock(ClothingImage, o.garmentFile);
    ghost var upToClothing := form;
    if o.backgroundFile.Some? && Blank(o.backgroundPrompt) {
      form := form + [FilePart(BackgroundImage, o.backgroundFile.value)];
    } else if !Blank(o.backgroundPrompt) {
      form := form + [TextPart(BackgroundPrompt, JsTrim(o.backgroundPrompt))];
    }
    assert form == upToClothing
      + SlotBlock(Slot(o.backgroundFile, o.backgroundPrompt, JsTrim(o.backgroundPrompt)), BackgroundImage, BackgroundPrompt);
    if !Blank(o.seed) {
      form := form + [TextPart(Seed, JsTrim(o.seed))];
    }
  }

  /** The service object. Its key comes from the environment, with a built-in fallback. */
  class ClientApiService {
    const rapidApiKey: string
    const store: RequestStore

    constructor(envKey: string, store: RequestStore)
      ensures rapidApiKey == Or(envKey, BuiltInKey) && this.store == store
    {
      rapidApiKey := Or(envKey, BuiltInKey);
      this.store := store;
    }

    /** `validateInputs`: collects the errors by successive pushes. */
    method ValidateInputs(o: TryOnOptions, online: bool, utils: ImageUtils)
      returns (errors: seq<ValidationError>)
      ensures errors == InputErrors(o, online, utils)
    {
      errors := [];
      if !online {
        errors := errors + [ValidationError(NetworkField, Offline)];
        return;
      }
      var modelMissing := Required(o.modelFile.None? && Blank(o.avatarPrompt), ModelField, ModelRequired);
      errors := PushError(errors, modelMissing);
      var garmentMissing := Required(o.garmentFile.None?, GarmentField, ClothingRequired);
      errors := PushError(errors, garmentMissing);
      var modelError := ValidateFile(o.modelFile, ModelFileField, utils);
      errors := PushError(errors, modelError);
      var garmentError := ValidateFile(o.garmentFile, GarmentFileField, utils);
      errors := PushError(errors, garmentError);
      var backgroundError := ValidateFile(o.backgroundFile, BackgroundFileField, utils);
      errors := PushError(errors, backgroundError);
      var avatarPromptError := ValidatePrompt(o.avatarPrompt, AvatarPromptField);
      errors := PushError(errors, avatarPromptError);
      var backgroundPromptError := ValidatePrompt(o.backgroundPrompt, BackgroundPromptField);
      errors := PushError(errors, backgroundPromptError);
      PresentOfSeven(modelMissing, garmentMissing, modelError, garmentError, backgroundError,
                     avatarPromptError, backgroundPromptError);
    }

    /** `if (error) errors.push(error)`. */
    static method PushError(errors: seq<ValidationError>, error: Option<ValidationError>)
      returns (errors': seq<ValidationError>)
      ensures errors' == errors + OptionToSeq(error)
    {
      errors' := errors;
      if error.Some? {
        errors' := errors' + [error.value];
      }
    }

    /** `generateTryOn`: rate limit first (a call that then fails validation has still
        used its slot), then the key, then validation (messages joined with ", "),
        and only then the request, whose payload and interpretation are returned. */
    method GenerateTryOn(o: TryOnOptions, online: bool, utils: ImageUtils,
                         now: int, windowMs: int, maxRequests: int, outcome: FetchOutcome)
      returns (response: ApiResponse, sent: Option<seq<Part>>)
      modifies store
      ensures var d := RateLimitDecision(old(store.Current(now, windowMs)), now, windowMs, maxRequests);
        store.stored == StoredAfter(old(store.stored), d)
        && (d.Refuse? ==> response == Failure(ApiRateLimit) && sent.None?)
        && (d.Allow? && (rapidApiKey == [] || rapidApiKey == KeyPlaceholder) ==>
              response == Failure(KeyNotConfigured) && sent.None?)
        && (d.Allow? && rapidApiKey != [] && rapidApiKey != KeyPlaceholder
              && InputErrors(o, online, utils) != [] ==>
              response == Failure(Join(Messages(InputErrors(o, online, utils)), ", ")) && sent.None?)
        && (d.Allow? && rapidApiKey != [] && rapidApiKey != KeyPlaceholder
              && InputErrors(o, online, utils) == [] ==>
              sent == Some(Payload(o)))
      ensures sent.Some? ==>
        online && InputsAcceptable(o, utils) && Exclusive(sent.value)
        && Has(sent.value, ClothingImage)
        && (Has(sent.value, AvatarImage) || Has(sent.value, AvatarPrompt))
        && response == InterpretResponse(outcome, o.seed)
    {
      var allowed := CheckClientRateLimit(store, now, windowMs, maxRequests);
      if !allowed {
        return Failure(ApiRateLimit), None;
      }
      if rapidApiKey == [] || rapidApiKey == KeyPlaceholder {
        return Failure(KeyNotConfigured), None;
      }
      var errors := ValidateInputs(o, online, utils);
      if |errors| > 0 {
        return Failure(Join(Messages(errors), ", ")), None;
      }
      var form := BuildPayload(o);
      InputErrorsByField(o, online, utils);
      PayloadSpec(o);
      sent := Some(form);
      response := InterpretResponse(outcome, o.seed);
    }
  }
}
