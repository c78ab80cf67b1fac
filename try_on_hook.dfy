/** The React hook behind the try-on page: one state record replaced field by field,
    setters that keep each image/description pair exclusive, and the life cycle of a
    generation (validate, load while a ticker advances the progress bar, then record
    a result, an error, or nothing on abort, and always return to idle). */
module TryOnHook {
  import opened Wrappers
  import opened Strings
  import opened Http

  const ModelMissing := "Please provide a model image or avatar description"
  const ClothingMissing := "Please upload a clothing image"
  const UnexpectedError := "An unexpected error occurred. Please try again."
  /** How many results the history keeps. */
  const HistoryLimit: nat := 10
  /** The simulated progress stops here until the response arrives. */
  const ProgressCap: real := 90.0
  /** `Math.random() * 15` lies in [0, 15). */
  const ProgressStepBound: real := 15.0

  /** A finished try-on: the object URL of the image, when it was made, and what it was
      made from (`background` is None where the source leaves it `undefined`). */
  datatype TryOnResult = TryOnResult(
    url: string,
    timestamp: int,
    model: string,
    garment: string,
    background: Option<string>)

  /** The hook's state record. */
  datatype TryOnState = TryOnState(
    modelFile: Option<File>,
    avatarPrompt: string,
    garmentFile: Option<File>,
    backgroundFile: Option<File>,
    backgroundPrompt: string,
    result: Option<TryOnResult>,
    isLoading: bool,
    progress: real,
    error: Option<string>,
    history: seq<TryOnResult>)

  const Initial := TryOnState(None, "", None, None, "", None, false, 0.0, None, [])

  /** Never an image and a non-empty description for the same pair. */
  predicate PairsExclusive(s: TryOnState) {
    (s.modelFile.None? || s.avatarPrompt == []) && (s.backgroundFile.None? || s.backgroundPrompt == [])
  }

  /** What every reachable state satisfies. */
  predicate WellFormed(s: TryOnState) {
    PairsExclusive(s) && |s.history| <= HistoryLimit && 0.0 <= s.progress <= ProgressCap
  }

  // ---------------------------------------------------------------------------
  // Setters
  // ---------------------------------------------------------------------------

  /** `setModelFile`: a chosen file clears the description; every setter clears the error. */
  function WithModelFile(s: TryOnState, file: Option<File>): (r: TryOnState)
    ensures r.modelFile == file && r.error.None?
    ensures r.avatarPrompt == (if file.Some? then [] else s.avatarPrompt)
    ensures r.(modelFile := s.modelFile, avatarPrompt := s.avatarPrompt, error := s.error) == s
    ensures r.modelFile.None? || r.avatarPrompt == []
    ensures WellFormed(s) ==> WellFormed(r)
  {
    s.(modelFile := file, avatarPrompt := if file.Some? then [] else s.avatarPrompt, error := None)
  }

  /** `setAvatarPrompt`: a non-empty description (even one of spaces only) clears the file. */
  function WithAvatarPrompt(s: TryOnState, prompt: string): (r: TryOnState)
    ensures r.avatarPrompt == prompt && r.error.None?
    ensures r.modelFile == (if prompt != [] then None else s.modelFile)
    ensures r.(modelFile := s.modelFile, avatarPrompt := s.avatarPrompt, error := s.error) == s
    ensures WellFormed(s) ==> WellFormed(r)
  {
    s.(avatarPrompt := prompt, modelFile := if prompt != [] then None else s.modelFile, error := None)
  }

  /** `setGarmentFile`: only the garment and the error change. */
  function WithGarmentFile(s: TryOnState, file: Option<File>): (r: TryOnState)
    ensures r.garmentFile == file && r.error.None?
    ensures r.(garmentFile := s.garmentFile, error := s.error) == s
    ensures WellFormed(s) ==> WellFormed(r)
  {
    s.(garmentFile := file, error := None)
  }

  /** `setBackgroundFile`: the avatar rule applied to the background pair. */
  function WithBackgroundFile(s: TryOnState, file: Option<File>): (r: TryOnState)
    ensures r.backgroundFile == file && r.error.None?
    ensures r.backgroundPrompt == (if file.Some? then [] else s.backgroundPrompt)
    ensures r.(backgroundFile := s.backgroundFile, backgroundPrompt := s.backgroundPrompt, error := s.error) == s
    ensures r.backgroundFile.None? || r.backgroundPrompt == []
    ensures WellFormed(s) ==> WellFormed(r)
  {
    s.(backgroundFile := file, backgroundPrompt := if file.Some? then [] else s.backgroundPrompt, error := None)
  }

  /** `setBackgroundPrompt`. */
  function WithBackgroundPrompt(s: TryOnState, prompt: string): (r: TryOnState)
    ensures r.backgroundPrompt == prompt && r.error.None?
    ensures r.backgroundFile == (if prompt != [] then None else s.backgroundFile)
    ensures r.(backgroundFile := s.backgroundFile, backgroundPrompt := s.backgroundPrompt, error := s.error) == s
    ensures WellFormed(s) ==> WellFormed(r)
  {
    s.(backgroundPrompt := prompt, backgroundFile := if prompt != [] then None else s.backgroundFile, error := None)
  }

  // ---------------------------------------------------------------------------
  // Validation
  // ---------------------------------------------------------------------------

  /** `hasRequiredInputs`: a model image or a non-blank description, and a garment. */
  predicate HasRequiredInputs(s: TryOnState) {
    (s.modelFile.Some? || !Blank(s.avatarPrompt)) && s.garmentFile.Some?
  }

  /** `validateInputs`: no message exactly when the required inputs are there; the
      missing model is reported in preference to the missing garment. */
  function ValidateInputs(s: TryOnState): (r: Option<string>)
    ensures r.None? <==> HasRequiredInputs(s)
    ensures s.modelFile.None? && Blank(s.avatarPrompt) ==> r == Some(ModelMissing)
    ensures (s.modelFile.Some? || !Blank(s.avatarPrompt)) && s.garmentFile.None? ==> r == Some(ClothingMissing)
  {
    if s.modelFile.None? && Blank(s.avatarPrompt) then Some(ModelMissing)
    else if s.garmentFile.None? then Some(ClothingMissing)
    else None
  }

  /** `canGenerate`. */
  predicate CanGenerate(s: TryOnState) {
    !s.isLoading && ValidateInputs(s) == None
  }

  /** The two flags the hook exports agree: generation is possible exactly when no
      generation is running and the required inputs are there. */
  lemma CanGenerateIff(s: TryOnState)
    ensures CanGenerate(s) <==> !s.isLoading && HasRequiredInputs(s)
    ensures CanGenerate(s) ==> s.garmentFile.Some? && (s.modelFile.Some? || !Blank(s.avatarPrompt))
  {
  }

  // ---------------------------------------------------------------------------
  // Simulated progress
  // ---------------------------------------------------------------------------

  /** One firing of the progress ticker: `Math.min(prev + step, 90)`. */
  function Tick(progress: real, step: real): real {
    if progress + step < ProgressCap then progress + step else ProgressCap
  }

  /** The progress after the ticker fired once per step, in order. */
  function Ticks(progress: real, steps: seq<real>): real
    decreases |steps|
  {
    if steps == [] then progress else Tick(Ticks(progress, steps[..|steps| - 1]), steps[|steps| - 1])
  }

  /** All steps are what `Math.random() * 15` can produce. */
  predicate ValidSteps(steps: seq<real>) {
    forall i :: 0 <= i < |steps| ==> 0.0 <= steps[i] < ProgressStepBound
  }

  /** Starting from a displayable value, the simulated progress never goes down and never
      passes 90, however many times the ticker fires. */
  lemma {:induction false} TicksStayBelowCap(progress: real, steps: seq<real>)
    requires 0.0 <= progress <= ProgressCap && ValidSteps(steps)
    ensures progress <= Ticks(progress, steps) <= ProgressCap
    decreases |steps|
  {
    if steps != [] {
      TicksStayBelowCap(progress, steps[..|steps| - 1]);
    }
  }

  /** More firings never show less progress. */
  lemma {:induction false} TicksMonotone(progress: real, steps: seq<real>, k: nat)
    requires 0.0 <= progress <= ProgressCap && ValidSteps(steps) && k <= |steps|
    ensures Ticks(progress, steps[..k]) <= Ticks(progress, steps)
    decreases |steps|
  {
    if k < |steps| {
      var init := steps[..|steps| - 1];
      assert steps[..k] == init[..k];
      TicksMonotone(progress, init, k);
      TicksStayBelowCap(progress, init);
    } else {
      assert steps[..k] == steps;
    }
  }

  // ---------------------------------------------------------------------------
  // History
  // ---------------------------------------------------------------------------

  function Min(a: nat, b: nat): nat {
    if a < b then a else b
  }

  /** `[result, ...history].slice(0, 10)`: the new result first, then as many of the
      older ones, in order, as fit in ten. */
  function PushHistory(result: TryOnResult, history: seq<TryOnResult>): (h: seq<TryOnResult>)
    ensures |h| == Min(|history| + 1, HistoryLimit)
    ensures h[0] == result && h[1..] == history[..|h| - 1]
  {
    ([result] + history)[..Min(|history| + 1, HistoryLimit)]
  }

  /** The history after several successes in a row, oldest first. */
  function PushAll(history: seq<TryOnResult>, results: seq<TryOnResult>): seq<TryOnResult>
    decreases |results|
  {
    if results == [] then history
    else PushHistory(results[|results| - 1], PushAll(history, results[..|results| - 1]))
  }

  /** After any run of successes the history holds at most ten results, and its first
      entries are the latest results, newest first. */
  lemma {:induction false} HistoryKeepsNewest(history: seq<TryOnResult>, results: seq<TryOnResult>)
    ensures |PushAll(history, results)| <= HistoryLimit || (results == [] && PushAll(history, results) == history)
    ensures Min(|results|, HistoryLimit) <= |PushAll(history, results)|
    ensures forall i :: 0 <= i < Min(|results|, HistoryLimit) ==>
      PushAll(history, results)[i] == results[|results| - 1 - i]
    decreases |results|
  {
    if results != [] {
      var init := results[..|results| - 1];
      HistoryKeepsNewest(history, init);
      var before := PushAll(history, init);
      var after := PushAll(history, results);
      assert after == PushHistory(results[|results| - 1], before);
      forall i | 0 <= i < Min(|results|, HistoryLimit)
        ensures after[i] == results[|results| - 1 - i]
      {
        if i == 0 {
          assert after[0] == results[|results| - 1];
        } else {
          assert i - 1 < Min(|init|, HistoryLimit);
          assert i - 1 < |before|;
          assert i < |after|;
          assert after[1..] == before[..|after| - 1];
          assert after[i] == after[1..][i - 1];
          assert init[|init| - 1 - (i - 1)] == results[|results| - 1 - i];
        }
      }
    }
  }

  // ---------------------------------------------------------------------------
  // One generation
  // ---------------------------------------------------------------------------

  /** What a `generateTryOn` call captured from the state when it started: it builds the
      request and the result from these, and prepends to this history. */
  datatype Request = Request(
    modelFile: Option<File>,
    avatarPrompt: string,
    garment: File,
    backgroundFile: Option<File>,
    backgroundPrompt: string,
    history: seq<TryOnResult>)

  function Capture(s: TryOnState): Request
    requires s.garmentFile.Some?
  {
    Request(s.modelFile, s.avatarPrompt, s.garmentFile.value, s.backgroundFile, s.backgroundPrompt, s.history)
  }

  /** The form posted to the server route: the pair rule with the descriptions sent as
      typed (not trimmed), the clothing image always, and no seed. */
  function HookForm(req: Request): seq<Part> {
    TryOnForm(Slot(req.modelFile, req.avatarPrompt, req.avatarPrompt), Some(req.garment),
              Slot(req.backgroundFile, req.backgroundPrompt, req.backgroundPrompt), None)
  }

  /** The posted form never holds both members of a pair, always holds the clothing
      image, sends a non-blank description untrimmed in place of the image, and holds
      no seed; when the inputs were validated an avatar part is present. */
  lemma HookFormSpec(req: Request)
    ensures var form := HookForm(req);
      Exclusive(form) && InFieldOrder(form) && DistinctNames(form)
      && Lookup(form, ClothingImage) == Some(FilePart(ClothingImage, req.garment))
      && SlotSent(form, Slot(req.modelFile, req.avatarPrompt, req.avatarPrompt), AvatarImage, AvatarPrompt)
      && SlotSent(form, Slot(req.backgroundFile, req.backgroundPrompt, req.backgroundPrompt), BackgroundImage, BackgroundPrompt)
      && !Has(form, Seed)
      && ((req.modelFile.Some? || !Blank(req.avatarPrompt)) ==> (Has(form, AvatarImage) || Has(form, AvatarPrompt)))
  {
    TryOnFormSpec(Slot(req.modelFile, req.avatarPrompt, req.avatarPrompt), Some(req.garment),
                  Slot(req.backgroundFile, req.backgroundPrompt, req.backgroundPrompt), None);
  }

  /** `formData.append` calls of `generateTryOn`. */
  method BuildHookForm(req: Request) returns (form: seq<Part>)
    ensures form == HookForm(req)
  {
    form := [];
    if req.modelFile.Some? && Blank(req.avatarPrompt) {
      form := form + [FilePart(AvatarImage, req.modelFile.value)];
    } else if !Blank(req.avatarPrompt) {
      form := form + [TextPart(AvatarPrompt, req.avatarPrompt)];
    }
    form := form + [FilePart(ClothingImage, req.garment)];
    ghost var upToClothing := form;
    if req.backgroundFile.Some? && Blank(req.backgroundPrompt) {
      form := form + [FilePart(BackgroundImage, req.backgroundFile.value)];
    } else if !Blank(req.backgroundPrompt) {
      form := form + [TextPart(BackgroundPrompt, req.backgroundPrompt)];
    }
    assert form == upToClothing
      + SlotBlock(Slot(req.backgroundFile, req.backgroundPrompt, req.backgroundPrompt), BackgroundImage, BackgroundPrompt);
    assert form == form + TextBlock(Seed, None);
  }

  /** How the request settled: an image (as its object URL); a non-2xx response with its
      status, status text and the `error` field of its JSON body ("" when the body did not
      parse or had none); a thrown `Error` with its message; a thrown non-`Error`; or an
      abort. */
  datatype Outcome =
    | Succeeded(url: string)
    | HttpFailed(status: nat, statusText: string, errorField: string)
    | Threw(message: string)
    | ThrewNonError
    | Aborted

  /** The message a failed generation shows; None for success and abort. */
  function FailureMessage(outcome: Outcome): (m: Option<string>)
    ensures m.None? <==> outcome.Succeeded? || outcome.Aborted?
    ensures outcome.HttpFailed? && outcome.errorField == [] ==>
      m == Some("HTTP " + NatToString(outcome.status) + ": " + outcome.statusText)
    ensures outcome.HttpFailed? && outcome.errorField != [] ==> m == Some(outcome.errorField)
  {
    match outcome
    case Succeeded(_) => None
    case Aborted => None
    case HttpFailed(status, statusText, errorField) =>
      Some(Or(errorField, "HTTP " + NatToString(status) + ": " + statusText))
    case Threw(message) => Some(message)
    case ThrewNonError => Some(UnexpectedError)
  }

  /** The file's name, or "" for no file (`file?.name`, falsy when absent). */
  function NameOf(file: Option<File>): string {
    if file.Some? then file.value.name else []
  }

  /** The result recorded for a successful request. */
  function ResultOf(req: Request, url: string, now: int): (r: TryOnResult)
    ensures r.url == url && r.timestamp == now && r.garment == req.garment.name
    ensures r.model == Or(NameOf(req.modelFile), req.avatarPrompt)
    ensures r.background.None? <==> NameOf(req.backgroundFile) == [] && req.backgroundPrompt == []
    ensures r.background.Some? ==> r.background.value == Or(NameOf(req.backgroundFile), req.backgroundPrompt)
  {
    var background := Or(NameOf(req.backgroundFile), req.backgroundPrompt);
    TryOnResult(url, now, Or(NameOf(req.modelFile), req.avatarPrompt), req.garment.name,
                if background == [] then None else Some(background))
  }

  /** The state once the request has settled and the `finally` step has run. Every path
      ends idle with the progress reset; an abort touches nothing else; a failure sets
      only the error; a success records the result and prepends it to the history the
      call captured (the 100% progress it sets is immediately reset). */
  function Completed(s: TryOnState, req: Request, outcome: Outcome, now: int): (r: TryOnState)
    ensures !r.isLoading && r.progress == 0.0
    ensures outcome.Aborted? ==> r == s.(isLoading := false, progress := 0.0)
    ensures FailureMessage(outcome).Some? ==>
      r == s.(isLoading := false, progress := 0.0, error := FailureMessage(outcome))
    ensures outcome.Succeeded? ==>
      r == s.(isLoading := false, progress := 0.0, result := Some(ResultOf(req, outcome.url, now)),
              history := PushHistory(ResultOf(req, outcome.url, now), req.history))
    ensures WellFormed(s) && |req.history| <= HistoryLimit ==> WellFormed(r)
  {
    var settled :=
      if outcome.Succeeded? then
        var result := ResultOf(req, outcome.url, now);
        s.(result := Some(result), progress := 100.0, history := PushHistory(result, req.history))
      else if outcome.Aborted? then s
      else s.(error := FailureMessage(outcome));
    settled.(isLoading := false, progress := 0.0)
  }

  /** The hook: its state record, whether `abortControllerRef.current` holds a controller,
      and the `generateTryOn` call (with what it captured) still waiting for its response. */
  class VirtualTryOn {
    var state: TryOnState
    var controller: bool
    var pending: Option<Request>

    /** Reachable states are well formed; loading exactly while a controller is held;
        loading only while a call is pending; a pending call captured at most ten results. */
    predicate Valid()
      reads this
    {
      WellFormed(state) && state.isLoading == controller && (state.isLoading ==> pending.Some?)
      && (pending.Some? ==> |pending.value.history| <= HistoryLimit)
    }

    constructor()
      ensures Valid() && state == Initial && !controller && pending.None?
    {
      state := Initial;
      controller := false;
      pending := None;
    }

    method SetModelFile(file: Option<File>)
      requires Valid()
      modifies this
      ensures Valid() && state == WithModelFile(old(state), file)
      ensures controller == old(controller) && pending == old(pending)
    {
      state := WithModelFile(state, file);
    }

    method SetAvatarPrompt(prompt: string)
      requires Valid()
      modifies this
      ensures Valid() && state == WithAvatarPrompt(old(state), prompt)
      ensures controller == old(controller) && pending == old(pending)
    {
      state := WithAvatarPrompt(state, prompt);
    }

    method SetGarmentFile(file: Option<File>)
      requires Valid()
      modifies this
      ensures Valid() && state == WithGarmentFile(old(state), file)
      ensures controller == old(controller) && pending == old(pending)
    {
      state := WithGarmentFile(state, file);
    }

    method SetBackgroundFile(file: Option<File>)
      requires Valid()
      modifies this
      ensures Valid() && state == WithBackgroundFile(old(state), file)
      ensures controller == old(controller) && pending == old(pending)
    {
      state := WithBackgroundFile(state, file);
    }

    method SetBackgroundPrompt(prompt: string)
      requires Valid()
      modifies this
      ensures Valid() && state == WithBackgroundPrompt(old(state), prompt)
      ensures controller == old(controller) && pending == old(pending)
    {
      state := WithBackgroundPrompt(state, prompt);
    }

    /** The synchronous part of `generateTryOn`: on a validation message, set it and send
        nothing; otherwise abort any previous controller, take a new one, start loading
        from 0% and post the form built from the captured inputs. */
    method GenerateTryOn() returns (sent: Option<seq<Part>>)
      requires Valid()
      modifies this
      ensures Valid()
      ensures ValidateInputs(old(state)).Some? ==>
        state == old(state).(error := ValidateInputs(old(state))) && sent.None?
        && controller == old(controller) && pending == old(pending)
      ensures ValidateInputs(old(state)).None? ==>
        state == old(state).(isLoading := true, error := None, progress := 0.0)
        && controller && pending == Some(Capture(old(state)))
        && sent == Some(HookForm(Capture(old(state))))
    {
      var validationError := ValidateInputs(state);
      if validationError.Some? {
        state := state.(error := validationError);
        return None;
      }
      var req := Capture(state);
      // Any previous controller is aborted and replaced.
      controller := true;
      state := state.(isLoading := true, error := None, progress := 0.0);
      pending := Some(req);
      var form := BuildHookForm(req);
      sent := Some(form);
    }

    /** The progress ticker fires once per step while a call is pending. */
    method AdvanceProgress(steps: seq<real>)
      requires Valid() && ValidSteps(steps)
      modifies this
      ensures Valid() && controller == old(controller) && pending == old(pending)
      ensures state == if pending.Some? then old(state).(progress := Ticks(old(state).progress, steps)) else old(state)
    {
      if pending.None? {
        return;
      }
      var i := 0;
      while i < |steps|
        invariant 0 <= i <= |steps|
        invariant Valid() && controller == old(controller) && pending == old(pending)
        invariant state == old(state).(progress := Ticks(old(state).progress, steps[..i]))
      {
        assert steps[..i + 1][..i] == steps[..i];
        TicksStayBelowCap(state.progress, [steps[i]]);
        state := state.(progress := Tick(state.progress, steps[i]));
        i := i + 1;
      }
      assert steps[..i] == steps;
    }

    /** The pending call's request settled: record its outcome, then the `finally` step
        returns to idle and drops the controller. */
    method Complete(outcome: Outcome, now: int)
      requires Valid() && pending.Some?
      modifies this
      ensures Valid() && !controller && pending.None?
      ensures state == Completed(old(state), old(pending).value, outcome, now)
    {
      state := Completed(state, pending.value, outcome, now);
      controller := false;
      pending := None;
    }

    /** `cancelGeneration`: abort and drop the controller, stop loading, reset progress.
        A second call changes nothing. */
    method CancelGeneration()
      requires Valid()
      modifies this
      ensures Valid() && !controller && pending == old(pending)
      ensures state == old(state).(isLoading := false, progress := 0.0)
      ensures old(!controller && !state.isLoading && state.progress == 0.0) ==> unchanged(this)
    {
      if controller {
        controller := false;
      }
      state := state.(isLoading := false, progress := 0.0);
    }

    method ClearError()
      requires Valid()
      modifies this
      ensures Valid() && state == old(state).(error := None)
      ensures controller == old(controller) && pending == old(pending)
    {
      state := state.(error := None);
    }

    method ClearResult()
      requires Valid()
      modifies this
      ensures Valid() && state == old(state).(result := None)
      ensures controller == old(controller) && pending == old(pending)
    {
      state := state.(result := None);
    }

    method ClearHistory()
      requires Valid()
      modifies this
      ensures Valid() && state == old(state).(history := [])
      ensures controller == old(controller) && pending == old(pending)
    {
      state := state.(history := []);
    }
  }
}
