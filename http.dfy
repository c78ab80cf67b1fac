/** What the request handlers exchange: uploaded files, multipart form parts,
    and the upstream try-on service's response as the handlers observe it. */
module Http {
  import opened Wrappers
  import opened Strings

  /** A browser `File`: its name, its declared MIME type and its size in bytes. */
  datatype File = File(name: string, mimeType: string, size: nat)

  /** The multipart field names the try-on endpoints understand. */
  datatype FieldName =
    | AvatarImage | AvatarPrompt | ClothingImage | BackgroundImage | BackgroundPrompt | Seed

  /** The name on the wire. */
  function Wire(n: FieldName): string {
    match n
    case AvatarImage => "avatar_image"
    case AvatarPrompt => "avatar_prompt"
    case ClothingImage => "clothing_image"
    case BackgroundImage => "background_image"
    case BackgroundPrompt => "background_prompt"
    case Seed => "seed"
  }

  /** One entry appended to a `FormData`. */
  datatype Part = FilePart(name: FieldName, file: File) | TextPart(name: FieldName, value: string)

  /** The order in which every builder appends: avatar, clothing, background, seed. */
  function FieldRank(name: FieldName): nat {
    match name
    case AvatarImage => 0
    case AvatarPrompt => 0
    case ClothingImage => 1
    case BackgroundImage => 2
    case BackgroundPrompt => 2
    case Seed => 3
  }

  /** The parts of a form are in builder order: avatar, clothing, background, then the rest. */
  predicate InFieldOrder(form: seq<Part>) {
    forall i, j :: 0 <= i < j < |form| ==> FieldRank(form[i].name) <= FieldRank(form[j].name)
  }

  /** No field name occurs twice. */
  predicate DistinctNames(form: seq<Part>) {
    forall i, j :: 0 <= i < j < |form| ==> form[i].name != form[j].name
  }

  /** The exclusivity every builder promises: never an image and a prompt for the same slot. */
  predicate Exclusive(form: seq<Part>) {
    !(Has(form, AvatarImage) && Has(form, AvatarPrompt))
    && !(Has(form, BackgroundImage) && Has(form, BackgroundPrompt))
  }

  /** `formData.get(name)`: the first part named `name`, if the form has one. */
  function Lookup(form: seq<Part>, name: FieldName): (r: Option<Part>)
    ensures r.Some? ==> r.value in form && r.value.name == name
  {
    if form == [] then None
    else if form[0].name == name then Some(form[0])
    else Lookup(form[1..], name)
  }

  /** The form carries a part named `name`. */
  predicate Has(form: seq<Part>, name: FieldName) {
    Lookup(form, name).Some?
  }

  /** `Has` agrees with membership: some part carries the name exactly when the form has it. */
  lemma {:induction false} HasIffSomePart(form: seq<Part>, name: FieldName)
    ensures Has(form, name) <==> exists p :: p in form && p.name == name
    decreases |form|
  {
    if form != [] && form[0].name != name {
      HasIffSomePart(form[1..], name);
      assert form == [form[0]] + form[1..];
    }
  }

  /** A lookup in a concatenation finds the first form's part when it has one, and
      otherwise the second's. */
  lemma {:induction false} LookupAppend(a: seq<Part>, b: seq<Part>, name: FieldName)
    ensures Lookup(a + b, name) == if Has(a, name) then Lookup(a, name) else Lookup(b, name)
    decreases |a|
  {
    if a == [] {
      assert a + b == b;
    } else {
      assert (a + b)[1..] == a[1..] + b;
      LookupAppend(a[1..], b, name);
    }
  }

  /** The parts of a block all belong to fields of one rank. */
  predicate BlockOfRank(block: seq<Part>, k: nat) {
    |block| <= 1 && forall p :: p in block ==> FieldRank(p.name) == k
  }

  /** Where a name is found in a form assembled from one block per rank. */
  function LookupInBlocks(a: seq<Part>, c: seq<Part>, b: seq<Part>, s: seq<Part>, name: FieldName): Option<Part> {
    match FieldRank(name)
    case 0 => Lookup(a, name)
    case 1 => Lookup(c, name)
    case 2 => Lookup(b, name)
    case _ => Lookup(s, name)
  }

  /** A form assembled from an avatar block, a clothing block, a background block
      and a trailing block (at most one part each, in that order) is in field order
      and has no repeated name. */
  lemma AssembledForm(a: seq<Part>, c: seq<Part>, b: seq<Part>, s: seq<Part>)
    requires BlockOfRank(a, 0) && BlockOfRank(c, 1) && BlockOfRank(b, 2) && BlockOfRank(s, 3)
    ensures InFieldOrder(a + c + b + s) && DistinctNames(a + c + b + s)
  {
    var form := a + c + b + s;
    forall i | 0 <= i < |form|
      ensures FieldRank(form[i].name) ==
        if i < |a| then 0 else if i < |a + c| then 1 else if i < |a + c + b| then 2 else 3
    {
      if i < |a| { assert form[i] in a; }
      else if i < |a + c| { assert form[i] == c[i - |a|] && form[i] in c; }
      else if i < |a + c + b| { assert form[i] == b[i - |a + c|] && form[i] in b; }
      else { assert form[i] == s[i - |a + c + b|] && form[i] in s; }
    }
  }

  /** In such a form, each name is found in the block of its rank. */
  lemma AssembledLookup(a: seq<Part>, c: seq<Part>, b: seq<Part>, s: seq<Part>, name: FieldName)
    requires BlockOfRank(a, 0) && BlockOfRank(c, 1) && BlockOfRank(b, 2) && BlockOfRank(s, 3)
    ensures Lookup(a + c + b + s, name) == LookupInBlocks(a, c, b, s, name)
  {
    LookupAppend(a + c + b, s, name);
    LookupAppend(a + c, b, name);
    LookupAppend(a, c, name);
    assert Has(a, name) ==> FieldRank(name) == 0;
    assert Has(c, name) ==> FieldRank(name) == 1;
    assert Has(b, name) ==> FieldRank(name) == 2;
    assert Has(s, name) ==> FieldRank(name) == 3;
  }

  /** What a builder knows about one image/description pair: the uploaded image, the
      description as typed, and the text it sends for the description (trimmed or not). */
  datatype Slot = Slot(file: Option<File>, prompt: string, sent: string)

  /** The rule every current builder applies to a pair: the image when the description
      is blank, otherwise the description; never both. */
  function SlotBlock(slot: Slot, image: FieldName, text: FieldName): seq<Part> {
    if slot.file.Some? && Blank(slot.prompt) then [FilePart(image, slot.file.value)]
    else if !Blank(slot.prompt) then [TextPart(text, slot.sent)]
    else []
  }

  /** An optional file field. */
  function FileBlock(name: FieldName, file: Option<File>): seq<Part> {
    if file.Some? then [FilePart(name, file.value)] else []
  }

  /** An optional text field. */
  function TextBlock(name: FieldName, value: Option<string>): seq<Part> {
    if value.Some? then [TextPart(name, value.value)] else []
  }

  /** The try-on form: avatar pair, clothing image, background pair, seed, in that order. */
  function TryOnForm(avatar: Slot, clothing: Option<File>, background: Slot, seed: Option<string>): seq<Part> {
    SlotBlock(avatar, AvatarImage, AvatarPrompt) + FileBlock(ClothingImage, clothing)
    + SlotBlock(background, BackgroundImage, BackgroundPrompt) + TextBlock(Seed, seed)
  }

  /** The lookups of a pair's two names in its block: a non-blank description wins and
      is sent as `sent`; otherwise the image is sent when there is one. */
  predicate SlotSent(form: seq<Part>, slot: Slot, image: FieldName, text: FieldName) {
    (!Blank(slot.prompt) ==>
       Lookup(form, text) == Some(TextPart(text, slot.sent)) && !Has(form, image))
    && (Blank(slot.prompt) ==>
       !Has(form, text)
       && Lookup(form, image) == (if slot.file.Some? then Some(FilePart(image, slot.file.value)) else None))
  }

  /** The pair rule holds of the pair's own block. */
  lemma SlotBlockSent(slot: Slot, image: FieldName, text: FieldName)
    requires image != text
    ensures SlotSent(SlotBlock(slot, image, text), slot, image, text)
  {
  }

  /** A form agreeing with a block on both names of a pair obeys the pair rule too. */
  lemma SlotSentTransfer(form: seq<Part>, block: seq<Part>, slot: Slot, image: FieldName, text: FieldName)
    requires SlotSent(block, slot, image, text)
    requires Lookup(form, image) == Lookup(block, image) && Lookup(form, text) == Lookup(block, text)
    ensures SlotSent(form, slot, image, text)
    ensures !(Has(form, image) && Has(form, text))
  {
  }

  /** A try-on form is assembled from one block per rank, so it is in field order with
      distinct names and every name is found in the block of its rank. */
  lemma TryOnFormBlocks(avatar: Slot, clothing: Option<File>, background: Slot, seed: Option<string>)
    ensures var form := TryOnForm(avatar, clothing, background, seed);
      InFieldOrder(form) && DistinctNames(form)
      && forall name :: Lookup(form, name) ==
           LookupInBlocks(SlotBlock(avatar, AvatarImage, AvatarPrompt), FileBlock(ClothingImage, clothing),
                          SlotBlock(background, BackgroundImage, BackgroundPrompt), TextBlock(Seed, seed), name)
  {
    var a := SlotBlock(avatar, AvatarImage, AvatarPrompt);
    var c := FileBlock(ClothingImage, clothing);
    var b := SlotBlock(background, BackgroundImage, BackgroundPrompt);
    var s := TextBlock(Seed, seed);
    assert BlockOfRank(a, 0) && BlockOfRank(c, 1) && BlockOfRank(b, 2) && BlockOfRank(s, 3);
    AssembledForm(a, c, b, s);
    forall name ensures Lookup(a + c + b + s, name) == LookupInBlocks(a, c, b, s, name) {
      AssembledLookup(a, c, b, s, name);
    }
  }

  /** The avatar pair of a try-on form obeys the pair rule. */
  lemma TryOnFormAvatar(avatar: Slot, clothing: Option<File>, background: Slot, seed: Option<string>)
    ensures var form := TryOnForm(avatar, clothing, background, seed);
      SlotSent(form, avatar, AvatarImage, AvatarPrompt)
      && !(Has(form, AvatarImage) && Has(form, AvatarPrompt))
  {
    var form := TryOnForm(avatar, clothing, background, seed);
    var a := SlotBlock(avatar, AvatarImage, AvatarPrompt);
    TryOnFormBlocks(avatar, clothing, background, seed);
    assert Lookup(form, AvatarImage) == Lookup(a, AvatarImage);
    assert Lookup(form, AvatarPrompt) == Lookup(a, AvatarPrompt);
    SlotBlockSent(avatar, AvatarImage, AvatarPrompt);
    SlotSentTransfer(form, a, avatar, AvatarImage, AvatarPrompt);
  }

  /** The background pair of a try-on form obeys the pair rule. */
  lemma TryOnFormBackground(avatar: Slot, clothing: Option<File>, background: Slot, seed: Option<string>)
    ensures var form := TryOnForm(avatar, clothing, background, seed);
      SlotSent(form, background, BackgroundImage, BackgroundPrompt)
      && !(Has(form, BackgroundImage) && Has(form, BackgroundPrompt))
  {
    var form := TryOnForm(avatar, clothing, background, seed);
    var b := SlotBlock(background, BackgroundImage, BackgroundPrompt);
    TryOnFormBlocks(avatar, clothing, background, seed);
    assert Lookup(form, BackgroundImage) == Lookup(b, BackgroundImage);
    assert Lookup(form, BackgroundPrompt) == Lookup(b, BackgroundPrompt);
    SlotBlockSent(background, BackgroundImage, BackgroundPrompt);
    SlotSentTransfer(form, b, background, BackgroundImage, BackgroundPrompt);
  }

  /** A try-on form is in field order with distinct names, never carries both members of
      a pair, applies the pair rule to avatar and background, and carries the clothing
      image and the seed exactly when they are given. */
  lemma TryOnFormSpec(avatar: Slot, clothing: Option<File>, background: Slot, seed: Option<string>)
    ensures var form := TryOnForm(avatar, clothing, background, seed);
      InFieldOrder(form) && DistinctNames(form) && Exclusive(form)
      && SlotSent(form, avatar, AvatarImage, AvatarPrompt)
      && SlotSent(form, background, BackgroundImage, BackgroundPrompt)
      && Lookup(form, ClothingImage) == (if clothing.Some? then Some(FilePart(ClothingImage, clothing.value)) else None)
      && Lookup(form, Seed) == (if seed.Some? then Some(TextPart(Seed, seed.value)) else None)
  {
    var form := TryOnForm(avatar, clothing, background, seed);
    TryOnFormBlocks(avatar, clothing, background, seed);
    TryOnFormAvatar(avatar, clothing, background, seed);
    TryOnFormBackground(avatar, clothing, background, seed);
    assert Lookup(form, ClothingImage) == Lookup(FileBlock(ClothingImage, clothing), ClothingImage);
    assert Lookup(form, Seed) == Lookup(TextBlock(Seed, seed), Seed);
  }

  /** The body of a failed response as `response.json()` sees it: it did not parse, it
      parsed to `null`, or it parsed to a value whose `detail` and `message` are read
      ("" when absent or falsy). */
  datatype ErrorBody = Unparsable | Null | Json(detail: string, message: string)

  /** The upstream response, abstracted to what the handlers read from it:
      the status and status text, the `content-type` header (None when absent),
      the error body of a failed response, and the size of the body as a blob. */
  datatype UpstreamResponse = UpstreamResponse(
    status: nat,
    statusText: string,
    contentType: Option<string>,
    errorBody: ErrorBody,
    blobSize: nat)

  /** `response.ok`: a 2xx status. */
  predicate IsOk(status: nat) {
    200 <= status <= 299
  }

  /** `contentType?.startsWith("image/")`: absent counts as not an image. */
  predicate IsImageType(contentType: Option<string>) {
    contentType.Some? && StartsWith(contentType.value, "image/")
  }

  /** `a || b` on strings: the first operand unless it is empty. */
  function Or(a: string, b: string): (r: string)
    ensures r == a || r == b
    ensures r == [] ==> a == [] && b == []
  {
    if a != [] then a else b
  }

  /** The five values a route handler reads from the request it receives ("" stands
      for a description that is absent). */
  datatype Upload = Upload(
    avatarImage: Option<File>,
    avatarPrompt: string,
    clothingImage: Option<File>,
    backgroundImage: Option<File>,
    backgroundPrompt: string)

  /** What `await req.formData()` gave a route handler: the form's values, or the
      `Error` it threw, with whether its name is `AbortError` and its message. */
  datatype FormRead = Parsed(upload: Upload) | Unreadable(isAbort: bool, message: string)

  /** `formData.get(name) as File | null` on a form whose part of that name is a file. */
  function FileAt(form: seq<Part>, name: FieldName): Option<File> {
    match Lookup(form, name)
    case Some(FilePart(_, f)) => Some(f)
    case _ => None
  }

  /** `formData.get(name) as string | null`, with "" for absent. */
  function TextAt(form: seq<Part>, name: FieldName): string {
    match Lookup(form, name)
    case Some(TextPart(_, v)) => v
    case _ => []
  }

  /** What a handler reads from a posted form. */
  function Received(form: seq<Part>): Upload {
    Upload(FileAt(form, AvatarImage), TextAt(form, AvatarPrompt), FileAt(form, ClothingImage),
           FileAt(form, BackgroundImage), TextAt(form, BackgroundPrompt))
  }

  /** What a handler reads back for a pair sent by the pair rule: the image alone when
      the description is blank, otherwise the sent description alone. */
  lemma SlotReceived(form: seq<Part>, slot: Slot, image: FieldName, text: FieldName)
    requires SlotSent(form, slot, image, text)
    ensures FileAt(form, image) == (if Blank(slot.prompt) then slot.file else None)
    ensures TextAt(form, text) == (if Blank(slot.prompt) then [] else slot.sent)
  {
  }

  /** What a route handler answers: a JSON `{ error }` body with a status, or the image
      with its status and headers (`Content-Length` and `Cache-Control` are None where the
      handler does not set them) and the size of its body. */
  datatype ProxyResponse =
    | JsonError(status: nat, error: string)
    | ImageReply(status: nat, contentType: string, contentLength: Option<string>,
                 cacheControl: Option<string>, size: nat)
}
