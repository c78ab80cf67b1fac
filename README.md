# StyleSync virtual try-on: a verified model of its core

StyleSync lets a shopper see a garment on a model. The shopper supplies a model photo or an avatar description, a clothing image, and an optional background photo or description. The remote try-on-diffusion service then renders the outfit. This project models the parts of the repository that decide what is sent, what is refused and what comes back. It proves properties of each part.

The parts modelled are:

- **ClientApi** (`lib/client-api.ts`): the browser service.
  - A fixed-window request counter kept in local storage.
  - File and prompt validation, reporting every error in check order.
  - The multipart payload.
  - The translation of the remote answer into a success or a message.
- **TryOnHook** (`hooks/use-virtual-try-on.ts`): the React hook as a class over one state record.
  - Setters that keep each image/description pair exclusive.
  - Validation.
  - A progress ticker capped at 90.
  - A history of at most ten results.
  - The life cycle of a generation. `GenerateTryOn` is the synchronous part, `AdvanceProgress` the ticker, and `Complete` the settlement plus the `finally` block.
- **OutfitRoute** (`app/api/generate-outfit/route.ts`): the server route that forwards the form, and the only copy Next.js serves.
- **LegacyOutfitRoute** (`src/app/api/generate-outfit/route.ts`): the older copy of the same route.
- **DynamicScraper** and **SanaSafinazScraper** (`scraper/*.py`): the pure steps of the two scrapers.
  - Filename sanitising. The Sana Safinaz scraper's `_make_valid_filename` (scraper/sana_safinaz_scraper.py:182-185) applies the same rule as `make_valid_filename` (scraper/dynamic_scraper.py:323-328), so both use `DynamicScraper.MakeValidFilename`.
  - Selector choice.
  - Product numbering and folder names.
  - Which image URLs are kept and which image files are recorded.
  - Product-id extraction.
- Shared modules:
  - **Http**: form parts, the pair rule, the upstream response, and JavaScript `||` on strings.
  - **Strings**: JavaScript `trim` and Python `strip`, split, join, filter, decimal rendering.
  - **Wrappers**: `Option`.
- **Scenarios**: connects the hook's form to what the server route reads from it.

Conventions:

- An absent optional string (`undefined`, `null`, a missing form field, a missing `src` attribute) is modelled as `""`. Every test in the source treats these alike.
- Time, the network, the browser and local storage are parameters.
  - `now` and the step values stand in for the clock and for `Math.random`.
  - A `FetchOutcome` or `RouteOutcome` stands for the upstream call.
  - A `RequestStore` object stands for the storage slot.
  - The tiles and images a page shows are given as sequences.
- The key compiled into the service and into the route is the constant `BuiltInKey`.

## Model

Specification functions without a row of their own are covered by the rows that state their properties:

- `ClientApi.RateLimitDecision`: `ClientApi.CheckClientRateLimit`, `ClientApi.CountStaysBounded`, `ClientApi.RunCountBounded`, `ClientApi.RunWithinWindow`, `ClientApi.WindowAdmitsExactlyMax`.
- `TryOnHook.HasRequiredInputs` and `TryOnHook.CanGenerate`: `TryOnHook.ValidateInputs`, `TryOnHook.CanGenerateIff`.
- `TryOnHook.Tick` and `TryOnHook.Ticks`: `TryOnHook.TicksStayBelowCap`, `TryOnHook.TicksMonotone`, `TryOnHook.VirtualTryOn.AdvanceProgress`.
- `SanaSafinazScraper.ImageUrls` and `SanaSafinazScraper.Admitted`: `SanaSafinazScraper.ImageUrlsSpec`, `SanaSafinazScraper.ImageUrlsFromSources`, `SanaSafinazScraper.ImageUrlsKeepsPlainSources`, `SanaSafinazScraper.ExtractImageUrls`.
- `DynamicScraper.PageProducts` and `DynamicScraper.Listing`: `DynamicScraper.PageProductsIncrease`, `DynamicScraper.ListingIncreases`, `DynamicScraper.ScrapePage`, `DynamicScraper.ScrapeProducts`.


| member | source | states |
|---|---|---|
| ClientApi.ValidateFile | lib/client-api.ts:92-127 | No file passes. Otherwise the first failing check is reported, in the order type, maximum size, minimum size, then dimensions; the error names the field. A file is accepted iff every check passes, and dimensions that cannot be read never reject it. Readable dimensions below 256 in either direction give the too-small error; otherwise above 4096 in either direction give the too-large error. |
| ClientApi.ValidatePrompt | lib/client-api.ts:129-144 | A prompt is accepted iff its trimmed length is 0 or lies in [3, 500]. Gives the "valid description" message below 3 and the field-named "too long" message above 500. |
| ClientApi.PresentMembers | lib/client-api.ts:166-203 | The collected errors are exactly the checks that failed. The list is empty iff every check passed. |
| ClientApi.PresentInCheckOrder | lib/client-api.ts:166-203 | The collected errors keep the order in which `validateInputs` runs its checks. |
| ClientApi.InputErrorsByField | lib/client-api.ts:166-203 | Offline gives only the network error. Online: errors come in check order, each failed check is reported under its own field, and there are none iff all inputs are acceptable. |
| ClientApi.ClientApiService.ValidateInputs | lib/client-api.ts:166-203 | The pushes of `validateInputs` produce exactly the error list specified by `InputErrors`. |
| ClientApi.RequestStore.Current | lib/client-api.ts:42-54 | An empty slot reads as count 0 with the window ending at now + window; a stored record reads back unchanged. |
| ClientApi.CheckClientRateLimit | lib/client-api.ts:66-86 | Allowed iff the window has expired or the count is below the maximum. Stores a fresh window of count 1, the incremented count, or nothing on refusal. |
| ClientApi.CountStaysBounded | lib/client-api.ts:66-86 | With a maximum of at least one, an allowed call never stores a count above the maximum. |
| ClientApi.RunCountBounded | lib/client-api.ts:66-86 | Over any sequence of calls, starting from a record within the limit (or none), the stored count never exceeds the maximum. |
| ClientApi.RunWithinWindow | lib/client-api.ts:66-86 | Inside one window, the i-th call is allowed iff fewer than the maximum were counted before it. |
| ClientApi.RunKeepsReset | lib/client-api.ts:66-86 | Calls inside a window never move the end of that window. |
| ClientApi.WindowAdmitsExactlyMax | lib/client-api.ts:66-86 | In a fresh window the first N calls pass and call N+1 is refused. After the window ends, the next call passes and opens a new window with count 1. |
| ClientApi.StatusMessage | lib/client-api.ts:276-297 | When the error body does not parse: 400, 401 and 429 get their fixed messages; 500, 502 and 503 give "service unavailable"; any other status gives `API Error: <status>`. |
| ClientApi.UnlistedStatusIsNamed | lib/client-api.ts:276-297 | For an unlisted status, the message is the prefix followed by the status in decimal, and that decimal reads back as the status. |
| ClientApi.NullBodyLikeEmpty | lib/client-api.ts:273-275 | A failed response whose body parsed to `null` is reported like one with neither `detail` nor `message`: the generic API error. |
| ClientApi.InterpretResponse | lib/client-api.ts:270-345 | Success iff the response is 2xx, has an `image/` content type and a non-empty body; the seed is the `X-Seed` header, else the request's seed. Otherwise the failure is, in order: the JSON `detail`, its `message`, or the generic text; then the status message, "invalid response", "empty image", "Request cancelled" on abort, or the sanitised error. |
| ClientApi.PayloadSpec | lib/client-api.ts:233-258 | The fields are in field order with distinct names. A non-blank description wins over its pair's image and is sent trimmed. A pair never carries both. The clothing image is sent iff present. The seed is sent, trimmed, iff not blank. |
| ClientApi.BuildPayload | lib/client-api.ts:233-258 | The successive appends build exactly `Payload`. |
| ClientApi.ClientApiService.constructor | lib/client-api.ts:154-157 | The key is the environment's when it is non-empty, else the built-in one. |
| ClientApi.ClientApiService.GenerateTryOn | lib/client-api.ts:205-346 | The rate limit is applied first and consumes the slot. Then the key is checked: empty or placeholder is refused. Then validation, with the messages joined by ", ". Otherwise exactly `Payload` is sent. Any form sent is exclusive, carries clothing and an avatar, and comes from acceptable online inputs; the answer is `InterpretResponse`. |
| TryOnHook.WithModelFile | hooks/use-virtual-try-on.ts:46-52 | Sets the file and clears the error. A chosen file clears the description. No other field changes. The pair stays exclusive and well-formedness is preserved. |
| TryOnHook.WithAvatarPrompt | hooks/use-virtual-try-on.ts:54-60 | Sets the description and clears the error. A non-empty description clears the file. No other field changes, and well-formedness is preserved. |
| TryOnHook.WithGarmentFile | hooks/use-virtual-try-on.ts:62-64 | Only the garment and the error change. |
| TryOnHook.WithBackgroundFile | hooks/use-virtual-try-on.ts:66-72 | The file rule applied to the background pair. |
| TryOnHook.WithBackgroundPrompt | hooks/use-virtual-try-on.ts:74-80 | The description rule applied to the background pair. |
| TryOnHook.ValidateInputs | hooks/use-virtual-try-on.ts:82-90 | No message iff a model image or non-blank description is present together with a garment (`hasRequiredInputs`). A missing model is reported before a missing garment. |
| TryOnHook.CanGenerateIff | hooks/use-virtual-try-on.ts:232-233 | `canGenerate` holds iff no generation is running and `hasRequiredInputs` holds: a garment, and a model image or a non-blank description. |
| TryOnHook.TicksStayBelowCap | hooks/use-virtual-try-on.ts:113-118 | However often the ticker fires with steps in [0, 15), the progress never drops and never passes 90. |
| TryOnHook.TicksMonotone | hooks/use-virtual-try-on.ts:113-118 | More firings never show less progress. |
| TryOnHook.PushHistory | hooks/use-virtual-try-on.ts:162 | The new result comes first, followed by as many older results, in order, as fit in ten. |
| TryOnHook.HistoryKeepsNewest | hooks/use-virtual-try-on.ts:159-163 | After any run of successes the history holds at most ten results, and its first entries are the latest results, newest first. |
| TryOnHook.HookFormSpec | hooks/use-virtual-try-on.ts:121-135 | The posted form follows the pair rule, with descriptions sent untrimmed. It always carries the clothing image, never a seed, and carries an avatar part whenever the avatar inputs are valid. |
| TryOnHook.BuildHookForm | hooks/use-virtual-try-on.ts:121-135 | The appends build exactly `HookForm`. |
| TryOnHook.FailureMessage | hooks/use-virtual-try-on.ts:143-174 | A message appears iff the call neither succeeded nor was aborted. That message is the body's `error` field, else `HTTP <status>: <text>`, the thrown message, or the generic text. |
| TryOnHook.ResultOf | hooks/use-virtual-try-on.ts:151-157 | The result records the URL, the time and the garment name. The model is the file name or else the description. The background is absent iff there is neither a background file name nor a background description; when present it is the file name, or else the description. |
| TryOnHook.Completed | hooks/use-virtual-try-on.ts:159-182 | Every path ends idle at 0% progress. An abort changes nothing else; a failure sets only the error; a success records the result and prepends it to the captured history. Well-formedness is preserved. |
| TryOnHook.VirtualTryOn.constructor | hooks/use-virtual-try-on.ts:27-38 | Starts from the initial state with no controller and nothing pending. |
| TryOnHook.VirtualTryOn.SetModelFile | hooks/use-virtual-try-on.ts:46-52 | The state becomes `WithModelFile` of the old state. The invariant is kept. |
| TryOnHook.VirtualTryOn.SetAvatarPrompt | hooks/use-virtual-try-on.ts:54-60 | The state becomes `WithAvatarPrompt` of the old state. The invariant is kept. |
| TryOnHook.VirtualTryOn.SetGarmentFile | hooks/use-virtual-try-on.ts:62-64 | The state becomes `WithGarmentFile` of the old state. |
| TryOnHook.VirtualTryOn.SetBackgroundFile | hooks/use-virtual-try-on.ts:66-72 | The state becomes `WithBackgroundFile` of the old state. |
| TryOnHook.VirtualTryOn.SetBackgroundPrompt | hooks/use-virtual-try-on.ts:74-80 | The state becomes `WithBackgroundPrompt` of the old state. |
| TryOnHook.VirtualTryOn.GenerateTryOn | hooks/use-virtual-try-on.ts:92-141 | With a validation message, only the error is set and nothing is sent. Otherwise it starts loading from 0%, holds a controller, captures the inputs and posts `HookForm` of them. |
| TryOnHook.VirtualTryOn.AdvanceProgress | hooks/use-virtual-try-on.ts:113-118 | While a call is pending, the progress becomes `Ticks` of the steps; nothing else changes. |
| TryOnHook.VirtualTryOn.Complete | hooks/use-virtual-try-on.ts:143-182 | The state becomes `Completed` for the pending request. The controller is dropped. |
| TryOnHook.VirtualTryOn.CancelGeneration | hooks/use-virtual-try-on.ts:185-191 | Stops loading, resets the progress and drops the controller. On an idle hook it changes nothing. |
| TryOnHook.VirtualTryOn.ClearError | hooks/use-virtual-try-on.ts:193-195 | Only the error is cleared. |
| TryOnHook.VirtualTryOn.ClearResult | hooks/use-virtual-try-on.ts:197-199 | Only the result is cleared. |
| TryOnHook.VirtualTryOn.ClearHistory | hooks/use-virtual-try-on.ts:201-203 | Only the history is cleared. |
| OutfitRoute.ConfiguredKey | app/api/generate-outfit/route.ts:9 | The key is never empty, and equals the environment's whenever that is set. |
| OutfitRoute.ValidateFile | app/api/generate-outfit/route.ts:60-72 | A file is accepted iff it is absent, or at most 10 MB with an allowed type. Size is checked before type, and each message names the file. |
| OutfitRoute.RequestError | app/api/generate-outfit/route.ts:45-83 | No error iff a model image or non-blank description is present, the clothing image is present, and every file passes. Otherwise the first of: model, clothing, then the three file checks. |
| OutfitRoute.RouteFormSpec | app/api/generate-outfit/route.ts:85-105 | For an accepted request the forwarded form is ordered with distinct names. A pair never carries both parts. It always carries the clothing image and an avatar part. Descriptions are sent trimmed, and a non-blank one wins over the image. No seed is sent. |
| OutfitRoute.BuildRouteForm | app/api/generate-outfit/route.ts:85-105 | The appends build exactly `RouteForm`. |
| OutfitRoute.UpstreamMessage | app/api/generate-outfit/route.ts:128-158 | The message is never empty. 400, 401, 429 and 500/502/503 get their fixed messages; any other status gives `detail`, else `message`, else the status text, else the default. |
| OutfitRoute.ClientStatus | app/api/generate-outfit/route.ts:160-163 | The status is 503 iff upstream answered 500 or above, else 400. |
| OutfitRoute.TranslateUpstreamError | app/api/generate-outfit/route.ts:128-163 | The error branch computes `UpstreamMessage` and `ClientStatus`. |
| OutfitRoute.Reply | app/api/generate-outfit/route.ts:128-225 | The image is passed on iff the response is 2xx with an `image/` type and a non-empty body. It then carries that type, a `Content-Length` and `no-cache`. Every error is in 400..599 with a non-empty message: 408 on timeout, 500 on any other throw. |
| OutfitRoute.ContentLengthReadsBack | app/api/generate-outfit/route.ts:191-198 | The `Content-Length` header parses back to the body size. |
| OutfitRoute.NullBodyLikeEmpty | app/api/generate-outfit/route.ts:132-134 | A failed response whose body parsed to `null` gets the same message as one with neither `detail` nor `message`, since both are read with `?.`. |
| OutfitRoute.Post | app/api/generate-outfit/route.ts:13-227 | A missing key gives 500 and nothing is forwarded. A form that cannot be read gives 408 when the error is an `AbortError`, else 500 with the generic message, and nothing is forwarded. A request error gives 400 with that message. Otherwise `RouteForm` is forwarded and the answer is `Reply`. |
| LegacyOutfitRoute.RequestError | src/app/api/generate-outfit/route.ts:14-26 | Accepted iff a model image or a non-empty description (spaces count) is present together with a clothing image. A missing model is reported first. |
| LegacyOutfitRoute.LegacyFormSpec | src/app/api/generate-outfit/route.ts:30-47 | The forwarded form is ordered with distinct names and carries the clothing image. Each pair is sent as the image alone, the untrimmed description alone, or nothing when both or neither were given. |
| LegacyOutfitRoute.BothAvatarsDropped | src/app/api/generate-outfit/route.ts:33-37 | A request with both a model image and a description passes the checks, yet carries no avatar part. |
| LegacyOutfitRoute.BuildLegacyForm | src/app/api/generate-outfit/route.ts:30-47 | The appends build exactly `LegacyForm`. |
| LegacyOutfitRoute.Reply | src/app/api/generate-outfit/route.ts:71-87 | The body is passed on iff the response is 2xx, labelled `image/jpeg` with no other header. Every failure is a 500. It carries `API Error: ` followed by `detail` or else the status text. A body that does not parse, or that parses to `null` (reading `detail` of it throws), gives the thrown message. Other thrown errors give their message, and a thrown non-error gives "Unexpected error". |
| LegacyOutfitRoute.Post | src/app/api/generate-outfit/route.ts:5-88 | A form that cannot be read gives 500 with the thrown message. A request error gives 400. In both cases nothing is forwarded. Otherwise `LegacyForm` is forwarded and the answer is `Reply`. |
| Http.TryOnFormSpec | lib/client-api.ts:233-258 | The pair rule shared by the client, the hook and the route. The assembled form is ordered with distinct names. Each pair sends its description when non-blank, else its image. The clothing image and the seed are sent when given. |
| Http.SlotReceived | app/api/generate-outfit/route.ts:29-34 | What the route reads back from a pair sent by the pair rule: the image when the description is blank, else the description. |
| Http.Or | lib/client-api.ts:329 | `a \|\| b` on strings: one of the two, and empty only when both are. |
| Scenarios.HookFormThroughRoute | hooks/use-virtual-try-on.ts:121-135 | The route receives the hook's inputs: the clothing image, and the model image or description under the pair rule. Inputs the hook accepts pass the route's presence checks. The route forwards them with trimmed descriptions. |
| Strings.TrimSpec | lib/client-api.ts:132 | The result is a contiguous slice of the input with only whitespace before and after it. It is empty iff the input is all whitespace, otherwise it starts and ends with non-whitespace. An input with no whitespace is unchanged. |
| Strings.TrimIdempotent | lib/client-api.ts:132 | Trimming twice equals trimming once. |
| Strings.BlankIffAllSpace | hooks/use-virtual-try-on.ts:83 | `!s.trim()` holds iff every character is whitespace. |
| Strings.Split | scraper/sana_safinaz_scraper.py:155-158 | `str.split(c)`: at least one part, no part holds the separator, and joining the parts with it gives back the string. |
| Strings.ParseNatToString | app/api/generate-outfit/route.ts:195 | The decimal rendering of a number parses back to that number. |
| Strings.NatToStringInjective | scraper/dynamic_scraper.py:392 | Different numbers render differently. |
| DynamicScraper.MakeValidFilename | scraper/dynamic_scraper.py:323-328 | The sanitised name is never longer than the input. |
| DynamicScraper.FilenameChars | scraper/dynamic_scraper.py:323-328 | The sanitised name holds only letters, digits, `-` and `_`: no space and no path separator. |
| DynamicScraper.FilenameKeepsAlnum | scraper/dynamic_scraper.py:323-328 | Every letter and digit of the input survives, in order, and nothing else that is a letter or digit appears. |
| DynamicScraper.FilenameKeepsNameChars | scraper/dynamic_scraper.py:323-328 | A name made only of letters, digits, `-` and `_` is returned unchanged. |
| DynamicScraper.FilenameIdempotent | scraper/dynamic_scraper.py:323-328 | Sanitising a sanitised name changes nothing. |
| DynamicScraper.BaseAgrees | scraper/dynamic_scraper.py:36-41 | The base class's sanitiser, which maps dropped characters to `""` and joins, equals the filter-based one. |
| DynamicScraper.GetSelectors | scraper/dynamic_scraper.py:330-349 | The Khaadi set is used iff the domain contains "khaadi", the other set otherwise. Both share the grid and price selectors. |
| DynamicScraper.ImageAttribute | scraper/dynamic_scraper.py:460-469 | Images are read from `src` iff the domain is Khaadi's, else from `href`. |
| DynamicScraper.ProductNumberInjective | scraper/dynamic_scraper.py:392 | On pages of at most 36 tiles, `(page-1)*36 + idx` determines page and index. |
| DynamicScraper.ProductFolderInjective | scraper/dynamic_scraper.py:392-396 | Equal `product_<n>_<name>` folders have equal numbers and equal sanitised names. |
| DynamicScraper.PageProductsIncrease | scraper/dynamic_scraper.py:381-392 | Product numbers on a page strictly increase and lie within that page's block of 36. |
| DynamicScraper.ListingIncreases | scraper/dynamic_scraper.py:356-427 | Across pages of at most 36 tiles, product numbers strictly increase and stay within 1..36 times the number of pages. |
| DynamicScraper.FoldersDistinct | scraper/dynamic_scraper.py:392-396 | On pages of at most 36 tiles, no two products of a run get the same folder. |
| DynamicScraper.ScrapePage | scraper/dynamic_scraper.py:381-403 | The tile loop creates exactly the folders of the page's named products, in order. Tiles whose name lookup fails are skipped. |
| DynamicScraper.ScrapeProducts | scraper/dynamic_scraper.py:356-427 | The page loop creates exactly the folders of the listing, in order. |
| DynamicScraper.ImageFileNameInjective | scraper/dynamic_scraper.py:473 | `image_<i>.jpg` names are distinct for distinct positions. |
| DynamicScraper.KeptPositionsSpec | scraper/dynamic_scraper.py:471-473 | The recorded positions strictly increase and lie in 1..n. A position is recorded iff its URL is non-empty and its download succeeded. |
| DynamicScraper.KeptImagesSpec | scraper/dynamic_scraper.py:471-473 | No more names than URLs. `image_<k>.jpg` is recorded iff URL k is non-empty and was downloaded. The names are distinct. |
| DynamicScraper.PriceText | scraper/dynamic_scraper.py:451-456 | A missing price element gives "N/A"; a found one gives its stripped text. |
| DynamicScraper.ScrapeProductDetails | scraper/dynamic_scraper.py:441-487 | The metadata written holds the name, the URL, `KeptImages` of the image URLs, and `PriceText` of the price. |
| SanaSafinazScraper.StoreUrl | scraper/sana_safinaz_scraper.py:41-53 | A page is opened iff the store is `sanasafinaz` and the category is one of its three. The page is the base URL followed by `/<category>.html`. |
| SanaSafinazScraper.ExtractProductId | scraper/sana_safinaz_scraper.py:153-159 | The id holds neither `/` nor `.` and is no longer than the URL. |
| SanaSafinazScraper.ProductIdOfPage | scraper/sana_safinaz_scraper.py:153-159 | The id of `<base>/<id>.<ext>` is `id`, whatever the base. |
| SanaSafinazScraper.ImageUrlsSpec | scraper/sana_safinaz_scraper.py:121-126 | No kept URL holds a query or mentions a placeholder. No more URLs are kept than there were sources. |
| SanaSafinazScraper.ImageUrlsFromSources | scraper/sana_safinaz_scraper.py:119-126 | Every kept URL is one of the sources with its query stripped. |
| SanaSafinazScraper.ImageUrlsKeepsPlainSources | scraper/sana_safinaz_scraper.py:119-126 | A present source with no query that does not mention a placeholder is always among the kept URLs. |
| SanaSafinazScraper.QueryVariantsKeptTwice | scraper/sana_safinaz_scraper.py:123-126 | Duplicates are tested before the query is stripped, so `a?1` and `a?2` both survive as `a`. |
| SanaSafinazScraper.QueryOnlyKeptEmpty | scraper/sana_safinaz_scraper.py:123-126 | A source that is only a query is kept as the empty URL. |
| SanaSafinazScraper.ExtractImageUrls | scraper/sana_safinaz_scraper.py:119-126 | The loop keeps exactly `ImageUrls` of the sources. |
| SanaSafinazScraper.ExtractProductData | scraper/sana_safinaz_scraper.py:110-145 | A missing name or price gives empty metadata and no images. Otherwise: the stripped name and price, the page's URL and timestamp, its product id, and the kept image URLs. |
| SanaSafinazScraper.ProductFolder | scraper/sana_safinaz_scraper.py:161-166 | A folder is created iff the metadata is present. |
| SanaSafinazScraper.ProductFolderIsOneComponent | scraper/sana_safinaz_scraper.py:161-185 | `<id>_<sanitised name>` never holds `/`, so each product is one folder under the dataset. |

## Left out

- The network, timers and browser storage are not modelled. `fetch`, `setTimeout`, `setInterval`, `Date.now`, `Math.random`, `localStorage` and JSON parsing are replaced by the parameters described above. The JSON parse error text is an input.
- The image helpers of `lib/utils.ts` are not part of this model. `isValidImageType`, `isValidImageSize` and `getImageDimensions` are arbitrary functions; the text produced by `sanitizeError` is an input.
- `checkHealth` (lib/client-api.ts:348-392) and the singleton `getInstance` are not modelled: health probing is pure I/O.
- Http.ErrorBody models the `detail` and `message` fields of a JSON error body as strings. In the source, `errorData?.detail || errorData?.message` passes on any truthy value, so a non-string `detail` (for example the array of a validation error) is used as the message. The model does not capture that case.
- The form-data readers assume each field holds the right kind of value. A text value under an image field, or a file under a description field, is not modelled.
- String lengths count characters, not UTF-16 code units, and `isalnum` is ASCII-only. Unicode letters and digits are not modelled.
- TryOnHook.VirtualTryOn.GenerateTryOn: React's stale closures and the interleaving of a superseded call with the new one are not modelled. A call captures the state once, and only the latest call's settlement is modelled, through `Complete`.
- `downloadResult` in the hook is not modelled: it is DOM-only.
- The 60-second abort in the route and the 30-second abort in the older route are outcomes (`TimedOut`, `Threw`), not timers.
- The older route sends `RAPID_API_KEY!` unchecked; the key header is not modelled there.
- The Selenium driver (page loads, waits, scrolling via `scroll_page`, window switching, pagination clicks) is not modelled. Every page's tiles and every product page are given as values, and the domain is given rather than parsed from the URL.
- Downloading images (`download_image`, `_download_image`) is not modelled. Each download's success is an input, and the bytes written are not modelled.
- `_scrape_products` and `_create_dataset_structure` of the Sana Safinaz scraper are not modelled: they are the browser loop around `ExtractProductData` and `ProductFolder`. The folder's timestamped parent is left out.
- The other scrapers in `scraper/` are not part of this model. Neither are their sanitisers, one of which replaces spaces before stripping.
- DynamicScraper.FoldersDistinct and DynamicScraper.ListingIncreases assume at most 36 tiles per page. A page showing more would let `(page-1)*36 + idx` collide with the next page; such a page is not modelled.
- SanaSafinazScraper.ImageUrlsSpec does not promise that kept URLs are non-empty. The code keeps `""` for a source that starts with `?` (`QueryOnlyKeptEmpty`), so the non-empty property is false of the code as written.

## Findings

| source | as written | input that shows it | evidently intended | confidence | as-written member | corrected member |
|---|---|---|---|---|---|---|
| src/app/api/generate-outfit/route.ts:33-37 | When both a model image and an avatar description are sent, the presence check passes, yet neither avatar field is forwarded. | `avatar_image` = any file, `avatar_prompt` = "x", `clothing_image` = any file | An accepted request always forwards an avatar part. The current route does this by letting a non-blank description win. | medium, not executed | LegacyOutfitRoute.BothAvatarsDropped | OutfitRoute.RouteFormSpec |
