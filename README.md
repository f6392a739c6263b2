# AI image generator: prompt pipeline and history store

This project models the non-visual core of a Next.js image-generation app.
The core has three parts:

- **Generation pipeline** (`src/lib/api.ts`):
  - validating a user's prompt;
  - composing the text prompt sent to the model from the prompt, a style, a quality level and an aspect ratio;
  - finding an image URL in the service's reply;
  - mapping every outcome of the request to one `GenerationResponse`.
- **Generation history** (`src/lib/storage.ts`): image records kept as JSON in one `localStorage` slot.
  - A save puts the new record first and keeps at most fifty. An import writes any list that passes its checks, whatever its length or order.
  - Operations: save, load, delete, clear, export and import.
- **Helpers** (`src/lib/image-utils.ts`):
  - prompt truncation;
  - the pixel size of each aspect ratio;
  - the file extension of an image path;
  - the two option tables the form offers.

Modules:

| module | file | contents |
|---|---|---|
| `Options` | options.dfy | the optional value |
| `JsStrings` | js_strings.dfy | ECMAScript string behaviour the code relies on: what `trim` strips and `\s` matches, the ASCII case folding of a non-Unicode `i` regular expression, UTF-16 length, `slice` with a negative end, and the decimal text of a number |
| `JsonValues` | json_values.dfy | parsed JSON values; truthiness; optional-chained property access; object spread |
| `ImageTypes` | image_types.dfy | the records of `src/types/image.ts` |
| `ImageUrlPattern` | image_url_pattern.dfy | the URL regular expression of `extractImageUrl` as a leftmost-longest match predicate, and a function computing that match |
| `Api` | api.dfy | validation, prompt composition, URL extraction and `generateImage` |
| `ImageUtils` | image_utils.dfy | the helpers and tables of `src/lib/image-utils.ts` |
| `BrowserStorage` | local_storage.dfy | a `LocalStorage` class: a string map with a quota check |
| `Storage` | storage.dfy | the history store |

**Imperative parts as methods.**
- `buildPrompt` reassigns a local string in stages. `BuildPrompt` does the same and is proved equal to the declarative `ComposedPrompt`.
- `validatePrompt` loops over its patterns with an early return. `ValidatePrompt` is proved equal to the declarative `Verdict`. The loop is its own method, `MatchesAnyPattern`, which `ValidatePrompt` calls.
- `generateImage` is a method whose network call is a function parameter.

**Operations on the storage object.**
- The store works on a `LocalStorage` object. Save, delete, clear and import change its `items`; load and export only read them.
- `importHistory`'s validation loop is a `while` loop with an invariant.

**Failures.**
- JavaScript exceptions that the source catches become values: `BodyRejected`, `FetchRejected`, `None` from the codec, and `false` from `SetItem`.
- When the source catches, the model goes down the same catch path.

## Model

| member | source | states |
|---|---|---|
| JsStrings.Trim | src/lib/api.ts:158 | the trimmed text is empty exactly when the whole prompt is whitespace |
| JsStrings.TrimSpecified | src/lib/image-utils.ts:151 | `trim` returns a slice with only whitespace before and after it and none at its two ends |
| JsStrings.Utf16Length | src/lib/api.ts:162 | a string's `length` lies between its code-point count and twice that |
| JsStrings.Utf16LengthOfChar | src/lib/api.ts:162 | a character outside the Basic Multilingual Plane counts two units and every other character one |
| JsStrings.Utf16LengthAppend | src/lib/api.ts:162 | the `length` of a concatenation is the sum of the two lengths |
| JsStrings.SliceTo | src/lib/image-utils.ts:151 | definition: `slice(0, n)` is the first n characters, or all of them; a negative n counts back from the end |
| JsStrings.LowerAscii | src/lib/image-utils.ts:120 | lower-casing keeps the length and lowers each ASCII letter in place |
| JsStrings.NatToDecimal | src/lib/api.ts:42 | the status rendered in the error message is a non-empty run of decimal digits that spells the status, with no leading zero unless the status is 0 |
| JsStrings.NatToDecimalInjective | src/lib/api.ts:42 | two different numbers never render to the same text |
| JsonValues.Truthy | src/lib/storage.ts:101 | null and undefined are falsy, arrays and objects truthy, and a string is truthy exactly when it is not empty |
| JsonValues.Field | src/lib/api.ts:136 | definition: `v?.name` finds a property exactly when `v` is an object that has it |
| JsonValues.Index0 | src/lib/api.ts:136 | `v?.[0]` is an array's first element, an object's property "0", a string's first character, and undefined on an empty array or string and on null, booleans and numbers |
| JsonValues.Spread | src/lib/storage.ts:40 | `{...img}` copies an object's own fields; an array or string gives one property per element or character, keyed by its index in decimal; null, booleans and numbers give none |
| JsonValues.Indexed | src/lib/storage.ts:40 | the keys of a spread array are exactly the decimal indices, and each holds the element at that index |
| Api.PatternTest | src/lib/api.ts:168-174 | a pattern's `test` is true exactly when some alternative occurs in p as a whole word, ASCII letters compared without case |
| Api.MatchesAnyPattern | src/lib/api.ts:173-177 | the loop reports a match exactly when some word of some pattern occurs in the prompt as a whole word |
| Api.ValidatePrompt | src/lib/api.ts:157-180 | a blank prompt gets the empty-prompt error; otherwise one over 1000 UTF-16 units gets the length error; otherwise one holding a listed word gets the content error; anything else is valid, with no error |
| Api.StyleModifier | src/lib/api.ts:86-96 | every known style's modifier is non-empty, so `if (modifier)` only skips unknown styles |
| Api.RatioHint | src/lib/api.ts:111-124 | every ratio except 1:1 has a hint, and no hint is empty |
| Api.CommaJoinedAppend | src/lib/api.ts:97-123 | appending phrases one after another, each after ", ", equals appending their concatenation |
| Api.ComposedPromptInParts | src/lib/api.ts:81-128 | the composed prompt is the user's prompt, then the style part, the quality part and the ratio part |
| Api.BuildPrompt | src/lib/api.ts:81-128 | the stage-by-stage result is the composed prompt: style modifier, then the quality phrases, then the ratio hint, each after ", " |
| Api.CommaJoinedEmpty | src/lib/api.ts:97-123 | joined phrases are empty exactly when there are none |
| Api.ComposedPromptKeepsPrompt | src/lib/api.ts:81-128 | the composed prompt starts with the user's prompt, and equals it exactly when the style is absent, "none" or unknown, the quality absent or standard and the ratio absent or 1:1 |
| Api.ComposedPromptExample | src/lib/api.ts:85-125 | a cinematic, ultra, 16:9 request gets its modifiers in the order style, high quality, ultra, ratio |
| Api.ComposedPromptPlainExample | src/lib/api.ts:85-111 | style "none", standard quality and the 1:1 ratio leave the prompt untouched |
| ImageUrlPattern.FirstMatchFrom | src/lib/api.ts:140 | the scan returns the leftmost match of the pattern, and the longest starting there, or reports that there is none |
| ImageUrlPattern.FirstImageUrl | src/lib/api.ts:140-142 | `content.match(...)` is null exactly when the pattern matches nowhere; otherwise it is the non-empty leftmost-longest match |
| ImageUrlPattern.LeftmostLongestUnique | src/lib/api.ts:140 | at most one match is leftmost-longest |
| Api.ExtractImageUrl | src/lib/api.ts:130-155 | a URL that is returned is always truthy |
| Api.FirstHitIsFirstNonMiss | src/lib/api.ts:130-155 | the first strategy that does not miss decides the result |
| Api.FirstHitAllMiss | src/lib/api.ts:130-155 | the result is null exactly when every strategy misses |
| Api.ExtractImageUrlIsFirstHit | src/lib/api.ts:130-155 | extractImageUrl is the first-match-wins chain: raw URL string, chat content, `data[0].url`, `images[0]` |
| Api.ContentWithoutUrlFallsThrough | src/lib/api.ts:136-148 | string content without an image URL falls through to the `data` and `images` strategies |
| Api.ExtractFromDataExample | src/lib/api.ts:146-148 | a reply with only `data[0].url` yields that URL |
| Api.ExtractFromNumberContentExample | src/lib/api.ts:136-140 | truthy content that is not a string makes `content.match` throw |
| Api.ExtractNothingExample | src/lib/api.ts:130-155 | "HTTP://..." is not taken as a raw URL, and an empty `images` array yields null |
| Api.RequestFor | src/lib/api.ts:28-36 | definition: the request posts the default model and exactly one user message carrying the prompt |
| Api.ApiFailedMessage | src/lib/api.ts:41-43 | a non-ok response's message starts with "API request failed: " |
| Api.ApiFailedMessageExample | src/lib/api.ts:42 | status 503 with text "Service Unavailable" gives "API request failed: 503 Service Unavailable" |
| Api.CaughtFailure | src/lib/api.ts:64-78 | an AbortError becomes the timeout message, any other Error its own message, and any other thrown value the generic message |
| Api.GenerateImage | src/lib/api.ts:17-79 | the result for each outcome of the request sent with the composed prompt: rejection, non-ok status, unreadable body, a missing URL, non-string content, and success carrying the URL, the default model, the clock reading and the prompt before composition |
| ImageUtils.TruncatePrompt | src/lib/image-utils.ts:149-152 | a prompt within the limit comes back unchanged; a longer one ends in "..." and is at most three characters over the limit |
| ImageUtils.TruncatedIsTrimmedPrefix | src/lib/image-utils.ts:151 | what precedes "..." is the cut prefix, trimmed |
| ImageUtils.TruncateDefaultLimit | src/lib/image-utils.ts:149 | without a limit, the limit is 50 |
| ImageUtils.TruncateExample | src/lib/image-utils.ts:149-152 | "a red fox  jumps" cut at 10 gives "a red fox..." |
| ImageUtils.ImageDimensions | src/lib/image-utils.ts:62-74 | every ratio has a size, with positive width and height |
| ImageUtils.Transposed | src/types/image.ts:29 | the transposed ratio has the two parts exchanged |
| ImageUtils.RatioNameIsParts | src/types/image.ts:29 | each ratio's name is its width part and height part in decimal around a colon |
| ImageUtils.DimensionsMatchRatio | src/lib/image-utils.ts:63-71 | every size has exactly the proportions its ratio names |
| ImageUtils.DimensionsOfTransposed | src/lib/image-utils.ts:63-71 | each transposed pair has swapped width and height, and 1:1 is square |
| ImageUtils.LastDotSegment | src/lib/image-utils.ts:120 | `split(".").pop()` is a dot-free suffix of the path, preceded by a dot unless it is the whole path |
| ImageUtils.LastDotSegmentUnique | src/lib/image-utils.ts:120 | those three properties determine the segment |
| ImageUtils.ImageFileExtension | src/lib/image-utils.ts:116-130 | the result is always jpg, jpeg, png, webp or gif: the lower-cased last segment when it is listed, otherwise png, and png when the URL does not parse |
| ImageUtils.ImageFileExtensionUpperCase | src/lib/image-utils.ts:120-124 | "/cat.JPEG" gives "jpeg" |
| ImageUtils.ImageFileExtensionDoubleDot | src/lib/image-utils.ts:120-126 | "/a.png.gz" gives "png" through the fallback |
| ImageUtils.ListedRatios | src/lib/image-utils.ts:48-56 | definition: the ratios of the table, in order |
| ImageUtils.AspectRatioOptionsListEachOnce | src/lib/image-utils.ts:48-56 | the table lists every one of the seven ratios, none twice |
| ImageUtils.StyleOptionsAgreeWithBuildPrompt | src/lib/image-utils.ts:3-46 | each non-"none" option's prompt is buildPrompt's modifier for its id; "none" has an empty prompt and no modifier; every style buildPrompt knows is offered |
| BrowserStorage.LocalStorage.GetItem | src/lib/storage.ts:30 | `getItem` finds a value exactly when the key is stored, and returns that value |
| BrowserStorage.LocalStorage.SetItem | src/lib/storage.ts:22 | `setItem` reports success exactly when the new entries fit the quota; it writes the value if so and otherwise changes nothing |
| BrowserStorage.LocalStorage.RemoveItem | src/lib/storage.ts:63 | `removeItem` drops the key and nothing else |
| Storage.RecordOf | src/lib/storage.ts:13 | an image's record holds its id, url, prompt and timestamp, and an optional field exactly when the image has it |
| Storage.RecordsJson | src/lib/storage.ts:22 | definition: the list is saved as an array of the record objects, in order |
| Storage.HistoryJson | src/lib/storage.ts:22 | the saved object has the image array under `images`, and `lastGenerated` exactly when the history has one |
| Storage.Revived | src/lib/storage.ts:39-42 | a loaded record keeps the item's own properties and has `createdAt` replaced by the revived date; it applies only where the element is not null and `new Date` does not throw on its `createdAt` |
| Storage.ReviveImages | src/lib/storage.ts:39-42 | the `map` fails exactly when some element is null or has a `createdAt` on which `new Date` throws; otherwise it revives each element in place |
| Storage.HistoryOfJson | src/lib/storage.ts:38-44 | decoding succeeds exactly when `images` is an array whose elements all revive and a truthy `lastGenerated` revives too; `lastGenerated` is kept, revived, exactly when it is truthy |
| Storage.LoadHistory | src/lib/storage.ts:28-49 | loading yields the empty history when nothing is stored, the text is empty or it does not parse, and the decoded history otherwise (the empty one when decoding fails) |
| Storage.GenerationHistory | src/lib/storage.ts:28-33 | with the slot unset, the history is empty; otherwise it is what the stored text loads to |
| Storage.HistoryJsonRenderable | src/lib/storage.ts:22 | a history's JSON holds only finite doubles exactly when its records and timestamp do |
| Storage.LoadedHistoryRenderable | src/lib/storage.ts:35-44 | every loaded history holds only finite doubles, since parsing yields only those and a date that revives is a text or null |
| Storage.SpreadRenderable | src/lib/storage.ts:40 | spreading a value of finite doubles yields properties of finite doubles |
| Storage.StoredHistoryLoads | src/lib/storage.ts:22-44 | a history of valid dates and finite numbers, once written, loads back unchanged |
| Storage.SavedImages | src/lib/storage.ts:13-18 | after a save the list is the new record followed by the first old records that fit, at most 50 in all |
| Storage.SaveEvictsOldest | src/lib/storage.ts:16-18 | saving into a full history of 50 drops exactly its last entry |
| Storage.SaveGeneratedImage | src/lib/storage.ts:8-26 | the slot holds the saved history, or stays as it was when the write does not fit; no error reaches the caller |
| Storage.SaveThenLoad | src/lib/storage.ts:10-22 | for old records whose dates are valid (their `createdAt` revives to itself) and whose numbers are doubles, and an image and clock reading that are valid dates, loading after a save yields the saved history, with at most 50 images |
| Storage.SaveOfInvalidDateDoesNotRoundTrip | src/lib/storage.ts:20-22 | an old record whose date was invalid is written as null and read back as the epoch, so the saved history does not load back |
| Storage.WithoutId | src/lib/storage.ts:54 | the filtered list holds exactly the records whose id differs, and is the whole list when none matches |
| Storage.WithoutIdAppend | src/lib/storage.ts:54 | filtering distributes over concatenation, so the survivors keep their order |
| Storage.DeleteImageFromHistory | src/lib/storage.ts:51-59 | the slot holds the filtered history with `lastGenerated` kept, or stays as it was when the write does not fit |
| Storage.DeleteThenLoad | src/lib/storage.ts:53-55 | for a history whose dates are valid (Stable) and whose numbers are doubles, loading after a delete yields the history without that id's records |
| Storage.ClearGenerationHistory | src/lib/storage.ts:61-67 | the slot is gone, and loading then yields the empty history |
| Storage.ExportHistory | src/lib/storage.ts:86-89 | the export parses back to the loaded history |
| Storage.Complete | src/lib/storage.ts:100-104 | an element that passes import's check is an object with `id`, `url`, `prompt` and `createdAt` |
| Storage.Importable | src/lib/storage.ts:95-104 | an accepted payload is an object whose `images` is an array with no null element |
| Storage.ImportHistory | src/lib/storage.ts:91-112 | import succeeds and writes the payload exactly when it parses, has an `images` array whose elements all have a truthy id, url, prompt and createdAt, and fits; otherwise it returns false without writing |
| Storage.ImportThenLoad | src/lib/storage.ts:28-47 | once an import has written its payload, loading yields one revived record per element of `images`, in order, and a timestamp exactly when the payload's `lastGenerated` is truthy; when `new Date` throws on some `createdAt` or on a truthy `lastGenerated`, loading yields the empty history |
| Storage.ImportBadDateExample | src/lib/storage.ts:41-47 | a `createdAt` of `{"toString": 1}` passes import's check, yet the history loaded afterwards is empty |
| Storage.ExportImportRoundTrip | src/lib/storage.ts:86-107 | the export of a history with valid dates, finite numbers and complete records parses, passes import's checks, and loads back as the same history |
| Storage.ExportThenImport | src/lib/storage.ts:86-112 | when the loaded history's dates are valid (Stable) and every record has a truthy id, url, prompt and createdAt, importing the export succeeds when the write fits, and the history loaded afterwards equals the one before |

## Left out

- **The network call.** This covers `fetch`, `AbortController`, the five-minute timer, the endpoint and the headers of `generateImage`. `GenerateImage` takes the request's outcome as a function of the posted body. `Date.now()` is a parameter. `response.json()` is an outcome: parsed or thrown.
- **JSON parsing and rendering, and `new Date(...)`.** They are the abstract `Codec`, and `isNumber` says which reals a finite double holds.
  - The round-trip lemmas assume six laws:
    - parsing a rendering gives back the value, for a value whose numbers are doubles;
    - the same holds for the indented rendering of `exportHistory`;
    - "" does not parse;
    - whatever parses holds only doubles;
    - a date that revives is a text or null;
    - `new Date` does not throw on undefined, null, a boolean, a number or a text.
  - On which arrays and objects `new Date` throws is left to the codec: their conversion to a primitive may call a property that is not a function.
  - That a double's shortest decimal text reads back as the same double is assumed by the first law, not proved.
  - `JSON.parse` reads an overflowing literal such as `1e400` as `Infinity`, which `JSON.stringify` writes as null. `JNumber` holds only reals, and the parse law excludes such a value.
- **`new Date()` in saveGeneratedImage** is the ISO text passed in as `now`.
- generateImageId, getRandomPromptSuggestion, formatFileSize, getStorageUsage, downloadImage and validateImageUrl are left out. They depend on the clock, randomness, floating point, `Blob` or the DOM.
- The URL parser of getImageFileExtension is not modelled. `ImageFileExtension` receives the parsed pathname, with `None` standing for a URL the parser rejects.
- React components, pages and the two route handlers are presentation and routing glue with no logic of their own.
- `console.error` logging in the catch blocks is not modelled.
- **Exceptions from `getItem` and `removeItem`.** Under disabled storage they throw a security exception; the model assumes they succeed. `setItem` throws only when the quota is exceeded.
- ImageTypes.GenerationRequest: `aspectRatio` and `quality` are the declared unions, although the server route passes through any value the client sends. An unknown quality acts like an absent one, and so does an unknown ratio, except a name such as "constructor": the `ratioHints` lookup finds that member on `Object.prototype` and appends its text.
- Api.StyleModifier: a style id naming an `Object.prototype` member, such as "constructor", is treated as unknown. In JavaScript the lookup finds that member, and its text would be appended.
- JsonValues.Field: property lookup sees only an object's own fields, not the `length` of arrays and strings or inherited members. None of the names the code reads is of that kind.
- JsonValues.Index0: a string's first character is taken to be a whole code point. For a character outside the Basic Multilingual Plane, JavaScript yields a lone surrogate.
- JsonValues.Spread: a string spreads into one property per code point. JavaScript gives one per UTF-16 unit, so the two differ outside the Basic Multilingual Plane.
- ImageUtils.TruncatePrompt: counts and slices code points, not UTF-16 units. A prompt outside the Basic Multilingual Plane is cut at another place than in JavaScript. A non-integer `maxLength` is not modelled.
- ImageUtils.ImageFileExtension: `toLowerCase` is modelled as ASCII lowering. No other lower-casing can produce a listed extension, so membership in the whitelist is the same.
- Api.GenerateImage: the TypeError message for non-string content is the V8 wording; other engines word it differently.
- Storage.SaveThenLoad: the round trip holds only for old records with valid dates. A record whose `createdAt` is not a valid date loads as an invalid date, is written as null and reads back as the epoch; `SaveOfInvalidDateDoesNotRoundTrip` shows this.
- Storage.DeleteThenLoad: the round trip holds only for a stable history. Records with invalid dates fail as after a save, and an invalid `lastGenerated` is written as null and loads back as absent.
- Storage.ExportThenImport: the round trip holds only for a stable history of complete records.
  - A record whose `createdAt` is not a valid date is exported with null there, so the import check rejects the export.
  - A record without a truthy id, url or prompt is rejected the same way.
  - An invalid `lastGenerated` is exported as null, and null is falsy, so the history loaded afterwards has no `lastGenerated` at all.
