# Breed identification page and service, modelled in Dafny

This project models the client-side logic of a cattle and buffalo breed
identification web page. The user uploads a photo. The page checks it, asks a
vendor vision API (OpenAI GPT-4o) for a structured breed prediction, shows the
result and keeps the ten most recent predictions in `localStorage`.

Two source files make up the core:

- `src/pages/breed-identification-demo/index.jsx` is modelled in
  `page.dfy` (module `BreedIdentificationDemo`). The React state variables
  `selectedImage`, `isProcessing`, `result`, `error` and `recentPredictions`
  are the fields of the class `DemoPage`. The handlers are its methods. The
  `localStorage` entry is a `LocalStorage` object, and the browser's
  object-URL registry is an `ObjectUrls` object (`browser.dfy`). The page's
  pure parts are functions: the pre-flight checks, the history update and the
  load of the stored list.
- `src/services/breedIdentificationService.js` is modelled in `service.dfy`
  (module `BreedIdentificationService`). The error mapping, result
  augmentation, image resolution and prompt fallback are functions.
  `identifyBreedWithOpenAI` and `analyzeImageWithGPT4o` are methods over the
  object-URL registry.

Support modules: `wrappers.dfy` (`Option`, `Result`), `text.dfy`
(`startsWith`, `includes`, and the decimal rendering of `Date.now()` with its
round trip) and `json.dfy` (parsed JSON values; a record is a map from
property names to values).

Inputs the code cannot see are parameters:

- the vendor call's outcome (the parsed object, or the thrown error's
  `status` and `message`);
- the two `Date.now()` readings;
- whether `localStorage.setItem` succeeded.

Object URLs are the strings `"blob:" + serial`. The registry keeps a ghost set
of live URLs and a ghost log of every create and revoke call. Freshness
follows from the injectivity of the decimal rendering.

Where the code and its design description disagree, the model follows the
code:

- `identifyBreedWithOpenAI` revokes its temporary URL only on success. On the
  error path the URL stays live (`IdentifyBreedWithOpenAI` states this).
- The mount effect installs the stored list as it is, without a bound. The
  ten-entry bound holds after every save (`WithPrediction`,
  `SaveAllKeepsNewest`), not after a load.
- The "network" test is a case-sensitive substring match. A vendor message
  "Network Error" passes through unchanged (`NetworkTestIsCaseSensitive`).
- `identifyBreedWithOpenAI` sends the vendor a `blob:` URL, which only
  exists inside the browser. The vendor's reaction to it is not modelled.

## Model

| member | source | states |
|---|---|---|
| `BreedIdentificationDemo.UploadRejection` | src/pages/breed-identification-demo/index.jsx:115-140 | Size over 10·1024·1024 bytes is rejected first (exactly 10 MiB passes). A type not starting with `image/` is rejected only if the size passed. A missing, empty or placeholder key gives the configuration error only if both earlier checks passed. Otherwise the file is accepted. Each is an if-and-only-if. |
| `BreedIdentificationDemo.ProcessingError` | src/pages/breed-identification-demo/index.jsx:156-159 | The error is of type processing and never has an empty message. It is the thrown message whenever that message is truthy, and "Failed to process image. Please try again." when the message is missing or empty. |
| `BreedIdentificationDemo.WithPrediction` | src/pages/breed-identification-demo/index.jsx:107 | The new list has length min(old+1, 10). Its head is the new prediction. Entry i ≥ 1 is old entry i−1, so the tail is the first min(old, 9) old entries in order. |
| `BreedIdentificationDemo.WithPredictionIsNewest` | src/pages/breed-identification-demo/index.jsx:107 | The slice-and-prepend equals the newest ten entries of the prediction followed by the whole old list. |
| `BreedIdentificationDemo.NewestAbsorbs` | src/pages/breed-identification-demo/index.jsx:107 | Cutting the old list to ten before prepending does not change the newest ten. |
| `BreedIdentificationDemo.SaveAllKeepsNewest` | src/pages/breed-identification-demo/index.jsx:106-110 | After any non-empty series of saves, the history is the newest ten of (the saved predictions, latest first, then the earlier history). So it is most-recent-first, holds at most ten and evicts the oldest. |
| `BreedIdentificationDemo.LoadedHistory` | src/pages/breed-identification-demo/index.jsx:94-103 | A stored list that parses is installed as is. A missing entry or malformed text leaves the empty initial list, with no error. |
| `BreedIdentificationDemo.DemoPage.constructor` | src/pages/breed-identification-demo/index.jsx:87-103 | On mount, every state field is empty or false and the history is the loaded list. |
| `BreedIdentificationDemo.DemoPage.SaveToHistory` | src/pages/breed-identification-demo/index.jsx:106-110 | The in-memory history becomes the prepended list. If the write succeeds, the stored entry equals that history and reloading yields it. If the write throws, the stored entry is unchanged and the error is returned. No other field changes. |
| `BreedIdentificationDemo.DemoPage.BeginUpload` | src/pages/breed-identification-demo/index.jsx:112-145 | A null file changes nothing. A rejected file sets only `error`. An accepted file becomes `selectedImage`, clears `error` and `result`, and sets `isProcessing`. The selected image always satisfies the checks (`Valid`). |
| `BreedIdentificationDemo.DemoPage.FinishUpload` | src/pages/breed-identification-demo/index.jsx:147-162 | `isProcessing` ends false on both paths. On success, `result` is the augmented prediction. The history head is that prediction with a fresh object URL as `imageUrl`, and the store follows unless the write throws, which sets a processing error. On failure, `error` is a processing error with the service's message, and `result`, the history and the store are unchanged. |
| `BreedIdentificationDemo.DemoPage.HandleImageUpload` | src/pages/breed-identification-demo/index.jsx:112-163 | The whole handler (`UploadDone`). On success the URL log gains the service's create/revoke pair and then the history URL's creation; on a vendor failure only the service's creation. On a rejection, `selectedImage`, `result`, `isProcessing`, the history, the store and the URL registry are unchanged, so the service was never called. |
| `BreedIdentificationDemo.DemoPage.Retry` | src/pages/breed-identification-demo/index.jsx:165-172 | With a selected image, the identical upload path runs on that same file and reaches the vendor call. Without one, only `error` and `result` are cleared. |
| `BreedIdentificationDemo.DemoPage.ClearError` | src/pages/breed-identification-demo/index.jsx:174-176 | Only `error` changes, to none. |
| `BreedIdentificationDemo.DemoPage.SelectPrediction` | src/pages/breed-identification-demo/index.jsx:178-182 | Shows the given record, deselects the image and clears the error. The history and the store are untouched. |
| `BreedIdentificationDemo.DemoPage.ClearHistory` | src/pages/breed-identification-demo/index.jsx:184-187 | The history is empty and the stored entry is removed, so the next mount loads an empty list. |
| `BreedIdentificationDemo.DemoPage.NewIdentification` | src/pages/breed-identification-demo/index.jsx:189-194 | Clears `selectedImage`, `result` and `error`, and `isProcessing` is false. The history and the store are untouched. |
| `BreedIdentificationService.VendorErrorMessage` | src/services/breedIdentificationService.js:106-116 | A priority chain: status 401, then 429, then 400, then a message containing "network", then the error's own message or the fixed default. The result is never empty. |
| `BreedIdentificationService.StatusOutranksMessage` | src/services/breedIdentificationService.js:106-112 | For status 401, 429 or 400, the message text does not matter. A 401 whose message mentions "network" still gets the invalid-key message. |
| `BreedIdentificationService.NetworkTestIsCaseSensitive` | src/services/breedIdentificationService.js:112-115 | "Network Error" (capital N) does not match and passes through as the fallback message. |
| `BreedIdentificationService.LowerCaseNetworkIsReplaced` | src/services/breedIdentificationService.js:112-113 | A message containing lower-case "network" becomes the network message. |
| `BreedIdentificationService.WithIdentity` | src/services/breedIdentificationService.js:97-101 | The result has every parsed field plus `timestamp` and `id`. Those two override same-named fields, and every other field keeps its value. |
| `BreedIdentificationService.IdEncodesClock` | src/services/breedIdentificationService.js:100 | `id` is the decimal rendering of its `Date.now()` reading and reads back to it. |
| `BreedIdentificationService.IdentifyBreedWithOpenAI` | src/services/breedIdentificationService.js:8-117 | A fresh URL is created first. On success it is revoked and the augmented record is returned. On failure the mapped message is returned and the URL stays live (the log ends with only its creation). |
| `BreedIdentificationService.ResolveImage` | src/services/breedIdentificationService.js:129-137 | A string resolves to itself. Otherwise an object with a truthy `url` resolves to that url. Otherwise a File needs a new object URL. Anything else is invalid. |
| `BreedIdentificationService.PromptLookupAsWritten` | src/services/breedIdentificationService.js:139-151 | As written, the lookup returns an inherited member exactly for the names `Object.prototype` provides. |
| `BreedIdentificationService.InheritedNameMissesFallback` | src/services/breedIdentificationService.js:151 | For the type "toString", the lookup as written yields no prompt at all. |
| `BreedIdentificationService.SystemPrompt` | src/services/breedIdentificationService.js:139-151 | The result is always one of the three prompts. It is the health or condition prompt exactly for those two types, and the breed prompt for every other type. |
| `BreedIdentificationService.SystemPromptAgreesWithSource` | src/services/breedIdentificationService.js:151 | Outside the inherited member names, the corrected lookup agrees with the code. |
| `BreedIdentificationService.ReturnedImageUrl` | src/services/breedIdentificationService.js:169-173 | The returned `imageUrl` is the input exactly when the input was a string, and null otherwise (including `{url}` objects). |
| `BreedIdentificationService.AnalyzeImageWithGPT4o` | src/services/breedIdentificationService.js:126-181 | An invalid image fails with "No valid image provided" before any call, and nothing changes. The reply's content, the effective type and the returned URL are passed back, or the error is rethrown. Non-File inputs never create or revoke a URL. A File without a url has its temporary URL created and revoked on both paths. A File carrying a url revokes that url. |
| `Text.Contains` | src/services/breedIdentificationService.js:112 | `includes` holds exactly when the needle occurs at some position (case-sensitive). |
| `Text.DecimalString` | src/services/breedIdentificationService.js:100 | `toString` of a clock reading gives decimal digits without a leading zero. |
| `Text.DecimalRoundTrip` | src/services/breedIdentificationService.js:100 | Reading the digits back gives the number. |
| `Browser.ObjectUrls.Create` | src/services/breedIdentificationService.js:11 | The new URL was not live before. It is live now and is logged as created. |
| `Browser.ObjectUrls.Revoke` | src/services/breedIdentificationService.js:95 | The URL is no longer live and the revoke is logged. Revoking a URL that is not live changes nothing else. |

## Left out

- `mockPredictAPI` (random breed, random failure, a timer). The page does not call it.
- JSX rendering, `Helmet`, icons, layout and the translation hook: presentation only.
- `src/pages/home-landing/components/AboutSection.jsx`: static marketing copy.
- The vendor call `chat.completions.create`, the prompt text of `identifyBreedWithOpenAI` and its JSON schema. The call is a foreign network call, so its outcome is a parameter. The schema is not enforced locally, so no local schema check is modelled.
- `JSON.parse` and `JSON.stringify`. The stored entry is either a list of records or text that fails to parse. A stored value that parses to something other than a list is not modelled. On the next save such a value behaves as follows: a string is sliced and its characters are spread into the history without an error; for `null` the optional call skips `slice` and spreading `undefined` throws; any other object, number or boolean makes the `slice` call throw.
- A parsed record is a map, so the order of its properties is not modelled. Non-string `url` properties and non-object replies are not modelled either.
- `console.error` logging, and the internals of `Date.now()` and `URL.createObjectURL`. The clock readings are parameters, and URLs are abstract fresh strings.
- Concurrency: re-entrant uploads racing on the captured `recentPredictions`. Each handler runs to completion before the next one starts.
- The design's `select(id)` lookup: the source's `handleSelectPrediction` receives the record itself, so no lookup by id is modelled.
- `AnalyzeImageWithGPT4o` and `AnalysisRequest`: the request uses the corrected prompt lookup `SystemPrompt` (see Findings). For the inherited member names, the code sends an `Object.prototype` member instead.
- `EffectiveAnalysisType`: only a missing `analysisType` becomes `'breed'`, as with a JavaScript default parameter. A `null` or other non-string argument is not defaulted by the code and is sent as text such as `"null"`. The model takes the argument as an optional string and does not express that case.

## Findings

| source | as written | input that shows it | evidently intended | confidence | as-written member | corrected member |
|---|---|---|---|---|---|---|
| src/services/breedIdentificationService.js:151 | The lookup `systemPrompts?.[analysisType]`, with its fallback to the breed prompt, also finds members inherited from `Object.prototype`, which are truthy and skip the fallback | `analysisType = "toString"` sends the function `Object.prototype.toString` as the system message | every type other than `health` and `condition` gets the breed prompt | not executed; high | `BreedIdentificationService.PromptLookupAsWritten` | `BreedIdentificationService.SystemPrompt` |
