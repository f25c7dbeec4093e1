# ModaFlow storefront: try-on pipeline and catalog handlers in Dafny

This project models the two pieces of the ModaFlow storefront that hold logic
rather than layout.

1. **The try-on service** (`services/geminiService.ts`).
   - Image references are normalised into a MIME type and a base64 payload (`cleanBase64`, `getMimeType`, `prepareImage`).
   - `generateTryOnImage` checks the API key, prepares the shopper's photo and then the product's image, and sends one three-part request to the image model. It then picks the first inline image of the first candidate, or throws; a thrown message containing "400" is replaced by the bad-request message.
2. **The storefront handlers** (`App.tsx`).
   - The React state becomes the fields of one `App` object.
   - `handleRoleSelect`, `handleAddItem` (with its comma-separated tag parsing), `handleAddCategory`, `handleDeleteProduct`, `handleDeleteCategory` and `handleTryOn` become methods whose `modifies` frames name only the fields they change.

Modules, one per file:

- `wrappers.dfy` (`Wrappers`): `Option` and `Result`.
- `types.dfy` (`StoreTypes`): the record shapes of `types.ts`, and `Thrown`, a JavaScript thrown value, which is either an `Error` with its message or anything else.
- `text.dfy` (`Text`): the JavaScript string operations that are used, namely `includes`, `trim` (with the ECMAScript white-space and line-terminator set) and `split` on one character.
- `tags.dfy` (`Tags`): the tag field parser, and its equality with the literal split/trim/filter pipeline.
- `image_payload.dfy` (`ImagePayload`):
  - the anchored header pattern `^data:image/(png|jpeg|jpg|webp);base64,`;
  - `cleanBase64` and `getMimeType`;
  - `prepareImage`, with the network read as a parameter `fetch`.
- `try_on_service.dfy` (`TryOnService`):
  - `generateTryOnImage` as a method with its scan loop, proved equal to the function `TryOnRun`;
  - the model client is a parameter `generate`;
  - the calls made on the outside world are returned as a trace of `FetchImage` and `CallModel` effects, so their order can be stated.
- `storefront.dfy` (`Storefront`):
  - the class `App`, the sample data and the id filter;
  - the invariant `Valid`: every product has a name, SKU, category and image, a non-zero price and well-formed tags, and every category has a name and an image;
  - the sample data satisfies `Valid`, and every handler preserves it.

Behaviour of the code that the model keeps, though it is easy to miss:

- The header pattern accepts `jpg` as well as `png`, `jpeg` and `webp`, and `jpg` gives the MIME type `image/jpg`.
- Every failure of the remote branch (bad status, read error, network error) becomes one fixed message; the cause is not reported.
- The two images are prepared one after the other, the shopper's first. The product's image is not fetched when the shopper's fails.
- A first candidate without `content` or `content.parts` makes the scan throw a `TypeError`. That error passes the "400" check and its message reaches the shopper.
- The header is recognised only at the very start of the string.
  - A string that has the `base64,` marker elsewhere keeps its whole text as payload, labelled JPEG.
- The "400" remapping applies to every `Error` caught in `generateTryOnImage`, including the preparation and no-image errors. It changes neither of those, because their messages do not contain "400".

## Model

| member | source | states |
|---|---|---|
| ImagePayload.MatchHeader | services/geminiService.ts:6 | the captured subtype is one of png/jpeg/jpg/webp and its header starts the string; no capture means that no header starts it |
| ImagePayload.FirstMatch | services/geminiService.ts:10 | a match is one of the alternatives and its header starts the string; no match means that no alternative's header does |
| ImagePayload.FirstMatchEarliest | services/geminiService.ts:6 | the alternatives are tried in order: the match is the earliest alternative whose header starts the string |
| ImagePayload.HeadersExclusive | services/geminiService.ts:6 | no string starts with two different recognised headers, so the order of the alternatives cannot matter |
| ImagePayload.MatchHeaderOf | services/geminiService.ts:10 | a recognised header followed by any payload is matched and its subtype captured |
| ImagePayload.CleanBase64 | services/geminiService.ts:5-7 | with a recognised header the input is that header followed by the result; without one the result is the input unchanged |
| ImagePayload.CleanBase64OfHeader | services/geminiService.ts:5-7 | exactly one header is removed and every character after it is kept, even a second header |
| ImagePayload.GetMimeType | services/geminiService.ts:9-12 | the result is always one of the four image MIME types, and `image/jpeg` when no header is recognised |
| ImagePayload.GetMimeTypeOfHeader | services/geminiService.ts:9-12 | the MIME type is `image/` followed by the captured subtype verbatim (`jpg` gives `image/jpg`) |
| ImagePayload.MimeTypeOfSubtype | services/geminiService.ts:11 | each captured subtype names one of the four MIME types |
| ImagePayload.Normalize | services/geminiService.ts:37-45 | the MIME type is one of the four; the payload is a suffix of the input; without the `base64,` marker the input is returned whole as JPEG |
| ImagePayload.PrepareImage | services/geminiService.ts:15-46 | a failure happens only for an `http` address and always carries the single remote-image message |
| ImagePayload.PrepareImageRoundTrip | services/geminiService.ts:37-45 | a data URL with a recognised header and any payload splits into `image/<subtype>` and exactly that payload |
| ImagePayload.PrepareImageRaw | services/geminiService.ts:38-41 | a local string without `base64,` anywhere is returned unchanged, labelled `image/jpeg` |
| ImagePayload.PrepareImageUnrecognised | services/geminiService.ts:43-45 | a local string with no recognised header at its start is labelled `image/jpeg` and keeps its header in the payload |
| ImagePayload.PrepareImageGif | services/geminiService.ts:43-45 | a GIF data URL passes through whole, labelled `image/jpeg` |
| ImagePayload.PrepareImageRemote | services/geminiService.ts:19-35 | a failed fetch gives exactly the remote-image error; a successful one normalises the data URL it was read into, without fetching again |
| TryOnService.InstructionSlot | services/geminiService.ts:68 | the slot is never empty and is the shopper's text whenever that is non-empty |
| TryOnService.PromptSlot | services/geminiService.ts:68 | the prompt carries the instructions verbatim, or "Ensure a natural fit." when they are empty |
| TryOnService.KeyConfigured | services/geminiService.ts:49 | the key is present and non-empty; no contract of its own, its effect is stated by `MissingKeyFirst` |
| TryOnService.Prompt | services/geminiService.ts:56-71 | the prompt around the instruction slot; no contract of its own, stated by `PromptSlot` and `PromptCarriesSlot` |
| TryOnService.PromptCarriesSlot | services/geminiService.ts:56-71 | the slot can be read back from the prompt at a fixed offset: the surrounding text adds nothing else |
| TryOnService.BuildRequest | services/geminiService.ts:78-99 | the request names the image model and has exactly three parts: the prompt text, then the user's image, then the product's image |
| TryOnService.HasImage | services/geminiService.ts:105 | a part counts as an image when its inline data is present with non-empty data; no contract of its own, used by `FirstImageIndex` and `ResponseImage` |
| TryOnService.FirstImageIndex | services/geminiService.ts:104-108 | the index is that of the first part with non-empty inline data; every part before it has none |
| TryOnService.ResponseImage | services/geminiService.ts:102-109 | an image is found iff the first candidate has parts and one of them has non-empty inline data; the found data is that of the first such part |
| TryOnService.PartsMissing | services/geminiService.ts:103-104 | there is a first candidate and its parts are missing; no contract of its own, its effect is stated by `PartsMissingThrows` |
| TryOnService.FindImage | services/geminiService.ts:102-109 | the loop over the first candidate's parts returns the data that `ResponseImage` specifies |
| TryOnService.RemapError | services/geminiService.ts:114-121 | the result is either the thrown value itself or the bad-request error, and it is an `Error` exactly when the thrown value is; it differs from the thrown value exactly when that is an `Error` whose message contains "400" and is not already the bad-request message |
| TryOnService.Settle | services/geminiService.ts:101-121 | success iff the model answered and an image was found, and then the result is the PNG prefix followed by that image's data, whatever MIME type the part declared; a thrown value is remapped |
| TryOnService.TryOnRun | services/geminiService.ts:48-122 | without a key no call is made; at most three calls are made, all of them fetches except possibly the last; a success always ends with the model call |
| TryOnService.GenerateTryOnImage | services/geminiService.ts:48-122 | the result and the calls made equal those of `TryOnRun` for the same key, request, fetcher and model |
| TryOnService.MissingKeyFirst | services/geminiService.ts:49-51 | without a usable key the call fails with the configuration error, before any fetch or model call |
| TryOnService.RequestSent | services/geminiService.ts:73-99 | when both images are prepared, the user's image is fetched before the product's and then the model is called once with [prompt, user image, product image]; the result is what that call settles to |
| TryOnService.PreparationFailure | services/geminiService.ts:73-76 | when an image cannot be prepared, the result is the remote-image error and the model is never called; a failure on the user's image means the product's is not fetched; when only the product's image fails, the calls are the user's fetch, if any, followed by the product's fetch |
| TryOnService.FirstCandidateOnly | services/geminiService.ts:102-104 | candidates after the first never affect the found image |
| TryOnService.SettleNoImage | services/geminiService.ts:102-112 | no candidate, or a first candidate with parts none of which has data, gives exactly the no-image error |
| TryOnService.PartsMissingThrows | services/geminiService.ts:104 | a first candidate without content or parts gives the `TypeError` of reading them, rethrown unchanged by the "400" check |
| TryOnService.SecondCandidateIgnored | services/geminiService.ts:102-112 | an image in the second candidate alone still gives the no-image error |
| TryOnService.SettleExample | services/geminiService.ts:104-107 | a text part followed by an image part with data "Zm9v" gives `data:image/png;base64,Zm9v` |
| TryOnService.RemapErrorIdempotent | services/geminiService.ts:117-119 | remapping twice equals remapping once, since the bad-request message itself contains "400" |
| TryOnService.RemoteImageMessageKept | services/geminiService.ts:33 | the remote-image error passes the "400" check unchanged |
| TryOnService.NoImageMessageKept | services/geminiService.ts:112 | the no-image error passes the "400" check unchanged |
| Text.Includes | services/geminiService.ts:38 | `String.prototype.includes`: the pattern occurs at some index; no contract of its own, used by `Normalize`, `RemapError` and `NoFirstCharNoMatch` |
| Text.NoFirstCharNoMatch | services/geminiService.ts:117 | a string lacking a pattern's first character does not include the pattern |
| Text.LeadingSpace | App.tsx:126 | the leading run is all white space and is followed by a non-space or the end |
| Text.RunFrom | App.tsx:126 | the run starting at an index is all white space and ends at a non-space or the end |
| Text.RunBefore | App.tsx:126 | the run ending at an index is all white space and starts after a non-space or at the lower bound |
| Text.Trim | App.tsx:126 | the result has no white space at either end; it is the slice of the input between a leading and a trailing white-space run; it is empty iff the input is all white space |
| Text.TrimTrimmed | App.tsx:126 | trimming a string already trimmed changes nothing |
| Text.Split | App.tsx:125 | there is at least one piece; no piece contains the separator; joining the pieces with the separator gives back the input |
| Text.SplitJoin | App.tsx:125 | splitting a join of separator-free pieces gives back exactly those pieces |
| Text.SplitPiece | App.tsx:125 | a separator-free string splits into itself alone |
| Text.SplitPrefixed | App.tsx:125 | a separator-free piece followed by the separator splits off as the first piece |
| Text.JoinAppend | App.tsx:125 | joining two piece lists is joining each and gluing them with one separator |
| Tags.TagOf | App.tsx:126-127 | a comma-free piece yields either nothing or exactly its trimmed text; that tag is non-empty, trimmed and comma-free, and there is none iff the piece is all white space |
| Tags.KeepTrimmed | App.tsx:126-127 | every kept tag is non-empty, trimmed and comma-free, and there are no more tags than pieces |
| Tags.CommaIndex | App.tsx:125 | the index is that of the first comma, or the length when there is none |
| Tags.ParseTags | App.tsx:124-127 | every parsed tag is non-empty, trimmed and comma-free |
| Tags.SplitTrimFilter | App.tsx:124-127 | every tag of the split/trim/filter pipeline is non-empty, trimmed and comma-free |
| Tags.ParseTagsPipeline | App.tsx:124-127 | reading the field comma by comma gives exactly `split(',').map(trim).filter(non-empty)` |
| Tags.KeepTrimmedAppend | App.tsx:126-127 | trimming and filtering work piece by piece, so they keep order across concatenation |
| Tags.ParseTagsConcat | App.tsx:124-127 | the tags of `a,b` are the tags of `a` followed by the tags of `b` |
| Tags.ParseTagsSingle | App.tsx:124-127 | a field without a comma yields its trimmed text as the only tag, or nothing when that is empty |
| Tags.ParseTagsBlank | App.tsx:124-127 | a blank field yields no tags |
| Tags.ParseTagsRoundTrip | App.tsx:124-127 | joining well-formed tags with commas and parsing the result gives the same tags back |
| Tags.KeepTrimmedFixed | App.tsx:126-127 | well-formed tags pass through trimming and filtering unchanged |
| Storefront.NewProduct | App.tsx:129-138 | the product built from a complete form is valid; it has the given id, the form's SKU, name, price and category, the parsed tags and the form's image; a present description is kept and a missing one becomes the empty string |
| Storefront.ErrorText | App.tsx:192 | a thrown `Error` shows its own message; any other thrown value shows the generic try-on message |
| Storefront.ItemFormComplete | App.tsx:121 | name, SKU, a non-zero price, an image and a category are all present; no contract of its own, its effect is stated by `App.AddItem` |
| Storefront.WithoutId | App.tsx:166-172 | the kept entries are exactly the entries whose id differs |
| Storefront.WithoutIdMultiplicity | App.tsx:167 | each kept entry keeps all its occurrences and each dropped entry keeps none |
| Storefront.WithoutIdAppend | App.tsx:167 | filtering works entry by entry, so the kept entries stay in their original order |
| Storefront.WithoutAbsentId | App.tsx:167 | deleting an id that no entry has is a no-op |
| Storefront.WithoutIdIdempotent | App.tsx:167 | deleting the same id twice is deleting it once |
| Storefront.AddThenDeleteProduct | App.tsx:140 | deleting a product just put in front of a catalog that lacked its id gives the catalog back |
| Storefront.AddThenDeleteCategory | App.tsx:159 | deleting a category just appended to a list that lacked its id gives the list back |
| Storefront.JacketTagsValid | App.tsx:51 | the sample jacket's tags are well formed |
| Storefront.DressTagsValid | App.tsx:61 | the sample dress's tags are well formed |
| Storefront.HoodieTagsValid | App.tsx:71 | the sample hoodie's tags are well formed |
| Storefront.InitialDataValid | App.tsx:26-75 | every sample product and category satisfies the store invariant |
| Storefront.App.constructor | App.tsx:79-108 | the initial state holds the sample catalog and categories, empty forms and no selection, and it satisfies the invariant |
| Storefront.App.RoleSelect | App.tsx:112-117 | sets the role and clears the selected product, the generated image and the error; the catalog and categories are unchanged |
| Storefront.App.AddItem | App.tsx:120-147 | an incomplete form changes nothing; a complete one puts the new product in front of the unchanged catalog and resets the form; the invariant is kept |
| Storefront.App.AddCategory | App.tsx:150-163 | without both a name and an image nothing changes; otherwise the new category `cat-<stamp>` is appended after the unchanged list and the form is reset |
| Storefront.App.DeleteProduct | App.tsx:166-168 | the catalog keeps exactly the products whose id differs, and nothing else changes |
| Storefront.App.DeleteCategory | App.tsx:170-172 | the categories keep exactly those whose id differs, and the catalog is untouched |
| Storefront.App.ReadyToTryOn | App.tsx:176 | a photo is uploaded and a product is selected; no contract of its own, its effect is stated by `App.TryOn` |
| Storefront.App.TryOn | App.tsx:175-196 | without a photo or a product it sets the missing-input error and calls nothing; otherwise it ends not generating, with the result image or the thrown message, and the calls are those of the try-on run; the photo and the selected product never change |

## Left out

- The network side of the remote branch of `prepareImage` (`fetch`, `blob`, `FileReader`): it is the parameter `fetch`, which yields a data URL or a failure. `console.error` is left out.
- The `GoogleGenAI` client and `generateContent`: the call is the parameter `generate`, from a request to a response or a thrown value. Response text parts are parts without inline data. A missing candidate list is the empty one, as the guard at services/geminiService.ts:103 treats it.
- The engine's `TypeError` text for missing candidate content is represented by one constant. A missing `content` and a missing `content.parts` are one case, with one message; engines word these errors differently. Only the fact that the text lacks "400" matters to the result.
- The prompt wording outside the instruction slot is abbreviated into two constants.
- Reading `process.env.API_KEY` is the parameter `apiKey`.
- `Date.now()` ids are the parameters `id` and `stamp`.
- Prices are reals. `parseFloat`, `toFixed` and floating-point rounding are not modelled; only "a number other than zero" is checked, and a failed parse is the value `NotANumber`.
- `async`/`await` is modelled as one sequential step. The interval during which `isGenerating` is true is not observable in the model.
- JSX rendering, `alert`, `window.open`, the WhatsApp link, the download link, the `merchantTab` switch and the input setters bound to form fields are not modelled.
- components/ImageInput.tsx is not part of this model. It is a file picker with no logic of its own.
- Strings are sequences of Unicode scalar values, not UTF-16 code units. `trim` removes the same set of code points either way.
