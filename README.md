# Sales-content generator: a Dafny model

A browser app for Myanmar sellers: the user gives a product link or photo, a price and a phone
number; a generative-AI backend writes a Facebook sales post (caption, hashtags, strategy advice,
posting time, video script) and draws a product image, which the user can copy, regenerate or
edit.

This project models the decision-making parts of that app and proves what they promise:

- **Error translator** (`handleAIError`): the caught error's message is classified by the
  substrings "429", "403" and "safety", in that order, and otherwise shown behind `Error: `
  (with a fixed Burmese fallback when there is no message).
- **Content request builder** (`generateMarketingContent`): the product identifier (link before
  image, an empty link counting as none), the price and phone defaults, the prompt text, the
  parts list (text first, then the image only if one was given), and the reply schema.
- **Reply interpretation**: an empty reply text is a failure, never a plan; image calls yield
  `data:image/png;base64,` followed by the first inline image part, and fail otherwise; every
  failure is the translated message.
- **Edit input stripping** (`editProductImage`): `split(',')[1]` when the input has a comma.
- **Response normaliser** (`ContentDisplay`): each text field keeps a non-empty raw value or gets
  its placeholder, `hashtags` is kept only if it is an array, the full post is the caption, a blank
  line and the space-joined hashtags, and the three copy buttons copy the full post, the caption
  and the script.
- **Product form** (`ProductForm`, a class): the link input and the image picker exclude each other
  (an image is never selected while a link is set), and submit is guarded by the loading flag and
  by "link or image".
- **Image panel** (`ImageGenerator`, a class): guarded generate and edit handlers whose outcome
  overwrites some fields and preserves others, the reset on a new initial image, and three
  mutually exclusive panel bodies.
- **Data types** (`types.ts`): `MarketingPlan`, `HistoryItem`, `WorkStatus`, `LoadingState`.

Files: `wrappers.dfy` (Option, Result, JavaScript truthiness and `||` on strings), `strings.dfy`
(`includes`, `startsWith`, `split` on one character, `join`, and their laws), `types.dfy`,
`gemini_service.dfy`, `content_display.dfy`, `product_form.dfy`, `image_generator.dfy`.

Modelling choices:

- The backend is a parameter: a function from the request sent (model name, parts, schema) to the
  outcome of the call (thrown with an optional message, or returned). `JSON.parse` is part of that
  outcome: the model starts from the decoded record (`RawPlan`), with `None` for a decoded value that
  is not an object. Thrown errors are reduced to their optional `message` string.
- A raw text field that is present is assumed to be a string; a non-string truthy value, which
  JavaScript's `||` would also keep, is outside the model. `Array.isArray` does not look at the
  elements, so array elements are assumed to be strings as well.
- JavaScript truthiness of a string is "present and non-empty" (`Wrappers.Truthy`).
- Each asynchronous handler of the image panel runs to completion: it is a start step (the code
  before `await`) followed by a settle step (the code after it), and the handler runs both with
  the outcome the backend gives for the request it builds. The parent's callback
  `onImageGenerated` is modelled as the url the handler reports.
- The file picker's handler and the `FileReader` callback are one atomic step, `ImageLoaded`, given
  the data URL the reader produced. A reader's data URL always holds a comma, which that step
  requires when the file is accepted.
- `split(',')[1]` is modelled exactly: it is the text between the first comma and the next one (or
  the end), not everything after the first comma. For a data URL, whose media type and base64
  payload hold no comma, that is the payload (`GeminiService.DataUrlPayload`).
- `HistoryItem.timestamp` is a JavaScript number; it is modelled as an integer.
- One long Burmese phrase (`SafetyMessage`) is written as two concatenated literals; the text is unchanged.

## Model

| member | source | states |
|---|---|---|
| `Wrappers.OrElse` | ContentDisplay.tsx:8 | `s \|\| d` on an optional string: the value itself when present and non-empty, otherwise the default |
| `Strings.Contains` | geminiService.ts:9-11 | `includes`: a left-to-right scan for the pattern; what it decides is stated by `Strings.ContainsIffOccurs` |
| `Strings.StartsWith` | ProductForm.tsx:25 | `startsWith`: the string's first characters are the prefix (used by `ProductForm.AcceptsFile` and the prompt lemmas) |
| `Strings.Join` | ContentDisplay.tsx:15 | `join`: the parts with the separator between consecutive ones; its inverse is stated by `Strings.JoinSplit` and `Strings.SplitJoin` |
| `Strings.ContainsIffOccurs` | geminiService.ts:9-11 | `includes` holds exactly when the pattern occurs at some offset |
| `Strings.Split` | geminiService.ts:116 | `split` on one character always yields at least one field |
| `Strings.SplitFieldsAreSeparatorFree` | geminiService.ts:116 | no field of a split contains the separator |
| `Strings.SplitCount` | geminiService.ts:116 | a split has one more field than the string has separators |
| `Strings.JoinSplit` | geminiService.ts:116 | joining a split with its separator gives the string back |
| `Strings.SplitJoin` | ContentDisplay.tsx:15 | splitting a join of non-empty-list, separator-free fields gives the fields back |
| `Types.ParseWorkStatus` | types.ts:13 | a parsed status carries exactly the literal it was parsed from |
| `Types.WorkStatusLiteralRoundTrip` | types.ts:13 | the four statuses are named by their literals and by nothing else |
| `Types.ParseLoadingState` | types.ts:26-33 | a parsed loading state carries exactly the value it was parsed from |
| `Types.LoadingStateValueRoundTrip` | types.ts:26-33 | the six members have distinct values and each value names only its member |
| `GeminiService.HandleAIError` | geminiService.ts:6-13 | "429" gives the rate-limit phrase before "403" gives the access-denied phrase before "safety" gives the refusal phrase; otherwise `Error: ` and the message, or the fallback text when the message is missing or empty; never empty |
| `GeminiService.Render` | geminiService.ts:9-12 | the fixed wording of each kind, `Error: ` and the detail for an unrecognised one; `GeminiService.RenderInjective` shows distinct kinds are worded apart |
| `GeminiService.Classify` | geminiService.ts:8-12 | the unrecognised kind always carries a non-empty detail |
| `GeminiService.HandleAIErrorIsRenderedKind` | geminiService.ts:6-13 | the translator is the classification into four kinds followed by a fixed wording per kind |
| `GeminiService.RenderInjective` | geminiService.ts:9-12 | two kinds are never worded alike |
| `GeminiService.TranslationDeterminesKind` | geminiService.ts:6-13 | two messages translated alike were classified alike |
| `GeminiService.UnrecognisedMessageIsKept` | geminiService.ts:12 | an unrecognised message is shown behind `Error: ` and can be read back from the text shown |
| `GeminiService.OwnMessageIsShownVerbatim` | geminiService.ts:12 | a non-empty message with no '4' and no 's' cannot hold any marker, so it is shown as `Error: ` followed by the message |
| `GeminiService.ProductIdentifier` | geminiService.ts:23 | `this link: "<link>"` for a non-empty link, `this image` for a missing or empty one |
| `GeminiService.MarketingPrompt` | geminiService.ts:24-33 | the prompt template, with the identifier, price line and phone line in place; its content is stated by the three lemmas below |
| `GeminiService.PromptStatesEachLine` | geminiService.ts:24-33 | the prompt contains the analyze phrase with the identifier, the price line and the phone line, and `Price: Contact for Price` / `Phone: Check bio to order` when those are missing or empty |
| `GeminiService.PromptOpensWithIdentifier` | geminiService.ts:23-24 | every prompt opens with a line break, the indent, `Analyze `, the product identifier and the clause that follows it |
| `GeminiService.PromptIdentifierPrecedence` | geminiService.ts:23-25 | the prompt opens with the link phrasing exactly when the link is non-empty and with the image phrasing exactly when it is not, whether or not an image is given |
| `GeminiService.RequestParts` | geminiService.ts:39-42 | the prompt text is the first part; there is a second, inline part exactly when an image is given, and it carries that image's data and type unchanged |
| `GeminiService.ContentRequestFor` | geminiService.ts:36-58 | the request for the text model: its parts (stated by `GeminiService.RequestParts`), the JSON reply type and the schema (stated by `GeminiService.ResponseSchemaShape`) |
| `GeminiService.ResponseSchemaShape` | geminiService.ts:46-56 | the schema has six distinctly named properties; only `hashtags` is an array, of strings |
| `GeminiService.GenerateMarketingContent` | geminiService.ts:60-66 | a plan comes back only from a reply with non-empty text that decoded; an empty or missing text fails with the translation of the fixed no-text message; thrown and parse errors fail with their translation; a failure is never empty |
| `GeminiService.FirstInlineData` | geminiService.ts:84 | `find` yields nothing exactly when no part has inline data, and otherwise the inline data of the first part that has some |
| `GeminiService.NoTextFailureText` | geminiService.ts:60-64 | a reply without text is shown to the user as `Error: ` followed by the fixed no-text message |
| `GeminiService.DataUrl` | geminiService.ts:85 | `data:<type>;base64,<data>`; its payload is read back by `GeminiService.DataUrlPayload` |
| `GeminiService.PngDataUrl` | geminiService.ts:85 | a PNG data URI is `data:image/png;base64,` followed by the payload, and so starts with that prefix |
| `GeminiService.ImageCallResult` | geminiService.ts:84-89 | success exactly when the reply has parts and one has inline data; the result is `data:image/png;base64,` and the first such part's data; a thrown error fails with its translation, a reply without an image with `Error: ` and the operation's own message; a failure is never empty; together, the promise `ImageOutcome` that every image operation makes |
| `GeminiService.NoImageFailureText` | geminiService.ts:86 | the no-image failure of each operation is shown as `Error: ` and its fixed text |
| `GeminiService.VisualPrompt` | geminiService.ts:76-80 | the visual instruction quotes the product name in single quotes |
| `GeminiService.LogoPrompt` | geminiService.ts:98-102 | the logo instruction quotes the brand name and names the style as ` <style> logo` |
| `GeminiService.EditInstruction` | geminiService.ts:123-125 | the edit instruction quotes the edit prompt in double quotes |
| `GeminiService.VisualRequest` | geminiService.ts:73-82 | one text part for the image model, quoting the product name |
| `GeminiService.GenerateProductVisual` | geminiService.ts:69-90 | the reply to the visual request gives the PNG data URI of its first inline part exactly when there is one; a reply without an image gives `Error: ` and the visual no-image text; a thrown error gives its translation; a failure is never empty |
| `GeminiService.LogoRequest` | geminiService.ts:92-104 | one text part for the image model, quoting the brand name and naming the style, ` modern logo` when no style is passed |
| `GeminiService.GenerateLogo` | geminiService.ts:92-112 | the same promise as the visual operation for the reply to the logo request, with the logo no-image text |
| `GeminiService.EditData` | geminiService.ts:116 | input without a comma is sent unchanged; otherwise the text between the first comma and the next (or the end); the result holds no comma |
| `GeminiService.DataUrlPayload` | geminiService.ts:116 | a data URL with a comma-free type and payload splits into two fields, the second being the payload |
| `GeminiService.EditDataOfPngDataUrl` | geminiService.ts:116 | editing a PNG data URI this service returned sends exactly its base64 payload |
| `GeminiService.PngPayloadIsSent` | geminiService.ts:116 | a PNG data URI whose payload has no comma is stripped to exactly that payload |
| `GeminiService.EditRequest` | geminiService.ts:116-127 | two parts for the image model: first the stripped image typed `image/png`, comma-free, the input itself when it has no comma and the payload of a PNG data URI this service returned; then the instruction quoting the edit prompt |
| `GeminiService.EditProductImage` | geminiService.ts:114-135 | the same promise as the visual operation for the reply to the edit request, with the edit no-image text |
| `ContentDisplay.SafeHashtags` | ContentDisplay.tsx:9 | the raw hashtags when they are an array, otherwise empty |
| `ContentDisplay.Normalize` | ContentDisplay.tsx:8-13 | each text field is its raw value when non-empty and its placeholder otherwise, hashtags kept only when an array, an absent plan read as all fields missing; all five text fields are non-empty |
| `ContentDisplay.AbsentPlanShowsPlaceholders` | ContentDisplay.tsx:8-13 | no plan yields every placeholder and no hashtags |
| `ContentDisplay.FieldsAreIndependent` | ContentDisplay.tsx:8-13 | each shown field depends on its own raw field only |
| `ContentDisplay.NormalizeIdempotent` | ContentDisplay.tsx:8-13 | normalising a normalised plan returns it unchanged |
| `ContentDisplay.CompletePlanShownAsIs` | ContentDisplay.tsx:8-13 | a plan with all text fields non-empty is shown exactly as it is |
| `ContentDisplay.FullPost` | ContentDisplay.tsx:15 | the caption, a blank line and the hashtags joined by spaces; its layout and inverse are stated by the two lemmas below |
| `ContentDisplay.FullPostLayout` | ContentDisplay.tsx:15 | the full post opens with the caption and a blank line, the rest is the hashtags joined by single spaces, and with no hashtags it ends in the blank line |
| `ContentDisplay.FullPostHashtagsRecoverable` | ContentDisplay.tsx:15 | space-free hashtags can be split back out of the full post in their order |
| `ContentDisplay.FullPostExample` | ContentDisplay.tsx:15 | "Buy now" with "#sale", "#deal" gives "Buy now\n\n#sale #deal" |
| `ContentDisplay.CopiedText` | ContentDisplay.tsx:44 | the post button copies the full post, the caption button the shown caption, the script button the shown script |
| `ContentDisplay.CaptionCopyStartsPostCopy` | ContentDisplay.tsx:68 | what the caption button copies is the beginning of what the post button copies |
| `ProductForm.Form.constructor` | ProductForm.tsx:10-13 | all three fields start empty and no image is selected |
| `ProductForm.Form.SetLink` | ProductForm.tsx:64 | typing sets the link; only possible while no image is selected, so the invariant holds |
| `ProductForm.Form.SetPrice` | ProductForm.tsx:85 | sets the price and nothing else |
| `ProductForm.Form.SetPhone` | ProductForm.tsx:94 | sets the phone and nothing else |
| `ProductForm.AcceptsFile` | ProductForm.tsx:25 | a picked file is taken exactly when there is one and its type starts with `image/` (used by `ProductForm.Form.ImageLoaded`) |
| `ProductForm.Form.ImageLoaded` | ProductForm.tsx:23-33 | a file is taken exactly when its type starts with `image/`; then the image is the second comma field of the data URL with the file's type and name, and the link is cleared; otherwise nothing changes |
| `ProductForm.Form.RemoveImage` | ProductForm.tsx:58 | the image is removed and link, price and phone are untouched |
| `ProductForm.Form.Request` | ProductForm.tsx:20 | the payload carries the link, price and phone as they are and the image reduced to data and type, absent when none is selected |
| `ProductForm.Form.Submit` | ProductForm.tsx:16-21 | nothing while loading or with neither link nor image; otherwise the payload; an image submission is phrased as `this image`, a link submission as the link |
| `ImageGenerator.PanelShown` | ImageGenerator.tsx:58-86 | the panel shown is the placeholder, the loading body or the image exactly under their render conditions |
| `ImageGenerator.ExactlyOnePanel` | ImageGenerator.tsx:72-86 | for any image and loading state exactly one of the three render conditions holds |
| `ImageGenerator.InitialImage` | ImageGenerator.tsx:14 | `initialImageUrl \|\| null`: the initial image when non-empty, otherwise none |
| `ImageGenerator.Generator.IsAnyLoading` | ImageGenerator.tsx:58 | `loading \|\| isLoadingExternally` |
| `ImageGenerator.Generator.ShownPanel` | ImageGenerator.tsx:67-86 | the loading body is shown exactly while anything loads, and the image exactly when the "Regenerate New" button is offered |
| `ImageGenerator.Generator.OffersRegenerate` | ImageGenerator.tsx:67 | the regenerate button's condition: a non-empty image and nothing loading |
| `ImageGenerator.Generator.ShowsError` | ImageGenerator.tsx:124 | the error banner's condition: a non-empty error; every failed generate or edit shows it |
| `ImageGenerator.Generator.constructor` | ImageGenerator.tsx:13-18 | the image starts as the initial image (or none), not loading, empty edit prompt, no error |
| `ImageGenerator.Generator.Rerender` | ImageGenerator.tsx:20-22 | the image is reset to the initial image exactly when that property changes |
| `ImageGenerator.Generator.SetEditPrompt` | ImageGenerator.tsx:110 | sets the edit prompt and nothing else |
| `ImageGenerator.Generator.StartGenerate` | ImageGenerator.tsx:24-28 | nothing without a product name; otherwise loading with the generating text and no error, so the loading body shows |
| `ImageGenerator.Generator.SettleGenerate` | ImageGenerator.tsx:29-37 | success sets the image and reports the url to the callback; failure keeps the image and sets the error; loading ends; without external loading the image or the placeholder shows |
| `ImageGenerator.Generator.HandleGenerate` | ImageGenerator.tsx:24-38 | the whole handler against the backend: a no-op without a product name; a success shows the new image with no error; a failure keeps the image and shows the error banner with the translated message |
| `ImageGenerator.Generator.StartEdit` | ImageGenerator.tsx:40-45 | nothing without an image and a non-empty prompt; otherwise loading with the editing text and no error |
| `ImageGenerator.Generator.SettleEdit` | ImageGenerator.tsx:47-55 | success replaces the image and clears the prompt; failure keeps both and sets the error; loading ends |
| `ImageGenerator.Generator.HandleEdit` | ImageGenerator.tsx:40-56 | the whole handler against the backend, sending the current image and prompt; a success replaces the image and clears the prompt; a failure keeps both and shows the error banner |

## Left out

- The generative-AI SDK, the API key and the network calls: the backend is a parameter of the
  model, and only the request handed to it and the outcome it gives are modelled.
- `JSON.parse`: its result is part of the backend outcome the model receives.
- `console.error` logging, the error boundary and the DOM mount in `index.tsx`: input/output and
  framework glue.
- The clipboard write and the two-second "copied" indicator of the copy buttons: a browser API and
  a timer. Only which text each button copies is modelled.
- Asynchronous file reading: modelled as one atomic event carrying the data URL.
- Overlapping requests in the image panel: there is no cancellation, so a late reply can overwrite
  a newer one; each handler is modelled as running to completion.
- JSX markup, styling and the display of the Burmese texts; the texts themselves are constants
  copied as they are.
- Base64 validity and image bytes: nothing in the app checks them.
- `generateLogo` has no caller among the modelled components; it is modelled as a function only.
- `ProductForm.Form.ImageLoaded`: a failed read also fires `onloadend`, with a null result on which `.split` throws and nothing changes; the model has no event for a failed read.
- `GeminiService.ImageCallResult`: `inlineData.data` is optional in the reply, and a part without it gives `data:image/png;base64,undefined`; the model's inline data always carries a string.
- `ContentDisplay.Normalize`: non-string truthy raw field values (which `||` would keep) and
  non-string array elements are outside the model.
