# RhinoAIRenderer generation pipeline, modelled in Dafny

RhinoAIRenderer is a Rhino plug-in. It captures the active viewport and sends the picture, with a
text prompt, to Google's Gemini image-generation API. It then shows the image that comes back.
This project models the part of it that makes decisions:

- **`Models`** (`render_settings.dfy`): the mutable `RenderSettings` object. It holds the field
  defaults, the three supported model ids and their display names, and setters that store exactly
  what they are given.
- **`GeminiApiService`** (`gemini_api_service.dfy`): `GenerateImageAsync` and `ParseGeneratedImage`.
  It covers fail-fast validation, prompt composition, the endpoint URL with trailing slashes
  trimmed, the conditional `imageConfig` and the fixed JSON payload. It classifies the HTTP outcome
  and walks `candidates[0].content.parts[]` for the first non-empty `inlineData.data`. Each
  `return null` of the C# code is a distinct `Failure` tag. `Result.ToOption` collapses the tags
  to "no image" for the caller.
- **`ViewModels`** (`ai_render_view_model.dfy`): `AIRenderViewModel`, a class whose commands
  (capture, generate, clear, use result as source) change the source image, the result image, the
  busy flag, the status line and the settings. Each command has a guard predicate.
- Support modules: `Wrappers` (Option/Result), `Clr` (the .NET primitives the code relies on:
  32-bit `int`, `char.IsWhiteSpace`, `string.IsNullOrWhiteSpace`, `TrimEnd`, `int.ToString`),
  `Json` (a JSON tree, plus Json.NET's indexer behaviour: an object yields a value or null, and any
  other token throws) and `Imaging` (an opaque image with a pixel width and height).

Some things are parameters of the model rather than parts of it:

- The HTTP exchange is `send: HttpRequest -> HttpOutcome`.
- JPEG/base64 encoding of the source is `encode: Image -> Option<string>`; `None` means the encoder
  threw.
- Base64/bitmap decoding of the answer is `decode: string -> Option<Image>`.
- The response body is handed in already parsed, as `Option<JValue>`; `None` means it is not JSON.
- In the view model, the viewport capture is passed in as its outcome:
  `Call = Returned(Option<Image>) | Threw(message)`. The two `ScreenCapture` conversions are
  parameters too. `BitmapSourceToBitmap` (`ToBitmap`) yields a bitmap or throws.
  `BitmapToBitmapSource` (`ToSource`) yields `None` when both of its conversion attempts fail,
  because it swallows their exceptions.
- Generate runs the service model itself (`GeminiApiService.GenerateImage`) with the controller's
  settings. The service never throws and hands back either an image or "null" for every failure
  tag. The `await` is one atomic step (see "Left out").
- `Json` reproduces how Json.NET enumerates and tests tokens. `HasValues` is true only for a
  non-empty array or object; a string, number or JSON null has no values. `foreach` over an array
  visits its elements. Over an object it visits its properties, and a property's string indexer
  throws. Over a scalar it visits nothing. So `candidates` given as a non-empty object fails at
  `[0]`, and `parts` given as a scalar finds no image data.

## Model

| member | source | states |
|---|---|---|
| `Models.RenderSettings.constructor` | Models/RenderSettings.cs:9-17 | A fresh settings object has the URL `https://generativelanguage.googleapis.com`, an empty key and prompt, model `gemini-3-pro-image-preview`, seed -1, 20 steps, 512x512 |
| `Models.DefaultModelIsAvailable` | Models/RenderSettings.cs:12-26 | The default model is one of the available models (the second one) |
| `Models.AvailableModelsAreDistinct` | Models/RenderSettings.cs:21-26 | The available models are exactly three pairwise distinct ids |
| `Models.DisplayNamesCoverModels` | Models/RenderSettings.cs:29-34 | The display-name table's keys are exactly the available models, named Nano Banana 2 / Nano Banana Pro / Nano Banana |
| `Models.RenderSettings.SetSelectedModel` | Models/RenderSettings.cs:36-40 | Stores any string (no membership check) and changes no other field |
| `Models.RenderSettings.SetApiUrl` | Models/RenderSettings.cs:42-46 | Stores the value; every other field unchanged |
| `Models.RenderSettings.SetApiKey` | Models/RenderSettings.cs:48-52 | Stores the value; every other field unchanged |
| `Models.RenderSettings.SetPrompt` | Models/RenderSettings.cs:54-58 | Stores the value; every other field unchanged |
| `Models.RenderSettings.SetSeed` | Models/RenderSettings.cs:60-64 | Stores the value; every other field unchanged |
| `Models.RenderSettings.SetSteps` | Models/RenderSettings.cs:66-70 | Stores the value; every other field unchanged |
| `Models.RenderSettings.SetWidth` | Models/RenderSettings.cs:78-82 | Stores the value; every other field unchanged |
| `Models.RenderSettings.SetHeight` | Models/RenderSettings.cs:84-88 | Stores the value; every other field unchanged |
| `Models.RenderSettings.SetSourceDimensions` | ViewModels/AIRenderViewModel.cs:157 | The recorded source dimensions are the arguments |
| `Clr.NatToString` | ViewModels/AIRenderViewModel.cs:159 | A non-negative `int` prints as a non-empty string of decimal digits without a leading zero (except "0") that denotes exactly that number |
| `Clr.IntToString` | ViewModels/AIRenderViewModel.cs:159 | An `int` prints with a leading '-' exactly when negative (in a culture whose negative sign is '-'), followed by the digits that denote its magnitude |
| `Clr.BlankIffAllWhiteSpace` | Services/GeminiAPIService.cs:35-45 | `IsNullOrWhiteSpace` holds exactly when every character is whitespace |
| `Clr.TrimEnd` | Services/GeminiAPIService.cs:67 | `TrimEnd('/')` gives a prefix of the input that does not end in '/' and is followed only by '/' characters |
| `Clr.TrimEndAbsorbs` | Services/GeminiAPIService.cs:67 | Appending any number of '/' does not change the trimmed URL |
| `Clr.TrimEndIdempotent` | Services/GeminiAPIService.cs:67 | Trimming twice is trimming once |
| `Json.LookupFindsLastBinding` | Services/GeminiAPIService.cs:165-168 | A key is found exactly when some property carries it, and the value found is its last binding |
| `Json.HasValues` | Services/GeminiAPIService.cs:168-169 | `HasValues` holds only for containers, for an array exactly when it has elements and for an object exactly when it has properties; a scalar or JSON null never has values |
| `Json.Get` | Services/GeminiAPIService.cs:168-198 | `token[key]` throws exactly on a non-object; on an object it is present exactly when the key is bound |
| `GeminiApiService.GenerateImage` | Services/GeminiAPIService.cs:28-156 | Blank base URL, blank key, missing source: in that order, each yields its own failure and sends nothing. A request is sent exactly when all three checks pass and encoding succeeds. The request sent is the one built from the settings. The result is the classification of what the exchange delivered. Every path returns a value, which as a whole is `GenerateOutcome` of the inputs |
| `GeminiApiService.PartsToScan` | Services/GeminiAPIService.cs:193-195 | `foreach (var part in parts)` visits an array's elements; over a non-empty object its first turn throws (a property's string indexer); over a scalar or an empty object it visits nothing |
| `GeminiApiService.NonArrayCandidates` | Services/GeminiAPIService.cs:168-176 | `candidates` that is a string, JSON null or empty object gives NoCandidates; a non-empty object passes `HasValues` and then fails at `[0]` (ShapeError) |
| `GeminiApiService.NonArrayParts` | Services/GeminiAPIService.cs:184-209 | `parts` that is a non-empty object fails on its first turn (ShapeError); a scalar or empty object finds no image data |
| `GeminiApiService.SendAndClassify` | Services/GeminiAPIService.cs:126-155 | The outcome of the single POST is classified exactly as `Classify` defines: a non-success status is `ApiError`, a success body goes to the parser, and each caught exception is its own failure |
| `GeminiApiService.FullPrompt` | Services/GeminiAPIService.cs:53-58 | The prompt always ends the text. The text is the prompt alone exactly when the system prompt is blank; otherwise it is system prompt, blank line, prompt |
| `GeminiApiService.EndpointUrlShape` | Services/GeminiAPIService.cs:66-67 | The URL is the base URL without its trailing slashes, then `/v1beta/models/{model}:generateContent` |
| `GeminiApiService.EndpointUrlIgnoresTrailingSlashes` | Services/GeminiAPIService.cs:66-67 | "u" and "u" followed by any number of '/' give the same URL |
| `GeminiApiService.ImageConfig` | Services/GeminiAPIService.cs:69-82 | `aspectRatio` is present exactly when a non-empty ratio is selected (null counts as empty), with that value; `imageSize` is always present, "1K" when unset; no other key |
| `GeminiApiService.PayloadCarriesPromptThenImage` | Services/GeminiAPIService.cs:84-104 | One `contents` entry with exactly two parts: the full prompt as text, then `inline_data` declared `image/png` with the encoded image |
| `GeminiApiService.PayloadCarriesToolsAndConfig` | Services/GeminiAPIService.cs:105-111 | The body carries `tools:[{google_search:{}}]`, `responseModalities ["TEXT","IMAGE"]` and the given `imageConfig` |
| `GeminiApiService.SunsetScenario` | Services/GeminiAPIService.cs:53-111 | Ratio 16:9, size 2K and prompt "add sunset lighting" give `imageConfig {aspectRatio:"16:9", imageSize:"2K"}` and the text `systemPrompt + "\n\n" + prompt` |
| `GeminiApiService.ImageOnlyFromSuccessStatus` | Services/GeminiAPIService.cs:126-155 | An image comes back only from a 2xx response. A non-success status yields `ApiError(status)`. HTTP errors, timeouts and other exceptions yield failures |
| `GeminiApiService.DataTextOf` | Services/GeminiAPIService.cs:198-199 | A `data` token's text counts as found only when non-empty |
| `GeminiApiService.PartStep` | Services/GeminiAPIService.cs:195-200 | A part stops the scan only with non-empty data. A part without `inlineData` or `data` is skipped |
| `GeminiApiService.ScanFindsFirstData` | Services/GeminiAPIService.cs:191-202 | A part with data that follows only skipped parts is what the scan finds |
| `GeminiApiService.ScanFoundIsFirstData` | Services/GeminiAPIService.cs:191-202 | Whatever the scan finds is the data of the first part that is not skipped |
| `GeminiApiService.ScanNotFoundIffAllSkipped` | Services/GeminiAPIService.cs:191-209 | The scan finds nothing exactly when every part is skipped |
| `GeminiApiService.ParseGeneratedImage` | Services/GeminiAPIService.cs:161-228 | The imperative parser, with its part loop and `break`, returns exactly the parse defined by the checks and the scan |
| `GeminiApiService.ParseInspectsFirstCandidateOnly` | Services/GeminiAPIService.cs:168-177 | When `candidates` is a non-empty array, the answer depends on `candidates[0]` alone |
| `GeminiApiService.ParseResponseStructuralFailures` | Services/GeminiAPIService.cs:168-189 | Missing or empty `candidates` gives NoCandidates. A first candidate without `content` gives NoContent. Content without `parts` gives NoParts |
| `GeminiApiService.ParseSuccessIsFirstImagePart` | Services/GeminiAPIService.cs:191-216 | With a parts array, parsing succeeds with image I exactly when the first part carrying data carries non-blank text that decodes to I |
| `GeminiApiService.SecondPartImageIsTaken` | Services/GeminiAPIService.cs:191-202 | Of a text part followed by an `inlineData` part, the second part's data is taken |
| `GeminiApiService.WhitespaceDataEndsScan` | Services/GeminiAPIService.cs:193-209 | Whitespace-only data stops the scan and gives "no image", even when a later part has data |
| `ViewModels.ServiceCall` | ViewModels/AIRenderViewModel.cs:206-222 | The service never throws into the controller; it hands over an image exactly when it succeeded, and that image |
| `ViewModels.AwaitGeneration` | ViewModels/AIRenderViewModel.cs:204-211 | Converting the source and awaiting the service with the current settings gives the exception of the conversion, or else the service's answer for that bitmap (`Awaited`) |
| `ViewModels.AIRenderViewModel.constructor` | ViewModels/AIRenderViewModel.cs:32-53 | Fresh default settings, overridden only by a non-empty key or model. No images, idle, status "Ready" |
| `ViewModels.AIRenderViewModel.WithDefaults` | ViewModels/AIRenderViewModel.cs:28-30 | Empty key and the default model |
| `ViewModels.AIRenderViewModel.SetSettings` | ViewModels/AIRenderViewModel.cs:60-68 | Replaces the settings object; nothing else changes |
| `ViewModels.AIRenderViewModel.SetSourceImage` | ViewModels/AIRenderViewModel.cs:70-79 | Stores the image and sets HasSourceImage to "image present"; nothing else changes |
| `ViewModels.AIRenderViewModel.SetResultImage` | ViewModels/AIRenderViewModel.cs:81-90 | Stores the image and sets HasResultImage to "image present"; nothing else changes |
| `ViewModels.AIRenderViewModel.SetStatusMessage` | ViewModels/AIRenderViewModel.cs:92-100 | Stores the message; nothing else changes |
| `ViewModels.AIRenderViewModel.SetIsGenerating` | ViewModels/AIRenderViewModel.cs:102-111 | Stores the flag; nothing else changes |
| `ViewModels.AIRenderViewModel.SaveSettings` | ViewModels/AIRenderViewModel.cs:55-58 | Appends the current (key, model) to the persisted-settings log; controller state unchanged |
| `ViewModels.AIRenderViewModel.CaptureScreen` | ViewModels/AIRenderViewModel.cs:144-172 | A captured bitmap, converted for display (possibly to null), becomes the source, clears the result and records the bitmap's width and height. A null or throwing capture leaves both images and the settings untouched. The status is "Captured: WxH", "Failed to capture viewport" or "Error: …" |
| `ViewModels.AIRenderViewModel.GenerateImage` | ViewModels/AIRenderViewModel.cs:181-233 | Settings are saved before any check. With no source or a blank prompt it returns early, changing only the status. Otherwise the busy flag ends cleared and the source is kept. The result is replaced only when the service returns an image, by that image's display conversion (possibly null); a failure tag or a conversion exception keeps the previous result. The status reports the answer: "Generated: WxH", "Generation failed - check API response" or "Error: …" |
| `ViewModels.AIRenderViewModel.ClearAll` | ViewModels/AIRenderViewModel.cs:235-241 | Both images dropped, prompt "", status "Ready"; every other setting unchanged |
| `ViewModels.AIRenderViewModel.UseResultAsSource` | ViewModels/AIRenderViewModel.cs:275-297 | No-op without a result. Otherwise the old result becomes the source, the result empties and the source dimensions follow the new source |
| `ViewModels.CommandGuardsFollowState` | ViewModels/AIRenderViewModel.cs:48-52 | Capture and Clear are enabled exactly when idle. SaveResult and UseResultAsSource are enabled exactly when a result exists |
| `ViewModels.GenerateGuardFollowsState` | ViewModels/AIRenderViewModel.cs:174-179 | Generate is enabled exactly when idle, with a source image and a non-blank URL and key |
| `ViewModels.EnabledGenerateReachesService` | ViewModels/AIRenderViewModel.cs:174-211 | When Generate is enabled, the service, called with the controller's URL, key and source, never fails with a missing base URL, API key or source image |
| `ViewModels.GenerateFromCommand` | ViewModels/AIRenderViewModel.cs:49 | Generate run through its enabled command always ends idle (capture and clear enabled again), keeps the settings object and the source, and logs the saved settings. With a blank prompt (which the guard allows) the previous result stays and the status is "Please enter a prompt". With a non-blank prompt the status is the one the awaited answer calls for, a failed call keeps the previous result and a returned image becomes the result; once the source converts, the status is never an exception |
| `ViewModels.GenerateRejected` | Services/GeminiAPIService.cs:125-132 | An enabled Generate whose request is answered with a non-success status keeps the previous result, ends idle and reports "Generation failed - check API response" |

## Left out

- Null strings: C# strings may be null, but here every string is a non-null `seq<char>`. `IsNullOrWhiteSpace` and `IsNullOrEmpty` are modelled on non-null strings. `SelectedAspectRatio?.Ratio` and `SelectedImageSize` are `Option<string>`.
- `GuidanceScale` (float) and `Strength` (double) are floating-point settings that nothing in the pipeline reads.
- `PropertyChanged` notification, `CommandManager.InvalidateRequerySuggested` and `RelayCommand` are not modelled. The guards are predicates the caller evaluates, and `GenerateFromCommand` stands for the one command whose guard matters to the pipeline.
- The public `HasSourceImage` and `HasResultImage` setters are not modelled. Inside the core only the image setters write those flags; the invariant `Valid()` relies on that.
- `SystemPrompt`, `SelectedAspectRatio`, `SelectedImageSize` and `SetSourceDimensions` are declared outside Models/RenderSettings.cs. Their defaults are not constrained. The model carries no preset lists or style templates.
- Models.RenderSettings.SetSourceDimensions: promises only the recorded source dimensions, because its C# body is not part of this model.
- `AvailableModels` and `ModelDisplayNames` are per-instance get-only properties in C#. Here they are module constants, since nothing ever changes them.
- `HttpClient`: construction, the five-minute timeout, header mutation and `PostAsync`. The exchange is the `send` parameter, and a timeout is its `Canceled` outcome. The `x-goog-api-key` header is the `apiKey` field of the request. So `sent` means "handed to the exchange", header validation included: a key that passes the blank check but is not a valid header value (one ending in "\r\n", say) makes `DefaultRequestHeaders.Add` throw before `PostAsync`; the C# code then returns null with nothing sent, whereas the model reports the request as sent and the exchange's `Faulted` outcome as the failure.
- Newtonsoft serialisation and `JObject.Parse`: the payload is a `JValue`, and the response arrives already parsed (or as "not JSON"). A top-level non-object body counts as a JSON error, as `JObject.Parse` rejects it.
- `ScreenCapture.ToBase64`, `Convert.FromBase64String` and `new Bitmap(stream)` are the `encode` and `decode` parameters. The conversions between `Bitmap` and `BitmapSource` are the `ToBitmap` and `ToSource` parameters, so the model does not say what image they produce. Their pixel sizes are taken from the bitmap, as the status messages do. In particular, `UseResultAsSource` records the image's pixel size, whereas the C# code reads WPF's device-independent `Width`/`Height`. Those differ whenever the image's own DPI is not 96: the PNG re-encode and the fallback conversion both carry the bitmap's resolution, and a decoded result takes it from the file.
- `SaveResult`: the file dialog and disk write are not modelled; only its guard is. `SettingsService` file I/O is a ghost log of the (key, model) pairs handed to it.
- Clr.IntToString: status strings are formatted through interpolation with the current culture. Every culture prints the same digits for a non-negative value; the model's leading '-' for a negative value holds only where the culture's negative sign is '-'.
- `RhinoApp.WriteLine` logging and the diagnostic text of each failure are not modelled. Exception messages are kept only where they reach the status line.
- ViewModels.AIRenderViewModel.GenerateImage: the `await` is one atomic step, so the model does not capture what can happen while a request is in flight. `UseResultAsSource` and `SaveResult` are guarded by `HasResultImage` alone and stay enabled during the await. A user can promote the previous result to source mid-request; the new result then sits beside a source it was not generated from, and on a failure no result is left. The promises "keeps the source" and "keeps the previous result" hold only for a generation with no command interleaved.
- ViewModels.GenerateFromCommand: the same atomic-await limitation applies; only the busy guard's exclusion of a second generation is captured.
- Json.NET renders a `data` token that is an array or object as JSON text beginning with '[' or '{'. That text is not base64. The model reports it as `DecodeFailed` without consulting `decode`.
- The payload declares the image `image/png`, although the service encodes the source as JPEG. The model reproduces this as written.
