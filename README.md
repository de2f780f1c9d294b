# Storyboard generation: a Dafny model

This project models the core of a small web app that turns book content into a
storyboard. The user supplies text and images. The app asks a language model to split
the content into scenes. It then asks an image model for one picture per scene, in
order, and passes each picture as a visual reference for the next call.

The model covers two parts:

- **The app component** (`App.tsx`). `handleProcess` drives the run: it records a
  processing state (status, progress, message, error) and the scene list. `reset`
  puts both back to idle.
- **The service layer** (`services/geminiService.ts`):
  - how the analysis request is built from the prompt, the text and the images'
    data URLs;
  - how the analysis reply is read (an empty reply is read as `'{}'`, and a parse
    failure becomes an error);
  - how the image request is built, with the previous picture as a reference when
    it is a well-formed base64 data URL;
  - how the first inline image of a response becomes the returned data URL.

Modules:

- `Wrappers`: `Option` and `Result`.
- `Sequences`: small sequence lemmas.
- `Types`: the app's records: scene, storyboard, status, processing state.
- `DataUrl`:
  - the `data:<mime>;base64,<data>` format;
  - the anchored pattern `^data:([^;]+);base64,(.+)$`;
  - the `split(',')` / `split(';')` / `split(':')` field extraction.
- `GeminiService`: request building, reply reading and image extraction.
  - The remote model is a parameter: `Analyzer` for the analysis call, `Endpoint`
    for an image call.
  - JSON parsing is a parameter `parse`.
- `App`:
  - the class `AppState`, with `HandleProcess`, its loop `GenerateImages` and `Reset`;
  - the functions that specify a whole run (`Run`, `RunFrom`), built from a fold
    over the scenes (`Illustrate`, `Trace`).

The class keeps a ghost log of every state write, scene-list write and remote call.
Each method's postcondition ties the log to these functions. The lemmas state what a
run guarantees:

- the progress values it writes;
- the image calls it makes, and the reference each one carries;
- the scene list it ends with;
- the error state it ends in.

## Model

| member | source | states |
|---|---|---|
| DataUrl.MatchFormat | services/geminiService.ts:73 | The reference pattern accepts a formatted data URL and returns its mime type and data exactly when the mime type is non-empty and has no `;`, and the data is non-empty with no line terminator. |
| DataUrl.MatchedIsFormatted | services/geminiService.ts:73 | Anything the pattern accepts is the data URL formatted from the two captured groups, and those groups satisfy the acceptance condition: the pattern is the exact inverse of the format. |
| DataUrl.MatchedGroups | services/geminiService.ts:73 | An accepted string starts with `data:`, and the rest is the mime type, `;base64,` and the data. |
| DataUrl.IndexOfFirst | services/geminiService.ts:21-22 | The search stops at the first occurrence of the character, and runs to the end exactly when the character is absent. |
| DataUrl.IndexOfAt | services/geminiService.ts:21-22 | A position holding the character, with no earlier occurrence, is what the search returns. |
| DataUrl.SplitFieldsClean | services/geminiService.ts:21-22 | No field of a `split` contains the separator. |
| DataUrl.JoinSplit | services/geminiService.ts:21-22 | Joining the fields of a `split` with the separator gives back the original string. |
| DataUrl.SplitJoin | services/geminiService.ts:21-22 | Splitting a join of separator-free fields gives back the same fields (the other direction of the round trip). |
| DataUrl.JoinHead | services/geminiService.ts:21-22 | In a join whose first field has no separator, the first separator follows that field, and the remainder is the join of the other fields. |
| DataUrl.SplitFirst | services/geminiService.ts:22 | The first field of a split is everything before the first separator. |
| DataUrl.HeadBeforeMarker | services/geminiService.ts:22 | Split at `;`, a data URL whose mime type has no `;` has `data:` plus the mime type as its first field. |
| DataUrl.SplitMimeFormat | services/geminiService.ts:22 | `split(';')[0].split(':')[1]` recovers the mime type of a formatted data URL whose mime type has neither `:` nor `;`. |
| DataUrl.SplitDataFormat | services/geminiService.ts:21 | `split(',')[1]` recovers the data of a formatted data URL when neither the mime type nor the data contains `,`. |
| DataUrl.ParsersAgree | services/geminiService.ts:21-22 | On a string the pattern accepts, with no `:` or `,` in the mime type and no `,` in the data, the split-based extraction yields the same mime type and data as the pattern. |
| GeminiService.Map | services/geminiService.ts:20-29 | Mapping keeps the length and applies the function at every index. |
| GeminiService.AnalysisParts | services/geminiService.ts:17-29 | The request starts with the analysis prompt. The content text follows with its label only when the text is non-empty. Then comes one inline part per image, in order, carrying that image's split-extracted mime type and data. |
| GeminiService.BuildAnalysisParts | services/geminiService.ts:17-29 | The loop that pushes the parts builds exactly the request `AnalysisParts` specifies. |
| GeminiService.AnalyzeContent | services/geminiService.ts:17-64 | The call sends the specified request. A transport error propagates unchanged. Any failure in reading the reply is the single "Failed to interpret content analysis." error. A reply without text is parsed as `'{}'`: a storyboard without `scenes`. |
| GeminiService.BuildImageParts | services/geminiService.ts:70-89 | The request has two parts (the reference image, then the continuity instruction with the prompt) exactly when a reference is given and the pattern accepts it. Otherwise it is the prompt alone. |
| GeminiService.ContinuityRequest | services/geminiService.ts:72-83 | An image returned by an earlier call, in its well-formed data URL form, is passed on as an inline reference with the same mime type and data. |
| GeminiService.FirstInline | services/geminiService.ts:101-105 | The index found holds an inline image and every earlier part has none. If nothing is found, no part holds an inline image. |
| GeminiService.ExtractImage | services/geminiService.ts:101-107 | The result is a success exactly when some part of the first candidate holds an inline image. It is then the data URL of the first such part. Otherwise it is "No image data returned from generator.". |
| GeminiService.GenerateSceneImage | services/geminiService.ts:67-108 | The call sends the request `BuildImageParts` specifies and yields the endpoint's image outcome. |
| GeminiService.ReturnedImageIsNextReference | services/geminiService.ts:101-104 | When the first inline part has a mime type and data that the pattern admits, the returned data URL is accepted by the pattern and yields that same mime type and data. The next call therefore gets it as a reference. |
| App.StepProgressBounds | App.tsx:57 | Each loop step's progress lies between 30 and 90. It exceeds 30 exactly when (i+1)*60 >= n, and the last step reaches 90. |
| App.StepProgressMonotone | App.tsx:57 | A later step's progress is never lower than an earlier one's. |
| App.IllustrateUntouched | App.tsx:52-74 | After k steps, the scenes from k on are still as the analyzer returned them. |
| App.Pending | App.tsx:53 | Step k reads scene k as the analyzer returned it. |
| App.IllustrateScenes | App.tsx:52-74 | After k steps, the scenes from k on are untouched. Each earlier scene differs from the analyzer's only in the image its own call returned, and is unchanged when that call failed. |
| App.IllustrateReferences | App.tsx:49-72 | The first call gets no reference. Each later call gets the image the previous call returned, or none if that call failed. |
| App.StepEvents | App.tsx:55-68 | One loop step writes exactly one progress value, that step's, and makes exactly one image call, with that scene's prompt and the current reference. |
| App.TicksAt | App.tsx:57 | The expected progress list for k steps has k entries, entry j being step j's progress. |
| App.IllustrateProgress | App.tsx:52-59 | The first k steps write exactly the expected progress values, in order. |
| App.RequestsAt | App.tsx:63 | Expected call j is for scene j, with its prompt and the reference the first j steps left. |
| App.IllustrateCalls | App.tsx:52-74 | The first k steps make exactly the expected image calls, in order. |
| App.RunFrom | App.tsx:25-91 | A run first writes ANALYZING and clears the scene list, and its last event writes its final state. It ends in ERROR exactly when something before the loop failed, and in COMPLETED exactly when it did not. |
| App.RunFailure | App.tsx:82-90 | A failure before the loop ends in ERROR with progress 0. The error text is the cause, or "Unknown error" when the cause has no message. The scene list is empty, no image call was made, and the progress values written are 10 then 0. This includes a result without `scenes`, which the model fails before the scene list is written; as written that case writes 10, 30, 0 (see Findings). |
| App.FailedEvents | App.tsx:27-89 | A failed run writes the progress values 10 then 0 and makes no image call. |
| App.OpeningEvents | App.tsx:27-36 | The part before the analysis writes progress 10 and makes no image call. |
| App.MiddleEvents | App.tsx:39-45 | Storing the scenes and entering GENERATING_IMAGES writes progress 30 and makes no image call. |
| App.RunLoopStart | App.tsx:39-45 | Past the analysis, the run stores the analyzer's scene list unchanged, then writes GENERATING_IMAGES at 30, before any image call. |
| App.RunCompletedScenes | App.tsx:39-80 | Past the analysis, the run completes at 100 however many image calls fail. The final list has the analyzer's length and order. Each scene keeps its id, title, description and prompt, and holds the image its own call returned (the original value if that call failed). |
| App.OpeningProgress | App.tsx:27-45 | Before the loop, such a run writes the progress values 10 then 30. |
| App.CompletedProgress | App.tsx:41-80 | The progress values of such a run are 10, 30, those of the loop, then 100. |
| App.CompletedCalls | App.tsx:52-74 | All image calls of such a run happen inside the loop. |
| App.RunProgress | App.tsx:27-80 | A run past the analysis writes n+3 progress values: 10, 30, one per scene in order, and 100. It never lowers the progress. |
| App.ProgressShape | App.tsx:55-80 | 10, 30, the step values in order and then 100 form a non-decreasing sequence. |
| App.RunImageCalls | App.tsx:52-74 | A run past the analysis calls the generator once per scene, in scene order. Each call carries that scene's prompt and the reference the previous call left. |
| App.AsWrittenAgrees | App.tsx:39-47 | On every run whose analysis result is not missing `scenes` (including every failure), the run in the order the code is written equals the modelled run: the two orders differ only in that case. |
| App.AsWrittenMissing | App.tsx:39-47 | When `scenes` is missing, the run as written stores an undefined scene list and writes GENERATING_IMAGES at 30 before it throws. It writes progress 10, 30, 0 and ends in ERROR with the list undefined. The modelled run never enters GENERATING_IMAGES: it writes 10, 0 and ends in ERROR with an empty list. Neither makes an image call. |
| App.MissingEvents | App.tsx:27-47 | As written, a run whose result has no `scenes` writes progress 10, 30, 0, passes through GENERATING_IMAGES and makes no image call. |
| App.EmptyReplyScenes | App.tsx:39-47 | An analysis reply without text (read as `'{}'`) is a result without `scenes`. As written, the run writes progress 10, 30, 0 and ends in ERROR with the scene list undefined. The modelled run writes 10, 0 and ends in ERROR with an empty list. |
| App.AppState.constructor | App.tsx:9-14 | The component starts idle at progress 0, with an empty message and an empty scene list. |
| App.AppState.Fail | App.tsx:82-90 | The catch writes ERROR, progress 0, the error message, and the cause or "Unknown error". The scene list is left as it is. |
| App.AppState.HandleProcess | App.tsx:25-91 | The final state, the final scene list and the events logged are exactly those of the specified run `Run`. |
| App.AppState.ProcessAnalysis | App.tsx:36-80 | After the analysis, the state, the scene list and the events follow `Conclusion`: fail before the loop, or store the scenes and run the loop. |
| App.AppState.GenerateImages | App.tsx:47-74 | The loop ends with the scene list and the logged events of the fold over all scenes. The state is unchanged when there are no scenes. Otherwise the state is GENERATING_IMAGES at 90, with the last scene's message. |
| App.AppState.IllustrateScene | App.tsx:53-73 | One iteration performs one step of the fold: the image call, and the scene update on success. The state it leaves is GENERATING_IMAGES with that step's progress and its "Illustrating scene i+1 of n" message. |
| App.AppState.Reset | App.tsx:93-100 | Reset empties the scene list and writes IDLE at progress 0 with an empty message. |

## Left out

- Reading files as data URLs (`fileToBase64`, `Promise.all`): the model takes the result as an input, either the list of data URLs or the reading error.
- The remote client (`GoogleGenAI`, the API key, model names, the response schema, the image aspect ratio): each remote call is an oracle function from the request parts to a reply, or to a transport error.
- `JSON.parse`: a parameter. The model fixes only that `'{}'` parses to a storyboard without `scenes`.
- The result of a parse that is not an object, or whose `scenes` is not an array: the parsed value is modelled as a storyboard with an optional scene list.
- Console logging (`console.error`, `console.warn`): it has no effect on the state.
- The wording of the analysis prompt and of the continuity instruction: they are opaque constants. Only their position in the request is modelled.
- `StepProgress`: `Math.floor(((i + 1) / totalScenes) * 60)` is floating point in the source. The model uses the integer quotient `((i + 1) * 60) / n`, which agrees except where floating-point rounding would change the floor.
- Asynchrony: the awaited calls are modelled as sequential steps. React's batching of state updates is not modelled. Each `setProcessingState` and `setScenes` is one logged write, in program order.
- An error with no `message` is modelled as the empty cause, which becomes "Unknown error". Errors thrown by the image calls never reach the app's catch.
- Rendering (JSX, the header, the input section, the scene cards): only the state they read is modelled.
- `StepProgressBounds`: the progress of the first step is strictly above 30 only when `60 >= n`. With more than 60 scenes, the first steps stay at 30.

## Findings

| source | as written | input that shows it | evidently intended | confidence | as-written member | corrected member |
|---|---|---|---|---|---|---|
| App.tsx:39-47 | `setScenes(storyboardData.scenes)` runs before `storyboardData.scenes.length` is read. A parse result without `scenes` therefore stores `undefined` as the scene list, then writes GENERATING_IMAGES at progress 30 (App.tsx:41-45), and only then throws into the catch. The run writes progress 10, 30, 0 and ends in ERROR with the list undefined. The render (App.tsx:157) then reads `scenes.length`. | An analysis reply without text, which the service reads as `'{}'` | Fail before writing the scene list or entering GENERATING_IMAGES: progress 10, 0, and an empty list | not executed | App.AsWrittenMissing | App.RunFailure |
