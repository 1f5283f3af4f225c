# PromeAI image generator: client-side state, modelled in Dafny

This project models the client-side bookkeeping of a browser front end. The front end sends a text prompt to a hosted text-to-image model, shows the result, and lets the user apply crop, resize, rotate and flip edits through an editing service. Modules follow the source files:

- `ImageEditor` (src/components/ImageEditor.tsx) is the editor session. The class `EditSession` holds the history of image locators, with the original at index 0, and the image shown. It also holds the loading flag and the crop, resize and rotate settings. Its handlers build the request for `editImage` and record the result. The invariant `Valid()` says the history is never empty, its last entry is the image shown, and every setting lies in the range its control produces.
- `IndexPage` (src/pages/Index.tsx) is the page. The class `Page` holds the image shown, the generating and editing flags, the active tab, and the gallery, newest first.
- `PromptInput` (src/components/PromptInput.tsx) is the prompt form. It covers the submit guard, the trimmed request handed to `onGenerate`, the submit-disabled condition and the form's setters.
- `DirectAccess` (src/main.tsx) is the path test that decides whether a directly accessed path is saved in session storage under `redirectPath`.
- `Api` (src/services/api.ts) covers the request body that `generateImage` posts, with JavaScript `||` defaults, and the message of the error thrown for a response that is not ok.
- `Text` models the JavaScript string operations the code uses: `trim`, `includes`, and printing a status number in a template literal. `Wrappers` holds `Option` and `Result`.

External calls are parameters. `editImage` can fail, so its outcome is the `reply: Result<Locator, string>` argument of each editor handler that calls it. The HTTP exchange inside `generateImage` is the `reply: Api.HttpReply` argument: an ok response with its object URL, a response that is not ok with its status and error body, or a rejection. The clock read `Date.now()` is the `now` argument of `HandleGenerateImage`. Each handler runs as one atomic step.

Behaviour of the code that the model states as written:

- The crop width and height are divided by 100 once more than the crop position. The code's own comment says the conversion is "to pixels (assuming 512x512 image)". Position sliders give 0..512 px, but width and height sliders (10..100 %) give only 1..5 px (`CropSizeRange`, `FullCropSizeIsFivePixels`).
- The `Math.round` results are computed with exact integers: `round(p*5.12) = (256p+25) div 50` and `round(p*5.12/100) = (256p+2500) div 5000`. For every integer slider value in 0..100, the exact product's fractional part is at least 0.0002 away from .5. So floating-point error in `p*5.12` cannot change the rounded value.
- "Maintain aspect ratio" copies the moved slider's value into the other dimension. This is a square lock, not a lock on the image's natural proportions. An 800 × 400 setting with width set to 400 becomes 400 × 400 (`AspectLockIsSquare`, `AspectLockIgnoresProportions`).
- The 90°, 180°, 270° and Reset buttons store the new angle and call the edit handler in the same click. The handler reads the settings captured before the click, so the request carries the previous angle (`RotatePreset`).
- The "Flip Vertically" button calls `editImage` directly. It does not set or clear the loading flag, and a failure is not handled, so the state stays as it was (`FlipVertically`). Only this button sends a vertical flip; the edit handler's flip is always horizontal.
- The image display in the source takes no `onEdit` property, so the page's edit handler is passed but never called from the shown files. `Page.StartEdit` models the handler itself.

## Model

| member | source | states |
|---|---|---|
| `ImageEditor.PercentToPixels` | src/components/ImageEditor.tsx:52-53 | the crop position sent is the integer nearest to p·5.12, halves rounded up (Math.round) |
| `ImageEditor.PercentToCropSize` | src/components/ImageEditor.tsx:54-55 | the crop size sent is the integer nearest to p·5.12/100, halves rounded up |
| `ImageEditor.CropPositionRange` | src/components/ImageEditor.tsx:52-53 | slider positions 0..100 % map to 0..512 px |
| `ImageEditor.CropSizeRange` | src/components/ImageEditor.tsx:54-55 | slider sizes 10..100 % map to only 1..5 px |
| `ImageEditor.FullCropSizeIsFivePixels` | src/components/ImageEditor.tsx:52-55 | at 100 % the position is 512 px but the size is 5 px |
| `ImageEditor.BuildEditParams` | src/components/ImageEditor.tsx:43-74 | the request targets the image shown and carries the operation; resize sends the resize settings, rotate sends the degrees, flip always sends horizontal; a crop sends PercentToPixels of x and y and PercentToCropSize of width and height, so an in-range crop sends x, y in 0..512 and width, height in 1..5 |
| `ImageEditor.WithWidth` | src/components/ImageEditor.tsx:219-228 | the width slider sets the width; with the lock off the height is unchanged; the lock flag is kept |
| `ImageEditor.WithHeight` | src/components/ImageEditor.tsx:238-247 | the height slider sets the height; with the lock off the width is unchanged; the lock flag is kept |
| `ImageEditor.WithAspectLock` | src/components/ImageEditor.tsx:255-258 | the checkbox sets the lock flag and never changes width or height |
| `ImageEditor.AspectLockIsSquare` | src/components/ImageEditor.tsx:219-247 | with the lock on, setting either dimension sets the other to the same value |
| `ImageEditor.AspectLockIgnoresProportions` | src/components/ImageEditor.tsx:219-228 | with the lock on, 800×400 with width 400 becomes 400×400, not 400×200 |
| `ImageEditor.SliderKeepsResizeInRange` | src/components/ImageEditor.tsx:214-247 | moving a resize slider keeps both dimensions within 64..1024 |
| `ImageEditor.EditSession.constructor` | src/components/ImageEditor.tsx:18-38 | the history is [imageUrl], the shown image is imageUrl, not loading, and the initial crop, resize and rotate settings |
| `ImageEditor.EditSession.HandleEditOperation` | src/components/ImageEditor.tsx:40-86 | sends the request built from the shown image and settings; success appends exactly the new locator and shows it; failure leaves history and image unchanged; loading ends false; the invariant is kept |
| `ImageEditor.EditSession.HandleUndo` | src/components/ImageEditor.tsx:88-98 | with length ≤ 1 nothing changes; otherwise exactly the last entry is removed and the new last entry is shown; length ≥ 1 is kept |
| `ImageEditor.EditSession.HandleSave` | src/components/ImageEditor.tsx:100-103 | the locator handed to onSave is the last history entry |
| `ImageEditor.EditSession.FlipVertically` | src/components/ImageEditor.tsx:350-358 | sends a vertical flip of the shown image; success appends and shows; failure changes nothing; loading flag untouched |
| `ImageEditor.EditSession.RotatePreset` | src/components/ImageEditor.tsx:286-325 | stores the preset angle but sends the angle held before the click; history updated as for any edit |
| `ImageEditor.EditSession.SetCropX` | src/components/ImageEditor.tsx:164-170 | only crop x changes, to the slider value |
| `ImageEditor.EditSession.SetCropY` | src/components/ImageEditor.tsx:174-180 | only crop y changes, to the slider value |
| `ImageEditor.EditSession.SetCropWidth` | src/components/ImageEditor.tsx:184-190 | only crop width changes, to the slider value |
| `ImageEditor.EditSession.SetCropHeight` | src/components/ImageEditor.tsx:194-200 | only crop height changes, to the slider value |
| `ImageEditor.EditSession.SetResizeWidth` | src/components/ImageEditor.tsx:214-228 | the resize settings become WithWidth of the old ones; nothing else changes |
| `ImageEditor.EditSession.SetResizeHeight` | src/components/ImageEditor.tsx:233-247 | the resize settings become WithHeight of the old ones; nothing else changes |
| `ImageEditor.EditSession.SetMaintainAspectRatio` | src/components/ImageEditor.tsx:251-258 | only the lock flag changes |
| `ImageEditor.EditSession.SetRotateDegrees` | src/components/ImageEditor.tsx:277-283 | only the rotation angle changes |
| `ImageEditor.EditThenUndo` | src/components/ImageEditor.tsx:76-96 | a successful edit followed by undo restores the history and the shown image |
| `IndexPage.WithEditedNewest` | src/pages/Index.tsx:59-66 | saving replaces only the url of entry 0 and keeps its prompt and timestamp; the other entries and the length are unchanged; an empty gallery stays empty |
| `IndexPage.LastSaveWins` | src/pages/Index.tsx:59-66 | saving twice equals saving the second url once |
| `IndexPage.SaveAfterGenerate` | src/pages/Index.tsx:36-65 | a save right after a generation rewrites only the url of the record that generation added |
| `IndexPage.ParamsOf` | src/pages/Index.tsx:32 | generateImage receives all four fields of the submitted data |
| `IndexPage.SubmittedRequestBody` | src/services/api.ts:25-31 | a form submission reaches the endpoint with its prompt, negative prompt and step count as submitted; the default of 50 never applies |
| `IndexPage.Page.constructor` | src/pages/Index.tsx:13-20 | no image, not generating, empty prompt, not editing, create tab, empty gallery |
| `IndexPage.Page.HandleGenerateImage` | src/pages/Index.tsx:22-52 | the prompt is recorded first; the body posted is BuildRequestBody of the submitted data, carrying its prompt and negative prompt; success shows the image and prepends exactly one record {url, prompt, now} before the old gallery; failure keeps image and gallery; generating ends false |
| `IndexPage.Page.HandleSaveEdit` | src/pages/Index.tsx:54-67 | shows the edited image, leaves edit mode, and updates the gallery as WithEditedNewest |
| `IndexPage.Page.SelectImage` | src/pages/Index.tsx:118-121 | shows the selected url on the create tab; the gallery and edit flag are untouched |
| `IndexPage.Page.StartEdit` | src/pages/Index.tsx:108 | enters edit mode and changes nothing else |
| `IndexPage.Page.Back` | src/pages/Index.tsx:131 | leaves edit mode without touching the image or the gallery |
| `IndexPage.Page.SetActiveTab` | src/pages/Index.tsx:87 | only the active tab changes |
| `PromptInput.Submission` | src/components/PromptInput.tsx:25-35 | none exactly when the prompt is empty or whitespace only; otherwise the prompt is trimmed, non-empty and bounded by non-whitespace, the negative prompt is trimmed, and steps and guidance pass unchanged |
| `PromptInput.ResubmitIsStable` | src/components/PromptInput.tsx:30-31 | resubmitting a submitted request gives the same request |
| `PromptInput.Form.constructor` | src/components/PromptInput.tsx:19-23 | prompt "", negative "", 50 steps, guidance 7.5, advanced options hidden |
| `PromptInput.Form.SetPrompt` | src/components/PromptInput.tsx:45 | only the prompt changes |
| `PromptInput.Form.SetNegativePrompt` | src/components/PromptInput.tsx:78 | only the negative prompt changes |
| `PromptInput.Form.SetNumSteps` | src/components/PromptInput.tsx:87-93 | only the step count changes, and it stays within 20..100 |
| `PromptInput.Form.SetGuidanceScale` | src/components/PromptInput.tsx:102-108 | only the guidance scale changes |
| `PromptInput.Form.ToggleAdvancedOptions` | src/components/PromptInput.tsx:56 | the advanced-options flag is negated |
| `PromptInput.ToggleTwice` | src/components/PromptInput.tsx:56 | toggling twice restores the flag |
| `PromptInput.Form.HandleSubmit` | src/components/PromptInput.tsx:25-35 | onGenerate is called exactly when the prompt is not blank, with the Submission request; its step count is within 20..100 |
| `PromptInput.Form.SubmitDisabled` | src/components/PromptInput.tsx:63 | disabled exactly when generating or the prompt is blank; when enabled, a submission goes through |
| `Text.IsSpace` | src/components/PromptInput.tsx:27 | space, tab, line feed and carriage return are whitespace; no printable ASCII character is |
| `Text.TrimStart` | src/components/PromptInput.tsx:30 | the result is a suffix of the input, everything removed is whitespace, and it does not start with whitespace |
| `Text.TrimEnd` | src/components/PromptInput.tsx:30 | the result is a prefix of the input, everything removed is whitespace, and it does not end with whitespace |
| `Text.Trim` | src/components/PromptInput.tsx:30 | the trimmed string is an infix of the input with only whitespace removed on either side, and it neither starts nor ends with whitespace |
| `Text.TrimIdempotent` | src/components/PromptInput.tsx:30-31 | trimming twice equals trimming once |
| `Text.TrimEmptyIffAllSpace` | src/components/PromptInput.tsx:27 | the trim is empty exactly when the string is whitespace only |
| `Text.Contains` | src/main.tsx:11 | a needle longer than the string is never found; the empty needle is always found |
| `Text.ContainsIffOccurs` | src/main.tsx:11 | includes agrees with "occurs at some index" |
| `Text.ContainsInfix` | src/services/api.ts:41 | any string built around a needle includes it |
| `Text.ContainsChar` | src/main.tsx:11 | includes of a one-character needle is membership |
| `Text.NatToString` | src/services/api.ts:36 | the decimal rendering is non-empty and all digits; it has a leading zero only when it is the single digit 0 |
| `Text.NatToStringRoundTrip` | src/services/api.ts:36 | reading the rendering back gives the number |
| `DirectAccess.ShouldStoreRedirect` | src/main.tsx:11 | a stored path is not "/" and has no occurrence of "api" at any index |
| `DirectAccess.RootNeverStored` | src/main.tsx:11 | "/" is never stored |
| `DirectAccess.DotNeverStored` | src/main.tsx:11 | a path containing '.' is never stored |
| `DirectAccess.ApiNeverStored` | src/main.tsx:11 | a path containing "api" anywhere is never stored |
| `DirectAccess.RapidNotStored` | src/main.tsx:11 | "/rapid" is not stored |
| `DirectAccess.StoredExactly` | src/main.tsx:11 | stored exactly when not "/", no '.', and no occurrence of "api" at any index |
| `DirectAccess.SessionStorage.SetItem` | src/main.tsx:13 | the key maps to the value; other keys are unchanged |
| `DirectAccess.HandleDirectPageAccess` | src/main.tsx:7-15 | a storable path is stored verbatim under redirectPath; otherwise storage is untouched |
| `Api.OrString` | src/services/api.ts:28 | JS `||`: an absent or empty string takes the fallback; any other value is kept |
| `Api.OrInt` | src/services/api.ts:29 | JS `||`: an absent value or 0 takes the fallback; any other value is kept |
| `Api.OrReal` | src/services/api.ts:30 | JS `||`: an absent value or 0 takes the fallback; any other value is kept |
| `Api.BuildRequestBody` | src/services/api.ts:25-32 | inputs is the prompt unchanged |
| `Api.NegativePromptDefault` | src/services/api.ts:28 | negative_prompt is the given value, or "" when absent |
| `Api.StepsDefault` | src/services/api.ts:29 | num_inference_steps is 50 when absent or 0, else the given value; it is never 0 |
| `Api.GuidanceScaleDefault` | src/services/api.ts:30 | guidance_scale is 7.5 when absent or 0, else the given value |
| `Api.StatusMessage` | src/services/api.ts:36 | the message is the fixed prefix followed by NatToString of the status, and the digits after the prefix read back as the status |
| `Api.SelectErrorMessage` | src/services/api.ts:36-51 | the reassigned errorMessage ends as ErrorMessage(status, body) |
| `Api.ErrorText` | src/services/api.ts:40 | error text is present only for a parsed body whose error field is that text, non-empty; a parsed non-empty error field always gives it |
| `Api.ErrorMessage` | src/services/api.ts:36-51 | the message is never empty, and it is the status message when the body has no usable error text |
| `Api.LoadingTakesPrecedence` | src/services/api.ts:41-44 | an error containing "currently loading" yields the loading message, even if it also contains "is not supported" |
| `Api.UnsupportedMessageFor` | src/services/api.ts:43-44 | an error containing "is not supported" but not "currently loading" yields the unsupported-model message |
| `Api.OtherErrorVerbatim` | src/services/api.ts:45-46 | any other non-empty error text is the message verbatim |
| `Api.NoErrorTextGivesStatus` | src/services/api.ts:36-51 | an unparsable body, a missing error field or an empty one gives the status message |
| `Api.StatusRecoverable` | src/services/api.ts:36 | the status can be read back from such a message |
| `Api.GenerateImage` | src/services/api.ts:15-65 | posts BuildRequestBody(p), whose inputs are the prompt and whose negative prompt is the given one or ""; succeeds exactly when the response is ok and returns its object URL; a non-ok response throws ErrorMessage; a rejection rethrows its message |

## Left out

- Pixel transforms are not modelled. This covers crop, resize, rotation with its bounding-box canvas, and flip. `editImage` is imported at src/components/ImageEditor.tsx:6 but is not defined in src/services/api.ts. It is an external call whose outcome is the `reply` argument.
- `isLoading` gating is not modelled. This includes disabled buttons while an edit is in flight and the interleaving of `await` continuations. Each handler is one atomic step; `isLoading` is only recorded as set and cleared.
- The editor's own tab bar (`activeTab` in ImageEditor.tsx) is not modelled. It only chooses which controls are shown.
- I/O in api.ts is not modelled. This covers `fetch`, `response.json()`, `response.blob()`, `URL.createObjectURL`, `toast` and `console`. Their outcome is the `Api.HttpReply` argument. The access token and the endpoint URL are not part of the model.
- Api.ErrorMessage: does not model a truthy `error` field that is not a string, such as a number or an array. On such a value `.includes` throws or searches array elements. The model treats `error` as an optional string.
- Api.OrInt: does not model NaN, which JavaScript `||` also treats as falsy. Numbers are integers, and the guidance scale is an exact real passed through.
- PromptInput.Form.SetGuidanceScale: the slider's 0.1 step and the floating-point guidance value are not modelled. The value is an opaque real.
- ImageEditor.EditSession.SetResizeWidth: the slider's step of 8 pixels is not modelled. Only its range 64..1024 is a precondition, as are the ranges of the other sliders.
- The toasts and `console.error` calls of the editor (src/components/ImageEditor.tsx:79, 82, 97, 102) and of the page (src/pages/Index.tsx:45-48) are not modelled. They are user notifications and logging, and change no state.
- `Date.now()` is not modelled; it becomes the `now` argument.
- The image display's download link (src/components/ImageDisplay.tsx) is not modelled. It is DOM manipulation.
- App.tsx is not part of this model. Its routing and its one-time read and removal of `redirectPath` are not modelled.
- Analytics and ad scripts are not modelled. They inject scripts into the document head.
- The static pages and presentational components are not part of this model. They render markup only.
