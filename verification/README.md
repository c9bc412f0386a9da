# Rich-text editor core: colour toggle, generation controller, fetch-error normaliser

This Dafny project models the three pieces of logic in the rich-text editor
that are not presentational:

- **The colour-picker button** (`ColorPickerButton`, module `ColorPicker`). The
  button is bound to one formatting command (`"foreColor"`, `"backColor"`, ...) and
  owns `selectedColor`. A click on a swatch either clears the selection and calls
  `onFormat(command, undefined)`, or selects the clicked colour and calls
  `onFormat(command, color)`. The class `Picker` holds the selection. Ghost logs
  record the clicks and the calls made to the sink. Its invariant ties both
  to the pure replay functions `Replay` and `Emissions`. The lemmas about
  those functions give the history laws: one emission per click, the toggle,
  and the round trip.
- **The generation controller** (`useOpenAI`, module `Generation`). It keeps
  `loading`, `error` and `data` around one awaited call to the text-generation
  provider. `generate` is split at its only `await` into `Begin` (set
  `loading`, clear `error` and `data`) and `Settle` (store the text or the
  normalised error, clear `loading`, return or raise the same value).
  `Generate` runs both in turn. The pure functions `SettlementOf`, `Begun`
  and `Settled` specify the methods and carry the lemmas.
- **The fetch-error normaliser** (`handleFetchError`, module `FetchErrors`). It
  is total and maps any caught value to `{ error: string }`, with a dedicated
  message for the fetch API's connectivity failure. The server action's outcome
  mapping (module `OpenAIService`) is modelled too, with the SDK call left
  abstract. So the end-to-end lemmas can follow an SDK failure to the
  controller's stored error.

A caught JavaScript value is `Thrown`: either `ThrownError(message)` (an
`Error`) or `ThrownOther`. JavaScript's `null`/`undefined` is `Option.None`.

Behaviour of the code worth noting:

- The hook's state is the three fields `loading`, `error` and `data`.
- An error response's message is replaced by the fallback when it is empty,
  not only when it is absent, because the hook uses `||`.
- The connectivity message is produced by the service's normaliser, not by
  the controller. A rejection of the provider call itself with
  `Error("fetch failed")` is stored verbatim by the controller
  (`SettlementOf`, third clause about rejections).
- `Settle` has no precondition: like the source, it writes only the field of
  its outcome. Exactly one of `data` and `error` is set only after a
  `generate` call that no other call overlaps (`GenerateSettles`,
  `Controller.Generate`). `OverlappingSettlementsMix` shows that two
  overlapping calls, one ending with a text and one with an error, leave both
  fields set in either settlement order.

## Model

| member | source | states |
|---|---|---|
| `ColorPicker.Toggle` | src/components/RichTextEditor/ColorPickerButton.tsx:47-55 | the selection after a click is cleared exactly when the clicked colour was the selected one; otherwise it is the clicked colour, with no intermediate clear |
| `ColorPicker.Emissions` | src/components/RichTextEditor/ColorPickerButton.tsx:47-55 | a sequence of clicks produces exactly one sink call per click, each for the bound command unchanged |
| `ColorPicker.ReplayAppend` | src/components/RichTextEditor/ColorPickerButton.tsx:47-55 | a further click toggles the selection that the earlier clicks left |
| `ColorPicker.EmissionsAppend` | src/components/RichTextEditor/ColorPickerButton.tsx:47-55 | a further click appends exactly one emission, carrying the new selection |
| `ColorPicker.EmittedValueIsSelection` | src/components/RichTextEditor/ColorPickerButton.tsx:48-54 | the value emitted for each click is present exactly when a colour is selected after that click, and then equals it |
| `ColorPicker.SelectionFromClicks` | src/components/RichTextEditor/ColorPickerButton.tsx:47-55 | the selection is always the starting one, nothing, or the argument of some earlier click |
| `ColorPicker.SelectionInPalette` | src/components/RichTextEditor/ColorPickerButton.tsx:79-87 | when clicks come only from the palette, starting from mount, the selection is nothing or a palette colour |
| `ColorPicker.ClickTwice` | src/components/RichTextEditor/ColorPickerButton.tsx:47-55 | clicking X twice from any selection other than X emits (command, X) then (command, undefined) and ends with nothing selected |
| `ColorPicker.RoundTrip` | src/components/RichTextEditor/ColorPickerButton.tsx:47-55 | from mount, a double click on one colour sends (command, colour) then (command, undefined) and returns to the initial selection |
| `ColorPicker.ForeColorScenario` | src/components/RichTextEditor/ColorPickerButton.tsx:47-55 | red, red, green on a "foreColor" button emits red, undefined, green and leaves green selected |
| `ColorPicker.Picker.constructor` | src/components/RichTextEditor/ColorPickerButton.tsx:38 | on mount nothing is selected and nothing is emitted |
| `ColorPicker.Picker.Click` | src/components/RichTextEditor/ColorPickerButton.tsx:47-55 | clicking the selected colour clears it and emits (command, undefined); any other palette colour is selected and emitted; exactly one emission; the selection stays in the palette |
| `FetchErrors.HandleFetchError` | src/lib/utils.ts:8-24 | total; "fetch failed" becomes the connectivity message, any other Error message is kept verbatim, a non-Error gets the generic message; the result is never the raw "fetch failed" |
| `FetchErrors.KeepsMessageUnlessConnectivity` | src/lib/utils.ts:9-18 | an Error's message comes back unchanged exactly when it is not "fetch failed"; the connectivity case never returns its input message |
| `OpenAIService.GetAIResponse` | src/service/openai.ts:11-23 | the service never rejects: a response becomes its text (empty when absent), a throw becomes an error object carrying the normalised message |
| `Generation.ResponseError` | src/hooks/useOpenAI.ts:51 | an error response's message is kept when non-empty; an empty or absent one becomes the OpenAI fallback; the message is never empty |
| `Generation.SettlementOf` | src/hooks/useOpenAI.ts:44-57 | `generate` returns exactly when the provider resolves to text, and returns that text; an error response raises its message or the fallback; a rejecting Error is raised unchanged; a non-Error becomes "Error inesperado" |
| `Generation.Begun` | src/hooks/useOpenAI.ts:39-41 | starting a generation sets loading and clears error and data, whatever the state before |
| `Generation.Settled` | src/hooks/useOpenAI.ts:46-60 | settlement clears loading on both paths and stores the returned text as data or the raised error as error, leaving the other field alone |
| `Generation.GenerateSettles` | src/hooks/useOpenAI.ts:38-61 | after a whole call, loading is off and exactly one of data and error is set, holding what was returned or raised |
| `Generation.SdkFailureStoredMessage` | src/service/openai.ts:19-21 | an SDK throw ends as a stored error whose message is the normalised message (the fallback if that is empty), never "fetch failed", with no data |
| `Generation.ConnectivityFailureStored` | src/lib/utils.ts:10-13 | an SDK throw of Error("fetch failed") ends as the stored error "Error al conectar con el servidor" |
| `Generation.SdkResponseStored` | src/service/openai.ts:18 | an SDK response ends with its text (empty when absent) as data and as the return value, and no error |
| `Generation.OverlappingSettlementsMix` | src/hooks/useOpenAI.ts:38-61 | settlement carries no request token: two overlapping calls, one ending with a text and one with an error, leave both a text and an error stored, in either settlement order |
| `Generation.Controller.constructor` | src/hooks/useOpenAI.ts:23-29 | initially loading is false, error and data are null |
| `Generation.Controller.Begin` | src/hooks/useOpenAI.ts:39-41 | loading is true and error and data are cleared before the provider is awaited |
| `Generation.Controller.Settle` | src/hooks/useOpenAI.ts:46-60 | the caller gets the settlement that `SettlementOf` gives; the new state is `Settled` of the old one; loading is false |
| `Generation.Controller.Generate` | src/hooks/useOpenAI.ts:38-61 | a non-overlapped call returns or raises per `SettlementOf`, ends not loading, and stores exactly one of data and error: the returned text or the same error that was raised |

## Left out

- Rendering: the popover, the swatches, the trigger button's border and the `cn` class strings (ColorPickerButton.tsx:57-94). `cn` wraps clsx and tailwind-merge, which are not part of this model.
- The sink `onFormat` is not called. Its calls are recorded in the ghost log `Picker.emitted`. Its own effect on the document is outside the button.
- React scheduling (`useState` batching, re-renders, `useCallback` memoisation). State is modelled as plain fields written in program order.
- The OpenAI SDK call, the client singleton, the API key and `console.error` (src/service/openai.ts:6-16, 20). The SDK call is a parameter (`SdkOutcome`).
- Overlapping `generate` calls are not modelled as interleavings. `OverlappingSettlementsMix` composes `Begun` and `Settled` for both settlement orders of two calls.
- JavaScript `instanceof` and object identity of errors. Error kinds are a datatype and an error is known by its message, so "the same Error is stored and rethrown" is stated as equal values.
- `Generation.Controller.Settle` models the time after the provider has settled. A provider that never settles leaves `loading` set, which the model shows only as the state after `Begin`.
- `ColorPicker.Picker.Click` requires the clicked colour to be in the palette. The only callers are the swatch handlers (ColorPickerButton.tsx:87). The palette is a constant of the button, so a palette change between renders is not modelled.
- The AI trigger button (AIGenerateButton.tsx) and the page and layout files hold no logic beyond binding `loading`, and are not part of this model.
