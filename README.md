# Fingerprint capture and registration component, modelled in Dafny

This project models the `ProspectRegistration` React component of
`app/UI/finger-print.tsx`. The component lets an operator capture a
fingerprint from a SecuGen scanner through a local relay and attach the
capture to a prospect registration. The component keeps six pieces of
state:

- `formData`: the four form fields;
- `fingerprintData`: the stored capture, or null;
- `isListening`;
- `scannerStatus`;
- `fingerprintImage`: the data URL of the captured BMP, or null;
- `scanningMessage`.

Its handlers probe the scanner, start and stop listening, run the
listening loop, clear the capture, edit the form and submit it.

Layout:

- `wrappers.dfy`: the `Option` datatype. `None` stands for `undefined` and `null`.
- `scanner_reply.dfy`: a scanner reply as the loop sees it after `fetch` and the XML parser (`TransportError | NotOk | Ok(errorCode, template, image)`), and its classification by the exact `ErrorCode` text: `"0"`, `"30"`/`"31"`, or anything else, including a missing tag.
- `registration_state.dfy`: the six slots as a `State` value, the component invariant `Valid`, and one transition function per handler. Each function's contract says which slots change, to what, and that the rest stay equal.
- `listening.dfy`: the loop as a function over a reply sequence: `Listen` gives the final state and `RequestCount` the number of capture requests sent. `AfterStartListening` is `startListening` as written, with the loop guard its render captured, and `AfterStartListeningLive` is the corrected handler with a live guard. The file also holds the lemmas about where the loop stops and what it records, and the stale-guard finding.
- `component.dfy`: class `ProspectRegistration`, with one field per slot and one method per handler. Each method has `modifies this` and is proved to leave `Snapshot()` equal to the matching transition function. `ListenForFingerprint` is a `while` loop with `break`/`continue` branches. It is proved against `Listen`. A delay counter placed after the whole `match`, where the source awaits the 500 ms delay, is proved to stay 0.

Network results are method parameters. `HttpResult` stands for the status probe and the registration post. A sequence of `Reply` values stands for the scanner answers the loop would receive. Timestamps (`new Date().toISOString()`) are string parameters.

The component reads only the `ErrorCode`, `TemplateBase64` and `BMPBase64` elements of an XML reply. It has no error-code message table, no attempt limit and no single-shot mode. The loop's guard `while (isListening)` is evaluated again after every retry, but it is the constant of the render that created the handler, so `stopListening` can never end a running loop. The 500 ms delay after the try/catch is never reached, because every branch of the loop body breaks or continues.

## Model

| member | source | states |
|---|---|---|
| `ScannerReply.Classify` | app/UI/finger-print.tsx:93-144 | An ok reply is captured exactly when `ErrorCode` is `"0"`, carrying that reply's template and image. It is a retry exactly when the code is `"30"` or `"31"`. It is a scanner error exactly for any other value, a missing tag included. A non-ok status or a thrown fetch is a connection error. |
| `RegistrationState.WithField` | app/UI/finger-print.tsx:162-167 | The named form field takes the new value and the other three keep theirs. |
| `RegistrationState.AfterProbe` | app/UI/finger-print.tsx:25-53 | An ok answer sets the status to "Connected". A non-ok answer or a thrown request sets it to "WebAPI Client Not Running". Nothing else changes, and the invariant is kept. |
| `RegistrationState.AfterStart` | app/UI/finger-print.tsx:55-65 | If the status is not "Connected", nothing changes. Otherwise listening turns on with "Place your finger on the scanner...", and only those two slots change. |
| `RegistrationState.AfterStop` | app/UI/finger-print.tsx:70-73 | Listening is off and the message is "". Only those two slots change. |
| `RegistrationState.AfterClear` | app/UI/finger-print.tsx:169-173 | The capture and the image become null and the message becomes "". Only those three slots change. |
| `RegistrationState.AfterInput` | app/UI/finger-print.tsx:162-167 | Only the named field of `formData` changes. No other slot changes. |
| `RegistrationState.AfterReply` | app/UI/finger-print.tsx:93-144 | On a success reply the capture holds exactly that reply's template, image and timestamp. Listening goes off and the message is "Fingerprint captured successfully!". The image slot becomes the `data:image/bmp;base64,` URL only for a non-empty image and is left alone otherwise. On a 30/31 reply only the message changes, to "Waiting for finger placement...". On any other code, listening goes off with "Scanner error. Please try again.". On a non-ok or thrown request, listening goes off with "Connection error. Please check scanner.". In these last three cases the capture is untouched. |
| `RegistrationState.SubmitPayload` | app/UI/finger-print.tsx:178-187 | A payload is sent exactly when a capture is stored. It holds the four form fields, that capture and the given registration time. |
| `RegistrationState.AfterSubmit` | app/UI/finger-print.tsx:175-217 | With no capture, or after a failed or thrown post, the state is unchanged. After an ok post the form is reset to empty strings and the capture, image and message are cleared. Nothing else changes. |
| `RegistrationState.SubmitOnce` | app/UI/finger-print.tsx:198-209 | After a successful registration a second submit sends nothing. |
| `Listening.FirstDecisive` | app/UI/finger-print.tsx:125-128 | The index of the first reply that is not 30/31, or the length when there is none. Every earlier reply is a retry. |
| `Listening.DecisiveOverwritesMessage` | app/UI/finger-print.tsx:101-144 | A reply that ends the loop yields the same state whatever message earlier retries left. |
| `Listening.ListenOutcome` | app/UI/finger-print.tsx:76-148 | With the guard true, the loop ends in exactly the state the first non-30/31 reply produces on its own. If there is no such reply, only the waiting message remains. It sends one request per reply up to and including that one. |
| `Listening.ListenStopsListening` | app/UI/finger-print.tsx:119-143 | With the guard true, a run that meets any reply other than 30/31 ends with listening off. |
| `Listening.ListenRecordsFirstCapture` | app/UI/finger-print.tsx:101-124 | With the guard true, the stored capture is that of the first decisive reply exactly when its code is "0". Otherwise the stored capture is unchanged. |
| `Listening.ListenGuardFalse` | app/UI/finger-print.tsx:76 | With a false guard the loop sends no request and changes nothing. |
| `Listening.ListenPreservesValid` | app/UI/finger-print.tsx:76-148 | The loop keeps the component invariant for any guard and any replies. |
| `Listening.StartListeningNeverPolls` | app/UI/finger-print.tsx:55-76 | Started from a render with listening off (the only one that shows the start button), the loop sends nothing. The handler's only effect is the synchronous prompt. |
| `Listening.StaleGuardMissesCapture` | app/UI/finger-print.tsx:63-76 | A concrete run: the scanner is connected and would answer "0". As written, nothing is captured and listening stays on. With a live guard the capture is stored. |
| `Listening.StartListeningLiveCaptures` | app/UI/finger-print.tsx:55-148 | With a live guard, a connected start polls until the first non-30/31 reply and ends with listening off. It stores that reply's capture with the success message when the code is "0" and leaves the capture alone otherwise. It is still listening only when every reply was a retry. |
| `Component.ProspectRegistration.constructor` | app/UI/finger-print.tsx:6-23 | The initial values of the six state hooks, which satisfy the invariant. |
| `Component.ProspectRegistration.CheckWebApiStatus` | app/UI/finger-print.tsx:25-53 | Moves the state as `AfterProbe` says. Returns true exactly for an ok answer, that is, exactly when the status is now "Connected". |
| `Component.ProspectRegistration.StartListening` | app/UI/finger-print.tsx:55-68 | Moves the state as `AfterStartListening` says. The loop guard is the `isListening` value the handler's render captured. Returns the number of requests sent. |
| `Component.ProspectRegistration.StopListening` | app/UI/finger-print.tsx:70-73 | Moves the state as `AfterStop` says. |
| `Component.ProspectRegistration.ListenForFingerprint` | app/UI/finger-print.tsx:75-149 | For any fixed guard and replies, the loop with its break/continue branches leaves the state that `Listen` gives and sends `RequestCount` requests. It never reaches the 500 ms delay: the delay count is 0. |
| `Component.ProspectRegistration.ClearFingerprint` | app/UI/finger-print.tsx:169-173 | Moves the state as `AfterClear` says. |
| `Component.ProspectRegistration.HandleInputChange` | app/UI/finger-print.tsx:162-167 | Moves the state as `AfterInput` says. |
| `Component.ProspectRegistration.HandleSubmit` | app/UI/finger-print.tsx:175-217 | Posts exactly `SubmitPayload`, or nothing without a capture. Moves the state as `AfterSubmit` says. |

## Left out

- `app/api/scanner/route.ts`, the HTTPS relay, is not part of this model. It is transport plumbing over axios and a Node HTTPS agent. Its failures reach the component as a non-ok status, which is `NotOk`.
- `app/page.tsx` (page layout), the JSX rendering and the CSS classes are not modelled.
- `alert` and `console.error` are operator notices and logging. The handlers that call them are modelled without them.
- `fetch`, `URLSearchParams` and `DOMParser` are foreign calls. Their combined result is the `Reply` and `HttpResult` datatypes. The request bodies (status timeout 1000, listening timeout 30000, `AutoOn`) are not modelled.
- A failure of `response.text()` is caught by the same `catch`, so it is folded into `TransportError`.
- `new Date().toISOString()` is a clock. Its values are string parameters.
- The `setTimeout` that clears the success message after 3 s is asynchronous scheduling. In the model the message stays "Fingerprint captured successfully!".
- The 500 ms delay is asynchronous scheduling. It is modelled only as a counter, which is proved to stay 0.
- The two React effects (probe on mount, stop on unmount) are lifecycle scheduling. Their bodies are the modelled `CheckWebApiStatus` and a write of `isListening := false`.
- Interleaving of handlers with a running loop is not modelled: the loop runs as one method call. With the guard as written no loop body runs, so `stopListening` cannot meet a running loop.
- `Component.ProspectRegistration.CheckWebApiStatus` and `Component.ProspectRegistration.HandleSubmit` each model an `await`ed request and the state update after it as one atomic step. Events while a request is pending are not modelled. In the source, a second click on the submit button while the first post is pending posts a second payload, because the button is disabled only while `fingerprintData` is null. So `RegistrationState.SubmitOnce` holds only after the first post has been answered ok.
- The reply sequence is finite. The source loops for as long as the scanner answers 30/31. The model also stops when the replies run out, with listening still on.
- `handleInputChange` with an input name other than the four form fields would add a new key to `formData` in the source. `Field` covers only the four inputs the form renders.
- The stored `template` and `image` are `undefined` when the tag is missing, although the declared type says `string | null`. Both absences are `None`.

## Findings

| source | as written | input that shows it | evidently intended | confidence | as-written member | corrected member |
|---|---|---|---|---|---|---|
| app/UI/finger-print.tsx:76 | `while (isListening)` reads the `isListening` constant of the render in which `startListening` was created. That render shows the start button only while `isListening` is false, and `setIsListening(true)` does not change the constant. So the loop body never runs and no capture request is sent. | Scanner "Connected", listening off, the scanner would answer `ErrorCode` "0" with template "T" and image "I". As written, `fingerprintData` stays null and `isListening` stays true. | The loop polls while listening: it stops at the first reply other than 30/31 and stores the capture of a "0" reply. | high; not executed | `Listening.StaleGuardMissesCapture` | `Listening.StartListeningLiveCaptures` |

`Listening.AfterStartListening` models `startListening` as written. `Component.ProspectRegistration.StartListening` follows it, because the class models the code as it stands. `Listening.AfterStartListeningLive` is the corrected handler. Its guard is always true. The loop lemmas `ListenOutcome`, `ListenStopsListening` and `ListenRecordsFirstCapture` are stated for this live guard. `Component.ProspectRegistration.ListenForFingerprint` is proved for every guard value, so with the guard true it is the corrected loop.
