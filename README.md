# BridgeTogether chat client: compose, submit and render

This project models the chat room of the BridgeTogether client
(`client/src/components/App.js`) and proves properties of that model.

- **The draft.** The signed-in user composes three parts: the text box, a
  finished voice recording and a chosen image.
- **The Send button.** It is enabled when any of the three parts is present.
- **Submitting.** A submit sends the parts one after the other:
  - the text, unless it trims to nothing;
  - then the recording: it is uploaded to the blob store under
    `<uid>/<ISO time>.wav` and its download URL is added as a voice message;
  - then the image, the same way under `<uid>/<ISO time>.jpg`.
- **When a call fails.** The first call that throws stops the submit. Each
  part is dropped from the draft only after its own message has been added.
- **Showing a message.** Each message sits on the "sent" or the "received"
  side and shows the author's photo or a stock avatar. It shows its text,
  audio or image when that field is truthy. Under the "Color-Blindness"
  preference the image is replaced by the result of a colour-blindness
  simulation service. The message asks that service for the simulation when
  it first renders under "Color-Blindness", and again each time the
  preference changes to "Color-Blindness".

Modules:

- `JsValues` (`js_values.dfy`): values that may be `null` or `undefined`,
  JavaScript truthiness of strings, and `String.prototype.trim`. Trim uses the
  WhiteSpace and LineTerminator sets of sections 12.2 and 12.3 of ECMA-262.
- `Records` (`chat_records.dfy`): the message documents, and the storage key of
  an attachment with the parser that reads the key back.
- `Compose` (`compose.dfy`):
  - the draft, the Send-button condition, and the submit as a specification
    function `Submit` over an environment `Env`;
  - the class `Compose.ChatRoom`, whose methods update the draft fields and
    append to the message collection and the list of storage writes. Each
    method is proved equal to the specification function.
- `Render` (`render.dfy`): how one message is rendered, and the state the
  message keeps between renders (the preference last rendered, the simulated
  image, the requests posted).
- `Conversation` (`conversation.dfy`): how the messages a submit adds look to
  their author.

The external services are not modelled; they are parameters:

- The blob store's `put` followed by `getDownloadURL` is one function from a
  key and bytes to an optional URL. `None` means one of the two calls threw.
- The message store's `add` is a predicate on the record that tells whether
  the call resolved.
- The clock's ISO-8601 readings for the two uploads are two strings.
- The simulation service's answer is a `TransformReply`.

Three behaviours of the code are easy to miss:

- After a submit that succeeds, the text box is cleared only when its text was
  sent. A text that trims to nothing stays in the box
  (`client/src/components/App.js:189-199`).
- When the simulation fails, the message does not fall back to the original
  image. It keeps showing whatever `responseImage` holds: no source at first,
  or the result of an earlier simulation (`client/src/components/App.js:264-278`
  and line 286).
- There is no cache of simulated images and no guard against a second
  request while one is in flight. Each change of the preference to
  "Color-Blindness" posts the image again (`client/src/components/App.js:255-259`).

## Model

| member | source | states |
|---|---|---|
| JsValues.TrimStartSuffix | client/src/components/App.js:189 | `trim` first drops the leading whitespace: what is left is a suffix that starts with a non-whitespace character, and every character dropped is whitespace |
| JsValues.TrimEndPrefix | client/src/components/App.js:189 | `trim` then drops the trailing whitespace: what is left is a prefix that ends with a non-whitespace character, and every character dropped is whitespace |
| JsValues.TrimBounds | client/src/components/App.js:189 | the trimmed text is no longer than the original and neither starts nor ends with whitespace |
| JsValues.BlankIffAllTrimmable | client/src/components/App.js:189 | `formValue.trim() !== ''` fails exactly when every character of the text is whitespace |
| Records.TextRecord | client/src/components/App.js:190-196 | the text message holds exactly one payload, the text as typed (untrimmed), with the author's uid, photo URL and the server-timestamp sentinel |
| Records.AttachmentRecord | client/src/components/App.js:146-151 | a voice or image message holds exactly one payload, the download URL in `audioURL` or `imageURL`, with the author's uid, photo URL and the server-timestamp sentinel |
| Records.StorageKey | client/src/components/App.js:139 | the key is the uid, a slash, the ISO time and `.wav` (or `.jpg`: line 167); it starts with `uid + "/"` and ends with the extension |
| Records.ParseStorageKeyRoundTrip | client/src/components/App.js:139 | for a uid without a slash, reading a key back gives the uid, the time and the kind it was built from |
| Records.ParseStorageKeySound | client/src/components/App.js:167 | a key that can be read back is exactly the key built from its parts, and its uid has no slash |
| Records.StorageKeyInjective | client/src/components/App.js:139 | two keys are equal only when uid, time and kind are equal, so an audio key and an image key never collide |
| Compose.SendEnabled | client/src/components/App.js:241 | the Send button is enabled when the text is non-empty (whitespace counts) or a recording or an image is pending; its properties are `SubmitActsOnlyWhenEnabled` and `WhitespaceEnablesSendYetSendsNothing` |
| Compose.TextStep | client/src/components/App.js:189-199 | the step succeeds iff the text is blank or the add of the text message succeeds; the one message added is exactly the text message with the text as typed, and one is added iff the text is not blank and the add succeeds; the box is cleared only after the add; a failed add keeps the draft unchanged; nothing is uploaded |
| Compose.UploadStep | client/src/components/App.js:138-151 | writes under the user's key for the kind; fails with an upload failure iff the upload gives no URL; succeeds iff the upload gives a URL and the add of the message holding that URL succeeds, and then adds exactly that message |
| Compose.VoiceStep | client/src/components/App.js:133-155 | writes under the user's `.wav` key; an upload failure iff the upload gives no URL; success iff the upload gives a URL and the add of the voice message holding that download URL succeeds, and then exactly that message is added; the recording is dropped only on success |
| Compose.ImageStep | client/src/components/App.js:162-183 | writes under the user's `.jpg` key; an upload failure iff the upload gives no URL; success iff the upload gives a URL and the add of the image message holding that download URL succeeds, and then exactly that message is added; the image is dropped only on success |
| Compose.Submit | client/src/components/App.js:185-208 | the submit: the text step, then the voice step if a recording was pending, then the image step if an image was pending, the first failure ending it; its properties are the `Compose` lemmas below and `Compose.ChatRoom.SendMessage` is proved equal to it |
| Compose.ChatRoom.constructor | client/src/components/App.js:95-98 | the room opens with an empty text box, no recording, no image, and the existing messages |
| Compose.ChatRoom.SetFormValue | client/src/components/App.js:224 | typing replaces the text and changes nothing else |
| Compose.ChatRoom.OnRecordingComplete | client/src/components/App.js:100-102 | a finished recording becomes the pending recording and nothing else changes |
| Compose.ChatRoom.HandleImageChange | client/src/components/App.js:157-160 | the chosen file, or none, becomes the pending image and nothing else changes |
| Compose.ChatRoom.SendVoiceMessage | client/src/components/App.js:133-155 | the new draft, failure, messages and storage writes are those of the voice step on the old draft |
| Compose.ChatRoom.HandleImageUpload | client/src/components/App.js:162-183 | the new draft, failure, messages and storage writes are those of the image step on the old draft |
| Compose.ChatRoom.SendMessage | client/src/components/App.js:185-208 | the new draft, outcome, message collection and storage writes are those of `Submit` on the old draft; the collections only grow |
| Compose.BlankDraftSendsNothing | client/src/components/App.js:189-206 | blank text and no attachment: nothing is added or uploaded and the draft is left as it was |
| Compose.SubmitActsOnlyWhenEnabled | client/src/components/App.js:241 | nothing is added or uploaded unless the Send button was enabled |
| Compose.WhitespaceEnablesSendYetSendsNothing | client/src/components/App.js:241 | every draft whose text is non-empty but blank, with no attachment, enables Send, yet submitting it sends nothing, uploads nothing and leaves the draft as it was (the submit checks `trim`, line 189) |
| Compose.WhitespaceIsBlank | client/src/components/App.js:189 | such drafts exist: a space, a tab and a newline trim to nothing and enable Send |
| Compose.SubmitAppendsInFixedOrder | client/src/components/App.js:185-208 | at most three messages, each with exactly one payload and the author's uid, photo and timestamp sentinel, the text as typed, in strict order text, voice, image |
| Compose.SubmitSendsOnlyPresentParts | client/src/components/App.js:189-206 | a text message only for non-blank text, a voice message only for a pending recording, an image message only for a pending image |
| Compose.FullDraftSendsThree | client/src/components/App.js:185-208 | a full draft with every call succeeding gives exactly the text, voice and image messages, the two storage writes, and an empty draft |
| Compose.SentClearsDraft | client/src/components/App.js:185-208 | after a submit that raised nothing, the recording and image are gone, the box is empty unless its text was blank, and there is one message per part present |
| Compose.FailureKeepsPendingParts | client/src/components/App.js:185-208 | after a failure, only messages of earlier stages were added (and how many); the failing stage's part and later parts stay in the draft; earlier parts are cleared |
| Compose.AudioUploadFailure | client/src/components/App.js:138-143 | the audio upload throwing after a successful text send leaves the text message added, the box empty, the recording kept and no image message |
| Compose.RetryDoesNotResend | client/src/components/App.js:185-208 | a retry after a failure only adds messages of the failing stage or later, and the first attempt only added messages of earlier stages, so no part is sent twice |
| Compose.UploadsScopedToUser | client/src/components/App.js:133-183 | storage writes are none, the audio key, the image key, or both in that order; each only when its part was pending; each reads back to the user's uid |
| Render.MessageClass | client/src/components/App.js:253 | `sent` exactly for the viewer's own messages, `received` exactly for the others |
| Render.AvatarSrc | client/src/components/App.js:283 | the author's photo URL when truthy, otherwise the stock avatar; never empty |
| Render.DisplayedImages | client/src/components/App.js:286-287 | a message with an image shows exactly one image element: the simulated image under "Color-Blindness", the original otherwise; no element without an image |
| Render.RenderMessage | client/src/components/App.js:281-289 | a paragraph exactly when the text is truthy, an audio player exactly when the audio URL is truthy |
| Render.ShouldRequestTransform | client/src/components/App.js:256 | a simulation is wanted when the image URL is truthy and the preference is "Color-Blindness"; its properties are `MountRequestsIff` and `RerenderRequestsIff` |
| Render.RunEffect | client/src/components/App.js:255-279 | the effect after a render: post the image when a simulation is wanted; a reply sets the simulated image, a failure leaves it; its properties are `MountRequestsIff` and `RerenderRequestsIff` |
| Render.Mount | client/src/components/App.js:252-259 | the first render: no simulated image yet, and the effect runs; its properties are `MountRequestsIff`, `FailedTransformShowsNoSource` and `StaleSimulationAfterFailedRetry` |
| Render.Rerender | client/src/components/App.js:255-259 | a later render: the effect runs again only when the preference differs from the last render's; its properties are `RerenderRequestsIff` and `NoTransformCache` |
| Render.MountRequestsIff | client/src/components/App.js:252-279 | the first render posts the image iff it has an image and the preference is "Color-Blindness", and then posts exactly that image; the simulated image is the reply's if one came, none otherwise |
| Render.RerenderRequestsIff | client/src/components/App.js:255-279 | a render posts the image iff the preference changed to "Color-Blindness" and the message has an image, and it posts exactly that image; a reply replaces the simulated image, a failure or no post leaves it; without a post only the preference changes |
| Render.NoTransformCache | client/src/components/App.js:255-259 | switching away from "Color-Blindness" and back posts the image again |
| Render.OriginalShownOffColorBlindness | client/src/components/App.js:287 | off "Color-Blindness" the original image is shown, whatever simulated image is held |
| Render.FailedTransformShowsNoSource | client/src/components/App.js:264-278 | a simulation that fails on the first render leaves an image element with no source, not the original image |
| Render.StaleSimulationAfterFailedRetry | client/src/components/App.js:252-278 | after one simulation succeeds, switching away and back with a failing second request shows the first result again |
| Conversation.OwnMessagesRenderAsSent | client/src/components/App.js:249-289 | every message a submit adds is shown to its author on the "sent" side, with the author's avatar, as exactly one content element (given non-empty download URLs) |

## Left out

- Firebase initialisation, sign-in and sign-out (`App.js:12-23`, `69-87`): these are configuration and identity-provider calls. The signed-in user is a parameter.
- The live query of the message collection, ordered by `createdAt` (`App.js:91-93`): ordering happens on the store's side. The model keeps this client's own appends in order and leaves `createdAt` as the server-timestamp sentinel.
- The preference menu and its `localStorage` write (`App.js:30-59`): the preference is a parameter of rendering. The menu's "Blindness" option also yields the value "Color-Blindness" (line 54).
- The recorder widget and its start/stop toggle (`App.js:96`, `228-237`): a finished recording enters the model via `Compose.ChatRoom.OnRecordingComplete`.
- The local previews, `console` output and `scrollIntoView` (`App.js:104-131`, `154`, `182`, `198`, `216-218`): they are display effects with no state of the model.
- The HTTP request to the simulation service (`App.js:261-279`): it is an abstract `TransformReply`. A thrown `fetch`, an error status and a reply body that does not parse are all `RequestFailed`.
- Asynchronous interleaving: each submit and each render effect runs to completion. Edits to the draft while a submit is suspended, overlapping submits and late simulation replies are not modelled.
- Storage `put` and `getDownloadURL` are one failure point, because the app handles neither failure, so a throw from either ends the submit the same way. The model records the storage write whether or not it got through.
- JavaScript strings are UTF-16. The model's strings are sequences of Unicode scalar values, and `trim` is modelled on code points.
- `new Date().toISOString()` is the clock: the model takes its two readings as parameters and does not model their format.
- Render.RenderMessage: says how many paragraphs and audio players are shown, and `DisplayedImages` says which image is shown; the markup, `alt` text and styles are not modelled.
