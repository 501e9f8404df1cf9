# Support ticket form: a verified model

This project models the logic of the support ticket form
(`src/SupportTicketForm.jsx`). The form collects a ticket for a store: the
store name, a contact (name, phone, e-mail) and one entry per affected screen
(location name, issue, free-text detail for the issue "Other", optional
photo). On submit it creates one ticket item on the item service. Then, for
every screen in order, it creates a subitem under that item and, when the
screen has a photo, uploads the photo into the new subitem before moving on.
The first error stops the submission. Only a submission that went through
every screen marks the ticket submitted.

Modules:

- `Wrappers`: `Option` (JavaScript `undefined`/`null`) and `Result` (a value
  or a thrown error).
- `JsText`: the JavaScript string operations the form relies on:
  `String.prototype.trim`, `Array.prototype.join`, and `String(n)` for
  integers.
- `Json`: a parsed response body; property reads `x.key` and `x?.key`;
  truthiness; conversion to a string.
- `TicketDraft`: a screen entry and the pure edits the handlers apply to the
  screen list. `Draft` is the snapshot a submission reads.
- `RemoteClient`: the three requests (create the ticket item, create a
  subitem, upload a photo) and how each is built. How each response is
  classified as an id or as a thrown error (`Failure`, with `Message` giving
  the thrown text). `RemoteService` is the item service as an oracle: it logs
  every request and answers the request sent at position `t` with reply `t`
  of a fixed feed (`Lost` once the feed is spent).
- `Submission`: `handleSubmit` as a function of the draft and the reply feed.
  `SubmitRun` gives the requests sent, in order, and the error that ended the
  run. The lemmas state its ordering and fail-fast rules.
- `TicketForm`: the component as a class. It has one field per state cell,
  the setters and handlers as methods, and `HandleSubmit`. `HandleSubmit`
  runs the screen loop as a `while` loop against the service. It is proved to
  send exactly the requests of `SubmitRun` and to end as `SubmitRun` says.

What the code does, and the model with it:

- The only check before sending is the store-name guard; no other field is
  validated.
- Photo uploads are sequential and interleaved with subitem creation: each
  screen's photo is uploaded right after its subitem is created.
- `ticketSubmitted` is set only after every upload has succeeded.
- The ticket item has no store-code column.
- A failed submission clears nothing; the draft stays as it was.

## Model

| member | source | states |
|---|---|---|
| TicketForm.SupportTicketForm.constructor | src/SupportTicketForm.jsx:36-48 | The form opens with one empty screen entry, empty contact fields, both flags false and the store name pre-filled from `client`; the screen invariant holds |
| TicketDraft.Prefill | src/SupportTicketForm.jsx:46-48 | The pre-filled store name is empty exactly when `client` is empty, and is otherwise `client` followed by " Test" |
| TicketForm.SupportTicketForm.SetStoreName | src/SupportTicketForm.jsx:36 | The store name becomes the typed value; nothing else changes |
| TicketForm.SupportTicketForm.SetMultipleScreens | src/SupportTicketForm.jsx:37 | The multiple-screens flag becomes the checkbox value; nothing else changes |
| TicketForm.SupportTicketForm.SetContactName | src/SupportTicketForm.jsx:41 | The contact name becomes the typed value; nothing else changes |
| TicketForm.SupportTicketForm.SetContactNumber | src/SupportTicketForm.jsx:42 | The contact number becomes the typed value; nothing else changes |
| TicketForm.SupportTicketForm.SetContactEmail | src/SupportTicketForm.jsx:43 | The contact e-mail becomes the typed value; nothing else changes |
| TicketDraft.ChangeField | src/SupportTicketForm.jsx:52-55 | The edited field takes the new value and the photo is kept; choosing an issue other than "Other" clears the detail; every other field is kept |
| TicketDraft.ChangeKeepsDetailOnlyForOther | src/SupportTicketForm.jsx:53-55 | An entry with no detail under a non-"Other" issue keeps that property under every edit the form offers (the detail box only while "Other" is selected, lines 335-346) |
| TicketDraft.ChangeIdempotent | src/SupportTicketForm.jsx:50-57 | Repeating an edit gives the same entry |
| TicketDraft.LeavingOtherDropsDetail | src/SupportTicketForm.jsx:53-55 | Switching to another issue and back to "Other" loses the detail text |
| TicketForm.SupportTicketForm.HandleScreenChange | src/SupportTicketForm.jsx:50-57 | Only screen `index` changes, as `ChangeField` says; the count and the other entries stay; the screen invariant is kept for the edits the form offers |
| TicketForm.SupportTicketForm.HandlePhotoChange | src/SupportTicketForm.jsx:59-63 | Only the photo of screen `index` changes; the count and the other entries stay; the screen invariant is kept |
| TicketForm.SupportTicketForm.AddScreen | src/SupportTicketForm.jsx:65-70 | Exactly one empty entry is appended at the end; the existing entries are kept in order; the screen invariant is kept |
| TicketDraft.Without | src/SupportTicketForm.jsx:73 | Filtering out an existing position shortens the list by one; a position matching no entry leaves the list as it is |
| TicketDraft.WithoutIsSplice | src/SupportTicketForm.jsx:73 | Filtering out position `index` is the list before it followed by the list after it: relative order is kept |
| TicketDraft.RemoveKeepsAScreen | src/SupportTicketForm.jsx:301-305 | With the Remove button only shown for more than one entry, removal never empties the list |
| TicketForm.SupportTicketForm.RemoveScreen | src/SupportTicketForm.jsx:72-74 | The list loses exactly entry `index`, with the order of the rest kept; from more than one entry, the screen invariant is kept |
| TicketForm.SupportTicketForm.HandleResetForm | src/SupportTicketForm.jsx:224-232 | Every state cell is back to its opening value, with the store name pre-filled as on opening |
| JsText.TrimStartSuffix | src/SupportTicketForm.jsx:77 | Trimming the start leaves the longest suffix that does not start with white space; what it drops is all white space |
| JsText.TrimEndPrefix | src/SupportTicketForm.jsx:77 | Trimming the end leaves the longest prefix that does not end with white space; what it drops is all white space |
| JsText.TrimEmptyIff | src/SupportTicketForm.jsx:77 | `trim()` gives "" exactly when every character is white space |
| JsText.TrimIdempotent | src/SupportTicketForm.jsx:77 | Trimming twice is trimming once |
| RemoteClient.BlankIffWhiteSpace | src/SupportTicketForm.jsx:77-79 | The store-name guard rejects exactly the names made only of white space, the empty name included |
| RemoteClient.MainItemRequest | src/SupportTicketForm.jsx:76-103 | A blank store name throws before any request; otherwise the ticket item goes to the fixed board under the store name |
| RemoteClient.MainItemColumns | src/SupportTicketForm.jsx:81-88 | The ticket item carries exactly the e-mail (address and text both the contact e-mail), phone and contact-name columns, in that order |
| RemoteClient.SubitemNamed | src/SupportTicketForm.jsx:148 | A subitem is never nameless: the screen name, or "Unnamed Screen" when that is empty |
| RemoteClient.SubitemColumns | src/SupportTicketForm.jsx:131-137 | The issue column always carries the description; the detail column is added, with the detail text, exactly when the issue is "Other" |
| RemoteClient.UploadRequest | src/SupportTicketForm.jsx:178-191 | No file means no request; a file is uploaded into the given subitem's photo column |
| JsText.Join | src/SupportTicketForm.jsx:117 | Joining no parts gives ""; joining one part gives that part |
| JsText.JoinSnoc | src/SupportTicketForm.jsx:117 | Adding a last part puts one separator between the previous join and it |
| RemoteClient.JoinedMessages | src/SupportTicketForm.jsx:117 | The joined messages of an empty list are ""; of one entry, that entry's message |
| RemoteClient.JoinedMessagesOfStrings | src/SupportTicketForm.jsx:117 | For entries `{ message: s }` (`MessageEntries`) the joined text is the strings joined with "; " in order |
| RemoteClient.BatchFailure | src/SupportTicketForm.jsx:113-118 | A truthy `errors` throws the batch error under the call's action, carrying the messages joined with "; ", exactly when it is a list of non-null entries whose messages `join` can write (missing, null, or convertible to text); any other truthy `errors` makes `map`, `e.message` or `join` throw a TypeError |
| RemoteClient.MessageText | src/SupportTicketForm.jsx:117 | `join` writes a missing or null message as "" and a string message as itself |
| Json.ToJsString | src/SupportTicketForm.jsx:110 | Text conversion for `+` and template literals, defined only for values that can be turned into text (`Stringifiable`: no object with its own `toString` member, at any depth of a list): a string is itself, null "null", booleans "true"/"false", an integer its decimal digits, at least one and without a leading zero, after a "-" when negative, that read back as the number; a plain object "[object Object]", an empty list "" |
| Json.NumberText | src/SupportTicketForm.jsx:126 | `String(n)` of an integer is at least one decimal digit with no leading zero, after a "-" exactly when it is negative, and the digits read back as the number |
| Json.SingletonArrayString | src/SupportTicketForm.jsx:110 | A one-element list converts as its element, and as "" when that element is null |
| RemoteClient.Message | src/SupportTicketForm.jsx:108-124 | Every error the form throws itself has a message; a rejection's message is "<action> failed: " followed by the text built when it was thrown; TypeErrors and transport errors carry none of the form's text (messages at lines 78, 110, 115-118, 123, 158, 163-166, 171, 197-199) |
| RemoteClient.ClassifyCreateCases | src/SupportTicketForm.jsx:105-127 | The checks run in order: no readable body is a transport error; a null body a TypeError; a truthy `error` throws the rejection carrying it as text, or a TypeError when it cannot be turned into text (an object with its own `toString` member); then a truthy `errors` throws the batch error; with neither, a missing or falsy `data.<key>.id` throws the missing-id error for that key; a truthy id that cannot be turned into text for the log line is a TypeError; success exactly when all checks pass, and the id is returned (the same checks at lines 153-175) |
| RemoteClient.StringErrorMessage | src/SupportTicketForm.jsx:108-111 | A non-empty string `error` fails the create call with the message "<action> failed: " followed by that string (the same at lines 156-159) |
| RemoteClient.BatchMessages | src/SupportTicketForm.jsx:113-118 | An `errors` list of entries `{ message: s }` fails a create call, and an upload (lines 195-199), with "<action> failed: " followed by the strings joined with "; " in order (the same at lines 161-166) |
| RemoteClient.CreateFailureLabels | src/SupportTicketForm.jsx:108-124 | A create check's rejection message starts with its own action followed by " failed: ", and its missing-id error names its own key |
| RemoteClient.UploadFailureLabels | src/SupportTicketForm.jsx:193-201 | The upload check fails only through `errors`, a TypeError or the transport, and its rejection message starts with "File upload failed: " |
| RemoteClient.OutcomeMessages | src/SupportTicketForm.jsx:108-199 | Each call's rejection message starts with its own prefix: "Create main item failed: " (lines 110, 116), "Subitem creation failed: " (lines 158, 164), "File upload failed: " (line 198); a missing id reads "No item ID returned from create_item mutation" or "... create_subitem mutation" (lines 123, 171) |
| RemoteClient.ErrorCheckedFirst | src/SupportTicketForm.jsx:108-111 | A truthy `error` fails the call whatever else the body holds: with the rejection, or a TypeError when it cannot be turned into text |
| RemoteClient.IdReplyAccepted | src/SupportTicketForm.jsx:121-127 | A body holding only a truthy id under the expected key yields that id when it can be turned into text, and a TypeError otherwise |
| RemoteClient.EmptyErrorListFails | src/SupportTicketForm.jsx:113-118 | An empty `errors` list is truthy: the call fails with nothing after "<action> failed: " |
| RemoteClient.ClassifyUploadCases | src/SupportTicketForm.jsx:193-201 | No readable body is a transport error; a null body is a TypeError (`result.errors` on null, line 195); an answered upload with a non-null body fails only on a truthy `errors`, with the batch error under "File upload", and otherwise the body is handed back |
| RemoteClient.RemoteService.Send | src/SupportTicketForm.jsx:93-105 | Each request is logged once, at the end, and gets the reply at its position in the feed |
| JsText.NatToDecimal | src/SupportTicketForm.jsx:110 | `String(n)` of a non-negative integer is a non-empty string of decimal digits without a leading zero |
| JsText.DecimalRoundTrip | src/SupportTicketForm.jsx:110 | Reading back the digits `String(n)` writes gives `n` |
| Json.Member | src/SupportTicketForm.jsx:121 | A property read yields a value exactly when the value is an object holding the key, and then it is that member |
| Json.FalsyValues | src/SupportTicketForm.jsx:108 | Exactly `undefined`, `null`, `false`, `0` and `""` are falsy |
| TicketForm.SupportTicketForm.CreateMainItem | src/SupportTicketForm.jsx:76-128 | A blank store name fails with nothing sent; otherwise exactly the ticket-item request is sent, and the result is its reply as the checks classify it; a returned id can be turned into text |
| TicketForm.SupportTicketForm.CreateSubitem | src/SupportTicketForm.jsx:130-176 | For a `parentId` that can be turned into text (line 139 writes it into a log line before the request), exactly the screen's subitem request is sent under it, and the result is its reply as the checks classify it; a returned id can be turned into text |
| TicketForm.SupportTicketForm.UploadPhoto | src/SupportTicketForm.jsx:178-202 | Without a file nothing is sent and it succeeds; with one, whose `subitemId` can be turned into text (line 186 writes it into the URL), exactly the upload is sent and the result is its reply as the upload check classifies it |
| Submission.ScreenRun | src/SupportTicketForm.jsx:210-213 | Under a parent id that can be turned into text, one screen's turn sends its subitem request first and at most one upload; a finished turn sends the upload exactly when the screen has a photo; the upload goes into the id the subitem reply returned |
| TicketForm.SupportTicketForm.SubmitScreen | src/SupportTicketForm.jsx:210-213 | The requests sent and the error returned are those of `ScreenRun` at the current feed position |
| Submission.CostBounds | src/SupportTicketForm.jsx:209-214 | Every screen of a successful loop costs at least one request and at most two |
| Submission.CostSplit | src/SupportTicketForm.jsx:209-214 | The requests of consecutive screen ranges follow each other with no gap or overlap |
| Submission.ScreensRun | src/SupportTicketForm.jsx:209-214 | The loop sends no more requests than a fully successful loop; a finished loop sends exactly that many; a failed loop sent something |
| TicketForm.SupportTicketForm.ScreenTurn | src/SupportTicketForm.jsx:209-214 | One loop turn moves the requests of screen `i` from what is left of the loop's run to what has been sent; a failing turn ends the run |
| TicketForm.SupportTicketForm.SubmitScreens | src/SupportTicketForm.jsx:209-214 | The loop sends exactly the requests of `ScreensRun`, in order, and returns its error |
| Submission.SubmitRun | src/SupportTicketForm.jsx:204-222 | A submission sends nothing exactly when the store name is blank, and then fails with that error; otherwise its first request is the ticket item; a finished submission sends one request per screen plus one per photo, plus the ticket item |
| Submission.ScreensCreateNoItem | src/SupportTicketForm.jsx:209-214 | The screen loop never creates another ticket item |
| Submission.SubmitOneItem | src/SupportTicketForm.jsx:207-214 | Exactly one ticket item is created per submission, and it is the first request |
| Submission.ScreenFailsFast | src/SupportTicketForm.jsx:210-213 | Within one screen's turn, a request is sent only after the previous one got a good reply, and a failed turn failed on its last reply |
| Submission.ScreensFailFast | src/SupportTicketForm.jsx:209-214 | The same for the whole loop: the first error stops all later requests |
| Submission.SubmitFailFast | src/SupportTicketForm.jsx:204-222 | A submission finishes exactly when it sent something and every reply was good; otherwise no request follows the failing one, and the error returned is that reply's |
| Submission.ScreensLayoutHead | src/SupportTicketForm.jsx:209-213 | The loop's first screen has its subitem request first, and its upload, when sent, right after it, into the returned subitem id |
| Submission.ScreensLayoutStep | src/SupportTicketForm.jsx:209-214 | A loop that gets past a screen went through that screen's turn in full; the rest of the loop is the loop from the next screen on |
| Submission.ThroughCost | src/SupportTicketForm.jsx:209-214 | Screens that each finish send as many requests as a successful loop over them |
| Submission.ScreensSkip | src/SupportTicketForm.jsx:209-214 | A loop that reaches screen `m` is the turns of the screens before it followed by the loop from screen `m` on |
| Submission.ScreensLayout | src/SupportTicketForm.jsx:209-214 | Screens are handled in list order: screen `m`'s subitem request sits right after all requests of the screens before it, and its photo upload right after it |
| Submission.SubmitLayout | src/SupportTicketForm.jsx:204-214 | The ticket item comes first and succeeded; screen `m`'s subitem is created under the id its reply returned, at its place in list order, with its upload right after it |
| Submission.SubmitReachesEveryScreen | src/SupportTicketForm.jsx:209-216 | A finished submission reached every screen's subitem and, for a screen with a photo, its upload |
| Submission.SingleScreenNoPhoto | src/SupportTicketForm.jsx:204-216 | One screen with no photo and two replies with truthy ids: exactly one ticket item, one subitem, no upload, and the submission finishes; an item id that cannot be turned into text stops it after the ticket item, a subitem id that cannot stops it after the subitem |
| TicketForm.SupportTicketForm.HandleSubmit | src/SupportTicketForm.jsx:204-222 | The requests sent and the error caught are exactly those of `SubmitRun` on the form's state; `ticketSubmitted` becomes true when the run finishes and is left as it was when it fails |

The screen loop's functions, lemmas and methods take a parent id that can be
turned into text (`Stringifiable`), as `createSubitem` demands at line 139.
Every id the create checks return is one, because line 126 has already
logged it.

The screen invariant in the rows above is `SupportTicketForm.Consistent()`.
It says the list has at least one entry and no entry has detail text under
an issue other than "Other".

## Left out

- The rendering: JSX, Chakra props, the submitted/unsubmitted view switch,
  `handleClosePortal` (`navigate(-1)`, `window.close`). Also
  `src/LandingPage.jsx` and `src/App.jsx`. These are presentation and routing.
- `fetch`, `FormData`, `response.json()` and the endpoints are the
  `RemoteService` oracle. `Lost` covers a rejected fetch and a body that is
  not JSON. The URL, headers and body encoding are not modelled.
- The async suspension. The pipeline is strictly sequential, so it is a plain
  loop. Re-entrant submits while one is in flight are not modelled.
- `console.log`, `console.error` and `alert` are output only.
- `e.preventDefault()` is a browser call with no effect on the state modelled.
- `multipleScreens` is only set and reset. It only shows or hides the Add
  button (line 364), so `AddScreen` does not require it.
- Browser attribute validation (`isRequired`, `type="email"`) is not in the
  code's logic.
- The `client` query parameter (line 34) is the constructor's argument. The
  pre-fill runs in an effect after the first render; the model starts from
  the state after it.
- The handlers copy the screen array but mutate the entry object in place
  (lines 51-52, 60-61), so the old array and the new one share that entry.
  Screen entries are values here, so this aliasing is not modelled.
- TicketForm.SupportTicketForm.HandleSubmit: edits made while a submission is
  in flight are not modelled. The loop (lines 210-214) walks the array it
  captured at submit time, one awaited request at a time. Between awaits a
  field or photo edit changes that array's entries in place (lines 52, 61), so
  a later screen could be sent with the edited values. The model sends the
  entries as they were when the submission started.
- Json.ToJsString: a list of more than one element is not stated beyond
  its being text; only the empty and one-element lists are.
- Json.NumberText: numbers are integers of any size. The model stops matching
  JavaScript where JavaScript numbers are doubles: `JSON.parse` rounds
  integers beyond 2^53, and `String(n)` writes exponent form from 1e21 on
  (`"1e+21"`). The `NumberText`, `NatToDecimal` and `DecimalRoundTrip` rows
  hold only below those magnitudes. Fractions are not modelled.
- Message: the texts of the TypeError and transport errors come from the
  JavaScript engine and are not modelled (`None`).
- A subitem request is recorded by its parent id and screen entry.
  `SubitemName` and `SubitemColumnValues` give the `itemName` and
  `columnValues` it sends.
- The upload's `item_id` is sent as `${subitemId}` in the URL. The model
  keeps the id value itself.
