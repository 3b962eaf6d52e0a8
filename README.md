# Image uploader: the upload page controller

This project models the controller of the image uploader's upload page: the
`Home` component in `pages/index.tsx`. The page keeps seven pieces of state:

- `imageLink`, the shareable link;
- `track`, whether a drag is over the drop zone;
- `file`, the dropped file list;
- `uploading`, whether the overlay is shown;
- `uploadingPercentage`;
- `finalLink`, the stored image path;
- `status`, the `{type, str}` message.

A dropped file is checked against an image-type pattern and sent to
`/api/upload`. A 200 or 201 response sends a request for
`/api/image?id=<filename>`, and the answer to that request is stored as the
link. The file picker sends its first file without any check. Reset clears the
page, and the copy button writes the link to the clipboard when the browser
provides the clipboard API.

Files:

- `mime.dfy` (module `MimeFilter`): the type test. An unanchored, case-sensitive
  alternation of eleven literals is modelled as substring containment. It is
  proved equal to "one literal occurs at some index", and it is proved on
  concrete types.
- `progress.dfy` (module `Progress`): `Math.round(loaded * 100 / total)` in
  exact integers. It is characterised as round-half-up. It is proved unique,
  bounded in [0, 100] and monotone in `loaded`.
- `home.dfy` (module `UploadPage`): the class `Home`, which has the seven fields
  and one method per handler and callback. Two ghost outboxes record what is
  sent: `uploads` holds upload requests and `linkRequests` holds
  link-resolution URLs. Each method's postcondition gives the whole new state as
  the old state with the assigned fields replaced. Where a handler sets
  `status` twice, only the last value is kept.
- `scenarios.dfy` (module `Scenarios`): client methods that drive one session
  each and use only the handlers' contracts. They cover a PNG dropped twice on
  a fresh page (the first drop sends nothing, the second sends the PNG of the
  first, which then gets a link), a text file that is refused, failures of
  either request, reset twice, and a link that arrives after a reset.

Behaviour of the code worth noting (all in `pages/index.tsx`):

- The progress percentage is rounded to the nearest integer, halves up
  (`Math.round`, line 106).
- The drop site (lines 241-244) calls `setFile(files)` and then `onDropFunc()`.
  `onDropFunc` reads the `file` of the current render, so it validates the list
  from the previous drop. On a fresh page the first drop reports "Select only
  image to upload" and sends nothing. `Home.Drop` models this order.
- A picker event with no file list (lines 173-180) ends with status
  "Uploading file" and the overlay open. The "Select File to upload" error that
  is set first is overwritten.
- The picker (lines 170-182) performs no type check. An empty, non-null file
  list uploads the text "undefined", because `FormData.append` turns the
  missing `files[0]` into that text.
- A failed drop validation leaves the overlay open: `uploading` is set to true
  at line 144, before any check.
- For an accepted drop, the "Checking" status (line 146) is overwritten by
  "Sending file to server" (line 130).
- An upload response other than 200 or 201 (line 113) changes nothing.
- A list of several files uploads only its first file (lines 135 and 150).
- No handler checks which session a response belongs to. A link that arrives
  after a reset is still stored (`LateLinkAfterResetApplied`).
- Reset sets `file` to null (line 192), while the initial value is undefined
  (line 42). Both are falsy, so no handler behaves differently
  (`ResetStateActsInitial`).

## Model

| member | source | states |
|---|---|---|
| MimeFilter.ContainsIff | pages/index.tsx:143 | the left-to-right scan finds a literal exactly when it occurs at some index of the type |
| MimeFilter.ContainsAnyIff | pages/index.tsx:143 | the alternation succeeds exactly when one of its alternatives is contained |
| MimeFilter.IsImageTypeIff | pages/index.tsx:143-150 | a MIME type passes `fileTypes.test` iff one of the eleven literals occurs in it at some index |
| MimeFilter.ContainsInContext | pages/index.tsx:143 | containment is unanchored: a contained literal stays contained with any text around the string |
| MimeFilter.ImageTypeInContext | pages/index.tsx:143-150 | an accepted type stays accepted with any prefix or suffix |
| MimeFilter.MissingCharacterRefutes | pages/index.tsx:143 | a literal with a character absent from the type does not occur in it |
| MimeFilter.RejectedByMissingCharacters | pages/index.tsx:143-156 | a type that misses one character of each of the eleven literals is refused |
| MimeFilter.CommonImageTypesAccepted | pages/index.tsx:150 | "image/png", "image/jpeg" and "image/svg+xml" pass the test |
| MimeFilter.IconAcceptedBySubstring | pages/index.tsx:143-150 | "image/x-icon" passes, through the occurrence of "ico" at index 8 |
| MimeFilter.PlainTextRejected | pages/index.tsx:150-156 | "text/plain" fails the test |
| MimeFilter.HeicRejected | pages/index.tsx:143-156 | "image/heic" fails the test although it names an image type |
| MimeFilter.EmptyTypeRejected | pages/index.tsx:150-156 | an empty type fails the test |
| MimeFilter.UpperCaseRejected | pages/index.tsx:143-156 | the test is case-sensitive: "IMAGE/PNG" fails |
| Progress.RoundedPercent | pages/index.tsx:105-109 | for total > 0 the result r is the integer with r - 1/2 <= 100·loaded/total < r + 1/2; for total = 0 it is NaN when loaded = 0 and Infinity otherwise |
| Progress.RoundingIsUnique | pages/index.tsx:106-108 | the rounding condition determines the stored percentage uniquely |
| Progress.PercentInRange | pages/index.tsx:105-109 | with 0 <= loaded <= total and total > 0 the percentage is finite and in [0, 100] |
| Progress.PercentMonotone | pages/index.tsx:105-109 | for a fixed total, more bytes loaded never gives a smaller percentage |
| Progress.PercentAtEnds | pages/index.tsx:106-108 | nothing loaded gives 0 and everything loaded gives 100 |
| UploadPage.ResetStateActsInitial | pages/index.tsx:189-197 | the reset state equals the initial state except that `file` is null instead of undefined, and neither value is truthy |
| UploadPage.Home.constructor | pages/index.tsx:40-50 | a mounted component has every field at its `useState` default and has sent nothing |
| UploadPage.Home.SetFile | pages/index.tsx:242 | `setFile` replaces the file list and nothing else |
| UploadPage.Home.UploadFiles | pages/index.tsx:99-101 | one request is appended to the upload outbox; the state is unchanged |
| UploadPage.Home.CreateLink | pages/index.tsx:52-54 | one URL is appended to the link-request outbox; the state is unchanged |
| UploadPage.Home.FormDataFunc | pages/index.tsx:128-139 | opens the overlay with ("Uploading", "Sending file to server") and sends exactly one request carrying `file[0]` and a timestamp |
| UploadPage.Home.OnDropFunc | pages/index.tsx:142-164 | always sets `uploading`. With no file: ("Error", "Select only image to upload") and nothing sent. With a wrong type: ("Error", "Select only image") and nothing sent. With an image: the upload of the first file and ("Uploading", "Sending file to server"). An empty list throws with status "Checking" |
| UploadPage.Home.Drop | pages/index.tsx:241-244 | the drop site as written: the new state is what `OnDropFunc` gives for the `file` held before the drop, with `file` replaced by the dropped list; whether anything is sent depends only on the earlier `file` |
| UploadPage.Home.OnUploadProgress | pages/index.tsx:105-110 | the percentage becomes `RoundedPercent(loaded, total)`; nothing else changes |
| UploadPage.Home.OnUploadResult | pages/index.tsx:112-124 | on 200 or 201: exactly the URL "/api/image?id=" + filename is requested and the final status is ("Generating Link", "Creating a link for your image"); any other code changes nothing |
| UploadPage.Home.OnUploadError | pages/index.tsx:125 | only the status changes, to ("Error", "Cannot able to upload"); links are untouched |
| UploadPage.Home.OnLinkResult | pages/index.tsx:55-65 | `finalLink` = path, `imageLink` = copyPath, overlay closed, status ("", "") |
| UploadPage.Home.OnLinkError | pages/index.tsx:66-69 | only the status changes, to ("Error", "Cannot able to generate link") |
| UploadPage.Home.OnFileInput | pages/index.tsx:170-182 | always ends with the overlay open and ("Uploading", "Uploading file"). Null sends nothing. Any list sends its first entry without a timestamp, and an empty list sends the text "undefined" |
| UploadPage.Home.UploadStatus | pages/index.tsx:184-187 | sets `uploading` to the argument and clears the status |
| UploadPage.Home.ResetFunc | pages/index.tsx:189-197 | from any state, every field goes to its default (`file` to null) and nothing is sent, so applying it twice equals applying it once |
| UploadPage.Home.CopyToClipboard | pages/index.tsx:72-96 | success toast "Link copied" and the string written iff navigator, clipboard and writeText all exist; otherwise the warning toast and nothing written; the page state is unchanged |

## Left out

- Rendering: the JSX, the styled components, `FileDrop`, `next/image`, the theme
  context and `ToggleDarkMode` are presentational.
- `track` changes only in the drop zone's JSX callbacks (`onFrameDragEnter` and
  `onFrameDragLeave`). Those callbacks are rendering wiring, so only reset's
  assignment to `track` is modelled.
- `onTargetClickFunc` is left out. It only clicks a DOM element.
- The transport is left out: axios, the `FormData` object, multipart headers and
  promise scheduling. Each callback is a method that receives the server's
  result, and the requests are recorded in ghost outboxes.
- The timestamp's value is left out because it comes from the clock and is a
  floating-point number. The model records only whether a timestamp part was
  sent.
- The React render and closure semantics are not modelled in general. `Home.Drop`
  captures their one visible effect at the drop site: validation sees the
  earlier `file`. `OnDropFunc` on its own reads the `file` field as it stands.
- UploadPage.Home.OnDropFunc: the TypeError raised for an empty file list is
  reported as an out-parameter. The two state updates queued before it are
  taken to be applied.
- UploadPage.Home.OnUploadProgress: the model requires non-negative byte
  counts. An unknown `total` (which yields NaN) is not modelled, and neither is
  the floating-point rounding of the division.
- The clipboard write's promise is left out, and so are its possible rejection
  and the toast options.
- Logging is left out: the `console.log(err)` in `createLink`'s `.catch`
  (line 67, modelled by `OnLinkError`).
