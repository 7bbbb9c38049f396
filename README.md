# Package tracker core, modelled in Dafny

The repository is a single-page browser script (`script.js`) that lets a user
type a shipment tracking number, sends it to the AfterShip tracking API, and
keeps a newest-first list of tracked packages in `localStorage`. This project
models the logic under the page wiring:

- **Validation** (`validation.dfy`): `validateTrackingNumber` — ECMAScript
  `String.prototype.trim` over the exact WhiteSpace and LineTerminator
  character set, then the anchored pattern `^[A-Za-z0-9]{8,}$`.
- **Packages** (`packages.dfy`): the saved list as a value — the `some` test
  and the `filter` removal, newest-first insertion, and the invariant "at most
  one record per tracking number".
- **Store** (`store.dfy`): the `localStorage` slot `aftership_packages` as a
  class `PackageStore` with `getSavedPackages`, `savePackages`, `addPackage`,
  `removePackage` and the first-run seeding of `window.onload`. The stored
  text is abstracted to what `JSON.parse` makes of it: a serialized array, a
  falsy JSON value such as `null`, the empty string, or malformed text.
- **Tracking** (`tracking.dfy`): the part of `fetchTrackingInfo` after the
  request — which responses are fatal, the status precedence (`tag`, then the
  last checkpoint's `tag`, then `"Unknown"`), the `lastUpdate` fallback to the
  current time (a parameter), and the collapse of every failure into one error.
- **Controller** (`controller.dfy`): `trackBtn.onclick` as a class
  `TrackerView` over the input text, the button's disabled flag, the loading
  indicator, the message area and the store. The service's reply is a
  parameter; the method returns the number it requested, or `None` when it
  made no request.

Points where the code behaves differently from what a quick reading suggests, modelled as the code does it:

- `window.onload` seeds when `localStorage.getItem` returns a falsy value,
  which is a missing key **or** a stored empty string; a stored `"[]"` is not
  reseeded (`SeedOnFirstLoad`).
- On invalid input the handler returns before touching `trackBtn.disabled`
  and the loading indicator, so they keep whatever they were; `Submit` states
  exactly that. Only the paths that make a request end with the button
  enabled (a browser delivers no click to a disabled button, so in practice
  the button is enabled on every path).
- The handler trims the input and `validateTrackingNumber` trims it again;
  `ValidateTrimmed` shows the double trim gives the same verdict.

## Model

| member | source | states |
|---|---|---|
| Validation.IsTrimmable | script.js:70 | the characters `trim` removes (ECMAScript WhiteSpace and LineTerminator); none of them is an ASCII letter or digit |
| Validation.IsAsciiAlnum | script.js:70 | the regex class `[A-Za-z0-9]`: ASCII letters and digits only, so every accepted character is below 128 |
| Validation.LeadingSpace | script.js:70 | the left end of `trim`: every character before the index is whitespace and the one at it is not |
| Validation.TrailingSpaceStart | script.js:70 | the right end of `trim`: every character from the index on is whitespace and the one before it is not |
| Validation.LeadingSpaceAt | script.js:70 | the left trim point is unique: any index with only whitespace before it and a non-whitespace character at it is that point |
| Validation.TrailingSpaceStartAt | script.js:70 | the right trim point is unique in the same sense |
| Validation.Trim | script.js:70 | `num.trim()`: the span starting where the leading whitespace ends, with only whitespace after it and non-whitespace at both of its ends |
| Validation.TrimIsSpan | script.js:70 | `trim` returns exactly the span between the leading and trailing whitespace, whose ends are not whitespace |
| Validation.TrimIdempotent | script.js:70 | trimming a trimmed string changes nothing |
| Validation.SpanShift | script.js:70 | whitespace added around a string keeps its trim span, shifted by the left padding |
| Validation.TrimIgnoresPadding | script.js:70 | whitespace added on either side does not change the trimmed string |
| Validation.AlnumPrefixLength | script.js:70 | how far the greedy `[A-Za-z0-9]` repetition advances: all characters before it match the class, the one at it does not |
| Validation.MatchesTrackingPattern | script.js:70 | `/^[A-Za-z0-9]{8,}$/.test(t)` holds iff `t` has at least 8 characters, all ASCII letters or digits |
| Validation.ValidateTrackingNumber | script.js:68-71 | `validateTrackingNumber(num)` holds iff `num.trim()` has at least 8 characters, all ASCII letters or digits |
| Validation.ValidateMeaning | script.js:68-71 | the validator accepts exactly the strings of the form whitespace, at least 8 ASCII letters or digits, whitespace (both directions, stated without `trim`) |
| Validation.ValidateIgnoresPadding | script.js:68-71 | leading or trailing whitespace never changes the verdict |
| Validation.ValidateTrimmed | script.js:179-180 | validating the trimmed input gives the same verdict as validating the raw input |
| Validation.ShortInputRejected | script.js:68-71 | the five-character input `short` is rejected |
| Validation.BareCodeAccepted | script.js:68-71 | at least 8 ASCII letters or digits with no whitespace are accepted |
| Packages.Unique | script.js:114-121 | the saved list holds at most one record per number, i.e. no record's number occurs again further down |
| Packages.ContainsNumber | script.js:116 | `some` is true iff some record in the list has the number |
| Packages.WithoutNumber | script.js:125 | `filter` keeps only records with another number, and keeps every one of them |
| Packages.Inserted | script.js:116-117 | after `addPackage`'s list update the number is saved, the list grew by at most one and the old list is its unchanged tail |
| Packages.InsertedFresh | script.js:116-117 | adding a record with a new number puts it first, keeps the old records in order, and grows the list by one |
| Packages.InsertedExisting | script.js:116 | adding a record whose number is saved leaves the list unchanged, whatever its status |
| Packages.InsertedIdempotent | script.js:114-121 | adding the same record twice equals adding it once |
| Packages.InsertedNumbers | script.js:114-121 | after adding, the saved numbers are the old ones plus the new one |
| Packages.InsertedPreservesUnique | script.js:114-121 | adding keeps at most one record per number |
| Packages.NewestFirst | script.js:117 | adding P1 then P2 to an empty list gives `[P2, P1]` |
| Packages.WithoutAbsentNumber | script.js:123-126 | removing a number that is not saved leaves the list as it was |
| Packages.WithoutNumberAppend | script.js:125 | removal distributes over concatenation, so surviving records keep their relative order |
| Packages.WithoutNumberDeletesOne | script.js:123-126 | on a list with one record per number, removal deletes exactly the record with that number and keeps the rest in order |
| Packages.WithoutNumberPreservesUnique | script.js:123-126 | removal keeps at most one record per number |
| Packages.WithoutNumberIdempotent | script.js:125 | removing twice equals removing once |
| Packages.RemoveUndoesAdd | script.js:114-128 | adding a record with a new number then removing that number restores the list; so remove(add([], P)) is empty |
| Store.JsonParse | script.js:76 | `JSON.parse(localStorage.getItem(...))` throws exactly for the empty string and malformed text, gives null or another falsy value (`false`, `0`, `""`) for a missing key or falsy JSON, and gives the stored array otherwise |
| Store.SamplePackages | script.js:206-209 | the two seed records, with distinct numbers |
| Store.PackageStore.SavedPackages | script.js:74-80 | loading never fails: a stored array loads as itself, and a missing, falsy, empty or unparsable value loads as the empty list |
| Store.PackageStore.SavePackages | script.js:82-84 | saving overwrites the slot, and loading gives the saved list back |
| Store.PackageStore.AddPackage | script.js:114-121 | a saved number leaves the slot untouched; a new one is written in front of the old list; uniqueness is preserved |
| Store.PackageStore.RemovePackage | script.js:123-128 | the filtered list is always written back; the number is gone; an absent number leaves the list as it was; uniqueness is preserved |
| Store.PackageStore.SeedOnFirstLoad | script.js:205-211 | the two samples are written exactly when the key is missing or holds the empty string; any other stored value is kept |
| Tracking.IsOk | script.js:146 | `response.ok`; an OK status is never 400, so 400 is a separate accepted case |
| Tracking.Truthy | script.js:157-158 | JavaScript truthiness of an optional string: true exactly when it is present and not the empty string |
| Tracking.Or | script.js:157-158 | JavaScript's `a \|\| b` on strings: `a` when present and non-empty, else `b`; non-empty whenever `b` is |
| Tracking.LastCheckpointTag | script.js:157 | the tag of the last checkpoint, or nothing when the history is missing or empty |
| Tracking.Normalise | script.js:154-159 | the record keeps the echoed number; status is `tag`, else the last checkpoint's tag, else `"Unknown"` (empty strings count as absent), so never empty; `lastUpdate` is `updated_at` or the current time |
| Tracking.StatusSource | script.js:157 | the status always comes from the payload's tags or is `"Unknown"` |
| Tracking.FetchTrackingInfo | script.js:136-162 | success iff a response arrived whose status is 2xx or 400 and which carries a tracking object; then the result is its normalised record; every other case is the one error `FetchFailed` |
| Controller.TrackerView.Submit | script.js:177-200 | invalid input: invalid-input message, no request, nothing else changes; valid input: the trimmed number is requested, on success the record goes through `addPackage` and the input is cleared, on failure the fetch-error message shows and store and input are unchanged; the button ends enabled and loading hidden after any request; uniqueness of the store is preserved |
| Controller.TrackerView.Track | script.js:184-199 | the request block: on success the record is added through `addPackage`, the success message shows and the input is cleared; on failure the fetch-error message shows and store and input are unchanged; in both cases the button ends enabled and the loading indicator hidden |

## Left out

- Page rendering and element lookups: `setLanguage`, `showMessage` colours, `clearMessage` beyond resetting the message, `renderSavedPackages`, the onboarding screen toggle and input focus. They only write to the page.
- The translation tables and the current language: messages are modelled by which message is shown (`MessageText`), not by their text. Both tables define the same nine keys.
- The remove button inside each rendered item only calls `removePackage`, which is modelled.
- The request itself: URL, headers, API key, request body, `async`/`await` and `console.log`. The service's reply enters as a `FetchOutcome` parameter, and the current time as a string parameter.
- `JSON.parse`/`JSON.stringify` and `localStorage` internals: the stored text is one of the four `Blob` cases. A stored JSON value that is truthy but not an array of records (an object, a number) is not modelled; the page would throw on it when adding, removing or rendering.
- Tracking.FetchTrackingInfo: a tracking object without `tracking_number` is not modelled (the number is always a string), nor are non-string tags or null checkpoint entries.
- Validation.ValidateTrackingNumber: the `typeof num === "string"` test always holds here, since the input is typed as a string. Strings are sequences of Unicode scalar values rather than UTF-16 code units; no character that trim or the pattern cares about is affected.
- Controller.TrackerView.Track: a failure while saving is not modelled. In the page, `addPackage` runs inside the same `try` as the request, so if writing to `localStorage` throws (quota exceeded, storage disabled), or the stored value is truthy but not an array, the fetch-error message shows and the input is kept. The model's store cannot fail, so its success path always shows the success message and clears the input. Store.PackageStore.SavePackages and Store.PackageStore.AddPackage likewise never fail.
- Controller.TrackerView.Submit: runs to completion in one step. Events that could interleave while the request is pending (a remove click, the timer below) are not modelled, and the label opacity is folded into `loading`.
- The five-second timer set in `window.onload` that re-enables the button: timer and event-loop behaviour.
