# Booking list and booking form, modelled in Dafny

This project models the two pieces of sequential logic in a small React
client for a flight-booking service:

- **The paged booking list** (`src/components/List.jsx`). It holds the
  bookings loaded so far, a `loading` flag, a `hasMore` flag and an
  `initialFetchDone` flag. It is driven by two pieces of parent state from
  `src/components/App.jsx`: the page cursor `pageNum` and the new-booking
  reset signal `sFetch`. Here all six live in one class, `BookingList.Lists`.
  Its methods are proved to follow pure step functions over a `ListState`
  value. A page fetch is split in two: `Begin`/`FetchData` is the guard and
  `setLoading(true)`, and `Complete`/`FetchSettled` is what happens when the
  request settles, with either `Success(page)` or `Failure`, ending in the
  `finally`. `ListRuns` runs sequences of events (scrolls, effects,
  settlements, deletes, signal changes) through the step functions and
  proves properties that span several steps.
- **The booking form** (`src/components/Form.jsx`). It has a pure
  validator, `validateForm`, that builds an error map in which later checks
  overwrite earlier ones; a single-field update, `handleChange`; and the
  submit step. `JsText` gives the JavaScript string operations the
  validator uses: `trim`, `/\d/` and `<` on strings.

The network calls are not modelled. A page request is an outcome passed in
as a parameter. A delete is a flag saying whether its request was delivered.
The POST of a new booking is returned as the form data that would be sent.

The code has no guard against a stale response. A request still in flight
when the list is reset settles into the new, empty list.
`ListRuns.StalePageSurvivesReset` proves this for a delete, the
initial-fetch effect and the old page, in that order. In that run the
initial-fetch effect marks page 0 as fetched although the `loading` guard
skipped the request. `ListRuns.InitialFetchNotRepeated` proves that after
this, no run without another reset ever requests page 0.

The code also has no fallback title for an unknown airport id, and neither
does the model. `CheckAirport` returns
`Throws` where the source's `airports[-1].title` raises a TypeError.

## Model

| member | source | states |
|---|---|---|
| BookingList.Begin | src/components/List.jsx:19-22 | no request and no change while loading or exhausted; otherwise requests the given page and sets `loading`, changing nothing else |
| BookingList.Complete | src/components/List.jsx:27-38 | `loading` is false afterwards; an empty page clears `hasMore` and keeps the list; a non-empty page is appended after the old list in received order and keeps `hasMore`; a failure keeps list and `hasMore`; nothing else changes |
| BookingList.WithPageNum | src/components/App.jsx:21-23 | sets the cursor and nothing else |
| BookingList.WithSFetch | src/components/App.jsx:27-30 | sets the reset signal and nothing else |
| BookingList.NearBottom | src/components/List.jsx:46-48 | near the bottom exactly when at most 10 pixels are left to scroll below the visible part |
| BookingList.Scroll | src/components/List.jsx:42-53 | the cursor rises by exactly one iff a container exists, it is near the bottom (`scrollHeight - scrollTop <= clientHeight + 10`), nothing is loading and more pages exist; otherwise and in every other field nothing changes |
| BookingList.PageEffect | src/components/List.jsx:56-60 | at cursor 0 nothing happens; a request goes out iff the cursor is positive and the fetch guard passes, and it is for the cursor's page; a request sets `loading`, and a skipped fetch changes nothing |
| BookingList.InitialEffect | src/components/List.jsx:63-68 | does nothing once the flag is set; otherwise sets the flag, and requests page 0 iff the fetch guard passes; a request sets `loading`, a skipped one leaves it |
| BookingList.Reset | src/components/List.jsx:100-103 | empties the list, sets `hasMore`, rewinds the cursor to 0 and clears `initialFetchDone`, whatever the prior contents; `loading` and the signal are kept |
| BookingList.Remove | src/components/List.jsx:95-104 | resets after a delivered delete; a rejected delete throws before the reset, so nothing changes |
| BookingList.SignalEffect | src/components/List.jsx:107-114 | resets exactly when the signal is raised |
| BookingList.FindIndex | src/components/List.jsx:87-89 | the index of the first airport with the id, or -1 exactly when none has it |
| BookingList.CheckAirport | src/components/List.jsx:85-92 | absent airports give `NotLoaded`; a present list without the id gives `Throws`; otherwise the title of the first airport with that id |
| BookingList.Lists.constructor | src/components/List.jsx:10-16 | the mounted state: empty list, idle, more pages, no initial fetch, cursor 0, signal lowered |
| BookingList.Lists.FetchData | src/components/List.jsx:19-22 | follows `Begin` and returns the requested page, if any |
| BookingList.Lists.FetchSettled | src/components/List.jsx:29-38 | follows `Complete` |
| BookingList.Lists.ChangePageNum | src/components/App.jsx:21-23 | follows `WithPageNum` |
| BookingList.Lists.ChangeSFetch | src/components/App.jsx:27-30 | follows `WithSFetch` |
| BookingList.Lists.HandleScroll | src/components/List.jsx:42-53 | follows `Scroll` |
| BookingList.Lists.PageNumEffect | src/components/List.jsx:56-60 | follows `PageEffect`, by calling `FetchData` |
| BookingList.Lists.InitialFetchEffect | src/components/List.jsx:63-68 | follows `InitialEffect`, by calling `FetchData` |
| BookingList.Lists.HandleRemove | src/components/List.jsx:95-104 | follows `Remove` |
| BookingList.Lists.ResetSignalEffect | src/components/List.jsx:107-114 | follows `SignalEffect` |
| ListRuns.InFlightAccounting | src/components/List.jsx:19-38 | over any run in which requests settle only while one is in flight, requests issued plus the one in flight at the start equal settlements plus the one in flight at the end |
| ListRuns.AtMostOneInFlightFromMount | src/components/List.jsx:20-22 | from mount, requests issued are at least the settlements and at most one more |
| ListRuns.ExhaustedUntilReset | src/components/List.jsx:20-30 | once an empty page closed the list, no event short of a delivered delete or the signal effect issues a request, changes the list or reopens it |
| ListRuns.ScrollingAppendsInOrder | src/components/List.jsx:19-60 | scrolling near the bottom through non-empty pages appends them in order, requests pages cursor+1, cursor+2, ... one each, and keeps `hasMore` |
| ListRuns.ScrollingGrowsByTotalSize | src/components/List.jsx:29-32 | after scrolling through non-empty pages, the list's length is its old length plus the sum of the page sizes |
| ListRuns.DoubleScrollSkipsPage | src/components/List.jsx:42-60 | in the model, two near-bottom scroll events before the cursor effect runs advance the cursor twice, and only the second page is requested (see "Left out" for how the source differs) |
| ListRuns.InitialFetchNotRepeated | src/components/List.jsx:56-68 | once the initial-fetch flag is set, no run without a delete or the signal effect requests page 0, and the flag stays set |
| ListRuns.EmptyPageExhausts | src/components/List.jsx:29-30 | a scroll cycle whose page is empty closes the list and leaves its contents unchanged |
| ListRuns.TwentyTwentyEmpty | src/components/List.jsx:19-68 | from mount, pages of 20, 20 and 0 records give 40 bookings in order, `hasMore` false, and requests for pages 0, 1 and 2 |
| ListRuns.StalePageSurvivesReset | src/components/List.jsx:95-104 | a delete while a request is in flight, the initial-fetch effect, then the old request's page: that page becomes the whole list, and no request is issued for the new page 0 |
| JsText.TrimStartDropsWhitespace | src/components/Form.jsx:80 | `trim`'s leading pass keeps a suffix and drops only whitespace |
| JsText.TrimEndDropsWhitespace | src/components/Form.jsx:80 | `trim`'s trailing pass keeps a prefix and drops only whitespace |
| JsText.TrimEmptyIffAllWhitespace | src/components/Form.jsx:80 | `trim` returns the empty string exactly when every character is JavaScript whitespace |
| JsText.IsBlank | src/components/Form.jsx:80 | `!s.trim()` holds exactly when every character is JavaScript whitespace |
| JsText.DigitNotBlank | src/components/Form.jsx:80-86 | a string matching `/\d/` is never blank |
| JsText.StringLessIsLexicographic | src/components/Form.jsx:104 | string `<` is the lexicographic order: a proper prefix, or a common prefix then a smaller character |
| JsText.StringLessTrichotomy | src/components/Form.jsx:104 | exactly one of `a < b`, `a == b`, `b < a` |
| BookingForm.WithField | src/components/Form.jsx:24-30 | the named field takes the new value and every other field is unchanged |
| BookingForm.ValidateForm | src/components/Form.jsx:77-113 | only the keys `firstName`, `lastName`, `departure`, `dates`; each name key is present iff the name is blank or has a digit, with the digit message winning; `departure` iff the ids are equal or either is empty, with the missing-airport message winning; `dates` iff departure is after return as strings or either is blank, with "Please select dates" winning |
| BookingForm.NoErrorsIffValid | src/components/Form.jsx:77-113 | the error map is empty exactly when all four checks pass |
| BookingForm.BlankNameMessages | src/components/Form.jsx:80-94 | a blank name always gets the "Please enter ..." message |
| BookingForm.Form.constructor | src/components/Form.jsx:11-33 | six empty fields, no errors, no thank-you message |
| BookingForm.Form.HandleChange | src/components/Form.jsx:24-30 | the form data becomes `WithField` of the old data; errors and the thank-you flag are unchanged |
| BookingForm.Form.HandleSubmit | src/components/Form.jsx:38-74 | errors become the validator's result; when they are empty and both dates convert to ISO strings, the old data is posted, the list's cursor goes to 0, the reset signal is raised, the form is cleared and thanked; when there are errors or a conversion throws, form, flag and list are unchanged |

## Left out

- The HTTP requests, their URLs, the auth token and JSON parsing. A page request is a `PageOutcome` parameter, a delete is a delivered flag, and the airport fetch of `App.jsx` is the `Option` passed to `CheckAirport`.
- React scheduling: effect dependency arrays, batching of state updates, and closures that see stale `loading`, `hasMore` or `pageNum`. Each effect and handler is an explicit operation on the current state. One consequence is not captured: `changeSFetch` is only ever called with `true` (src/components/Form.jsx:57), so in the source only the first submitted booking resets the list through the signal effect, whereas the model resets the list on every submission, because `ResetSignalEffect` resets whenever the signal is raised.
- Attaching and detaching the scroll listener, and `useRef`. A scroll event is a call of `HandleScroll` with the container's geometry, or `None` when there is no container.
- Concurrency beyond one request in flight. Overlapping requests cannot arise under the `loading` guard, as `InFlightAccounting` shows.
- The `console.error` logging on a failed fetch, and the `console.log(sFetch)` in `changeSFetch` (src/components/App.jsx:29).
- BookingList.Scroll: reads the current cursor on every scroll event. In the source, the scroll listener is re-attached only when `loading` or `hasMore` changes (src/components/List.jsx:71-82), so until then each event's `handleScroll` sees the `pageNum` of an older render and calls `changePageNum` with the same value again. The model therefore allows behaviour the source does not have: two near-bottom events before the cursor effect runs advance the cursor by two and skip a page (`ListRuns.DoubleScrollSkipsPage`). In the source the cursor advances by one.
- BookingList.NearBottom: compares real numbers exactly, whereas the source subtracts and adds JavaScript doubles. The two can differ only within a rounding error of `clientHeight + 10`.
- Converting the dates with `new Date(...).toISOString()`, the `today` minimum date, and the three-second timer that hides the thank-you message. These depend on the clock and the time zone. `HandleSubmit` returns the form data before the date conversion. Whether the conversion succeeds is its `datesConvert` parameter. A date string that does not parse makes `toISOString()` throw a RangeError (src/components/Form.jsx:47-48), and then nothing after it runs.
- Markup, icons, styles and the `substring(0, 10)` date display.
- JsText.StringLess: compares Dafny characters (Unicode scalar values), whereas JavaScript compares UTF-16 code units. The two orders differ only between characters above U+FFFF and characters from U+E000 to U+FFFF.
- The booking record's field types are simplified: airport ids are integers in the list and strings in the form, as the select inputs deliver them.
