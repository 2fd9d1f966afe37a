# TripTailor itinerary core in Dafny

TripTailor lets a user write a travel itinerary. The user enters basic information,
picks descriptive tags and lists timed events. The user can then browse a feed
filtered by tags and save itineraries to boards. This project models the sequential
logic behind those screens and proves properties of it:

- **Itinerary draft** (`create_itinerary.dfy`, module `CreateItinerary`). The draft
  is the class `Draft`. It holds the event list, which starts as one sentinel event
  `{AM, 1:00, "", ""}` and holds at most 24 events. It also holds the selected tags,
  the four basic-information inputs and the three error messages.
  - Its methods are the page's handlers: add, change and remove an event, toggle a
    tag, change an input and submit.
  - `Validate` gives the three messages a submit leaves behind.
  - `GenerateTimeOptions` builds the 24-entry half-hour grid.
- **Home page** (`homepage.dfy`, module `Homepage`). It has the tag filter over the
  feed and the "Save" dialog, which creates boards numbered 1, 2, 3, ….
- **Tag toggle** (`tag_toggle.dfy`). Both pages use the same toggle rule: a selected
  tag is filtered out and an unselected one is appended.
- **Column decoding** (`itinerary_repository.dfy`). `splitTags` turns a
  comma-separated database column into a list. It relies on Go's `strings.Split`,
  and the file proves a round trip with `strings.Join`.
- **Request guard** (`auth_middleware.dfy`). The Authorization-header checks of the
  auth service are modelled as a pure function returning an outcome. The JWT check
  is a function parameter.
- **Helpers**: `seqs.dfy` has JavaScript's `filter` (by element and by index) and
  duplicate-freedom. `text.dfy` has JavaScript's `trim` over the ECMAScript
  whitespace and line-terminator characters, and the decimal rendering of a number.

Behaviour of the code worth knowing:

- **Basic-info check.** The submit handler tests the four input strings for
  truthiness, so each must be non-empty and a cost of `"0"` counts as filled. It
  does not re-check the length limit of 100 or the cost range 0..1,000,000, which
  only the browser enforces.
- **The completeness message never survives.** The submit handler first sets the
  event message by the "at least one complete event" test. The second pass then
  always overwrites it: either with the half-filled-event error or with `""`. So a
  draft whose events are all untouched sentinels ends with no event error.
  `Draft.HandleSubmit` performs both writes, and its postcondition equates the final
  messages with `Validate`. `EventMessageIff` proves that the completeness message
  never remains.
- **No submittable flag.** The code computes no "submittable" flag. `IsSubmittable`
  derives one as "all three messages are empty".
- **The event list can become empty.** `removeEvent` can empty the list; only the
  upper bound of 24 is invariant.

## Model

| member | source | states |
|---|---|---|
| `Seqs.RemoveAtSplice` | frontend/src/pages/CreateItinerary.js:125-127 | filtering out index `i` yields the list with exactly element `i` removed, the others in order; an out-of-range index removes nothing |
| `Seqs.Filter` | frontend/src/pages/CreateItinerary.js:65-67 | `filter` keeps at most the elements it was given, and every kept element passes the test; `FilterMembers` and `FilterAppend` state membership and order |
| `Seqs.RemoveAt` | frontend/src/pages/CreateItinerary.js:126 | no contract of its own: `RemoveAtSplice` states what the index filter removes |
| `Seqs.FilterMembers` | frontend/src/pages/CreateItinerary.js:65-67 | a value survives `filter` exactly when it is in the list and satisfies the test |
| `Seqs.FilterAppend` | frontend/src/pages/Homepage.js:83-85 | `filter` keeps relative order: filtering a concatenation filters each part |
| `Text.TrimEmptyIff` | frontend/src/pages/CreateItinerary.js:66 | `s.trim()` is empty exactly when every character of `s` is whitespace |
| `Text.TrimShape` | frontend/src/pages/CreateItinerary.js:66 | the trimmed string is a contiguous piece of `s` with no whitespace at either end |
| `Text.TrimStartShape` | frontend/src/pages/CreateItinerary.js:66 | trimming the start removes exactly the maximal whitespace prefix |
| `Text.TrimEndShape` | frontend/src/pages/CreateItinerary.js:66 | trimming the end removes exactly the maximal whitespace suffix |
| `Text.Trim` | frontend/src/pages/CreateItinerary.js:66 | no contract of its own, so that literal strings stay cheap to evaluate; `TrimShape`, `TrimEmptyIff` and `TrimUnchanged` state what `trim` does (used at CreateItinerary.js:66, 89, 102-103 and Homepage.js:43) |
| `Text.TrimStart` | frontend/src/pages/CreateItinerary.js:89 | no contract of its own: `TrimStartShape` states it |
| `Text.TrimEnd` | frontend/src/pages/CreateItinerary.js:102-103 | no contract of its own: `TrimEndShape` states it |
| `Text.TrimUnchanged` | frontend/src/pages/CreateItinerary.js:66 | a string without whitespace at its ends is its own trim |
| `Text.DecimalString` | frontend/src/pages/CreateItinerary.js:119-120 | the rendering of an hour is a non-empty string of decimal digits; `ParseDecimalString` and `DecimalStringInjective` state that it reads back and is one-to-one |
| `Text.ParseDecimalString` | frontend/src/pages/CreateItinerary.js:119-120 | the decimal rendering of `${hour}` reads back as `hour` |
| `Text.DecimalStringInjective` | frontend/src/pages/CreateItinerary.js:119-120 | different hours render as different strings |
| `TagToggle.Toggle` | frontend/src/pages/CreateItinerary.js:53-58 | the toggled tag is selected afterwards exactly when it was not before; an absent tag is appended at the end |
| `TagToggle.ToggleOthers` | frontend/src/pages/CreateItinerary.js:53-58 | every other tag keeps its selection status |
| `TagToggle.ToggleNoDup` | frontend/src/pages/CreateItinerary.js:53-58 | toggling never creates a duplicate tag |
| `TagToggle.ToggleTwiceAbsent` | frontend/src/pages/CreateItinerary.js:53-58 | toggling an unselected tag twice restores exactly the original list |
| `TagToggle.ToggleTwice` | frontend/src/pages/Homepage.js:74-80 | toggling any tag twice restores the duplicate-free selection as a multiset |
| `CreateItinerary.WithEventValue` | frontend/src/pages/CreateItinerary.js:27-31 | setting one field of an event gives that field the new value and leaves the other three unchanged |
| `CreateItinerary.WithBasicValue` | frontend/src/pages/CreateItinerary.js:22-25 | setting one basic-info input changes that value and no other |
| `CreateItinerary.Validate` | frontend/src/pages/CreateItinerary.js:61-111 | no contract of its own: `BasicMessageIff`, `TagMessageIff`, `EventMessageIff` and `SubmittableIff` state each message it leaves, and `Draft.HandleSubmit` ties it to the handler's writes |
| `CreateItinerary.BasicInfoFilled` | frontend/src/pages/CreateItinerary.js:72 | no contract of its own: the truthiness test of the four inputs, stated by `BasicMessageIff` and `SubmittableIff` |
| `CreateItinerary.Blank` | frontend/src/pages/CreateItinerary.js:66 | no contract of its own: the `trim() === ''` test (also at CreateItinerary.js:89 and 102-103), characterised by `TrimEmptyIff` |
| `CreateItinerary.Retained` | frontend/src/pages/CreateItinerary.js:65-67 | no contract of its own: `HalfFilledRetained` and `SentinelNotRetained` state what the filter keeps |
| `CreateItinerary.IsRetained` | frontend/src/pages/CreateItinerary.js:65-67 | no contract of its own: the filter's test, used by `HalfFilledRetained` and `SentinelNotRetained` |
| `CreateItinerary.IsComplete` | frontend/src/pages/CreateItinerary.js:88-90 | no contract of its own: the completeness test, used by `SentinelsOnly` and the scenario lemmas |
| `CreateItinerary.IsHalfFilled` | frontend/src/pages/CreateItinerary.js:100-104 | no contract of its own: the incomplete-event test, used by `EventMessageIff` and `SubmittableIff` |
| `CreateItinerary.HasComplete` | frontend/src/pages/CreateItinerary.js:88-90 | no contract of its own: `hasValidEvent`, stated by `SentinelsOnly` and `Draft.HandleSubmit` |
| `CreateItinerary.HasHalfFilled` | frontend/src/pages/CreateItinerary.js:100-104 | no contract of its own: `hasIncompleteEvent`, stated by `EventMessageIff`, `HalfFilledRetained` and `SubmittableIff` |
| `CreateItinerary.HalfFilledRetained` | frontend/src/pages/CreateItinerary.js:65-67 | dropping events with blank description and location never drops a half-filled event, so the second pass sees one iff the draft has one |
| `CreateItinerary.BasicMessageIff` | frontend/src/pages/CreateItinerary.js:72-76 | the basic-info message is empty iff name, location, description and cost are all non-empty, and is the basic-info error otherwise |
| `CreateItinerary.TagMessageIff` | frontend/src/pages/CreateItinerary.js:79-83 | the tag message is empty iff at least 3 tags are selected, and is the tag error otherwise |
| `CreateItinerary.EventMessageIff` | frontend/src/pages/CreateItinerary.js:88-111 | the event message is the incomplete-event error iff some event has exactly one of trimmed description and location empty; otherwise it is empty; it is never the "at least one complete event" message |
| `CreateItinerary.SentinelNotRetained` | frontend/src/pages/CreateItinerary.js:65-67 | the sentinel event is dropped by the validation filter and is not half filled |
| `CreateItinerary.SentinelsOnly` | frontend/src/pages/CreateItinerary.js:88-111 | a list of sentinel events has no retained and no complete event, yet ends with an empty event message |
| `CreateItinerary.SubmittableIff` | frontend/src/pages/CreateItinerary.js:61-113 | all three messages are empty iff the basic info is filled, at least 3 tags are selected and no event is half filled |
| `CreateItinerary.ScenarioLunch` | frontend/src/pages/CreateItinerary.js:61-113 | empty basic info, 2 tags and one complete event give the basic-info and tag errors, no event error, and the draft is not submittable |
| `CreateItinerary.ScenarioMuseum` | frontend/src/pages/CreateItinerary.js:100-108 | a filled draft whose only event has a description but no location gets only the incomplete-event error |
| `CreateItinerary.ScenarioCompleteAndSentinel` | frontend/src/pages/CreateItinerary.js:65-67 | a filled draft with one complete event and one sentinel is submittable |
| `CreateItinerary.SlotLabelInjective` | frontend/src/pages/CreateItinerary.js:118-121 | slot labels of different hours or different halves differ |
| `CreateItinerary.SlotLabel` | frontend/src/pages/CreateItinerary.js:119-120 | no contract of its own: the labels `${hour}:00` and `${hour}:30`, stated by `SlotLabelInjective` and `GenerateTimeOptions` |
| `CreateItinerary.GenerateTimeOptions` | frontend/src/pages/CreateItinerary.js:116-123 | the loop returns 24 pairwise distinct labels; entry `2k` is `"{k+1}:00"` and entry `2k+1` is `"{k+1}:30"`; the first is the sentinel's time "1:00" and the last is "12:30" |
| `CreateItinerary.Draft.constructor` | frontend/src/pages/CreateItinerary.js:8-20 | the draft starts with one sentinel event, no tags, empty inputs and no messages |
| `CreateItinerary.Draft.HandleInputChange` | frontend/src/pages/CreateItinerary.js:22-25 | only the named basic-info value changes |
| `CreateItinerary.Draft.HandleEventChange` | frontend/src/pages/CreateItinerary.js:27-32 | for an index in range, only that event's named field changes; the length and all other events stay |
| `CreateItinerary.Draft.AddEvent` | frontend/src/pages/CreateItinerary.js:44-51 | with 24 events the list stays and the capacity message is set; otherwise one sentinel is appended and the event message cleared; the list never exceeds 24 |
| `CreateItinerary.Draft.RemoveEvent` | frontend/src/pages/CreateItinerary.js:125-128 | the event at an in-range index is spliced out; any other index changes nothing |
| `CreateItinerary.Draft.HandleTagSelection` | frontend/src/pages/CreateItinerary.js:53-59 | the selection becomes its toggle and stays duplicate-free |
| `CreateItinerary.Draft.HandleSubmit` | frontend/src/pages/CreateItinerary.js:61-114 | writing the three messages in the page's order leaves exactly the messages `Validate` gives, and changes nothing else |
| `Homepage.FilteredItineraries` | frontend/src/pages/Homepage.js:82-86 | with no tag selected the feed is the whole list; otherwise every shown itinerary shares a tag with the selection |
| `Homepage.FilteredMembers` | frontend/src/pages/Homepage.js:83-85 | with tags selected, an itinerary is shown iff it is in the list and shares a tag with the selection |
| `Homepage.FilteredInOrder` | frontend/src/pages/Homepage.js:82-86 | the filter is order-preserving: filtering a concatenation filters each part |
| `Homepage.FilteredSingle` | frontend/src/pages/Homepage.js:82-86 | a single itinerary is kept iff nothing is selected or it shares a tag |
| `Homepage.SharesTag` | frontend/src/pages/Homepage.js:84 | no contract of its own: the filter's test, used by `FilteredItineraries`, `FilteredMembers` and `FilteredSingle` |
| `Homepage.HomePage.constructor` | frontend/src/pages/Homepage.js:8-13 | the page starts with no tags, no itineraries, no boards, the dialog closed and empty inputs |
| `Homepage.HomePage.Feed` | frontend/src/pages/Homepage.js:82-86 | no contract of its own: the displayed `filteredItineraries`, stated by `HandleTagClick` |
| `Homepage.HomePage.HandleTagClick` | frontend/src/pages/Homepage.js:74-86 | the filter selection becomes its toggle and stays duplicate-free, and the displayed feed is the list filtered by the toggled selection |
| `Homepage.HomePage.HandleSave` | frontend/src/pages/Homepage.js:26-28 | the dialog opens and nothing else changes |
| `Homepage.HomePage.HandleCloseModal` | frontend/src/pages/Homepage.js:30-34 | the dialog closes and the name and image inputs reset; the boards are untouched |
| `Homepage.HomePage.HandleSelectBoard` | frontend/src/pages/Homepage.js:36-40 | selecting a board only closes the dialog |
| `Homepage.HomePage.SetNewBoardName` | frontend/src/pages/Homepage.js:156 | the name input holds the typed text |
| `Homepage.HomePage.HandleCreateNewBoard` | frontend/src/pages/Homepage.js:42-53 | a blank trimmed name changes nothing; otherwise one board with id `|boards|+1`, the untrimmed name and the image is appended and the inputs reset; ids `1..n` become `1..n+1` |
| `ItineraryRepository.Split` | backend/services/search-service/internal/db/itinerary_repository.go:50 | `strings.Split` yields one more piece than there are separators, and no piece contains the separator |
| `ItineraryRepository.SplitTags` | backend/services/search-service/internal/db/itinerary_repository.go:46-51 | the empty column decodes to `[]`; any other column decodes to commas-plus-one pieces, none containing a comma |
| `ItineraryRepository.Join` | backend/services/search-service/internal/db/itinerary_repository.go:50 | no contract of its own: `strings.Join` is not called by the repository; it exists here only as the partner of `Split` in `JoinSplit`, `SplitJoin`, `JoinSplitTags` and `SplitTagsJoin` |
| `ItineraryRepository.JoinSplit` | backend/services/search-service/internal/db/itinerary_repository.go:50 | joining the split pieces with the separator gives back the string |
| `ItineraryRepository.JoinSplitTags` | backend/services/search-service/internal/db/itinerary_repository.go:46-51 | joining the decoded column with commas gives back the column, the empty one included |
| `ItineraryRepository.SplitNoSeparator` | backend/services/search-service/internal/db/itinerary_repository.go:50 | a string without the separator splits into itself alone |
| `ItineraryRepository.SplitAfterPiece` | backend/services/search-service/internal/db/itinerary_repository.go:50 | a separator after a separator-free prefix ends the first piece there |
| `ItineraryRepository.SplitJoin` | backend/services/search-service/internal/db/itinerary_repository.go:50 | splitting the join of a non-empty list of separator-free pieces gives back the pieces |
| `ItineraryRepository.SplitTagsJoin` | backend/services/search-service/internal/db/itinerary_repository.go:46-51 | decoding inverts the join of comma-free pieces except for `[""]`, which decodes to `[]` |
| `ItineraryRepository.EmptyPiecesKept` | backend/services/search-service/internal/db/itinerary_repository.go:46-51 | `"a,,b"` decodes to `["a", "", "b"]` and `","` to `["", ""]` |
| `AuthMiddleware.TrimPrefix` | backend/services/auth-service/internal/middleware/auth.go:20 | with the prefix, the result is the rest of the string; without it, the string is unchanged |
| `AuthMiddleware.Authorize` | backend/services/auth-service/internal/middleware/auth.go:11-36 | every rejection carries status 401 |
| `AuthMiddleware.MissingIff` | backend/services/auth-service/internal/middleware/auth.go:14-18 | the outcome is "Authorization header missing" iff the header is empty |
| `AuthMiddleware.MalformedIff` | backend/services/auth-service/internal/middleware/auth.go:20-25 | the outcome is "Malformed token" iff the header is present and lacks the exact `"Bearer "` prefix |
| `AuthMiddleware.BearerHeader` | backend/services/auth-service/internal/middleware/auth.go:20-32 | with the prefix, the token checked is the header minus its first 7 characters, and that check alone decides between proceeding and "Invalid or expired token" |
| `AuthMiddleware.NextIff` | backend/services/auth-service/internal/middleware/auth.go:27-34 | the request proceeds iff the header has the prefix and the token validates; otherwise one of the three errors is produced |
| `AuthMiddleware.OnlyTokenConsulted` | backend/services/auth-service/internal/middleware/auth.go:27-28 | token checks that agree on the stripped token give the same outcome |
| `AuthMiddleware.PrefixEdgeCases` | backend/services/auth-service/internal/middleware/auth.go:20-25 | `"Bearer "` alone passes the empty token on; `"bearer abc"` is malformed |

## Left out

- Rendering: JSX, CSS, the navigation bar and the dialog markup are presentation only.
- Image handling: `handleMultipleFileChange`, `removeImage`, `handleImageChange` and
  `URL.createObjectURL` are browser file plumbing. A board's cover image is an
  optional string.
- Input bounds: `maxLength`, `min`, `max` and `step` are enforced by the browser,
  and the submit handler never checks them. The estimated cost is kept as the
  input's string.
- Tag catalogue: the categories file and the icon map are static data. Tags are
  arbitrary strings.
- Tag scrolling: `scrollTagsLeft` and `scrollTagsRight` scroll the DOM.
- Feed and board fetches: the page's `useEffect` fetches are empty stubs, so
  `itineraries` and `boards` start empty. The filter is stated for an arbitrary
  list.
- Logging: the `console.log` calls are side effects only.
- React scheduling: state setters are modelled as immediate assignments in program
  order. Batching and re-rendering are not modelled.
- Event aliasing: `Draft.HandleEventChange` does not model the in-place write into
  the shallow-copied array. That write also changes the event object held by the
  previous state. Here events are values.
- Search query: `QueryItinerariesByLocation` runs an SQL query and scans rows;
  only `splitTags` is modelled. `backend/services/search-service/internal/models/user-db.go`
  is not part of this model.
- JWT validation: `utils.ValidateJWT` is not part of this model. It becomes the
  parameter `validateJWT`, true when it returns no error and a valid token.
- Character encoding: strings are sequences of Unicode scalar values, while
  JavaScript strings are UTF-16 code units and Go strings are bytes. `trim`, the
  `","` split and the 7-character `"Bearer "` strip are unaffected, since every
  character they test is ASCII or in the Basic Multilingual Plane. Lone surrogates
  and invalid UTF-8 cannot be represented.
- HTTP plumbing: gin's context, `c.JSON`, `c.Abort` and `c.Next` become the
  returned `Outcome`.
