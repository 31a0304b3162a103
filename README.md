# DevOps Genie chat client: a Dafny model

This project models the client-side logic of the DevOps Genie chat UI, a React
single-page application. It covers two components.

- **ChatHistory**, the session sidebar. It filters the list of past chat
  sessions by a case-insensitive substring search over title and preview. It
  then shows the kept sessions in four date sections: "Today", "Yesterday",
  "Last 7 days" and "Older". When the search keeps nothing, it shows one of two
  notices instead.
- **ChatInterface**, the chat pane. It owns the message thread, the input box,
  the typing indicator and the model catalog. `handleSend` appends the user's
  question, asks the inference endpoint, and appends the answer or an error
  message. `fetchModels` loads the model list and falls back to a fixed
  catalog when loading fails.

The model is written in the source's own form. The sidebar is pure: its
modules hold functions over sequences and lemmas about them. The chat pane
updates state in steps, so it is the class `ChatInterface.Chat`. Each of its
fields is one piece of React state, and each method performs the state
updates of one handler.

Files:

- `wrappers.dfy`: `Option`.
- `text.dfy`: the ECMAScript string operations the code relies on. These are
  lower-casing, `includes`, `trim` and the decimal rendering of a number in a
  template literal.
- `sequences.dfy`: `Array.prototype.filter` (`Select`) and the subsequence
  order it keeps.
- `chat_history.dfy`: timestamps, the date tests, search, sections and the
  empty-list notice.
- `chat_interface.dfy`: messages, HTTP replies, message and notice texts, and
  the `Chat` class.

How the outside world enters the model:

- **Clock.** "Now" is an explicit parameter. A timestamp is a calendar day
  number and a minute of the day (0 to 1439). "Same calendar date" compares
  day numbers. `setDate(getDate() - k)` keeps the minute and subtracts `k`
  from the day. A `Date` comparison compares `day * 1440 + minute`. The
  `Date.now()` readings used for message ids and times are method parameters.
- **Network.** Each handler is split at its `await`. A start step runs up to
  the request. A completion step takes the reply as a parameter: either
  `Reply(status, body)` or `Thrown(JsError(name, message))`. A reply without a
  2xx status becomes the error the code throws, named `Error`, with message
  `HTTP error! status: <status>`. The composed methods `HandleSend` and
  `FetchModels` run both steps with nothing happening in between.
- **Notifications.** Toasts are returned as `Toast` values. They are not
  displayed.

Behaviour the code has and the model keeps:

- **The sections are not a partition.** "Yesterday" tests the calendar date,
  while "Last 7 days" tests the open interval from seven days before now to
  one day before now, to the minute. So a session on yesterday's date, earlier
  in the day than the current time, is listed under both. `SectionSizes`
  counts this overlap exactly. `SectionsMeetOnlyInOverlap` shows that it is
  the only overlap. Also, a session exactly seven days old, or one dated in
  the future, is listed under "Older".
- **Enter can start a second exchange.** The send button is disabled while
  the typing indicator is on. But the Enter-key handler
  (`ChatInterface.tsx:210-215`) calls `handleSend`, which does not check the
  indicator. `StartSend` therefore does not check it either.
- **Message ids may repeat.** Ids are clock readings, so nothing makes them
  unique, and the model does not claim that they are.

## Model

| member | source | states |
|---|---|---|
| `Text.Lower` | frontend/src/components/ChatHistory.tsx:75-76 | `toLowerCase` (ASCII letters only) keeps the length and maps each character to its lower-case form. |
| `Text.LowerIdempotent` | frontend/src/components/ChatHistory.tsx:75-76 | Lower-casing twice is the same as lower-casing once. |
| `Text.IncludesIff` | frontend/src/components/ChatHistory.tsx:75-76 | `s.includes(q)` is true exactly when `q` occurs at some offset of `s`. |
| `Text.Includes` | frontend/src/components/ChatHistory.tsx:75-76 | `String.prototype.includes`: `q` is a prefix of `s` or of some suffix of `s`. Its meaning is stated by `Text.IncludesIff`. |
| `Text.LeadingSpaceSpec` | frontend/src/components/ChatInterface.tsx:120 | The leading white space `trim` removes is the longest all-white-space prefix. |
| `Text.TrailingSpaceSpec` | frontend/src/components/ChatInterface.tsx:120 | The trailing white space `trim` removes is the longest all-white-space suffix. |
| `Text.TrimSpec` | frontend/src/components/ChatInterface.tsx:133 | `trim` keeps one contiguous stretch of the input. It removes only white space on either side. The kept stretch neither starts nor ends with white space. |
| `Text.Trim` | frontend/src/components/ChatInterface.tsx:120 | `String.prototype.trim`: the input with its leading and trailing white space dropped. Its properties are stated by `Text.TrimSpec`, `Text.TrimEmptyIff` and `Text.TrimIdempotent`. |
| `Text.TrimEmptyIff` | frontend/src/components/ChatInterface.tsx:120 | `input.trim()` is empty exactly when the input is all white space. |
| `Text.TrimIdempotent` | frontend/src/components/ChatInterface.tsx:133-138 | Trimming the trimmed question changes nothing, so a sent user message is already trimmed. |
| `Text.Decimal` | frontend/src/components/ChatInterface.tsx:65 | A status rendered in a template literal is a non-empty string of digits with no leading zero. |
| `Text.DecimalRoundTrip` | frontend/src/components/ChatInterface.tsx:65 | Reading the rendered digits back gives the original number. |
| `Sequences.Select` | frontend/src/components/ChatHistory.tsx:74-84 | `filter` keeps every occurrence of each element that satisfies the predicate, as many times as it occurs, and drops every other element. The result is a subsequence of the input, so the order is kept, and it is no longer than the input. |
| `Sequences.SubsequenceTransitive` | frontend/src/components/ChatHistory.tsx:74-84 | A filter of a filter is a subsequence of the original list. |
| `Sequences.SelectCongruent` | frontend/src/components/ChatHistory.tsx:74-77 | Two predicates that agree on the list select the same elements. |
| `Sequences.SelectAll` | frontend/src/components/ChatHistory.tsx:74-77 | A predicate that holds everywhere keeps the whole list. |
| `ChatHistory.DaysBefore` | frontend/src/components/ChatHistory.tsx:98-101 | `setDate(getDate() - k)` on now moves exactly `k` whole days back. |
| `ChatHistory.InstantOrder` | frontend/src/components/ChatHistory.tsx:102 | Comparing two `Date`s orders them by day, then by time of day. |
| `ChatHistory.LastWeekByDay` | frontend/src/components/ChatHistory.tsx:97-103 | `isLastWeek` holds on the five days strictly between, on the day seven days back after now's time of day, and on yesterday before now's time of day. |
| `ChatHistory.LastWeekStrictBounds` | frontend/src/components/ChatHistory.tsx:97-102 | Exactly seven days ago and exactly one day ago are both outside `isLastWeek`. |
| `ChatHistory.TodayNotLastWeek` | frontend/src/components/ChatHistory.tsx:86-102 | A time on today's date passes neither `isYesterday` nor `isLastWeek`. |
| `ChatHistory.YesterdayAndLastWeek` | frontend/src/components/ChatHistory.tsx:91-102 | A time passes both `isYesterday` and `isLastWeek` exactly when it is on yesterday's date and earlier in the day than now. |
| `ChatHistory.RelativeDays` | frontend/src/components/ChatHistory.tsx:83-103 | Section by calendar offset: today only; yesterday only, when not earlier than now's time; last week only, 2 to 6 days back; last week on day 7 only after now's time; older for exactly seven days ago, earlier dates and future dates. |
| `ChatHistory.Matches` | frontend/src/components/ChatHistory.tsx:75-76 | The search test: the lower-cased query occurs in the lower-cased title or the lower-cased preview. |
| `ChatHistory.FilterSessions` | frontend/src/components/ChatHistory.tsx:74-77 | `filteredSessions`: the sessions that pass the search test, in order. What it keeps is stated by `ChatHistory.FilterKeepsIff`. |
| `ChatHistory.GroupByDate` | frontend/src/components/ChatHistory.tsx:79-84 | `groupedSessions`: each section filters the searched list with its own date test. What each section holds is stated by `ChatHistory.SectionMembership`. |
| `ChatHistory.IsToday` | frontend/src/components/ChatHistory.tsx:86-89 | `isToday`: the same calendar date as now. |
| `ChatHistory.IsYesterday` | frontend/src/components/ChatHistory.tsx:91-95 | `isYesterday`: the same calendar date as one day before now. |
| `ChatHistory.IsLastWeek` | frontend/src/components/ChatHistory.tsx:97-103 | `isLastWeek`: strictly after seven days before now and strictly before one day before now. Its calendar reading is stated by `ChatHistory.LastWeekByDay`. |
| `ChatHistory.IsOlder` | frontend/src/components/ChatHistory.tsx:83 | The test of the "older" section: none of the other three date tests holds. |
| `ChatHistory.FilterKeepsIff` | frontend/src/components/ChatHistory.tsx:74-77 | A session is kept exactly when it is in the list and the lower-cased query occurs in its lower-cased title or its lower-cased preview. |
| `ChatHistory.FilterCaseInsensitive` | frontend/src/components/ChatHistory.tsx:74-77 | Queries with equal lower-case forms keep the same sessions. |
| `ChatHistory.FilterLowerQuery` | frontend/src/components/ChatHistory.tsx:74-77 | Searching for the lower-cased query keeps the same sessions as the query itself. |
| `ChatHistory.EmptyQueryKeepsAll` | frontend/src/components/ChatHistory.tsx:74-77 | The empty query keeps every session, in order. |
| `ChatHistory.SectionMembership` | frontend/src/components/ChatHistory.tsx:79-84 | Each section holds exactly the searched sessions that pass its date test. "Older" holds those that pass none of the other three. |
| `ChatHistory.SectionsAreSubsequences` | frontend/src/components/ChatHistory.tsx:74-84 | The searched list is a subsequence of all sessions. Each section is an order-preserving subsequence of all sessions. |
| `ChatHistory.OlderIsTheRest` | frontend/src/components/ChatHistory.tsx:83 | "Older" is exactly the searched sessions that are in no other section, so every searched session appears in some section. |
| `ChatHistory.SectionsMeetOnlyInOverlap` | frontend/src/components/ChatHistory.tsx:79-102 | "Today" shares no session with "Yesterday" or "Last 7 days", and "Older" shares none with the other three. A session is in both "Yesterday" and "Last 7 days" exactly when it is on yesterday's date, earlier than now's time. |
| `ChatHistory.SectionSizes` | frontend/src/components/ChatHistory.tsx:79-84 | The four section lengths add up to the number of searched sessions plus the number in the yesterday/last-week overlap. |
| `ChatHistory.Sidebar` | frontend/src/components/ChatHistory.tsx:213-228 | A notice is shown exactly when the search keeps nothing, and the sections otherwise. The notice is "No conversations found" exactly when the query is non-empty. |
| `ChatHistory.NoneYetIff` | frontend/src/components/ChatHistory.tsx:214-219 | "No conversations yet" appears exactly when there are no sessions and the query is empty. |
| `ChatHistory.SidebarCaseInsensitive` | frontend/src/components/ChatHistory.tsx:74-77 | Queries that differ only in letter case give the same sidebar. |
| `ChatInterface.IsOk` | frontend/src/components/ChatInterface.tsx:152 | `response.ok`: the status is in 200 to 299. |
| `ChatInterface.HttpErrorMessage` | frontend/src/components/ChatInterface.tsx:153 | The error thrown on a bad status starts with "HTTP error" and contains the status in decimal. |
| `ChatInterface.Failure` | frontend/src/components/ChatInterface.tsx:152-154 | An error reaches `catch` exactly when the reply is not a 2xx response. A thrown error arrives as it was thrown. A bad status arrives as an `Error` whose message starts with "HTTP error". |
| `ChatInterface.AnswerText` | frontend/src/components/ChatInterface.tsx:162 | The AI message is never empty. It is the answer unless the answer is missing or empty, in which case it is "No response received from the model.". |
| `ChatInterface.SendErrorText` | frontend/src/components/ChatInterface.tsx:174 | The failure message starts with the apology prefix, ends with ". Please try again.", and holds exactly the error's message between the two. |
| `ChatInterface.ReplyContent` | frontend/src/components/ChatInterface.tsx:152-178 | The completing AI message is never empty. It is the answer text on a 2xx reply and the apology with the error message otherwise. |
| `ChatInterface.CatalogErrorText` | frontend/src/components/ChatInterface.tsx:88-94 | A `TypeError` mentioning "Failed to fetch" gives the CORS text. Otherwise a message containing "HTTP error" gives "Server error: " and the message. Anything else gives the default text. |
| `ChatInterface.HttpFailureIsServerError` | frontend/src/components/ChatInterface.tsx:64-94 | A catalog reply with a bad status is reported as "Server error: HTTP error! status: <status>". |
| `ChatInterface.CatalogErrorsDistinguished` | frontend/src/components/ChatInterface.tsx:88-94 | A refused connection and a bad status produce different descriptions. |
| `ChatInterface.LoadedDescription` | frontend/src/components/ChatInterface.tsx:79 | The success notice's description: "Loaded ", the model count in decimal, then " models from API". |
| `ChatInterface.Chat.constructor` | frontend/src/components/ChatInterface.tsx:34-40 | Initial state: an empty thread and input, not typing, no model, an empty catalog, and loading on. |
| `ChatInterface.Chat.CanSend` | frontend/src/components/ChatInterface.tsx:400 | The send button is enabled exactly when the input has a non-white-space character and no exchange is in progress. |
| `ChatInterface.Chat.SetInput` | frontend/src/components/ChatInterface.tsx:386 | Typing replaces the input. |
| `ChatInterface.Chat.SelectModel` | frontend/src/components/ChatInterface.tsx:360 | Choosing in the selector replaces the selected model. |
| `ChatInterface.Chat.StartSend` | frontend/src/components/ChatInterface.tsx:119-140 | Blank input: nothing changes and no request is made. No model: nothing changes and the "No Model Selected" toast is returned. Otherwise one user message holding the trimmed input is appended, the input is cleared, the typing indicator is set, the send button is disabled and the request carries the model and the trimmed question. The thread stays well formed. |
| `ChatInterface.Chat.CompleteSend` | frontend/src/components/ChatInterface.tsx:142-187 | Exactly one AI message is appended: the answer on success and the apology on failure. The typing indicator is cleared on every path. The error toast is returned exactly on failure. |
| `ChatInterface.Chat.HandleSend` | frontend/src/components/ChatInterface.tsx:119-188 | Blank input is ignored with no notice. Input with no model selected is refused with the "No Model Selected" notice. Neither changes anything. An accepted send carries the selected model and the trimmed input, keeps the old thread as a prefix, and adds exactly two messages, the user's then the AI's. The input ends empty and the indicator off. The failure notice appears exactly when the exchange fails. |
| `ChatInterface.Chat.StartFetchModels` | frontend/src/components/ChatInterface.tsx:49-51 | Loading is turned on. |
| `ChatInterface.Chat.CompleteFetchModels` | frontend/src/components/ChatInterface.tsx:64-108 | Success installs the fetched list verbatim and selects its first entry if there is one, keeping the selection if the list is empty. Failure installs the fallback catalog and selects "gpt-4". Loading is off on every path. The success or error toast is returned. |
| `ChatInterface.Chat.FetchModels` | frontend/src/components/ChatInterface.tsx:49-109 | One whole load: the fetched list or the fallback catalog is installed, and loading ends off. |

## Left out

- Networking, JSON decoding, `console` logging, scrolling, the clipboard, and the `setTimeout` in `handleCopy` are not modelled. They are I/O. Replies enter as parameters.
- A JSON body of the wrong shape is not modelled. Examples are a catalog that is not an array of strings, or an `answer` that is not a string. The reply body's type rules these out. A body that fails to parse enters as a thrown error.
- Percent-encoding of the query string (`encodeURIComponent`) is not modelled. `StartSend` returns the model and question it would encode.
- Lower-casing covers ASCII letters only, not the full Unicode `toLowerCase`.
- Local time zones, daylight saving time, `toDateString` and `formatTime` are not modelled. Times have minute granularity.
- Each date test in the code reads the clock separately. The model evaluates all three against one `now`, so a render that crosses midnight is not modelled.
- A message id is kept as the clock number. The code stores its decimal string.
- Interleavings of two exchanges are not modelled beyond the separate start and completion steps. `HandleSend` covers one exchange with no other event in between.
- Toasts are returned, not displayed. `FetchModels` does not restate the toast; `CompleteFetchModels` states it.
- The selector is disabled while loading and offers only catalog entries. `SelectModel` does not require either.
- Rendering is not modelled. This covers the JSX, the quick-action buttons (they call `SetInput`), the navigation bar, the page layout and the backend service.
