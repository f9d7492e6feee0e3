# Activity signup: server table and card view model

A model of the two pieces of sequential logic in a small school-activities web app.

- **The server's signup table** (`src/server.py`). The server keeps an in-memory table
  from activity name to a record holding a maximum and an ordered list of participant
  emails. `POST /activities/<name>/signup?email=...` runs a fixed chain of guards:
  unknown activity (404), missing email (400), email already listed (400), activity full
  (400). Only when all pass does it append the email to that one activity's list.
  `GET /activities` returns the table.
- **The page's per-card view model** (`src/static/app.js`). Stripped of the DOM, each
  activity card holds:
  - its name and maximum;
  - `dataset.count`;
  - the participant list it shares with the fetched record;
  - the texts of its list items;
  - whether the "no participants yet" note is shown;
  - the number of spots left it displays;
  - whether its inline form is disabled;
  - the inline input's value and its message area.

  The page loads the activities, builds one card and one select option per activity,
  and updates a card after a signup. A signup comes from the card's own inline form or
  from the page-level form, which finds the card by name. The two paths update
  different fields, and the model keeps that as written:
  - the inline path appends to the shared list and shows `max - length` unclamped;
    it leaves `count` alone;
  - the page-level path increments `count` and shows `max(0, max - count)`;
    it leaves the shared list alone.

Modules:

- `Optional` (optional.dfy): an optional value and JavaScript's `v || fallback` on it.
- `Server` (server.dfy): the table, `SignupOutcome` as the specification of one signup,
  and the `ActivityStore` class whose `Signup` method runs the guard chain in place.
- `Display` (display.dfy): the text shown for a participant (string, or the
  `email` → `address` → `name` → JSON fallback chain) and `String.prototype.trim`.
- `Cards` (cards.dfy): the `CardState` value with the functions `Rendered`,
  `AfterInline` and `AfterGlobal` that specify it, the `ActivityCard` class whose
  methods are tied to them, event runs, and lemmas. The lemmas cover:
  - the form never re-enabling itself;
  - list items only growing;
  - the empty note agreeing with the list;
  - every added item being counted by exactly one path;
  - a concrete drift when both paths are used on one card;
  - each path tracking the server's list.
- `Page` (page.dfy): the `ActivityPage` class. Its methods model the load loop, the
  select options, the card lookup and the page-level submit handler.

Three asymmetries of the code are kept as written:

- The inline path pushes to the shared list and never touches `dataset.count` (app.js:122).
- Only the page-level path clamps spots left at zero (app.js:217); the inline path shows
  `max - length` (app.js:123).
- The page-level path appends the untrimmed email and computes spots left from `count`,
  not from the list (app.js:208-217).

## Model

| member | source | states |
|---|---|---|
| Server.InitialTable | src/server.py:7-21 | The seed table holds "Chess Club" and "Programming Class"; both are within capacity and have no duplicate emails |
| Server.SignupOutcome | src/server.py:37-53 | A signup succeeds iff the activity exists, the email is present and non-empty, not listed, and the list is below the maximum. An error leaves the table unchanged and is 404 exactly for an unknown activity. Success appends the email last to that activity only, keeps its other fields and every other activity, and answers "Successfully signed up for " + name |
| Server.UnknownActivityRejected | src/server.py:39-40 | An unknown activity gets 404 "Activity not found", whatever the email, and the table is unchanged |
| Server.MissingEmailRejected | src/server.py:42-44 | A missing or empty email gets 400 "Email is required" and the table is unchanged |
| Server.DuplicateRejectedBeforeFull | src/server.py:46-50 | An email already listed gets 400 "Already signed up", even when the activity is also full (the duplicate guard comes first) |
| Server.FullActivityRejected | src/server.py:49-50 | A new email on an activity at or above its maximum gets 400 "Activity is full" and the table is unchanged |
| Server.SignupKeepsCapacity | src/server.py:49-52 | If no activity is over its maximum before a signup, none is after it |
| Server.SignupKeepsNoDuplicates | src/server.py:46-52 | If no participant list has a duplicate before a signup, none has after it |
| Server.SignupTwiceAddsOnce | src/server.py:46-52 | Repeating a signup leaves the table as one signup left it; after a success the repeat is told "Already signed up" |
| Server.ActivityStore.constructor | src/server.py:7-21 | The store starts with the seed table |
| Server.ActivityStore.GetActivities | src/server.py:33-35 | Returns the whole current table |
| Server.ActivityStore.Signup | src/server.py:37-53 | The in-place guard chain yields exactly the response and new table of SignupOutcome, and preserves the capacity and no-duplicate invariants |
| Optional.OrElse | src/static/app.js:137 | `v \|\| fallback` on an optional string: the value when present and non-empty, else the fallback |
| Display.DisplayText | src/static/app.js:56-59 | A string participant shows as itself. Otherwise the text is the first non-empty of email, address and name, and the JSON text when all three are empty |
| Display.LeadingSpaces | src/static/app.js:101 | Counts the whitespace run at the start: all of it is whitespace and the next character is not |
| Display.TrailingSpaces | src/static/app.js:101 | Counts the whitespace run at the end: all of it is whitespace and the character before it is not |
| Display.Trim | src/static/app.js:101 | The trimmed text is no longer than the input and neither starts nor ends with whitespace |
| Display.TrimIsSlice | src/static/app.js:101 | The trimmed text is a contiguous slice of the input with only whitespace before and after it |
| Display.TrimEmptyIffBlank | src/static/app.js:101-102 | The trimmed input is empty exactly when every character typed is whitespace |
| Display.TrimKeepsTrimmed | src/static/app.js:101 | Text that neither starts nor ends with whitespace is returned unchanged |
| Cards.Texts | src/static/app.js:53-64 | One list item per participant, in order, each the participant's display text |
| Cards.Rendered | src/static/app.js:23-95 | The card built from a fetched record: one list item per participant and count equal to their number, the empty note iff there are no items, disabled iff spots left ≤ 0 |
| Cards.AfterInline | src/static/app.js:98-147 | The inline handler's effect on a card: count is never changed, a disabled form stays disabled, and list items are only appended |
| Cards.AfterGlobal | src/static/app.js:199-229 | The page-level update of a card: spots left is never negative, the shared list is untouched, and a disabled form stays disabled |
| Cards.RenderedView | src/static/app.js:18-95 | A rendered card's shared list is the fetched record's own participant list. Count = number of participants and spots left = max − count. The input starts empty. The empty note shows iff there are no participants. Each list item is its participant's text, in order. The form starts disabled iff spots left ≤ 0, with no message shown |
| Cards.BlankInlineSubmitChangesNothing | src/static/app.js:100-102 | An inline submit whose input trims to nothing leaves the whole card unchanged |
| Cards.InlineSuccess | src/static/app.js:111-135 | On a 2xx inline answer, the trimmed email is appended last to both the list items and the shared list, and the empty note goes. Spots left becomes max − new list length, unclamped. The form is disabled iff it was already or spots left ≤ 0. The input is cleared, count is untouched, and the message is the server's or "Participant added" |
| Cards.InlineFailureKeepsCard | src/static/app.js:136-143 | A rejected or failed inline submit keeps the list, count, spots left, disabled flag, note and input. It shows an error: the server's detail if non-empty, else "Failed to add participant", or "Failed to add participant. Try again." on a thrown error |
| Cards.GlobalSuccess | src/static/app.js:199-229 | A page-level success adds one to count and shows max(0, max − count), never negative. The form is disabled iff it was already or that is 0. The email is appended to the list items; the shared list, the inline input and the card's message are untouched; and from a freshly rendered card the number shown drops by one and stops at 0 |
| Cards.DisabledIsTerminal | src/static/app.js:92-229 | Once a card's form is disabled, no sequence of typing, inline submits or page-level signups re-enables it |
| Cards.EntriesOnlyGrow | src/static/app.js:117-211 | The list items shown before any sequence of events remain a prefix of those shown after it |
| Cards.EmptyNoteIffNoEntries | src/static/app.js:112-202 | If the empty note shows iff the list has no items, that stays true across any sequence of events. Both the inline removal and append (app.js:112-121) and the page-level ones (app.js:200-211) keep it |
| Cards.EntriesBalance | src/static/app.js:116-216 | Across any sequence of events, the list items added equal the additions to count plus the additions to the shared list |
| Cards.RenderedBalance | src/static/app.js:23-216 | From a rendered card, items + rendered participants = count + shared list length, so count and the shared list each miss the other path's additions |
| Cards.MixedPathsDrift | src/static/app.js:122-217 | With max 2 and no participants, a page-level signup then an inline signup leave two list items but show 1 spot left with the form enabled |
| Cards.FromServer | src/static/app.js:109-111 | A server answer is seen as accepted iff it is a success, carrying its message; an error carries its detail; it is never a thrown error |
| Cards.InlineTracksServer | src/static/app.js:111-139 | If the shared list equals the server's list, an inline submit answered by the server keeps them equal. After success spots left = the server's spare capacity. A rejection shows the server's detail verbatim and adds no list item |
| Cards.GlobalTracksServer | src/static/app.js:213-217 | If count equals the server's list length, a page-level submit answered by the server keeps it equal, and after success spots left = the server's spare capacity |
| Cards.ActivityCard.constructor | src/static/app.js:19-95 | Building a card from a fetched record (one list item per participant, in a loop) yields exactly the Rendered state |
| Cards.ActivityCard.SubmitInline | src/static/app.js:98-147 | The inline handler changes the card exactly as AfterInline says and never clears the disabled flag |
| Cards.ActivityCard.ApplyGlobalSignup | src/static/app.js:199-229 | The page-level update changes the card exactly as AfterGlobal says, never clears the disabled flag, and leaves spots left non-negative |
| Page.IndexOfCard | src/static/app.js:197-198 | The first card whose name matches, or -1 when no card's name matches |
| Page.GlobalNotice | src/static/app.js:190-247 | The page-level message is always shown, styled as an error exactly when the signup did not succeed |
| Page.GlobalNoticeText | src/static/app.js:190-247 | A success shows the server's message as sent (empty when absent), styled as a success. A rejection shows the server's detail or "An error occurred", and a thrown error "Failed to sign up. Please try again.", both styled as errors |
| Page.ActivityPage.Load | src/static/app.js:8-171 | A successful load replaces the cards and options: one fresh, distinct card per activity in order, each in its Rendered state, and the placeholder followed by one option per name. A failed load empties the list, shows the failure text and keeps the options |
| Page.ActivityPage.FindCard | src/static/app.js:197-198 | The loop finds the first card with the given name (IndexOfCard) |
| Page.ActivityPage.GlobalSubmit | src/static/app.js:174-248 | The page-level handler shows the message for the outcome. On success it resets the form and applies AfterGlobal to the first card named by the selected activity; no other card changes. On failure only the message changes |

## Left out

- Flask routing, static file serving and `app.run` (server.py:1-4, 23-30, 55-56) are framework plumbing.
- `jsonify` and HTTP statuses on the wire: a response is the `Response` value.
- `fetch`, `response.json()`, the status-to-`ok` mapping and `encodeURIComponent`
  (app.js:10-11, 105-109, 181-188) are foreign network and library calls. A load is given
  its decoded result or None. A signup request is given its outcome as a `Reply`:
  accepted, rejected, or thrown. `Cards.FromServer` supplies the mapping from a server
  `Response` to a `Reply` only for the lemmas that relate a card to the server's table.
- DOM nodes are kept only as the abstract fields they affect. Left out: element creation,
  `innerHTML` templating, inline styles, CSS classes, `querySelector` lookups, and the
  title, description and schedule text.
- The input and the button of a card's form are always disabled together; one flag
  stands for both.
- `setTimeout` hiding of messages (app.js:146, 239-241) is timing: a shown message stays shown.
- `console.error` logging is left out.
- Overlapping or repeated in-flight submits are asynchronous interleaving, which is
  concurrency: each submit is modelled as completing before the next event.
- The browser's refusal to submit a form from disabled controls is not modelled.
  `SubmitInline` may be called on a disabled card.
- The browser's validation of the inline input (`type="email" required`, app.js:81) is not
  modelled. Any typed text reaches the handler, a superset of what the browser lets through.
- `parseInt` of `dataset.max` and `dataset.count` (app.js:214-215) is left out: the
  dataset values are integers.
- A load that throws after it has started building cards is not modelled. A failed load
  means the request or the decoding failed, before anything was cleared.
- The page's initial HTML (index.html) is not part of this model. A new page has no
  cards, no options and empty fields.
- Participant object fields are strings, with "" for absent. Non-string field values
  (numbers, nested objects) are not modelled.
- A participant's JSON text is carried with the value rather than computed, since
  `JSON.stringify` is a library call.
- The normalisation at app.js:119 and 208 is applied to `email`, which is always a string
  there. It therefore yields the email itself (`DisplayText` of a string), and the model
  uses the email directly.
- Multiple `email` query parameters are not modelled: `request.args.get` sees the first
  one, modelled as an optional string.
