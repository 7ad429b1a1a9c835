# Ticket dashboard demo, modelled in Dafny

The demo is a small ticket tracker made of three parts. Each part becomes a
Dafny module, and the model keeps each part's own shape.

- **The local dashboard page** (`DemoLocal`). It holds a list of tickets in
  page state, starting from five seed tickets. It shows the tickets that
  pass a search and two selectors (status, priority), and four count cards.
  Tickets can be removed, and a drawer hosts a form that creates a new
  ticket or edits an existing one through `upsert`.
  - The list transforms (`filtered`, `counts`, the `remove` and `upsert`
    updaters, `handleSubmit`) are pure functions.
  - The page state is the class `LocalDemo`. Its methods replace one field
    at a time, as the handlers do.
- **The server-backed page** (`DemoApi`). It shows the tickets the server
  returned, filtered by the search box. One row at a time can be edited
  inline through `editingId` and `draft`. The page sends create, update and
  delete requests.
  - The class `ApiDemo` is that state machine.
  - A request is modelled by the body it sends and whether the server
    answers with success.
  - A successful mutation sets `stale`, which stands for invalidating the
    cached list query.
- **The ticket service** (`Backend`). It is a dictionary from id to ticket
  that remembers insertion order, seeded with three tickets.
  - The service lists tickets newest first, and creates, partially updates
    and deletes them in place.
  - The class `TicketTable` holds the dictionary as a map `db` plus the key
    order `order`.
  - The pure value `Table` and the functions `Put`, `Delete` and `Listing`
    specify the class's methods.

Shared pieces:

- `Tickets`: the ticket record, the two closed enumerations with their
  wire spellings, and the search test both pages use.
- `Text`: the string operations the pages rely on: lower-casing, substring
  search, white-space trimming, and the decimal rendering of a number with
  its last-six-characters slice.
- `Seqs`: the order-preserving filter `Keep` that `Array.prototype.filter`
  becomes, and its laws.
- `Wrappers`: `Option` and `Result`.

## Model

| member | source | states |
|---|---|---|
| Tickets.ParseStatus | backend/main.py:23 | a text is accepted as a status exactly when it is one of the three spellings, and the status found spells back to that text |
| Tickets.ParsePriority | backend/main.py:24 | a text is accepted as a priority exactly when it is one of the three spellings, and the priority found spells back to that text |
| Tickets.StatusRoundTrip | backend/main.py:23 | every status survives the trip to its spelling and back; no other text parses to it |
| Tickets.PriorityRoundTrip | backend/main.py:24 | every priority survives the trip to its spelling and back; no other text parses to it |
| Tickets.MatchesQuery | src/pages/DemoLocal.tsx:64 | a ticket matching the query has a title or assignee at least as long as the query; a query equal to the title or the assignee up to case always matches |
| Tickets.EmptyQueryMatches | src/pages/DemoLocal.tsx:64 | the empty query matches every ticket, because the empty string occurs in every string |
| Text.Lower | src/pages/DemoLocal.tsx:64 | lower-casing keeps the length and maps each character through the ASCII case table |
| Text.LowerIdempotent | src/pages/DemoLocal.tsx:64 | lower-casing twice is lower-casing once |
| Text.TrimEmptyIffBlank | src/pages/DemoLocal.tsx:258 | `title.trim()` is empty exactly when the title is only white space |
| Text.Suffix | src/pages/DemoLocal.tsx:87 | `slice(-k)` for a positive `k` keeps the last `k` characters, or the whole text when it is shorter: the text is what precedes the result followed by the result |
| Text.Contains | src/pages/DemoLocal.tsx:64 | `includes`: a text found inside another is no longer than it, and a text of the same length is found exactly when the two are equal |
| Text.TrimStart | src/pages/DemoLocal.tsx:258 | the result is a tail of the text that does not start with white space, and everything dropped is white space |
| Text.TrimEnd | src/pages/DemoLocal.tsx:258 | the result is a head of the text that does not end with white space, and everything dropped is white space |
| Text.Trim | src/pages/DemoLocal.tsx:258 | `trim()` gives a text that occurs in the original and neither starts nor ends with white space |
| Text.DecimalString | src/pages/DemoLocal.tsx:87 | `toString()` of a number gives at least one character, all decimal digits, with no leading zero except for 0 itself |
| Text.DecimalStringValue | src/pages/DemoLocal.tsx:87 | reading the decimal rendering back gives the number: the rendering loses nothing |
| Text.DecimalStringShort | src/pages/DemoLocal.tsx:87 | a number below `10^k` renders in at most `k` digits |
| Text.SuffixIsLowDigits | src/pages/DemoLocal.tsx:87 | the last `k` characters of a rendering with at least `k` digits are the number's `k` lowest digits |
| Text.LowDigitsPeriodic | src/pages/DemoLocal.tsx:87 | adding `10^k` to a number leaves its `k` lowest digits unchanged |
| Seqs.Keep | src/pages/DemoLocal.tsx:63 | the filter's result is no longer than its input and holds exactly the input's elements that pass the test |
| Seqs.KeepMultiset | src/pages/DemoLocal.tsx:63 | the filter takes no element more often than the input holds it, and keeps every occurrence of an element that passes, repeats included |
| Seqs.KeepIsSubsequence | src/pages/DemoLocal.tsx:63 | the filter's result is a subsequence of its input: nothing reordered or repeated |
| Seqs.Reverse | backend/main.py:74 | `[::-1]` keeps the length and puts element `i` at position `n-1-i` |
| DemoLocal.Matches | src/pages/DemoLocal.tsx:63-67 | a shown ticket matches the search; a ticket whose status or priority differs from a chosen selector is hidden; with both selectors on "All" the search alone decides |
| DemoLocal.Filtered | src/pages/DemoLocal.tsx:62-69 | the rows are a subsequence of `items` in list order; a ticket is shown exactly when it passes the search and both selectors, and each shown ticket appears as often as in `items` |
| DemoLocal.FilteredShowsAll | src/pages/DemoLocal.tsx:63-67 | with an empty query and both selectors on "All", every ticket is shown, in order |
| DemoLocal.FilteredIdempotent | src/pages/DemoLocal.tsx:63-67 | filtering the rows again with the same inputs changes nothing |
| DemoLocal.SeedKeepLength | src/pages/DemoLocal.tsx:18-24 | the number of seed tickets passing a test is the sum over the five seed tickets |
| DemoLocal.LowerBug | src/pages/DemoLocal.tsx:64 | the query "bug" is already lower case |
| DemoLocal.MissesBugWithoutU | src/pages/DemoLocal.tsx:64 | a text without the letter u in either case cannot contain "bug" once lower-cased |
| DemoLocal.LoginBugMatches | src/pages/DemoLocal.tsx:19 | the title of T-1001 contains "bug" |
| DemoLocal.UpgradeTitleMisses | src/pages/DemoLocal.tsx:20 | the title of T-1002 does not contain "bug" |
| DemoLocal.BillingTitleMisses | src/pages/DemoLocal.tsx:21 | the title of T-1003 does not contain "bug" |
| DemoLocal.DashboardTitleMisses | src/pages/DemoLocal.tsx:22 | the title of T-1004 does not contain "bug" |
| DemoLocal.OrdersTitleMisses | src/pages/DemoLocal.tsx:23 | the title of T-1005 does not contain "bug" |
| DemoLocal.AssigneesMiss | src/pages/DemoLocal.tsx:20-23 | none of the assignees of T-1002 to T-1005 contains "bug" |
| DemoLocal.OthersMissBug | src/pages/DemoLocal.tsx:20-23 | none of T-1002 to T-1005 matches the query "bug" |
| DemoLocal.SeedSearchBug | src/pages/DemoLocal.tsx:62-69 | on the seed list, the query "bug" with both selectors on "All" shows exactly `[T-1001]` |
| DemoLocal.StatusCountsPartition | src/pages/DemoLocal.tsx:71-76 | the open, in-progress and closed counts add up to the number of tickets |
| DemoLocal.CountStatus | src/pages/DemoLocal.tsx:73-75 | the count for a status is the number of positions in the list whose ticket has that status |
| DemoLocal.CountsOf | src/pages/DemoLocal.tsx:71-76 | the total card is the list length; each status card is the number of tickets with that status; the three status cards add up to the total |
| DemoLocal.SeedCounts | src/pages/DemoLocal.tsx:71-76 | the seed list shows total 5, open 2, in progress 2, closed 1 |
| DemoLocal.Removed | src/pages/DemoLocal.tsx:80 | no ticket with the id remains; the others stay, in order, each as often as before; a list without that id is returned unchanged |
| DemoLocal.RemovedKeepsUniqueIds | src/pages/DemoLocal.tsx:80 | removal keeps ids unique |
| DemoLocal.HasId | src/pages/DemoLocal.tsx:84 | `if (data.id)` takes the edit branch exactly for a present, non-empty id |
| DemoLocal.Spread | src/pages/DemoLocal.tsx:85 | `{ ...p, ...data }` takes the five data fields from the data, and the id from the data when it has one, else from `p` |
| DemoLocal.NewId | src/pages/DemoLocal.tsx:87 | a generated id is "T-" followed by one to six decimal digits |
| DemoLocal.NewIdShape | src/pages/DemoLocal.tsx:87 | once the clock reaches 100000 the id is "T-" and the clock's six lowest digits, eight characters in all; before, "T-" and all of the clock's digits |
| DemoLocal.NewIdRepeats | src/pages/DemoLocal.tsx:87 | two clock readings 1000000 ms apart generate the same id |
| DemoLocal.Upserted | src/pages/DemoLocal.tsx:82-90 | with an id: same length and ids, every ticket with that id takes the data's fields, every other ticket is untouched, no match means no change; without one: one ticket in front with the generated id and the data's fields, the old list after it |
| DemoLocal.UpsertedKeepsUniqueIds | src/pages/DemoLocal.tsx:82-90 | an edit keeps ids unique; a creation does too when the generated id is not taken |
| DemoLocal.DataOf | src/pages/DemoLocal.tsx:239 | a ticket passed as form data merges back into itself |
| DemoLocal.FormInitial | src/pages/DemoLocal.tsx:239 | editing starts from the ticket itself; a new ticket starts with no id, empty title and assignee, Open, Medium, and the current time |
| DemoLocal.HandleSubmit | src/pages/DemoLocal.tsx:256-260 | nothing is submitted exactly when the title is only white space; otherwise the four fields come from the form and id and createdAt from `initial` |
| DemoLocal.UnchangedEditIsNoop | src/pages/DemoLocal.tsx:238-240 | saving the edit form of a listed ticket without changes leaves the list as it was |
| DemoLocal.LocalDemo.constructor | src/pages/DemoLocal.tsx:55-59 | the page starts with the seed list, an empty search, both selectors on "All" and the drawer closed |
| DemoLocal.LocalDemo.SetQuery | src/pages/DemoLocal.tsx:56 | the search box changes the query and nothing else |
| DemoLocal.LocalDemo.SetStatusFilter | src/pages/DemoLocal.tsx:57 | the status selector changes that selector and nothing else |
| DemoLocal.LocalDemo.SetPriorityFilter | src/pages/DemoLocal.tsx:58 | the priority selector changes that selector and nothing else |
| DemoLocal.LocalDemo.OpenNew | src/pages/DemoLocal.tsx:78 | the drawer opens on a new ticket; the list and filters are unchanged |
| DemoLocal.LocalDemo.OpenEdit | src/pages/DemoLocal.tsx:79 | the drawer opens on the given ticket; the list and filters are unchanged |
| DemoLocal.LocalDemo.CloseDrawer | src/pages/DemoLocal.tsx:236 | the drawer closes; the list and filters are unchanged |
| DemoLocal.LocalDemo.Remove | src/pages/DemoLocal.tsx:80 | the list becomes the list without that id; nothing else changes |
| DemoLocal.LocalDemo.Upsert | src/pages/DemoLocal.tsx:82-90 | the list becomes the upserted list; nothing else changes |
| DemoLocal.LocalDemo.Submit | src/pages/DemoLocal.tsx:238-240 | a blank title leaves the list and the open drawer alone; otherwise the submitted data is upserted and the drawer closes |
| DemoApi.Items | src/pages/DemoApi.tsx:16 | `data ?? []`: no answer gives the empty list, an answer gives its tickets |
| DemoApi.Visible | src/pages/DemoApi.tsx:16-17 | the rows are the server's tickets, none without an answer, that match the search, in server order, each as often as the server sent it |
| DemoApi.VisibleIsUnfilteredSearch | src/pages/DemoApi.tsx:17 | this page's search is the local page's filter with both selectors on "All" |
| DemoApi.DraftOf | src/pages/DemoApi.tsx:23-26 | the draft copies the four editable fields of the ticket |
| DemoApi.UpdateBodyOf | src/pages/DemoApi.tsx:34 | the update request carries the row id and the whole draft |
| DemoApi.IsEditing | src/pages/DemoApi.tsx:91 | no row is edited while `editingId` is null; otherwise exactly the rows whose id equals it |
| DemoApi.ApiDemo.CellsOf | src/pages/DemoApi.tsx:91-150 | the edited row shows the draft's title, status, priority and assignee; every other row shows the ticket's own |
| DemoApi.AtMostOneEditingRow | src/pages/DemoApi.tsx:91 | with unique ids, at most one row shows the inline editor |
| DemoApi.ApiDemo.constructor | src/pages/DemoApi.tsx:15-21 | the page starts with no data, an empty search, no edited row and no draft |
| DemoApi.ApiDemo.SetQuery | src/pages/DemoApi.tsx:55 | the search box changes the query and nothing else |
| DemoApi.ApiDemo.Refetched | src/services/tickets.ts:11 | a list answer replaces the data and the list is fresh again |
| DemoApi.ApiDemo.StartEdit | src/pages/DemoApi.tsx:23-26 | the row becomes the edited row with a copy of its fields, replacing any edit in progress |
| DemoApi.ApiDemo.CancelEdit | src/pages/DemoApi.tsx:27-30 | back to no edited row and no draft |
| DemoApi.ApiDemo.SetDraftTitle | src/pages/DemoApi.tsx:102 | the draft's title changes and its other fields do not |
| DemoApi.ApiDemo.SetDraftStatus | src/pages/DemoApi.tsx:115 | the draft's status changes and its other fields do not |
| DemoApi.ApiDemo.SetDraftPriority | src/pages/DemoApi.tsx:132 | the draft's priority changes and its other fields do not |
| DemoApi.ApiDemo.SetDraftAssignee | src/pages/DemoApi.tsx:149 | the draft's assignee changes and its other fields do not |
| DemoApi.ApiDemo.SaveEdit | src/pages/DemoApi.tsx:31-37 | without a draft nothing is sent and nothing changes; otherwise the id and the whole draft are sent, and only success ends the edit and marks the list stale |
| DemoApi.ApiDemo.QuickAdd | src/pages/DemoApi.tsx:58-64 | the button always sends "New from UI", Open, Medium, "You"; success marks the list stale |
| DemoApi.ApiDemo.DeleteRow | src/pages/DemoApi.tsx:173 | the button sends the row's id; success marks the list stale |
| Backend.Values | backend/main.py:74 | `list(DB.values())` holds the ticket of each key, in insertion order |
| Backend.Listing | backend/main.py:72-74 | the listing has one entry per key; its order, newest key first, is stated by `ListingIsReversedValues` |
| Backend.ListingIsReversedValues | backend/main.py:74 | the listing, newest key first, is `list(DB.values())[::-1]` |
| Backend.ListingIsContents | backend/main.py:72-74 | the listing holds every stored ticket and nothing else, as many entries as the dictionary has keys |
| Backend.Put | backend/main.py:58 | storing under a key sets that key; a new key goes last in the order, an existing key keeps its place |
| Backend.Delete | backend/main.py:104 | `del` removes the key from the dictionary; the order then holds exactly the other keys, in their old order |
| Backend.PutKeepsInv | backend/main.py:86 | storing a ticket under its own id keeps every key equal to its ticket's id, and the order free of repeats |
| Backend.DeleteKeepsInv | backend/main.py:104 | deleting a key keeps the table consistent |
| Backend.PutFreshListing | backend/main.py:76-87 | a ticket with a fresh id heads the listing and the old listing follows unchanged |
| Backend.PutFreshSize | backend/main.py:86 | a fresh id adds exactly one entry |
| Backend.PutExistingSize | backend/main.py:97 | storing under an existing id keeps the number of entries |
| Backend.PutExistingListing | backend/main.py:97 | storing under an existing id replaces that ticket at its position in the listing and changes no other entry |
| Backend.KeptKeysStored | backend/main.py:104 | every key that survives a deletion is still stored |
| Backend.ValuesCons | backend/main.py:74 | the values over a key followed by more keys are that key's ticket followed by the others' |
| Backend.DeleteValues | backend/main.py:104 | after deleting a key, the values in insertion order are the old ones without that ticket |
| Backend.DeleteListing | backend/main.py:100-105 | after deleting a key, the listing is the old listing without that ticket, in the same order |
| Backend.DeleteAbsentListing | backend/main.py:102-103 | when the id is not a key, no listed ticket carries it, so filtering it out leaves the listing as it was |
| Backend.ApplyUpdate | backend/main.py:89-98 | every field sent with a value replaces the stored one; fields left out, `id` and `createdAt` stay |
| Backend.ApplyUpdateIdempotent | backend/main.py:95-97 | applying the same update twice is applying it once |
| Backend.CopyAsWritten | backend/main.py:95-96 | the copy keeps `id` and `createdAt` |
| Backend.CopyAgreesWithoutNulls | backend/main.py:95-96 | when no field is sent as null, the copy as written equals the corrected update |
| Backend.NullStatusBreaksSchema | backend/main.py:40-44 | the body `{"status": null}` makes the copy as written lose the status, while the corrected update leaves the ticket unchanged |
| Backend.SeedTable | backend/main.py:55-58 | after the first `k` seed rows are stored, the keys are exactly the first `k` seed ids |
| Backend.SeedTicket | backend/main.py:55-57 | seed row `k` gets id "T-" followed by 1001+k, and the one timestamp |
| Backend.SeedTableInv | backend/main.py:55-58 | every step of the seeding leaves a consistent table |
| Backend.SeedIds | backend/main.py:55-56 | the seed ids are T-1001, T-1002 and T-1003 |
| Backend.SeedIdInjective | backend/main.py:55-56 | different seed rows get different ids |
| Backend.SeedIdFresh | backend/main.py:55-58 | each seed row is stored under an id that is not yet taken |
| Backend.SeedListing | backend/main.py:48-60 | after seeding, the listing is T-1003, T-1002, T-1001 with their titles, statuses, priorities and assignees |
| Backend.TicketTable.constructor | backend/main.py:46 | the dictionary starts empty |
| Backend.TicketTable.Assign | backend/main.py:58 | `DB[t.id] = t` is `Put` on the table, and the table stays consistent |
| Backend.TicketTable.Seed | backend/main.py:48-58 | the loop leaves the table that storing the three seed rows in order gives |
| Backend.TicketTable.ListTickets | backend/main.py:72-74 | the answer is the stored values in insertion order, reversed; it holds every stored ticket, once each, and nothing else |
| Backend.TicketTable.CreateTicket | backend/main.py:76-87 | the new ticket carries the body's four fields, the given id and time; it is stored under its id; a fresh id grows the table by one and heads the listing |
| Backend.TicketTable.UpdateTicket | backend/main.py:89-98 | an unknown id gives not-found and changes nothing; a known id stores the ticket the corrected merge `ApplyUpdate` gives (see Findings) under it, keeping the key order, so the ticket keeps its place in the listing and no other entry changes |
| Backend.TicketTable.DeleteTicket | backend/main.py:100-105 | an unknown id gives not-found and changes nothing; a known id removes exactly that ticket; either way the listing becomes the old listing without that id |

## Left out

- Rendering is left out: JSX, `Badge`, `Card`, `cn`, the sidebar toggle and the styling carry no state the tickets depend on.
- `Text.Lower`: ASCII letters only. `toLowerCase` also folds non-ASCII letters, and a search over non-ASCII text may differ.
- The form fields of `TicketForm` are not modelled one setter at a time. `LocalDemo.Submit` takes the four field values the form holds when it is submitted.
- `DemoApi.Draft` types status and priority as the two enumerations. The page keeps them as strings, but its selectors only offer the three spellings of each.
- `isLoading` and `isError` are left out: they only choose what is rendered.
- `updateMut.isPending` is left out: disabling the Save button while a request is pending is a UI concern.
- The order in which concurrent requests finish is left out. `SaveEdit`, `QuickAdd` and `DeleteRow` each complete at once, with their outcome given as a parameter.
- `src/services/tickets.ts` sends the requests through a `./http` module that is not part of this model.
- The HTTP layer is left out: request parsing, 422 validation errors, routing, CORS, the root redirect and `/healthz`. A failure is the `NotFound` value of a `Result`.
- Clocks and randomness are parameters: `Date.now()` is a `nat`, and `new Date().toISOString()`, `datetime.utcnow()` and `uuid4()` are given as texts. `createdAt` is kept as text on both sides.
- `DemoLocal.UpsertedKeepsUniqueIds`: it assumes the generated id is not already taken, because `upsert` does no collision check. `NewIdRepeats` shows that ids generated 1000000 ms apart collide.
- Backend.TicketTable.UpdateTicket: applies the corrected merge `ApplyUpdate`, so a field sent as `null` keeps its stored value; the code as written stores `None` there, which `CopyAsWritten` models (see Findings).
- `DemoLocal.Upserted`: a data id that is present but empty is falsy, so a new ticket is prepended. The spread then copies the empty id over the generated one; the model does the same.
- The seed list holds two open, two in-progress and one closed ticket, as the code's seed data does.

## Findings

| source | as written | input that shows it | evidently intended | confidence | as-written member | corrected member |
|---|---|---|---|---|---|---|
| backend/main.py:95-97 | `model_dump(exclude_unset=True)` keeps fields that were sent explicitly as `null`, and `copy(update=...)` does not validate, so the stored ticket loses that field | `PUT /tickets/T-1001` with body `{"status": null}` stores T-1001 with no status, outside the `Ticket` schema | a field sent as `null` leaves the stored value as it was; only fields with a value replace it | medium, not executed | Backend.NullStatusBreaksSchema | Backend.ApplyUpdate |
