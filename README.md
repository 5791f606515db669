# NoteHub client core in Dafny

A model of the logic that the NoteHub single-page client writes itself, around
the libraries that do the rest:

- **Note service** (`src/services/noteService.ts`): the client refuses to start
  without a bearer token; every request carries `Authorization: Bearer <token>`
  against `https://notehub-public.goit.study/api`; the list request passes `page`
  and `perPage` through and sends `search` trimmed, or not at all when it trims
  to the empty string; create and delete build fixed paths and send the payload
  unchanged. Each operation is a pure function from its inputs to a `Request`
  record (verb, base URL, path, query parameters, headers, body).
  `String.prototype.trim` is modelled exactly (module `Text`): it strips the
  WhiteSpace and LineTerminator code points of ECMA-262 sections 12.2 and 12.3.
- **Note form** (`src/components/NoteForm/NoteForm.tsx`): the validation schema
  written as data (chains of string tests, a closed set of tag literals), proved
  equal to direct validity predicates (title 3 to 50 long, content at most 500,
  tag one of five literals); the initial values; and a form-state class whose
  submit hands on the current values and then resets to the initial values.
  Lengths are JavaScript lengths, counted in UTF-16 code units.
- **App** (`src/components/App/App.tsx`): a class holding `page`, `search` and
  `isModalOpen` with one method per handler, each tied to a pure transition on a
  `UiState` record; the list query's key and parameters; and the display rule
  from `(isError, isFetching, notes, totalPages)` to the parts of the page shown.

Modules: `Wrappers` (Option, Result), `Text`, `Note`, `NoteService`, `NoteForm`,
`App`, one file each.

Three things the code does not do:

- `createNote` posts its payload as it is; it has no tag check and raises no
  error (src/services/noteService.ts:59-62).
- `deleteNote` returns the reply body typed as `{ note }`; it detects and
  normalises no other reply shape (src/services/noteService.ts:41-43, 64-69).
- The display rule does not show exactly one of error, loading, empty message
  or list: when a refetch fails while the previous page is still held, the error
  message and the list show together (src/components/App/App.tsx:61-67,
  `App.ErrorBesideStaleList`). What holds is that the three messages exclude
  each other and that exactly one shows when there are no notes (`App.Display`).

## Model

| member | source | states |
|---|---|---|
| `Text.LeadingTrimmable` | src/services/noteService.ts:52 | the count of leading code points that trim removes: all of them are trimmable and the next one, if any, is not |
| `Text.TrailingStart` | src/services/noteService.ts:52 | the index where the trailing run that trim removes begins: everything from it on is trimmable and the code point before it, if any, is not |
| `Text.LeadingTrimmableOf` | src/services/noteService.ts:52 | a run of trimmable code points followed by nothing or by a non-trimmable one is counted exactly |
| `Text.TrailingStartOf` | src/services/noteService.ts:52 | a run of trimmable code points after nothing or after a non-trimmable one is cut exactly |
| `Text.Trim` | src/services/noteService.ts:52 | the trimmed string has no trimmable code point at either end |
| `Text.TrimSlice` | src/services/noteService.ts:52 | trim returns a slice `s[i..j]` of its input with only trimmable code points before `i` and after `j` |
| `Text.TrimStrips` | src/services/noteService.ts:52 | trimming a trimmed string padded on both sides with trimmable code points gives back that string |
| `Text.TrimFixedIff` | src/services/noteService.ts:52 | trim leaves a string unchanged if and only if neither of its ends is trimmable |
| `Text.TrimIdempotent` | src/services/noteService.ts:52 | trimming twice equals trimming once |
| `Text.TrimEmptyIff` | src/services/noteService.ts:52 | trim gives the empty string if and only if every code point is trimmable |
| `Text.Utf16Length` | src/components/NoteForm/NoteForm.tsx:19-20 | the JavaScript length lies between the number of code points and twice that, and is zero only for the empty string |
| `Text.Utf16LengthBmp` | src/components/NoteForm/NoteForm.tsx:19-20 | on text with no code point above U+FFFF the JavaScript length equals the number of code points |
| `Note.ParseTag` | src/components/NoteForm/NoteForm.tsx:21-23 | a string reads as a tag if and only if it is one of the five literals, and the tag read back prints as that string |
| `Note.TagRoundTrip` | src/components/NoteForm/NoteForm.tsx:22 | every tag prints as one of the five literals and reads back as itself |
| `NoteService.NewClient` | src/services/noteService.ts:6-19 | setup fails with the missing-token error if and only if the token is undefined or empty; otherwise the client has the fixed base URL and the header `Authorization = "Bearer " + token` |
| `NoteService.NormalizeSearch` | src/services/noteService.ts:52 | the search is absent if and only if it was absent or all whitespace; when present it is the trimmed input, non-empty, with no whitespace at either end |
| `NoteService.NormalizeSearchIdempotent` | src/services/noteService.ts:52 | normalising an already normalised search returns it unchanged |
| `NoteService.FetchNotesRequest` | src/services/noteService.ts:45-57 | a GET to `/notes` with no body, with `page` and `perPage` exactly as given, no keys besides these and `search`, and `search` present exactly when the normalised search is, holding its value |
| `NoteService.ListRequestSearch` | src/services/noteService.ts:49-53 | the list request has no `search` key if and only if the search is absent or all whitespace; otherwise the key holds the trimmed search, non-empty and with no whitespace at either end |
| `NoteService.SameNormalizedSearchSameRequest` | src/services/noteService.ts:48-54 | two list calls with the same page, per-page count and normalised search send the same request |
| `NoteService.CreateNoteRequest` | src/services/noteService.ts:59-62 | a POST to `/notes` without query parameters whose body is the payload unchanged |
| `NoteService.DeleteNoteRequest` | src/services/noteService.ts:64-69 | a DELETE without body or parameters whose path is `/notes/` followed by the id |
| `NoteService.DeleteTargetsOneNote` | src/services/noteService.ts:66 | two delete paths are equal if and only if their ids are equal |
| `NoteService.Issue` | src/services/noteService.ts:8-19 | no operation yields a request unless the token is present, and every request it yields has the fixed base URL and the bearer header for that token |
| `NoteService.BlankSearchScenario` | src/services/noteService.ts:49-53 | listing page 1, 12 per page, with search `"  "` sends exactly `page=1` and `perPage=12` |
| `NoteForm.PassesAll` | src/components/NoteForm/NoteForm.tsx:19-20 | a chain of string tests accepts a value if and only if each test in it does |
| `NoteForm.Validate` | src/components/NoteForm/NoteForm.tsx:18-24 | the schema rejects the title if and only if its length is outside 3 to 50, the content if and only if it is longer than 500, the tag if and only if it is not one of the five literals; no field is rejected if and only if the form is valid |
| `NoteForm.InitialValuesRejected` | src/components/NoteForm/NoteForm.tsx:26-30 | the initial tag and content are valid but the empty initial title is not, so the schema rejects exactly the title |
| `NoteForm.NoteFormState.constructor` | src/components/NoteForm/NoteForm.tsx:46-47 | the form starts with the initial values |
| `NoteForm.NoteFormState.Change` | src/components/NoteForm/NoteForm.tsx:54 | an edit sets one field and leaves the other two as they were |
| `NoteForm.NoteFormState.HandleSubmit` | src/components/NoteForm/NoteForm.tsx:37-43 | the values handed on are the values as submitted, and afterwards the form holds the initial values |
| `App.ListQueryRequest` | src/components/App/App.tsx:21-28 | the list query requests the current page, 12 per page, and the debounced search trimmed, or no search when it is blank |
| `App.KeyDeterminesRequest` | src/components/App/App.tsx:22-28 | two equal cache keys issue the same request |
| `App.PaddedSearchSharesRequest` | src/components/App/App.tsx:22-28 | a trimmed search and the same search with leading whitespace get different cache keys but send the same request |
| `App.Display` | src/components/App/App.tsx:48-67 | pagination shows if and only if there is more than one page; the error, loading and empty messages exclude each other pairwise and exactly one shows when there are no notes, and without an error that is loading exactly while fetching and the empty message exactly when not; the list shows if and only if there are notes, and then neither the loading nor the empty message does |
| `App.NoDataView` | src/components/App/App.tsx:40-41 | without data the notes are empty and the page count 0, so there is no pagination and no list, and exactly one message shows |
| `App.ErrorBesideStaleList` | src/components/App/App.tsx:61-67 | an error with a held non-empty page shows the error message and the list together |
| `App.SearchChanged` | src/components/App/App.tsx:32-35 | the search becomes the new value, the page 1, and the modal flag is unchanged |
| `App.ModalOpened` | src/components/App/App.tsx:37 | the modal flag becomes true; page and search are unchanged |
| `App.ModalClosed` | src/components/App/App.tsx:38 | the modal flag becomes false; page and search are unchanged |
| `App.PageChanged` | src/components/App/App.tsx:52 | the page becomes the chosen one; search and modal flag are unchanged |
| `App.ModalHandlersIdempotent` | src/components/App/App.tsx:37-38 | opening or closing twice equals doing it once, and whichever of the two runs last decides the flag |
| `App.SearchResetsPage` | src/components/App/App.tsx:32-35 | a page change after a search keeps the search, and a search change discards any earlier page choice |
| `App.AppComponent.constructor` | src/components/App/App.tsx:15-17 | the component starts on page 1 with an empty search and the modal closed |
| `App.AppComponent.CurrentKey` | src/components/App/App.tsx:22 | the list query's key is the `notes` namespace, the current page and the debounced search |
| `App.AppComponent.HandleSearchChange` | src/components/App/App.tsx:32-35 | the new state is the search-change transition of the old state |
| `App.AppComponent.OpenModal` | src/components/App/App.tsx:37 | the new state is the old state with the modal open |
| `App.AppComponent.CloseModal` | src/components/App/App.tsx:38 | the new state is the old state with the modal closed |
| `App.AppComponent.SetPage` | src/components/App/App.tsx:52 | the new state is the old state on the chosen page |

## Left out

- Sending requests, awaiting replies and decoding them are the HTTP library's
  work: a request is the `Request` record it would send. The list reply is a
  `FetchNotesResponse` record whose `notes` and `totalPages` the view reads; the
  reply of create (a `Note`) and of delete (`{ note }`) are not modelled.
- The token is read from the build environment; here it is a parameter
  (`Option<string>`) of `NewClient` and `Issue`.
- Headers and encoding the HTTP library adds by itself (content type, the
  serialised query string and its parameter order) are not modelled; query
  parameters are a map, in which an `undefined` value is absent.
- Caching, de-duplication, keeping the previous page while refetching, cache
  invalidation after a mutation and out-of-order replies belong to the
  data-fetching library; `isError`, `isFetching` and `data` are inputs.
- The 500 ms debounce of the search text is timer behaviour; the debounced
  text is an input.
- Error messages, touched state and the scheduling of validation in the form
  libraries, including that submission only runs after validation passes, are
  not modelled; only the predicate the schema expresses is.
- `src/components/NoteList/NoteList.tsx` (markup plus a delete mutation with
  invalidation), the markup, styles, the modal, the pagination control and the
  form's cancel button and `isSubmitting` flag have no logic of their own here.
- The create flow in the App is absent in the code (the form is rendered without
  an `onSubmit`), so it is absent here too.
- The shape of a note beyond id, title, content and tag (`src/types/note.ts`) is
  not part of this model.
- JavaScript strings may hold lone surrogates; Dafny characters are Unicode
  scalar values, so such strings are not modelled. Page numbers are integers,
  not IEEE doubles.
