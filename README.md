# UrlShortener form component — a Dafny model

The `UrlShorten` page of the URL-shortening web application collects a long
URL, an optional custom short code, an optional password, an active flag and a
comment (which it can fill from the page title a backend scrapes), asks a
backend to create the short URL, and keeps a table of the short URLs created
so far in the browser's `localStorage` under the key `urlDatabase`. Each row
of that table can be switched active or inactive; the switch is applied
optimistically and rolled back when the backend refuses it.

This project models that component as a state machine:

- `js_string.dfy` (module `JsString`): `String.prototype.trim` over the full
  ECMAScript white-space and line-terminator set, with its characterisation.
- `url_list.dfy` (module `UrlList`): the cached record, and the pure list
  transformations of the handlers — building a record, flipping the active
  flag of the records with a short code (`Array.prototype.map`), and finding
  the first record with a short code (`Array.prototype.find`) — with lemmas
  relating them (toggling is an involution, commutes, keeps the codes, and
  moves the found record's flag).
- `url_shorten.dfy` (module `UrlShorten`): class `UrlShortenForm`, whose
  fields are the component's state (`urlList`, its stored copy `stored`, the
  form fields, the alert) and whose methods are the handlers. Each remote call
  is an outcome parameter (`ScrapeOutcome`, `ShortenOutcome`,
  `UpdateOutcome`); the request a handler would send is its result, `None`
  when it sends nothing. The invariant `Valid()` says the stored copy equals
  the in-memory list; the constructor establishes it and every method keeps
  it. The toggle handler is split at its `await` into `BeginToggle` (snapshot, optimistic flip, optimistic write) and
  `SettleToggle` (keep or roll back), composed by `ToggleUrlActive`.

The clock (`new Date().toISOString()`) is the parameter `now` of
`HandleShorten`. The list read from storage at mount is the constructor's
parameter.

The model follows the code as written: the scrape request carries the URL as typed, not trimmed; a create response
without `shortUrl` shows "錯誤 / 短網址產生失敗" while an exception shows
"無法建立短網址 / 這個短網址可能已經被使用了…" (the first alert set in the
`catch` block is overwritten at once); and toggling a short code that is not
cached makes the handler dereference `undefined` inside its `try`, so it sends
nothing, rolls back to the (identical) snapshot and shows the update-failure
alert.

## Model

| member | source | states |
|---|---|---|
| JsString.Trim | src/page/UrlShorten.jsx:44 | `trim()` never lengthens its input |
| JsString.TrimStartSpec | src/page/UrlShorten.jsx:66 | the leading part `trim()` removes is white space and what remains is a suffix not starting with white space |
| JsString.TrimEndSpec | src/page/UrlShorten.jsx:66 | the trailing part `trim()` removes is white space and what remains is a prefix not ending with white space |
| JsString.TrimSpec | src/page/UrlShorten.jsx:66-69 | `trim()` is the infix with white space cut off on both sides, and is empty exactly when the input is all white space (the "nothing entered" test of both handlers) |
| JsString.TrimIdempotent | src/page/UrlShorten.jsx:66 | trimming an already trimmed URL changes nothing |
| UrlList.NewRecord | src/page/UrlShorten.jsx:88-95 | the cached record takes the response's short code, the sent URL, the current flag and comment, the timestamp, and is secret exactly when the password holds a non-white-space character |
| UrlList.CustomCodeParam | src/page/UrlShorten.jsx:67-79 | the custom code is sent as null exactly when the field is blank, otherwise as the non-empty trimmed text |
| UrlList.ToggleActive | src/page/UrlShorten.jsx:124-129 | same length; a record's flag is negated exactly when its short code matches; every other field of every record is unchanged |
| UrlList.FindByCode | src/page/UrlShorten.jsx:134-136 | finds nothing exactly when no record has the code; otherwise the record found has the code and no earlier record does |
| UrlList.ToggleTwiceRestores | src/page/UrlShorten.jsx:124-129 | toggling the same code twice gives back the original list |
| UrlList.ToggleAbsentIsIdentity | src/page/UrlShorten.jsx:124-129 | toggling a code no record carries leaves the list as it was |
| UrlList.ToggleKeepsCodes | src/page/UrlShorten.jsx:124-129 | a toggle changes no short code, so every code is cached after it exactly when it was before |
| UrlList.ToggleCommutes | src/page/UrlShorten.jsx:124-129 | toggles of two codes give the same list in either order |
| UrlList.FindAfterToggle | src/page/UrlShorten.jsx:124-136 | the record found in the toggled list is the record found before, with its flag negated |
| UrlShorten.ToggleRequestNegatesFlag | src/page/UrlShorten.jsx:124-142 | an update request is sent exactly when the code is cached, for that code, asking for the negation of the first matching record's flag |
| UrlShorten.UrlShortenForm.constructor | src/page/UrlShorten.jsx:17-28 | the list and its stored copy are what storage held; the fields are empty, the active flag is set, no alert is shown |
| UrlShorten.UrlShortenForm.SetOriginUrl | src/page/UrlShorten.jsx:181 | typing sets the URL field |
| UrlShorten.UrlShortenForm.SetCustomCode | src/page/UrlShorten.jsx:193-198 | typing sets the uncontrolled short-URL field |
| UrlShorten.UrlShortenForm.SetPassword | src/page/UrlShorten.jsx:222 | typing sets the password field |
| UrlShorten.UrlShortenForm.SetComment | src/page/UrlShorten.jsx:254 | typing sets the comment field |
| UrlShorten.UrlShortenForm.FlipActiveField | src/page/UrlShorten.jsx:264 | the checkbox negates the active flag |
| UrlShorten.UrlShortenForm.CloseAlert | src/page/UrlShorten.jsx:166 | closing hides the alert |
| UrlShorten.UrlShortenForm.HandleGetMeta | src/page/UrlShorten.jsx:43-62 | a blank URL sends nothing and changes nothing; otherwise the typed URL is sent, and the title fills `meta.title` and the comment, or the failure alert is raised and the comment kept |
| UrlShorten.UrlShortenForm.HandleShorten | src/page/UrlShorten.jsx:64-119 | blank URL: no request, list and store unchanged, "enter a URL" alert; otherwise the request carries the trimmed URL, custom code, flag, comment and password; with a short URL in the response the new record is prepended to list and store and every field but the active flag is cleared; without one, or on an exception, list and fields are unchanged and the matching alert is shown |
| UrlShorten.UrlShortenForm.BeginToggle | src/page/UrlShorten.jsx:121-136 | the snapshot is the list on entry; list and store both become the toggled list before any answer; the request is the one for the record found in the toggled list |
| UrlShorten.UrlShortenForm.SettleToggle | src/page/UrlShorten.jsx:138-151 | after a successful update list and alert are kept; when nothing was sent or the update failed, list and store are the snapshot and the update-failure alert is shown |
| UrlShorten.UrlShortenForm.ToggleUrlActive | src/page/UrlShorten.jsx:121-152 | a request is sent exactly when the code is cached, negating its flag; on success list and store equal the toggled list; on failure or an uncached code they equal the list on entry and the update-failure alert is shown |
| UrlShorten.ToggleTwiceIsIdentity | src/page/UrlShorten.jsx:121-152 | two successful toggles of a cached code leave list and store as they were |

## Left out

- HTTP calls to `/api/scrape`, `/api/shorten` and `/api/updateUrlActive`: each is an outcome parameter; the base URL from the environment plays no part.
- JSON encoding and decoding of the stored list: `stored` is a copy of the list; a malformed stored value (where `JSON.parse` would throw at mount) is not modelled.
- Exceptions `localStorage.setItem` could raise (quota exceeded) are not modelled.
- Toast notifications (the blank-URL message of the metadata fetch, the success messages), the clipboard copy and password visibility: UI side effects with no state the handlers read.
- The JSX rendering and the table component that displays the list.
- HandleGetMeta: a scrape response without a string title (JavaScript would write the text "undefined" into the comment) is not modelled; the title is a string.
- HandleShorten: a response whose `shortCode` is absent is modelled as a string; `res.data` being absent (a thrown TypeError, handled by the same catch block) is folded into the exception outcome.
- Interleaving of handlers at their `await` points (a toggle racing a shorten or a second toggle) is not modelled; each handler is one atomic step, except that the toggle is split at its `await` into two methods.
