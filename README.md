# Portfolio site: verified model of its rule-bearing logic

This project is a Dafny model of the parts of a personal portfolio site that carry rules rather than markup.

The site has five such parts:

- **The Express back end** (`server/server.js`):
  - the contact-form validator;
  - the in-memory admin session table, with login, logout and the `authenticateAdmin` gate;
  - the paginated contact listing;
  - fetching and deleting a contact by id.
- **The top-level React component** (`src/App.tsx`):
  - the admin-path predicate;
  - the "type *raja* to open the dashboard" key window;
  - the section highlighted while scrolling.
- **The admin dashboard** (`src/components/AdminDashboard.tsx`):
  - the CSV export;
  - the "Showing X to Y of Z contacts" label;
  - the state changes of signing in, signing out and receiving data.
- **The particle background of the `frontend/` tree** (`frontend/src/components/ParticleBackground.tsx`):
  - a device-pixel canvas of at most 80 particles;
  - each particle is joined only to the next eight.
- **The particle background of the top-level tree** (`src/components/ParticleBackground.tsx`):
  - a page-tall canvas of at most 120 particles;
  - all ordered pairs are compared;
  - a scroll handler that only re-sizes.

Modules:

| file | module | what it holds |
|---|---|---|
| `wrappers.dfy` | `Wrappers` | `Option` |
| `js_text.dfy` | `JsText` | the JavaScript string operations used: `\s`, ASCII `toLowerCase`, `replace` with a string pattern, `join`, truthiness |
| `js_parse_int.dfy` | `JsParseInt` | `parseInt` without a radix, `parseInt(q) \|\| d`, and decimal rendering |
| `contact_validation.dfy` | `ContactValidation` | the POST /api/contact checks |
| `contact_listing.dfy` | `ContactListing` | the GET /api/contacts parameters, window and pagination block |
| `backend.dfy` | `Backend` | the session gate as functions, and the `Server` class (session map and contact store) with its routes |
| `app_shell.dfy` | `AppShell` | the key window and section picker as functions, and the `App` class with its handlers |
| `admin_dashboard.dfy` | `AdminDashboard` | the CSV builder and an RFC 4180 reader used to state its round trip, the label, and the `Dashboard` class |
| `particles.dfy` | `Particles` | seeding, wrap, move, and the lines drawn for a sequence of compared pairs |
| `viewport_particles.dfy` | `ViewportParticles` | the `frontend/` background: the `ViewportCanvas` class over an `array<Particle>` |
| `page_particles.dfy` | `PageParticles` | the top-level background: the `PageCanvas` class over an `array<Particle>` |

Everything that mutates state in place in the source is a class here:

- the session `Map` and the contact collection;
- the React state that the handlers set;
- the particle array that `animate` updates particle by particle.

Each method is specified against functions of the old state (`AuthStep`, `LogoutStep`, `KeyStep`, `SectionAt`, `StepAll`, `Connect`), and the properties are proved about those functions.

## Model

| member | source | states |
|---|---|---|
| JsText.Lower | src/App.tsx:64 | `toLowerCase` keeps the length and maps each character through ASCII lower-casing |
| JsText.JoinWithoutSeparator | src/App.tsx:69 | `join('')` is plain concatenation of the keys in order |
| JsText.IndexFrom | server/server.js:100 | the index returned is an occurrence of the pattern, no earlier occurrence exists, and `None` means there is none at all |
| JsText.ReplaceFirst | server/server.js:100 | `replace` with a string pattern replaces only the first occurrence; without one the string is unchanged |
| JsText.ReplaceLeadingPrefix | server/server.js:100 | removing `"Bearer "` from `"Bearer " + t` gives back `t` |
| JsParseInt.IntOr | server/server.js:327-328 | `parseInt(q) \|\| d` is `d` for an absent, unparseable or zero value, else the parsed non-zero integer |
| JsParseInt.ToDecimal | src/components/AdminDashboard.tsx:136 | a number renders as a non-empty string of decimal digits with no leading zero |
| JsParseInt.ParseIntOfDecimal | server/server.js:327-328 | `parseInt` reads back a positive integer's decimal rendering, whatever non-digit text follows |
| JsParseInt.QueryRoundTrip | src/components/AdminDashboard.tsx:136 | the page and limit the dashboard puts in its query are the ones the server parses |
| ContactValidation.IsValidEmail | server/server.js:254-255 | the check accepts a string iff it is in the language of `^[^\s@]+@[^\s@]+\.[^\s@]+$` |
| ContactValidation.EmailCheckSound | server/server.js:254-255 | no whitespace, a single `@` after the first character, and a `.` strictly inside the domain part imply a pattern match |
| ContactValidation.EmailCheckComplete | server/server.js:254-255 | a pattern match implies no whitespace, a single `@` with a non-empty local part, and a `.` strictly inside the domain part |
| ContactValidation.Validate | server/server.js:246-268 | accepted iff all four fields are non-empty, the e-mail matches and name ≤ 100, e-mail ≤ 150, subject ≤ 200, message ≤ 2000; otherwise the first failing check (required, format, lengths) names the rejection, each rejection stated as an iff |
| ContactValidation.AcceptedEmailShape | server/server.js:254-260 | an accepted address has exactly one `@`, with text on both sides |
| ContactListing.PageParam | server/server.js:327 | the page parameter is never 0 (0 and NaN fall back to 1) |
| ContactListing.LimitParam | server/server.js:328 | the limit parameter is never 0 (0 and NaN fall back to 10) |
| ContactListing.CeilDiv | server/server.js:344 | `Math.ceil(a / b)` is the least `q` with `a <= q·b` for a positive divisor (and the mirror bound for a negative one) |
| ContactListing.Window | server/server.js:331-335 | `.skip(s).limit(l)` returns at most `\|l\|` items: exactly the items from position `s` on, as many as remain up to `\|l\|` |
| ContactListing.ListAt | server/server.js:327-356 | a negative skip is the 500 answer; otherwise the items are the window at `(page-1)·limit` and the block is `currentPage = page`, `totalPages = ⌈total/limit⌉`, `hasNext = page·limit < total`, `hasPrev = page > 1` |
| ContactListing.DefaultListing | server/server.js:327-335 | without query parameters the first ten contacts are listed as page 1 with no previous page |
| ContactListing.PageArithmetic | server/server.js:344-346 | for positive page and limit, `page·limit < total` iff `page < totalPages`; earlier pages are full and later ones start past the end |
| ContactListing.NavigationFlags | server/server.js:339-349 | `hasNext` iff a later page exists, `hasPrev` iff an earlier one does, a page before the last holds `limit` items and one past the last none |
| ContactListing.EveryContactOnItsPage | server/server.js:327-349 | with a positive limit, contact `k` is item `k mod limit` of page `k div limit + 1`, which lies within `1..totalPages` |
| ContactListing.EveryContactListed | server/server.js:327-349 | the same through the query string the dashboard sends |
| Backend.HeaderToken | server/server.js:233 | a token is derived exactly when an Authorization header is present |
| Backend.RequestToken | server/server.js:100-104 | the header's token unless it is absent or empty, then the query token; no token means neither is a non-empty string |
| Backend.BearerHeaderRoundTrip | server/server.js:100 | a request sent with `Authorization: Bearer t` is known by `t` |
| Backend.AuthStep | server/server.js:99-115 | no token: 401 and the table is untouched; a token is admitted iff its session exists and has not expired (`expires >= now`); admission renews it to `now + 86400000`; refusal deletes it |
| Backend.AuthLeavesOthers | server/server.js:106-113 | the gate changes no entry other than the request's token |
| Backend.LogoutStep | server/server.js:232-238 | logout removes exactly the header's non-empty token and keeps every other entry |
| Backend.LogoutIdempotent | server/server.js:232-238 | logging out twice leaves the same table as logging out once |
| Backend.FreshSessionLifetime | server/server.js:107-113 | a token granted at time `t` is admitted and renewed up to `t + 86400000`, and refused and evicted after that |
| Backend.FindId | server/server.js:387 | the position found holds the id, and `None` means no stored contact has it |
| Backend.RemoveAt | server/server.js:387 | removing position `k` keeps every other contact, in order |
| Backend.NewestFirst | server/server.js:332 | the listing order is the insertion order reversed |
| Backend.DeleteRemovesExactlyOne | server/server.js:385-399 | with distinct ids, deleting a stored id leaves no contact with that id, keeps every other contact and keeps ids distinct |
| Backend.Server.constructor | server/server.js:96 | the server starts with no sessions and no contacts |
| Backend.Server.Login | server/server.js:191-221 | an unset or empty admin password gives 500 before the password is compared, a wrong password gives 401, and neither changes the table; a match adds exactly `token ↦ now + 86400000` and returns it |
| Backend.Server.Logout | server/server.js:232-238 | always answers "Logged out"; the new table is `LogoutStep` of the old (the query token is ignored) |
| Backend.Server.Authenticate | server/server.js:99-115 | the decision and the new table are those of `AuthStep`; contacts are unchanged |
| Backend.Server.Submit | server/server.js:241-291 | an invalid submission gives 400 with the first failing check's message and stores nothing; a failed save gives 500 and stores nothing; otherwise exactly one contact is appended, and the answer is success or, when the mail fails, 500 |
| Backend.Server.ListContacts | server/server.js:325-357 | a refused request gets the gate's 401 and no listing; an admitted one gets the newest-first listing for the parsed `page` and `limit` |
| Backend.Server.Delete | server/server.js:385-407 | not admitted: the gate's 401 and nothing deleted; unknown id: 404 and nothing deleted; otherwise exactly that contact is removed and ids stay distinct |
| Backend.Server.Get | server/server.js:360-382 | behind the gate, a contact is returned iff one has the id, and it is that contact; otherwise 404 |
| AppShell.PushKey | src/App.tsx:64-67 | a key press leaves the last four of the old keys plus the lower-cased new key |
| AppShell.KeyStep | src/App.tsx:61-74 | the dashboard opens iff the joined window equals the joined secret; the buffer is then emptied, otherwise it is the pushed window; it never holds more than four keys |
| AppShell.PushAllWindow | src/App.tsx:64-67 | pushing keys one by one leaves the last four lower-cased keys of the whole input, in arrival order |
| AppShell.LockedRunPushes | src/App.tsx:69-73 | while the dashboard stays closed, handling keys is just pushing them |
| AppShell.BufferHoldsRecentKeys | src/App.tsx:64-67 | after any run of key presses that does not open the dashboard, the buffer holds the most recent lower-cased keys, at most four, in order |
| AppShell.SecretWord | src/App.tsx:59 | the secret sequence joins to `"raja"` |
| AppShell.SecretOpensDashboard | src/App.tsx:59-73 | typing r, a, j, a in either case opens the dashboard on the fourth key, whatever came before, and not on the first three |
| AppShell.FirstHit | src/App.tsx:40-49 | the index returned is a section whose box contains the probe point, with none before it; `None` means none contains it |
| AppShell.DisjointPicksContaining | src/App.tsx:37-47 | with non-overlapping sections, the highlight is the section that contains `scrollY + 100` |
| AppShell.App.constructor | src/App.tsx:15-21 | on mount the dashboard is shown iff the path is `/admin` or the hash is `#admin`; the highlight is `home` |
| AppShell.App.PopState | src/App.tsx:24-27 | after navigation the dashboard is shown iff the new location is the admin path; the highlight is kept |
| AppShell.App.HandleKeyPress | src/App.tsx:61-74 | ignored while the dashboard is shown; otherwise the buffer and the dashboard follow `KeyStep`, and opening sets the hash to `#admin` |
| AppShell.App.HandleScroll | src/App.tsx:33-50 | not active while the dashboard is shown; otherwise the highlight becomes the first section containing the probe point, or stays put when there is none |
| AdminDashboard.Escape | src/components/AdminDashboard.tsx:185 | doubling quotes never shortens a value and leaves a quote-free value as it is |
| AdminDashboard.IpCell | src/components/AdminDashboard.tsx:187 | the address column is the address when present and non-empty, and otherwise `N/A` |
| AdminDashboard.RowValues | src/components/AdminDashboard.tsx:181-188 | a row carries six values in column order: name, e-mail, subject, message, formatted date, address cell |
| AdminDashboard.CsvRows | src/components/AdminDashboard.tsx:181-188 | there is one row per contact, in list order |
| AdminDashboard.ExportAppend | src/components/AdminDashboard.tsx:179-189 | the export is the header alone for no contacts, and each further contact adds one `\n` and its row at the end, with no trailing newline |
| AdminDashboard.FieldRoundTrip | src/components/AdminDashboard.tsx:185 | the quoted, quote-doubled message reads back, under RFC 4180 section 2 rules 5 and 7, as the original message |
| AdminDashboard.RowRoundTrip | src/components/AdminDashboard.tsx:181-188 | a row reads back as its six values when the unescaped columns hold no quote |
| AdminDashboard.QuoteInNameBreaksRow | src/components/AdminDashboard.tsx:182 | a name containing a quote is written unescaped, and the row no longer reads back |
| AdminDashboard.PaginationLabel | src/components/AdminDashboard.tsx:404-410 | the label is shown iff there is more than one page; then `from = (page-1)·10+1`, `to = min(page·10, total)`, so `to <= total` |
| AdminDashboard.LabelMatchesRows | src/components/AdminDashboard.tsx:404-410 | for a page within range at ten rows a page, the label names exactly the rows listed |
| AdminDashboard.LabelMatchesPage | src/components/AdminDashboard.tsx:136-146 | the same for the request the dashboard sends, `?page=N&limit=10` |
| AdminDashboard.Dashboard.constructor | src/components/AdminDashboard.tsx:52-59 | on mount the dashboard is signed in iff a non-empty token is stored |
| AdminDashboard.Dashboard.Label | src/components/AdminDashboard.tsx:404 | the label is `PaginationLabel` of the received pagination block, and there is none before one arrives |
| AdminDashboard.Dashboard.HandleLogin | src/components/AdminDashboard.tsx:61-91 | on an ok reply with `success`, the token is stored, the dashboard signs in and the password is cleared; otherwise the error is the server message, `Login failed` or the network message; loading is off in every case |
| AdminDashboard.Dashboard.HandleLogout | src/components/AdminDashboard.tsx:93-113 | the token, the signed-in flag, the contacts, the stats and the pagination are always cleared |
| AdminDashboard.Dashboard.ContactsLoaded | src/components/AdminDashboard.tsx:133-153 | an ok reply replaces the contacts, pagination and page; a 401 signs out; anything else changes nothing |
| AdminDashboard.Dashboard.StatsLoaded | src/components/AdminDashboard.tsx:115-131 | only an ok reply replaces the statistics |
| Particles.SeedRanges | frontend/src/components/ParticleBackground.tsx:51-61 | with draws in [0,1): the position is on the canvas, `vx, vy ∈ [-0.3, 0.3)`, size ∈ [0.5, 3.0), opacity ∈ [0.3, 1.0), colour index in 0..5 |
| Particles.Wrap | frontend/src/components/ParticleBackground.tsx:76-79 | below 0 becomes the dimension, above it becomes 0, in range is untouched; the result is always in `[0, dim]` |
| Particles.Advance | frontend/src/components/ParticleBackground.tsx:72-79 | a move changes only `x` and `y`, which end on the canvas |
| Particles.ConnectHas | frontend/src/components/ParticleBackground.tsx:97-103 | a line joins `i` to `j` iff that pair is compared and its squared distance, as seen at that moment, is below the maximum |
| Particles.LineAlphaRange | frontend/src/components/ParticleBackground.tsx:104-105 | a drawn line's opacity lies in `(0, factor]` |
| ViewportParticles.PixelRatio | frontend/src/components/ParticleBackground.tsx:28 | a ratio of 0 means 1 |
| ViewportParticles.DevicePixels | frontend/src/components/ParticleBackground.tsx:29-30 | the canvas side is the floor of the viewport side times the ratio |
| ViewportParticles.ParticleCount | frontend/src/components/ParticleBackground.tsx:39 | the count is `min(80, ⌊area / 30000⌋)`, stated as bounds: at most 80, at most one per 30000 pixels, and maximal below the cap |
| ViewportParticles.CountExamples | frontend/src/components/ParticleBackground.tsx:39 | 1280×720 at ratio 1 gives 30 particles, 3840×2160 gives 80 |
| ViewportParticles.StepAllAt | frontend/src/components/ParticleBackground.tsx:66-79 | particle `k` after the frame is particle `k` moved with the single clock reading |
| ViewportParticles.NeighbourPairsHas | frontend/src/components/ParticleBackground.tsx:96-97 | particle `i` is compared with exactly `i+1 .. min(n, i+9)-1` |
| ViewportParticles.NeighbourPairsCount | frontend/src/components/ParticleBackground.tsx:96-97 | at most `8·n` comparisons a frame |
| ViewportParticles.NeighbourPairsOnce | frontend/src/components/ParticleBackground.tsx:96-97 | no pair is compared twice in a frame |
| ViewportParticles.LineOpacity | frontend/src/components/ParticleBackground.tsx:102-105 | a drawn line's opacity lies in `(0, 0.13]` |
| ViewportParticles.ViewportCanvas.constructor | frontend/src/components/ParticleBackground.tsx:119-121 | mounting sizes the canvas and then seeds `ParticleCount` particles |
| ViewportParticles.ViewportCanvas.ResizeCanvas | frontend/src/components/ParticleBackground.tsx:25-34 | the canvas becomes the viewport in device pixels; the particles are kept |
| ViewportParticles.ViewportCanvas.CreateParticles | frontend/src/components/ParticleBackground.tsx:36-63 | a fresh array of exactly `ParticleCount` particles replaces the old one, particle `k` built from draws `7k .. 7k+6` |
| ViewportParticles.ViewportCanvas.HandleResize | frontend/src/components/ParticleBackground.tsx:127-133 | a resize re-sizes and then re-seeds |
| ViewportParticles.ViewportCanvas.Animate | frontend/src/components/ParticleBackground.tsx:65-117 | the array ends as `StepAll` of the old one; the lines are `Connect` over the 8-neighbour pairs, each later particle seen before it moves |
| ViewportParticles.ViewportCanvas.Visit | frontend/src/components/ParticleBackground.tsx:70-113 | handling particle `i` moves it and appends its row of lines |
| ViewportParticles.ViewportCanvas.Move | frontend/src/components/ParticleBackground.tsx:72-79 | only particle `i` changes, by one `Step` |
| ViewportParticles.ViewportCanvas.CompareNeighbours | frontend/src/components/ParticleBackground.tsx:96-113 | the lines of particle `i` are those of `Connect` over its neighbour row |
| PageParticles.CanvasHeight | src/components/ParticleBackground.tsx:27 | the canvas is as tall as the window or the page, whichever is taller |
| PageParticles.ParticleCount | src/components/ParticleBackground.tsx:32 | the count is `min(120, ⌊area / 10000⌋)`, stated as bounds: at most 120, at most one per 10000 pixels, and maximal below the cap |
| PageParticles.CountExamples | src/components/ParticleBackground.tsx:32 | a 1280×720 window on a 3000-pixel page reaches the cap of 120; 400×700 gives 28 |
| PageParticles.StepAllAt | src/components/ParticleBackground.tsx:62-71 | particle `k` after the frame is particle `k` moved with the clock reading taken for it |
| PageParticles.StepAllOnCanvas | src/components/ParticleBackground.tsx:68-71 | after a frame every particle is on the canvas |
| PageParticles.Others | src/components/ParticleBackground.tsx:85-86 | particle `i`'s row pairs it with every other index, never itself |
| PageParticles.OthersHas | src/components/ParticleBackground.tsx:85-86 | a pair is in `i`'s row iff its first index is `i` and its second is another index below `n` |
| PageParticles.AllPairsHas | src/components/ParticleBackground.tsx:85-86 | a frame compares exactly the ordered pairs `(i, j)` with `i ≠ j` |
| PageParticles.AllPairsCount | src/components/ParticleBackground.tsx:85-86 | a frame makes `n·(n-1)` comparisons |
| PageParticles.AllPairsOnce | src/components/ParticleBackground.tsx:85-86 | no ordered pair is compared twice |
| PageParticles.LineOpacity | src/components/ParticleBackground.tsx:92-93 | a drawn line's opacity lies in `(0, 0.15]` |
| PageParticles.PageCanvas.constructor | src/components/ParticleBackground.tsx:107-109 | mounting sizes the canvas and then seeds `ParticleCount` particles |
| PageParticles.PageCanvas.ResizeCanvas | src/components/ParticleBackground.tsx:25-28 | the canvas becomes the window's width by `CanvasHeight`; the particles are kept |
| PageParticles.PageCanvas.CreateParticles | src/components/ParticleBackground.tsx:30-56 | a fresh array of exactly `ParticleCount` particles replaces the old one, particle `k` built from draws `7k .. 7k+6` |
| PageParticles.PageCanvas.HandleResize | src/components/ParticleBackground.tsx:115-118 | a resize re-sizes and then re-seeds |
| PageParticles.PageCanvas.HandleScroll | src/components/ParticleBackground.tsx:120-122 | a scroll re-sizes only, and every particle is kept as it was |
| PageParticles.PageCanvas.Animate | src/components/ParticleBackground.tsx:58-105 | the array ends as `StepAll` of the old one with a clock reading per particle; the lines are `Connect` over all ordered pairs |
| PageParticles.PageCanvas.Visit | src/components/ParticleBackground.tsx:62-101 | handling particle `i` moves it and appends its row of lines |
| PageParticles.PageCanvas.Move | src/components/ParticleBackground.tsx:64-71 | only particle `i` changes, by one `Step` |
| PageParticles.PageCanvas.CompareOthers | src/components/ParticleBackground.tsx:85-101 | the lines of particle `i` are those of `Connect` over all its pairs with other particles |

## Left out

- String lengths are counted in Unicode code points. JavaScript counts UTF-16 code units, so a length cap reads differently for characters outside the Basic Multilingual Plane.
- `toLowerCase` is modelled for ASCII letters only.
- JSON bodies are modelled with string fields or absent fields. A non-string field, such as a number or an array, is not modelled.
- A query parameter given twice (an array) is not modelled.
- Mongoose schema coercions (trim, lowercase, maxlength), the `CastError` of a malformed id and a database error on listing, fetching or deleting are not modelled. The listing's 500 is modelled only for the negative skip the database refuses.
- The catch-all 500 "Login failed" of the login route is not modelled.
- The e-mail notification is an input flag (`mailed`), and the save outcome is an input flag (`saved`). The HTML template, Nodemailer, helmet, CORS, rate limiting, static serving, the health route, the API root and `/api/admin/stats` are not modelled: they are library behaviour, I/O, or time-zone date arithmetic.
- `authenticateAdmin` reads the clock twice, once for the check and once for the renewal. Both readings are the single input `now`.
- Session tokens (`crypto.randomBytes`) and record ids are fresh inputs. `loginTime` is not stored, because nothing reads it.
- Backend.NewestFirst: the newest-first sort is reverse insertion order. It holds when creation times follow insertion order.
- ContactListing.Window: for a negative limit, the model keeps the driver's single-batch reading and does not track other driver behaviour.
- Numbers from `parseInt` are unbounded integers. The loss of precision of large doubles is not modelled.
- Floating point is modelled as real arithmetic. `Math.random`, `Math.sin` and `Date.now` are inputs: `random: nat -> real` holds the draws in call order, `sine` is a function, and the clock is a value or one reading per particle. `Math.sqrt` is avoided: lines are kept when the squared distance is below the squared maximum, and `Particles.LineAlphaRange` takes the length `d` with `d·d` below the maximum squared.
- The particle colour is its palette index. The palette strings are not modelled.
- Particles.Wrap follows the code: a coordinate exactly on the far edge is kept, so positions lie in the closed range `[0, dim]`.
- ViewportParticles.DevicePixels takes `devicePixelRatio >= 0`. A negative ratio is not modelled.
- Drawing is not modelled: canvas calls, `setTransform`, CSS sizes, `requestAnimationFrame` and listener registration. A frame is one `Animate` call, and its result is the sequence of lines it draws.
- `history.pushState` is modelled only as the new hash, and popstate as a new location.
- The dashboard's `localStorage` entry is a field.
- `fetch` is modelled by its reply. The stats and contacts requests that follow a login or mount are separate events (`StatsLoaded`, `ContactsLoaded`).
- The delete confirmation, the detail modal, `showPassword` and the contact form component are not modelled.
- The date column is a given function `formatDate`, standing in for `toLocaleString`.
- The CSV file's Blob and download are not modelled.
- The name, e-mail and subject CSV columns are written without escaping, as in the source. `AdminDashboard.QuoteInNameBreaksRow` shows the row that results.
