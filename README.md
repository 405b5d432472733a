# TuriCash admin panel — a verified model of its client-side logic

TuriCash's admin panel is a React front end over a REST API. It is used to
manage items, users and locations, to browse the sales history and to export a
receipt as PDF. Most of it is markup. This project models the logic inside its
event handlers and derived values, and proves what that logic promises:

- **Sales history** (`history.dfy`):
  - the filter record and its single-field updates;
  - the query string built by deleting empty fields, modelled as a loop over
    an ordered list of key/value pairs;
  - the wholesale replacement of the ticket list;
  - the totals: sum, count and an average guarded against an empty list.
- **Receipt export** (`receipt.dfy`):
  - line items become table rows, with the subtotal recomputed;
  - the PDF is a list of draw instructions placed by a running `yPos`;
  - the total box sits at the table's reported end, with a fallback;
  - the file name;
  - the fetch state that disables the export button.
- **Dashboard** (`dashboard.dfy`):
  - the six requests built from the selected period;
  - the all-or-nothing update of the six data slices;
  - the colour of each location.
- **Edit modals**:
  - shared form reducer: `forms.dfy`;
  - per modal: `user_modal.dfy`, `item_modal.dfy`, `location_modal.dfy`;
  - covers the reset, the field changes, the icon file and the two-step PIN
    confirmation.
- **List pages** (`crud.dfy`, instantiated by `items_page.dfy`,
  `users_page.dfy` and `locations_page.dfy`):
  - load, with the three-branch error message;
  - modal open and close;
  - PUT or POST on save;
  - delete only after confirmation.
- **Session** (`session.dfy`, `app.dfy`):
  - the bearer header (section 2.1 of RFC 6750) added to each API request,
    only when a non-empty token is stored;
  - the token dropped on a 401;
  - the authentication flag, login and logout;
  - the route guard and the sidebar's active link.

Modelling choices:

- **Money** is a whole number of cents. `toFixed(2)` is `Common.FormatCents`,
  which is proved to read back as the cents it came from.
- **Network calls** are split in two. A `Begin…` method returns the
  requests, and a `Complete…` method takes the outcome as a
  `Result<data, ApiError>`. A `Promise.all` is one outcome.
- **Browser state**: `localStorage` and `window.location.href` are the fields
  of `Common.Env`. The confirmation answer, the chosen file's data URL, the
  clock strings and jsPDF's table report are parameters.
- **Component state**: a component whose state the handlers update is a class
  with those fields. A form is a `map<string, Value>`, mirroring the
  JavaScript object spread.

## Model

| member | source | states |
|---|---|---|
| Common.OrElse | src/pages/ItemsPage.jsx:78 | `a \|\| b` on an optional string: `a` exactly when it is present and non-empty, otherwise `b` |
| Common.NatToString | src/components/TicketDetailModal.jsx:117 | `toString` of a count: a non-empty digit string, with no leading zero except for 0 itself |
| Common.ParseNatToString | src/components/TicketDetailModal.jsx:117 | a written quantity reads back as the number it came from |
| Common.NatToStringInjective | src/components/TicketDetailModal.jsx:174 | different numbers are written differently |
| Common.FormatCents | src/components/TicketDetailModal.jsx:119 | `toFixed(2)` gives digits, a point, then exactly two digits |
| Common.ParseFormatCents | src/components/TicketDetailModal.jsx:119 | a two-decimal amount reads back as the cents it came from |
| Common.Money | src/components/TicketDetailModal.jsx:119-120 | a shown amount is `$` followed by the two-decimal form |
| Common.HasToken | src/App.jsx:264 | a session exists exactly when a non-empty `authToken` is stored; `Session.Authorized` uses the same test |
| Common.MoneyReadsBack | src/components/TicketDetailModal.jsx:119-120 | a shown amount reads back as its cents |
| History.DefaultFilter | src/pages/HistoryPage.jsx:12-17 | the initial filter runs from today to today, with no user and no location |
| History.WithField | src/pages/HistoryPage.jsx:73-75 | a filter change sets exactly the named field; the other three are unchanged |
| History.Entries | src/pages/HistoryPage.jsx:57 | `new URLSearchParams(filters)` has one pair per field, in the order date_from, date_to, user_id, location_id |
| History.DeleteKeyKeepsOthers | src/pages/HistoryPage.jsx:60 | deleting a key keeps exactly the pairs with another name |
| History.DeleteKeyAppend | src/pages/HistoryPage.jsx:60 | deleting a key works piecewise over a concatenation |
| History.DeleteKeyAbsent | src/pages/HistoryPage.jsx:60 | deleting a key that is absent changes nothing |
| History.NonEmptyAppend | src/pages/HistoryPage.jsx:59-61 | dropping the empty pairs works piecewise over a concatenation |
| History.NonEmptySubset | src/pages/HistoryPage.jsx:59-61 | a pair survives exactly when it was present and its value is not empty |
| History.BuildQuery | src/pages/HistoryPage.jsx:57-61 | the loop that deletes each empty field's key leaves exactly the non-empty fields, in key order |
| History.QueryKeepsNonEmptyFields | src/pages/HistoryPage.jsx:57-61 | the query holds a pair exactly when it is a filter field with a non-empty value, value unchanged |
| History.QueryRoundTrip | src/pages/HistoryPage.jsx:57-61 | reading the query back, with an omitted key as empty, gives the filter it was built from |
| History.QueryExample | src/pages/HistoryPage.jsx:57-61 | with dates 2024-01-01, no user and location 5, the query is date_from, date_to, location_id |
| History.TotalsOf | src/pages/HistoryPage.jsx:23-33 | the count is the list length; the amount is the sum of the amounts; average × count = amount for a non-empty list; all zero for an empty list |
| History.SumAmountsAppend | src/pages/HistoryPage.jsx:24 | the amount total of two lists is the sum of their totals |
| History.SumAmountsCons | src/pages/HistoryPage.jsx:24 | adding a ticket at the front adds its amount |
| History.MissingAmountAddsNothing | src/pages/HistoryPage.jsx:24 | a ticket without an amount adds to the count but not to the total |
| History.SumAmountsBounded | src/pages/HistoryPage.jsx:24 | if every amount is at most `b`, the total is at most count × `b` |
| History.AverageWithinBounds | src/pages/HistoryPage.jsx:26 | the average lies between 0 and the largest amount bound, and no division by zero occurs |
| History.HistoryPage.constructor | src/pages/HistoryPage.jsx:7-20 | the page starts with empty lists, the default filter, not loading, no ticket selected |
| History.HistoryPage.Totals | src/pages/HistoryPage.jsx:23-33 | the totals are `TotalsOf` the current ticket list: its length, the sum of its amounts, and an average that times the count gives the sum, or 0 for an empty list |
| History.HistoryPage.HandleFilterChange | src/pages/HistoryPage.jsx:73-75 | only the filter changes, by `WithField` |
| History.HistoryPage.BeginFetchTickets | src/pages/HistoryPage.jsx:54-63 | `loading` is raised and one GET /tickets is sent with the query of the current filter |
| History.HistoryPage.FetchTicketsWith | src/pages/HistoryPage.jsx:54-63 | `fetchTickets` run with a given filter: `loading` is raised and the request is GET /tickets carrying exactly `QueryOf` that filter |
| History.HistoryPage.CompleteFetchTickets | src/pages/HistoryPage.jsx:63-70 | success replaces the list wholesale; failure keeps it and alerts; `loading` is false after either |
| History.HistoryPage.CompleteLoadMetadata | src/pages/HistoryPage.jsx:36-52 | users and locations are set and the ticket fetch starts only when both requests succeeded, with the query of the filter the page mounted with (the effect's closure), not the current one; otherwise nothing changes |
| History.HistoryPage.SelectTicket | src/pages/HistoryPage.jsx:254 | opening or closing the detail modal changes only the selected ticket |
| History.MetadataRequests | src/pages/HistoryPage.jsx:39-42 | the bootstrap sends exactly two GETs without query, `/users` then `/locations` |
| History.EarlyEditMissesBootstrap | src/pages/HistoryPage.jsx:36-52 | a user filter chosen before the metadata arrives is shown, but the bootstrap fetch still carries the default filter's query, which differs from the shown filter's whenever the user id is not empty |
| History.DeleteKey | src/pages/HistoryPage.jsx:60 | `params.delete(key)` never lengthens the query; `DeleteKeyKeepsOthers` shows it keeps exactly the pairs not named `key` |
| History.QueryOf | src/pages/HistoryPage.jsx:57-61 | the query of a filter: its non-empty fields in key order; `BuildQuery`, `QueryKeepsNonEmptyFields` and `QueryRoundTrip` pin it |
| History.AmountOf | src/pages/HistoryPage.jsx:24 | a ticket's amount in cents is its stored amount, or 0 when it has none |
| History.SumAmounts | src/pages/HistoryPage.jsx:24 | the left-to-right `reduce` of the amounts; `SumAmountsAppend`, `SumAmountsCons` and `SumAmountsBounded` state its arithmetic |
| Receipt.TableRow | src/components/TicketDetailModal.jsx:116-121 | a row is quantity, name, `$` unit price and `$` quantity × unit price |
| Receipt.TableDataRows | src/components/TicketDetailModal.jsx:116-121 | exactly one row per line item, in the order given |
| Receipt.TableDataAppend | src/components/TicketDetailModal.jsx:116 | the table of two item lists is the concatenation of their tables |
| Receipt.RowReadsBack | src/components/TicketDetailModal.jsx:117-119 | the quantity and unit-price cells read back as the item's values |
| Receipt.SubtotalReadsBack | src/components/TicketDetailModal.jsx:120 | the subtotal cell reads back as quantity × unit price, recomputed from the item |
| Receipt.SubtotalExample | src/components/TicketDetailModal.jsx:120 | 2 × 4.99 shows as $9.98 and 1 × 9.99 as $9.99 |
| Receipt.ColumnsFillPrintableWidth | src/components/TicketDetailModal.jsx:138-143 | the widths 20+90+30+30 fill the 210-wide page between the 20/20 margins, up to x 190 as the divider lines do |
| Receipt.TableEnd | src/components/TicketDetailModal.jsx:151 | the total box sits at the last table's end, else the previous table's end, else 50 below the table start |
| Receipt.TotalBoxFallback | src/components/TicketDetailModal.jsx:151 | without a reported end the box is at 146 |
| Receipt.TotalText | src/components/TicketDetailModal.jsx:163 | the total shows the ticket's stored amount, not a sum of rows; a missing amount prints NaN |
| Receipt.TotalReadsBack | src/components/TicketDetailModal.jsx:163 | the total text reads back as the stored amount |
| Receipt.Subtotal | src/components/TicketDetailModal.jsx:120 | the line's subtotal is quantity × unit price, recomputed on the client; `SubtotalReadsBack` ties it to the printed cell |
| Receipt.TableData | src/components/TicketDetailModal.jsx:116-121 | `items.map`: one `TableRow` per item; `TableDataRows` and `TableDataAppend` pin its length, order and contents |
| Receipt.FileName | src/components/TicketDetailModal.jsx:174 | the file is `Ticket_`, the decimal display number, `.pdf`; the number reads back from between prefix and extension |
| Receipt.FileNameInjective | src/components/TicketDetailModal.jsx:174 | tickets with different numbers get different file names |
| Receipt.TicketDetailModal.constructor | src/components/TicketDetailModal.jsx:8-10 | the modal opens with no items, loading and no error |
| Receipt.TicketDetailModal.ItemsRequest | src/components/TicketDetailModal.jsx:15 | the details come from GET /tickets/{id}/items |
| Receipt.TicketDetailModal.CompleteFetchDetails | src/components/TicketDetailModal.jsx:13-24 | success sets the items, failure sets the error text; `loading` is false after either, so the export is disabled exactly when the load failed |
| Receipt.TicketDetailModal.ExportDisabled | src/components/TicketDetailModal.jsx:192 | the PDF button is disabled while loading or after an error; `HandleExportPdf` requires it enabled |
| Receipt.TicketDetailModal.HandleExportPdf | src/components/TicketDetailModal.jsx:27-175 | the header band, the section title at 55 with its line at 57, cashier and location at 65, payment at 73, items title at 88 with its line at 90, the table from 96, the total box rect(130, end, 60, 15) with label at end+6 and amount at end+10, the footer at height−15 and height−10 centred on 105, and the file named `Ticket_<number>.pdf` |
| Receipt.ExportAfterLoad | src/components/TicketDetailModal.jsx:13-24 | after the details load the export can run and its table is exactly the loaded items' rows; after a failed load it cannot run |
| Dashboard.PeriodRoundTrip | src/pages/DashboardPage.jsx:172-174 | each of the three selector values reads back as its period |
| Dashboard.DashboardRequests | src/pages/DashboardPage.jsx:53-60 | a refresh sends exactly six GETs; sales-by-period carries the period and limit 7; top-items and recent-activity carry limit 5 |
| Dashboard.OnlySeriesDependsOnPeriod | src/pages/DashboardPage.jsx:56 | changing the period changes the sales-by-period request and no other |
| Dashboard.Joined | src/pages/DashboardPage.jsx:46-67 | the six results give a snapshot exactly when all six succeeded, made of their six payloads |
| Dashboard.OneFailureSpoilsAll | src/pages/DashboardPage.jsx:46-68 | one failed request loses the whole refresh: stats, today's sales, the sales series, top items, sales by location and recent activity all keep their old values |
| Dashboard.StatValue | src/pages/DashboardPage.jsx:109-129 | a statistic shows as 0 when there are no stats or the figure is missing |
| Dashboard.LocationColors | src/pages/DashboardPage.jsx:228 | the location at index i gets colour i mod 5, one colour per location |
| Dashboard.ColorsCycle | src/pages/DashboardPage.jsx:75 | colours repeat every five locations, and five consecutive locations get five different colours |
| Dashboard.DashboardPage.constructor | src/pages/DashboardPage.jsx:30-37 | nothing loaded, loading, period `day` |
| Dashboard.DashboardPage.BeginRefresh | src/pages/DashboardPage.jsx:43-60 | `loading` is raised and the six requests of the current period are sent |
| Dashboard.DashboardPage.SelectPeriod | src/pages/DashboardPage.jsx:39-41 | choosing a period stores it and starts a refresh for that period |
| Dashboard.DashboardPage.CompleteRefresh | src/pages/DashboardPage.jsx:62-72 | all six slices are replaced together when all requests succeeded, none otherwise; `loading` is false after either |
| Forms.Changed | src/components/UserModal.jsx:38-44 | a change sets the named field to `checked` for a checkbox or to `value` otherwise; every other field is unchanged |
| Forms.ChangesCommute | src/components/UserModal.jsx:40-43 | changes to different fields commute |
| Forms.LastChangeWins | src/components/UserModal.jsx:40-43 | a later change to the same field overrides an earlier one |
| UserModal.EditForm | src/components/UserModal.jsx:16-23 | editing copies username, full name and active flag; the PIN is empty; the location is the user's, or empty when it has none |
| UserModal.CreateForm | src/components/UserModal.jsx:26-33 | creating starts from empty fields with the user active |
| UserModal.Decide | src/components/UserModal.jsx:46-67 | the warning is raised exactly on an edit with an empty PIN not yet warned about; the PIN-required alert exactly on a create with an empty PIN; the too-short alert exactly for a non-empty PIN under four characters |
| UserModal.SaveExactly | src/components/UserModal.jsx:46-70 | a submit saves exactly when the PIN has at least four characters, or the empty PIN of an edit was already warned about |
| UserModal.CreateNeedsPin | src/components/UserModal.jsx:58-61 | creating with an empty PIN is always refused with the PIN-required alert |
| UserModal.ShortPinRefused | src/components/UserModal.jsx:64-67 | a non-empty PIN under four characters is refused in both modes |
| UserModal.UserModal.constructor | src/components/UserModal.jsx:5-12 | the modal starts closed, with the empty form and no warning |
| UserModal.UserModal.Reset | src/components/UserModal.jsx:15-36 | opening loads the edit form or the create form, and clears the PIN warning in both cases |
| UserModal.UserModal.HandleChange | src/components/UserModal.jsx:38-44 | only the form changes, by `Changed` |
| UserModal.UserModal.HandleSubmit | src/components/UserModal.jsx:46-70 | the form goes to `onSave` unchanged exactly when the checks pass; a refusal carries its alert; only the first empty-PIN submit of an edit raises the warning |
| UserModal.UserModal.Rendered | src/components/UserModal.jsx:72 | a closed modal renders nothing |
| UserModal.EmptyPinEditScenario | src/components/UserModal.jsx:50-55 | editing with an empty PIN: the first submit saves nothing, the second saves the form |
| ItemModal.EditForm | src/components/ItemModal.jsx:16-23 | editing copies name, price, location and active flag, and leaves the icon null so it is not resent |
| ItemModal.CreateForm | src/components/ItemModal.jsx:27-33 | creating starts from empty texts, no icon, active |
| ItemModal.ItemModal.constructor | src/components/ItemModal.jsx:5-12 | the modal starts closed, with the empty form and no preview |
| ItemModal.ItemModal.Reset | src/components/ItemModal.jsx:15-36 | opening loads the edit form with the current icon as preview, or the create form with no preview |
| ItemModal.ItemModal.HandleChange | src/components/ItemModal.jsx:38-44 | only the form changes, by `Changed` |
| ItemModal.ItemModal.HandleFileChange | src/components/ItemModal.jsx:46-60 | a loaded file sets the icon field and the preview to the same data URL; a read that ends without a result sets the icon field to null and clears the preview; no file changes nothing |
| ItemModal.ItemModal.HandleSubmit | src/components/ItemModal.jsx:62-65 | the form goes to `onSave` unchanged |
| ItemModal.ItemModal.Rendered | src/components/ItemModal.jsx:67 | a closed modal renders nothing |
| ItemModal.FileLoadAgrees | src/components/ItemModal.jsx:15-65 | opening the modal, loading a file and submitting sends the opening form with only the icon field replaced by the data URL, which is also the preview |
| ItemModal.UntouchedIconNotResent | src/components/ItemModal.jsx:15-24 | opening an item and submitting without a new file sends the edit form with a null icon, while the preview shows the item's stored icon |
| LocationModal.EditForm | src/components/LocationModal.jsx:12-16 | editing copies the name and the active flag |
| LocationModal.CreateForm | src/components/LocationModal.jsx:19-22 | creating starts with no name, active |
| LocationModal.LocationModal.constructor | src/components/LocationModal.jsx:5-8 | the modal starts closed with the empty form |
| LocationModal.LocationModal.Reset | src/components/LocationModal.jsx:11-24 | opening loads the edit form or the create form |
| LocationModal.LocationModal.HandleChange | src/components/LocationModal.jsx:26-32 | only the form changes, by `Changed` |
| LocationModal.LocationModal.HandleSubmit | src/components/LocationModal.jsx:34-37 | the form goes to `onSave` unchanged |
| LocationModal.LocationModal.Rendered | src/components/LocationModal.jsx:39 | a closed modal renders nothing |
| LocationModal.RenameScenario | src/components/LocationModal.jsx:11-37 | opening a location, typing a new name and submitting sends the edit form of the location with that name and its flag unchanged |
| Crud.LoadErrorMessage | src/pages/ItemsPage.jsx:36-47 | the fixed prefix, then exactly one of: the status with `data.error` or else the status text; the no-connection text; the error's message |
| Crud.ServerErrorPreferred | src/pages/UsersPage.jsx:40 | a server answer with an `error` text shows it instead of the status text |
| Crud.StatusDistinguishable | src/pages/LocationsPage.jsx:34 | answers with different statuses and the same text give different messages |
| Crud.ActionErrorDetail | src/pages/ItemsPage.jsx:89 | a save or delete alert shows the server's `error` text, or else the error's message |
| Crud.LoadRequests | src/pages/ItemsPage.jsx:25-28 | one load sends one GET per path, in order |
| Crud.SaveRequest | src/pages/ItemsPage.jsx:67-73 | a save is PUT on the record's path when editing and POST on the collection when creating |
| Crud.RecordPathInjective | src/pages/ItemsPage.jsx:69 | different records are saved and deleted on different paths |
| Crud.CrudPage.constructor | src/pages/ItemsPage.jsx:7-13 | a page starts with empty lists, loading, no error, the modal closed |
| Crud.CrudPage.BeginFetch | src/pages/ItemsPage.jsx:20-28 | the error is cleared, `loading` is raised and the page's GETs are sent |
| Crud.CrudPage.CompleteFetch | src/pages/ItemsPage.jsx:29-52 | success replaces all the lists together; failure keeps them and sets the error message; `loading` is false after either |
| Crud.CrudPage.OpenModal | src/pages/ItemsPage.jsx:55-58 | the modal opens on the given record, or on none to create |
| Crud.CrudPage.CloseModal | src/pages/ItemsPage.jsx:60-63 | the modal closes and forgets its record |
| Crud.CrudPage.HandleSave | src/pages/ItemsPage.jsx:65-80 | the form is sent by PUT or POST; success reloads and closes the modal; failure alerts and leaves the modal open |
| Crud.CrudPage.HandleDelete | src/pages/ItemsPage.jsx:82-92 | the user is asked first; a DELETE is sent exactly when they confirm; success reloads, failure alerts |
| ItemsPage.NewPage | src/pages/ItemsPage.jsx:6-18 | the items page loads /items with /locations, saves on /items, and uses its own alert and question texts |
| ItemsPage.SaveRoutes | src/pages/ItemsPage.jsx:67-73 | saving edits PUTs /items/{id}, creating POSTs /items |
| UsersPage.NewPage | src/pages/UsersPage.jsx:6-18 | the users page loads /users with /locations, saves on /users, and uses its own alert and question texts |
| UsersPage.SaveRoutes | src/pages/UsersPage.jsx:67-73 | saving edits PUTs /users/{id}, creating POSTs /users |
| LocationsPage.NewPage | src/pages/LocationsPage.jsx:6-24 | the locations page loads /locations alone, saves on /locations, and uses its own alert and question texts |
| LocationsPage.SaveRoutes | src/pages/LocationsPage.jsx:61-67 | saving edits PUTs /locations/{id}, creating POSTs /locations |
| Session.BaseUrl | src/services/api.js:7 | the configured URL when it is set and non-empty, otherwise http://localhost:5000/api |
| Session.BearerCredentials | src/services/api.js:27 | the Authorization value is `Bearer ` followed by exactly the token |
| Session.BearerToken | src/services/api.js:27 | an Authorization value carries a token exactly when it starts with `Bearer ` |
| Session.BearerRoundTrip | src/services/api.js:27 | the header built from a token reads back as that token |
| Session.Authorized | src/services/api.js:25-29 | with a stored token the Authorization header is set to `Bearer <token>`; without one the headers are unchanged |
| Session.AuthorizedCarriesToken | src/services/api.js:25-28 | the server reads back exactly the stored token, and every other header is kept |
| Session.WithoutToken | src/services/api.js:42 | after a 401 the token is gone and every other entry, `user` included, is kept |
| Session.RequestConfig.constructor | src/services/api.js:13-15 | a request starts with the JSON content type |
| Session.InterceptRequest | src/services/api.js:24-30 | the interceptor edits the config's headers in place by `Authorized` and passes the same config on |
| Session.RejectRequestError | src/services/api.js:31-33 | a request error is rejected as it came |
| Session.InterceptResponse | src/services/api.js:38 | a successful response passes through unchanged |
| Session.InterceptResponseError | src/services/api.js:39-47 | a 401 drops the token and sends the browser to /login; other errors change nothing; every error is rejected to the caller |
| Session.UnauthorizedThenRequest | src/services/api.js:40-45 | after a 401, a request built without an Authorization header goes out with its headers unchanged, so without credentials |
| App.Route | src/App.jsx:280-299 | /login shows the form exactly when there is no session and sends a session to /; any other path shows the layout only with a session and sends a visitor to /login; an unknown inner path goes to / |
| App.InnerRoute | src/App.jsx:166-173 | the layout's five inner paths each have a page, `/` is the dashboard, and every other path has none |
| App.RedirectsSettle | src/App.jsx:166-173 | following a redirect once always reaches a screen that is not a redirect |
| App.MenuCoversPages | src/App.jsx:183-197 | every sidebar link leads to a distinct page of the layout, and at most one link is active for a path |
| App.IsActive | src/App.jsx:197 | a sidebar link is highlighted exactly when the current path equals its path; `MenuCoversPages` shows at most one is |
| App.AppComponent.constructor | src/App.jsx:264 | the app starts authenticated exactly when a token is stored |
| App.AppComponent.HandleLogin | src/App.jsx:267-269 | login sets the flag |
| App.AppComponent.HandleLogout | src/App.jsx:272-276 | logout removes the token and the user and clears the flag |
| App.LogoutEndsSession | src/App.jsx:264-276 | after a logout the app, even reloaded, has no session and shows no layout |
| App.LoginError | src/App.jsx:47-57 | a refused login shows the server's error or the generic refusal; a thrown error shows its message, or the connection text when it is empty; never an empty message |
| App.Stored | src/App.jsx:52-53 | `localStorage.setItem` stores a present value as it is and a missing one as the text `undefined` |
| App.LoginPage.constructor | src/App.jsx:25-28 | the form starts empty, with no error and not loading |
| App.LoginPage.BeginLogin | src/App.jsx:30-43 | the error is cleared, `loading` is raised and the credentials are POSTed to `<base>/auth/login` |
| App.LoginPage.CompleteLogin | src/App.jsx:45-60 | an accepted login stores the token and the user, then sets the app's flag; anything else stores nothing and shows `LoginError`; `loading` is false after either |

## Left out

- JSX markup, Tailwind styling, recharts and lucide components, and `tailwind.config.js`: presentation and configuration.
- The transport: axios, `fetch`, the 10-second timeout and the base URL joined to each path. Each call is a request value plus an outcome.
- Query strings are pairs in order. URL percent-encoding of their values is not modelled.
- Request bodies:
  - The body is not part of `ApiRequest`.
  - `Crud.CrudPage.HandleSave` returns the form it sends beside the request.
  - The login credentials are fields of `App.LoginRequest`.
- Asynchrony:
  - Each handler is split into a start and a completion.
  - No interleaving of two outstanding requests is modelled. The code has no last-request-wins guard, so an older response can overwrite a newer one.
  - `Promise.all` is one outcome: which of several failures it reports is not modelled.
- `console` logging: no observable effect on state.
- Floating point:
  - Amounts are whole cents, and the average is an exact real.
  - `parseFloat` of a price text and binary rounding in `toFixed(2)` are not modelled.
  - `History.TotalsOf` states the average exactly, where the page shows it rounded to two decimals.
- Amounts with no value:
  - A missing `total_amount` counts as 0 in the history totals and prints as `$NaN` on the receipt.
  - Other non-numeric amounts are not modelled.
- Dates and locale:
  - `toISOString().split('T')[0]` for today, `toLocaleDateString`, `toLocaleTimeString` and `toLocaleString` are opaque strings.
  - Today's date is a parameter of `History.HistoryPage.constructor`; the receipt's strings come from `Receipt.Clock`.
- jsPDF internals:
  - Fonts, font sizes and text colours are not drawn.
  - Page breaks and text metrics are not modelled.
  - `finalY` and the page height are inputs.
  - The footer is drawn once, on whatever page is current.
  - Nothing checks whether the total box overlaps the footer, and the model claims neither.
- The `FileReader`: its asynchronous load is the `FileRead` parameter of `ItemModal.ItemModal.HandleFileChange`: no file, a data URL, or a read that ends with a null result.
- UserModal.PinTooShortFor: counts characters, where JavaScript's `length` counts UTF-16 units; the two differ only for characters outside the Basic Multilingual Plane.
- The login POST goes through `fetch`, not the API client, so it never carries the bearer header.
- `window.confirm` and `alert`: the answer is an input and the alert text an output.
- HTML input constraints (`required`, `maxLength`, `pattern`): the browser enforces them, not the handlers.
- The simulated login (src/App.jsx:64-68): its only button is commented out, so nothing can call it.
- Route matching is exact on the path. React Router's case-insensitive and trailing-slash matching is not modelled.
- `Common.NatToString` covers whole non-negative numbers only; ids, quantities and ticket numbers are such numbers.
- The sidebar's open and close state on mobile: presentation only.

Where the code's evident intent and what it does differ, the model follows what it does:

- The ticket detail modal shows "No hay items en este ticket" for an empty item list on screen, but the exported PDF carries no such text: it has an empty table.
- Neither the dashboard nor the history page guards against an out-of-order response.
