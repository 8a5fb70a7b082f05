# Proyecto2SA front end: access rules, HTTP helpers, session store and document builders

This project models the logic at the heart of the Proyecto2SA web front end
(a Nuxt application for hotels, restaurants and cinema ads) and proves its
properties in Dafny. The model covers:

- **Roles** (`roles.dfy`): the role name read from an employee, the
  allow-list check `hasAnyRole` and its special case for `null`, and the four
  group predicates. The predicates are checked against a reference table of
  the roles each group admits.
- **Route middleware** (`auth_guard.dfy`): the global middleware as a pure
  decision over the target route, the token cookie, the rendering side
  (client or server) and the stored employee. It returns `Allow`, or
  `Redirect(target, toast)`.
- **HTTP client** (`plain_fetch.dfy`):
  - `getCookie`, a loop with a first-match early return over
    `document.cookie`;
  - the `Authorization` header rule and the error messages of failed
    requests;
  - `genParams`, a loop that drops null, undefined and empty values before
    the pairs are serialised as `application/x-www-form-urlencoded`
    (section 5.2 of the WHATWG URL Standard).
- **Session store** (`auth_store.dfy`): a class with the store's fields and
  the cookie jar. `Login` and `Logout` update them in place and are proved
  against snapshot functions. The store writes its token to
  `proyecto2sa-user-token`, while the middleware and the HTTP client read
  `proyecto1sa-user-token`. The names are kept as written, and
  `AuthGuard.LoginTokenNotSeenByGuard` proves the consequence: a successful
  login on its own does not get a browser past the middleware.
- **Order and reservation documents** (`pdf_export.dfy`, `orders.dfy`,
  `reservations.dfy`). These are the data-to-document steps of the PDF
  exports:
  - the item table, built by a loop with a running subtotal;
  - subtotal and total defaulting, and the discount with its table row and
    totals line;
  - the night count;
  - the dd/mm/yyyy date rendering;
  - the filename sanitising, which turns each run of characters other than
    letters, digits, `_` and `-` into one `_`;
  - the seven rows of the reservation proof.

  Numbers are JavaScript numbers after `Number(...)`: a finite `real`, or
  NaN, which propagates through `-` and `*` and fails `> 0`.
- **Payload builders** (`invoices.dfy`, `anuncios.dfy`):
  - the invoice mapper and the invoice listing path built with `genParams`;
  - the two multipart bodies of the ad endpoints, built by calls to `append`
    on a `FormData` class;
  - the parameters of the ad search;
  - the random-ad lookup, which turns any failure into `null`.

`common.dfy` (Option and Result, and JavaScript truthiness of an optional
string) and `text.dfy` (`startsWith`, `includes`, `split` and decimal
rendering) are shared by these modules.

The following are parameters of the operations:
- percent-encoding;
- `decodeURIComponent`;
- the `es-GT` currency formatter and `String(n)` of a real;
- the Unicode letter-or-number test;
- the current instant;
- whether the code runs in a browser or on the client;
- the outcome of the login request.

`formatGTQ` and `formatDisplayDate` appear twice in the source, with the
same text, at app/lib/api/orders/orders.ts:62-84 and
app/lib/api/reservations/reservations.ts:56-78. Each is modelled once, in
`PdfExport`.

## Model

| member | source | states |
|---|---|---|
| Common.Or | app/lib/api/orders/orders.ts:152-158 | `o \|\| fallback` on an optional string: the string when it is non-empty, the fallback otherwise |
| Text.Split | app/utils/plainFetch.ts:3-5 | `split` always yields at least one piece |
| Text.FindFrom | app/utils/plainFetch.ts:3-5 | the separator search behind `split` finds the first occurrence at or after a position, or reports that there is none |
| Text.JoinSplit | app/utils/plainFetch.ts:3 | joining the pieces of a split with the separator gives back the string |
| Text.SplitPiecesHaveNoSeparator | app/utils/plainFetch.ts:3-5 | no piece of a split (a cookie, its key or its value) contains the separator |
| Text.IncludesIff | app/middleware/01.auth.global.ts:8-9 | `includes` holds exactly when the substring occurs at some position |
| Text.OccursAtIncludes | app/middleware/01.auth.global.ts:8-9 | an occurrence at any position makes `includes` true |
| Text.IncludesOccurs | app/middleware/01.auth.global.ts:8-9 | when `includes` holds, an occurrence position exists |
| Text.MissingCharNotIncluded | app/middleware/01.auth.global.ts:8-13 | a string lacking one of the substring's characters does not include it |
| Text.DigitChar | app/lib/api/reservations/reservations.ts:71-72 | a digit value renders as a decimal digit |
| Text.DigitValue | app/lib/api/reservations/reservations.ts:71-72 | a character reads back as a value below 10 |
| Text.NatToString | app/lib/api/reservations/reservations.ts:71-73 | `String(n)` is a non-empty string of decimal digits, one digit long exactly when n < 10 |
| Text.IntToString | app/utils/plainFetch.ts:43 | `String(i)` of an integer: its digits, with a `-` first when it is negative |
| Text.ParseNatToString | app/lib/api/reservations/reservations.ts:71-73 | reading back the digits of `String(n)` gives n |
| Text.PadTwo | app/lib/api/reservations/reservations.ts:71-72 | `padStart(2, '0')` of a number below 100 has two digits and still denotes the number |
| Roles.RoleNameFromEmployee | app/lib/auth/roles.ts:10-14 | the employee type's name when the whole chain is present, undefined otherwise |
| Roles.IsAdmin | app/lib/auth/roles.ts:16-18 | true exactly for "ADMIN", the same answer as `hasAnyRole` with the list ["ADMIN"]; an admin role is never falsy |
| Roles.HasAnyRole | app/lib/auth/roles.ts:20-26 | a non-empty role passes exactly when the list contains it; an absent or empty role passes exactly when the list contains null |
| Roles.CanAccessAdmin | app/lib/auth/roles.ts:28-30 | true exactly for "ADMIN" |
| Roles.CanAccessReservaciones | app/lib/auth/roles.ts:32-34 | true exactly for a role in {"ADMIN", "Staff Hotel"} |
| Roles.CanAccessOrdenes | app/lib/auth/roles.ts:36-38 | true exactly for a role in {"ADMIN", "Staff Restaurante"} |
| Roles.CanAccessReportes | app/lib/auth/roles.ts:40-42 | true exactly for a role in {"ADMIN", "Contador"} |
| Roles.CanAccessMatchesTable | app/lib/auth/roles.ts:16-42 | every group predicate is membership in its table row, and an undefined role is denied by all four |
| Roles.AdminPassesAll | app/lib/auth/roles.ts:28-42 | "ADMIN" passes all four predicates |
| Roles.DepartmentRolesAreExclusive | app/lib/auth/roles.ts:28-42 | "Staff Hotel", "Staff Restaurante" and "Contador" each open exactly their own group |
| Roles.OtherRolesRefused | app/lib/auth/roles.ts:28-42 | a role other than the four markers is refused by every group |
| AuthGuard.RoleCheck | app/middleware/01.auth.global.ts:27-49 | the client checks send home, with that group's message, exactly when the path starts with a guarded prefix whose predicate rejects the role |
| AuthGuard.Guard | app/middleware/01.auth.global.ts:5-51 | only "/login" and "/" are targets; "/example" and any fullPath containing "public" or "juegos" is allowed; without a token, a fullPath lacking "login" goes to "/login" with the toast; with a token, a fullPath containing "login" goes to "/" |
| AuthGuard.ServerSkipsRoleChecks | app/middleware/01.auth.global.ts:22 | outside the client, a tokened navigation away from login is always allowed |
| AuthGuard.ClientRoleChecks | app/middleware/01.auth.global.ts:22-49 | on the client, a tokened non-public navigation away from login is redirected, always to "/", exactly when a guarded prefix of its path rejects the role |
| AuthGuard.AdminNeverRedirected | app/middleware/01.auth.global.ts:18-49 | a tokened "ADMIN" on the client is redirected only away from login, to "/" |
| AuthGuard.PrefixMatchIsTextual | app/middleware/01.auth.global.ts:22-31 | on the client, every tokened non-public path starting with "/admin" and no login page sends a role the admin predicate rejects home with the Administración message, whatever follows the prefix |
| AuthGuard.AdministracionRefused | app/middleware/01.auth.global.ts:28-31 | so "/administracion" refuses a "Staff Hotel" employee like "/admin" does |
| AuthGuard.AdministracionNotPublic | app/middleware/01.auth.global.ts:6-9 | "/administracion" is not a public route |
| AuthGuard.AdministracionIsGuarded | app/middleware/01.auth.global.ts:13-31 | "/administracion" contains no "login" and starts with "/admin" |
| AuthGuard.LoginPageOpenWithoutToken | app/middleware/01.auth.global.ts:13-49 | without a token the login page is reachable on either side |
| AuthGuard.LoginTokenNotSeenByGuard | app/middleware/01.auth.global.ts:11-16 | after a successful login (which writes "proyecto2sa-user-token"), a browser without "proyecto1sa-user-token" is still sent to "/login" |
| PlainFetch.GetCookie | app/utils/plainFetch.ts:1-11 | null without a document; otherwise a value exactly when some cookie's key is the name, and then the decoded value of the first such cookie |
| PlainFetch.AuthorizationHeader | app/utils/plainFetch.ts:17 | "" exactly for an empty or missing token, otherwise "Bearer " followed by the token |
| PlainFetch.RequestAuthorization | app/utils/plainFetch.ts:15-18 | the header is "" without a document or without a matching cookie, and otherwise the `Authorization` rule applied to the first matching cookie's decoded value ("Bearer " and that value, or "" when it is empty) |
| PlainFetch.ErrorMessage | app/utils/plainFetch.ts:25 | the body's message when it is non-empty, "Ha ocurrido un error" otherwise; never empty |
| PlainFetch.ResponseError | app/utils/plainFetch.ts:19-27 | the error carries the response status and a non-empty message, the body's when it has one |
| PlainFetch.RequestError | app/utils/plainFetch.ts:28-34 | no status, the default message |
| PlainFetch.GenParams | app/utils/plainFetch.ts:38-48 | the loop over the entries computes "" for a falsy argument, and otherwise "?" and the serialised kept pairs, or "" when none is kept |
| PlainFetch.KeptPairs | app/utils/plainFetch.ts:41-45 | no more pairs than entries, and no kept pair has an empty value |
| PlainFetch.Serialize | app/utils/plainFetch.ts:46 | each pair contributes a name, `=` and a value, joined by `&`: at least 2n−1 characters for n pairs |
| PlainFetch.QueryOf | app/utils/plainFetch.ts:39-47 | "" for a falsy argument; otherwise "" or "?" followed by at least one character |
| PlainFetch.KeptPairsAppend | app/utils/plainFetch.ts:41-45 | filtering distributes over concatenation, so kept pairs keep the entries' order |
| PlainFetch.KeptPairsSingle | app/utils/plainFetch.ts:42-44 | an entry is kept, as key and `String(value)`, exactly when its value is not null, undefined or ""; 0 and false are kept |
| PlainFetch.KeptPairsMembers | app/utils/plainFetch.ts:41-45 | a kept pair is exactly an entry with a kept value, rendered |
| PlainFetch.SerializeEmpty | app/utils/plainFetch.ts:46 | the serialisation is empty exactly when there are no pairs |
| PlainFetch.QueryShape | app/utils/plainFetch.ts:39-47 | "" for a falsy argument or no kept pair, otherwise "?" followed by the serialised pairs |
| PlainFetch.QueryExample | app/utils/plainFetch.ts:38-48 | `genParams({a: 1, b: null, c: ""})` is "?a=1" |
| AuthStore.SetCookie | app/stores/auth.ts:41-62 | assigning a cookie sets it, assigning null removes it, and other cookies are untouched |
| AuthStore.AfterLogin | app/stores/auth.ts:26-58 | success stores the token cookie, the user with the response's username, the employee, and authenticated; failure changes nothing but loading; loading ends false and staffRoles is kept |
| AuthStore.AfterLogout | app/stores/auth.ts:59-71 | the cookie, user and employee are cleared and authenticated and loading are false, whatever the prior state; other cookies and staffRoles are kept |
| AuthStore.AuthStore.constructor | app/stores/auth.ts:16-24 | the initial state: not authenticated, not loading, no user or employee, no staff roles |
| AuthStore.AuthStore.Login | app/stores/auth.ts:26-58 | the new state is the login snapshot; success returns `{response, error: false}` with the welcome toast and the push to "/", failure returns nothing with the error toast |
| AuthStore.AuthStore.Logout | app/stores/auth.ts:59-71 | the new state is the logout snapshot, then the push to "/login" |
| AuthStore.FailedLoginKeepsSession | app/stores/auth.ts:53-57 | a failed login leaves authenticated, user, employee and the cookie as they were |
| AuthStore.LoginStoresToken | app/stores/auth.ts:41-42 | after a successful login the cookie holds the response's token, or is gone when it has none |
| AuthStore.LogoutIdempotent | app/stores/auth.ts:59-71 | logging out twice is logging out once |
| AuthStore.LogoutForgetsSession | app/stores/auth.ts:59-71 | the state after logout does not depend on the session before it |
| AuthStore.LogoutUndoesLogin | app/stores/auth.ts:26-71 | logout after any login gives the state of logging out directly |
| PdfExport.Sub | app/lib/api/orders/orders.ts:133 | subtraction is NaN exactly when an operand is NaN |
| PdfExport.Mul | app/lib/api/reservations/reservations.ts:171 | multiplication is NaN exactly when an operand is NaN |
| PdfExport.MaxZero | app/lib/api/orders/orders.ts:133 | `Math.max(0, a)` is NaN for NaN and otherwise the larger of 0 and a |
| PdfExport.FormatGTQ | app/lib/api/orders/orders.ts:62-70 | "—" for a non-finite number, the currency rendering otherwise |
| PdfExport.FormatDisplayDate | app/lib/api/orders/orders.ts:72-84 | "—" for a falsy argument, `String(d)` for an invalid date, otherwise dd/mm/yyyy of the local day |
| PdfExport.DayMonthYearRoundTrip | app/lib/api/reservations/reservations.ts:71-74 | the rendering has two-digit day and month at fixed places, and reading it back gives the day, getMonth()+1 and the year |
| PdfExport.SkipUnsafe | app/lib/api/orders/orders.ts:197 | dropping a run of unsafe characters leaves a suffix that is empty or starts with a safe character |
| PdfExport.Sanitize | app/lib/api/orders/orders.ts:197 | the result holds only letters, digits, `_` and `-`, is no longer than the input, and is empty only for empty input |
| PdfExport.SanitizeKeepsSafe | app/lib/api/orders/orders.ts:197 | a string of safe characters is unchanged |
| PdfExport.SanitizeIdempotent | app/lib/api/orders/orders.ts:197 | sanitising twice is sanitising once |
| PdfExport.SanitizeCons | app/lib/api/orders/orders.ts:197 | a safe first character is kept as it is |
| PdfExport.SanitizeSafePrefix | app/lib/api/orders/orders.ts:197 | a safe prefix is kept as it is |
| PdfExport.Shortfall | app/lib/api/orders/orders.ts:133 | `Math.max(0, a - b)` is NaN exactly when a figure is NaN, is never negative, and is positive exactly when b < a, being then a − b |
| PdfExport.SanitizeUnsafeRun | app/lib/api/orders/orders.ts:197 | a whole run of unsafe characters becomes a single `_` |
| PdfExport.SkipRun | app/lib/api/orders/orders.ts:197 | skipping unsafe characters removes exactly the leading unsafe run |
| PdfExport.SafeId | app/lib/api/reservations/reservations.ts:145 | `String(id \|\| fallback)` sanitised: only safe characters, from the id when it is non-empty, from the fallback otherwise |
| PdfExport.RowCells | app/lib/api/orders/orders.ts:108-141 | every table row has four cells |
| PdfExport.DiscountLabel | app/lib/api/orders/orders.ts:137 | "Descuento - name" with a non-empty promotion name, "Descuento " otherwise |
| PdfExport.TotalsBlock | app/lib/api/orders/orders.ts:179-183 | Subtotal, then a Descuento line exactly when the discount is positive, then Total |
| PdfExport.TotalsCells | app/lib/api/orders/orders.ts:180-182 | every totals line has a label and an amount |
| Orders.ItemDescription | app/lib/api/orders/orders.ts:123 | the name, else the dish id, else "Ítem", falling back only on absent values |
| Orders.ItemRows | app/lib/api/orders/orders.ts:117-128 | one row per item, in item order |
| Orders.BuildOrderTable | app/lib/api/orders/orders.ts:107-128 | the loop yields the header and the item rows, and its running subtotal is the sum of q×p with non-finite factors as 0 |
| Orders.OrderTotals | app/lib/api/orders/orders.ts:131-132 | the subtotal defaults to the computed one and the total to the subtotal |
| Orders.ExportOrderInvoice | app/lib/api/orders/orders.ts:93-200 | fails outside the browser; otherwise yields the invoice document of the order |
| Orders.DiscountIsShortfall | app/lib/api/orders/orders.ts:133-135 | the discount is never negative, is positive exactly when the total is below the subtotal, and is then their difference |
| Orders.NoTotalNoDiscount | app/lib/api/orders/orders.ts:132-135 | an order without a total gets no discount |
| Orders.NoFiguresUseComputed | app/lib/api/orders/orders.ts:115-133 | without figures both subtotal and total are the computed subtotal |
| Orders.SumLines | app/lib/api/orders/orders.ts:115-121 | items that all add 0 (a non-numeric factor or a zero) give a computed subtotal of 0 |
| Orders.SumLinesAppend | app/lib/api/orders/orders.ts:115-121 | the computed subtotal adds up over concatenated item lists |
| Orders.SumLinesNonNegative | app/lib/api/orders/orders.ts:115-121 | with no negative quantity or price the computed subtotal is not negative |
| Orders.NonNumericLineIsZero | app/lib/api/orders/orders.ts:118-120 | a non-numeric quantity or price makes the line amount 0 |
| Orders.InvoiceTableShape | app/lib/api/orders/orders.ts:107-184 | header, one row per item in order, and a final discount row exactly when the totals block shows a discount, with the same amount |
| Orders.InvoiceHeaderFallbacks | app/lib/api/orders/orders.ts:152-198 | "Restaurante", "" and "—" placeholders, and the file named after "orden" without an id |
| Reservations.NightCount | app/lib/api/reservations/reservations.ts:84-86 | the count is 0 exactly for a non-positive gap |
| Reservations.NightCountBounds | app/lib/api/reservations/reservations.ts:85-86 | a positive gap counts the least n with ms ≤ n days: (n−1) days < ms ≤ n days |
| Reservations.DiffNights | app/lib/api/reservations/reservations.ts:80-87 | 0 when a date is falsy, NaN when a date is invalid, otherwise the night count of the difference |
| Reservations.NightsWord | app/lib/api/reservations/reservations.ts:128 | "noche" exactly when nights is 1, "noches" otherwise |
| Reservations.RoomName | app/lib/api/reservations/reservations.ts:112 | room number, else room name, else room id, else the fallback, skipping empty values |
| Reservations.Figures | app/lib/api/reservations/reservations.ts:169-200 | the figures carry the night count given (the invoice gives diffNights of the stay's dates); the unit price is the room's price or 0; the subtotal shown is the reservation's subtotal or the line total; the total shown is its total cost or max(0, subtotal shown − discount) |
| Reservations.BuildReservationTable | app/lib/api/reservations/reservations.ts:175-197 | the header, the lodging row and, exactly when the discount is positive, the discount row |
| Reservations.ExportReservationInvoice | app/lib/api/reservations/reservations.ts:154-258 | fails outside the browser; otherwise yields the invoice document of the reservation |
| Reservations.PromotionText | app/lib/api/reservations/reservations.ts:131 | "—" without a promotion |
| Reservations.FormatField | app/lib/api/reservations/reservations.ts:129-132 | an absent figure reads "—" |
| Reservations.ProofRows | app/lib/api/reservations/reservations.ts:125-133 | seven rows with the labels Hotel, Habitación, Fechas, Precio/noche, Subtotal, Promoción and Total, in that order |
| Reservations.ExportReservationProof | app/lib/api/reservations/reservations.ts:96-148 | fails exactly outside the browser; otherwise title, id and client lines, the seven rows, the issue date and the "comprobante_reservacion_" filename |
| Reservations.NightCountExact | app/lib/api/reservations/reservations.ts:84-85 | an exact n-day gap gives n nights |
| Reservations.NightCountRoundsUp | app/lib/api/reservations/reservations.ts:85 | any positive part of a day counts as a whole night |
| Reservations.NightCountMonotone | app/lib/api/reservations/reservations.ts:84-86 | a longer gap never gives fewer nights |
| Reservations.InvoiceDiscountBounds | app/lib/api/reservations/reservations.ts:172 | the discount is never negative, is positive exactly when (subtotal ?? 0) exceeds (totalCost ?? 0), and is then their difference |
| Reservations.LineTotalIsNightsTimesPrice | app/lib/api/reservations/reservations.ts:170-171 | the line total is nights × unit price, an absent or non-numeric price counting 0 |
| Reservations.SubtotalWithoutTotalCost | app/lib/api/reservations/reservations.ts:172-200 | a subtotal without a total cost becomes the discount (when positive) and the total shown is 0 |
| Reservations.BothFiguresShownAsGiven | app/lib/api/reservations/reservations.ts:199-200 | with both figures present they are shown as given |
| Reservations.TotalCostWithoutSubtotal | app/lib/api/reservations/reservations.ts:199-200 | with a total cost but no subtotal, the subtotal shown is the line total and the total shown is the total cost |
| Reservations.NaNSubtotalWithoutTotalCost | app/lib/api/reservations/reservations.ts:172-200 | a NaN subtotal without a total cost makes the discount, the subtotal and the total shown NaN |
| Reservations.NoFiguresUseLineTotal | app/lib/api/reservations/reservations.ts:172-200 | without figures there is no discount, the subtotal is the line total and the total is max(0, line total) |
| Reservations.InvoiceShape | app/lib/api/reservations/reservations.ts:175-197 | the invoice's table has 2 or 3 rows, as many as its totals block has lines: header, lodging row, and a discount row carrying the totals' discount |
| Reservations.RoomNameFallbacks | app/lib/api/reservations/reservations.ts:112 | without room data the invoice says "Habitación" and the proof "—" |
| Reservations.ProofPlaceholders | app/lib/api/reservations/reservations.ts:129-132 | missing figures and a missing promotion read "—" on the proof |
| Reservations.DatesCell | app/lib/api/reservations/reservations.ts:128 | the Fechas cell ends " noche)" exactly for one night |
| Reservations.DatesText | app/lib/api/reservations/reservations.ts:111-128 | a reservation's Fechas cell ends " noche)" exactly when diffNights of its dates is 1 |
| Reservations.OneNightPhrase | app/lib/api/reservations/reservations.ts:111-128 | a one-night stay's Fechas cell is both dates and "(1 noche)" |
| Reservations.MissingStartPhrase | app/lib/api/reservations/reservations.ts:80-128 | without a start date the Fechas cell is "— – ", the end date and "(0 noches)" |
| Reservations.DatesCellPhrase | app/lib/api/reservations/reservations.ts:128 | the cell for 1 and 0 nights, written out with "noche" and "noches" |
| Invoices.MapDetail | app/lib/api/invoices/invoice.ts:74-80 | a detail keeps itemId, itemName, itemType, quantity and unitPrice |
| Invoices.MapDetails | app/lib/api/invoices/invoice.ts:74 | same length and order as the input details |
| Invoices.MapModelCreateInvoice | app/lib/api/invoices/invoice.ts:68-82 | payment method and client document are copied, and the i-th detail has the five fields of the i-th input |
| Invoices.MapperDropsTotalsAndEntity | app/lib/api/invoices/invoice.ts:74-80 | details that differ only in total and entity fields map to the same payload |
| Invoices.MapDetailsAppend | app/lib/api/invoices/invoice.ts:74 | mapping a concatenation is concatenating the mappings |
| Invoices.CastsDoNotValidate | app/lib/api/invoices/invoice.ts:72-77 | a payment method or item type outside the enums passes through unchanged |
| Invoices.AllInvoicesPath | app/lib/api/invoices/invoice.ts:125-128 | the path is "/v1/invoices/all" followed by nothing or by a query starting with "?" |
| Invoices.AllInvoicesPathFilters | app/lib/api/invoices/invoice.ts:125-128 | null or empty filters are omitted and set ones are sent as their name and value; with none set the path is "/v1/invoices/all" |
| Anuncios.FormData.constructor | app/lib/api/anuncios/anuncio.ts:127 | a new form has no entries |
| Anuncios.FormData.Append | app/lib/api/anuncios/anuncio.ts:128-135 | `append` adds one entry at the end |
| Anuncios.FirstValue | app/lib/api/anuncios/anuncio.ts:126-165 | a form lookup gives the first entry with the name, or nothing when no entry has it |
| Anuncios.Keys | app/lib/api/anuncios/anuncio.ts:126-165 | the names of the form's entries, in order |
| Anuncios.ToAnuncioFormData | app/lib/api/anuncios/anuncio.ts:126-137 | a fresh form holding the create entries |
| Anuncios.CreateFormFields | app/lib/api/anuncios/anuncio.ts:126-137 | exactly 8 entries named content, type, description, cinemaId, urlContent, userId, durationDaysId and file, in order, each holding the same-named field |
| Anuncios.CreateKeysDistinct | app/lib/api/anuncios/anuncio.ts:128-135 | the create body's eight names are all different |
| Anuncios.CreateEntriesDistinct | app/lib/api/anuncios/anuncio.ts:126-137 | the create body carries the eight names in append order, no name twice |
| Anuncios.FirstOfDistinct | app/lib/api/anuncios/anuncio.ts:126-137 | in a form with distinct names each name finds its own entry |
| Anuncios.ToUpdateAnuncioFormData | app/lib/api/anuncios/anuncio.ts:156-165 | a fresh form holding the update entries |
| Anuncios.UpdateFormShape | app/lib/api/anuncios/anuncio.ts:156-165 | content, description and urlContent in order, then file exactly when there is one: 3 or 4 entries |
| Anuncios.UpdateFormOmitsCreateOnlyFields | app/lib/api/anuncios/anuncio.ts:156-165 | the update body never has type, cinemaId, userId or durationDaysId |
| Anuncios.SetProperty | app/lib/api/anuncios/anuncio.ts:55 | a property not yet in the object goes after all of them; the assigned property is present and every other property is kept |
| Anuncios.SearchParams | app/lib/api/anuncios/anuncio.ts:49-56 | the parameters hold page with its argument or 0, and every filter property other than page |
| Anuncios.SearchParamsShape | app/lib/api/anuncios/anuncio.ts:49-56 | the filter's properties unchanged and in order, then page, which defaults to 0 |
| Anuncios.SearchParamsOverridesPage | app/lib/api/anuncios/anuncio.ts:55 | a page already in the filter keeps its place and takes the page argument |
| Anuncios.RandomAdPath | app/lib/api/anuncios/anuncio.ts:64 | the random lookup's path starts with the cinema's prefix |
| Anuncios.RandomAdParams | app/lib/api/anuncios/anuncio.ts:59-68 | the query parameters are cinemaId and type, with the same cinema id and type name as the path |
| Anuncios.RandomAd | app/lib/api/anuncios/anuncio.ts:59-70 | a failed lookup is null and a successful one is its response |
| Anuncios.RandomAdSwallowsErrors | app/lib/api/anuncios/anuncio.ts:69 | every failure gives the same null |

## Left out

- The endpoint wrappers are not modelled. Each is a single request with a
  URL template: `getAllOrders`, `createOrder`, `getReservationById`,
  `createInvoice`, `getById`, `deleteAnuncioById` and the others.
- The transport of `$api` is not modelled: `$fetch.create`, its base URL and
  the console logging. Only the header rule and the error rules are kept.
- pdfmake is not modelled: the import, the fonts, the page layout and styles,
  and the download. The documents are modelled by their contents.
- `Intl.NumberFormat`, `toFixed` and `String(n)` of a real are not modelled:
  they are locale and floating-point rendering. They are the `Formatter`
  parameter.
- IEEE floating point is not modelled. Amounts are exact reals, with NaN as
  the only non-finite value.
- PdfExport.FormatGTQ: ±Infinity is not modelled. The source's `isFinite`
  rejects it just as it rejects NaN.
- Reservations.FormatField: `Number(null)` is 0 in the source, so a figure
  that is null rather than absent would show as a zero amount. The model
  treats null like absent and shows "—".
- `String(nights)` appears in two cells of the reservation documents. The
  Fechas cell renders it with exact decimal digits. The invoice's quantity
  cell goes through the table row's generic number cell, which uses the
  `Formatter`'s `String(n)` like the order quantities, which may be any
  real. The model does not tie that formatter to decimal digits on whole
  numbers.
- Orders and Reservations read amounts as numbers only. `Number("2")` of a
  numeric string is not modelled.
- Reservations.Room: `room.number` is read through `any` and modelled as its
  text.
- Date parsing and time zones are not modelled. A date argument carries what
  `new Date` makes of it: an instant with its local calendar day, or
  invalid.
- The Unicode classes `\p{L}` and `\p{N}` are not modelled; they are the
  `isLetterOrNumber` parameter.
- Percent-encoding (`URLSearchParams`) and `decodeURIComponent` are
  parameters. The error `decodeURIComponent` throws on a malformed
  sequence is not modelled.
- `useCookie` is modelled as a plain map of cookie names to strings, with
  assigning null removing the cookie. Its JSON encoding, its cookie
  options and its server-side reads are not modelled.
- The session store's Pinia persistence (`persist: true`) is not modelled.
- Interleaved calls to `login` or `logout` while one is awaiting its
  request are not modelled: concurrency is out of scope. `Login` does set
  `loading` first, and it ends false on either outcome.
- The login request is the `outcome` parameter: a response, or the message
  of the error it raised.
- A null login response is modelled as a response whose fields are all
  absent.
- `import.meta.client` and the `typeof window` checks are the `isClient`
  and `isBrowser` parameters.
- The middleware reads the employee from the store; it is a parameter of
  `Guard`.
- Anuncios.SearchParams gives the parameter entries only. Turning them into
  a query string belongs to the HTTP library, not to `genParams`.
- A filter's properties are given as entries in the object's insertion
  order.
- `searchAnuncios`, `getAnuncioAleatorioByCinemaAndType`, `createAnuncio`
  and `updateAnuncio` are modelled only up to the paths, parameters and
  bodies they send.
- The `Entity` fields come from app/lib/api/utils/entity.ts, which is not
  part of this model. They are represented by an id and two timestamps,
  which the mapper drops.
- The `*.nuxt.spec.ts` page tests are not modelled: they are UI rendering
  checks.
