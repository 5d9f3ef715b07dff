# Inventory ledger: report engine and record store

A Dafny model of the inventory ledger of a military asset-management demo.
Equipment moves through three append-only record streams: purchases, transfers
between bases, and assignments or expenditures. Each stream is visible
according to the viewer's role (Admin, Base Commander, Logistics Officer). The
ledger exists twice in the repository, and both are modelled as written:

- `code.jsx`, the browser application. Its `filterBy` helper and the dashboard
  metrics (opening balance, transfers in and out, expended, assigned, net
  movement, closing balance) are `filter`/`reduce` expressions. The `add*`
  handlers build extended arrays, the three entry forms decide whether a record
  is admitted, and each page lists records under the filter bar and the role.
  All of it is pure: module `Report` (report.dfy).
- `script.js`, the Express back end. Three module-level arrays are extended by
  `push` in the POST routes, after role authorisation and validation run in a
  fixed order. The GET routes list the arrays under role scoping, and
  `/dashboard` sums them. Module `Server` (server.dfy) holds the arrays in a
  class `Store` with `seq` fields and POST methods that modify it. The
  decisions of those methods are stated as pure functions
  (`PurchaseOutcome`, ...), and the listings and the dashboard are functions.

Shared pieces:

- `Ledger` (ledger.dfy) holds the record datatypes, the roles and an `Option`
  type. `None` stands for every JavaScript value that the code treats as an
  empty field: missing, `null`, `undefined` or `""`.
- `Seqs` (seqs.dfy) holds an order-preserving `Filter` and a guarded `Sum`.
  They are the two array idioms of both files, with their lemmas.
- `Agreement` (agreement.dfy) relates the server's dashboard to the browser's
  metrics.

Dates `YYYY-MM-DD` are modelled as integers `YYYYMMDD`. For fixed-width ISO
dates, integer order is the string order the code compares with `<` and `<=`.

Behaviour the code has, and the model keeps:

- `filterBy` compares the date by equality. So the browser's net movement counts
  only purchases dated exactly on the cutoff, while the opening balance counts
  purchases strictly before it.
- With no date cutoff, the opening balance, both transfer figures, expended and
  assigned are 0. The net movement is not 0: it is the visible purchases
  matching the base and type filters (`Report.NoCutoff`).
- With an empty base filter, the browser counts a transfer in both `transferIn`
  and `transferOut` for an Admin. One might expect a purchase of 10 at Alpha
  (2024-06-01) and a transfer of 3 from Alpha to Bravo (2024-06-04), at cutoff
  2024-06-05, to give net movement 7 and closing balance 17. The code gives
  opening 10, in 3, out 3, net 0 and closing 10 (`Report.AdminExample`).
- Net movement and closing balance are differences, so they can be negative even
  when every record is well formed (`Report.NetMovementCanBeNegative`).
- The equipment-type filter is ignored by the transfer and assignment figures.
  The base and type filters are ignored by the opening balance.
- The browser form refuses a transfer between a base and itself. The server has
  no such check and stores it (`Server.SameBaseTransferAccepted`).
- The server's `!quantity` refuses only 0 or a missing quantity, so a negative
  quantity is stored. The browser form requires `quantity > 0`.
- An expenditure record keeps whatever personnel was sent or typed. Nothing
  clears it.
- On the server, `openingBalance` is always 0. An Admin's or Logistics
  Officer's `baseFilter` is `null`, so their transfer figures are always 0.

## Model

| member | source | states |
|---|---|---|
| `Report.FilterBy` | code.jsx:21-29 | a purchase is in the result iff it is in the input and equals every set filter field (date by equality); with every field unset the input comes back unchanged |
| `Seqs.FilterAppend` | code.jsx:21-29 | the JavaScript `filter` keeps store order: filtering a concatenation is the concatenation of the filtered parts |
| `Seqs.FilterCounts` | code.jsx:21-29 | a filter keeps each selected value as often as it occurs and drops the others |
| `Report.OpeningBalance` | code.jsx:94-102 | with no date cutoff the opening balance is 0; over purchases with non-negative quantities it is never negative |
| `Report.TransferIn` | code.jsx:110-118 | with no date cutoff transfers in are 0; over non-negative quantities never negative |
| `Report.TransferOut` | code.jsx:120-128 | with no date cutoff transfers out are 0; over non-negative quantities never negative |
| `Report.StatusTotal` | code.jsx:130-150 | expended and assigned are 0 with no date cutoff and never negative over non-negative quantities |
| `Report.PurchasesTotal` | code.jsx:152 | the purchase part of net movement is 0 whenever no purchase is dated exactly on the cutoff, because `filterBy` compares dates by equality; never negative over non-negative quantities |
| `Report.NetMovement` | code.jsx:152 | with no cutoff the net movement is the purchase total alone; with a cutoff on which no purchase is dated it is transfers in less transfers out |
| `Report.Dashboard` | code.jsx:233-237 | the figures are the metrics above; net movement = purchases + transfers in - transfers out; closing balance = opening balance + net movement - expended |
| `Report.FilteredPurchases` | code.jsx:105-108 | a purchase is listed or counted iff it passes `filterBy` and, for a Base Commander, lies at their base |
| `Report.PurchasesTotalIsGuardedSum` | code.jsx:152 | the purchase part of net movement is the sum over all purchases that match the filters and that the viewer may see |
| `Report.NoCutoff` | code.jsx:95-152 | with no date cutoff, opening balance, transfer in and out, expended and assigned are 0; net movement equals the visible purchases matching base and type, and so does the closing balance |
| `Report.OpeningIgnoresBaseAndType` | code.jsx:95-102 | the opening balance is the same whatever the base and equipment-type filters are |
| `Report.MovementsIgnoreType` | code.jsx:110-150 | transfer in, transfer out, expended and assigned are the same whatever the equipment-type filter is |
| `Report.CommanderScope` | code.jsx:95-150 | a Base Commander's opening balance, purchase total, expended and assigned equal an Admin's over only own-base records; transfer in counts only transfers to their base and transfer out only transfers from it |
| `Report.AddPurchase` | code.jsx:156-158 | the new array is the old one followed by exactly one purchase with id old length + 1 and the given fields |
| `Report.AddTransfer` | code.jsx:160-162 | the same for transfers |
| `Report.AddAssignment` | code.jsx:164-166 | the same for assignments, keeping the personnel and status given |
| `Report.AddPurchaseReport` | code.jsx:95-108 | an added purchase raises the opening balance by its quantity iff it is visible and strictly before the cutoff, and the purchase total iff it is visible and matches the filters |
| `Report.PurchaseFormAccepted` | code.jsx:282 | the purchase form is accepted iff date, base and type are filled in and the record it would add has a positive quantity (`PurchaseOk`) |
| `Report.TransferFormAccepted` | code.jsx:408-412 | the transfer form is accepted iff complete and the record it would add has a positive quantity and two different bases (`TransferOk`) |
| `Report.AssignmentFormAccepted` | code.jsx:549-555 | the assignment form is accepted iff complete and the record it would add has a positive quantity and is "Expended", or "Assigned" with personnel (`AssignmentOk`) |
| `Report.SubmitPurchase` | code.jsx:278-288 | the purchase form appends one record iff date, base and type are set and quantity > 0; otherwise the array is unchanged |
| `Report.SubmitTransfer` | code.jsx:404-418 | only Admin and Base Commander have the transfer form; it appends one record iff the form is complete, quantity > 0 and the two bases differ; otherwise the array is unchanged |
| `Report.SubmitAssignment` | code.jsx:545-570 | only Admin and Base Commander have the assignment form; it appends one record iff the form is complete, quantity > 0 and the status is "Expended", or "Assigned" with personnel; otherwise the array is unchanged |
| `Report.SubmitKeepsWellFormed` | code.jsx:156-166 | every submission keeps ids numbered 1, 2, ... in order, quantities positive, transfers between two different bases and every assignment expended or carrying personnel |
| `Report.WellFormedFiguresNonNegative` | code.jsx:95-152 | over well-formed records none of the sums behind the figures is negative, and each is positive iff some record counts towards it |
| `Report.NetMovementCanBeNegative` | code.jsx:120-152 | net movement and closing balance can be negative on well-formed records: a Base Commander of Alpha at cutoff 2024-06-05 with one transfer of 3 from Alpha to Bravo on 2024-06-04 sees both at -3 |
| `Report.SeedWellFormed` | code.jsx:35-80 | the records the application starts with are well formed |
| `Report.CanView` | code.jsx:170-182 | a role may open a page iff the page is not the assignments page or the role is not Logistics Officer |
| `Report.AccessiblePages` | code.jsx:694-703 | the navigation bar is the four pages in order, less the assignments page for a Logistics Officer |
| `Report.PageGating` | code.jsx:170-182 | every role reaches the dashboard, purchases and transfers; the assignments page is open iff the role is not Logistics Officer |
| `Report.TransferListing` | code.jsx:387-398 | a transfer is listed iff a Base Commander's base is one of its ends (any transfer for other roles) and it matches the filters, the base filter matching either end |
| `Report.TransferListingAppend` | code.jsx:387-398 | a later transfer is listed after all earlier ones, and only if it passes both guards |
| `Report.AssignmentListing` | code.jsx:534-539 | an assignment is listed iff it matches every set filter field and the viewer may see its base; a Base Commander sees only own-base records |
| `Report.AdminExample` | code.jsx:95-152 | for a purchase of 10 at Base Alpha on 2024-06-01 and a transfer of 3 from Alpha to Bravo on 2024-06-04, an Admin at cutoff 2024-06-05 with no other filter sees opening 10, in 3, out 3, net 0, closing 10 |
| `Server.Authorize` | script.js:30-37 | a request goes on iff the caller's role occurs at some position of the route's role list |
| `Server.AuthorizeRoutes` | script.js:30-37 | every role passes the three-role list; the Admin/Base Commander list admits exactly the roles other than Logistics Officer |
| `Server.PurchaseOutcome` | script.js:40-56 | 400 iff a base, type, quantity or date is missing; otherwise 403 iff a Base Commander names another base; otherwise the record has id length + 1 and the body's fields |
| `Server.TransferOutcome` | script.js:70-87 | a Logistics Officer gets 403; otherwise 400 iff a field is missing; accepted iff complete and a Base Commander sends from their own base, with no check that the bases differ |
| `Server.AssignmentOutcome` | script.js:101-122 | a Logistics Officer gets 403; otherwise 400 iff a field or the status is missing, or the status is "Assigned" without personnel; accepted iff that passes and a Base Commander names their own base; absent personnel is stored as `null` |
| `Server.ValidationPrecedence` | script.js:101-111 | the role check runs before any field check, and the missing-field and personnel checks (400) run before the base ownership check (403) |
| `Server.SameBaseTransferAccepted` | script.js:70-87 | a complete transfer from a base to itself is accepted for an Admin, or for the commander of that base |
| `Server.ListPurchases` | script.js:60-67 | a Base Commander receives exactly the purchases at their base; other roles receive the whole array |
| `Server.ListTransfers` | script.js:91-98 | a Base Commander receives exactly the transfers with their base at either end; other roles receive the whole array |
| `Server.ListAssignments` | script.js:126-133 | a Logistics Officer is refused; a Base Commander receives exactly the own-base assignments; an Admin receives the whole array |
| `Server.ListingAppend` | script.js:91-98 | the transfer listing keeps store order: a later transfer is listed after the earlier ones, and only if the caller may see it |
| `Server.PurchasesByBase` | script.js:139-140 | with a base filter, exactly the purchases at that base are kept; with none, the array is unchanged |
| `Server.TransfersByBase` | script.js:139-140 | with a base filter, exactly the transfers with that base at either end are kept; with none, the array is unchanged |
| `Server.AssignmentsByBase` | script.js:139-140 | with a base filter, exactly the assignments at that base are kept; with none, the array is unchanged |
| `Server.Dashboard` | script.js:136-162 | the opening balance is 0; net movement = purchases + transfers in - transfers out; closing balance = opening balance + net movement - expended |
| `Server.UnscopedDashboard` | script.js:136-151 | for Admin and Logistics Officer: opening balance 0, transfers in and out 0, purchases and expended summed over every record, closing balance = purchases - expended |
| `Server.CommanderDashboard` | script.js:136-151 | for a Base Commander of base b: purchases, expended and assigned sum the records at b; transfers in sum those to b, out those from b; closing balance = purchases + in - out - expended |
| `Server.Store.Valid` | script.js:40-123 | the invariant the POST routes keep implies that within each array no two records share an id |
| `Server.Store.constructor` | script.js:8-10 | the store starts with no records |
| `Server.Store.PostPurchase` | script.js:40-57 | returns the outcome for the current length (with its placeholder); on success the array gains exactly that record, on failure nothing changes; the other arrays are untouched; ids stay sequential |
| `Server.Store.PostTransfer` | script.js:70-88 | the same for transfers |
| `Server.Store.PostAssignment` | script.js:101-123 | the same for assignments; stored "Assigned" records always carry personnel |
| `Server.Store.GetPurchases` | script.js:60-67 | answers with the listing of the current array |
| `Server.Store.GetTransfers` | script.js:91-98 | answers with the listing of the current array |
| `Server.Store.GetAssignments` | script.js:126-133 | answers with the listing of the current array |
| `Server.Store.GetDashboard` | script.js:136-162 | answers with the dashboard of the current arrays |
| `Agreement.CommanderDashboardsAgree` | script.js:136-151 | for a Base Commander, with a browser cutoff past every record and no other filter, the server's transfers in and out, expended and assigned equal the browser's figures, the server's purchase total equals the browser's opening balance, and the two closing balances are equal |

## Left out

- Rendering, styles, the `Metric`/`Filters`/`Navigation` markup, `alert` popups and `useState` plumbing (code.jsx:186-764) are presentation. Only the predicates and sums they use are modelled.
- `parseInt` on the quantity input can give `NaN`. `NaN > 0` is false, so such a form is refused like any non-positive quantity. Quantities are plain integers here.
- The pre-filled, disabled base field of a Base Commander's purchase and assignment forms (and the from-base of the transfer form) is UI. The browser itself never checks base ownership.
- Express setup, `app.listen`, the `X-Username` middleware (401 for an unknown user) and HTTP status and body mechanics (script.js:1-5, 12-27, 165-167) are transport. Responses are a datatype (`Ok`, `BadRequest`, `Forbidden`).
- The placeholder numbers `[100000]`, `[50]`, `[250]` that start the server arrays (script.js:8-10) are not records. They appear only as an id offset of 1, so the first stored id is 2. Two of their effects are not modelled. GET listings return them to non-commanders. An Admin's or Logistics Officer's `/dashboard` purchase sum adds `undefined`, which JavaScript makes `NaN`.
- JavaScript numbers are floating point. Sums here are unbounded integers.
- Truthiness beyond missing, empty or 0 is not modelled, such as a quantity sent as a string. An empty-string field is `None`, and `Some` never carries `""`.
- Concurrency: the code has none.
