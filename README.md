# A verified model of the remodeling console's screen logic

The application is an admin console for a remodeling business. Staff price apartment-unit
remodels from a catalogue of base packages and services, follow projects through draft, sent,
approved, invoiced and paid, record payments, and edit the service catalogue. Only e-mail
addresses on a build-time allow-list may sign in. Almost all of the application is reading
and writing rows of a remote store. This project models the five small pieces of business
logic that sit inside its React components, and proves what they compute:

- **Quotation draft builder** (`quotations.dfy`, class `QuotationBuilder`). This is the
  new-project screen's list of service lines. Its operations append an empty line, remove the
  lines with a given id, and fill a line from the catalogue. The model also covers the running
  total (base price, plus price × multiplier for each service line, plus 10 per change order),
  the reading of the typed change-order count, and the draft project record handed to the PDF
  renderer.
- **Dashboard statistics** (`dashboard.dfy`). `ComputeStats` is the one-pass loop, with its
  counters and two dictionaries updated in place. It is proved equal to `StatsOf`, a recursive
  definition of the same fold. The lemmas prove what `StatsOf` means:
  - the counts and sums;
  - the per-property and per-service tallies, each against an independent count;
  - the average;
  - the top-five services table;
  - the drafts table.
- **Payment screen** (`payments.dfy`, class `PaymentForm`). This covers:
  - the search over projects not yet paid;
  - the amount prefilled when a project is picked;
  - the guard on submitting;
  - the inserted row, where empty texts become null;
  - the form reset after a successful insert.
- **Service editor** (`services.dfy`, class `ServiceEditor`). This covers the multiplier
  derived from a unit label, the defaults of a new service, and how editing, creating,
  cancelling and saving reset the editor.
- **Sign-in gate** (`auth.dfy`, class `AuthProvider`). This covers the comma-separated
  allow-list, exact membership, and how the provider's `user` and `loading` state respond to
  the sessions the auth client reports. An invariant proves that the kept user is always one
  the list admits. Children are rendered exactly when `RendersChildren()`, that is when
  `loading` is false.

The support modules are:
- `wrappers.dfy` (`Option`);
- `lists.dfy`, the JavaScript array built-ins the screens use (`filter`, `find`, `some`, a
  summing `reduce`);
- `strings.dfy`, the string built-ins they use (`toLowerCase` on ASCII letters, `includes`,
  `startsWith`, `split`/`join`, `parseInt`, `Number`);
- `types.dfy`, the records of `src/types/index.ts` and the shape in which the store returns
  projects.

Money is an integer throughout. The remote store is not modelled. Each call is replaced by the
request it would send, returned from the method, and, where the outcome matters, a boolean
that says whether the call succeeded.

Where the code and its description differ, the model follows the code:
- `handleSave` does not clear the creating flag; only `handleCreate` and `handleCancel` do.
  So after starting a new service, a save of an existing one that fails leaves the create row
  open with nothing behind it. A save that succeeds reloads the page, which discards that state.
- A project whose property name is missing or empty is filed under 'Unknown'. The `||`
  treats the empty name as missing.
- `parseInt` accepts a sign. A typed "-3" therefore gives -3 change orders; `min="0"` on the
  input does not prevent it.
- Splitting an empty or trailing-comma allow-list yields an empty segment. A session whose user
  has no e-mail compares as '' and so is admitted by such a list (`EmptySegmentAdmitsUserWithoutEmail`).
- The draft project record does not carry the notes typed on the screen.

## Model

| member | source | states |
|---|---|---|
| Quotations.QuotationBuilder.constructor | src/pages/Quotations.tsx:10-16 | the builder starts with no property, unit, base or services, zero change orders and empty notes |
| Quotations.QuotationBuilder.AddService | src/pages/Quotations.tsx:25-33 | exactly one empty service line (given id, type service, name '', price 0) is appended after the unchanged earlier lines, and the total does not change |
| Quotations.AddServiceKeepsTotal | src/pages/Quotations.tsx:25-33 | appending the empty service line leaves the services total unchanged |
| Quotations.QuotationBuilder.RemoveService | src/pages/Quotations.tsx:35-37 | the new list holds exactly the old lines whose id differs from the removed one |
| Quotations.RemoveKeepsExactlyOthers | src/pages/Quotations.tsx:35-37 | a line survives removal if and only if it was in the list and carries another id |
| Quotations.RemovePreservesOrder | src/pages/Quotations.tsx:35-37 | removal distributes over concatenation, so surviving lines keep their relative order |
| Quotations.RemoveUnknownIsNoOp | src/pages/Quotations.tsx:35-37 | removing an id that no line carries leaves the list unchanged |
| Quotations.RemoveSubtractsRemovedLines | src/pages/Quotations.tsx:35-37 | the services total before removal is the total after it plus the amounts of the removed lines |
| Quotations.AssignService | src/pages/Quotations.tsx:43-52 | every line keeps its id, type, quantity, category and notes, and the length stays the same; lines with the id take the service's name, price and multiplier; all other lines are unchanged |
| Quotations.ChooseService | src/pages/Quotations.tsx:39-53 | a catalogue id that is not found leaves the list unchanged; otherwise the first catalogue service with that id is assigned |
| Quotations.QuotationBuilder.UpdateService | src/pages/Quotations.tsx:39-53 | the list becomes the catalogue assignment of the old list, with the same length |
| Quotations.ReassignLastWins | src/pages/Quotations.tsx:43-52 | assigning two services to the same line in turn is the same as assigning the second one |
| Quotations.AddThenAssign | src/pages/Quotations.tsx:25-52 | adding a fresh line and filling it leaves the earlier lines untouched, the new line keeps its id and carries the service's fields, and the total rises by price × effective multiplier |
| Types.EffectiveMultiplier | src/pages/Quotations.tsx:58 | a missing multiplier or a multiplier of 0 counts as 1; any other multiplier counts as itself |
| Quotations.EmittedItems | src/pages/Quotations.tsx:71-79 | with no base the emitted items are the services; with a base they are the base line followed by the services in order |
| Quotations.QuotationData | src/pages/Quotations.tsx:63-85 | the record has status draft, the emitted items, the typed unit number and change-order count, a change-order total of 10 per change order, and a total equal to the sum of its own lines plus the change-order total, which is also the screen's total; the chosen property's name and unit type's code, area, bedrooms and bathrooms, with '' and 0 when none is chosen; no payment status, payment date or notes |
| Quotations.TotalIsSumOfEmittedLines | src/pages/Quotations.tsx:55-61 | the screen's total (base price or 0, plus the services' price × effective multiplier, plus 10 per change order) equals the sum over the emitted lines plus 10 per change order |
| Quotations.WorkedExample | src/pages/Quotations.tsx:55-61 | base 500, services 100 at X2 and 50 with no multiplier, and 3 change orders give a total of 780 |
| Quotations.QuotationBuilder.Data | src/pages/Quotations.tsx:63-85 | the rendered record's total is the total the screen shows |
| Quotations.QuotationBuilder.SetChangeOrders | src/pages/Quotations.tsx:141 | the change-order count becomes parseInt of the typed text, or 0 when that is NaN |
| Quotations.NonNumericChangeOrdersAreZero | src/pages/Quotations.tsx:141 | typed text without any digit gives 0 change orders |
| Quotations.TypedChangeOrdersAreRead | src/pages/Quotations.tsx:141 | a typed decimal number n is read as n change orders and costs 10 × n |
| Strings.ParseIntReadsDecimal | src/pages/Quotations.tsx:141 | parseInt reads a decimal spelling back as its number when what follows it does not start with a digit |
| Strings.ParseIntReadsNegativeDecimal | src/pages/Quotations.tsx:141 | parseInt reads a minus sign followed by a decimal spelling as the negative number |
| Strings.ParseIntWithoutDigits | src/pages/Quotations.tsx:141 | parseInt of text with no digit is NaN |
| Lists.Filter | src/pages/Quotations.tsx:36 | the kept elements all satisfy the test and come from the input, and every input element that satisfies it is kept |
| Lists.Find | src/pages/Quotations.tsx:40 | the result is absent exactly when no element satisfies the test; otherwise it is the first element that does |
| Dashboard.Record | src/pages/Dashboard.tsx:59-63 | the in-place dictionary update (create a zero entry if missing, then count + 1 and revenue + amount) is the bump of the dictionary value |
| Dashboard.RecordServices | src/pages/Dashboard.tsx:66-74 | the inner loop over one project's items leaves the service dictionary equal to the tally of those items |
| Dashboard.ComputeStats | src/pages/Dashboard.tsx:39-86 | the loop's counters, dictionaries and average equal the statistics of the fetched projects, with none fetched counting as none |
| Dashboard.BumpEffect | src/pages/Dashboard.tsx:59-63 | a bump keeps the dictionary well formed (distinct keys, every count positive), keeps the existing keys in their order and puts a new key last, adds one and the amount under that key, and changes no other key |
| Dashboard.BumpSums | src/pages/Dashboard.tsx:59-63 | a bump raises the sum of all counts by one and the sum of all revenues by the amount |
| Dashboard.AccumulateTotals | src/pages/Dashboard.tsx:47-49 | totalProjects is the number of projects and totalRevenue the sum of their totals |
| Dashboard.AccumulatePaid | src/pages/Dashboard.tsx:51-53 | totalPaid is the sum of the totals of the projects whose payment status is paid |
| Dashboard.AccumulatePending | src/pages/Dashboard.tsx:51-55 | totalPending is the sum of the totals of all projects whose payment status is not paid |
| Dashboard.PaidPlusPendingIsRevenue | src/pages/Dashboard.tsx:51-55 | totalPaid + totalPending = totalRevenue |
| Dashboard.StatsTotals | src/pages/Dashboard.tsx:47-55 | for the fetched projects, the project count, the revenue as the sum of totals, and paid plus pending equal to revenue |
| Dashboard.PropertyStatsAt | src/pages/Dashboard.tsx:58-63 | the counter under a property name holds the number of projects filed under that name and the sum of their totals |
| Dashboard.PropertyStatsCounts | src/pages/Dashboard.tsx:58-63 | the property dictionary is well formed; under every name it holds the count and revenue of the projects filed there; a name is a key exactly when some project is filed under it, with a missing or empty name filed under 'Unknown' |
| Dashboard.PropertyStatsSums | src/pages/Dashboard.tsx:58-63 | the per-property counts add up to totalProjects and the revenues to totalRevenue |
| Dashboard.TallyServicesAt | src/pages/Dashboard.tsx:66-74 | tallying one project's items adds, under a name, the number of its service lines with that name and the sum of their price × effective multiplier |
| Dashboard.ServiceStatsAt | src/pages/Dashboard.tsx:66-74 | the counter under a service name holds the number of service lines of that name across all projects and their price × effective multiplier summed |
| Dashboard.ServiceStatsCounts | src/pages/Dashboard.tsx:66-74 | the service dictionary is well formed, counts only service lines, holds under each name their count and revenue, and has a name as a key exactly when such a line exists |
| Dashboard.StatsAverage | src/pages/Dashboard.tsx:84 | the average is 0 for no projects and otherwise revenue divided by the number of projects |
| Dashboard.CalculateStats | src/pages/Dashboard.tsx:16-33 | the unused calculateStats returns all zeros and empty dictionaries, which equals the fold over no projects |
| Dashboard.Entries | src/pages/Dashboard.tsx:273 | Object.entries lists the keys in the dictionary's key order, each with the counter stored under it; of a well-formed dictionary it names every key, and no key twice |
| Dashboard.InsertByCount | src/pages/Dashboard.tsx:274 | inserting an entry keeps every element and adds the one inserted |
| Dashboard.InsertByCountSorted | src/pages/Dashboard.tsx:274 | inserting an entry into a list sorted by non-increasing count keeps it sorted |
| Dashboard.SortByCount | src/pages/Dashboard.tsx:274 | the sort is a permutation of the entries in non-increasing count order |
| Dashboard.TopServicesSpec | src/pages/Dashboard.tsx:273-275 | the table has min(5, number of services) rows, in non-increasing count order, each one an entry of the dictionary, and no entry left out has a higher count than one shown |
| Dashboard.TopServicesDistinct | src/pages/Dashboard.tsx:273-275 | of a well-formed service dictionary, the top-five table never lists a service name twice |
| Dashboard.NoteAllSpec | src/pages/Dashboard.tsx:59-60 | noting names one by one keeps the keys distinct, leaves the earlier keys in place and adds exactly the names noted |
| Dashboard.PropertyKeyOrder | src/pages/Dashboard.tsx:57-63 | the property dictionary's keys, the rows of the property table, are the property names in the order of their first occurrence among the projects |
| Dashboard.TallyServicesKeys | src/pages/Dashboard.tsx:65-73 | one project's service lines add their names to the service dictionary's keys in order of first occurrence, after the keys already there |
| Dashboard.ServiceKeyOrder | src/pages/Dashboard.tsx:65-73 | the service dictionary's keys are the service-line names in the order of their first occurrence across all projects |
| Dashboard.PrefixOfSorted | src/pages/Dashboard.tsx:275 | a prefix of a sorted list is sorted, is a sub-multiset, and reaches every later entry's count |
| Dashboard.DraftsSpec | src/pages/Dashboard.tsx:139-141 | the drafts table lists exactly the draft projects in their original order; it is shown (line 110) exactly when that list is non-empty; nothing fetched lists nothing |
| Lists.Any | src/pages/Dashboard.tsx:110 | some is true exactly when an element satisfies the test |
| Lists.AnyIffFilterNonEmpty | src/pages/Dashboard.tsx:110 | some is true exactly when the filter is non-empty |
| Lists.FilterConcat | src/pages/Dashboard.tsx:139-141 | filtering distributes over concatenation |
| Lists.SumSplitsByFilter | src/pages/Dashboard.tsx:51-55 | a sum splits into the sums over the elements that pass a test and those that fail it |
| Payments.FilteredProjectsSpec | src/pages/Payments.tsx:16-23 | with no projects loaded, nothing is listed; a project is listed exactly when it was fetched, its status is not paid, and the lowered search occurs in its lowered unit number or, when it has a property, in the lowered property name |
| Payments.FilteredProjectsOrder | src/pages/Payments.tsx:18-22 | the listed projects keep their relative order |
| Payments.EmptySearchListsAllUnpaid | src/pages/Payments.tsx:18-22 | an empty search lists every project whose status is not paid |
| Payments.SearchIgnoresCase | src/pages/Payments.tsx:20-21 | a search and its lowered form list the same projects |
| Strings.Includes | src/pages/Payments.tsx:20 | includes is true exactly when the text occurs at some position |
| Payments.Prefill | src/pages/Payments.tsx:104-108 | with no items the prefill is 0; otherwise prefill plus the items' paid amounts (missing taken as 0) equals the total |
| Payments.PrefillWhenNothingPaid | src/pages/Payments.tsx:104-108 | when no item records a paid amount, the whole total is prefilled |
| Payments.PrefillAfterMoreItems | src/pages/Payments.tsx:104-108 | each further line's paid amount comes off the prefill |
| Payments.PaymentForm.Shown | src/pages/Payments.tsx:16-24 | the list shows exactly the fetched projects that are unpaid and match the current search, and nothing before the projects arrive |
| Payments.PaymentForm.ButtonEnabled | src/pages/Payments.tsx:205 | with a project selected, the register button is enabled exactly when the payment handler would pass its guard and nothing is being saved |
| Payments.PaymentForm.Select | src/pages/Payments.tsx:102-109 | picking a project selects it and prefills its outstanding amount |
| Payments.OrNull | src/pages/Payments.tsx:36-37 | an empty text is stored as null, and any other text as itself |
| Payments.InsertFor | src/pages/Payments.tsx:32-38 | the inserted row carries the project's id, the amount and the method, and the reference and notes are null exactly when they are empty |
| Payments.PaymentForm.constructor | src/pages/Payments.tsx:8-14 | the form starts with an empty search, no project, amount 0, method cash, empty reference and notes, and not saving |
| Payments.PaymentForm.HandlePayment | src/pages/Payments.tsx:25-57 | with no project or a zero amount nothing changes and nothing is sent; otherwise the row for the form is sent; on success the form resets to no project, amount 0, cash, and empty reference and notes; on failure it is kept; saving ends false either way; after a successful payment the button is disabled |
| Services.MultiplierRule | src/pages/Services.tsx:185 | 'X' followed by a decimal number n gives multiplier n; a label not starting with 'X' gives 1 |
| Strings.NumberOfDecimal | src/pages/Services.tsx:185 | Number reads a decimal spelling back as its number |
| Services.UnitOptionMultipliers | src/pages/Services.tsx:22 | among the unit options, 'X2', 'X3' and 'X4' give 2, 3 and 4, and 'Unidad', 'Metro' and 'Pie' give 1 |
| Services.WithUnit | src/pages/Services.tsx:182-186 | choosing a unit with no record open keeps none; otherwise only unit and multiplier change (id, name, price and category are kept), and the multiplier agrees with the unit's rule |
| Services.ServiceEditor.ChooseUnit | src/pages/Services.tsx:250-254 | the edit row's unit select applies the same rule as the create row's (lines 182-186) |
| Services.NewServiceDefaults | src/pages/Services.tsx:92-101 | a new record has id 'new', name '', price 0, the first category, unit 'Unidad' and multiplier 1, consistent with the unit rule |
| Services.ServiceEditor.StartCreating | src/pages/Services.tsx:92-102 | the creating flag is set and the defaults are opened for editing; the new-service button (disabled while creating) is then disabled |
| Services.ServiceEditor.constructor | src/pages/Services.tsx:17-19 | the editor starts with nothing open, not creating and not saving |
| Services.ServiceEditor.HandleEdit | src/pages/Services.tsx:24-26 | the chosen service is opened for editing |
| Services.ServiceEditor.HandleCancel | src/pages/Services.tsx:28-31 | nothing is open and nothing is being created; the new-service button is enabled again |
| Services.ServiceEditor.HandleSave | src/pages/Services.tsx:33-61 | with nothing open nothing happens; otherwise the update for the record's id is sent and, whatever the outcome, the editor ends closed and not saving, with the creating flag unchanged; the new-service button stays as it was |
| Services.ServiceEditor.HandleCreate | src/pages/Services.tsx:63-90 | with nothing open nothing happens; otherwise the insert is sent and, whatever the outcome, the editor ends closed, not creating and not saving; the new-service button is enabled again |
| Auth.AllowedEmails | src/components/AuthProvider.tsx:26 | a missing variable gives no addresses; otherwise the segments are comma-free and join back into the variable |
| Strings.SplitThenJoin | src/components/AuthProvider.tsx:26 | joining the segments of a split gives the text back |
| Strings.JoinThenSplit | src/components/AuthProvider.tsx:26 | splitting comma-free parts joined by commas gives the parts back |
| Auth.NoListRejectsEveryone | src/components/AuthProvider.tsx:26-27 | without the variable every session e-mail is rejected |
| Auth.CommaAddressRejected | src/components/AuthProvider.tsx:26-27 | an e-mail containing a comma is never admitted |
| Auth.ListAdmitsExactlyItsAddresses | src/components/AuthProvider.tsx:26-27 | a list of comma-free addresses joined by commas admits an e-mail (or '' when absent) exactly when it equals one of them |
| Auth.SingleAddressAdmitsOnlyItself | src/components/AuthProvider.tsx:26-27 | a single address admits exactly itself |
| Auth.NoTrimmingNoCaseFolding | src/components/AuthProvider.tsx:49-50 | a space after a comma is part of the next address, and upper and lower case differ |
| Auth.EmptySegmentAdmitsUserWithoutEmail | src/components/AuthProvider.tsx:26-27 | a user without an e-mail is admitted by an empty variable and by a trailing comma, and not by the variable `a@x.com` |
| Auth.Decide | src/components/AuthProvider.tsx:25-41 | no session means no session; a session is accepted exactly when its e-mail is admitted, and rejected exactly when it is not |
| Auth.AuthProvider.constructor | src/components/AuthProvider.tsx:17-18 | the provider starts with no user and loading; the children are not rendered |
| Auth.AuthProvider.OnInitialSession | src/components/AuthProvider.tsx:23-42 | a rejected session signs out and navigates to /login, leaving user and loading unchanged; an accepted one sets the user and clears loading; no session clears the user and loading and navigates to /login; the kept user is always admitted; afterwards the children are rendered (`!loading`) exactly when they were before or the session was not rejected |
| Auth.AuthProvider.OnAuthStateChange | src/components/AuthProvider.tsx:45-64 | the same three outcomes under the same rule as the initial check; afterwards the children are rendered (`!loading`) exactly when they were before or the session was not rejected |

## Left out

- Remote store calls (selects, inserts, updates), the channel they travel on, and the hooks
  that fetch data. A call is replaced by the request it would send and, where the outcome
  matters, a success flag.
- `window.location.reload`, `alert`, `console.log`/`console.error`, `navigate` and
  `signOut`. These are side effects; the gate returns sign-out and navigation as a list of
  effects.
- The form fields' plain setters. These are the quotation screen's property, unit, unit type,
  base and notes fields; the payment search, amount, method, reference and notes; and the
  service editor's name, price and category. Each replaces one field with the typed value. The
  payment amount's `Number()` conversion is not modelled.
- Floating point. Money is an integer and the average is an exact quotient. `Math.round`,
  `toLocaleString`, the percentage column and the display-only 80 % "paid" column are left out.
- Dashboard.TopServicesSpec: does not state that equal counts keep the dictionary's order. The
  sort is written to be stable, but only sortedness, membership and the top-five bound are proved.
- Dashboard.Record, Dashboard.RecordServices, Dashboard.Entries, Dashboard.PropertyStatsCounts
  and Dashboard.ServiceStatsCounts: both dictionaries (per property and per service) keep their
  keys in first-insertion order. JavaScript lists integer-like keys first, in numeric order, and
  keys such as "constructor" collide with the object prototype; neither is modelled, for
  property names or for service names.
- Strings.NumberOf and Strings.ParseInt: only the syntax the screens produce is modelled (leading
  tab, line feed, vertical tab, form feed, carriage return, space, U+00A0 and U+FEFF; an optional
  sign for parseInt; decimal digits). The other white space JavaScript skips (U+1680,
  U+2000-U+200A, U+202F, U+205F, U+3000, U+2028 and U+2029) is not, nor are fractions,
  exponents, hexadecimal and `Infinity`. `NaN` is `None`, which the store receives as null.
- Strings.Lower: only ASCII letters are lowered. Locale and Unicode case mapping are not modelled.
- Login, OAuth redirection, the ProtectedRoute spinner and redirect, the sidebar, routing and the
  PDF layout. These are presentation.
- The base and property editors. They are form CRUD, fully covered by the store calls above.
- `Date.now()` identifiers and `new Date()` dates. They are parameters of `AddService` and
  `Data`; the update timestamp is not part of the written columns.
- Payments.PaymentForm.HandlePayment, Services.ServiceEditor.HandleSave and
  Services.ServiceEditor.HandleCreate: each handler is one atomic step. While the store call is
  awaited the list and the inputs stay usable, so another event (selecting another project,
  editing a field) can change the state before the success reset or the failure path; that
  interleaving is not modelled.
- `window.location.reload()` after a successful payment, service update or service insert. It
  discards the screen's state and fetches it again; the model ends with the state the handler
  itself sets.
- The allow-list gate's unsubscription on unmount, and the ordering of the callbacks of
  concurrent sessions.
