# InvoiceApp — a verified model of its invoicing core

InvoiceApp is a single-page invoicing tool. Its data (products, clients,
invoices and the company profile) lives in the browser's `localStorage`. The
app is a set of React contexts and forms. Each context keeps a list in memory
and writes it through to storage on every change. This project models that
core in Dafny and proves what the code promises about it:

- `Types`: the records (`Product`, `Client`, `InvoiceItem`, `Invoice`,
  `CompanyInfo`), the four invoice statuses, and the "everything but `id`
  (and `createdAt`)" shapes that forms hand to the contexts.
- `Records`: the three list operations every context uses. These are finding
  the first record with an id, dropping all records with an id, and merging a
  patch into the records with an id.
- `Text`: the string helpers the code relies on. These are `toString`,
  `padStart(width, '0')`, `slice`, `trim`, the `\s` class, capitalising the
  first letter, and `parseFloat(value) || 0`.
- `Helpers`: the invoice calculator, the invoice-number generator and the
  empty item and invoice templates.
- `Storage`: the key/value store as a class whose map the save operations
  update. It also covers the demo-data seeding at start-up.
- `InvoiceContext`, `ClientContext`, `ProductContext`: the three providers.
  Each is a class whose list field and shared store change together.
- `InvoiceForm`, `ClientForm`, `ProductForm`: form state, change handlers,
  validation and submission.
- `InvoiceDetail`, `InvoicesList`: the status transitions each page offers,
  its labels and its delete dialog.
- `Lifecycle`: the status machine those pages make up together.
- `Dashboard`, `Sorting`: the statistics, the "recent" and "upcoming" lists,
  and the stable sort and `slice(0, 5)` behind the lists.

Money is modelled as exact `real`. Ids, timestamps, today's date, the default
due date and the random number that the code draws are passed in as
parameters.

## Model

| member | source | states |
|---|---|---|
| Options.Option.GetOr | project/src/components/invoices/InvoiceForm.tsx:66 | `invoice.notes or ''`: the value when present, otherwise the default |
| Types.StatusName | project/src/types/index.ts:41 | every status has a non-empty wire name |
| Types.ParseStatus | project/src/types/index.ts:41 | whenever a name parses, the status found prints back as that name |
| Types.StatusNameRoundTrip | project/src/types/index.ts:41 | parsing a status's name gives that status back |
| Types.NewInvoice | project/src/context/InvoiceContext.tsx:31-35 | the new invoice has the fresh id and timestamp, and its other fields are exactly the submitted data |
| Types.InvoiceSplitsIntoData | project/src/types/index.ts:27-43 | every invoice is its id and timestamp plus its data part |
| Types.NewClient | src/context/ClientContext.tsx:28-31 | the new client has the fresh id and carries every submitted field |
| Types.NewProduct | src/context/ProductContext.tsx:28-31 | the new product has the fresh id and carries every submitted field |
| Records.FindFirst | project/src/context/InvoiceContext.tsx:59-61 | `find`: None exactly when no record has the id; otherwise the first record with the id |
| Records.RemoveId | project/src/context/InvoiceContext.tsx:53-57 | `filter(x => x.id !== id)`: keeps exactly the records without the id, and none with it remains |
| Records.UpdateWhere | project/src/context/InvoiceContext.tsx:44-51 | `map`: same length; records with the id are merged, the others are unchanged |
| Records.RemoveIdConcat | project/src/context/InvoiceContext.tsx:54 | filtering distributes over concatenation |
| Records.RemoveAbsentId | src/context/ClientContext.tsx:47-51 | deleting an id that is not present leaves the list unchanged |
| Records.RemoveIdIdempotent | src/context/ProductContext.tsx:47-51 | deleting twice is deleting once |
| Records.RemoveIdKeepsOthers | project/src/context/InvoiceContext.tsx:54 | the surviving records keep their relative order |
| Records.FindFirstAt | project/src/context/InvoiceContext.tsx:60 | the record at the first index with the id is the one found |
| Records.UpdateAbsentId | project/src/context/InvoiceContext.tsx:45-47 | updating an id that is not present changes nothing |
| Records.FindAfterUpdate | project/src/context/InvoiceContext.tsx:44-61 | after an id-preserving update, looking the id up finds the merged first record |
| Records.RemoveAfterUpdate | project/src/context/InvoiceContext.tsx:44-57 | update then delete of the same id equals delete alone |
| Records.FindAppendedFresh | project/src/context/InvoiceContext.tsx:37-41 | a record appended under a fresh id is found by that id |
| Text.DigitRoundTrip | project/src/utils/helpers.ts:44-46 | a digit's character reads back as the digit |
| Text.NatToStringRoundTrip | project/src/utils/helpers.ts:44-46 | `n.toString()` is all digits and reads back as `n` |
| Text.NatToStringLength | project/src/utils/helpers.ts:45-46 | a number below 10^w has at most w digits |
| Text.ParseDigitsLeadingZeros | project/src/utils/helpers.ts:45-46 | leading `'0'` padding does not change the value read |
| Text.PadStart | project/src/utils/helpers.ts:45-46 | `padStart`: the input, filled on the left with the pad character up to the width |
| Text.SliceFrom | project/src/utils/helpers.ts:44 | `slice(k)`: the suffix from index k, or empty when past the end |
| Text.TrimStartKeeps | src/components/products/ProductForm.tsx:63 | `trimStart` removes only a whitespace prefix |
| Text.TrimEndKeeps | src/components/products/ProductForm.tsx:63 | `trimEnd` removes only a whitespace suffix |
| Text.IsWhitespace | project/src/components/clients/ClientForm.tsx:61 | the `\s` class and the `trim` set: space, tab and newline are whitespace; ASCII letters, digits, `@` and `.` are not |
| Text.Trim | project/src/components/clients/ClientForm.tsx:55-67 | `trim()`: a non-empty result neither starts nor ends with whitespace |
| Text.TrimEmptyIffBlank | project/src/components/clients/ClientForm.tsx:55-67 | `!s.trim()` holds exactly when every character is whitespace |
| Text.Capitalize | src/components/invoices/InvoicesList.tsx:81 | the first character is upper-cased (ASCII letters only); the rest is kept; length is kept |
| Text.NumberOrZero | project/src/components/invoices/InvoiceForm.tsx:106-108 | `parseFloat(v) or 0`: the number when it parses, otherwise 0 |
| Helpers.SumTotals | project/src/utils/helpers.ts:28 | the sum of the line totals: non-negative when every line total is, and the line total itself for one line |
| Helpers.CalculateInvoice | project/src/utils/helpers.ts:22-39 | subtotal is the sum of the line totals; tax and discount are that percentage of it; total = subtotal + tax − discount |
| Helpers.SumTotalsConcat | project/src/utils/helpers.ts:28 | the subtotal of a concatenation is the sum of the subtotals |
| Helpers.SubtotalOfConsistentLines | project/src/utils/helpers.ts:28 | when every line total is quantity × price, the subtotal is the sum of quantity × price |
| Helpers.SubtotalIgnoresQuantityAndPrice | project/src/utils/helpers.ts:28 | the calculator reads only the stored line totals |
| Helpers.SumTotalsSameTotals | project/src/utils/helpers.ts:28 | two item lists with the same line totals have the same subtotal |
| Helpers.SubtotalAppend | project/src/components/invoices/InvoiceForm.tsx:117-123 | appending a line adds exactly its total to the subtotal |
| Helpers.CalculateInvoiceEquations | project/src/utils/helpers.ts:29-31 | the tax and discount are the subtotal's percentages and the total is subtotal + tax − discount, for every item list and rate |
| Helpers.CalculateEmpty | project/src/utils/helpers.ts:22-39 | no items give all-zero totals at any rates |
| Helpers.CalculateDefaultRates | project/src/utils/helpers.ts:22 | with the default 0 % rates the total equals the subtotal |
| Helpers.CalculateBounds | project/src/utils/helpers.ts:29-31 | for a non-negative subtotal and rates in 0..100, tax and discount lie between 0 and the subtotal, and the total lies between 0 and twice the subtotal |
| Helpers.CalculateExample | project/src/utils/helpers.ts:22-39 | a worked example: one line of 2 × 100 at 10 % tax and 5 % discount gives 200, 20, 10 and 210 |
| Helpers.RandomSuffixValue | project/src/utils/helpers.ts:46 | `Math.floor(random * 1000)`: the integer part of random × 1000, below 1000 |
| Helpers.PaddedDigits | project/src/utils/helpers.ts:45-46 | a padded number has exactly the width, only digits, and reads back as the number |
| Helpers.YearPart | project/src/utils/helpers.ts:44 | the year field of a four-digit year is its last two digits |
| Helpers.AssembleNumber | project/src/utils/helpers.ts:48 | the template places `INV-`, year, month, `-` and suffix at fixed offsets |
| Helpers.InvoiceNumberFormat | project/src/utils/helpers.ts:42-49 | the invoice number is 12 characters `INV-YYMM-RRR`; its fields read back as year mod 100, the 1-based month and the random suffix |
| Helpers.GenerateInvoiceNumber | project/src/utils/helpers.ts:42-49 | `generateInvoiceNumber()`: starts with `INV-` and has at least nine characters for any clock and random input |
| Helpers.CreateEmptyInvoiceItem | project/src/utils/helpers.ts:85-93 | a new line has one unit, no description and a total equal to its price |
| Helpers.CreateEmptyInvoice | project/src/utils/helpers.ts:64-82 | a new invoice is a draft with no items, no client, zero amounts, and the given dates, number and id |
| Storage.ReadAbsent | src/utils/storage.ts:12-15 | missing keys read as empty lists and the default company |
| Storage.Seeded | src/utils/storage.ts:74-123 | after seeding both the product and the client lists are non-empty; invoices and company are untouched |
| Storage.SaveProductsThenRead | src/utils/storage.ts:12-19 | saved products read back; the other keys are undisturbed |
| Storage.SaveClientsThenRead | src/utils/storage.ts:27-34 | saved clients read back; the other keys are undisturbed |
| Storage.SaveInvoicesThenRead | src/utils/storage.ts:42-49 | saved invoices read back; the other keys are undisturbed |
| Storage.SaveCompanyThenRead | src/utils/storage.ts:57-71 | the saved company profile reads back; the collections are undisturbed |
| Storage.SeededContents | src/utils/storage.ts:74-123 | seeding writes the demo products and clients only where the list reads empty, and touches nothing else |
| Storage.SeededIdempotent | src/utils/storage.ts:74-123 | seeding twice is seeding once |
| Storage.EmptySavedListIsReseeded | src/utils/storage.ts:76-103 | a list that was saved empty is replaced by demo data on the next start-up |
| Storage.DemoDataWellFormed | src/utils/storage.ts:77-121 | the demo ids are distinct and the demo prices are positive |
| Storage.LocalStorage.constructor | src/utils/storage.ts:4-9 | a fresh store is empty |
| Storage.LocalStorage.GetProducts | src/utils/storage.ts:12-15 | the saved product list, or `[]` when the key was never written |
| Storage.LocalStorage.GetClients | src/utils/storage.ts:27-30 | the saved client list, or `[]` when the key was never written |
| Storage.LocalStorage.GetInvoices | src/utils/storage.ts:42-45 | the saved invoice list, or `[]` when the key was never written |
| Storage.LocalStorage.GetCompanyInfo | src/utils/storage.ts:57-67 | the saved profile, or the default company when the key was never written |
| Storage.LocalStorage.GetProductById | src/utils/storage.ts:21-24 | None exactly when no stored product has the id; otherwise the first stored product with it |
| Storage.LocalStorage.GetClientById | src/utils/storage.ts:36-39 | None exactly when no stored client has the id; otherwise the first stored client with it |
| Storage.LocalStorage.GetInvoiceById | src/utils/storage.ts:51-54 | None exactly when no stored invoice has the id; otherwise the first stored invoice with it |
| Storage.LocalStorage.SaveProducts | src/utils/storage.ts:17-19 | only the products key changes; they read back |
| Storage.LocalStorage.SaveClients | src/utils/storage.ts:32-34 | only the clients key changes; they read back |
| Storage.LocalStorage.SaveInvoices | src/utils/storage.ts:47-49 | only the invoices key changes; they read back |
| Storage.LocalStorage.SaveCompanyInfo | src/utils/storage.ts:69-71 | only the company key changes; it reads back |
| Storage.LocalStorage.InitializeData | src/utils/storage.ts:74-123 | the store becomes its seeded form |
| InvoiceContext.MergeEmpty | project/src/context/InvoiceContext.tsx:46 | an empty patch changes nothing |
| InvoiceContext.MergeStatus | project/src/context/InvoiceContext.tsx:46 | a status patch changes the status and nothing else |
| InvoiceContext.MergeEdit | src/pages/EditInvoice.tsx:33-36 | an edit patch gives back the original id and timestamp with the new data |
| InvoiceContext.RecalculateInvoice | project/src/context/InvoiceContext.tsx:63-65 | the provider's calculator is the helper's: the subtotal is the sum of the line totals, tax and discount are its percentages, and 100 × total = subtotal × (100 + tax − discount) |
| InvoiceContext.InvoiceStore.constructor | project/src/context/InvoiceContext.tsx:23 | the list starts empty |
| InvoiceContext.InvoiceStore.Load | project/src/context/InvoiceContext.tsx:25-28 | the list becomes the stored invoices; storage is untouched |
| InvoiceContext.InvoiceStore.GetInvoiceById | project/src/context/InvoiceContext.tsx:59-61 | the first invoice in the list with the id, or None when there is none |
| InvoiceContext.InvoiceStore.AddInvoice | project/src/context/InvoiceContext.tsx:30-42 | appends the new invoice, writes the list through and returns the new id |
| InvoiceContext.InvoiceStore.UpdateInvoice | project/src/context/InvoiceContext.tsx:44-51 | merges the patch into the invoices with the id and writes the list through |
| InvoiceContext.InvoiceStore.UpdateStatus | src/pages/ViewInvoice.tsx:38-39 | only the status of the invoices with the id changes |
| InvoiceContext.InvoiceStore.DeleteInvoice | project/src/context/InvoiceContext.tsx:53-57 | drops the invoices with the id and writes the list through |
| InvoiceContext.FindAfterStatusChange | src/pages/ViewInvoice.tsx:38-45 | after a status update, looking the invoice up again finds it with the new status |
| InvoiceContext.PayThenDelete | project/src/context/InvoiceContext.tsx:44-57 | a status change followed by a delete leaves the same list as the delete alone |
| ClientContext.MergeEdit | src/context/ClientContext.tsx:38-41 | a full edit patch keeps the id and sets every field |
| ClientContext.ClientStore.Load | src/context/ClientContext.tsx:19-25 | storage is seeded, then the list is the stored clients |
| ClientContext.ClientStore.GetClientById | src/context/ClientContext.tsx:53-55 | the first client with the id, or None when there is none |
| ClientContext.ClientStore.AddClient | src/context/ClientContext.tsx:27-36 | appends the new client and writes only the clients key |
| ClientContext.ClientStore.UpdateClient | src/context/ClientContext.tsx:38-45 | merges the patch into the clients with the id and writes only the clients key |
| ClientContext.ClientStore.DeleteClient | src/context/ClientContext.tsx:47-51 | drops the clients with the id and writes only the clients key |
| ProductContext.MergeEdit | src/context/ProductContext.tsx:38-41 | a full edit patch keeps the id and sets every field |
| ProductContext.ProductStore.Load | src/context/ProductContext.tsx:19-25 | storage is seeded, then the list is the stored products, which is never empty |
| ProductContext.ProductStore.GetProductById | src/context/ProductContext.tsx:53-55 | the first product with the id, or None when there is none |
| ProductContext.ProductStore.AddProduct | src/context/ProductContext.tsx:27-36 | appends the new product and writes only the products key |
| ProductContext.ProductStore.UpdateProduct | src/context/ProductContext.tsx:38-45 | merges the patch into the products with the id and writes only the products key |
| ProductContext.ProductStore.DeleteProduct | src/context/ProductContext.tsx:47-51 | drops the products with the id and writes only the products key |
| InvoiceForm.InitialData | project/src/components/invoices/InvoiceForm.tsx:30-44 | a blank draft dated today, with no items, no client and zero rates |
| InvoiceForm.PrefillData | project/src/components/invoices/InvoiceForm.tsx:52-80 | an edited invoice's data, with missing notes shown as empty |
| InvoiceForm.PrefillUpdate | project/src/components/invoices/InvoiceForm.tsx:52-80 | the prefill effect's value: the invoice's data, or the rendered data with the default due date |
| InvoiceForm.MountAsWritten | project/src/components/invoices/InvoiceForm.tsx:52-97 | as written, the form after both mount effects keeps the first render's items, client, number and due date, recalculated |
| InvoiceForm.EditMountLosesInvoice | project/src/components/invoices/InvoiceForm.tsx:91-96 | opening an invoice with a client for editing leaves the form with no client, unlike the intended mount |
| InvoiceForm.MountIntended | project/src/components/invoices/InvoiceForm.tsx:52-97 | with the updates applied one on top of the other, the form holds every field of the invoice, or the default due date, with up-to-date totals |
| InvoiceForm.WithTotals | project/src/components/invoices/InvoiceForm.tsx:83-97 | only the four amounts change, and they become the calculator's output |
| InvoiceForm.WithTotalsFresh | project/src/components/invoices/InvoiceForm.tsx:83-97 | recalculating data that is already up to date changes nothing |
| InvoiceForm.GeneralChange | project/src/components/invoices/InvoiceForm.tsx:99-115 | only the named field changes; rates read `parseFloat(v) or 0`; items, status and amounts are kept |
| InvoiceForm.ChangeItem | project/src/components/invoices/InvoiceForm.tsx:132-166 | a product pick copies that product's price and description, or keeps them for an unknown id; any quantity, price or product change keeps total = quantity × price |
| InvoiceForm.ApplyItemChange | project/src/components/invoices/InvoiceForm.tsx:132-166 | only the line with the id changes |
| InvoiceForm.ItemChangeKeepsLines | project/src/components/invoices/InvoiceForm.tsx:132-166 | item edits keep every line consistent |
| InvoiceForm.AddItemKeepsLines | project/src/components/invoices/InvoiceForm.tsx:117-123 | adding a blank line keeps the lines consistent and the totals unchanged |
| InvoiceForm.RemoveItemKeepsLines | project/src/components/invoices/InvoiceForm.tsx:125-130 | removing a line keeps the other lines consistent |
| InvoiceForm.Validation | project/src/components/invoices/InvoiceForm.tsx:168-181 | a client error exactly when no client is chosen; an items error exactly when there are no lines |
| InvoiceForm.Submission | project/src/components/invoices/InvoiceForm.tsx:183-192 | submits exactly when valid, with status draft or pending by the button, and otherwise the form's data |
| InvoiceForm.SubmittedInvoiceConsistent | project/src/components/invoices/InvoiceForm.tsx:183-192 | a submitted invoice has a client, at least one line and up-to-date totals |
| InvoiceForm.InvoiceFormState.constructor | project/src/components/invoices/InvoiceForm.tsx:30-49 | starts from the initial data with no errors |
| InvoiceForm.InvoiceFormState.RecalculateTotals | project/src/components/invoices/InvoiceForm.tsx:83-97 | the amounts become the calculator's output |
| InvoiceForm.InvoiceFormState.Prefill | project/src/components/invoices/InvoiceForm.tsx:52-80 | loads an existing invoice, or keeps the blank form with the default due date |
| InvoiceForm.InvoiceFormState.HandleGeneralChange | project/src/components/invoices/InvoiceForm.tsx:99-115 | applies the field change and keeps the totals up to date |
| InvoiceForm.InvoiceFormState.HandleAddItem | project/src/components/invoices/InvoiceForm.tsx:117-123 | appends a blank line |
| InvoiceForm.InvoiceFormState.HandleRemoveItem | project/src/components/invoices/InvoiceForm.tsx:125-130 | drops the line with the id |
| InvoiceForm.InvoiceFormState.HandleItemChange | project/src/components/invoices/InvoiceForm.tsx:132-166 | applies the item change and keeps the totals up to date |
| InvoiceForm.InvoiceFormState.Validate | project/src/components/invoices/InvoiceForm.tsx:168-181 | stores the errors; returns true exactly when there are none |
| InvoiceForm.InvoiceFormState.HandleSubmit | project/src/components/invoices/InvoiceForm.tsx:183-192 | returns what the submission gives for the current form |
| InvoiceDetail.HeaderTargets | project/src/components/invoices/InvoiceDetail.tsx:118-138 | the header offers Mark as Pending on a draft, Mark as Paid on a pending invoice, nothing otherwise |
| InvoiceDetail.ActionTargets | project/src/components/invoices/InvoiceDetail.tsx:247-279 | the status card offers pending on a draft, paid or overdue on a pending invoice, nothing otherwise |
| InvoiceDetail.DetailTargets | project/src/components/invoices/InvoiceDetail.tsx:118-279 | the view offers a status exactly when the header or the status card does |
| InvoiceDetail.HeaderWithinActions | project/src/components/invoices/InvoiceDetail.tsx:118-138 | every header button is also offered on the status card |
| InvoiceDetail.GetStatusText | project/src/components/invoices/InvoiceDetail.tsx:58-66 | the label is the capitalised status name, with " Payment" added for pending |
| InvoiceDetail.StatusTextDistinct | project/src/components/invoices/InvoiceDetail.tsx:58-66 | the four status labels differ |
| InvoiceDetail.GetProductName | project/src/components/invoices/InvoiceDetail.tsx:83-86 | the name of the first product with the id, or "Unknown Product" exactly when the id is unknown |
| InvoiceDetail.InvoiceDetailView.constructor | project/src/components/invoices/InvoiceDetail.tsx:28 | the delete dialog starts closed |
| InvoiceDetail.InvoiceDetailView.RequestStatus | project/src/components/invoices/InvoiceDetail.tsx:118-138 | asks for a status change exactly when that button is shown |
| InvoiceDetail.InvoiceDetailView.OpenDeleteModal | project/src/components/invoices/InvoiceDetail.tsx:281-289 | opens the dialog |
| InvoiceDetail.InvoiceDetailView.CancelDelete | project/src/components/invoices/InvoiceDetail.tsx:377-379 | closes the dialog |
| InvoiceDetail.InvoiceDetailView.ConfirmDelete | project/src/components/invoices/InvoiceDetail.tsx:380-386 | deletes this invoice only from the open dialog, and closes it |
| InvoicesList.GetClientName | src/components/invoices/InvoicesList.tsx:51-54 | the name of the first client with the id, or "Unknown Client" exactly when the id is unknown |
| InvoicesList.ListTargets | src/components/invoices/InvoicesList.tsx:179-215 | the row menu offers pending or overdue on a draft, paid or overdue on a pending invoice, nothing otherwise |
| InvoicesList.BadgeLabel | src/components/invoices/InvoicesList.tsx:81 | the badge is the status name with its first letter upper-cased, same length |
| InvoicesList.BadgeLabels | src/components/invoices/InvoicesList.tsx:81 | the badges read Draft, Pending, Paid and Overdue |
| InvoicesList.InvoicesListView.constructor | src/components/invoices/InvoicesList.tsx:28-29 | no dialog and no selection |
| InvoicesList.InvoicesListView.RequestStatus | src/components/invoices/InvoicesList.tsx:179-215 | asks for a status change exactly when that menu entry is shown |
| InvoicesList.InvoicesListView.HandleDeleteClick | src/components/invoices/InvoicesList.tsx:31-34 | selects the invoice and opens the dialog |
| InvoicesList.InvoicesListView.CloseModal | src/components/invoices/InvoicesList.tsx:242-244 | closes the dialog and keeps the selection |
| InvoicesList.InvoicesListView.HandleDeleteInvoice | src/components/invoices/InvoicesList.tsx:36-41 | deletes the selected invoice and closes the dialog; with nothing selected it does nothing |
| Lifecycle.Moves | src/components/invoices/InvoicesList.tsx:179-215 | draft can move to pending or overdue, pending to paid or overdue, and paid and overdue nowhere |
| Lifecycle.ListOffersEveryMove | src/components/invoices/InvoicesList.tsx:179-215 | the list offers every move the detail page offers |
| Lifecycle.Rank | project/src/types/index.ts:41 | draft < pending < paid/overdue; paid and overdue are the final rank |
| Lifecycle.OfferedMovesForward | project/src/components/invoices/InvoiceDetail.tsx:247-279 | every offered move raises the rank |
| Lifecycle.FinalIffNoMoves | project/src/components/invoices/InvoiceDetail.tsx:247-279 | a status has no offered move exactly when it is paid or overdue |
| Lifecycle.PathClimbs | src/components/invoices/InvoicesList.tsx:179-215 | along any sequence of offered moves the rank strictly increases |
| Lifecycle.PathsAreShort | src/components/invoices/InvoicesList.tsx:179-215 | a sequence of offered moves visits at most three statuses |
| Lifecycle.FinalStatusesReachable | project/src/components/invoices/InvoiceDetail.tsx:247-279 | a draft can reach both paid and overdue |
| Lifecycle.EditReopensFinalInvoice | src/pages/EditInvoice.tsx:33-36 | saving an edit of a paid or overdue invoice sets it back to pending or draft, a move no button offers |
| ClientForm.MatchesEmailPattern | project/src/components/clients/ClientForm.tsx:61 | the pattern read literally: a match has at least five characters and neither begins nor ends with `@` |
| ClientForm.IsValidEmail | project/src/components/clients/ClientForm.tsx:61 | the executable check: an accepted address has at least five characters, does not begin with `@` and holds no whitespace |
| ClientForm.EmailCheckMatchesPattern | project/src/components/clients/ClientForm.tsx:61 | the executable check agrees with `/^[^\s@]+@[^\s@]+\.[^\s@]+$/` in both directions |
| ClientForm.MatchingEmailNotBlank | project/src/components/clients/ClientForm.tsx:59-63 | an address that matches the pattern is not blank |
| ClientForm.ShortAddressMatches | project/src/components/clients/ClientForm.tsx:61 | "a@b.co" is accepted |
| ClientForm.NoAtFails | project/src/components/clients/ClientForm.tsx:61 | "not-an-email" is refused |
| ClientForm.LeadingSpaceFails | project/src/components/clients/ClientForm.tsx:61 | " a@b.co" is refused |
| ClientForm.Validation | project/src/components/clients/ClientForm.tsx:52-71 | name and address errors exactly when blank; "required" exactly when the email is blank; "invalid" exactly when non-blank and not matching |
| ClientForm.ValidIff | project/src/components/clients/ClientForm.tsx:52-71 | the form is valid exactly when name and address are non-blank and the email matches |
| ClientForm.PrefillData | project/src/components/clients/ClientForm.tsx:32-42 | copies the client with missing phone and company shown as empty |
| ClientForm.Change | project/src/components/clients/ClientForm.tsx:44-50 | sets the named field to the typed value and nothing else |
| ClientForm.ClientFormState.constructor | project/src/components/clients/ClientForm.tsx:17-29 | all fields empty and no errors |
| ClientForm.ClientFormState.Prefill | project/src/components/clients/ClientForm.tsx:32-42 | loads the client when one is given |
| ClientForm.ClientFormState.HandleChange | project/src/components/clients/ClientForm.tsx:44-50 | applies the field change |
| ClientForm.ClientFormState.Validate | project/src/components/clients/ClientForm.tsx:52-71 | stores the errors; returns true exactly when there are none |
| ClientForm.ClientFormState.HandleSubmit | project/src/components/clients/ClientForm.tsx:73-79 | hands back the data exactly when valid |
| ProductForm.Validation | src/components/products/ProductForm.tsx:60-73 | a name error exactly when the name is blank; a price error exactly when the price is not positive |
| ProductForm.Change | src/components/products/ProductForm.tsx:41-58 | sets only the named field; the price reads `parseFloat(v) or 0` |
| ProductForm.UnparsablePriceRefused | src/components/products/ProductForm.tsx:41-73 | an unparsable price becomes 0 and fails validation |
| ProductForm.PriceExamples | src/components/products/ProductForm.tsx:68-70 | price 0 is refused and price 50 is accepted |
| ProductForm.PrefillData | src/components/products/ProductForm.tsx:29-39 | copies the product with missing description and unit shown as empty |
| ProductForm.ProductFormState.constructor | src/components/products/ProductForm.tsx:17-27 | empty name, zero price and no errors |
| ProductForm.ProductFormState.Prefill | src/components/products/ProductForm.tsx:29-39 | loads the product when one is given |
| ProductForm.ProductFormState.HandleChange | src/components/products/ProductForm.tsx:41-58 | applies the field change |
| ProductForm.ProductFormState.Validate | src/components/products/ProductForm.tsx:60-73 | stores the errors; returns true exactly when there are none |
| ProductForm.ProductFormState.HandleSubmit | src/components/products/ProductForm.tsx:75-81 | hands back the data exactly when valid |
| Sorting.Insert | project/src/pages/Dashboard.tsx:59 | inserting into a sorted list keeps it sorted and adds exactly the element |
| Sorting.SortBy | project/src/pages/Dashboard.tsx:58-60 | the result is sorted by the key and is a permutation of the input |
| Sorting.Take | project/src/pages/Dashboard.tsx:60 | `slice(0, n)`: the first min(n, length) elements |
| Sorting.TakeSmallest | project/src/pages/Dashboard.tsx:63-66 | the first n of a sorted list are no larger than any element left out |
| Sorting.TakeSorted | project/src/pages/Dashboard.tsx:58-60 | a prefix of a sorted list is sorted |
| Sorting.TakeFromSource | project/src/pages/Dashboard.tsx:58-60 | a prefix of a sorted permutation is drawn from the input |
| Dashboard.WithStatus | project/src/pages/Dashboard.tsx:34-36 | the filter keeps only invoices of the status, drawn from the input |
| Dashboard.WithStatusComplete | project/src/pages/Dashboard.tsx:34-36 | every invoice of the status is kept |
| Dashboard.SumOfTotals | project/src/pages/Dashboard.tsx:38-42 | `reduce((sum, inv) => sum + inv.total, 0)`: non-negative when every total is, and the total itself for one invoice |
| Dashboard.Average | project/src/pages/Dashboard.tsx:41-42 | the mean: times a positive count it gives the total back; 0 for no invoices |
| Dashboard.AverageOfTotals | project/src/pages/Dashboard.tsx:41-42 | the average invoice times the number of invoices is the grand total |
| Dashboard.ComputeStats | project/src/pages/Dashboard.tsx:34-53 | the paid, pending and overdue sums over exactly those invoices, the paid count, the invoice count, the given client and product counts, and the mean of the totals |
| Dashboard.RefreshStats | project/src/pages/Dashboard.tsx:31-55 | with no invoices the previous figures stay; otherwise the computed ones |
| Dashboard.FreshInstallReportsNoClients | project/src/pages/Dashboard.tsx:33 | before any invoice exists the dashboard reports 0 clients and 0 products although demo data is loaded |
| Dashboard.IntendedStats | project/src/pages/Dashboard.tsx:31-55 | the client and product counts are always the current ones |
| Dashboard.StatusesPartition | project/src/pages/Dashboard.tsx:38-42 | paid + pending + overdue + draft totals add up to the grand total |
| Dashboard.StatusCountsPartition | project/src/pages/Dashboard.tsx:34-36 | the four status counts add up to the invoice count |
| Dashboard.DraftsCountNowhere | project/src/pages/Dashboard.tsx:38-40 | adding a draft changes none of the paid, pending and overdue selections |
| Dashboard.RecentInvoices | project/src/pages/Dashboard.tsx:58-60 | at most five invoices, newest first, drawn from the input |
| Dashboard.RecentAreNewest | project/src/pages/Dashboard.tsx:58-60 | no invoice left out is newer than one shown |
| Dashboard.UpcomingInvoices | project/src/pages/Dashboard.tsx:63-66 | at most five pending invoices, earliest due first; with five or fewer pending, all of them |
| Dashboard.UpcomingAreDueFirst | project/src/pages/Dashboard.tsx:63-66 | no pending invoice left out is due earlier than one shown |
| Dashboard.DashboardView.constructor | project/src/pages/Dashboard.tsx:20-29 | all figures start at 0 |
| Dashboard.DashboardView.Refresh | project/src/pages/Dashboard.tsx:31-55 | the figures become the refresh of the previous ones |

## Left out

- Currency and date formatting (`formatCurrency`, `formatDate`) and `daysUntilDue`: they are display-only, built on `Intl` and `Date`.
- `getDueDate` (30 days after issue): date arithmetic is not modelled; the default due date is a parameter.
- `generateId` (nanoid), `Math.random`, `new Date()` and `toISOString`: they are sources of randomness and time, and become parameters.
- IEEE-754 arithmetic and the grammar of `parseFloat`: money is exact `real`. A field's parse result is an input (`Option<real>`), so `NaN` appears only as the `|| 0` fallback.
- Helpers.CalculateInvoice: does not model floating-point rounding of the sums and percentages.
- JSON serialisation and `JSON.parse` failures of `localStorage`: the store holds typed values per key.
- The provider hooks throwing outside their provider, routing and navigation, the PDF generator, `mailto:` links, the sidebar, header and settings pages, and every piece of styling (`getStatusIcon`, badge colours).
- React's rendering and effect scheduling. Handlers and effects run one after another. The one exception is the invoice form's pair of mount effects, listed under Findings.
- Text.Capitalize: `toUpperCase` is modelled for the ASCII letters a to z only; every other character is kept. The four status names it is applied to are ASCII.
- InvoiceDetail.GetStatusText: the `|| status` fallback is unreachable for the four statuses, so it is not modelled.
- Dashboard.RecentInvoices and Dashboard.UpcomingInvoices: `new Date(s).getTime()` is a parameter `timeOf: string -> int`, so invalid dates (`NaN` in the comparator) are not modelled.
- Sorting.SortBy: stability is by construction (an insertion sort) rather than stated as a lemma.
- InvoiceContext.Merge, ClientContext.Merge, ProductContext.Merge: a patch can set an optional field but cannot clear it to `undefined`.
- The products and clients list pages beyond the context calls they make.

## Findings

| source | as written | input that shows it | evidently intended | confidence | as-written member | corrected member |
|---|---|---|---|---|---|---|
| project/src/pages/Dashboard.tsx:33 | all statistics, including the client and product counts, are recomputed only while at least one invoice exists | a fresh install with no invoices and the 2 demo clients and 3 demo products shows 0 clients and 0 products | the counts reflect the current clients and products whatever the number of invoices | medium, not executed | Dashboard.FreshInstallReportsNoClients | Dashboard.IntendedStats |
| project/src/components/invoices/InvoiceForm.tsx:91-96 | on mount, the recalculation effect calls `setFormData({ ...formData, ... })` with the first render's blank `formData`; this replaces the prefill effect's update from the same commit, and later renders do not re-run either effect | opening the edit page for an invoice of client `client-1` with one item leaves the form with client `''` and no items | the totals are recomputed on top of the prefilled data (a functional update such as `setFormData(prev => ...)`) | low, not executed; it assumes React applies both mount effects' updates in one batch | InvoiceForm.EditMountLosesInvoice | InvoiceForm.MountIntended |
