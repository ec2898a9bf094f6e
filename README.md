# Orça Eletricista Pro — a verified model of the quoting core

Orça Eletricista Pro is a single-page application that electricians use to quote jobs. The user:

1. picks services from a fixed price catalogue;
2. adds materials, either from a stock table or typed in;
3. sets a travel fee;
4. saves the quote.

Saved quotes are then listed, searched, given a status, shared as text, and rendered into an A4 PDF.

This project models that core in Dafny:

- **Pricing.** There are five places that compute a quote total. The model states how they relate to one reference total.
- **Line items.** The form's add, remove and update operations on the lines of a quote, its three-step wizard and its save rule.
- **The collection.** The application's add, delete and status update over the saved quotes, its navigation and its choice of screen.
- **Searches and counts.** The searches of the form, the list and the catalogue, and the per-category counts of the catalogue.
- **The preview and download state of the list.** The blob URLs it creates and revokes.
- **The PDF layout.** The vertical-cursor decisions: page breaks, conditional sections and rows, observation wrapping, page footers and the file name.
- **The constant tables.** The 41-row service catalogue and the 21-row stock table, with their invariants proved.

Money is `real`. Service quantities are integers (the form parses them with `parseInt`). Material quantities are reals.

Each total the program computes by `reduce` is modelled as that left fold (`Pricing.Reduce`). It is then proved equal to an independently defined sum (`Pricing.Sum`).

One module per source file:

| module | source |
|---|---|
| `Types` | `types.ts` |
| `ServicesData` | `data/services.ts` |
| `MaterialsData` | `data/materials.ts` |
| `QuoteForm` | `components/QuoteForm.tsx` |
| `QuoteList` | `components/QuoteList.tsx` |
| `Catalog` | `components/Catalog.tsx` |
| `PdfGenerator` | `utils/pdfGenerator.ts` |
| `Dashboard` | `components/Dashboard.tsx` |
| `App` | `App.tsx` |
| `ShareModal` | `components/ShareModal.tsx` |

Three modules serve the rest:

- `Seqs`: filter, count, map and subsequence.
- `Text`: case mapping, `includes`, `split`, the global `replace` calls and decimal digits.
- `Pricing`: line totals, the fold, the reference total and its lemmas.

State the program changes in place becomes a class:

- `QuoteForm.QuoteFormState`: the form's `useState` fields.
- `QuoteList.QuoteListState`: the list's modal and download state.
- `PdfGenerator.Doc`: the jsPDF document.
- `App.AppController`: the application state.
- `ShareModal.ShareModalState`: the `copied` flag.

Each method of those classes states its new state in terms of a pure function of the old one, and the lemmas are about those functions.

**The totals disagree.** One would expect every screen to show the same total. The code does not:

- the form, the list and the PDF add the travel fee;
- the dashboard and the share dialog leave it out.

The model follows the code. It proves that the dashboard's and the dialog's figures are exactly the travel fee below the others: `ShareModal.TotalsDifferByTravelFee` and `Dashboard.TotalValueExcludesTravelFees`.

**Catalogue counts.** The catalogue keys its count dictionary by category label. The model keys it by category, which is equivalent because the labels are pairwise distinct (`Types.CategoryLabelsDistinct`).

## Model

| member | source | states |
|---|---|---|
| Types.CategoryIndex | types.ts:2-11 | every category has a position in the enumeration of the eight categories |
| Types.AllCategoriesEnumerates | types.ts:2-11 | there are exactly eight categories, each listed once |
| Types.CategoryLabelsDistinct | types.ts:2-11 | two categories have the same label only if they are the same category |
| Types.TabIdsDistinct | types.ts:62 | the four tab ids are pairwise distinct |
| Seqs.FilterKeepsAll | App.tsx:37 | a filter returns its input exactly when every element passes |
| Seqs.CountComplement | App.tsx:37 | the elements a filter drops are exactly those the complementary predicate counts |
| Text.ContainsIffOccurs | components/QuoteList.tsx:24-25 | `includes` holds exactly when the term occurs at some index |
| Text.JoinSplit | utils/pdfGenerator.ts:177 | joining the pieces of `split('\n')` with the separator gives back the text |
| Text.SplitAround | utils/pdfGenerator.ts:177 | splitting `a + '\n' + b` splits `a` and `b` independently |
| Text.SplitWithoutSeparator | utils/pdfGenerator.ts:177 | a text without a line break is one piece |
| Text.NoEscapedNewlineLeft | components/ShareModal.tsx:39 | after replacing every `%0A` by a line break no `%0A` is left |
| Text.ReplaceAround | components/ShareModal.tsx:33 | replacing `%0A` in `a + "%0A" + b` gives the two sides replaced on their own around one line break |
| Text.RemoveAllKeepsRest | components/ShareModal.tsx:33 | removing a character keeps every other character, in order, and drops exactly as many characters as it occurs |
| Text.RemoveAllAppend | components/ShareModal.tsx:33 | removing a character from two joined texts removes it from each |
| Text.RemoveDropsOne | components/ShareModal.tsx:33 | an occurrence of the removed character leaves nothing behind |
| Text.ReplaceWhitespaceRunAround | utils/pdfGenerator.ts:237 | a whitespace run between visible characters becomes one replacement text, the two sides replaced on their own |
| Text.NoWhitespaceLeft | utils/pdfGenerator.ts:237 | replacing whitespace runs by a non-blank text leaves no whitespace |
| Text.NoWhitespaceUnchanged | utils/pdfGenerator.ts:237 | a text without whitespace is left as it is |
| Text.ToUpper | utils/pdfGenerator.ts:35 | the id is upper-cased character by character, keeping its length |
| Text.NatToString | utils/pdfGenerator.ts:233 | the page number is written with at least one decimal digit and digits only |
| Text.NatToStringValue | utils/pdfGenerator.ts:233 | reading back the digits written for a page number gives that number |
| Pricing.ReduceIsSum | components/QuoteList.tsx:29-30 | the left fold the program runs equals the start value plus the reference sum |
| Pricing.SumUpdate | components/QuoteForm.tsx:50-56 | replacing one line changes a subtotal by exactly the difference of the two line totals |
| Pricing.SumFilterSplit | components/QuoteForm.tsx:46-48 | splitting the lines by a predicate and its complement splits the subtotal |
| Pricing.SumNonNegative | components/QuoteList.tsx:29-30 | lines with non-negative totals give a non-negative subtotal |
| Pricing.EmptyQuoteTotal | components/QuoteForm.tsx:89-93 | a quote without lines totals travel fee minus discount |
| Pricing.TotalMonotoneInServicePrice | components/QuoteForm.tsx:54-56 | raising a service price at a non-negative quantity never lowers the total |
| Pricing.TotalMonotoneInServiceQuantity | components/QuoteForm.tsx:50-52 | raising a service quantity at a non-negative price never lowers the total |
| Pricing.TotalMonotoneInMaterialPrice | components/QuoteForm.tsx:81-83 | raising a material price at a non-negative quantity never lowers the total |
| Pricing.TotalMonotoneInMaterialQuantity | components/QuoteForm.tsx:81-83 | raising a material quantity at a non-negative price never lowers the total |
| Pricing.WorkedExample | components/QuoteForm.tsx:89-93 | 2 × 55 of labour, 3 × 2.50 of material, 20 travel and 10 discount make 127.50 |
| ServicesData.IdLetterInjective | data/services.ts:5-60 | different categories have different id letters |
| ServicesData.ServicesWellFormed | data/services.ts:4-61 | the catalogue has 41 rows, each with a valid band, an id letter naming its category and a distinct id |
| ServicesData.ServicesGrouped | data/services.ts:4-61 | the rows come category by category, in the order the categories are enumerated |
| ServicesData.ServicePriceBands | data/services.ts:6-60 | every row has 0 < min ≤ avg ≤ max and avg is the midpoint of min and max |
| ServicesData.ServiceIdsDistinct | data/services.ts:6-60 | two rows share an id exactly when they are the same row |
| ServicesData.IdLetterNamesCategory | data/services.ts:6-60 | the first letter of each id (i, p, q, c, s, e, v, a) names its category: two rows share it exactly when they share the category |
| ServicesData.FirstOfCategory | data/services.ts:5-60 | every category has a row: the returned one has the category and the row before it does not |
| ServicesData.FirstOfCategoryIsFirst | data/services.ts:5-60 | no row before that one has the category, so it is the category's first row |
| MaterialsData.MaterialsSound | data/materials.ts:4-26 | the stock table has 21 rows, with non-empty descriptions, units m, un or rolo, positive prices and distinct ids |
| QuoteForm.AppendService | components/QuoteForm.tsx:35-44 | one line is appended at the end with quantity 1, the row's average price, its id and description; earlier lines are unchanged |
| QuoteForm.AppendServiceSubtotal | components/QuoteForm.tsx:35-44 | adding a service raises the services subtotal by its average price |
| QuoteForm.AppendServiceKeepsIdsUnique | components/QuoteForm.tsx:35-44 | a fresh id keeps line ids unique |
| QuoteForm.DropService | components/QuoteForm.tsx:46-48 | every line with the id goes and every other stays; the length drops by the number of lines carrying the id |
| QuoteForm.DropServiceKeepsOrder | components/QuoteForm.tsx:46-48 | the kept lines stay in order, and the subtotal drops by exactly the removed lines' share |
| QuoteForm.DropAbsentService | components/QuoteForm.tsx:46-48 | removing an id no line carries changes nothing |
| QuoteForm.SetServiceQty | components/QuoteForm.tsx:50-52 | lines with the id get quantity max(1, qty); all other lines are unchanged, length and order kept |
| QuoteForm.SetServiceQtyClamps | components/QuoteForm.tsx:50-52 | quantities stay at least 1, and repeating the update changes nothing more |
| QuoteForm.SetServicePrice | components/QuoteForm.tsx:54-56 | lines with the id get the new price and nothing else changes |
| QuoteForm.SetServicePriceKeepsLines | components/QuoteForm.tsx:54-56 | a price edit keeps the quantities at least 1 and the ids in place |
| QuoteForm.AppendBlankMaterial | components/QuoteForm.tsx:58-67 | a blank line (empty description, 1 "un" at 0) is appended at the end |
| QuoteForm.AppendStockMaterial | components/QuoteForm.tsx:69-79 | a line copying the stock row's description, unit and price at quantity 1 is appended |
| QuoteForm.AppendMaterialSubtotal | components/QuoteForm.tsx:58-79 | a blank line adds nothing to the materials subtotal; a stock line adds its price |
| QuoteForm.EditMaterial | components/QuoteForm.tsx:81-83 | lines with the id get the edited field; all other lines are unchanged |
| QuoteForm.EditChangesOneField | components/QuoteForm.tsx:81-83 | an edit changes the named field only |
| QuoteForm.EditMaterialIdempotent | components/QuoteForm.tsx:81-83 | repeating an edit changes nothing more |
| QuoteForm.DropMaterial | components/QuoteForm.tsx:85-87 | every line with the id goes and every other stays |
| QuoteForm.DropMaterialKeepsOrder | components/QuoteForm.tsx:85-87 | the kept lines stay in order |
| QuoteForm.FilteredServices | components/QuoteForm.tsx:26-29 | exactly the catalogue rows whose description or category label contains the term, case-insensitively |
| QuoteForm.EmptySearchListsAllServices | components/QuoteForm.tsx:26-29 | an empty search lists the whole catalogue |
| QuoteForm.FilteredMaterials | components/QuoteForm.tsx:31-33 | exactly the stock rows whose description contains the term, case-insensitively |
| QuoteForm.StockUnitsOffered | components/QuoteForm.tsx:345-351 | every unit of the stock table is in the unit drop-down |
| QuoteForm.FooterButtonsByStep | components/QuoteForm.tsx:433-457 | "Anterior" except on step 1, "Continuar" except on step 3, save only on step 3 |
| QuoteForm.QuoteFormState.constructor | components/QuoteForm.tsx:14-23 | the form starts on step 1 with everything empty and zero |
| QuoteForm.QuoteFormState.CalculateTotal | components/QuoteForm.tsx:89-93 | the form's folds compute the reference total, travel fee included |
| QuoteForm.QuoteFormState.Next | components/QuoteForm.tsx:443-449 | "Continuar" moves one step on, staying within 1 to 3 |
| QuoteForm.QuoteFormState.Previous | components/QuoteForm.tsx:434-440 | "Anterior" moves one step back, staying within 1 to 3 |
| QuoteForm.QuoteFormState.SetClientName | components/QuoteForm.tsx:142 | the name input sets the client name |
| QuoteForm.QuoteFormState.SetClientPhone | components/QuoteForm.tsx:152 | the phone input sets the client phone |
| QuoteForm.QuoteFormState.SetAddress | components/QuoteForm.tsx:162 | the address input sets the address |
| QuoteForm.QuoteFormState.SetTravelFee | components/QuoteForm.tsx:175 | the fee input sets the travel fee, 0 when unparsable |
| QuoteForm.QuoteFormState.SetSearchTerm | components/QuoteForm.tsx:198 | the service search input sets its term |
| QuoteForm.QuoteFormState.SetMaterialSearchTerm | components/QuoteForm.tsx:279 | the material search input sets its term |
| QuoteForm.QuoteFormState.SetObservations | components/QuoteForm.tsx:400 | the observations input sets the observations |
| QuoteForm.QuoteFormState.SetValidUntil | components/QuoteForm.tsx:415 | the validity input sets the validity date |
| QuoteForm.QuoteFormState.AddService | components/QuoteForm.tsx:35-44 | the service lines become `AppendService` of the old ones, and the displayed total rises by the average price |
| QuoteForm.QuoteFormState.RemoveService | components/QuoteForm.tsx:46-48 | the service lines become `DropService` of the old ones |
| QuoteForm.QuoteFormState.UpdateServiceQty | components/QuoteForm.tsx:50-52 | the service lines become `SetServiceQty` of the old ones |
| QuoteForm.QuoteFormState.UpdateServicePrice | components/QuoteForm.tsx:54-56 | the service lines become `SetServicePrice` of the old ones |
| QuoteForm.QuoteFormState.AddMaterialManually | components/QuoteForm.tsx:58-67 | the material lines become `AppendBlankMaterial` of the old ones |
| QuoteForm.QuoteFormState.AddMaterialFromDB | components/QuoteForm.tsx:69-79 | the material lines become `AppendStockMaterial` of the old ones and the material search is cleared |
| QuoteForm.QuoteFormState.UpdateMaterial | components/QuoteForm.tsx:81-83 | the material lines become `EditMaterial` of the old ones |
| QuoteForm.QuoteFormState.RemoveMaterial | components/QuoteForm.tsx:85-87 | the material lines become `DropMaterial` of the old ones |
| QuoteForm.QuoteFormState.HandleSave | components/QuoteForm.tsx:95-115 | no quote without a client name; otherwise a pending quote with the form's data, `validUntil` absent exactly when its input is empty |
| QuoteForm.SavedQuoteMatchesForm | components/QuoteForm.tsx:21 | a saved quote has discount 0 (nothing sets it) and the total the form displayed |
| QuoteList.CalculateQuoteTotal | components/QuoteList.tsx:28-32 | the list's total is the reference total, travel fee included |
| QuoteList.ListTotalMatchesForm | components/QuoteList.tsx:28-32 | a saved quote shows in the list with the total the form displayed |
| QuoteList.Filtered | components/QuoteList.tsx:23-26 | a quote is listed exactly when its client name or address contains the filter, case-insensitively |
| QuoteList.FilteredKeepsOrder | components/QuoteList.tsx:23-26 | the listed quotes keep their order, and an empty filter lists all of them |
| QuoteList.StatusButtonsNeverComplete | components/QuoteList.tsx:126-146 | the row's buttons set pending, approved or cancelled, never completed |
| QuoteList.QuoteListState.constructor | components/QuoteList.tsx:17-21 | no filter, no selection, no URL, nothing generating |
| QuoteList.QuoteListState.SetFilter | components/QuoteList.tsx:83 | the search input sets the filter |
| QuoteList.QuoteListState.CleanupEffect | components/QuoteList.tsx:61-67 | a URL is revoked and cleared only when no quote is selected; otherwise nothing changes |
| QuoteList.QuoteListState.HandleOpenPreview | components/QuoteList.tsx:46-59 | the quote is selected and the URL cleared; a URL that comes back is kept; a failure deselects |
| QuoteList.QuoteListState.ClosePreview | components/QuoteList.tsx:61-67 | closing deselects, and the effect revokes the held URL, leaving none alive |
| QuoteList.QuoteListState.StartDownload | components/QuoteList.tsx:34-35 | the flag names the quote being generated |
| QuoteList.QuoteListState.FinishDownload | components/QuoteList.tsx:36-43 | the flag is cleared on success and on failure, and only a failure raises an alert |
| QuoteList.QuoteListState.OpenShare | components/QuoteList.tsx:151 | the share dialog opens on the quote |
| QuoteList.QuoteListState.CloseShare | components/QuoteList.tsx:209 | the share dialog closes |
| QuoteList.PreviewSession | components/QuoteList.tsx:46-67 | after any sequence of previews opened and closed, every blob URL has been revoked |
| Catalog.CategoryCounts | components/Catalog.tsx:15-21 | the count shown for a category is the number of rows in it, and no stored count is zero |
| Catalog.CountsSumToTotal | components/Catalog.tsx:15-21 | the per-category counts add up to the number of rows |
| Catalog.CatalogueCounts | components/Catalog.tsx:70 | every category has a positive count, and the counts sum to the 41 rows shown as "Todos" |
| Catalog.Filtered | components/Catalog.tsx:23-31 | exactly the rows in the selected category whose description, label or id contains the search; a selected category lists only its rows |
| Catalog.FilteredKeepsOrder | components/Catalog.tsx:23-31 | the listed rows keep catalogue order; with all categories and no search the whole catalogue is listed |
| Catalog.CategoryListMatchesCount | components/Catalog.tsx:101 | selecting a category with no search lists as many rows as its count says |
| PdfGenerator.HeaderLayout | utils/pdfGenerator.ts:40-47 | one status line, at 35 under a validity line when there is a validity date, at 30 otherwise; the header is on page 1 above 70 |
| PdfGenerator.ClientFallbacks | utils/pdfGenerator.ts:59-61 | the client block prints the name, and the phone and address or "Não informado" |
| PdfGenerator.ServiceRows | utils/pdfGenerator.ts:64-70 | one row per service line, its unit column always "un" |
| PdfGenerator.MaterialRows | utils/pdfGenerator.ts:101-107 | one row per material line, in order; a given unit is printed as it is and an empty one as "un" |
| PdfGenerator.TotalRows | utils/pdfGenerator.ts:142-161 | the totals box lists two to four rows |
| PdfGenerator.BreakBelowBounds | utils/pdfGenerator.ts:92-95 | after the check the pen is above the threshold and at most one page further on |
| PdfGenerator.TotalRowsShown | utils/pdfGenerator.ts:142-161 | both subtotals always; the travel fee row exactly when the fee is positive; the discount row, as "- " and the amount, exactly when the discount is positive |
| PdfGenerator.TotalsPart | utils/pdfGenerator.ts:135-170 | the totals go on one page, after a break to 20 when the pen is below H − 70, and end with the grand total including the travel fee |
| PdfGenerator.GrandTotalMatchesList | utils/pdfGenerator.ts:128-130 | the PDF's grand total is the list's total |
| PdfGenerator.ParagraphsWrappedSeparately | utils/pdfGenerator.ts:177-182 | each paragraph is wrapped on its own and the lines are concatenated in order; a wrapper that keeps a piece whole gives back the paragraphs |
| PdfGenerator.ObservationsFit | utils/pdfGenerator.ts:184-190 | a box of at most H − 80 ends above H − 60; a taller one starts a new page at 20 and ends at 20 plus its height, past H − 60 |
| PdfGenerator.SignaturesBelowContent | utils/pdfGenerator.ts:211-225 | on the same page the signatures are always below what came before them, and above the footer |
| PdfGenerator.MaterialsHeadingShown | utils/pdfGenerator.ts:91-125 | the document has the materials heading once when the quote has materials and not at all otherwise |
| PdfGenerator.ObservationsHeadingShown | utils/pdfGenerator.ts:173-207 | the document has the observations heading once when there are observations and not at all otherwise |
| PdfGenerator.SignaturesOnLastPage | utils/pdfGenerator.ts:211-233 | the signature labels are drawn exactly once, as the last element before the footers, on the page the footers count as the last |
| PdfGenerator.BodyWithin | utils/pdfGenerator.ts:19-225 | every element before the footer pass is on a page from 1 to the final page count, and none is a footer |
| PdfGenerator.Footers | utils/pdfGenerator.ts:228-234 | page i carries "Página i de N" at H − 10, in page order |
| PdfGenerator.EveryPageStampedOnce | utils/pdfGenerator.ts:228-234 | every page from 1 to N carries exactly one footer and no other page carries one |
| PdfGenerator.FileName | utils/pdfGenerator.ts:237 | the name is "Orcamento_", then the client's name with its whitespace runs replaced, then "_", the upper-cased id and ".pdf" |
| PdfGenerator.FileNameSplitsAtRun | utils/pdfGenerator.ts:237 | a whitespace run between two visible characters of the client's name becomes one "_", and the two sides are converted on their own |
| PdfGenerator.FileNameOfTwoWords | utils/pdfGenerator.ts:237 | two words separated by whitespace are saved joined by one "_" |
| PdfGenerator.FileNameHasNoWhitespace | utils/pdfGenerator.ts:237 | with an id free of whitespace the file name has none |
| PdfGenerator.Doc.constructor | utils/pdfGenerator.ts:7 | a new document has one page, nothing on it, and is not saved |
| PdfGenerator.Doc.AddPage | utils/pdfGenerator.ts:93 | one more page, which becomes the current one |
| PdfGenerator.Doc.SetPage | utils/pdfGenerator.ts:230 | the chosen existing page becomes the current one |
| PdfGenerator.Doc.Put | utils/pdfGenerator.ts:25 | the element is added, at its height, on the current page |
| PdfGenerator.Doc.Save | utils/pdfGenerator.ts:237 | the document is saved under the given name |
| PdfGenerator.Doc.AutoTable | utils/pdfGenerator.ts:72-88 | the table is placed at its start height and the document grows by the pages it adds |
| PdfGenerator.WrapObservations | utils/pdfGenerator.ts:177-182 | the accumulated lines are the pieces of the text, each wrapped, concatenated in order |
| PdfGenerator.DrawHeader | utils/pdfGenerator.ts:19-61 | draws exactly the logo, title, status and client blocks of the layout, on page 1 |
| PdfGenerator.DrawMaterials | utils/pdfGenerator.ts:91-125 | draws exactly the materials section the layout function describes |
| PdfGenerator.Totals | utils/pdfGenerator.ts:128-130 | the generator's folds give the two reference subtotals and the total including the travel fee |
| PdfGenerator.BreakPage | utils/pdfGenerator.ts:135-138 | a page is added exactly when the layout's page break says so |
| PdfGenerator.DrawTotals | utils/pdfGenerator.ts:127-170 | draws exactly the totals section the layout function describes |
| PdfGenerator.DrawObservations | utils/pdfGenerator.ts:173-207 | draws exactly the observations section the layout function describes |
| PdfGenerator.DrawSignatures | utils/pdfGenerator.ts:211-225 | draws exactly the signatures section the layout function describes |
| PdfGenerator.StampFooters | utils/pdfGenerator.ts:228-234 | the footer loop draws exactly the footers of pages 1 to N |
| PdfGenerator.DrawOpening | utils/pdfGenerator.ts:7-88 | the header and the services table are drawn exactly as the layout says |
| PdfGenerator.DrawClosing | utils/pdfGenerator.ts:90-225 | materials, totals, observations and signatures follow, giving exactly the layout's body and page count |
| PdfGenerator.GenerateQuotePdf | utils/pdfGenerator.ts:7-243 | the document holds exactly the layout, with the final page count; save mode saves it under its file name and returns nothing, preview mode returns a URL |
| Dashboard.QuoteValue | components/Dashboard.tsx:17-19 | a quote counts for its list total minus its travel fee |
| Dashboard.TotalValue | components/Dashboard.tsx:16-20 | the nested folds compute the sum of the quotes' values |
| Dashboard.TotalValueExcludesTravelFees | components/Dashboard.tsx:16-20 | the dashboard total is the sum of the full totals less the sum of the travel fees |
| Dashboard.TotalValueIgnoresStatus | components/Dashboard.tsx:16-20 | changing a quote's status never changes the total, so cancelled quotes count |
| Dashboard.PendingQuotes | components/Dashboard.tsx:22 | exactly the pending quotes, in their order in the list; their number is the count of pending quotes |
| Dashboard.ApprovedQuotes | components/Dashboard.tsx:23 | exactly the approved quotes, in their order in the list; their number is the count of approved quotes |
| Dashboard.StatusCountsBounded | components/Dashboard.tsx:22-23 | the pending and approved counts never add up to more than the number of quotes |
| Dashboard.EmptyTotalValue | components/Dashboard.tsx:16-20 | with no quotes the billed total is 0 |
| Dashboard.ChartValue | components/Dashboard.tsx:28 | the third bar is the total when it is positive, 1200 otherwise |
| Dashboard.ChartValues | components/Dashboard.tsx:25-29 | three bars, 4500 and 3200 fixed, all positive |
| Dashboard.Recent | components/Dashboard.tsx:117 | the first min(5, n) quotes, in collection order |
| Dashboard.NewestIsRecent | components/Dashboard.tsx:117 | a quote just added by the form is the first of the recent ones |
| App.AddQuote | App.tsx:26-32 | the new quote goes first, the old list follows unchanged, and the list tab is shown |
| App.DeleteQuote | App.tsx:34-39 | every quote with the id goes and every other stays; the tab is untouched |
| App.DeleteQuoteKeepsOrder | App.tsx:34-39 | the kept quotes stay in order, and an unknown id changes nothing |
| App.DeleteQuoteCount | App.tsx:34-39 | the list shrinks by exactly the number of quotes carrying the id |
| App.UpdateQuoteStatus | App.tsx:41-46 | quotes with the id get the status; length, order and the other quotes are unchanged |
| App.UpdateQuoteStatusOnlyStatus | App.tsx:41-46 | only the status field can change, and the update is idempotent |
| App.InitialState | App.tsx:11-18 | the saved state when there is one, otherwise no quotes on the dashboard tab |
| App.Navigate | App.tsx:58 | navigation changes the tab and never the quotes |
| App.MenuListsEveryTabOnce | App.tsx:48-53 | each tab has exactly one sidebar entry |
| App.RenderContent | App.tsx:55-67 | each tab id shows its screen, and any other string shows the dashboard |
| App.ShowsNewQuoteButton | App.tsx:132 | the floating button shows on every tab but the form |
| App.AppController.constructor | App.tsx:11-18 | the state starts as the saved one, or as no quotes on the dashboard |
| App.AppController.OnSave | App.tsx:26-32 | the state becomes `AddQuote` of the old one |
| App.AppController.OnDelete | App.tsx:34-39 | the state becomes `DeleteQuote` of the old one |
| App.AppController.OnUpdateStatus | App.tsx:41-46 | the state becomes `UpdateQuoteStatus` of the old one |
| App.AppController.SetActiveTab | App.tsx:104 | the state becomes `Navigate` of the old one |
| ShareModal.Total | components/ShareModal.tsx:15-17 | the dialog's total is the reference total minus the travel fee |
| ShareModal.TotalsDifferByTravelFee | components/ShareModal.tsx:15-17 | the dialog shows exactly the travel fee less than the list, and the dashboard's value of the quote |
| ShareModal.PlaceMatchesPdf | components/ShareModal.tsx:22 | the summary's place ("Não informado" for an empty address) is the one the PDF prints in its client block |
| ShareModal.SummaryFieldOrder | components/ShareModal.tsx:19-24 | the summary holds the client name, the formatted date, the place and the formatted total, in that order |
| ShareModal.PlainText | components/ShareModal.tsx:33 | the e-mail and clipboard text has no '*' and no "%0A" left |
| ShareModal.PlainTextKeepsPlain | components/ShareModal.tsx:39 | a text without '*' and '%' passes unchanged |
| ShareModal.PlainTextLineBreak | components/ShareModal.tsx:33 | each `%0A` becomes a line break, and the text on its two sides is converted on its own |
| ShareModal.PlainTextDropsMarkup | components/ShareModal.tsx:33 | an asterisk is dropped and leaves the rest of the text as it would be without it |
| ShareModal.EmailSubjectIdentifiesClient | components/ShareModal.tsx:32 | the subject starts with "Orçamento Elétrico - ", and two quotes get the same subject exactly when their clients have the same name |
| ShareModal.WhatsAppCarriesSummary | components/ShareModal.tsx:27 | the link starts with the send URL and holds every part of the summary right after it |
| ShareModal.WhatsAppFieldOrder | components/ShareModal.tsx:19-27 | the link holds the client name, the date, the place and the total, in that order |
| ShareModal.ShareModalState.constructor | components/ShareModal.tsx:13 | the dialog opens with `copied` false |
| ShareModal.ShareModalState.HandleCopy | components/ShareModal.tsx:38-43 | the clipboard gets the plain text and `copied` becomes true |
| ShareModal.ShareModalState.CopyTimerElapsed | components/ShareModal.tsx:42 | the timer lowers `copied` again |

## Left out

- Rendering: the JSX markup, CSS classes, icons and the recharts chart. Only the values the chart and the counters display are modelled.
- `components/QuotePreview.tsx` is not part of this model: its only logic is a print button.
- jsPDF drawing is not modelled: colours, fonts, font sizes, x-coordinates and alignment. Each drawn element is a `PdfGenerator.Block` with its page and its height.
- autoTable and `splitTextToSize` are inputs (`PdfGenerator.Inputs`). Their internals are not modelled; the model takes the table's `finalY`, the pages the table adds, and the wrap function as given.
- `formatCurrency`, `formatDate` and the numbers' `toString` are not part of this model. They are parameters.
- Persistence: `localStorage` and `JSON.parse`/`stringify`. A saved state arrives in `App.InitialState` as an option, and writing it back is not modelled.
- Browser APIs are not modelled:
  - `URL.createObjectURL` and `revokeObjectURL` appear only as the URL sets `created` and `revoked`;
  - `window.open`, `navigator.clipboard`, `mailto:`, `alert` and `setTimeout`.
- `encodeURIComponent` and `decodeURIComponent` are foreign; `ShareModal.PlainText` is the text before decoding. Decoding can throw on a user's `%` text.
- Ids and dates: the `Math.random()` id and `new Date().toISOString()` are parameters of `HandleSave`.
- Async: each `await` is one step, and the outcome of a preview is a parameter of `HandleOpenPreview`.
- Floating point: money is exact `real`.
  - Rounding is not modelled.
  - `NaN` from `parseInt`/`parseFloat` is not modelled; an unparsable fee is `None` in `TravelFeeInput`.
  - The `|| 0` on the travel fee only replaces 0, so it is the identity on reals.
- `QuoteList.QuoteListState.HandleOpenPreview`: requires that no preview is open. The modal covers the list while a quote is selected, so the program cannot re-enter it.
- `PdfGenerator.ObservationsFit`: a box taller than H − 80 passes H − 60 even on a fresh page, and one taller than H − 20 runs off the page. The generator does not split the box; the model states where it ends and no more.
- `PdfGenerator.GenerateQuotePdf`: in preview mode it returns the blob URL given in `Inputs`. That the URL is new is a premise of `HandleOpenPreview`.
- Text.ToUpper: upper-cases ASCII and Latin-1 letters one for one. JavaScript's `toUpperCase` maps all of Unicode and can lengthen a text ('ß' becomes "SS"); the model keeps the length and leaves other characters as they are.
- Text.LowerChar and Text.UpperChar: map only ASCII and Latin-1 letters, so the case-insensitive searches `QuoteList.Filtered`, `QuoteForm.FilteredServices`, `QuoteForm.FilteredMaterials` and `Catalog.Filtered` do not fold other letters ("Łukasz" is not found by "ł"). JavaScript's `toLowerCase` folds all of Unicode.
- The form's discount: no input sets it, so `Valid()` keeps it at 0.
