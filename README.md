# Revoria quote app: pricing, roles and quote exports in Dafny

This project models the core of the Revoria print-shop quoting app. Money and geometry are
Dafny `real`s. A stored quote record is a map of JSON-like values (`PyValues.Json`).
Python exceptions become `Result` errors, raised at the same point and in the same order.

- `Cotizador` (`pages/1_Cotizador.py`): the quote page's pricing pipeline.
  - Letter factor, piece layout on the press sheet, sheet paper cost.
  - The two rejection rules, billable units and physical sheets for flat jobs and books.
  - Printing and paper cost, extras, subtotal, margin and unit price.
  - The session list of extra costs, as the class `AdditionalCosts`: add a row, clear, remove
    row `i`, and the loop that writes rows back and sums the named ones.
  - The copyable quote text, as a method.
- `RolePermissions` (`lib/permissions.py`): the three roles, role normalisation, and the
  seven-flag capability record of each role.
- `Sheets`: what the two Excel exporters share.
  - Reading a stored record, the client header, run-length and price rows.
  - The clicks fallback, the detail sections and the role-gated choice of sheets.
- `ExcelExporter` (`lib/excel_exporter.py`) and `LegacyExporter` (`lib/exporter.py`): the
  client rows and the technical rows of the workbook, and the sheets each role receives.
  Rows are built by appending, section by section, as the source does.
- `PdfExporter` (`lib/pdf_exporter.py`): the client PDF.
  - The reportlab canvas is the class `Canvas`; each drawing call appends one operation.
  - The page cursor `y` drops by 14 points per drawn line.
  - `line` skips empty values.
- `PyValues`: the Python semantics the code relies on.
  - Truthiness, `dict.get` with a default, `x or default`, `str.strip()`.
  - ASCII `lower()`, `int()`/`float()` on decimal strings.
  - Formatted text kept abstract (`Piece`).
- `Wrappers` and `SeqFacts`: `Option`/`Result`, and a few sequence identities.

Three facts about the code shape the model:
- The effective piece size is `piece + 2·bleed + gutter`, and the count is `⌊area/eff⌋` per
  axis (`pages/1_Cotizador.py:68-97`).
- Paper cost is `hojas·costo_hoja·(1+merma)`. The waste-adjusted sheet count is not rounded
  up (`pages/1_Cotizador.py:238`).
- The Excel exporters gate the detail sheets on the raw role string
  (`role in {"admin","cotizador"}`). They do not normalise it: `" Admin "` gets only the client
  sheet (`Sheets.CanSeeDetailImpliesCapability`).

## Model

| member | source | states |
|---|---|---|
| RolePermissions.NormalizeRole | lib/permissions.py:27-35 | The result is always one of the three roles. It is the stripped, lower-cased input when that is a role, and "vendedor" otherwise. |
| RolePermissions.RoleNamesAreNormal | lib/permissions.py:4-8 | Each role constant is already stripped and lower case. |
| RolePermissions.NormalizeIdempotent | lib/permissions.py:27-35 | Normalising twice equals normalising once. |
| RolePermissions.NormalizeIgnoresCaseAndSpace | lib/permissions.py:28-29 | Stripping or lower-casing the input first does not change the normalised role. |
| RolePermissions.NormalizeFallbacks | lib/permissions.py:30-35 | "sales", the empty string and any unknown name normalise to "vendedor". |
| RolePermissions.NormalizeExamples | lib/permissions.py:27-35 | " Admin " normalises to "admin" and "COTIZADOR" to "cotizador". |
| RolePermissions.PermissionsFor | lib/permissions.py:38-72 | Every role may export for the client. The four cost capabilities (costs, margin, breakdown, technical export) are granted together, as are settings access and user management. Administration is granted only with cost access. |
| RolePermissions.PermissionsDependOnlyOnNormalForm | lib/permissions.py:38-39 | Two role strings with the same normal form get the same capability record. |
| RolePermissions.AdminHasEverything | lib/permissions.py:41-50 | Admin holds all seven capabilities. |
| RolePermissions.CotizadorIsAdminWithoutAdministration | lib/permissions.py:52-61 | Cotizador's record is admin's, without settings access and without user management. |
| RolePermissions.VendedorOnlyExportsClient | lib/permissions.py:63-72 | Vendedor's only capability is exporting the client document. |
| RolePermissions.PrivilegeOrder | lib/permissions.py:41-72 | Vendedor ≤ cotizador ≤ admin flag by flag. Any role string lies between vendedor and admin, and every role may export for the client. |
| RolePermissions.CostViewersAreAdminAndCotizador | lib/permissions.py:38-72 | A role string may see costs iff it normalises to admin or cotizador. |
| Cotizador.FactorVsCarta | pages/1_Cotizador.py:64-66 | The factor times the letter area equals the trim area. |
| Cotizador.FactorOfCartaIsOne | pages/1_Cotizador.py:28-30 | The letter area is 602 cm². A letter page has factor 1. The factor is linear in each dimension. |
| Cotizador.CalcPiezasPorLado | pages/1_Cotizador.py:68-97 | Effective sizes are piece + 2·bleed + gutter. "Inválido" with count 0 holds iff an effective size is ≤ 0. Otherwise the count is the larger of the normal and rotated grid fits. "Rotado 90°" is returned iff the rotated fit is strictly larger, so ties stay "Normal". |
| Cotizador.GridFitCountsColumnsAndRows | pages/1_Cotizador.py:89-91 | The grid fit is columns times rows, for the whole numbers of effective widths and heights that fit. |
| Cotizador.LayoutCountNonNegative | pages/1_Cotizador.py:68-97 | With a non-negative usable area, the count is never negative. |
| Cotizador.NoRotationMeansNormal | pages/1_Cotizador.py:89-97 | With rotation off, a non-negative area and positive effective sizes, the layout is the normal grid fit. |
| Cotizador.DefaultLayout | pages/1_Cotizador.py:33-36 | The page defaults lay out 2 pieces per side, "Normal", with effective size 22.3 × 28.8. |
| Cotizador.NegativeAreaLayouts | pages/1_Cotizador.py:89-97 | Negative area cases: one negative side with rotation off gives (0, "Rotado 90°"). Both sides negative gives a positive count. |
| Cotizador.PaperCostForSheet | pages/1_Cotizador.py:99-106 | Area m² = w·h/10⁴, weight kg = w·h·g/10⁷, cost = weight × price per kg. The cost is non-negative for non-negative inputs. |
| Cotizador.RestrictionCheck | pages/1_Cotizador.py:160-181 | A book whose trim-plus-bleed area exceeds half the usable area is "too large to fold". Otherwise a job "does not fit" iff no piece fits, and it is accepted iff at least one fits. The gutter is not part of the fold test. |
| Cotizador.BillableUnits | pages/1_Cotizador.py:193-219 | Billable letter-sides are the demand × the letter factor: once for single-sided pieces and for book pages, twice for double-sided pieces. |
| Cotizador.SheetYield | pages/1_Cotizador.py:196-222 | One sheet yields pieces per side × sides printed: one or two sides for pieces, always two for books. This is at least the pieces per side. |
| Cotizador.CeilDiv | pages/1_Cotizador.py:198 | `⌈a/b⌉` is the least q with a ≤ q·b. |
| Cotizador.PhysicalSheets | pages/1_Cotizador.py:186-223 | The sheets cover the demand (pieces, or books × pages) and one sheet fewer would not. |
| Cotizador.BooksAsPages | pages/1_Cotizador.py:204-223 | A book job bills and uses sheets like a double-sided flat job of libros × páginas pieces, with units counted single-sided. |
| Cotizador.SheetsAtLeastOne | pages/1_Cotizador.py:186-223 | A valid run length always needs at least one sheet. |
| Cotizador.PrintingCostOf | pages/1_Cotizador.py:228-232 | Printing cost is units × (the sum of the four per-unit rates), and its components add up to it. It is non-negative for non-negative inputs. |
| Cotizador.PaperCost | pages/1_Cotizador.py:238 | With non-negative sheets, sheet cost and waste, the paper cost is at least sheets × sheet cost, and that is non-negative. |
| Cotizador.PaperCostMonotoneInMerma | pages/1_Cotizador.py:237-238 | More waste never lowers the paper cost. With no waste, the cost is sheets × sheet cost. |
| Cotizador.TotalsOf | pages/1_Cotizador.py:292-294 | Subtotal = printing + paper + extras, price = subtotal·(1+margin), and unit price × pieces = price. A non-negative margin never lowers the price. |
| Cotizador.Synced | pages/1_Cotizador.py:281-284 | The written-back list has one row per entered row. |
| Cotizador.NamedTotalNonNegative | pages/1_Cotizador.py:262-287 | With non-negative amounts, the extras total `NamedTotal` is non-negative. |
| Cotizador.NamedTotalAppend | pages/1_Cotizador.py:262-287 | `NamedTotal` of two lists joined is the sum of their totals. |
| Cotizador.NamedTotalSingle | pages/1_Cotizador.py:285-287 | `NamedTotal` of one row is its amount when its stripped concept is not empty, and 0 otherwise. |
| Cotizador.NamedTotalRemove | pages/1_Cotizador.py:275-279 | Removing row i lowers the total by that row's amount when it is named, and otherwise leaves it unchanged. |
| Cotizador.SyncedKeepsTotal | pages/1_Cotizador.py:281-287 | Writing rows back with stripped concepts does not change which rows count or the total. |
| Cotizador.AdditionalCosts.constructor | pages/1_Cotizador.py:245-250 | The list starts with the three default concepts at 0. |
| Cotizador.AdditionalCosts.AddConcept | pages/1_Cotizador.py:254-256 | Appends one empty row, and the total is unchanged. |
| Cotizador.AdditionalCosts.ClearAll | pages/1_Cotizador.py:258-260 | The list becomes empty. |
| Cotizador.AdditionalCosts.Remove | pages/1_Cotizador.py:275-279 | The list loses exactly row i, and the total drops by that row's amount if the row is named. |
| Cotizador.AdditionalCosts.SyncAndTotal | pages/1_Cotizador.py:262-287 | The loop leaves the synced rows in the list. It returns the sum of the amounts of the rows whose stripped concept is not empty. |
| Cotizador.PriceJob | pages/1_Cotizador.py:186-294 | Each field of a priced job is the page's value: the letter factor, the billable units, the physical sheets, the printing cost of those units, the sheet paper cost, the paper cost with waste, the named extras and the totals. |
| Cotizador.Cotizar | pages/1_Cotizador.py:148-294 | A job is rejected iff a restriction applies, with that restriction, and then no cost is produced. An accepted job has at least one piece per side, and its quote is the priced job of the page's layout. |
| Cotizador.PricedSheets | pages/1_Cotizador.py:196-223 | A priced job's sheets cover the demand, and one sheet fewer would not. |
| Cotizador.PricedCosts | pages/1_Cotizador.py:194-238 | A priced job's factor is the trim size's letter factor and its units are the run's billable units. The sheet cost is the hoja's, and paper cost = sheets × sheet cost × (1 + waste). The extras are the named total. |
| Cotizador.PricedPrinting | pages/1_Cotizador.py:228-232 | A priced job's printing cost = units × the sum of the four rates. |
| Cotizador.PricedTotals | pages/1_Cotizador.py:292-294 | Subtotal = printing + paper + extras, price = subtotal·(1 + margin), and unit price × billed pieces or books = price. |
| Cotizador.DefaultQuote | pages/1_Cotizador.py:33-59 | With the page defaults, 1000 double-sided letter pieces bill 2000 units, cost 1800 to print, lay out 2 per side, take 250 sheets and add no extras. |
| Cotizador.DefaultExtrasTotal | pages/1_Cotizador.py:245-250 | The default extras sum to 0. |
| Cotizador.ListedExtras | pages/1_Cotizador.py:391-395 | The text lists exactly the rows that have a concept and a positive amount, taken from the rows. |
| Cotizador.ExtrasSectionIffListed | pages/1_Cotizador.py:389-395 | With non-negative amounts, the extras total is positive iff some row is listed, so the extras heading never stands without a bullet. |
| Cotizador.ListedExtrasSnoc | pages/1_Cotizador.py:391-395 | A row added at the end is listed after the earlier listed rows iff it is listed itself. |
| Cotizador.ListedExtrasAppend | pages/1_Cotizador.py:391-395 | The listed rows of two lists joined are the listed rows of the first, then those of the second. |
| Cotizador.ListedExtrasSingle | pages/1_Cotizador.py:393-395 | A single row is listed iff its stripped concept is not empty and its amount is positive. |
| Cotizador.BulletLines | pages/1_Cotizador.py:391-395 | Bullet k is the "  • concepto: $importe" line of the k-th listed row, in the rows' order, and there is one bullet per listed row. |
| Cotizador.BulletLinesStep | pages/1_Cotizador.py:391-395 | Row i's turn adds its bullet iff the row is listed. |
| Cotizador.AppendBullets | pages/1_Cotizador.py:391-395 | The loop appends exactly the bullets of the listed rows, in order. |
| Cotizador.QuoteText | pages/1_Cotizador.py:369-402 | The text is the head lines, then the extras heading and bullets iff the extras total is positive, then the totals. |
| Sheets.CanSeeDetailImpliesCapability | lib/excel_exporter.py:76 | The raw-role detail gate implies the technical-export and cost capabilities. Vendedor is refused. " Admin " is refused by the gate although its capabilities allow it. |
| Sheets.DefaultLados | lib/excel_exporter.py:18 | A missing `lados` defaults to a value `int()` reads as 1 or 2, and as 2 iff the product type mentions "Libro". |
| Sheets.DefaultLadosExamples | lib/excel_exporter.py:18 | A missing `lados` is 2 for a "Libro" product and 1 otherwise. |
| Sheets.ReadRecord | lib/excel_exporter.py:6-32 | The client view's product type is the `tipo_producto` stored in the inputs. |
| Sheets.ClientViewOnlyReadsClientSource | lib/excel_exporter.py:6-32 | Two records that agree on the top-level client fields, on the nine client keys of their inputs and on the stored totals have the same client view. |
| Sheets.ReplacedCostInput | lib/excel_exporter.py:6-32 | Replacing the stored paper price or the clicks in `inputs` keeps the record readable as before, with the same breakdown and totals. It changes only that key of the inputs, and the client source is unchanged. |
| Sheets.BranchFields | lib/excel_exporter.py:47-57 | Fails iff an "Extendido" job's `lados` does not convert with `int()`. Gives 2 rows for "Extendido" and 3 otherwise. The last row is "Impresión", reading "Frente" iff the job is single-sided "Extendido". |
| Sheets.ClicksFallback | lib/excel_exporter.py:82-90 | A stored click count is kept. With no click count and no sheet count, the value stays None. Otherwise clicks = sheets × sides for "Extendido" and sheets × 2 for other products. It fails iff a needed `int()` fails. |
| Sheets.ClicksAreSheetSides | lib/excel_exporter.py:82-90 | For a job the page priced, the inferred clicks × pieces per side equals the sheets' yield, so clicks count printed sheet sides. |
| Sheets.AddOperacionRows | lib/excel_exporter.py:113-121 | Appends the nine operation rows to the list. |
| Sheets.AddImpresionRows | lib/excel_exporter.py:124-125 | Appends the two printing rows to the list. |
| Sheets.AddClosingRows | lib/excel_exporter.py:139-144 | Appends the extras row, then the three totals rows. |
| Sheets.Workbook | lib/excel_exporter.py:154-159 | The client sheet comes first. Three sheets are written iff the role passes the gate, and one otherwise. |
| Sheets.WorkbookGated | lib/excel_exporter.py:154-159 | The detail and extras sheets follow iff the role passes the gate. A vendedor gets the client sheet alone. |
| Sheets.WorkbookHidesDetail | lib/excel_exporter.py:154-159 | For a role that does not pass the gate, the workbook does not depend on the detail rows or the extras. |
| Sheets.OperacionSections | lib/excel_exporter.py:113-121 | The operation rows are nine rows of section "Operación". |
| Sheets.TotalesSections | lib/excel_exporter.py:142-144 | The totals rows are three rows of section "Totales". |
| Sheets.ExtrasItems | lib/excel_exporter.py:148-149 | The extras sheet has a table iff the stored `items` are truthy. |
| ExcelExporter.BuildClientRows | lib/excel_exporter.py:37-69 | The client rows built by `+=` are the header, branch, paper and price rows. |
| ExcelExporter.ReadTechnical | lib/excel_exporter.py:78-90 | The sheet count is read from the inputs, else from the paper section. The clicks are the fallback's value. |
| ExcelExporter.WasteCostFallback | lib/excel_exporter.py:97-104 | A stored value is kept. Otherwise the result is sheet cost × (1 + waste) iff both convert with `float()`, and None in every other case. |
| ExcelExporter.WasteCostAgreesWithPaperCost | lib/excel_exporter.py:97-104 | The inferred waste cost times the sheet count is the page's paper cost. |
| ExcelExporter.ComputeCostoHojaConMerma | lib/excel_exporter.py:93-104 | The statement sequence yields the waste-cost fallback of the stored paper section. |
| ExcelExporter.AddPapelRows | lib/excel_exporter.py:128-136 | Appends the nine paper rows to the list. |
| ExcelExporter.BuildDetailRows | lib/excel_exporter.py:106-143 | The appended rows are the five sections in order. |
| ExcelExporter.ExportData | lib/excel_exporter.py:6-149 | A record read without error gives 24 detail rows, and its client rows are the client fields of its view. |
| ExcelExporter.BuildQuoteExcelBytes | lib/excel_exporter.py:1-159 | The workbook written is the role-gated workbook of the record, or the exception raised first. |
| ExcelExporter.ClientSheetShape | lib/excel_exporter.py:37-69 | The client sheet (`ClientFields`) has 7 header rows, the branch rows, 2 paper rows and 3 price rows: 14 rows for "Extendido" and 15 otherwise. "Impresión" reads "Frente" iff the job is single-sided "Extendido". |
| ExcelExporter.DetailSheetShape | lib/excel_exporter.py:106-143 | The detail sheet (`DetailRows`) has 24 rows in section order: Operación 9, Impresión 2, Papel 9, Adicionales 1, Totales 3. |
| ExcelExporter.PapelSections | lib/excel_exporter.py:128-136 | The paper rows are nine rows of section "Papel". |
| ExcelExporter.SheetsGatedByRole | lib/excel_exporter.py:76-159 | In the workbook of a record (`QuoteWorkbook`), the client sheet is first. The 24-row detail sheet and the extras sheet follow iff the role passes the gate. For a vendedor, the client sheet is the whole workbook. |
| ExcelExporter.FailureIndependentOfRole | lib/excel_exporter.py:6-149 | Whether, and with which exception, an export fails does not depend on the role. |
| ExcelExporter.NoCostLeak | lib/excel_exporter.py:6-159 | For a role without detail access, two readable records that agree on the client source produce the same workbook. Their breakdowns, snapshots and all other keys of their inputs may differ. |
| ExcelExporter.ReadTechnicalReads | lib/excel_exporter.py:78-90 | The technical reading depends only on the breakdown, the view and the inputs' sheet and click counts. |
| ExcelExporter.StoredCostsStayHidden | lib/excel_exporter.py:6-159 | For a role without detail access, replacing the stored paper price or the clicks in `inputs` leaves a produced workbook as it was. Replacing the paper price never changes whether the export fails. |
| LegacyExporter.BuildClientRows | lib/exporter.py:32-58 | The client rows built by `+=` are the header, branch and price rows. |
| LegacyExporter.ReadTechnical | lib/exporter.py:67-79 | The sheet count is read from the inputs, else from the paper section. The clicks are the fallback's value. |
| LegacyExporter.AddPapelRows | lib/exporter.py:101-104 | Appends the three paper rows to the list. |
| LegacyExporter.BuildDetailRows | lib/exporter.py:81-112 | The appended rows are the five sections in order. |
| LegacyExporter.ExportData | lib/exporter.py:6-118 | A record read without error gives 18 detail rows, and its client rows are the client fields of its view. |
| LegacyExporter.BuildQuoteExcelBytes | lib/exporter.py:1-128 | The workbook written is the role-gated workbook of the record, or the exception raised first. |
| LegacyExporter.ClientSheetShape | lib/exporter.py:32-58 | 7 header rows, the branch rows and 3 price rows: 12 rows for "Extendido" and 13 otherwise. The newer exporter's client sheet is this one with its two paper rows inserted. |
| LegacyExporter.DetailSheetShape | lib/exporter.py:81-112 | The detail sheet (`DetailRows`) has 18 rows in section order: Operación 9, Impresión 2, Papel 3, Adicionales 1, Totales 3. |
| LegacyExporter.SheetsGatedByRole | lib/exporter.py:65-128 | In the workbook of a record (`QuoteWorkbook`), the client sheet is first. The 18-row detail sheet and the extras sheet follow iff the role passes the gate. For a vendedor, the client sheet is the whole workbook. |
| LegacyExporter.NoCostLeak | lib/exporter.py:6-128 | For a role without detail access, two readable records that agree on the client source produce the same workbook. Their breakdowns, snapshots and all other keys of their inputs may differ. |
| LegacyExporter.ReadTechnicalReads | lib/exporter.py:67-79 | The technical reading depends only on the breakdown, the view and the inputs' sheet and click counts. |
| LegacyExporter.StoredCostsStayHidden | lib/exporter.py:6-128 | For a role without detail access, replacing the stored paper price or the clicks in `inputs` leaves a produced workbook as it was. Replacing the paper price never changes whether the export fails. |
| LegacyExporter.NullPapelRecord | lib/exporter.py:6-27 | A record whose breakdown holds `"papel": None` is read without error. |
| LegacyExporter.NullPapelRaises | lib/exporter.py:67-69 | The older exporter raises on that record, because `papel` is None and not `{}`. |
| LegacyExporter.NullPapelAcceptedByNewer | lib/excel_exporter.py:78-80 | The newer exporter accepts that record (`or {}`). |
| LegacyExporter.NullSectionRaisesOnlyHere | lib/exporter.py:67-69 | On that record the older exporter fails for every role, while the newer one produces a workbook. |
| PdfExporter.Canvas.constructor | lib/pdf_exporter.py:80-81 | A new canvas holds no operations. |
| PdfExporter.Canvas.DrawImage | lib/pdf_exporter.py:88-96 | Appends the image operation. |
| PdfExporter.Canvas.SetFont | lib/pdf_exporter.py:101 | Appends the font operation. |
| PdfExporter.Canvas.DrawString | lib/pdf_exporter.py:102 | Appends the text operation. |
| PdfExporter.Canvas.Line | lib/pdf_exporter.py:132 | Appends the rule operation. |
| PdfExporter.Canvas.ShowPage | lib/pdf_exporter.py:198 | Appends the page end. |
| PdfExporter.Canvas.Save | lib/pdf_exporter.py:199 | Appends the save. |
| PdfExporter.StrOrBlank | lib/pdf_exporter.py:38-49 | `str(v or "")` is empty iff v is falsy. |
| PdfExporter.FmtCm | lib/pdf_exporter.py:17-21 | The text is empty iff `float()` fails. |
| PdfExporter.FmtInt | lib/pdf_exporter.py:24-28 | The text is empty iff `int()` fails. |
| PdfExporter.Line | lib/pdf_exporter.py:141-145 | Draws nothing iff the value is empty, and otherwise draws one "label: value" line. |
| PdfExporter.DrawLines | lib/pdf_exporter.py:141-145 | The i-th drawn line sits at the left margin, 14·i points below the start. |
| PdfExporter.DrawLine | lib/pdf_exporter.py:141-145 | The cursor drops 14 points per line the call draws, and the canvas gains exactly those lines. |
| PdfExporter.DrawHeader | lib/pdf_exporter.py:110-129 | The canvas gains the header lines, and the cursor drops by 14 per line. |
| PdfExporter.DrawDetails | lib/pdf_exporter.py:52-173 | Fails iff the job lines cannot be computed, with the same exception. Otherwise the canvas gains the job lines and the cursor drops by 14 per line. |
| PdfExporter.DrawPrices | lib/pdf_exporter.py:185-192 | The canvas gains the price lines, and the cursor drops by 14 per line. |
| PdfExporter.DrawTitle | lib/pdf_exporter.py:84-108 | The canvas gains the logo (when its file exists) and the title block. The cursor is left at the first header line. |
| PdfExporter.DrawSection | lib/pdf_exporter.py:131-139 | The canvas gains a rule and a bold title 8 points lower, and the cursor drops 48 points. |
| PdfExporter.DrawFooter | lib/pdf_exporter.py:195-199 | The canvas gains the footer, the page end and the save. |
| PdfExporter.DrawTop | lib/pdf_exporter.py:84-139 | The canvas gains the logo, title, header and job section title. The cursor is left at the first job line. |
| PdfExporter.DrawBottom | lib/pdf_exporter.py:175-199 | The canvas gains the price section and the footer. |
| PdfExporter.BuildQuotePdfBytes | lib/pdf_exporter.py:31-199 | The canvas calls, in order, are the page of the stored quote, or the exception raised first. |
| PdfExporter.PageFromParts | lib/pdf_exporter.py:98-199 | The top, the job lines at the cursor and the bottom put together are the page. |
| PdfExporter.HeaderTextShows | lib/pdf_exporter.py:111-129 | Each header label is drawn iff its text is not empty, or "Cliente" and "Notas" iff their values are truthy. There are at most five header lines. |
| PdfExporter.HeaderShowsWhatIsStored | lib/pdf_exporter.py:38-129 | In the header (`HeaderLines`), ID, date, author line, customer and notes are drawn iff the stored fields are truthy. |
| PdfExporter.DetailHeadShows | lib/pdf_exporter.py:147-151 | Product, size, run length and sides are drawn iff their texts are not empty. |
| PdfExporter.PapelNotBlank | lib/pdf_exporter.py:155-162 | A truthy paper type always gives a non-empty paper text (`PapelText`). |
| PdfExporter.DetailTailShows | lib/pdf_exporter.py:155-173 | The paper, layout, sheet-count and factor lines are drawn iff their values are stored (and, for the last two, convert). |
| PdfExporter.TintasShows | lib/pdf_exporter.py:152-153 | The inks line (`TintasText`) is drawn iff `n_tintas` is stored. |
| PdfExporter.MedidaNotBlank | lib/pdf_exporter.py:148 | The size text is never empty, so "Medida final" is always drawn. |
| PdfExporter.TirajeNotBlank | lib/pdf_exporter.py:67-76 | The run-length text (`TirajeText`) always holds its unit, so it is never empty. |
| PdfExporter.JobTextDecisions | lib/pdf_exporter.py:67-153 | In `TirajeText`, `ImpresionText` and `TintasText`: "Extendido" counts pieces, and is "Frente" iff `str(lados) == "1"`. Any other product counts books, mentions interior pages iff they are stored, and is "Frente y vuelta". The inks line reads "CMYK (4)" iff `int(n_tintas) == 4`, and "1 tinta" otherwise. |
| PdfExporter.DetailLinesShow | lib/pdf_exporter.py:147-173 | The labels the job section shows, one by one, in terms of what is stored. There are at most nine job lines. |
| PdfExporter.DetailsShowWhatIsStored | lib/pdf_exporter.py:147-173 | In the job lines (`DetailLines`), size, run length and sides are always drawn. Product, inks, paper, layout, sheets and factor are drawn exactly when stored (and convertible). |
| PdfExporter.MoneyBlank | lib/pdf_exporter.py:185-189 | `money` is empty iff `float()` fails. |
| PdfExporter.PricesShowWhatConverts | lib/pdf_exporter.py:49-192 | Each price line (`PriceLines`) is drawn iff its stored value converts, and the currency defaults to "MXN". |
| PdfExporter.DetailLinesReads | lib/pdf_exporter.py:52-76 | The job lines depend only on the fourteen job keys of `inputs`. No cost key is among them. |
| PdfExporter.PdfReadsOnlyItsKeys | lib/pdf_exporter.py:31-76 | Two rows that agree on the nine top-level keys the PDF reads, and whose `inputs` agree on the fourteen job keys, give the same PDF. |
| PdfExporter.NoCostsInThePdf | lib/pdf_exporter.py:31-49 | Replacing the breakdown or the configuration snapshot leaves the PDF unchanged. |
| PdfExporter.StoredCostsOutOfPdf | lib/pdf_exporter.py:31-76 | Replacing the stored paper price or the clicks in `inputs` leaves the PDF unchanged. |
| PdfExporter.PdfFailsExactlyWhen | lib/pdf_exporter.py:52-153 | The PDF fails iff `inputs` is truthy but not a dict, or a stored `n_tintas` does not convert with `int()`, and with that exception. |
| PdfExporter.PageFits | lib/pdf_exporter.py:98-196 | With at most 5 header, 9 job and 2 price lines, every text lies between 40 points and the top margin. |
| PdfExporter.PageEnds | lib/pdf_exporter.py:198-199 | The page closes with the page end, then the save. |
| PdfExporter.QuotePdfFitsOnePage | lib/pdf_exporter.py:31-199 | A produced PDF (`QuotePdf`) is one page whose texts all fit inside it, closed by the page end and the save. |

## Left out

- The Streamlit UI is not modelled: widgets, layout, `st.session_state` keys, `st.rerun`,
  HTML/CSS and navigation. The page's inputs are parameters (`Cotizador.PageInputs`). The
  widgets' ranges become `Cotizador.ValidTiraje`.
- `st.stop()` after a failed restriction is modelled as an `Err(Rejection)` result.
- `Cotizador.Cotizar`'s `requires ValidTiraje`: the page's number widgets enforce at least one
  piece or book and one or two sides, so no other run length reaches the code.
- Byte output is not modelled: `BytesIO`, pandas/openpyxl `to_excel` and reportlab's PDF
  bytes. The workbook is a list of named sheets of rows, and the PDF is the sequence of
  canvas calls.
- The clock and the file system are parameters: `datetime.now()` becomes `now`, and whether
  the logo file exists becomes `logoExists`.
- Number-to-string formatting is abstract pieces (`Fixed`, `Grouped`, `Show`), not
  characters: `:,.2f`, `.4f`, `_fmt_cm`, `_fmt_int`, `money` and f-strings. Only whether a
  text is empty is modelled.
- IEEE floating point is not modelled. Money and geometry are exact reals, so rounding and
  overflow are absent.
- `int()` and `float()` accept only optional-sign decimal strings, JSON numbers and booleans.
  Exponents, underscores, "inf" and "nan" are not modelled.
- `lower()` is ASCII-only. Non-ASCII case folding is not modelled.
- A list-valued `tipo_papel` in the PDF is not modelled: `+=` would extend the list. Any
  non-string paper type is shown as is.
- pandas DataFrames are not modelled. The extras table is the stored `items` value. A truthy
  `items` that is neither a list nor a dict, such as a string or a number, makes
  `pd.DataFrame` raise; that error path is not modelled, and such a value is written as is.
- The pages and modules outside the core are not part of this model: `Home.py`, the history
  and settings pages, `lib/auth.py`, `lib/auth_users_yaml.py`, `lib/config_store.py`,
  `lib/supa.py`, `lib/ui.py` and `scripts/make_password_hash.py`. They are UI, persistence
  and foreign-library wrappers.
- Quote-code generation, finish catalogs and configuration migration are not modelled; the
  modelled code has none.
