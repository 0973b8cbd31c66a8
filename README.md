# Cotiza3D quote engine and editor helpers, in Dafny

Cotiza3D is a browser app that prices 3D-printing jobs. This project models its core logic:

- **Cost engine** (`Calculations`, from `src/lib/calculations.ts`). `calculateCosts` looks up the quoted material and machine by id, taking the first match. It returns `null` when either is missing or when the grams or print hours are absent or zero. Otherwise it prices four lines: material, energy, depreciation and labour. It adds the extra costs, applies the profit margin first and IVA second, and converts the total with the exchange rate.
- **Quote editor helpers** (`QuoteForm`, from `src/components/quotes/quote-form.tsx`):
  - hours/minutes/seconds to decimal hours and back;
  - the form's validity rules;
  - the grams summary, where unparseable entries count as 0;
  - building the saved quote and upserting it into the quote list.
- **Backup and restore** (`Backup`, from `src/components/settings/backup-restore.tsx`):
  - export assembly, with `{}`/`[]` defaults;
  - the import decision, including its backward-compatibility branch;
  - the key-by-key restore into storage;
  - the pending-file and dialog state, as a class `BackupRestore` over a `map<string, string>` storage field.
- **Client list** (`ClientsTable`, from `src/components/clients/clients-table.tsx`). It shows a copy of the clients, stably sorted newest first, with Instagram and Facebook profile links.

Money, grams and hours are `real`. JavaScript `Math.floor` is `.Floor`, and `Math.round(x)` is `(x + 0.5).Floor`. An absent optional field is `Option.None`. `x || 0` on numbers treats absent and 0 alike.

JSON parsing and serialisation are opaque. They are the function parameters `parse: string -> Option<Json>` (`None` when `JSON.parse` throws) and `stringify: Json -> string`. Storage keys are a parameter (`StorageKeys`), because the key table in `src/lib/constants.ts` has four keys while the backup component also uses an investments key and a future-purchases key. Fresh ids (`generateId`) and the current time (`new Date()`) are parameters of `BuildQuote` (`newId`, `now`). Client registration times are integers.

Where the code and other parts of the repository disagree, the model follows `calculations.ts`:

- The engine handles a single `materialId`/`materialGrams`, one flat `energyCostPerKwh`, labour charged on `printHours`, and IVA.
- The editor (quote-form.tsx:187-204) passes `parts`, a tariff mode, peak hours and labour hours, and expects `{breakdown, logs}`. The PDF view (quote-pdf.tsx:131) reads a `designCost` field of the breakdown, which the engine does not produce.
- No code in the repository implements tariff splitting, multi-part materials, design fees or a manual price override, so the model has none of them.
- `QuoteForm.EditorGetsNoBreakdown` proves what follows: the editor's call never carries a material id, so the engine as written always returns no breakdown for it.
- `Settings` in `src/lib/types.ts` lacks `exchangeRate`, which the engine reads. The model adds it as a plain `real` field.
- `Quote.status` in `types.ts` is `'draft' | 'finalized'`. The dashboard counts quotes whose status is `'accepted'` (`src/app/(main)/dashboard/page.tsx:54`), and an unused status handler's message names `'accepted'` and `'canceled'` (`src/app/(main)/quotes/page.tsx:67-73`); no code in the repository sets either value. `QuoteForm.QuoteStatus` keeps all four, so that a stored quote with either status keeps it through an edit.
- `Client`, `QuotePart` and the editor's richer `Quote` are not declared in `types.ts`. Their fields are taken from how the components use them.

Edge cases the model makes explicit:

- Loading a quote can show 60 seconds, or 60 labour minutes, because the last field is rounded (`QuoteForm.SecondsMayReachSixty`).
- The form's time rule adds the raw hours, minutes and seconds. Because those fields have no lower bound, a valid form can carry a negative decimal print time (`QuoteForm.ValidFormWithNegativeTime`).
- The import's backward-compatibility branch lets a file through when another entry is invalid, as long as the future-purchases entry is absent (`Backup.InvalidEntryAcceptedWithoutFuturePurchases`).

## Model

| member | source | states |
|---|---|---|
| `Calculations.Find` | src/lib/calculations.ts:25-26 | `find` by id gives `None` exactly when no entry carries the id, otherwise the entry at the first position carrying it |
| `Calculations.ExtraTotal` | src/lib/calculations.ts:41 | the `reduce` over the extra amounts; characterised by `ExtraTotalAppend` (additive over concatenation), `ExtraTotalPermutation` (order-independent) and `ExtraTotalNonNegative` |
| `Calculations.Breakdown` | src/lib/calculations.ts:33-62 | the breakdown built from the found material and machine; characterised field by field by `CostLines`, `CompoundedTotal`, `HourlyLinesLinear` and `TotalsOrdered` |
| `Calculations.CalculateCosts` | src/lib/calculations.ts:19-64 | a returned breakdown's subtotal is the sum of the four cost lines; its extra-cost total is the fold over the extras (absent extras count as none) and its subtotal with extras adds that total; the local total is the total times the exchange rate |
| `Calculations.NullExactly` | src/lib/calculations.ts:25-30 | `null` is returned exactly when no material or no machine has the quoted id, or the grams or the print hours are absent or zero |
| `Calculations.NegativeInputsAccepted` | src/lib/calculations.ts:28-30 | negative grams and negative hours are not rejected: with both references found a breakdown is returned |
| `Calculations.FirstMatchUsed` | src/lib/calculations.ts:25-37 | a returned breakdown is the one computed from the first material and the first machine carrying the quoted ids |
| `Calculations.CostLines` | src/lib/calculations.ts:33-37 | material cost is grams/1000 times cost per kg; energy, depreciation and labour are print hours times power/1000·kWh price, cost per hour and labour rate |
| `Calculations.HourlyLinesLinear` | src/lib/calculations.ts:35-37 | scaling the print hours by k scales the energy, depreciation and labour lines by k and leaves the material line unchanged |
| `Calculations.ExtraTotalAppend` | src/lib/calculations.ts:41 | the extra-cost total of two lists one after the other is the sum of their totals |
| `Calculations.ExtraTotalPermutation` | src/lib/calculations.ts:41 | any reordering of the extra costs gives the same total |
| `Calculations.ExtraTotalNonNegative` | src/lib/calculations.ts:41 | extra costs with non-negative amounts have a non-negative total |
| `Calculations.CompoundedTotal` | src/lib/calculations.ts:44-62 | profit is the margin share of the subtotal with extras, and IVA is charged on the profit-inclusive amount, so total = subtotal with extras × (1 + margin/100) × (1 + IVA/100); local total = total × exchange rate |
| `Calculations.TotalsOrdered` | src/lib/calculations.ts:39-48 | with non-negative inputs, rates and percentages: 0 ≤ subtotal ≤ subtotal with extras ≤ subtotal with profit ≤ total |
| `QuoteForm.DecimalPrintHours` | src/components/quotes/quote-form.tsx:172 | hours + minutes/60 + seconds/3600 with empty fields as 0 (also line 255); characterised by `PrintRoundTrip`, `NonNegativeTimeIsPositive` and `ValidFormWithNegativeTime` |
| `QuoteForm.DecimalLaborHours` | src/components/quotes/quote-form.tsx:173 | hours + minutes/60 with empty fields as 0 (also line 256); characterised by `LaborRoundTrip` |
| `QuoteForm.Round` | src/components/quotes/quote-form.tsx:119 | `Math.round` gives the integer within half a unit, halves rounding up |
| `QuoteForm.SplitPrintHours` | src/components/quotes/quote-form.tsx:116-119 | the loaded hours are the whole part of the stored total, the minutes the whole part of the remaining fraction times 60, the seconds the rounding of what is left times 60; for a non-negative total the minutes lie in 0..59 and the seconds in 0..60 |
| `QuoteForm.SplitLaborHours` | src/components/quotes/quote-form.tsx:121-123 | the loaded labour hours are the whole part of the stored total and the minutes the rounding of the remaining fraction times 60; for a non-negative total the minutes lie in 0..60 |
| `QuoteForm.PrintRoundTrip` | src/components/quotes/quote-form.tsx:116-119 | whole hours H and minutes and seconds in 0..59, saved as H + M/60 + S/3600 (line 255), load back as (H, M, S) |
| `QuoteForm.LaborRoundTrip` | src/components/quotes/quote-form.tsx:121-123 | whole labour hours H and minutes in 0..59, saved as H + M/60 (line 256), load back as (H, M) |
| `QuoteForm.SecondsMayReachSixty` | src/components/quotes/quote-form.tsx:119 | a stored time of 59.75 seconds loads as 0 h 0 min 60 s |
| `QuoteForm.IsValid` | src/components/quotes/quote-form.tsx:39-69 | the schema itself: name of two characters or more, at least one part, each with a material and parsed grams ≥ 0, a machine, every extra with a description and an amount ≥ 0, and a positive raw print-time sum; its consequences are `ValidFormFeedsEngine`, `NonNegativeTimeIsPositive`, `ValidPartsNonNegative` and `ValidFormWithNegativeTime` |
| `QuoteForm.NonNegativeTimeIsPositive` | src/components/quotes/quote-form.tsx:66-69 | with non-negative time fields, the raw-sum rule holds exactly when the decimal print time is positive |
| `QuoteForm.ValidFormWithNegativeTime` | src/components/quotes/quote-form.tsx:53-69 | some valid form has a negative decimal print time (-1 h and 2 min) |
| `QuoteForm.ValidFormFeedsEngine` | src/components/quotes/quote-form.tsx:39-69 | a valid form with non-negative time fields saves a quote with positive print hours and with every extra cost's amount non-negative; its extra-cost total and the material summary's grams total (lines 241-244) are non-negative |
| `QuoteForm.EngineInput` | src/components/quotes/quote-form.tsx:187-196 | the editor's engine input carries no material id or grams; it carries the machine id, the extras and the decimal print time |
| `QuoteForm.EditorGetsNoBreakdown` | src/components/quotes/quote-form.tsx:198-203 | for every form state and catalogue, the engine returns no breakdown for the editor's call |
| `QuoteForm.TotalGrams` | src/components/quotes/quote-form.tsx:240-244 | the `reduce` over the parts' parsed grams, NaN as 0; characterised by `TotalGramsAppend`, `UnparsedPartIgnored` and `ValidPartsNonNegative` |
| `QuoteForm.TotalGramsAppend` | src/components/quotes/quote-form.tsx:241-244 | the grams total of two part lists, one after the other, is the sum of their totals |
| `QuoteForm.UnparsedPartIgnored` | src/components/quotes/quote-form.tsx:241-244 | inserting a part whose grams do not parse, anywhere in the list, leaves the grams total unchanged |
| `QuoteForm.ValidPartsNonNegative` | src/components/quotes/quote-form.tsx:241-244 | parts that pass the part rule have a non-negative grams total |
| `QuoteForm.BuildQuote` | src/components/quotes/quote-form.tsx:254-273 | an edit keeps the id, status and creation time, and an empty id or time is replaced by the fresh id or the current time; a new quote gets the fresh id, the current time and status draft; the entered name, parts, machine, tariff, peak hours, client name, notes, design cost and extras are saved, the last four defaulting to "", "", 0 and [] when empty; print and labour hours are the decimal sums |
| `QuoteForm.SaveQuote` | src/components/quotes/quote-form.tsx:275-280 | an edit keeps the length and replaces exactly the entries carrying the edited id; a new quote is prepended and the old list is the tail |
| `QuoteForm.SaveThenLookup` | src/components/quotes/quote-form.tsx:275-279 | after saving, looking up the saved id finds the saved quote (for an edit, when the id was listed); lookups of every other id are unchanged |
| `Backup.StoredOr` | src/components/settings/backup-restore.tsx:29-34 | a missing or empty item falls back to the default; a non-empty stored text is used as stored |
| `Backup.ExportFrom` | src/components/settings/backup-restore.tsx:28-35 | the export object over a list of keys, failing when a parse throws; characterised by `ExportFromEntries` |
| `Backup.ExportData` | src/components/settings/backup-restore.tsx:26-35 | the export object over the six keys; characterised by `ExportEntries` and `ExportAfterRestore` |
| `Backup.ExportFromEntries` | src/components/settings/backup-restore.tsx:28-35 | export has exactly one entry per exported key, each holding the parse of that key's text; it fails exactly when one of those texts does not parse |
| `Backup.ExportEntries` | src/components/settings/backup-restore.tsx:28-35 | the export object has the six keys; each holds the parsed stored text, or the parse of "{}" for settings and "[]" for every other key when nothing is stored |
| `Backup.DecideImport` | src/components/settings/backup-restore.tsx:85-106 | the import decision on what the reader delivered; characterised by `UnreadableRefused`, `CheckedObjectAccepted`, `FailedCheckOutcome`, `InvalidEntryAcceptedWithoutFuturePurchases` and `AcceptedData` |
| `Backup.UnreadableRefused` | src/components/settings/backup-restore.tsx:85-89 | content that is not text, or text that does not parse, is refused |
| `Backup.CheckedObjectAccepted` | src/components/settings/backup-restore.tsx:92-99 | an object with truthy settings and five array entries is restored as it is |
| `Backup.FailedCheckOutcome` | src/components/settings/backup-restore.tsx:99-106 | when the check fails: with no future-purchases entry, the data proceeds with that entry set to []; with the entry present, the file is refused |
| `Backup.InvalidEntryAcceptedWithoutFuturePurchases` | src/components/settings/backup-restore.tsx:100-102 | a file whose materials entry is not an array is still imported when it has no future-purchases entry |
| `Backup.AcceptedData` | src/components/settings/backup-restore.tsx:92-106 | accepted data either passed the check unchanged, or lacked the future-purchases entry and gained it as [] |
| `Backup.Restore` | src/components/settings/backup-restore.tsx:109-114 | the key-by-key restore as a fold over the key list; characterised by `RestoreEffect` and `ExportAfterRestore`, and computed in place by `BackupRestore.ConfirmImport` |
| `Backup.RestoreEffect` | src/components/settings/backup-restore.tsx:109-114 | the restore writes exactly the listed keys whose imported value is truthy, each with the serialised value; every other stored key keeps its text |
| `Backup.ExportAfterRestore` | src/components/settings/backup-restore.tsx:109-114 | if parse inverts stringify and all six keys were written, exporting after a restore returns the imported values |
| `Backup.BackupRestore.constructor` | src/components/settings/backup-restore.tsx:23-24 | the component starts with no pending file and the dialog closed |
| `Backup.BackupRestore.HandleFileChange` | src/components/settings/backup-restore.tsx:67-72 | choosing a file makes the first one pending and opens the dialog; choosing none changes nothing |
| `Backup.BackupRestore.SetImportAlertOpen` | src/components/settings/backup-restore.tsx:160 | the dialog's open-state callback sets only the open flag |
| `Backup.BackupRestore.CancelImport` | src/components/settings/backup-restore.tsx:169 | cancel clears the pending file and nothing else |
| `Backup.BackupRestore.ConfirmImport` | src/components/settings/backup-restore.tsx:79-138 | with no pending file nothing changes; otherwise storage becomes the restore of the accepted data, or stays unchanged on an error, and afterwards the pending file is null and the dialog closed |
| `ClientsTable.SortNewestFirst` | src/components/clients/clients-table.tsx:56 | the displayed order; characterised by `SortedNewestFirst`, `SortIsStable` and `DisplayedOrderCharacterised` |
| `ClientsTable.SortedNewestFirst` | src/components/clients/clients-table.tsx:56 | the displayed list is a permutation of the clients with non-increasing registration times |
| `ClientsTable.SortIsStable` | src/components/clients/clients-table.tsx:56 | clients registered at the same time appear in the displayed list in their input order |
| `ClientsTable.StableOrderUnique` | src/components/clients/clients-table.tsx:56 | two newest-first lists with the same clients, in the same order, at every registration time are equal |
| `ClientsTable.DisplayedOrderCharacterised` | src/components/clients/clients-table.tsx:56 | every stable newest-first arrangement of the clients is the displayed list, whatever stable sort produces it |
| `ClientsTable.IndexOf` | src/components/clients/clients-table.tsx:85 | the position found holds the character, and no earlier position does |
| `ClientsTable.RemoveFirst` | src/components/clients/clients-table.tsx:85 | a text without the character is unchanged; otherwise only the character at its first position is cut out |
| `ClientsTable.RemoveFirstCounts` | src/components/clients/clients-table.tsx:85 | removing the first `@` shortens the handle by one exactly when the handle has an `@`, and takes one `@` out of its characters |
| `ClientsTable.InstagramUrl` | src/components/clients/clients-table.tsx:85 | the link starts with `https://instagram.com/`; the rest is the handle with its first `@` removed (`RemoveFirst`), so it is the handle when it has no `@`, and otherwise the handle's characters minus one `@` |
| `ClientsTable.OnlyFirstAtRemoved` | src/components/clients/clients-table.tsx:85 | `@@shop` links to `https://instagram.com/@shop` |
| `ClientsTable.InstagramLink` | src/components/clients/clients-table.tsx:82-85 | an Instagram link is shown exactly when the handle is present and non-empty, and it is that handle's URL |
| `ClientsTable.FacebookUrl` | src/components/clients/clients-table.tsx:93 | the link is `https://facebook.com/` followed by the handle unchanged |
| `ClientsTable.FacebookLink` | src/components/clients/clients-table.tsx:90-93 | a Facebook link is shown exactly when the handle is present and non-empty, and it is that handle's URL |

## Left out

- Rendering, React hooks and toasts are not modelled. This covers `useForm`, `useFieldArray`, `useLocalStorage`, `useEffect`, the table/form markup and toast messages. The React state setters in the editor (`setCalculationResult`, `setQuotes`, `reset`) are represented only by the values they receive.
- The editor's default values (quote-form.tsx:94-109) are not modelled. When a quote is given, the `reset` of lines 116-135 overwrites them. The blank-form reset for a new quote (lines 137-156), which picks the first machine, is not modelled either.
- Exchange-rate fetching (quote-form.tsx:222-237 and the exchange-rate service) is left out because it is a network call. The engine only multiplies by `settings.exchangeRate`.
- Browser I/O in backup-restore is left out: `Blob`, `URL.createObjectURL`, the download link, `FileReader` (the `onload` body is run at once), `setTimeout`/`reload`, and resetting the file input (line 75). Export is modelled up to the object handed to `JSON.stringify`.
- `JSON.parse` and `JSON.stringify` are opaque function parameters. Their properties (such as the round trip that `Backup.ExportAfterRestore` requires) are assumptions, not proved facts.
- In `Backup.DecideImport`, parsed arrays are treated as having no property under a storage key. Numeric and `length` keys of arrays and strings are not modelled, because the storage keys are ordinary names.
- Closing the dialog through the library's own cancel/action handling goes through the open-state callback (`Backup.BackupRestore.SetImportAlertOpen`). The library's call order is not modelled.
- IEEE-754 behaviour (rounding, NaN propagation, truthiness of NaN) is not modelled. Reals are exact. A grams value that fails to parse is modelled as `None`.
- Zod coercion (`z.coerce.number()`) of text to numbers is not modelled. Form values are already numbers or absent.
- `Date` parsing and formatting are foreign calls. Client registration times are integer timestamps, and a quote's creation time is an opaque string.
- `ClientsTable.SortNewestFirst` is an insertion sort standing in for the built-in stable `Array.prototype.sort`. `ClientsTable.DisplayedOrderCharacterised` shows that any stable sort gives the same list. The input list is a value, so it is never reordered.
- `formatCurrency`, `cn`, display-only currency rules and the PDF/summary views are presentation. They are not part of this model.
- `QuoteForm.IsValid`: the name's two-character minimum counts Unicode scalar values, while the schema's `min(2)` counts UTF-16 code units. A name made of one character outside the Basic Multilingual Plane (such as one emoji) is valid in the app but not in the model.
- `Backup.BackupRestore.ConfirmImport`: every `localStorage.setItem` is taken to succeed. In the app a write can throw part-way through the loop (for instance when the quota is exceeded). The keys written before it then stay written while the import reports a failure. The model does not capture this partial restore.
- `Backup.ExportData`: the settings key is assumed distinct from the other five keys, as it is in `src/lib/constants.ts`. If it coincided with a later key, the later entry of the export object would win and parse `"[]"`, while the model parses `"{}"` for it.
