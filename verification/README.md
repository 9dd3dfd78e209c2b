# Audit tools core, modelled in Dafny

This project models the core logic of an audit management web application (Django). Auditors upload an entity's financial statements. The application then fills the working-paper templates: Excel workbooks and Word documents. It also tracks the time spent on each audit, manages users and demo accounts, and routes notifications between auditors and their managers.

Financial records reach the Excel processors as flat dictionaries. Their keys have the form "TIPO-YYYY-MM-DD-Section-Account[-AccountType]", for example "ANUAL-2023-12-31-Activo-Caja-C". The modelled core is the deterministic logic around those keys and around the application's records.

- **Balance keys.** Serialising the records into keys, stripping the account-type suffix, and parsing keys back into dates, sections and accounts. The readers also sort, deduplicate, pick the latest date and match accounts.
- **Writing worksheets.** A worksheet is a map from (row, column) to a value, with `insert_rows`. The model states, per processor, which rows receive which accounts and values, where rows are inserted, and how formulas move with their row. The processors are: annual and semi-annual, consolidating, summary, initial-balance test, comparative and financial ratios.
- **Reference tables.** A pattern such as "A-1" maps to a folder and file, and a file maps back to its pattern. Word documents map to a nomenclature prefix and range. Template placeholders are filtered and applied by text replacement, and audit dates are formatted.
- **Time tracking.** The model covers the validators of the update services and the `save` rules of the time records. It also covers an activity's per-month rows, month enumeration, duration filters, breadcrumbs and the status time line.
- **Users and notifications.** The model covers deactivation and reactivation cascading to a group administrator's auditors, and the demo-user path allowlist and expiry sweep. It also covers the pairing rules a notification status must satisfy to be saved.

Python values become Dafny values:

| Python | Dafny |
|---|---|
| dictionaries | sequences of entries in insertion order (`PyDict`), since the processors iterate in that order |
| strings | `seq<char>` |
| money | `real` |
| durations | whole seconds |
| dates | (year, month, day) triples with the Gregorian month lengths |
| a raised exception | the error case of a `Result` or an `Option` |

Code that updates objects in place becomes classes and methods. This covers worksheets, model objects, the users table and the middleware, and each method is proved against a specification function. Pure lookups and parsers become functions, with lemmas stating what the source promises of them.

## Model

| member | source | states |
|---|---|---|
| NormalizarBalances.FirstMatchEs | auditoria/processors/excel/sheet_processor/normalizar_balances.py:15-19 | the lazy group takes the first position from which "-SUFFIX" runs to the end of the key; no earlier position matches, and none at all when it returns nothing |
| NormalizarBalances.NormalizeKey | auditoria/processors/excel/sheet_processor/normalizar_balances.py:19-25 | a key the pattern does not match is kept as it is; a matching key loses its suffix and comes back shorter and stripped of surrounding whitespace |
| NormalizarBalances.Normalizar | auditoria/processors/excel/sheet_processor/normalizar_balances.py:13-27 | the result is a dict with no more entries than the input; each key maps to the value of the last entry that normalises to it; the keys come in the order their first entry appears |
| NormalizarBalances.StripsSuffix | auditoria/processors/excel/sheet_processor/normalizar_balances.py:15-23 | "base-W" for every suffix word W (C, NC, NT, CORRIENTE, NO CORRIENTE, NO-CORRIENTE, NOCORRIENTE, in any case) normalises to base stripped |
| NormalizarBalances.NoDashUnchanged | auditoria/processors/excel/sheet_processor/normalizar_balances.py:24-25 | a key without '-' is copied unchanged |
| NormalizarBalances.NoEarlierTail | auditoria/processors/excel/sheet_processor/normalizar_balances.py:15 | no '-' inside the base starts a suffix tail of "base-W", so the suffix removed is the last field |
| TextReplacer.RuleValue | auditoria/processors/shared/text_replacer.py:21-26 | a rule applies only with a non-empty pattern and a key whose value is truthy, and then substitutes that value's str |
| TextReplacer.ReplaceText | auditoria/processors/shared/text_replacer.py:1-28 | the direct phase over every key in order, then the regex phase over the rules when any are given |
| TextReplacer.NoKeyUnchanged | auditoria/processors/shared/text_replacer.py:15-17 | with no key occurring in the text, ignoring case, the direct phase leaves the text unchanged |
| TextReplacer.OtherCaseOnly | auditoria/processors/shared/text_replacer.py:16-17 | a key present only in another case passes the test but the case-sensitive replace changes nothing |
| TextReplacer.WholeKey | auditoria/processors/shared/text_replacer.py:15-17 | a text that is exactly a non-empty key becomes that key's value |
| TextReplacer.LaterKeyRewrites | auditoria/processors/shared/text_replacer.py:15-17 | keys apply in map order: for any non-empty keys a and b, {a: b, b: c} turns the text a into c |
| TextReplacer.RuleSkipped | auditoria/processors/shared/text_replacer.py:21-27 | a rule with an empty pattern or a key without a truthy value changes nothing |
| TextReplacer.InsertsStr | auditoria/processors/shared/text_replacer.py:17 | where a key occurs exactly, the str of its value appears in the result |
| FinancialData.IsoFormat | auditoria/utils/data_db.py:76 | `isoformat` splits on '-' into the four-digit year and the two-digit month and day |
| FinancialData.Amount | auditoria/utils/data_db.py:80 | a missing or zero amount becomes 0, any other amount is kept |
| FinancialData.SerializeBalance | auditoria/utils/data_db.py:69-82 | the account type is never empty: a missing or empty type becomes "NT"; the amount follows the falsy rule; the date is present exactly when it was; the other fields are copied |
| FinancialData.SerializeRegistro | auditoria/utils/data_db.py:84-93 | the record is copied with a falsy balance read as 0 |
| FinancialData.SerializeSaldo | auditoria/utils/data_db.py:95-105 | the balance follows the falsy rule, the date is present exactly when it was, the rest is copied |
| FinancialData.BalanceKeyFields | auditoria/utils/data_db.py:130-132 | a balance key splits on '-' back into type, year, month, day, section, account and account type when none of those holds a '-' |
| FinancialData.SaldoKeyFields | auditoria/utils/data_db.py:140-142 | an initial-balance key splits at its first '-' into the account and the date when the account holds no '-' |
| FinancialData.OrganizeFinancialData | auditoria/utils/data_db.py:117-152 | all four sections are dicts; each maps a key to the value of the last record with that key; a missing adjustments list gives an empty section |
| FinancialData.AjustesPorCuenta | auditoria/utils/data_db.py:107-149 | through the serialisation, the adjustments section holds for each account the debit and credit of its last adjustment row, and nothing for an account without one |
| UrlsPrograms.BlocksWellNumbered | auditoria/processors/shared/urls_programs.py:29-211 | each financial per-letter table holds exactly the patterns "L-1" to "L-n" of its own letter, in order and with no gaps |
| UrlsPrograms.InternalBlocksWellNumbered | auditoria/processors/shared/urls_programs.py:246-359 | each internal per-letter table holds exactly the patterns "L-5" onwards of its own letter, in order and with no gaps |
| UrlsPrograms.MergesLoseNothing | auditoria/processors/shared/urls_programs.py:214-227 | both merged pattern tables are the concatenation of their per-letter tables and have no repeated key, so the merge loses no entry |
| UrlsPrograms.Resolve | auditoria/processors/shared/urls_programs.py:439-474 | an empty pattern or one without '-' gives nothing, an unknown prefix gives nothing, and any result's folder is the prefix's folder |
| UrlsPrograms.GetFileInfoFromPattern | auditoria/processors/shared/urls_programs.py:423-500 | the folder and file are those the pattern resolves to; the full path is the template path when it exists, else what the flexible search returns; an existing template path always yields a result |
| UrlsPrograms.SpecialFirst | auditoria/processors/shared/urls_programs.py:460-462 | a special pattern whose prefix has a folder resolves to the special file, before the pattern table is consulted |
| UrlsPrograms.TableHit | auditoria/processors/shared/urls_programs.py:464-465 | a listed pattern that is not special resolves to its table file |
| UrlsPrograms.ProgramFallback | auditoria/processors/shared/urls_programs.py:467-471 | an unlisted pattern whose second field is "programa" or whose prefix is a financial letter falls back to the prefix's program file |
| UrlsPrograms.NoFallback | auditoria/processors/shared/urls_programs.py:472-474 | any other unlisted pattern resolves to nothing |
| UrlsPrograms.ProgramsCoverFolders | auditoria/processors/shared/urls_programs.py:14-26 | every prefix that has a folder also has a program file, so the fallback never comes back empty |
| UrlsPrograms.FindPrefix | auditoria/processors/shared/urls_programs.py:533-536 | the first prefix whose lower-cased folder occurs in the lower-cased folder argument, and nothing when none does |
| UrlsPrograms.FindPattern | auditoria/processors/shared/urls_programs.py:543-545 | the first pattern in table order that names the file and starts with the prefix, and nothing when none does |
| UrlsPrograms.SearchSpecial | auditoria/processors/shared/urls_programs.py:514-516 | the loop returns the first special pattern naming the file |
| UrlsPrograms.SearchPrefix | auditoria/processors/shared/urls_programs.py:533-536 | the loop returns what FindPrefix specifies |
| UrlsPrograms.SearchPattern | auditoria/processors/shared/urls_programs.py:543-545 | the loop returns what FindPattern specifies |
| UrlsPrograms.GetPatternFromFile | auditoria/processors/shared/urls_programs.py:502-552 | the special table first, then the prefix from the folder, then the pattern table, then "<prefix>-programa" |
| UrlsPrograms.FindPatternBlock | auditoria/processors/shared/urls_programs.py:543-545 | in the merged table, the search by one block's letter is the search by file within that block |
| UrlsPrograms.BlockFiles | auditoria/processors/shared/urls_programs.py:29-211 | the financial tables name no special file, and only B names a file twice, at B-4 and B-5 |
| UrlsPrograms.InternalBlockFiles | auditoria/processors/shared/urls_programs.py:246-359 | the internal tables name no special file and no program file, and no file twice |
| UrlsPrograms.FirstPatternOfFile | auditoria/processors/shared/urls_programs.py:52-69 | within its letter's table a file names one pattern, except the file shared by B-4 and B-5, whose first pattern is B-4 |
| UrlsPrograms.InverseLookup | auditoria/processors/shared/urls_programs.py:502-552 | for a financial folder, every file of its letter's table maps back to its own pattern, except B-5's file, which maps back to B-4 |
| UrlsPrograms.InternalInverseLookup | auditoria/processors/shared/urls_programs.py:502-552 | for an internal folder, every file of its letter's table maps back to its own pattern |
| UrlsPrograms.SpecialArePrograms | auditoria/processors/shared/urls_programs.py:394-421 | the special table is the financial program table with "-programa" added to each prefix |
| UrlsPrograms.FinancialProgramViaSpecial | auditoria/processors/shared/urls_programs.py:513-516 | a financial program file maps back to "<prefix>-programa" through the special table |
| UrlsPrograms.InternalProgramRoundTrip | auditoria/processors/shared/urls_programs.py:547-549 | the internal program file maps back to "<prefix>-programa" for the prefix its folder selects |
| UrlsPrograms.InternalProgramInNoTable | auditoria/processors/shared/urls_programs.py:378-391 | no search of the internal pattern table finds the program file |
| UrlsPrograms.CopiesDifferAtI4 | auditoria/processors/shared/urls_programs.py:173-182 | the mapping-module tables equal these, except at I-4, which is a .xlsx file here and a .docx file there |
| UrlsPrograms.I4LookupsDiffer | auditoria/processors/shared/urls_programs.py:176 | an illustration on the one pattern where the tables differ: looked up through the two merged tables, "I-4" names different files |
| AuditMappings.BlocksWellNumbered | auditoria/processors/shared/urls_programs/financial_audit_mappings.py:17-199 | each letter's patterns run from 1 with no gap, in order, and no letter has two tables |
| AuditMappings.BlockSizes | auditoria/processors/shared/urls_programs/financial_audit_mappings.py:17-199 | the table sizes are A 18, B 16, C 6, D 16, E 13, F 13, G 10, H 19, I 8, J 8 and R 13 |
| AuditMappings.MergeLosesNothing | auditoria/processors/shared/urls_programs/financial_audit_mappings.py:202-215 | the per-letter tables have disjoint keys, so the merged table is their concatenation, with 140 distinct keys |
| AuditMappings.PatternsOfLetter | auditoria/processors/shared/urls_programs/financial_audit_mappings.py:202-215 | the merged table holds "L-n" exactly for a table letter L and n from 1 to that table's size |
| AuditMappings.PrefixesHaveFolders | auditoria/processors/shared/urls_programs/financial_audit_mappings.py:2-215 | the prefix of every pattern (`pattern.split('-')[0]`) is a key of the folder table |
| AuditMappings.NotInjective | auditoria/processors/shared/urls_programs/financial_audit_mappings.py:44-45 | B-4 and B-5 name the same file |
| PatternTables.PatternNameSplit | auditoria/processors/shared/urls_programs.py:444 | `split('-')` of "L-n" gives the letter and then the number |
| PatternTables.MergeOfWellNumbered | auditoria/processors/shared/urls_programs.py:214-227 | merging well-numbered tables of distinct letters with `{**a, **b}` loses no entry and keeps their order |
| Nomenclature.FindDirect | auditoria/processors/word/table_processor/nomenclature_config.py:40-44 | the prefix of the first path fragment that occurs in the normalised path, and nothing when none occurs |
| Nomenclature.FindDoc | auditoria/processors/word/table_processor/nomenclature_config.py:59-72 | the configuration of the first document whose cleaned name occurs in the cleaned document name, and nothing when none does |
| Nomenclature.GetNomenclatureConfig | auditoria/processors/word/table_processor/nomenclature_config.py:12-74 | a financial-map hit wins; path rules apply only with a path and "programa de auditor" in the name and "6 auditoria de procesos" in the normalised path, and otherwise the result is None; a direct fragment gives its prefix with max_range 12; without one the result is that of the area search over the internal map |
| Nomenclature.SubareasEs | auditoria/processors/word/table_processor/nomenclature_config.py:55-64 | the subarea search finds nothing exactly when no subarea named in the path holds the document; otherwise it gives the document search's result for the first one that does |
| Nomenclature.SearchAreasEs | auditoria/processors/word/table_processor/nomenclature_config.py:47-72 | on well-shaped areas the area search never raises; it finds nothing exactly when every area misses, and otherwise gives what the first area that does not miss gives |
| Nomenclature.ConfigPorAreas | auditoria/processors/word/table_processor/nomenclature_config.py:31-74 | with no financial hit and no direct fragment, a programme document under "6 auditoria de procesos" gets the configuration of the first internal area holding it, found through the document search; no such area gives None |
| Nomenclature.FinancialConfigsTruthy | auditoria/processors/word/table_processor/financial_audit_mappings.py:7-19 | every financial configuration is a non-empty dict, so a hit in the financial map is always returned |
| Nomenclature.FinancialRangesAreTableSizes | auditoria/processors/word/table_processor/financial_audit_mappings.py:7-19 | each program's max_range equals the number of patterns its prefix has in the pattern tables |
| Nomenclature.ProgramDocumentConfig | auditoria/processors/word/table_processor/nomenclature_config.py:24-29 | a document named like a financial program file gets that prefix and its table size |
| Nomenclature.DirectPrefixesHaveFolders | auditoria/processors/word/table_processor/internal_audit_mappings.py:89-110 | every prefix the path fragments give has an internal folder |
| Nomenclature.InternalAreasNested | auditoria/processors/word/table_processor/internal_audit_mappings.py:7-86 | every area's first value is a dict, so only the sub-area branch of the search is ever taken |
| Nomenclature.NeverRaises | auditoria/processors/word/table_processor/nomenclature_config.py:46-72 | for the actual maps, `next(iter(...))` never meets an empty area, so the lookup never raises |
| AnualSemestral.DateOfKey | auditoria/processors/excel/processor_anual_semestral/data_extraction.py:3-4 | the date of a key fails exactly when the key has fewer than four fields, and otherwise splits back into fields 1 to 3 |
| AnualSemestral.DateOfBalanceKey | auditoria/processors/excel/processor_anual_semestral/data_extraction.py:3-4 | the key of a balance carries the balance's own ISO date |
| AnualSemestral.Fechas | auditoria/processors/excel/processor_anual_semestral/data_extraction.py:3-4 | raises exactly when a key of the type lacks a date; otherwise strictly increasing, holding exactly the dates of the keys of the type |
| AnualSemestral.Entry | auditoria/processors/excel/processor_anual_semestral/data_extraction.py:27-30 | a key contributes exactly when it has at least five fields and the type, and then gives field 4 as section and the rest joined with '-' as account |
| AnualSemestral.ClasificarCuentasPorSeccion | auditoria/processors/excel/processor_anual_semestral/data_extraction.py:16-38 | exactly the four sections, each strictly sorted, each holding exactly the accounts the classification placed there |
| AnualSemestral.ClassifiedFromKey | auditoria/processors/excel/processor_anual_semestral/data_extraction.py:28-32 | every classified account comes from a key of the type, under a known section |
| AnualSemestral.FirstClaimWins | auditoria/processors/excel/processor_anual_semestral/data_extraction.py:24-33 | an account is placed in the section of the first key that claims it, and in no other |
| AnualSemestral.BalanceEntry | auditoria/processors/excel/processor_anual_semestral/data_extraction.py:29-30 | a balance key contributes its section and the account "name-account type" |
| AnualSemestral.CellKeyOfEntry | auditoria/processors/excel/processor_anual_semestral/row_inserter.py:85 | round trip: the key the inserter rebuilds from a classified account is the key it came from, so every classified account finds its amount |
| AnualSemestral.ExtraerYClasificarDatos | auditoria/processors/excel/processor_anual_semestral/data_extraction.py:1-14 | fails exactly when a date list fails; the date lists are Fechas of each type; both account maps have the four sections, and each section lists, strictly sorted, exactly the accounts Classify finds for its type |
| AnualSemestral.FormatearFecha | auditoria/processors/excel/processor_anual_semestral/utils.py:3-9 | a text with fewer than three fields comes back unchanged; otherwise the result starts with "Al " |
| AnualSemestral.FormatearIsoFormat | auditoria/processors/excel/processor_anual_semestral/utils.py:7 | an ISO date becomes "Al DD/MM/YYYY" |
| AnualSemestral.ColumnasValores | auditoria/processors/excel/processor_anual_semestral/utils.py:46-48 | columns 3, 4, ...: at most two for ANUAL, one per date for SEMESTRAL |
| AnualSemestral.FirstLabelRow | auditoria/processors/excel/processor_anual_semestral/utils.py:26-31 | the first row holding the label, and none when no row does |
| AnualSemestral.BuscarFilasClave | auditoria/processors/excel/processor_anual_semestral/utils.py:23-36 | the key rows are the first rows holding each label, column B before A, defaulting to 14, 22 and 26 |
| AnualSemestral.EncontrarFilaCuentaNormal | auditoria/processors/excel/processor_anual_semestral/utils.py:38-44 | the first row in [inicio, fin) whose column B is non-empty and lacks "TOTAL", and none when there is no such row |
| AnualSemestral.SumFormulas | auditoria/processors/excel/processor_anual_semestral/utils.py:50-56 | nothing changes when fin < inicio; otherwise each listed column of the row gets "=SUM(start:end)" and every other cell keeps its value |
| AnualSemestral.ActualizarFormulaSuma | auditoria/processors/excel/processor_anual_semestral/utils.py:50-56 | the sheet becomes SumFormulas of the old sheet |
| AnualSemestralRows.ValueCell | auditoria/processors/excel/processor_anual_semestral/row_inserter.py:83-87 | the cell gets the amount exactly when the key exists; nothing else changes |
| AnualSemestralRows.InsertarValorCelda | auditoria/processors/excel/processor_anual_semestral/row_inserter.py:83-87 | the sheet becomes ValueCell of the old sheet |
| AnualSemestralRows.RowValuesCells | auditoria/processors/excel/processor_anual_semestral/row_inserter.py:71-81 | ANUAL writes the latest date to column 3 and the previous one to column 4; SEMESTRAL writes date i to column 3+i while within max_column; only existing keys are written |
| AnualSemestralRows.RowValuesMaxColumn | auditoria/processors/excel/processor_anual_semestral/row_inserter.py:71-81 | writing a row's values raises max_column only to an ANUAL value column |
| AnualSemestralRows.InsertarValoresFila | auditoria/processors/excel/processor_anual_semestral/row_inserter.py:71-81 | the sheet becomes the row of values computed on the old sheet |
| AnualSemestralRows.SectionStep | auditoria/processors/excel/processor_anual_semestral/row_inserter.py:40-50 | a row is inserted exactly when the current row has reached the limit, which then moves down by one |
| AnualSemestralRows.Section | auditoria/processors/excel/processor_anual_semestral/row_inserter.py:37-52 | the next row is start + number of accounts; the limit never decreases; with start ≤ limit the new limit is max(limit, start + n) |
| AnualSemestralRows.InsertarSeccionCuentas | auditoria/processors/excel/processor_anual_semestral/row_inserter.py:37-52 | the loop's sheet and returned rows are those Section specifies |
| AnualSemestralRows.SectionKeepsAbove | auditoria/processors/excel/processor_anual_semestral/row_inserter.py:37-52 | a section leaves every row above its first row as it was |
| AnualSemestralRows.SectionNames | auditoria/processors/excel/processor_anual_semestral/row_inserter.py:46 | the account names go to column B, in order, one per row |
| AnualSemestralRows.SectionShiftsBelow | auditoria/processors/excel/processor_anual_semestral/row_inserter.py:41-44 | the rows from the limit on move down together by the number of rows inserted |
| AnualSemestralRows.ResultadosNames | auditoria/processors/excel/processor_anual_semestral/row_inserter.py:65-69 | the income-statement accounts go to column B, in order, from the first row on |
| AnualSemestralRows.InsertarEstadoResultados | auditoria/processors/excel/processor_anual_semestral/row_inserter.py:54-69 | the sheet becomes the income-statement phase computed on the old sheet |
| AnualSemestralRows.InsertarPasivoYResultados | auditoria/processors/excel/processor_anual_semestral/row_inserter.py:22-35 | the sheet becomes the liabilities, equity and income-statement phases computed on the old sheet |
| AnualSemestralRows.InsertarCuentasEnHoja | auditoria/processors/excel/processor_anual_semestral/row_inserter.py:3-35 | the sheet becomes Hoja of the old sheet and its key rows |
| AnualSemestralRows.InsertarActivo | auditoria/processors/excel/processor_anual_semestral/row_inserter.py:10-16 | the assets are placed and the TOTAL ACTIVO row gets its sum formula over the asset rows; the returned row is the new limit |
| AnualSemestralRows.InsertarSeccionActivo | auditoria/processors/excel/processor_anual_semestral/row_inserter.py:11-14 | the asset accounts are placed as the assets phase says: from the row after BALANCE GENERAL, with TOTAL ACTIVO as the moving limit |
| AnualSemestralRows.TotalsMoveWithAssets | auditoria/processors/excel/processor_anual_semestral/row_inserter.py:18-20 | the assets phase carries TOTAL ACTIVO to the returned limit, and TOTAL PASIVO Y PATRIMONIO down by the same number of rows |
| SemestralDates.SearchDate | auditoria/processors/excel/sumaria/fechas.py:22-27 | the date after the leftmost "SEMESTRAL-" that a date shape follows; any result has the date shape and occurs after the prefix; none exactly when no position matches |
| SemestralDates.SearchDateOfKey | auditoria/processors/excel/sumaria/fechas.py:22-27 | a key that starts with "SEMESTRAL-" and a date yields that date |
| SemestralDates.Fechas | auditoria/processors/excel/sumaria/fechas.py:14-29 | strictly increasing, every entry date-shaped, holding exactly the dates some key yields |
| Sumaria.FechasIgnoresShapeless | auditoria/processors/excel/sumaria/fechas.py:25-27 | a key that holds no semi-annual date leaves the dates unchanged |
| Sumaria.FormatearFechaDdmmaa | auditoria/processors/excel/sumaria/fechas.py:36-40 | fails exactly when the text does not split into three fields on '-'; otherwise the three fields reversed, joined by '/' |
| Sumaria.FormatearIsoDate | auditoria/processors/excel/sumaria/fechas.py:36-40 | "YYYY-MM-DD" becomes "DD/MM/YYYY" |
| Sumaria.FormatearRoundTrip | auditoria/processors/excel/sumaria/fechas.py:39-40 | splitting the result on '/' and reversing the fields gives back the input |
| Sumaria.FirstRelatedEs | auditoria/processors/excel/sumaria/data_extraction.py:39-43 | the first entry whose trimmed lower-case name contains, or is contained in, the query, and none when there is no such entry |
| Sumaria.EncontrarAjuste | auditoria/processors/excel/sumaria/data_extraction.py:18-45 | nothing for a missing or empty map; an exact key first; otherwise the first related entry, and nothing exactly when no entry is related |
| Sumaria.EncontrarBlank | auditoria/processors/excel/sumaria/data_extraction.py:39-43 | a name that is blank once trimmed and is not a key picks the first entry |
| Sumaria.Parse | auditoria/processors/excel/sumaria/data_extraction.py:60-66 | a match starts with "SEMESTRAL-", the date group and "-section-" |
| Sumaria.ParseOfKey | auditoria/processors/excel/sumaria/data_extraction.py:60-66 | a key built from a date, a section not starting with a digit and a one-line account parses back into that date and account |
| Sumaria.EntriesFromKeys | auditoria/processors/excel/sumaria/data_extraction.py:62-69 | every entry comes from a matching key with that date and account and carries its value, and its date is listed |
| Sumaria.NestedLookup | auditoria/processors/excel/sumaria/data_extraction.py:59-71 | the result maps account, then date, to the value of the last key giving that pair |
| Sumaria.NestedHasKey | auditoria/processors/excel/sumaria/data_extraction.py:67-69 | the result holds an account exactly when some key gives it with a listed date |
| Sumaria.ObtenerTodasCuentasSeccion | auditoria/processors/excel/sumaria/data_extraction.py:52-71 | the loop builds the nested dictionary Nested specifies |
| Centralizadoras.ObtenerTodasFechasSemestrales | auditoria/processors/excel/centralizadoras/fechas.py:6-26 | the loop gives the sorted distinct dates that Fechas specifies |
| Centralizadoras.AccountName | auditoria/processors/excel/centralizadoras/fechas.py:41-46 | a key matches exactly when it starts with "SEMESTRAL-date-section-", and the name is the rest of its first line |
| Centralizadoras.AccountNameOfKey | auditoria/processors/excel/centralizadoras/fechas.py:41-46 | a key made of the prefix and a one-line account name gives that name back |
| Centralizadoras.FiltrarCuentasPorSeccion | auditoria/processors/excel/centralizadoras/fechas.py:28-49 | the loop builds the dict of the matching (name, value) pairs in iteration order |
| Centralizadoras.FiltrarGet | auditoria/processors/excel/centralizadoras/fechas.py:43-47 | a name maps to the value of the last key that gives it, and to nothing when no key does |
| Centralizadoras.OfYearMembers | auditoria/processors/excel/centralizadoras/fechas.py:62-67 | a year's list holds exactly the dates of that year, and is empty exactly when no date has that year |
| Centralizadoras.Padded | auditoria/processors/excel/centralizadoras/fechas.py:83-87 | a list shorter than 3 is padded to 3 by repeating its last element ("" for an empty list); the original entries stay first |
| Centralizadoras.Preparar | auditoria/processors/excel/centralizadoras/fechas.py:72-73 | an empty date list gives ([], "", "", "", {}); otherwise the header labels are those of the oldest and newest years |
| Centralizadoras.PrepararYears | auditoria/processors/excel/centralizadoras/fechas.py:70-77 | the oldest and newest years are years of the dates and bound every date's year |
| Centralizadoras.PrepararViejas | auditoria/processors/excel/centralizadoras/fechas.py:80-87 | the oldest year's dates come sorted and complete, then padded with their last one to at least 3 |
| Centralizadoras.PrepararReciente | auditoria/processors/excel/centralizadoras/fechas.py:90 | the newest date is the greatest date of the newest year |
| Centralizadoras.AgruparPorAno | auditoria/processors/excel/centralizadoras/fechas.py:62-67 | the loop groups each date under its year, in order |
| Centralizadoras.GroupedYears | auditoria/processors/excel/centralizadoras/fechas.py:70 | the sorted keys of the grouping are the sorted years of the dates |
| Centralizadoras.PrepararFechasExcel | auditoria/processors/excel/centralizadoras/fechas.py:51-100 | the procedure returns what Preparar specifies |
| Centralizadoras.InsertarFechasEnCeldas | auditoria/processors/excel/centralizadoras/fechas.py:102-112 | each label is written to its cell |
| Centralizadoras.HeadersWritten | auditoria/processors/excel/centralizadoras/fechas.py:93-98 | D12, E12 and F12 get Al 01/01, Al 31/07 and Al 31/12 of the oldest year, and I12 gets Al 31/12 of the newest; no other cell changes |
| SumariaDeteccion.OrdenSorted | auditoria/processors/excel/sumaria/deteccion.py:65 | the order tried holds exactly the entries of the keyword map, longest keyword first |
| SumariaDeteccion.KeywordHit | auditoria/processors/excel/sumaria/deteccion.py:65-67 | the first keyword, in that order, that occurs in the name, and none when none occurs |
| SumariaDeteccion.FirstHitLongest | auditoria/processors/excel/sumaria/deteccion.py:65-67 | the first hit in a longest-first list is a longest keyword that occurs |
| SumariaDeteccion.QuitarNumero | auditoria/processors/excel/sumaria/deteccion.py:62 | leading digits and the blanks after them are removed; a name not starting with a digit is unchanged; the result is a suffix of the name |
| SumariaDeteccion.FirstSumaria | auditoria/processors/excel/sumaria/deteccion.py:70 | the leftmost position where "SUMARIA" and a blank start, and none when there is none |
| SumariaDeteccion.Fallback | auditoria/processors/excel/sumaria/deteccion.py:70-71 | the fallback gives nothing exactly when "SUMARIA" followed by a blank never occurs |
| SumariaDeteccion.DeterminarLongest | auditoria/processors/excel/sumaria/deteccion.py:55-73 | a name holding a keyword yields the account of a longest keyword it holds; otherwise the result is the fallback |
| SumariaDeteccion.DeterminarPasivoLargoPlazo | auditoria/processors/excel/sumaria/deteccion.py:65-67 | a name holding "PASIVO LARGO PLAZO" yields "Pasivo Largo Plazo", not the account of "PASIVO" |
| SumariaDeteccion.PrimeraParcial | auditoria/processors/excel/sumaria/deteccion.py:106-112 | the first key, in iteration order, that starts with the prefix and whose name relates to the account, and none when there is none |
| SumariaDeteccion.BuscarParcial | auditoria/processors/excel/sumaria/deteccion.py:106-112 | the inner loop returns what PrimeraParcial specifies under the rule as written |
| SumariaDeteccion.VerificarCuentaEnBalances | auditoria/processors/excel/sumaria/deteccion.py:80-114 | the nested loops return the flag and the values Verificar specifies under the rule as written |
| SumariaDeteccion.VerificarExiste | auditoria/processors/excel/sumaria/deteccion.py:91-114 | the flag is true exactly when the returned values are not empty |
| SumariaDeteccion.VerificarFundado | auditoria/processors/excel/sumaria/deteccion.py:95-112 | every reported date was requested, and its value is that of a key with that date's prefix in one of the four sections |
| SumariaDeteccion.VerificarExacta | auditoria/processors/excel/sumaria/deteccion.py:97-101 | a requested date with an exact key in some section reports the value of the exact key in the last such section, whatever partial matches exist |
| SumariaDeteccion.NombreComoEscrito | auditoria/processors/excel/sumaria/deteccion.py:108 | as written, the name compared for a key is "day-section-account", not the account |
| SumariaDeteccion.SeccionComoCuenta | auditoria/processors/excel/sumaria/deteccion.py:108-109 | as written, an account named like its section matches, partially, every key of that section |
| SumariaDeteccion.VerificarComoEscrito | auditoria/processors/excel/sumaria/deteccion.py:108-112 | as written, balances holding only "Proveedores" under Pasivo report the account "Pasivo" present with that value |
| SumariaDeteccion.NombreTrasPrefijo | auditoria/processors/excel/sumaria/deteccion.py:108 | under the corrected rule the name compared is the account after the prefix |
| SumariaDeteccion.VerificarCorregido | auditoria/processors/excel/sumaria/deteccion.py:108-112 | under the corrected rule the same balances report nothing for "Pasivo" |
| SumariaDeteccion.VerificarCorregidoNombra | auditoria/processors/excel/sumaria/deteccion.py:95-112 | under the corrected rule a reported value belongs to a key of that prefix whose account is the requested one or relates to it |
| SumariaTabla.FilaConColumna | auditoria/processors/excel/sumaria/deteccion.py:134-141 | a row holds a marked cell in columns 1 to 14 exactly when the column search finds one |
| SumariaTabla.PrimeraFilaCon | auditoria/processors/excel/sumaria/deteccion.py:134-143 | the row search finds the first row of the range holding a marked cell, and none when there is none |
| SumariaTabla.ColumnasConEs | auditoria/processors/excel/sumaria/deteccion.py:161-166 | the date columns are exactly the marked columns, in increasing order |
| SumariaTabla.TablaSumariaTitulo | auditoria/processors/excel/sumaria/deteccion.py:133-146 | the title row is the first of rows 1 to 29 with a "SUMARIA" or "CEDULA" cell in columns 1 to 14 |
| SumariaTabla.TablaSumariaEncabezados | auditoria/processors/excel/sumaria/deteccion.py:148-159 | the header row is the first of the fifteen rows from the title on with a "SALDOS S/ BALANCE" cell, and data starts two rows below it |
| SumariaTabla.TablaSumariaFechas | auditoria/processors/excel/sumaria/deteccion.py:161-166 | the date columns are every header column of the header row, in increasing order, and there is at least one |
| SumariaTabla.TablaSumariaCuenta | auditoria/processors/excel/sumaria/deteccion.py:168-175 | the account column is the first column of the row below the headers naming "CUENTA" or "DESCRIPCIÓN", or none |
| SumariaTabla.TablaSumariaAusente | auditoria/processors/excel/sumaria/deteccion.py:145-159 | no table exactly when there is no title among rows 1 to 29, or no header in the fifteen rows from the first title |
| SumariaTabla.BuscarColumna | auditoria/processors/excel/sumaria/deteccion.py:135-141 | the column loop finds the first marked column from 1 to 14 |
| SumariaTabla.BuscarFila | auditoria/processors/excel/sumaria/deteccion.py:134-143 | the row loop finds the first row of the range with a marked cell |
| SumariaTabla.BuscarTablaSumaria | auditoria/processors/excel/sumaria/deteccion.py:121-185 | the procedure returns the table that TablaSumaria specifies |
| SaldosIniciales.AnualDesdeEs | auditoria/processors/excel/initial_balance_tests/data_extraction.py:5-10 | the scan finds the leftmost position where "ANUAL-" and a date start, and none when there is no such position |
| SaldosIniciales.FechaAnual | auditoria/processors/excel/initial_balance_tests/data_extraction.py:5-10 | the date found has the shape of a date |
| SaldosIniciales.FechaAnualEs | auditoria/processors/excel/initial_balance_tests/data_extraction.py:5-10 | the date found follows "ANUAL-" in the key; there is none exactly when the pattern matches nowhere |
| SaldosIniciales.FechaAnualDeClave | auditoria/processors/excel/initial_balance_tests/data_extraction.py:5-10 | a key that starts with "ANUAL-" and a date yields that date |
| SaldosIniciales.AnioDeFecha | auditoria/processors/excel/initial_balance_tests/data_extraction.py:11 | the first field of `split('-')` of a date is its first four characters |
| SaldosIniciales.Nueva | auditoria/processors/excel/initial_balance_tests/data_extraction.py:9-13 | a key yields at most one candidate, and a candidate is a date ending in "-12-31" |
| SaldosIniciales.Candidatas | auditoria/processors/excel/initial_balance_tests/data_extraction.py:8-13 | every candidate is a year-end date |
| SaldosIniciales.CandidatasEs | auditoria/processors/excel/initial_balance_tests/data_extraction.py:8-13 | a date is a candidate exactly when some key yields it and it ends in "12-31" |
| SaldosIniciales.PasoAnioEs | auditoria/processors/excel/initial_balance_tests/data_extraction.py:13-15 | one key keeps the loop's invariant: each stored year holds its one year-end date, which is never replaced |
| SaldosIniciales.PorAnioEs | auditoria/processors/excel/initial_balance_tests/data_extraction.py:6-15 | after the loop the stored years are those of the candidates, each with its year-end date |
| SaldosIniciales.UltimoDiaEs | auditoria/processors/excel/initial_balance_tests/data_extraction.py:17-21 | (None, None) without candidates; otherwise the greatest candidate and its year |
| SaldosIniciales.FechaUltimoDiaAnioReciente | auditoria/processors/excel/initial_balance_tests/data_extraction.py:3-21 | the loop and the final choice return what UltimoDia specifies |
| SaldosIniciales.SeccionYCuentaDeClave | auditoria/processors/excel/initial_balance_tests/data_extraction.py:26-30 | the key "ANUAL-date-section-account" gives back its section and its account |
| SaldosIniciales.CuentaBalanceEs | auditoria/processors/excel/initial_balance_tests/data_extraction.py:23-34 | exactly the four sections are present; in each, an account maps to the value of its last key; accounts of other sections are dropped |
| SaldosIniciales.ExtraerCuentasBalanceUltimoDia | auditoria/processors/excel/initial_balance_tests/data_extraction.py:23-34 | the loop builds what CuentasBalance specifies |
| SaldosIniciales.CuentaYFecha | auditoria/processors/excel/initial_balance_tests/data_extraction.py:42-45 | nothing exactly when the key holds no '-'; otherwise the account is the text before the first '-' and the date the text after it |
| SaldosIniciales.CuentaYFechaSplit | auditoria/processors/excel/initial_balance_tests/data_extraction.py:42-45 | these are the fields `partes[0]` and `'-'.join(partes[1:])` of the split |
| SaldosIniciales.CuentaYFechaDeClave | auditoria/processors/excel/initial_balance_tests/data_extraction.py:42-45 | the key "account-date" of an account without '-' gives both back |
| SaldosIniciales.PorCuentaEs | auditoria/processors/excel/initial_balance_tests/data_extraction.py:41-51 | an account is present exactly when it has records, with its dates assigned in key order |
| SaldosIniciales.MasRecientesEs | auditoria/processors/excel/initial_balance_tests/data_extraction.py:54-57 | each account with dates keeps the value at its greatest date; an account without dates is dropped |
| SaldosIniciales.SaldoInicialEs | auditoria/processors/excel/initial_balance_tests/data_extraction.py:36-57 | account by account: the value of its record at its greatest date; an account without records is absent |
| SaldosIniciales.TodasLasFechasEs | auditoria/processors/excel/initial_balance_tests/data_extraction.py:45-51 | the dates collected are exactly the text after the first '-' of every key holding one |
| SaldosIniciales.ExtraerCuentasSaldosIniciales | auditoria/processors/excel/initial_balance_tests/data_extraction.py:36-60 | the values are MasRecientes of the grouping; the date is the greatest date collected, or None when there is none |
| SaldosInicialesFormula.Paso | auditoria/processors/excel/initial_balance_tests/sheet_processing.py:176-185 | one step of the scan consumes at least one character and no more than remain |
| SaldosInicialesFormula.AjustarFormula | auditoria/processors/excel/initial_balance_tests/sheet_processing.py:167-189 | a value that is not a string starting with '=' comes back unchanged |
| SaldosInicialesFormula.AjustarFormulaCorregida | auditoria/processors/excel/initial_balance_tests/sheet_processing.py:167-189 | a value that is not a string starting with '=' comes back unchanged |
| SaldosInicialesFormula.OtroCaracter | auditoria/processors/excel/initial_balance_tests/sheet_processing.py:176-188 | a character that cannot start a reference is copied and the scan goes on after it |
| SaldosInicialesFormula.Referencia | auditoria/processors/excel/initial_balance_tests/sheet_processing.py:176-185 | a reference's row n becomes n + destino − origen, unless the corrected guard holds it because it follows '$' |
| SaldosInicialesFormula.DigitosCanonicos | auditoria/processors/excel/initial_balance_tests/sheet_processing.py:184-185 | `str(int(f))` gives back digits without a leading zero |
| SaldosInicialesFormula.PasoEnReferencia | auditoria/processors/excel/initial_balance_tests/sheet_processing.py:176-185 | a step over a reference emits its column part and its new row |
| SaldosInicialesFormula.SinDesplazamiento | auditoria/processors/excel/initial_balance_tests/sheet_processing.py:173-188 | a zero shift leaves the text unchanged when no row is written with a leading zero |
| SaldosInicialesFormula.MismaFila | auditoria/processors/excel/initial_balance_tests/sheet_processing.py:167-189 | a formula adjusted for its own row is the same formula, as written and corrected |
| SaldosInicialesFormula.EsFormula | auditoria/processors/excel/initial_balance_tests/sheet_processing.py:169-189 | a string starting with '=' has every reference shifted |
| SaldosInicialesFormula.AbsolutaComoEscrita | auditoria/processors/excel/initial_balance_tests/sheet_processing.py:176-182 | as written, the row of "=A$34" moves with destino: the '$' guard never holds |
| SaldosInicialesFormula.AbsolutaCorregida | auditoria/processors/excel/initial_balance_tests/sheet_processing.py:180-182 | with the guard on the column part, a row held with '$' stays where it is |
| SaldosInicialesFormula.RelativaCorregida | auditoria/processors/excel/initial_balance_tests/sheet_processing.py:183-185 | with the corrected guard, a row without '$' still follows the formula |
| SaldosInicialesEncabezados.PyInt | auditoria/processors/excel/initial_balance_tests/sheet_processing.py:21 | `int(s)` succeeds only on text that is not blank once stripped |
| SaldosInicialesEncabezados.PyIntNat | auditoria/processors/excel/initial_balance_tests/sheet_processing.py:21-22 | `int(str(n))` gives back n |
| SaldosInicialesEncabezados.FechaBalanceIso | auditoria/processors/excel/initial_balance_tests/sheet_processing.py:10-12 | a three-field balance date "YYYY-MM-DD" becomes "DD/MM/YYYY" |
| SaldosInicialesEncabezados.FechaSaldosIso | auditoria/processors/excel/initial_balance_tests/sheet_processing.py:18-19 | a three-field initial-balance date gives "01/01/" and its own year, whatever the balance date |
| SaldosInicialesEncabezados.FechaSaldosSiguiente | auditoria/processors/excel/initial_balance_tests/sheet_processing.py:20-22 | otherwise "01/01/" and the year after the balance year |
| SaldosInicialesEncabezados.FechaSaldosInvalida | auditoria/processors/excel/initial_balance_tests/sheet_processing.py:21-24 | a balance year that is not an integer leaves the placeholder "01/01/AAAA" |
| SaldosInicialesEncabezados.ReemplazoIdentico | auditoria/processors/excel/initial_balance_tests/sheet_processing.py:32 | replacing a text by itself changes nothing |
| SaldosInicialesEncabezados.SinFechaBalance | auditoria/processors/excel/initial_balance_tests/sheet_processing.py:13-14 | without a balance date a header keeps its "31/12/AAAA" placeholder |
| SaldosInicialesEncabezados.MarcasDistintas | auditoria/processors/excel/initial_balance_tests/sheet_processing.py:31-35 | neither placeholder occurs in the other |
| SaldosInicialesEncabezados.ReemplazoInicial | auditoria/processors/excel/initial_balance_tests/sheet_processing.py:32 | replacing at the head: "<pat><rest>" becomes the replacement followed by the replacement of the rest |
| SaldosInicialesEncabezados.ReemplazoPrimera | auditoria/processors/excel/initial_balance_tests/sheet_processing.py:35 | in "<ps> <pb>", replacing ps gives "<rep> <pb>" when pb does not hold ps |
| SaldosInicialesEncabezados.ReemplazoSegunda | auditoria/processors/excel/initial_balance_tests/sheet_processing.py:32 | in "<ps> <pb>", replacing pb gives "<ps> <rep>" when no character of "<ps> " starts pb |
| SaldosInicialesEncabezados.EncabezadoComoEscrito | auditoria/processors/excel/initial_balance_tests/sheet_processing.py:29-35 | as written, a cell "01/01/AAAA 31/12/AAAA" loses its balance date: the second write starts from the cell's original text |
| SaldosInicialesEncabezados.EncabezadoCorregido | auditoria/processors/excel/initial_balance_tests/sheet_processing.py:29-35 | corrected, both dates reach such a cell, provided the balance date does not itself hold the other placeholder |
| SaldosInicialesEncabezados.PasoEncabezadoCelda | auditoria/processors/excel/initial_balance_tests/sheet_processing.py:29-35 | visiting one cell changes that cell as NuevaCelda says (each placeholder present replaced in the cell's original text; with both present the "01/01/AAAA" write wins) and no other cell |
| SaldosInicialesEncabezados.EncabezadosFilaCelda | auditoria/processors/excel/initial_balance_tests/sheet_processing.py:28-35 | the inner loop turns columns c to 9 of its row into NuevaCelda of their old values and changes nothing else |
| SaldosInicialesEncabezados.EncabezadosDesdeCelda | auditoria/processors/excel/initial_balance_tests/sheet_processing.py:27-35 | the outer loop from row r turns rows r to 49, columns 1 to 9, into NuevaCelda of their old values and changes nothing else |
| SaldosInicialesEncabezados.EncabezadosCelda | auditoria/processors/excel/initial_balance_tests/sheet_processing.py:7-35 | every cell in rows 1 to 49, columns 1 to 9, becomes NuevaCelda of its old value with the formatted dates (as written: a cell holding both placeholders keeps "31/12/AAAA"); every other cell is unchanged |
| SaldosInicialesEncabezados.VisitarCelda | auditoria/processors/excel/initial_balance_tests/sheet_processing.py:29-35 | the loop body leaves the sheet as PasoEncabezado specifies |
| SaldosInicialesEncabezados.VisitarFila | auditoria/processors/excel/initial_balance_tests/sheet_processing.py:28-35 | the inner loop leaves the sheet as EncabezadosFila specifies |
| SaldosInicialesEncabezados.ReemplazarMarcas | auditoria/processors/excel/initial_balance_tests/sheet_processing.py:27-35 | the outer loop leaves the sheet as EncabezadosDesde specifies |
| SaldosInicialesEncabezados.ActualizarFechasEncabezados | auditoria/processors/excel/initial_balance_tests/sheet_processing.py:7-35 | the sheet after the call is Encabezados of the sheet before it |
| SaldosInicialesHoja.AlgunTextoEs | auditoria/processors/excel/initial_balance_tests/sheet_processing.py:163 | a text matches exactly when it holds the lower-cased form of one of the search texts |
| SaldosInicialesHoja.ColumnaConTexto | auditoria/processors/excel/initial_balance_tests/sheet_processing.py:157-165 | the column found lies in the range searched |
| SaldosInicialesHoja.ColumnaConTextoEs | auditoria/processors/excel/initial_balance_tests/sheet_processing.py:157-165 | the column found holds one of the texts and no column before it does; when none is found, no column in the range does |
| SaldosInicialesHoja.EncontrarColumnaPorTexto | auditoria/processors/excel/initial_balance_tests/sheet_processing.py:157-165 | the loop returns the first matching column of 1 to max_column, as ColumnaConTexto specifies |
| SaldosInicialesHoja.Ubicar | auditoria/processors/excel/initial_balance_tests/sheet_processing.py:48-72 | when it succeeds, the table row, header row and three columns are all in range |
| SaldosInicialesHoja.CuentasDeSolo | auditoria/processors/excel/initial_balance_tests/sheet_processing.py:75-78 | every account listed is a key of its section, with that section's balance, and none holds "inversiones" |
| SaldosInicialesHoja.CuentasDeTodas | auditoria/processors/excel/initial_balance_tests/sheet_processing.py:75-78 | every account of the section not holding "inversiones" is listed |
| SaldosInicialesHoja.TodasDesdeEs | auditoria/processors/excel/initial_balance_tests/sheet_processing.py:75-78 | an entry is listed exactly when it is an account of one of the four sections present, without "inversiones" |
| SaldosInicialesHoja.TodasSinInversiones | auditoria/processors/excel/initial_balance_tests/sheet_processing.py:75-78 | no listed account holds "inversiones", and each carries the balance of a section that has it |
| SaldosInicialesHoja.TodasCompletas | auditoria/processors/excel/initial_balance_tests/sheet_processing.py:75-78 | every account of the four sections without "inversiones" is listed |
| SaldosInicialesHoja.Libres | auditoria/processors/excel/initial_balance_tests/sheet_processing.py:85 | the count of empty account cells from row i to row 34 is at most 35 − i |
| SaldosInicialesHoja.CapturarPlantilla | auditoria/processors/excel/initial_balance_tests/sheet_processing.py:91-102 | the capture loop records the non-empty cells of row 34, formula or value, as PlantillaHasta specifies |
| SaldosInicialesHoja.CopiarCelda | auditoria/processors/excel/initial_balance_tests/sheet_processing.py:110-130 | copying one template cell keeps the sheet's width when the column is within it |
| SaldosInicialesHoja.CopiaAbsolutaDesplazada | auditoria/processors/excel/initial_balance_tests/sheet_processing.py:119-126 | as written, a template formula "=<letters>$34" reaches copied row dest as "=<letters>$<dest>": the row held with '$' is moved |
| SaldosInicialesHoja.CopiarFila | auditoria/processors/excel/initial_balance_tests/sheet_processing.py:110-130 | copying a row keeps the sheet's width |
| SaldosInicialesHoja.CopiarFilas | auditoria/processors/excel/initial_balance_tests/sheet_processing.py:108-130 | copying all new rows keeps the sheet's width |
| SaldosInicialesHoja.CopiarFilaCelda | auditoria/processors/excel/initial_balance_tests/sheet_processing.py:110-130 | a row copy fills columns col to maxc of the destination row as CeldaCopiada says (a template formula adjusted by AjustarFormula as written, a template value except in the three data columns) and changes nothing else |
| SaldosInicialesHoja.CopiarFilasCelda | auditoria/processors/excel/initial_balance_tests/sheet_processing.py:108-130 | the new rows 35 + i onwards get the template cell by cell as CeldaCopiada says, formulas adjusted as written; every other cell is unchanged |
| SaldosInicialesHoja.PrepararCelda | auditoria/processors/excel/initial_balance_tests/sheet_processing.py:89-130 | rows above 35 keep their cells; the new rows hold the copied template; the rows below are the old ones moved down by the number inserted |
| SaldosInicialesHoja.EscribirDatosCelda | auditoria/processors/excel/initial_balance_tests/sheet_processing.py:135-146 | the data loop from account k changes only rows from 29 + k down |
| SaldosInicialesHoja.SinTabla | auditoria/processors/excel/initial_balance_tests/sheet_processing.py:54-81 | without the table, its header row, one of the three columns, or any account, the sheet is unchanged |
| SaldosInicialesHoja.DatosEnFila | auditoria/processors/excel/initial_balance_tests/sheet_processing.py:136-146 | account k, one of the first 100, is written at row 29 + k: name, final balance, and its initial balance when it has one |
| SaldosInicialesHoja.CuentaEnFila | auditoria/processors/excel/initial_balance_tests/sheet_processing.py:46-146 | account k of the balance, one of the first 100, ends up at row 29 + k with its name, final balance and initial balance when known |
| SaldosInicialesHoja.FilasSuperiores | auditoria/processors/excel/initial_balance_tests/sheet_processing.py:46-146 | rows 1 to 28, above the data, are never changed |
| SaldosInicialesHoja.FilasSuperioresEn | auditoria/processors/excel/initial_balance_tests/sheet_processing.py:83-146 | once the columns are found, rows 1 to 28 are never changed |
| SaldosInicialesHoja.FilasInsertadas | auditoria/processors/excel/initial_balance_tests/sheet_processing.py:84-105 | rows are inserted only when the accounts outnumber the empty account cells of rows 29 to 34, and then exactly as many as are missing |
| SaldosInicialesHoja.CopiarCeldaEn | auditoria/processors/excel/initial_balance_tests/sheet_processing.py:111-130 | the loop body leaves the sheet as CopiarCelda specifies |
| SaldosInicialesHoja.CopiarFilaEn | auditoria/processors/excel/initial_balance_tests/sheet_processing.py:110-130 | the inner copy loop leaves the sheet as CopiarFila specifies |
| SaldosInicialesHoja.CopiarFilasEn | auditoria/processors/excel/initial_balance_tests/sheet_processing.py:108-130 | the outer copy loop leaves the sheet as CopiarFilas specifies |
| SaldosInicialesHoja.EscribirDatosEn | auditoria/processors/excel/initial_balance_tests/sheet_processing.py:135-146 | the data loop, stopping after 100 accounts, leaves the sheet as EscribirDatos specifies |
| SaldosInicialesHoja.UbicarEn | auditoria/processors/excel/initial_balance_tests/sheet_processing.py:48-72 | the searches return what Ubicar specifies |
| SaldosInicialesHoja.InsertarDatosEnHoja | auditoria/processors/excel/initial_balance_tests/sheet_processing.py:46-146 | the sheet after the call is InsertarDatos of the sheet before it |
| SaldosInicialesHoja.InsertarConEn | auditoria/processors/excel/initial_balance_tests/sheet_processing.py:74-146 | the rest of the procedure leaves the sheet as InsertarEn specifies |
| ComparativoFechas.Entrada | auditoria/processors/excel/comparative_actual_auxiliar/fechas.py:11-20 | a key contributes a record exactly when it has four '-' fields at least and strptime accepts its date, and that date is then a valid date |
| ComparativoFechas.Entradas | auditoria/processors/excel/comparative_actual_auxiliar/fechas.py:10-20 | one entry per key, in key order |
| ComparativoFechas.MaxClave | auditoria/processors/excel/comparative_actual_auxiliar/fechas.py:25 | `max(años.keys())` is a key of the dictionary and no key exceeds it |
| ComparativoFechas.ObtenerAnioMasReciente | auditoria/processors/excel/comparative_actual_auxiliar/fechas.py:3-27 | the loop and the choice after it return what AnioMasReciente specifies |
| ComparativoFechas.PosteriorTransitiva | auditoria/processors/excel/comparative_actual_auxiliar/fechas.py:17 | the order of dates is transitive |
| ComparativoFechas.AniosPorAnio | auditoria/processors/excel/comparative_actual_auxiliar/fechas.py:10-20 | a year has no record exactly when no key has a date in it; otherwise it holds the first record of its latest date |
| ComparativoFechas.Reemplaza | auditoria/processors/excel/comparative_actual_auxiliar/fechas.py:17-18 | a record strictly later than the best of its year becomes the best |
| ComparativoFechas.Mantiene | auditoria/processors/excel/comparative_actual_auxiliar/fechas.py:17 | a record no later than the best of its year, or of another year, leaves the best as it was |
| ComparativoFechas.NingunaFecha | auditoria/processors/excel/comparative_actual_auxiliar/fechas.py:10-23 | None exactly when no key carries a date strptime accepts |
| ComparativoFechas.MasReciente | auditoria/processors/excel/comparative_actual_auxiliar/fechas.py:22-27 | otherwise "TIPO-YYYY-MM-DD" of the first key holding the latest date of all: the greatest year, then the latest date in it |
| ComparativoFechas.MejorGlobalUnico | auditoria/processors/excel/comparative_actual_auxiliar/fechas.py:17-27 | only one record is the first to hold the latest date |
| ComparativoFechas.ClaveIso | auditoria/processors/excel/comparative_actual_auxiliar/fechas.py:11-18 | the key "TIPO-YYYY-MM-DD" of a valid date is read as that date and type, and is given back unchanged |
| ComparativoFechas.CuatroCampos | auditoria/processors/excel/comparative_actual_auxiliar/fechas.py:11-13 | four fields without '-', joined by '-', split back into themselves |
| Comparativo.Categoria | auditoria/processors/excel/comparative_actual_auxiliar/__init__.py:28 | a category name is found exactly when it is one of the four, at its index |
| Comparativo.Clasifica | auditoria/processors/excel/comparative_actual_auxiliar/__init__.py:25-29 | a key classifies into one of the four categories or nowhere |
| Comparativo.Clasificacion | auditoria/processors/excel/comparative_actual_auxiliar/__init__.py:18-29 | the classification has the four categories |
| Comparativo.Clasificar | auditoria/processors/excel/comparative_actual_auxiliar/__init__.py:25-29 | the classification loop builds what Clasificacion specifies |
| Comparativo.ClasificacionValores | auditoria/processors/excel/comparative_actual_auxiliar/__init__.py:25-29 | every category is a dictionary in which the last assignment to an account wins |
| Comparativo.ParesDe | auditoria/processors/excel/comparative_actual_auxiliar/__init__.py:25-29 | a pair reaches category k exactly when some key with that value classifies there |
| Comparativo.EscribirFilaEn | auditoria/processors/excel/comparative_actual_auxiliar/__init__.py:39-41 | the three cell assignments write one row as EscribirFila specifies |
| Comparativo.PasoEn | auditoria/processors/excel/comparative_actual_auxiliar/__init__.py:37-44 | one iteration leaves the sheet as the rows emitted so far say, with the row counter and the processed set in step |
| Comparativo.RecorrerEn | auditoria/processors/excel/comparative_actual_auxiliar/__init__.py:37-63 | one of the three loops writes its rows and stops exactly when the row counter passes 70 |
| Comparativo.CategoriaEn | auditoria/processors/excel/comparative_actual_auxiliar/__init__.py:34-54 | both loops of one category write their rows and stop exactly when the row counter passes 70 |
| Comparativo.PorCategoriasEn | auditoria/processors/excel/comparative_actual_auxiliar/__init__.py:33-54 | the loop over the categories writes their rows and stops exactly when the row counter passes 70 |
| Comparativo.ProcesarHoja | auditoria/processors/excel/comparative_actual_auxiliar/__init__.py:9-65 | the sheet after the procedure is Proceso of the sheet before it |
| Comparativo.ProcesarComparativo | auditoria/processors/excel/comparative_actual_auxiliar/__init__.py:4-65 | a workbook without worksheets is left alone; otherwise its first worksheet becomes Proceso of itself |
| Comparativo.EscribirFilasSnoc | auditoria/processors/excel/comparative_actual_auxiliar/__init__.py:39-43 | writing one more row writes it at the next row number |
| Comparativo.PasadoElFinal | auditoria/processors/excel/comparative_actual_auxiliar/__init__.py:43-44 | rows past row 70 change nothing |
| Comparativo.RecorrerCrece | auditoria/processors/excel/comparative_actual_auxiliar/__init__.py:37-63 | a loop only adds rows after those already written |
| Comparativo.Detener | auditoria/processors/excel/comparative_actual_auxiliar/__init__.py:43-44 | once a loop has passed row 70 after i accounts, it has written everything it will write |
| Comparativo.Mas | auditoria/processors/excel/comparative_actual_auxiliar/__init__.py:43-54 | a whole loop run after row 70 has been passed writes nothing |
| Comparativo.PorCategoriasCrece | auditoria/processors/excel/comparative_actual_auxiliar/__init__.py:33-54 | the category loop only adds rows after those already written |
| Comparativo.DetenerCategorias | auditoria/processors/excel/comparative_actual_auxiliar/__init__.py:43-54 | once the category loop has passed row 70, later categories write nothing |
| Comparativo.EnAux | auditoria/processors/excel/comparative_actual_auxiliar/__init__.py:38 | the accounts found in the auxiliary records are accounts of the category |
| Comparativo.NombresEs | auditoria/processors/excel/comparative_actual_auxiliar/__init__.py:37-52 | an account is among the names of a dictionary exactly when it is a key of it |
| Comparativo.UltimoNuevo | auditoria/processors/excel/comparative_actual_auxiliar/__init__.py:37 | in a dictionary, the last account is none of the earlier ones |
| Comparativo.RecorrerComunes | auditoria/processors/excel/comparative_actual_auxiliar/__init__.py:37-44 | the loop over accounts also in the auxiliary records adds their rows and records exactly them |
| Comparativo.RecorrerBalance | auditoria/processors/excel/comparative_actual_auxiliar/__init__.py:47-54 | the loop over balance-only accounts adds their rows and records every account of the category |
| Comparativo.EnAuxEs | auditoria/processors/excel/comparative_actual_auxiliar/__init__.py:38 | an account of the category is recorded as common exactly when the auxiliary records have it |
| Comparativo.CategoriaFilas | auditoria/processors/excel/comparative_actual_auxiliar/__init__.py:34-54 | both loops of a category add its rows, common ones first, and record all its accounts |
| Comparativo.CategoriasFilas | auditoria/processors/excel/comparative_actual_auxiliar/__init__.py:33-54 | the category loop adds the categories' rows in category order |
| Comparativo.AuxiliarFilas | auditoria/processors/excel/comparative_actual_auxiliar/__init__.py:57-63 | the last loop adds the auxiliary-only rows |
| Comparativo.FilasPlan | auditoria/processors/excel/comparative_actual_auxiliar/__init__.py:32-63 | the loops produce exactly the plan: the categories' rows, then the auxiliary-only rows |
| Comparativo.Balance | auditoria/processors/excel/comparative_actual_auxiliar/__init__.py:37-60 | an account no category holds has balance 0 |
| Comparativo.FiltroComunEs | auditoria/processors/excel/comparative_actual_auxiliar/__init__.py:37-44 | the common rows are distinct, are exactly the new accounts also in the auxiliary records, and carry both amounts |
| Comparativo.FiltroBalanceEs | auditoria/processors/excel/comparative_actual_auxiliar/__init__.py:47-54 | the balance-only rows are distinct, are exactly the new accounts absent from the auxiliary records, and carry 0 as auxiliary amount |
| Comparativo.FiltroAuxEs | auditoria/processors/excel/comparative_actual_auxiliar/__init__.py:57-63 | the auxiliary-only rows are distinct, are exactly the auxiliary accounts not yet written, and carry 0 as balance |
| Comparativo.NombresCatsEs | auditoria/processors/excel/comparative_actual_auxiliar/__init__.py:33-34 | an account belongs to the categories exactly when one of them holds it |
| Comparativo.CategoriaPlanEs | auditoria/processors/excel/comparative_actual_auxiliar/__init__.py:34-54 | one category's rows are new accounts only, each once, with that category's balance |
| Comparativo.PlanCategoriasEs | auditoria/processors/excel/comparative_actual_auxiliar/__init__.py:33-54 | the categories' rows hold each account of a category exactly once, with its balance and auxiliary amount |
| Comparativo.PlanEs | auditoria/processors/excel/comparative_actual_auxiliar/__init__.py:32-63 | every account of the classification or the auxiliary records has exactly one row, with its balance (else 0) and its auxiliary amount (else 0) |
| Comparativo.CeldaEscrita | auditoria/processors/excel/comparative_actual_auxiliar/__init__.py:39-61 | columns 2 to 4 of the rows written, up to row 70, hold the row's values; every other cell is unchanged |
| Comparativo.ProcesoCelda | auditoria/processors/excel/comparative_actual_auxiliar/__init__.py:4-65 | without a dated key the sheet is unchanged; otherwise columns 2 to 4 of rows 41 to 70 hold the plan's rows in order and nothing else changes |
| Ratios.ExtraerFechasAnuales | auditoria/processors/excel/ratios_financieros/data_extraction.py:1-9 | the loop's set, sorted, is Lex.SortedSet of the dates found |
| Ratios.FechasHalladasEs | auditoria/processors/excel/ratios_financieros/data_extraction.py:4-8 | a date is found exactly when some key is an annual key with that date |
| Ratios.FechasAnualesEs | auditoria/processors/excel/ratios_financieros/data_extraction.py:1-9 | the annual dates are sorted without repeats and are exactly the dates of the annual keys |
| Ratios.FechaDeClave | auditoria/processors/excel/ratios_financieros/data_extraction.py:5-7 | a key whose first fields are "ANUAL" and a date gives that date |
| Ratios.CubetaDe | auditoria/processors/excel/ratios_financieros/data_extraction.py:39-43 | Patrimonio and ESTADO DE RESULTADOS have their bucket whatever the type; Activo and Pasivo have one exactly when the type is "Corriente" or "No Corriente"; other sections have none |
| Ratios.Destino | auditoria/processors/excel/ratios_financieros/data_extraction.py:28-43 | a key that is sent somewhere has six fields at least, starts with "ANUAL", has one of the two chosen dates, and goes to that date and its sixth field as account |
| Ratios.SeisCamposFalla | auditoria/processors/excel/ratios_financieros/data_extraction.py:30-37 | as written, a six-field equity key of a chosen date raises IndexError, although equity ignores the type; corrected, it is filed |
| Ratios.ComoEscritoCorregido | auditoria/processors/excel/ratios_financieros/data_extraction.py:28-43 | where the code as written does not raise it agrees with the corrected step; it raises exactly on six-field annual keys of a chosen date |
| Ratios.Clasificacion | auditoria/processors/excel/ratios_financieros/data_extraction.py:15-26 | six buckets, each holding both chosen dates even when empty |
| Ratios.ClasificarCuentas | auditoria/processors/excel/ratios_financieros/data_extraction.py:11-45 | the loop, with the corrected type read, builds what Clasificacion specifies |
| Ratios.CubetaSnoc | auditoria/processors/excel/ratios_financieros/data_extraction.py:39-43 | one more key updates only the bucket and date it is sent to |
| Ratios.ParesDe | auditoria/processors/excel/ratios_financieros/data_extraction.py:28-43 | a pair reaches bucket k at a date exactly when some key with that value is sent there |
| Ratios.ClasificacionValores | auditoria/processors/excel/ratios_financieros/data_extraction.py:28-45 | looking an account up in a bucket gives the value of the last key sent there for it |
| RatiosInserter.Cantidad | auditoria/processors/excel/ratios_financieros/inserter.py:10-25 | the accounts written are all of them, or as many as the range has rows, and never run past its last row |
| RatiosInserter.EscribirCuentaEn | auditoria/processors/excel/ratios_financieros/inserter.py:27-40 | one iteration writes the row EscribirCuenta specifies |
| RatiosInserter.EscribirValoresEn | auditoria/processors/excel/ratios_financieros/inserter.py:33-40 | each date the section has writes its value column, the current year first |
| RatiosInserter.SiguienteEn | auditoria/processors/excel/ratios_financieros/inserter.py:22-40 | after account i, the sheet holds the rows of accounts 0 to i |
| RatiosInserter.InsertarCuentasEnRango | auditoria/processors/excel/ratios_financieros/inserter.py:5-40 | the sheet after the call is Insertar of the sheet before it |
| RatiosInserter.EnCuentasDeFecha | auditoria/processors/excel/ratios_financieros/inserter.py:14-18 | an account is collected for a date exactly when the section has that date and the account |
| RatiosInserter.CuentasEs | auditoria/processors/excel/ratios_financieros/inserter.py:13-20 | the accounts are sorted without repeats and are exactly those of either date |
| RatiosInserter.CeldaDeFila | auditoria/processors/excel/ratios_financieros/inserter.py:27-40 | writing one account's row changes only that row's name and value cells |
| RatiosInserter.CeldaEscrita | auditoria/processors/excel/ratios_financieros/inserter.py:22-40 | account i is written at row inicio + i; every other cell is unchanged |
| RatiosInserter.InsertarCelda | auditoria/processors/excel/ratios_financieros/inserter.py:5-40 | the first accounts that fit the range are written in sorted order, one per row; nothing else changes |
| RatiosInserter.ValorCero | auditoria/processors/excel/ratios_financieros/inserter.py:35-39 | a value column holds the account's value at that date, or 0 when the date lacks the account |
| ReemplazoXlsm.FiltrarEs | auditoria/excel_utils/shared_strings_replacer.py:74-84 | the filtered dictionary holds exactly the allowed keys, with their values |
| ReemplazoXlsm.FiltrarValida | auditoria/excel_utils/shared_strings_replacer.py:84 | the filtered dictionary has no key twice |
| ReemplazoXlsm.PrimerValor | auditoria/excel_utils/shared_strings_replacer.py:88-91 | the value found is `str` of the value of one of the keys tried, present with a str, int or float value |
| ReemplazoXlsm.PeriodoEs | auditoria/excel_utils/shared_strings_replacer.py:87-91 | the complete range wins over the short one; a key whose value has another type is passed over |
| ReemplazoXlsm.ValorEtiquetaEs | auditoria/excel_utils/shared_strings_replacer.py:95-96 | each label ends with its only colon, so its value is the label without the colon, then ": " and the period |
| ReemplazoXlsm.EtiquetaNoLiteral | auditoria/excel_utils/shared_strings_replacer.py:95-106 | no label is one of the default literals |
| ReemplazoXlsm.SoloPeriodoSinEtiqueta | auditoria/excel_utils/shared_strings_replacer.py:104 | a period without a label is only stripped |
| ReemplazoXlsm.SoloPeriodoConEtiqueta | auditoria/excel_utils/shared_strings_replacer.py:104 | a period that starts with "Período:" loses it |
| ReemplazoXlsm.AsignarEs | auditoria/excel_utils/shared_strings_replacer.py:95-106 | after the assignments a key holds the value last assigned to it, or its old value if none was |
| ReemplazoXlsm.ParesEtiquetas | auditoria/excel_utils/shared_strings_replacer.py:95-96 | one assignment per label, in order, each with its label's value |
| ReemplazoXlsm.ParesLiterales | auditoria/excel_utils/shared_strings_replacer.py:105-106 | one assignment per default literal, each with the same value |
| ReemplazoXlsm.UltimoDeClave | auditoria/excel_utils/shared_strings_replacer.py:95-106 | when the value assigned depends only on the key, the last value assigned to a key is that value |
| ReemplazoXlsm.FiltradosValida | auditoria/excel_utils/shared_strings_replacer.py:64-108 | the result has no key twice |
| ReemplazoXlsm.FiltradosOtra | auditoria/excel_utils/shared_strings_replacer.py:84-108 | keys other than the labels and literals, and every key when there is no period, are present exactly when allowed, with their value |
| ReemplazoXlsm.FiltradosEtiqueta | auditoria/excel_utils/shared_strings_replacer.py:93-96 | with a non-empty period, each of the four labels carries it after the label's own text |
| ReemplazoXlsm.FiltradosLiteral | auditoria/excel_utils/shared_strings_replacer.py:98-106 | with a non-empty period, each default literal is replaced by the period without its label |
| ReemplazoXlsm.AsignarEn | auditoria/excel_utils/shared_strings_replacer.py:95-106 | the assignment loop gives what Asignar specifies |
| ReemplazoXlsm.BuildFilteredReplacements | auditoria/excel_utils/shared_strings_replacer.py:64-108 | the three loops return what Filtrados specifies |
| ReemplazoXlsm.ContarCero | auditoria/excel_utils/shared_strings_replacer.py:51-52 | no occurrence is counted exactly when the key does not occur |
| ReemplazoXlsm.LongitudReemplazo | auditoria/excel_utils/shared_strings_replacer.py:51-53 | each occurrence replaced changes the length by the difference of the lengths |
| ReemplazoXlsm.PasoTextoEs | auditoria/excel_utils/shared_strings_replacer.py:45-54 | an entry with a non-empty key replaces every occurrence by `str` of its value and counts them; an empty key is skipped |
| ReemplazoXlsm.SinAciertosSinCambios | auditoria/excel_utils/shared_strings_replacer.py:44-56 | a part in which no replacement hit is left as it was |
| ReemplazoXlsm.SinClavesSinCambios | auditoria/excel_utils/shared_strings_replacer.py:44-56 | a part that holds none of the keys, with values that hold none of them, is left as it was with no hit |
| ReemplazoXlsm.ReemplazarTexto | auditoria/excel_utils/shared_strings_replacer.py:44-54 | the inner loop returns the new text and the hits as Reemplazar specifies |
| ReemplazoXlsm.ReplaceInXlsmSharedStrings | auditoria/excel_utils/shared_strings_replacer.py:8-62 | every part is copied in order; the shared-strings, worksheet and drawing parts get the replacements, the others are untouched |
| FormatoFechas.FormatearPartesComoEscrito | auditoria/excel_utils/date_formatter.py:37-55 | as written it fails (IndexError) exactly when the text splits into four fields |
| FormatoFechas.FormatearPartes | auditoria/excel_utils/date_formatter.py:47-55 | with fewer than five fields the text comes back unchanged |
| FormatoFechas.ComoEscritoCorregido | auditoria/excel_utils/date_formatter.py:47-55 | where the code as written returns, it agrees with the corrected function; it fails exactly on four fields |
| FormatoFechas.CuatroPartesFalla | auditoria/excel_utils/date_formatter.py:49-52 | four fields such as "1 de Enero 2024" pass the guard and raise IndexError |
| FormatoFechas.FormatearFecha | auditoria/excel_utils/date_formatter.py:47-53 | "D de M de Y" becomes the day padded to two digits, "de", the capitalised month, "de" and the year |
| FormatoFechas.PartesDelResultado | auditoria/excel_utils/date_formatter.py:50-53 | what the rewrite produces splits back into its five fields |
| FormatoFechas.CapitalizeIdempotent | auditoria/excel_utils/date_formatter.py:51 | capitalising twice changes nothing more |
| FormatoFechas.FormatearIdempotente | auditoria/excel_utils/date_formatter.py:47-55 | rewriting a rewritten date changes nothing more |
| FormatoFechas.ClaveIngles | auditoria/excel_utils/date_formatter.py:7-11 | the English month names are told apart by their first three letters |
| FormatoFechas.ClaveEspanol | auditoria/excel_utils/date_formatter.py:7-11 | so are the Spanish names, apart from the four that share a prefix with an English name |
| FormatoFechas.ReemplazoCentral | auditoria/excel_utils/date_formatter.py:28-29 | one replacement on "<pre><M><post>" touches only the month, when the pattern's first letter occurs nowhere else |
| FormatoFechas.PasoTraduccion | auditoria/excel_utils/date_formatter.py:27-29 | one step of the translation loop on "<pre><month><post>" turns the month into its next stage and leaves the rest |
| FormatoFechas.TraduccionCentral | auditoria/excel_utils/date_formatter.py:27-29 | the whole translation loop turns an English month name into Spanish and leaves everything around it unchanged |
| FormatoFechas.TraducirFecha | auditoria/excel_utils/date_formatter.py:23-29 | the translation loop turns any rendered date into its Spanish form |
| FormatoFechas.FormatearEspanol | auditoria/excel_utils/date_formatter.py:32-33 | the Spanish form of a date is left as it is by the rewrite |
| FormatoFechas.DefectoInicio | auditoria/excel_utils/date_formatter.py:23 | the default start "01 de Enero de 2024" is the Spanish form of 1 January 2024 |
| FormatoFechas.DefectoFin | auditoria/excel_utils/date_formatter.py:24 | the default end "31 de Diciembre de 2024" is the Spanish form of 31 December 2024 |
| FormatoFechas.TraducirDefecto | auditoria/excel_utils/date_formatter.py:23-29 | a default date is already Spanish: the translation loop leaves it unchanged |
| FormatoFechas.FormateadaEs | auditoria/excel_utils/date_formatter.py:23-33 | each audit date comes out as "DD de <Spanish month> de YYYY"; a missing date gives the default |
| FormatoFechas.FormatAuditDates | auditoria/excel_utils/date_formatter.py:13-35 | the start date, or 1 January 2024, and the end date, or 31 December 2024, in their Spanish form |
| VistasUtil.SplitWsChars | auditoria/views/utils.py:18 | the characters of the words are characters of the text |
| VistasUtil.SplitWsJoin | auditoria/views/utils.py:18 | splitting words joined by single spaces gives the words back |
| VistasUtil.JoinSinMayusculas | auditoria/views/utils.py:18 | lower-cased words joined hold no upper-case letter |
| VistasUtil.NormalizeTextPalabras | auditoria/views/utils.py:11-18 | the words of the result are the words of the lower-cased text |
| VistasUtil.NormalizeTextMinusculas | auditoria/views/utils.py:11-18 | the result holds no upper-case letter |
| VistasUtil.NormalizeTextIdempotente | auditoria/views/utils.py:11-18 | normalising twice changes nothing more |
| VistasUtil.Utf8 | auditoria/views/utils.py:132 | a character's UTF-8 encoding has one to four bytes |
| VistasUtil.Escapar | auditoria/views/utils.py:132 | escaping a character gives only safe characters and '%' |
| VistasUtil.QuoteSeguro | auditoria/views/utils.py:132 | a quoted string holds only safe characters and '%': no space, quote or backslash reaches the HTML attribute or the URL |
| VistasUtil.QuoteIdentidad | auditoria/views/utils.py:156 | a string of safe characters is quoted as itself |
| VistasUtil.IconoSinMayusculas | auditoria/views/utils.py:144-152 | the icon does not depend on the case of the name |
| VistasUtil.GenerarHtmlEstructura | auditoria/views/utils.py:117-185 | the loop with its recursive calls builds what Html specifies |
| VistasUtil.ArchivosHtml | auditoria/views/utils.py:117-185 | every file of the tree is shown exactly once, linked or locked |
| VistasUtil.HtmlEnvuelto | auditoria/views/utils.py:121-123 | an empty structure renders as nothing; any other as one list |
| VistasUtil.ArchivoEs | auditoria/views/utils.py:143-183 | a file is locked exactly when the user is not verified and it is not under one of the three open folders; it keeps its name and the icon of its extension |
| VistasUtil.UrlDescargaEs | auditoria/views/utils.py:155-157 | a download link points into the audit's download route and ends with the quoted file name |
| VistasUtil.IdCarpetaSegura | auditoria/views/utils.py:130-132 | a folder's id is "folder_" followed by its quoted path, made only of safe characters and '%' |
| MesesEntreFechas.MesDe | tools/utils.py:133-136 | the month of a month index is in 1..12 |
| MesesEntreFechas.Siguiente | tools/utils.py:136 | advancing one month is `relativedelta(months=1)`: December wraps to January of the next year |
| MesesEntreFechas.PrimeroNoPosterior | tools/utils.py:133 | the first day of month i is not after the end exactly when i is before the end's month, or is its month and the end is not earlier in its first day |
| MesesEntreFechas.GetAndYearMonthsBetweenDates | tools/utils.py:117-137 | two lists of the same length: the months and years from the start's month on, one per month, as many as Cantidad says |
| MesesEntreFechas.ListaExactamente | tools/utils.py:128-137 | a month is listed exactly when it is not before the start's month and its first day, at the start's time of day, is not after the end |
| MesesEntreFechas.MesesConsecutivos | tools/utils.py:134-136 | each next entry is the month after the previous one |
| MesesEntreFechas.PrimerMes | tools/utils.py:130-135 | the list starts with the start's own month and year |
| MesesEntreFechas.VaciaSiPosterior | tools/utils.py:130-133 | nothing is listed exactly when the first day of the start's month is after the end |
| Duraciones.Truncar | common/templatetags/filters.py:60-81 | `int(a / b)` truncates toward zero, for negative quotients too |
| Duraciones.Componentes | common/templatetags/filters.py:55-57 | the three `divmod`s split the seconds into days, hours, minutes and seconds that add back up, with hours, minutes and seconds in range |
| Duraciones.FormatDurationField | common/templatetags/filters.py:99-113 | None exactly for a unit other than "days", "seconds", "minutes" and "hours"; a duration returned always fits a `timedelta`; the only error is the OverflowError |
| Duraciones.CampoEs | common/templatetags/filters.py:106-113 | a known unit gives n times its seconds when that fits a `timedelta`, and the OverflowError when it does not |
| Duraciones.DiasEnRango | common/templatetags/filters.py:106-113 | n days fit exactly when -999999999 <= n <= 999999999; n hours fit exactly when the days they make up, rounded down, do |
| Duraciones.UnidadesProporcionales | common/templatetags/filters.py:106-113 | n days are 24n hours, 1440n minutes and 86400n seconds |
| Duraciones.DiasIdaYVuelta | common/templatetags/filters.py:94-113 | for every day count a `timedelta` holds, `format_duration_field(n, "days")` succeeds and the day number shown for it is `str(n)` |
| Duraciones.DiasPlural | common/templatetags/filters.py:59-60 | "days" mode ends with "días" unless the day count is exactly 1, and with "día" exactly then |
| Duraciones.TodoConDias | common/templatetags/filters.py:73-83 | "all" mode with a non-zero day count shows the days alone, as "days" mode does |
| Duraciones.TodoCero | common/templatetags/filters.py:83 | "all" mode of a zero duration prints "0 segundos" |
| Duraciones.TodoSinDias | common/templatetags/filters.py:73-83 | "all" mode under a day lists the non-zero hours, minutes and seconds in that order, comma-separated, each with its plural |
| Duraciones.OtroComoTexto | common/templatetags/filters.py:50-51 | a value that is not a duration comes back as its string |
| Migas.QuitarIzquierda | common/context_processors.py:14 | the result has no leading '/' and is a suffix of the text |
| Migas.QuitarDerecha | common/context_processors.py:14 | the result has no trailing '/' and is a prefix of the text |
| Migas.QuitarBarras | common/context_processors.py:14 | `strip("/")` leaves no '/' at either end |
| Migas.QuitarBarraInicial | common/context_processors.py:29 | a leading slash before a text with no slash at either end is stripped to that text |
| Migas.Crumbs | common/context_processors.py:55-62 | one crumb per segment |
| Migas.BreadcrumbsProcessor | common/context_processors.py:9-64 | the loop extending the URL and the list returns what Migas specifies |
| Migas.CrumbEn | common/context_processors.py:55-62 | crumb k has the readable name of segment k and links to the first k + 1 segments |
| Migas.MigasGenerales | common/context_processors.py:29-64 | outside the two superadmin cases there is one crumb per segment after "Inicio", each linking to its parent's URL plus its segment |
| Migas.MigasEmpiezanEnInicio | common/context_processors.py:11-64 | every trail starts at ("Inicio", "/") |
| Migas.UltimaMiga | common/context_processors.py:29-62 | the last crumb of a general trail links to the whole stripped path between slashes |
| Migas.DashboardSuperadmin | common/context_processors.py:14-18 | "/superadmin/dashboard" gives exactly Inicio and Dashboard |
| Migas.MigasRaiz | common/context_processors.py:29-62 | the root path gives a second crumb ("", "//") |
| Migas.GetIsActiveRoute | common/context_processors.py:67-86 | the two early tests and the segment search return what RutaActiva specifies |
| Migas.SegmentosRedundantes | common/context_processors.py:73-86 | the segment search never decides anything: a route equal to a segment is contained in the path and has already answered |
| Migas.RaizActiva | common/context_processors.py:67-86 | the root route is active only on a path made of slashes |
| Usuarios.ConRol | users/models.py:74-77 | a saved user always has a role: its own, or "auditor" when it had none; nothing else changes |
| Usuarios.AuditoresHastaEs | users/models.py:83-88 | the list holds, in increasing order, exactly the rows attached to the administrator |
| Usuarios.Desactivado | users/models.py:90-116 | deactivation keeps the number of rows |
| Usuarios.Reactivado | users/models.py:118-141 | reactivation keeps the number of rows |
| Usuarios.Tabla.Save | users/models.py:74-77 | saving a row stores it with its role filled in and touches no other row |
| Usuarios.Tabla.DeactivateUser | users/models.py:90-116 | returns True; the table becomes Desactivado with the given date, or the clock's reading when none is given |
| Usuarios.Tabla.ReactivateUser | users/models.py:118-141 | the table becomes Reactivado and the count returned is that of the auditors restored |
| Usuarios.BajaEnCascada | users/models.py:108-114 | each listed auditor not yet deleted is deleted on the given date; every other row is unchanged |
| Usuarios.AltaEnCascada | users/models.py:131-139 | each listed auditor that was deleted is restored and counted; every other row is unchanged |
| Usuarios.DesactivadoPaso | users/models.py:99-114 | the deactivation steps give the closed form Desactivado |
| Usuarios.ReactivadoPaso | users/models.py:125-139 | the reactivation steps give the closed form Reactivado |
| Usuarios.ContarEliminados | users/models.py:131-139 | the loop's count is the number of attached auditors that were deleted |
| Usuarios.ConRolIdempotente | users/models.py:74-77 | saving twice is saving once, and a saved user always has a role |
| Usuarios.SinAuditores | users/models.py:83-86 | a user that is not an administrator has no auditors |
| Usuarios.AuditoresEs | users/models.py:83-88 | the auditors of an administrator are exactly the rows attached to it, each once |
| Usuarios.DesactivadoEs | users/models.py:90-116 | the user is marked deleted on the date; for a group-mode administrator every attached auditor is deleted too, keeping the date of those already deleted; nothing else changes |
| Usuarios.ReactivadoEs | users/models.py:118-141 | the user is restored; for a group-mode administrator every attached auditor is restored too; nothing else changes |
| Usuarios.ReactivarTrasDesactivar | users/models.py:90-141 | reactivating a group-mode administrator right after deactivating it restores every one of its auditors and reports them all |
| MiddlewareDemo.AlgunPrefijoEs | users/middleware.py:93 | `any(startswith)` holds exactly when the path starts with one of the prefixes |
| MiddlewareDemo.DemoUserAccessEs | users/middleware.py:82-104 | a demo user goes on exactly when the path is one of the exact paths or under one of the prefixes, and is otherwise sent to the dashboard; anyone else always goes on |
| MiddlewareDemo.BajoPrefijo | users/middleware.py:71-93 | anything under an allowed prefix is open to a demo user |
| MiddlewareDemo.Barrido | users/middleware.py:138-148 | the sweep keeps the number of rows |
| MiddlewareDemo.CheckExpiredDemoUsers | users/middleware.py:131-148 | the loop retires each expired row in turn, giving what Barrido specifies |
| MiddlewareDemo.DemoUserExpiration.constructor | users/middleware.py:112-117 | building the middleware sweeps once and records the time of that sweep |
| MiddlewareDemo.DemoUserExpiration.Call | users/middleware.py:121-129 | more than an hour after the last sweep, the table is swept and the clock reset; otherwise nothing changes |
| MiddlewareDemo.BarridoEs | users/middleware.py:134-148 | the sweep retires exactly the not-deleted DEMO users who joined more than 120 hours ago, setting only the two saved fields, and leaves every other row alone |
| MiddlewareDemo.BarridoIdempotente | users/middleware.py:131-148 | a second sweep at the same time changes nothing, and after any sweep no expired account remains |
| MiddlewareDemo.BarridoConserva | users/middleware.py:139 | a sweep never brings a deleted account back |
| Notificaciones.NotificationStatus.Save | notifications/models.py:50-71 | the error is the first failing check; the row is written only when every check passes; a refused save leaves what is stored as it was |
| Notificaciones.NotificationStatus.ReadNotification | notifications/models.py:45-48 | the object is marked read at the given time, then saved under the same checks |
| Notificaciones.ValidarGuardadoEs | notifications/models.py:50-69 | a row can be written exactly when an auditor recipient is assigned, an audit_manager recipient manages the audit, and an auditor or audit_manager notifier writes to the other role |
| Notificaciones.AsignacionPrimero | notifications/models.py:51-57 | a recipient outside the audit is reported as such, whoever notifies |
| Notificaciones.ParejaValida | notifications/models.py:50-69 | a stored note from an auditor went to the audit's own manager; one from an audit_manager went to an auditor assigned to the audit |
| Notificaciones.MismoRolRechazado | notifications/models.py:60-69 | auditor to auditor and audit_manager to audit_manager are refused |
| TiemposModelos.AsignacionTalCualNoRechaza | tools/models.py:61-71 | as written the check lets everyone through, because a role object never equals a role name; an auditor not assigned to the audit is one it should stop |
| TiemposModelos.CheckIfAuditIsAssignedToAuditorEs | tools/models.py:61-71 | the intended check passes exactly when an audit_manager manages the audit and a supervisor or auditor is assigned to it; anyone else passes; a failure is UserUnauthorized |
| TiemposModelos.ReferenciaIdaYVuelta | tools/models.py:79-84 | the default reference is "Nom-" and the audit id with at least two digits, and reads back as that id |
| TiemposModelos.ReferenciaInyectiva | tools/models.py:79-84 | distinct audits get distinct default references |
| TiemposModelos.ReferenciaFinal | tools/models.py:79-84 | the reference a save leaves is never empty, and a given reference is kept |
| TiemposModelos.WorkingPapersStatus.Save | tools/models.py:73-86 | the save runs the assignment check as written (which refuses nobody), then the date rule; a refused save changes nothing; an accepted one stamps the update time, fills in the reference and stores the row |
| TiemposModelos.ValidarPapelesEs | tools/models.py:73-76 | as written, a working-papers row is stored exactly when its start is before its end, whoever saves it; otherwise the error is StartDateAfterEndDateError |
| TiemposModelos.SummaryHoursWorked.Save | tools/models.py:130-136 | the save runs the assignment check as written (which refuses nobody), then the hours rule; a refused save changes nothing; an accepted one stores the difference scheduled − worked, which squares with both, and the update time |
| TiemposModelos.AuditTimeSummary.Save | tools/models.py:176-183 | the save runs the assignment check as written (which refuses nobody), then the days rule; a refused save changes nothing; an accepted one stores the difference scheduled − worked, which squares with both, and the update time |
| TiemposModelos.ValidarResumenEs | tools/models.py:176-179 | as written, a day summary is stored exactly when the worked days do not exceed the scheduled days, whoever saves it; otherwise the error is TotalWorkedDaysHigherThanScheduledDaysError |
| TiemposModelos.ValidarHorasEs | tools/models.py:130-133 | as written, an hour summary is stored exactly when the worked hours do not exceed the scheduled hours, whoever saves it; otherwise the error is TotalWorkedHoursHigherThanScheduledHoursError |
| TiemposModelos.GuardarFila | tools/models.py:229-246 | an accepted save puts the row at its place, appending a new one |
| TiemposModelos.GuardarFilaUnica | tools/models.py:229-246 | an accepted save never breaks the uniqueness of (activity, month, year), and its month is in 1..12 |
| TiemposModelos.GuardarFilaNueva | tools/models.py:229-246 | a new row for an absent (activity, month, year) with a month in 1..12 is always accepted |
| TiemposModelos.TablaMeses.Save | tools/models.py:229-246 | the table becomes GuardarFila's result, or stays as it was with its error |
| TiemposModelos.ConFaltantes | tools/models.py:297-309 | creating the missing rows only adds rows |
| TiemposModelos.MesesDeActividad | tools/models.py:291-295 | the months and years of an activity are those the month enumeration returns |
| TiemposModelos.Activity.Save | tools/models.py:324-341 | a start not before the end is refused and nothing changes; otherwise the reference is filled in, the activity stored, and its month rows created and cleaned up |
| TiemposModelos.CrearFaltantes | tools/models.py:297-309 | the loop creates a zero-day row for every (month, year) of the activity that has none, as ConFaltantes specifies |
| TiemposModelos.DepurarFilas | tools/models.py:311-322 | the loop deletes the activity's rows whose month or year is not among the activity's, as Depurar specifies |
| TiemposModelos.ConFaltantesConserva | tools/models.py:297-309 | creation keeps every existing row in place |
| TiemposModelos.ConFaltantesCubre | tools/models.py:297-309 | after creation every (month, year) of the activity has a row |
| TiemposModelos.ConFaltantesUnica | tools/models.py:297-309 | creation adds no second row for any (activity, month, year) |
| TiemposModelos.ConFaltantesTotal | tools/models.py:307-309 | the created rows hold zero days, so every activity's total is unchanged |
| TiemposModelos.DepurarEs | tools/models.py:311-322 | a row survives the clean-up exactly when it belongs to another activity or both its month and its year occur in the activity's lists |
| TiemposModelos.MesYAnioPorSeparado | tools/models.py:317-320 | an illustration on one input: month and year are checked apart, so for an activity from November 2023 to February 2024 a row for November 2024 survives |
| TiemposModelos.TotalDiasSinFilas | tools/models.py:343-348 | the total days of an activity without rows is zero |
| TiemposModelos.TotalDiasNoNegativo | tools/models.py:343-348 | with no negative month total, the activity's total is not negative |
| TiemposServicios.ConvertDate | common/utils.py:22-30 | a converted date is a valid instant at midnight; a text not in "%Y-%m-%d" raises |
| TiemposServicios.SinVacio | tools/services.py:445-447 | an observation kept is never empty |
| TiemposServicios.ValidarResumenEntradaEs | tools/services.py:369-383 | the inputs pass exactly when all three are digit strings and the worked days do not exceed the scheduled days; the values are those of the strings |
| TiemposServicios.UpdateAuditTimeSummary | tools/services.py:361-396 | a failed check changes nothing; scheduled days beyond a `timedelta`'s range raise the OverflowError and change nothing; otherwise the fields are assigned and the save decides: refused, the object keeps the new values unstored; accepted, it is stored; as written, such an entry is always stored |
| TiemposServicios.ResumenGuardado | tools/services.py:382-391 | an update that passes the checks, with scheduled days a `timedelta` holds, is never refused by the save, whoever makes it, and the stored scheduled days read back through the day-number filter |
| TiemposServicios.ValidarHorasEntradaEs | tools/services.py:407-430 | the inputs pass exactly when all three are digit strings, the worked hours do not exceed the scheduled hours and the month exists; the values are those of the strings |
| TiemposServicios.UpdateSummaryHoursWorked | tools/services.py:399-455 | a failed check changes nothing; scheduled hours beyond a `timedelta`'s range raise the OverflowError and change nothing; otherwise the fields are assigned and the save decides whether the object is stored; as written, such an entry is always stored |
| TiemposServicios.HorasGuardadas | tools/services.py:432-449 | an update that passes the checks is never refused by the save, whoever makes it; it stores the hours as durations of that many hours and never keeps an empty observation |
| TiemposServicios.ValidarPapelesEntrada | tools/services.py:467-497 | inputs that pass have the start before the end and an existing status |
| TiemposServicios.UpdateStatusOfWorkPapers | tools/services.py:458-526 | a failed check, or an update equal to what is stored, changes nothing; otherwise the fields are assigned and the save decides whether the object is stored; as written, an entry that passes the checks never gets an error from the save |
| TiemposServicios.ValidarPapelesFechas | tools/services.py:479-497 | only "%Y-%m-%d" dates get past the conversion, and StartDateAfterEndDate is reported only when the start really is not before the end |
| TiemposServicios.SinCambiosEsIdentidad | tools/services.py:499-508 | an update whose values and observation equal the stored ones leaves the object exactly as it was |
| TiemposServicios.ValidarActividadEntrada | tools/services.py:793-824 | inputs that pass give valid start and end instants with the start before the end |
| TiemposServicios.UpdateActivity | tools/services.py:783-863 | a failed check, or an update that changes no field, changes nothing; otherwise the changed fields are assigned and the activity saved, its month rows synchronised |
| TiemposServicios.HayCambioEs | tools/services.py:826-857 | the activity is saved exactly when the update changes it, and an absent observation never replaces the stored one |
| TiemposServicios.FueraDeRangoTalCualNunca | tools/services.py:902 | as written the day-range test never holds: 32 days pass it, though the corrected test rejects them |
| TiemposServicios.ValidarTotalDiasEntrada | tools/services.py:880-908 | inputs that pass give a month in 1..12 and among the activity's months, a year among its years, and a day count of at most 31 and at most the month's length |
| TiemposServicios.TotalDiasMismoResultado | tools/services.py:879-908 | the checks with the day-range test as written give, for every input, the same result as with the corrected test: a count above 31 is refused by the month-length test with the same error |
| TiemposServicios.PrimeraFila | tools/services.py:910-915 | the row found belongs to that activity, month and year; none is found exactly when there is no such row |
| TiemposServicios.UpdateActivityTotalWorkedDays | tools/services.py:875-940 | a failed check changes nothing; zero days with no row writes nothing; with no row a new one is created; an equal total writes nothing; a different total is saved through the row's save |
| TiemposServicios.ActualizarFilaUnica | tools/services.py:933-935 | with one row per activity, month and year, the update of an existing row is never refused, so only the checks can fail |
| TiemposServicios.GetWorkingPapersTimeLineDic | tools/services.py:943-1044 | one entry per status, in table order, each with the status's name |
| TiemposServicios.ValorLineaEs | tools/services.py:943-1044 | a status is marked exactly when it is the current one or comes strictly earlier in the chain |
| TiemposServicios.LineaPrefijo | tools/services.py:943-1044 | the marked statuses form a prefix of the chain: whatever precedes a marked status is marked too |
| Catalogos.TablaMarcas.UpdateAuditMark | tools/services.py:554-588 | a refused update reports the first failing check and leaves the table as it was; an accepted one replaces row i by the three new values and changes no other row |
| Catalogos.ValidarMarcaEs | tools/services.py:558-580 | an audit-mark update is accepted exactly when name, description and image are all given and each is the mark's own or used by no mark |
| Catalogos.MarcaSinCambios | tools/services.py:565-586 | saving a mark with its own values again is accepted and leaves the table as it was |
| Catalogos.MarcasSiguenUnicas | tools/services.py:565-586 | an accepted update keeps names, descriptions and images unique across the marks |
| Catalogos.TablaMonedas.UpdateCurrencyType | tools/services.py:634-688 | a refused update reports the first failing check and leaves the table as it was; an accepted one replaces row i by the four new values and changes no other row |
| Catalogos.ValidarMonedaEs | tools/services.py:642-671 | a currency update is accepted exactly when the four values are given, the country exists, and name, code and country are each the currency's own or used by no currency |
| Catalogos.NombreAntesQuePais | tools/services.py:651-666 | a name clash is reported even for a country that does not exist, since the country is looked up after the name and code checks |
| Catalogos.MonedasSiguenUnicas | tools/services.py:651-684 | an accepted update keeps one currency per name, per code and per country, and the edited currency points at an existing country |

## Left out

- auditoria/static/js/auditoria_detalle.js: page behaviour in the browser (showing and hiding elements, one request) with no logic of its own.
- Files and the workbook libraries are not modelled.
  - `os.path.exists` and the template-path search enter `UrlsPrograms` as function parameters.
  - Zip and XML I/O of .xlsm packages is left out. Only the text replacement applied to each part's text is modelled.
  - Loading and saving workbooks and documents is left out.
- Styles, fonts, alignment and the style copying of inserted rows are not modelled. Cells are modelled by value only.
- Logging is not modelled. Exceptions are modelled only as the error value the code raises; the traceback and re-raising are not part of the model.
- Database queries are searches of sequences that stand for the tables, taken in table order. This includes the order `.first()` returns rows in.
  - Transactions and concurrent requests are not modelled.
  - A model object keeps its fields and the row last written.
- Clock reads are parameters: `timezone.now()` and `datetime.now()`.
  - MiddlewareDemo.Barrido: the sweep reads the clock once, while the source reads it again for each retired user. The saved deletion times can therefore differ by the time the sweep takes.
- The Unicode behaviour of `str` is reduced: `lower`, `upper`, `title` and `split` cover ASCII plus the Latin-1 letters and whitespace; `isdigit` (Text.IsDigit) covers only the ASCII digits '0' to '9', so the other characters Python's `isdigit` accepts, such as the superscripts '¹', '²' and '³', are not digits in the model.
  - VistasUtil.NormalizeText: the NFKD accent stripping of `normalize_text` is not modelled; only its lower-casing and whitespace collapsing are.
- Floats are not modelled.
  - Monetary amounts are `real`.
  - `format_duration` divides whole seconds with truncation toward zero, which is how `int()` treats the source's float quotient.
- `calendar.monthrange` is the Gregorian month length (`Calendario.DiasDelMes`). Time zones are not modelled; instants are UTC.
- Catalogos.TablaMonedas.UpdateCurrencyType: a country key that the database cannot read as a number raises `ValueError`; the model treats it like any missing country, as `InvalidCountryError`.
- The other `create_*` and `delete_*` services of tools/services.py are not part of this model. They are plain database inserts and deletions.
- Other helpers used only by the web layer are not part of this model:
  - `get_total_days_legible` and the per-month listing of tools/models.py;
  - `Notification.check_and_delete_if_done`;
  - `UserDeactivationMiddleware`;
  - the context processors other than the breadcrumbs and the active route;
  - the template filters other than the three duration filters;
  - `get_template_path` and the error-message helper of auditoria/views/utils.py.
- `buscar_fila_encabezado` of the initial-balance sheet processing is not part of this model. Only the package's entry point calls it.
- auditoria/processors/shared/urls_programs.py is modelled as written. At run time, the package directory of the same name (auditoria/processors/shared/urls_programs/) shadows it. That package's tables are modelled too (`AuditMappings`), and the lemmas relate the two copies.
- The internal-audit nomenclature table is modelled only as far as `get_nomenclature_config` reads it.
- Nomenclature.InternalAreasNested: the branch of the internal-area search for an area whose first value is not a dictionary (nomenclature_config.py:65-72) is never taken, because every area's first value is a dictionary. It is therefore stated as a lemma, not modelled as a separate outcome.

## Findings

| source | as written | input that shows it | evidently intended | confidence | as-written member | corrected member |
|---|---|---|---|---|---|---|
| auditoria/processors/excel/sumaria/deteccion.py:108 | the partial match compares the query with the key fields from index 3 on, which are "day-section-account", not with the account | balances {"SEMESTRAL-2024-06-30-Pasivo-Proveedores": 5}, account "Pasivo": "30-pasivo-proveedores" contains "pasivo", so the account is reported present | compare with the account name only, the fields after date and section | not executed | SumariaDeteccion.VerificarComoEscrito | SumariaDeteccion.VerificarCorregido |
| auditoria/processors/excel/initial_balance_tests/sheet_processing.py:176-182 | the absolute-row guard looks for '$' in the digit group, which never holds one, so a row held with '$' is shifted | formula "=A$34" moved from row 34 to row 36 becomes "=A$36" | a reference whose row is marked '$' keeps its row | not executed | SaldosInicialesFormula.AbsolutaComoEscrita | SaldosInicialesFormula.AbsolutaCorregida |
| auditoria/processors/excel/initial_balance_tests/sheet_processing.py:29-35 | both replacements start from the cell's original text, so in a cell holding both placeholders the second write discards the first | cell "01/01/AAAA 31/12/AAAA": the balance date is lost and only the initial-balance date is written | chain the two replacements so that both dates reach the cell | not executed | SaldosInicialesEncabezados.EncabezadoComoEscrito | SaldosInicialesEncabezados.EncabezadoCorregido |
| auditoria/processors/excel/ratios_financieros/data_extraction.py:30-37 | a key of 6 fields passes the length test, but the type is read from field 6, which raises IndexError | "ANUAL-2023-12-31-Patrimonio-Capital" for a chosen date 2023-12-31 | read the account type only when a seventh field exists; equity and results, which ignore the type, then file six-field keys too | not executed | Ratios.SeisCamposFalla | Ratios.ClasificarCuentas |
| auditoria/excel_utils/date_formatter.py:49-52 | the guard accepts 4 parts but the code reads parts[4], which raises IndexError | "1 de Enero 2024" (four space-separated parts) | require five parts before reading parts[4] | not executed | FormatoFechas.CuatroPartesFalla | FormatoFechas.FormatearPartes |
| tools/models.py:61-71 | the role object is compared with role names, which never equal it, so the check rejects nobody | an auditor not assigned to the audit passes the check | compare the role's name, so that an unassigned auditor or supervisor and a manager of another audit are refused | not executed | TiemposModelos.AsignacionTalCualNoRechaza | TiemposModelos.CheckIfAuditIsAssignedToAuditorEs |
| tools/services.py:902 | the day-range test joins "< 0" and "> 31" with `and`, so it never holds | a total of 32 days passes this test; the month-length test that follows still refuses it, so the outcome does not change | reject a day count below 0 or above 31 | not executed | TiemposServicios.FueraDeRangoTalCualNunca | TiemposServicios.ValidarTotalDiasEntrada |
