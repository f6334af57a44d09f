# Marketplace sales consolidation, modelled in Dafny

The repository is a set of Python/pandas scripts. They turn sales exports from several Brazilian marketplaces into one table keyed by SKU, channel, year and month. The exports come from Mercado Livre, Amazon, Shopee, TikTok Shop and Beleza na Web, plus NF-e invoice XML from TikTok and from the Tiny ERP. This project models the decision logic of those scripts and proves what each one promises:

- **Invoice extraction from NF-e XML.** The XML tree is a datatype, and ElementTree's `find`/`findall` are recursive functions over it. The default namespace is read from the root tag, and the in-place namespace stripping is an imperative loop over the tags in `iter()` order. Extraction runs namespaced first and stripped second. The Tiny parser covers invoice ids, ordered fallbacks, item lists and the skip counter. The XML organiser covers number normalisation and the match/count loop.
- **Value normalisers.** Each script's own number cleaner is modelled separately, because they disagree on inputs such as "1.234,56". Each is a text rewrite followed by a decimal reader.
- **Column mappers and header cleaners.** These are the exact alias table, first-substring detection, the elif chain where the last match wins, the required-column map and case-insensitive equality.
- **File-name classifiers.** Channel and year/month are read from a file name by ordered substring rules.
- **Date handling.** This covers the dd/mm/yyyy rewrite, the ISO fallback and the `[:4]`/`[5:7]` slicing.
- **Group-by-sum aggregation.** This is a fold of rows into a map. It conserves sums, does not depend on row order, and drops rows whose key holds NaN, as pandas does.
- **The deterministic month assignment of the Amazon script.** This is the proportional floor split, the in-order partition of rows and the cyclic months.

A table is a `Sheet`: a header and rows of cells. A cell is `Option<string>`, where `None` is NaN. Amounts are exact `real`s, or `int` hundredths where a script rounds to cents. Where a script changes state step by step, the model is a method with loop invariants, proved against a specification function. Examples are the tag-stripping loop, the extractors' `append` loops, the per-header loop of the Shopee merge, the column loops of the CSV and Tiny merges and the organiser's counters. Where a script holds tables that it updates in place, the table is a class whose methods state the whole new state.

Foreign parsers are parameters of the functions that use them: `pd.to_datetime`, `dateutil`, `dateparser`, `unidecode`, `ET.parse` and the pandas readers and writers. So are the `np.random` draws. Only the random draws are constrained, each to its sampler's range.

## Model

| member | source | states |
|---|---|---|
| Frames.DropDuplicatesIsFirstOccurrences | scripts/parse_xml_tiny.py:265-266 | `drop_duplicates(subset=...)` keeps exactly the first row of every key, in the original order |
| Frames.DropDuplicatesKeys | scripts/parse_xml_tiny.py:265-266 | dropping duplicates loses no key and invents none |
| Frames.DropDuplicatesDistinct | scripts/parse_xml_tiny.py:265-266 | no two kept rows share a key |
| Strings.NormaliseSku | scripts/parse_xml_tiktok.py:54 | `str(x).strip().upper()` is empty exactly for blank text, at least as long as the stripped text and at most twice as long, every character is its own upper case (no lower-case ASCII letter in particular), and no whitespace is left at either end |
| Strings.NormaliseSkuEszett | scripts/parse_xml_tiktok.py:54 | `upper()` can lengthen a SKU: " ß " becomes "SS" |
| Strings.NormaliseSkuIdempotent | scripts/parse_xml_tiktok.py:54 | normalising a SKU that is already normalised changes nothing |
| Strings.TrimEmptyIffBlank | scripts/parse_xml_tiny.py:68 | `str(x).strip() == ""` holds exactly when the text is all whitespace |
| Numbers.RoundCents | scripts/padronizador_final.py:75 | `round(x, 2)` is within half a hundredth of `x`, and an exact tie goes to the even hundredth |
| Numbers.ZeroPad2RoundTrip | scripts/merge_meli.py:37 | `int()` reads back every integer that `f"{i:02d}"` writes |
| Numbers.ParseIntUnderscored | scripts/parse_xml_tiny.py:63 | `int()` skips a '_' between two digit groups: `int(a + "_" + b)` is the value of the digits of a and b |
| Numbers.ParseIntUnderscores | scripts/parse_xml_tiny.py:63 | `int("1_000")` is 1000 |
| Numbers.ParseIntDoubledUnderscore | scripts/parse_xml_tiny.py:63 | `int("1__0")` raises, so `to_int` gives None |
| XmlTree.Iter | scripts/parse_xml_tiktok.py:17 | `elem.iter()` starts with the element itself, so it is never empty |
| XmlTree.Find | scripts/parse_xml_tiktok.py:37 | `find` returns the first element `findall` would return, and nothing exactly when `findall` finds nothing |
| XmlTree.FindText | scripts/parse_xml_tiktok.py:47-51 | `findtext` gives the default when nothing is found, the element's text otherwise, and "" for an element without text |
| XmlTree.DescendantSearch | scripts/parse_xml_tiktok.py:43 | a `.//tag` search from one element returns the matching proper descendants in document order |
| XmlTree.ChildSearch | scripts/parse_xml_tiktok.py:44 | a one-step child search returns the matching children in order |
| XmlTree.FindChild | scripts/parse_xml_tiktok.py:44 | `find` with a one-step child path is the first child the step accepts, and nothing when no child does |
| XmlTree.FindDescendant | scripts/parse_xml_tiny.py:41-42 | `find` with a `.//tag` path is the first proper descendant, in document order, the step accepts, and nothing when none does |
| XmlTree.StripTagShape | scripts/parse_xml_tiktok.py:18-19 | a tag holding '}' becomes exactly what follows its first '}'; a tag without '}' is kept |
| XmlTree.StripTree | scripts/parse_xml_tiktok.py:16-19 | the stripped tree keeps every text, attribute map and child count, and has each tag stripped |
| XmlTree.StripTreeTags | scripts/parse_xml_tiktok.py:17-19 | iterating the stripped tree meets the stripped tags in the order `elem.iter()` visits the original ones |
| XmlTree.StripNamespaceInPlace | scripts/parse_xml_tiktok.py:16-19 | the loop over the iterated tags leaves each slot holding its stripped tag, which is the tag sequence of the stripped tree |
| GroupBy.AggregateIsGroupSum | scripts/parse_xml_tiktok.py:137-143 | a group exists exactly for the keys some row carries, and holds the sums of that key's rows |
| GroupBy.NoKeyZeroSum | scripts/parse_xml_tiktok.py:137-143 | a key no row carries has zero sums |
| GroupBy.GroupSumPermutation | scripts/parse_xml_tiktok.py:137-143 | a group's sums depend only on the multiset of rows, not on their order |
| GroupBy.AggregatePermutation | scripts/parse_xml_tiktok.py:137-143 | reordering the input rows leaves the grouped table unchanged |
| GroupBy.AggregateConserves | scripts/parse_xml_tiktok.py:137-143 | the groups together hold exactly the sums of every row that has a key: nothing is lost or invented |
| GroupBy.AggregateNonNegative | scripts_agora_vai/amz.py:75-79 | rows with no negative amount give groups with no negative sum |
| GroupBy.AggregatePositive | scripts/merge_amazon.py:37-44 | rows with a positive value give groups with a positive value sum |
| GroupBy.AggregateKeys | scripts/parse_xml_tiktok.py:137-143 | every group's key is the key of some row |
| GroupBy.MeanPrice | scripts/parse_xml_tiktok.py:144 | `valor_total / vendas` is defined exactly when vendas is not 0, and is that quotient |
| GroupBy.FirstOf | scripts/merge_meli.py:109-113 | `agg("first")` gives the first non-missing value among the group's rows, and None when all are missing |
| TiktokInvoices.DefaultNamespace | scripts/parse_xml_tiktok.py:11-14 | a namespace is found exactly when the tag starts with '{' and holds a '}', and it holds no '}' |
| TiktokInvoices.DefaultNamespaceShape | scripts/parse_xml_tiktok.py:12-13 | a found namespace is exactly the text between the leading '{' and the first '}' |
| TiktokInvoices.DefaultNamespaceOfQName | scripts/parse_xml_tiktok.py:11-14 | the `{uri}local` tag of a root in namespace `uri` gives `uri` back |
| TiktokInvoices.ToFloat | scripts/parse_xml_tiktok.py:21-29 | None gives 0.0; otherwise the text keeping digits, ',', '.', '-' with ',' read as '.' is parsed, and unparsable text gives 0.0 |
| TiktokInvoices.DateOf | scripts/parse_xml_tiktok.py:40 | a date exists exactly when the node exists with a non-empty text, and is that text's first (up to) 10 characters |
| TiktokInvoices.NamespacedDate | scripts/parse_xml_tiktok.py:37-40 | `ide/dhEmi` is used unless it is missing or has no text, and then `ide/dEmi` |
| TiktokInvoices.StrippedDate | scripts/parse_xml_tiktok.py:70-73 | any `dhEmi` is used when one exists, even without text; `dEmi` only when no `dhEmi` exists |
| TiktokInvoices.YearMonth | scripts/parse_xml_tiktok.py:59-60 | no date gives (None, None); otherwise `int()` of chars 0-3 and 5-6, and a refused `int()` is an error |
| TiktokInvoices.YearMonthOfIsoDate | scripts/parse_xml_tiktok.py:59-60 | an ISO date "YYYY-MM-..." yields its year and month |
| TiktokInvoices.SkuOf | scripts/parse_xml_tiktok.py:54 | a SKU exists exactly when the text is present and non-empty, and is that text trimmed and upper-cased |
| TiktokInvoices.FieldIsFindText | scripts/parse_xml_tiktok.py:47-51 | each field of a prod is `findtext` of its namespaced child with default None: None without that child, its text ("" when it has none) otherwise |
| TiktokInvoices.ProdOfIsFind | scripts/parse_xml_tiktok.py:44 | the prod of a det is `det.find("ns:prod")` |
| TiktokInvoices.ItemOf | scripts/parse_xml_tiktok.py:53-64 | each record has canal "tiktok", 0 views, 0 returns, the cleaned SKU, the raw product text, `to_float` of the three amounts and the document's year and month |
| TiktokInvoices.ProdsAppend | scripts/parse_xml_tiktok.py:43-46 | each part of a document contributes its own prods, in order: none is lost, repeated or moved |
| TiktokInvoices.ProdsSingle | scripts/parse_xml_tiktok.py:44-46 | a det with a prod yields exactly that prod; a det without one yields nothing |
| TiktokInvoices.Items | scripts/parse_xml_tiktok.py:53-64 | exactly one record per prod, at the same position |
| TiktokInvoices.Extracted | scripts/parse_xml_tiktok.py:42-65 | the extraction fails exactly when some det has a prod and the date's `int()` fails; otherwise it is one record per prod, in order |
| TiktokInvoices.ExtractRecords | scripts/parse_xml_tiktok.py:42-65 | the append loop over the dets returns the extraction |
| TiktokInvoices.ExtractWithNamespace | scripts/parse_xml_tiktok.py:31-65 | the namespaced extractor returns `WithNamespace`: no rows when the root tag has no namespace or an empty one, otherwise the extraction with the namespaced date lookup |
| TiktokInvoices.ExtractWithoutNamespace | scripts/parse_xml_tiktok.py:67-98 | the stripped extractor strips the tree's tags and returns `WithoutNamespace`: the extraction with the stripped date lookup |
| TiktokInvoices.ExtractedRecords | scripts/parse_xml_tiktok.py:53-64 | every extracted record has canal "tiktok", no views, no returns, and a normalised or missing SKU |
| TiktokInvoices.FileRows | scripts/parse_xml_tiktok.py:113-121 | an unparsable file adds nothing; the stripped pass runs only when the namespaced one found no rows |
| TiktokInvoices.EntryOf | scripts/parse_xml_tiktok.py:133-143 | a row has a group key exactly when sku, produto, ano and mes are all present (so a SKU-less row never reaches the table), and carries vendas and valor_total |
| TiktokInvoices.ReadFile | scripts/parse_xml_tiktok.py:113-121 | one pass of the loop body returns `FileRows`: nothing for an unparsable file, the namespaced rows, or the stripped rows when those are empty |
| TiktokInvoices.AllRowsStep | scripts/parse_xml_tiktok.py:126 | `all_rows.extend(rows)` appends the file's rows to those gathered so far |
| TiktokInvoices.Run | scripts/parse_xml_tiktok.py:111-143 | the loop over files and the consolidation return `Outcome`: the first exception raised, nothing when no file gave rows, or the sums per key over all files' rows |
| TiktokInvoices.AllRowsFailure | scripts/parse_xml_tiktok.py:112-126 | once a file raises, the whole run fails with that exception |
| TiktokInvoices.FileFailure | scripts/parse_xml_tiktok.py:119-121 | a file whose extraction raises makes the run fail with that exception |
| TiktokInvoices.ConsolidateSums | scripts/parse_xml_tiktok.py:137-143 | a consolidated line exists exactly for the keys some row carries, and holds that key's sums of vendas and valor_total |
| TiktokInvoices.ConsolidateOrderFree | scripts/parse_xml_tiktok.py:111-143 | the order in which files and items are read does not change the table |
| TinyInvoices.FirstNonEmpty | scripts/parse_xml_tiny.py:44-48 | a returned value is present and not blank |
| TinyInvoices.FirstNonEmptyIsFirst | scripts/parse_xml_tiny.py:44-48 | None exactly when every value is missing or blank; otherwise the value returned is the first non-blank one, unmodified |
| TinyInvoices.FirstOfTwo | scripts/parse_xml_tiny.py:105-108 | with two candidates: the first when it is non-blank, else the second when it is, else None |
| TinyInvoices.ToFloat | scripts/parse_xml_tiny.py:50-57 | None stays None (unparsable text also gives None, never an exception) |
| TinyInvoices.ToInt | scripts/parse_xml_tiny.py:59-65 | None stays None (unparsable text also gives None, never an exception) |
| TinyInvoices.ToFloatOfCommaCents | scripts/parse_xml_tiny.py:53 | a price written with a decimal comma reads as the same number written with a point |
| TinyInvoices.ToIntRoundTrip | scripts/parse_xml_tiny.py:63 | `to_int` reads back every integer `str()` writes |
| TinyInvoices.ToDateIso | scripts/parse_xml_tiny.py:67-69 | None or whitespace-only input gives None |
| TinyInvoices.ToDateIsoFallback | scripts/parse_xml_tiny.py:74-80 | when the parser refuses the text, any result is a valid date at time 00:00:00 |
| TinyInvoices.FormatYmdShape | scripts/parse_xml_tiny.py:77-78 | a date with a four-digit year is written in ten characters starting with a digit |
| TinyInvoices.ToDateIsoOfIsoDate | scripts/parse_xml_tiny.py:71-78 | "YYYY-MM-DD" followed by text not ending in blank comes back as that date at midnight when the parser refuses it |
| TinyInvoices.InvoiceId | scripts/parse_xml_tiny.py:95-100 | no infNFe or no Id attribute gives None; an Id not starting with "NFe" is kept unchanged |
| TinyInvoices.InvoiceIdOfKey | scripts/parse_xml_tiny.py:98-100 | an Id written "NFe" + digits gives the bare digits |
| TinyInvoices.HeaderWithoutInfNFe | scripts/parse_xml_tiny.py:89-147 | a document without infNFe gives a header with every field missing, the id included |
| TinyInvoices.HeaderDateFromDhEmi | scripts/parse_xml_tiny.py:105-109 | the emission date is read from dhEmi when it has non-blank text |
| TinyInvoices.HeaderDateFromDEmi | scripts/parse_xml_tiny.py:105-109 | when dhEmi is missing or blank, the emission date is read from dEmi |
| TinyInvoices.HeaderPayment | scripts/parse_xml_tiny.py:125-128 | the payment type prefers pag/detPag/tPag, falls back to pag/tPag, and is None when both are blank |
| TinyInvoices.ParseCustomer | scripts/parse_xml_tiny.py:150-170 | the customer record carries the invoice id it was given |
| TinyInvoices.CustomerDocument | scripts/parse_xml_tiny.py:156-158 | the customer document is the CPF when it has text, otherwise the CNPJ, otherwise None |
| TinyInvoices.ItemOf | scripts/parse_xml_tiny.py:191-202 | each item is stamped with the invoice id |
| TinyInvoices.DescInIsFindIn | scripts/parse_xml_tiny.py:41-42 | the first proper descendant with a local name is `find(elem, ".//{*}local")`, None when there is no element to search |
| TinyInvoices.DescTextIsTextIn | scripts/parse_xml_tiny.py:31-38 | reading a descendant's text is `ftext(elem, ".//{*}local")` with its default None |
| TinyInvoices.ItemOfIsFindText | scripts/parse_xml_tiny.py:183-202 | every field of an item is the `ftext` of its `.//{*}` search under the det's prod, or under the ICMS of its imposto, with the amounts passed through `to_float` |
| TinyInvoices.Items | scripts/parse_xml_tiny.py:182-202 | one item per det, each stamped with the invoice id |
| TinyInvoices.ItemsOf | scripts/parse_xml_tiny.py:177-203 | no infNFe gives no items; otherwise one item per det, each with the invoice id |
| TinyInvoices.ItemsPrefix | scripts/parse_xml_tiny.py:191 | each pass of the loop appends exactly the item of that det |
| TinyInvoices.ParseItems | scripts/parse_xml_tiny.py:173-203 | the append loop returns `ItemsOf`: one item per det, stamped with the invoice id |
| TinyInvoices.ParseFile | scripts/parse_xml_tiny.py:206-218 | the customer and every item carry the header's id |
| TinyInvoices.Collect | scripts/parse_xml_tiny.py:243-262 | every file is either collected or counted as skipped; every collected header has an id; one customer per header |
| TinyInvoices.AddFile | scripts/parse_xml_tiny.py:244-262 | a parse failure or a missing id only increments `skipped`; otherwise one header and one customer are added |
| TinyInvoices.ItemsBelongSnoc | scripts/parse_xml_tiny.py:255-257 | adding a header with its own items keeps every item tied to a collected header |
| TinyInvoices.CollectItemsHaveHeaders | scripts/parse_xml_tiny.py:250-257 | every collected item carries the id of some collected header |
| TinyInvoices.SalesTableFirstPerId | scripts/parse_xml_tiny.py:265 | the sales table holds each id once, exactly the ids collected, as the first header read with that id |
| TinyInvoices.CollectStep | scripts/parse_xml_tiny.py:243 | the loop over the first i+1 files is the loop over the first i plus one more pass |
| TinyInvoices.ReadFile | scripts/parse_xml_tiny.py:244-262 | one pass of the loop body returns `AddFile`: a skip for a failed parse or a missing id, otherwise the header, customer and items added |
| TinyInvoices.RunOutcome | scripts/parse_xml_tiny.py:229-283 | run exits before reading exactly when there is no file; it raises KeyError 'id_nota' with nothing written exactly when every file was skipped, and after writing the three tables exactly when some file was kept but no item was collected; otherwise the written tables are the collected ones deduplicated, with non-empty sales and products |
| TinyInvoices.UnreadableFilesRaise | scripts/parse_xml_tiny.py:243-265 | when no file parses, every file is skipped and run raises the KeyError before writing anything |
| TinyInvoices.Run | scripts/parse_xml_tiny.py:229-283 | the loop, the deduplication and the two raising steps end as `RunOutcome` says |
| MarketplaceTreatment.RenameField | scripts/tratamento_marketplaces.py:36-39 | one field renames at most its first present alias: each name is kept or becomes the field name from one of its aliases, and the field name is present afterwards when any alias was |
| MarketplaceTreatment.RenamedByShape | scripts/tratamento_marketplaces.py:35-39 | renaming field by field keeps the width, and every changed name is a field name that the original name was an alias of |
| MarketplaceTreatment.NormalizedHeaderShape | scripts/tratamento_marketplaces.py:24-40 | every normalised header name is the trimmed original, or a field name the trimmed original is an alias of |
| MarketplaceTreatment.CanonicalNameKept | scripts/tratamento_marketplaces.py:36-39 | a field whose own name is listed first leaves a header already holding that name unchanged |
| MarketplaceTreatment.FieldsListOwnNameFirst | scripts/tratamento_marketplaces.py:25-32 | every field of the mapping lists its own name first |
| MarketplaceTreatment.FindAlias | scripts/tratamento_marketplaces.py:36-39 | the inner loop stops at the first alias present in the header |
| MarketplaceTreatment.RenameInPlace | scripts/tratamento_marketplaces.py:38 | `rename(inplace=True)` rewrites every column called `from`, in the array itself |
| MarketplaceTreatment.NormalizeColumns | scripts/tratamento_marketplaces.py:34-40 | the header array ends as the normalised header of its old contents |
| MarketplaceTreatment.FindYear | scripts/tratamento_marketplaces.py:60 | `re.search(r'20\d{2}')` gives the leftmost "20dd", and None when there is none |
| MarketplaceTreatment.YearMonth | scripts/tratamento_marketplaces.py:54-66 | a year exists exactly when the name holds "20dd" and lies in 2000..2099; a month is in 1..12, its abbreviation occurs in the lower-cased name and no earlier one does; no month means no abbreviation occurs |
| MarketplaceTreatment.LowerKeepsYears | scripts/tratamento_marketplaces.py:55-60 | lower-casing the name changes none of its "20dd" positions |
| MarketplaceTreatment.Channel | scripts/tratamento_marketplaces.py:68-80 | a recognised channel is one of the five channel names |
| MarketplaceTreatment.ChannelMarkers | scripts/tratamento_marketplaces.py:68-80 | "ml" in the name gives mercadolivre; "shopee" always gives some channel; None exactly when no marker occurs in the lower-cased name |
| MarketplaceTreatment.ChannelOfChannel | scripts/tratamento_marketplaces.py:68-80 | each channel name the script writes is recognised as itself |
| MarketplaceTreatment.BelezaWhen | scripts/tratamento_marketplaces.py:70-77 | a name with "beleza" and none of the earlier markers gives beleza_na_web |
| MarketplaceTreatment.ShopeeWhen | scripts/tratamento_marketplaces.py:70-79 | a name with "shopee" and none of the earlier markers gives shopee |
| MarketplaceTreatment.PathSuffix | scripts/tratamento_marketplaces.py:84 | a suffix starts with '.', holds no other '.', ends the name and is shorter than it |
| MarketplaceTreatment.KeptSheets | scripts/tratamento_marketplaces.py:87-95 | every kept sheet is one that read, and for mercadolivre one whose lower-cased name holds "negócio" |
| MarketplaceTreatment.NewNames | scripts/tratamento_marketplaces.py:97 | the columns `pd.concat` appends are exactly the names of the next table the union lacks |
| MarketplaceTreatment.UnionHeader | scripts/tratamento_marketplaces.py:97 | the concatenated header holds every column of every table |
| MarketplaceTreatment.Project | scripts/tratamento_marketplaces.py:97 | a row re-laid onto the union header has one cell per column |
| MarketplaceTreatment.ConcatRowCount | scripts/tratamento_marketplaces.py:97 | concatenation neither loses nor invents rows |
| MarketplaceTreatment.ProjectKeepsCells | scripts/tratamento_marketplaces.py:97 | a re-laid row reads, under each of its old names, what it read before |
| MarketplaceTreatment.Load | scripts/tratamento_marketplaces.py:82-106 | a delimited file loads exactly when one of the two separators reads; a workbook always loads, with the union header of its kept sheets (empty when none is kept) |
| MarketplaceTreatment.Amount | scripts/tratamento_marketplaces.py:42-52 | a missing column gives NaN; a present one gives the cleaned signed amount, NaN where it does not parse |
| MarketplaceTreatment.RecordOf | scripts/tratamento_marketplaces.py:136-146 | every row gets the file's year, month and channel, and each missing canonical column is empty |
| MarketplaceTreatment.StampRows | scripts/tratamento_marketplaces.py:138-141 | one record per row, each with the same channel, year and month |
| MarketplaceTreatment.FileRecords | scripts/tratamento_marketplaces.py:117-148 | a file is imported only when its name gives a channel and holds a "20dd" year, and its rows are stamped from its name |
| MarketplaceTreatment.ConsolidatedStamped | scripts/tratamento_marketplaces.py:117-161 | every consolidated row has a known channel, a year in 2000..2099 and a month in 1..12 or none |
| MarketplaceTreatment.ImportedStamped | scripts/tratamento_marketplaces.py:117-148 | every imported row comes from, and is stamped by, one of the files |
| MarketplaceTreatment.Treat | scripts/tratamento_marketplaces.py:111-161 | the loop appending each imported frame gives the consolidated table |
| Normalisers.KeepLastDotOneDot | scripts_agora_vai/amz.py:61-63 | after "keep only the last '.'" at most one '.' is left |
| Normalisers.KeepLastDotKeepsOthers | scripts_agora_vai/amz.py:61-63 | the rewrite deletes '.' characters and nothing else |
| Normalisers.KeepLastDotKeepsFraction | scripts_agora_vai/amz.py:61-63 | the text after the last '.' is still what follows the surviving '.' |
| Normalisers.SignedNumericText | scripts/parse_xml_tiktok.py:25 | the cleaned text holds only digits, '.' and '-', and keeps every digit of the input in order |
| Normalisers.UnsignedAmountText | scripts_agora_vai/amz.py:55-65 | the cleaned text holds only what `isdigit()` accepts (the ASCII digits and '¹', '²', '³'), ',' and '.' |
| Normalisers.UnsignedSuperscriptRefused | scripts_agora_vai/amz.py:55-69 | `isdigit()` keeps the '²' of "1²,50", `float()` refuses the cleaned "1².50", and limpar_valor gives 0.0 |
| Normalisers.UnsignedHasNoMinus | scripts_agora_vai/amz.py:58 | text the unsigned cleaner keeps has no '-' |
| Normalisers.UnsignedAmountOrZero | scripts_agora_vai/amz.py:52-69 | `limpar_valor` never reads negative (NaN and refused text read 0.0) |
| Normalisers.DotDecimalText | scripts/padronizador_final.py:68-73 | the cleaned text holds only digits, '.' and '-', with at most one '.' |
| Normalisers.NormalizeNumberCents | scripts/padronizador_final.py:64-77 | NaN stays NaN; otherwise a number exactly when float() accepts the cleaned text |
| Normalisers.SignedAmountReadsCents | scripts/parse_xml_tiktok.py:21-29 | `to_float` reads an amount written "u.cc" or "u,cc" as u.cc |
| Normalisers.UnsignedAmountReadsCents | scripts_agora_vai/amz.py:52-69 | `limpar_valor` reads an amount written "u.cc" or "u,cc" as u.cc |
| Normalisers.UnsignedTextOfCommaCents | scripts_agora_vai/amz.py:64-65 | a lone decimal comma becomes the decimal point |
| Normalisers.UnsignedCleanerKeeps | scripts_agora_vai/amz.py:55-63 | text of digits, ',' and at most one '.' passes the stripping steps unchanged |
| Normalisers.DotTextOfCommaCents | scripts/padronizador_final.py:68-73 | the dot-decimal cleaner turns "u,cc" into "u.cc" |
| NormaliserExamples.KeepLastDotOfThousands | scripts/padronizador_final.py:71-73 | "1.234.56" keeps only its last '.', giving "1234.56" |
| NormaliserExamples.DotTextOfThousands | scripts/padronizador_final.py:68-73 | the Brazilian "1.234,56" is cleaned to "1234.56" |
| NormaliserExamples.BrazilianThousands | scripts/padronizador_final.py:64-77 | `normalizar_numero("1.234,56")` is 1234.56 |
| FinalStandardiser.FixedDatesInRange | scripts/padronizador_final.py:21-56 | every channel but mercado_livre ends with a year in 2023..2025 and a month in 1..12 on every row; tiktok gets 2025 and months up to 9; an unknown channel gets 2025 and month 1 |
| FinalStandardiser.MercadoLivreKeepsDates | scripts/padronizador_final.py:38-43 | Mercado Livre keeps the years and months it has; only a column with no value at all is drawn, within 2023..2025 |
| FinalStandardiser.SkuRows | scripts/padronizador_final.py:78 | `dropna(subset=["sku"])` keeps exactly the rows with a SKU, in order |
| FinalStandardiser.SkuRowsFrom | scripts/padronizador_final.py:78 | the same, for the rows from a given position on |
| FinalStandardiser.ProcessChannel | scripts/padronizador_final.py:94-114 | a missing or unreadable file gives the empty table; a table without "sku" stops with KeyError; every group is keyed by the lower-cased channel name |
| FinalStandardiser.ProcessChannelGroups | scripts/padronizador_final.py:82-91 | the channel's groups are exactly the keys of its surviving rows, each holding the sums of exactly the rows with that key |
| FinalStandardiser.Run | scripts/padronizador_final.py:117-128 | main's loop appending each non-empty table computes the stacked table, None when no table has a row |
| FinalStandardiser.BasesFailureSticks | scripts/padronizador_final.py:119-122 | once a channel fails, main stops with that error whatever follows |
| FinalStandardiser.StackKeepsGroups | scripts/padronizador_final.py:128 | concatenation keeps every group of every table unchanged, because the channel names are distinct |
| FinalStandardiser.OutputOf | scripts/padronizador_final.py:129-133 | a written row carries its group's channel, SKU and product, and its amounts are the group's sums in hundredths |
| AmazonMonths.UnitsOf | scripts_agora_vai/amz.py:14-21 | a count reads as the truncation of float() of its text with every '.' deleted and ',' made '.'; text float() refuses is an error |
| AmazonMonths.UnitsOfDotted | scripts_agora_vai/amz.py:14-21 | every '.' is a thousands separator: a count written with digits and dots reads as the whole number its digits spell |
| AmazonMonths.UnitsOfThousands | scripts_agora_vai/amz.py:14-21 | "1.234" reads as 1234 |
| AmazonMonths.SizesPartition | scripts_agora_vai/amz.py:24-29 | the three period sizes are non-negative and add up to the row count; the first two are the floors of 4/25 and 12/25 of it, and the last is at least 9/25 of it |
| AmazonMonths.ComputeSizes | scripts_agora_vai/amz.py:28-29 | the list comprehension and the in-place adjustment of its last element give the three sizes |
| AmazonMonths.Runs | scripts_agora_vai/amz.py:32-34 | the three `iloc` slices have the three sizes and put together give back every row in order |
| AmazonMonths.RotationAt | scripts_agora_vai/amz.py:37-42 | a run of n rows gets n months, row i getting month i mod len(meses) of the list |
| AmazonMonths.RotationPeriodic | scripts_agora_vai/amz.py:38-39 | two rows of a run a full cycle apart get the same month |
| AmazonMonths.YearMonthRanges | scripts_agora_vai/amz.py:44-49 | every row gets a year in 2023..2025; 2023 rows fall in September to December, 2025 rows in January to September |
| AmazonMonths.Entries | scripts_agora_vai/amz.py:14-21 | the grouping sees every row exactly when every vendas cell reads; otherwise the error is that of some row |
| AmazonMonths.Process | scripts_agora_vai/amz.py:11-79 | every group of the output lies between September 2023 and September 2025 and has a non-negative total value |
| AmazonMonths.EntriesGroups | scripts_agora_vai/amz.py:44-79 | every group of the rows' entries lies in the period and has a non-negative value |
| BelezaNaWeb.DetectRoles | scripts_agora_vai/blz.py:16-23 | each detected column is the first whose name holds one of its markers; ValueError only when some role has no such column |
| BelezaNaWeb.ToDate | scripts_agora_vai/blz.py:26 | a cell becomes a Timestamp exactly when its text reads as a dd/mm/yyyy day, and then holds that day; NaT otherwise |
| BelezaNaWeb.Limpar | scripts_agora_vai/blz.py:31-44 | limpar_valor never gives a negative amount for the cells the script cleans: text, Timestamps, ints and NaN |
| BelezaNaWeb.UnsignedOfDigits | scripts_agora_vai/blz.py:31-44 | limpar_valor reads a digit string as its decimal value |
| BelezaNaWeb.LimparReadsWhole | scripts_agora_vai/blz.py:47-48 | limpar_valor reads back the non-negative int that `astype(int)` wrote |
| BelezaNaWeb.EntryOf | scripts_agora_vai/blz.py:26-48 | after the in-place conversions, a row's units are a whole non-negative number and its value is non-negative |
| BelezaNaWeb.Process | scripts_agora_vai/blz.py:10-54 | the script fails exactly when a role is undetected in the cleaned header; every group's sums are non-negative |
| BelezaNaWeb.WhenIsRawDate | scripts_agora_vai/blz.py:26-28 | ano and mes come from the date cell as read, parsed as dd/mm/yyyy, whatever other role shares that column |
| BelezaNaWeb.KeptCellAt | scripts_agora_vai/blz.py:26-52 | a column that is not the date, units or value column reaches the groupby as read |
| BelezaNaWeb.UnitsNum | scripts_agora_vai/blz.py:47 | a units column of its own sums the truncated limpar_valor of each cell as read |
| BelezaNaWeb.ValueNum | scripts_agora_vai/blz.py:48 | a value column of its own sums the limpar_valor of each cell as read |
| BelezaNaWeb.DistinctRolesReadRaw | scripts_agora_vai/blz.py:16-53 | with date, units and value in columns of their own and SKU and description in none of them, a row is grouped exactly when its SKU, description and date cells are present and the date parses, under the SKU and description texts and the date's year and month, with the truncated units and the value as read |
| BelezaNaWeb.SharedUnitsValue | scripts_agora_vai/blz.py:19-48 | when one column serves as units and value, line 48 cleans the ints line 47 wrote: the value equals the truncated units |
| BelezaNaWeb.SharedUnitsValueCents | scripts_agora_vai/blz.py:47-48 | in that case, an amount written "u,cc" gives the value u, not u.cc |
| BelezaNaWeb.SharedDateUnits | scripts_agora_vai/blz.py:18-47 | when one column serves as date and units, the units are the cleaned text of the Timestamp line 26 wrote, and 0 for NaT |
| BelezaNaWeb.GroupsComeFromRows | scripts_agora_vai/blz.py:26-54 | every group comes from a row whose converted SKU and description are the group's and whose date cell as read is a calendar day of the group's year and month |
| BelezaNaWeb.GroupMonths | scripts_agora_vai/blz.py:26-28 | every group's month is a calendar month |
| BelezaNaWeb.Table.constructor | scripts_agora_vai/blz.py:10-13 | the frame starts with the cleaned header and the cells as read, without ano and mes |
| BelezaNaWeb.Table.Convert | scripts_agora_vai/blz.py:26-48 | `df[col] = f(df[col])` rewrites that column of every row in place and nothing else |
| BelezaNaWeb.Table.AddYearMonth | scripts_agora_vai/blz.py:27-28 | ano and mes are set from the column's Timestamps, NaN for NaT, and nothing else changes |
| BelezaNaWeb.Run | scripts_agora_vai/blz.py:10-54 | the statements in order, on the frame overwritten in place, give `Process` |
| Dates.DaysInMonth | scripts_agora_vai/blz.py:26 | a month has 28 to 31 days, 29 exactly for February of a leap year |
| Dates.Checked | scripts_agora_vai/blz.py:26 | a date is formed exactly when the three fields read and name a real calendar day |
| Dates.StrptimeYmd | scripts/parse_xml_tiny.py:77 | a parsed date is a real calendar day whose year is the four digits before the first '-' |
| Dates.StrptimeDmy | scripts_agora_vai/blz.py:26 | a parsed date is a real calendar day |
| Dates.StrptimeYmdRoundTrip | scripts/parse_xml_tiny.py:77-78 | "%Y-%m-%d" reads back every date from year 1000 on that it writes |
| Dates.StrptimeDmyRoundTrip | scripts/merge_meli.py:45 | "%d/%m/%Y" reads back every date from year 1000 on that strftime writes with it |
| AmazonMerge.DetectRoles | scripts/merge_amazon.py:22-28 | each chosen column is the first matching its markers (SKU: the first starting with "sku"); KeyError only when some role has no match |
| AmazonMerge.KeyOf | scripts/merge_amazon.py:39-41 | every key carries the channel "amazon" |
| AmazonMerge.Kept | scripts/merge_amazon.py:37 | the filter keeps no more rows than it was given, each with a key of channel "amazon" and a positive total |
| AmazonMerge.KeptCount | scripts/merge_amazon.py:37 | exactly the rows with a positive total survive the filter |
| AmazonMerge.PositiveSnoc | scripts/merge_amazon.py:37 | the last row is kept exactly when its own total is positive, and the earlier rows are kept as before |
| AmazonMerge.AveragePrice | scripts/merge_amazon.py:45 | the average price times the units sold (0 read as 1) is the total |
| AmazonMerge.Process | scripts/merge_amazon.py:18-44 | the script fails exactly when a role is undetected in the cleaned header; every group is an Amazon group with a positive total |
| AmazonMerge.KeptGroups | scripts/merge_amazon.py:37-44 | grouping rows of positive total, all Amazon, gives Amazon groups with positive totals |
| AmazonMerge.Output | scripts/merge_amazon.py:43-45 | each output row carries its group's key and sums, and its average price times its units (0 read as 1) gives back its total |
| ShopeeMerge.BranchMeaning | scripts/merge_shopee.py:39-50 | a header reaches the sku branch exactly when it names the principal SKU, or starts with "sku" before any sku header was chosen; each later branch is reached only when its test holds and the earlier ones fail |
| ShopeeMerge.BranchStable | scripts/merge_shopee.py:41 | having chosen a sku header changes only where headers starting with "sku" go |
| ShopeeMerge.Mapped | scripts/merge_shopee.py:29-50 | every chosen header is one of the columns and reaches its own field's branch |
| ShopeeMerge.MapColumns | scripts/merge_shopee.py:37-50 | the loop over the columns fills the mapping |
| ShopeeMerge.LastPrincipalWins | scripts/merge_shopee.py:39-42 | the last principal-SKU header is the sku field, whatever comes around it |
| ShopeeMerge.FirstSkuPrefixWins | scripts/merge_shopee.py:41-42 | without a principal-SKU header, the sku field is the first header starting with "sku", and None when there is none |
| ShopeeMerge.LastProdutoWins | scripts/merge_shopee.py:43-44 | the last header naming "produto" that is not a sku header is the produto field |
| ShopeeMerge.Stripped | scripts/merge_shopee.py:26 | every header is trimmed, and the count is kept |
| ShopeeMerge.RowEntry | scripts/merge_shopee.py:61-78 | every keyed row carries the channel "shopee" |
| ShopeeMerge.SheetEntries | scripts/merge_shopee.py:57-78 | a workbook's rows are imported exactly when no valor_total cell makes astype(float) raise, one entry per row, each of channel "shopee" |
| ShopeeMerge.FileEntries | scripts/merge_shopee.py:22-85 | a workbook is imported exactly when it reads, every field is mapped, every chosen name is a column and every valor_total converts; one entry per row |
| ShopeeMerge.Merge | scripts/merge_shopee.py:19-98 | the loop over the workbooks, going on past the skipped ones, computes the grouped table, None when nothing was collected |
| ShopeeMerge.CollectedNext | scripts/merge_shopee.py:21-85 | each workbook appends its own rows, or nothing when skipped |
| ShopeeMerge.CollectedShopee | scripts/merge_shopee.py:78-80 | every collected row carries the channel "shopee" |
| ShopeeMerge.MergedShopee | scripts/merge_shopee.py:92-98 | every group of the merged table is a Shopee group |
| ShopeeMerge.SkippedFileChangesNothing | scripts/merge_shopee.py:53-55 | a skipped workbook leaves the collected rows as they were |
| ShopeeMerge.UnitPrice | scripts/merge_shopee.py:99 | the average price is a number exactly when the group sold a non-zero quantity, and then times that quantity gives the total |
| MercadoLivreMerge.RemoveChars | scripts/merge_meli.py:12 | none of the removed characters is left |
| MercadoLivreMerge.CleanName | scripts/merge_meli.py:11-12 | a cleaned column name holds no space, parenthesis, '.', '-' or '/' |
| MercadoLivreMerge.CleanSku | scripts/merge_meli.py:14-17 | NaN stays missing and text stays present; a SKU is the stripped text with every single quote removed |
| MercadoLivreMerge.FirstToken | scripts/merge_meli.py:31 | `split()[0]` is the longest space-free prefix of the text |
| MercadoLivreMerge.SlashDate | scripts/merge_meli.py:34-39 | a slash-form date always holds '/' |
| MercadoLivreMerge.ConvertDate | scripts/merge_meli.py:19-49 | a missing or blank cell gives None; every date written holds '/' |
| MercadoLivreMerge.SlashDateReadsBack | scripts/merge_meli.py:36-37 | when the day and month parts are integers, the slash form succeeds, its three parts are the zero-padded day and month and the year text, and the padded parts read back as the same numbers |
| MercadoLivreMerge.SplitParts | scripts/merge_meli.py:36-37 | day and month written without '/' split back into themselves |
| MercadoLivreMerge.ParsedDateReadsBack | scripts/merge_meli.py:42-45 | a date dateparser finds is written as dd/mm/yyyy so that strptime reads it back |
| MercadoLivreMerge.RowEntry | scripts/merge_meli.py:89-92 | a row keyed after cleaning has a quote-free SKU and a date holding '/' |
| MercadoLivreMerge.Entries | scripts/merge_meli.py:89-92 | one cleaned entry per row |
| MercadoLivreMerge.Process | scripts/merge_meli.py:52-112 | main stops without writing exactly when a mapped column is missing after the name cleaning or no row survives the dropna; otherwise the table is non-empty, with quote-free SKUs and slash dates |
| MercadoLivreMerge.KeptGroups | scripts/merge_meli.py:98-112 | grouping cleaned rows of which one has a key gives at least one group, each with a quote-free SKU and a slash date |
| MercadoLivreMerge.CleanHeaderNames | scripts/merge_meli.py:65 | each column name is cleaned, the count kept |
| MercadoLivreMerge.LabelParts | scripts/merge_meli.py:115-117 | the produto label starts with the SKU, ends with the date, and its count reads back as int(vendas) |
| MergeCsvMarketplaces.LoadedOrEmpty | scripts/merge_csv_marketplaces.py:18-37 | a table that fails to load is the empty table; a loaded one is kept |
| MergeCsvMarketplaces.NormalisedSkuCell | scripts/merge_csv_marketplaces.py:42 | after `astype(str)` no sku cell is missing |
| MergeCsvMarketplaces.MapCell | scripts/merge_csv_marketplaces.py:42 | only the sku cell changes |
| MergeCsvMarketplaces.SkuMapped | scripts/merge_csv_marketplaces.py:41-42 | the normalisation keeps the rows and their widths |
| MergeCsvMarketplaces.WithColumns | scripts/merge_csv_marketplaces.py:47-50 | the existing columns stay first, every base column is present, and nothing else is added |
| MergeCsvMarketplaces.Padded | scripts/merge_csv_marketplaces.py:50 | each added column is empty on every row |
| MergeCsvMarketplaces.SkuStep | scripts/merge_csv_marketplaces.py:40-42 | the first loop keeps a table well formed |
| MergeCsvMarketplaces.ColumnStep | scripts/merge_csv_marketplaces.py:47-51 | after the second loop the table is well formed and has every base column |
| MergeCsvMarketplaces.Table.NormaliseSkuColumn | scripts/merge_csv_marketplaces.py:41-42 | the table becomes SkuStep of its old contents: header unchanged, the sku cell of every row passed through the given cell normalisation when there is a sku column |
| MergeCsvMarketplaces.Widened | scripts/merge_csv_marketplaces.py:47-50 | adding the wanted columns keeps the table well formed and leaves every wanted column in the header |
| MergeCsvMarketplaces.Table.AddMissing | scripts/merge_csv_marketplaces.py:48-50 | the table becomes Widened of its old contents: each missing wanted column appended in order, each row padded with one empty cell per added column |
| MergeCsvMarketplaces.NormaliseAll | scripts/merge_csv_marketplaces.py:40-42 | each of the distinct tables becomes SkuStep of its own old contents |
| MergeCsvMarketplaces.PadAll | scripts/merge_csv_marketplaces.py:47-50 | each of the distinct tables becomes Widened of its own old contents |
| MergeCsvMarketplaces.StandardiseAll | scripts/merge_csv_marketplaces.py:40-51 | both loops leave each table standardised from its own rows |
| MergeCsvMarketplaces.KeepSku | scripts/merge_csv_marketplaces.py:55 | `dropna(subset=["sku"])` keeps exactly the lines that have a SKU: every kept line has one and comes from the input, and every input line with a SKU is kept |
| MergeCsvMarketplaces.KeepSkuAppend | scripts/merge_csv_marketplaces.py:55 | the filter works line by line in order: the lines kept from a concatenation are those kept from each part, one after the other, and one line is kept exactly when it has a SKU |
| MergeCsvMarketplaces.EntryOf | scripts/merge_csv_marketplaces.py:60-63 | a line falls in a group exactly when all five key cells are present, and then its key is those cells |
| MergeCsvMarketplaces.Output | scripts/merge_csv_marketplaces.py:64 | an output row carries its group's sums; its average price exists exactly when units are non-zero and times them gives the total |
| MergeCsvMarketplaces.Run | scripts/merge_csv_marketplaces.py:17-63 | loading, standardising the three tables in place and concatenating gives the consolidated table |
| MergeCsvMarketplaces.CellOfPadded | scripts/merge_csv_marketplaces.py:50 | padding a row for new columns leaves every lookup by name as it was |
| MergeCsvMarketplaces.StandardisedLine | scripts/merge_csv_marketplaces.py:40-54 | a standardised row gives the line of its own cells, the sku passed through the normalisation |
| MergeCsvMarketplaces.SkuReachingDropna | scripts/merge_csv_marketplaces.py:40-55 | the sku a row reaches the dropna with is the normalised sku cell, or nothing when the table has no sku column |
| MergeCsvMarketplaces.NoSkuColumnDropsAll | scripts/merge_csv_marketplaces.py:48-55 | a table without a sku column contributes no row after the dropna |
| MergeCsvMarketplaces.MissingSkuKept | scripts/merge_csv_marketplaces.py:42-55 | as written, a table with a sku column loses no row to the dropna: an empty sku cell has become "NAN" |
| MergeCsvMarketplaces.CorrectedSkuCell | scripts/merge_csv_marketplaces.py:42 | corrected normalisation: a missing cell stays missing, present text is stripped and upper-cased |
| MergeCsvMarketplaces.CorrectedDropsMissingSku | scripts/merge_csv_marketplaces.py:42-55 | with the corrected normalisation, a row reaches the groupby exactly when it had a SKU |
| MergeCsvMarketplaces.ConsolidationConserves | scripts/merge_csv_marketplaces.py:55-63 | the consolidated totals equal the totals of the surviving lines that have every key cell |
| MergeTinyMarketplaces.LoweredCandidatesAreLower | scripts/merge_marketplaces_tiny.py:21-25 | the list compared against is the SKU candidates lower-cased, one by one |
| MergeTinyMarketplaces.FindSkuColumn | scripts/merge_marketplaces_tiny.py:23-32 | the loop finds the first column whose stripped, lower-cased name is a candidate, never an empty name; None exactly when no column is one |
| MergeTinyMarketplaces.Renamed | scripts/merge_marketplaces_tiny.py:35 | every column called `from` is renamed, the rest kept |
| MergeTinyMarketplaces.KeptColumns | scripts/merge_marketplaces_tiny.py:43 | the join keeps exactly the tiny columns other than the key, in order |
| MergeTinyMarketplaces.MarketHeader | scripts/merge_marketplaces_tiny.py:43 | a market column tiny shares, other than sku, gets "_market"; the others keep their names |
| MergeTinyMarketplaces.TinyHeader | scripts/merge_marketplaces_tiny.py:43 | each kept tiny column keeps its name or gets "_tiny" |
| MergeTinyMarketplaces.Matching | scripts/merge_marketplaces_tiny.py:43 | the matches of a key are tiny rows with that sku |
| MergeTinyMarketplaces.RowsFor | scripts/merge_marketplaces_tiny.py:43 | a market row becomes one joined row per tiny match (one when none), each beginning with the market row |
| MergeTinyMarketplaces.JoinRows | scripts/merge_marketplaces_tiny.py:43 | a left join has at least as many rows as the market table |
| MergeTinyMarketplaces.JoinKeepsMarketRows | scripts/merge_marketplaces_tiny.py:43 | every market row begins some joined row |
| MergeTinyMarketplaces.JoinRowsFromMarket | scripts/merge_marketplaces_tiny.py:43 | every joined row begins with some market row |
| MergeTinyMarketplaces.FillZero | scripts/merge_marketplaces_tiny.py:47 | `fillna(0)` leaves no cell missing and keeps the present ones |
| MergeTinyMarketplaces.SetColumn | scripts/merge_marketplaces_tiny.py:47 | assigning a column keeps the rows and the existing header |
| MergeTinyMarketplaces.Filled | scripts/merge_marketplaces_tiny.py:46-49 | the conditional assignment keeps the rows and the existing header |
| MergeTinyMarketplaces.FilledReadsBack | scripts/merge_marketplaces_tiny.py:47 | the assigned column reads back as the source column with NaN set to 0 |
| MergeTinyMarketplaces.FilledKeeps | scripts/merge_marketplaces_tiny.py:46-49 | assigning a column leaves every other column's cells as they were |
| MergeTinyMarketplaces.Faturamento | scripts/merge_marketplaces_tiny.py:52-54 | one total per joined row, present exactly when the row has a sku |
| MergeTinyMarketplaces.TotalByAppend | scripts/merge_marketplaces_tiny.py:53 | a group's sum over two stacked tables is the sum of the two |
| MergeTinyMarketplaces.JoinTotal | scripts/merge_marketplaces_tiny.py:43-53 | in the joined rows a sku's revenue is its market revenue counted once per tiny row of that sku (once when tiny has none) |
| MergeTinyMarketplaces.JoinHeaderSku | scripts/merge_marketplaces_tiny.py:43 | the join keeps the market's sku column where it was |
| MergeTinyMarketplaces.SharedColumnPresent | scripts/merge_marketplaces_tiny.py:43 | a "_market" column exists exactly when both tables have the base column |
| MergeTinyMarketplaces.MarketValorColumn | scripts/merge_marketplaces_tiny.py:43-54 | receita_total and faturamento_total_canais exist exactly when both tables have valor_total |
| MergeTinyMarketplaces.Consolidate | scripts/merge_marketplaces_tiny.py:10-54 | the script stops exactly when no tiny column is a SKU candidate or the marketplace table has no sku column; otherwise no marketplace row is lost |
| MergeTinyMarketplaces.Frame.Rename | scripts/merge_marketplaces_tiny.py:35 | the header is renamed in place, the rows unchanged |
| MergeTinyMarketplaces.Frame.NormaliseSkuColumn | scripts/merge_marketplaces_tiny.py:38-39 | succeeds exactly when there is a sku column, then normalises it; otherwise nothing changes |
| MergeTinyMarketplaces.Frame.FillFrom | scripts/merge_marketplaces_tiny.py:46-49 | the table becomes its filled form |
| MergeTinyMarketplaces.Run | scripts/merge_marketplaces_tiny.py:20-54 | the script's steps on tables updated in place compute the consolidated table |
| MergeTinyMarketplaces.JoinWellFormed | scripts/merge_marketplaces_tiny.py:43 | joined rows are as wide as the joined header |
| MergeTinyMarketplaces.ConsolidatedRows | scripts/merge_marketplaces_tiny.py:43-54 | with valor_total in both tables the script succeeds and keeps the joined rows and their skus |
| MergeTinyMarketplaces.FaturamentoInflated | scripts/merge_marketplaces_tiny.py:52-54 | as written, each row's faturamento_total_canais is its sku's marketplace revenue multiplied by the number of Tiny rows of that sku |
| MergeTinyMarketplaces.FaturamentoDoubleCounted | scripts/merge_marketplaces_tiny.py:43-54 | as written, one sale of 10 whose sku has two Tiny rows reads 20 on both joined rows |
| MergeTinyMarketplaces.ConsolidateCorrected | scripts/merge_marketplaces_tiny.py:52-54 | corrected: fails exactly when the script does, with the same table |
| MergeTinyMarketplaces.CorrectedCountsOnce | scripts/merge_marketplaces_tiny.py:52-54 | corrected, each row gets its sku's marketplace revenue, equal to the as-written value exactly when the sku has at most one Tiny row or no revenue |
| MergeTinyMarketplaces.CorrectedCountsSaleOnce | scripts/merge_marketplaces_tiny.py:52-54 | corrected, the same example reads 10 on both rows |
| CatalogueStandardiser.CleanColumns | scripts_complementar/padronizador.py:9-15 | the loop gives one cleaned name per column, in order |
| CatalogueStandardiser.CleanedHeader | scripts_complementar/padronizador.py:9-15 | one cleaned name per column, in order |
| CatalogueStandardiser.CleanColumnNameIsClean | scripts_complementar/padronizador.py:12 | a cleaned name has no whitespace, no quote and nothing lower() would change |
| CatalogueStandardiser.CleanColumnNameIdempotent | scripts_complementar/padronizador.py:12 | cleaning a cleaned name changes nothing, so limpar_colunas is idempotent |
| CatalogueStandardiser.LastIndex | scripts_complementar/padronizador.py:20 | the position found is the last one passing the test, or -1 when none does |
| CatalogueStandardiser.Extension | scripts_complementar/padronizador.py:20 | an extension is empty, or a suffix of the path starting with its one '.' and holding no separator |
| CatalogueStandardiser.ExtensionOfName | scripts_complementar/padronizador.py:20 | "stem.ext" has the extension ".ext" |
| CatalogueStandardiser.ReadFlexible | scripts_complementar/padronizador.py:17-46 | a missing file is FileNotFoundError; an extension other than .csv, .xls and .xlsx (lower-cased) is the unsupported-format ValueError; a failed CSV read only for .csv and a bad workbook only for a workbook extension |
| CatalogueStandardiser.ReadCsv | scripts_complementar/padronizador.py:22-29 | the ';' reading is kept unless it failed or gave one column; then the ',' reading decides, its failure escaping |
| CatalogueStandardiser.ReadWorkbook | scripts_complementar/padronizador.py:31-43 | an unreadable workbook is a ValueError; a one-column workbook whose header holds ',' is re-read with ',' first, else one holding ';' with ';'; any other workbook is kept |
| CatalogueStandardiser.SaveFlexible | scripts_complementar/padronizador.py:48-58 | a .csv is written with ';', or with ',' exactly when ';' failed; a workbook extension is written as a workbook; any other extension is the ValueError |
| CatalogueStandardiser.SkuTable | scripts_complementar/padronizador.py:76 | the table's keys are exactly the skus of banco |
| CatalogueStandardiser.SkuTableLastWins | scripts_complementar/padronizador.py:76 | for a duplicated sku the last description wins |
| CatalogueStandardiser.Lookup | scripts_complementar/padronizador.py:77 | a known sku gets its description, any other "REVISAR" |
| CatalogueStandardiser.Column | scripts_complementar/padronizador.py:76-77 | a column's cells are those found by name on every row |
| CatalogueStandardiser.Standardise | scripts_complementar/padronizador.py:65-77 | KeyError exactly when the cleaned banco lacks sku or descricao or the cleaned destino lacks sku or produto; otherwise destino keeps its cleaned header and its row count |
| CatalogueStandardiser.Relabelled | scripts_complementar/padronizador.py:77 | a relabelled row keeps its width |
| CatalogueStandardiser.RelabelledCells | scripts_complementar/padronizador.py:77 | a relabelled row keeps every cell but produto, which reads back as the looked-up description |
| CatalogueStandardiser.StandardiseCells | scripts_complementar/padronizador.py:76-77 | each destino row keeps every cell but produto, which becomes its sku's description |
| CatalogueStandardiser.LookupLastOrRevisar | scripts_complementar/padronizador.py:76-77 | a sku gets the description of the last banco row with that sku, or "REVISAR" when banco has none |
| CsvMarketplaceStandardiser.MapColumn | dados/csv_marketplaces/padronizador.py:17 | only the cells of the rewritten column change, each to its rewrite |
| CsvMarketplaceStandardiser.StripTrailingZero | dados/csv_marketplaces/padronizador.py:17 | the text changes exactly when it ends in ".0" (before an optional final newline), and then loses just those two characters |
| CsvMarketplaceStandardiser.StripTrailingZeroAppended | dados/csv_marketplaces/padronizador.py:17 | a SKU read as a float ("123.0") gets its integer text back |
| CsvMarketplaceStandardiser.StripTrailingZeroOnce | dados/csv_marketplaces/padronizador.py:17 | only one ".0" is removed |
| CsvMarketplaceStandardiser.ShopeeSkuCell | dados/csv_marketplaces/padronizador.py:17 | after `astype(str)` no SKU cell is missing |
| CsvMarketplaceStandardiser.ShopeeValorCents | dados/csv_marketplaces/padronizador.py:22 | a value is a number exactly when float() accepts the cell, and is then within half a hundredth of it |
| CsvMarketplaceStandardiser.RoundCentsExact | dados/csv_marketplaces/padronizador.py:22 | `round(2)` keeps an amount already in whole hundredths |
| CsvMarketplaceStandardiser.ValorColumn | dados/csv_marketplaces/padronizador.py:22 | every row's value is the rounded number of its cell |
| CsvMarketplaceStandardiser.StandardiseShopee | dados/csv_marketplaces/padronizador.py:6-24 | the header is the cleaned one, no row is lost, and a value column is rewritten exactly when some header names "valor" |
| CsvMarketplaceStandardiser.ShopeeSkuCells | dados/csv_marketplaces/padronizador.py:13-17 | the SKU column is the first cleaned header containing "sku": its cells lose one trailing ".0"; every other cell is kept |
| CsvMarketplaceStandardiser.ShopeeValorRounded | dados/csv_marketplaces/padronizador.py:14-22 | the value column is the first cleaned header containing "valor", each row rounded to hundredths |
| CsvMarketplaceStandardiser.BlzDateCell | dados/csv_marketplaces/padronizador.py:37 | a date is written exactly when the parser reads the cell |
| CsvMarketplaceStandardiser.BlzDateReadsBack | dados/csv_marketplaces/padronizador.py:37 | the rewritten date is dd/mm/yyyy and reads back, day first, as the date the parser saw |
| CsvMarketplaceStandardiser.BlzSkuCell | dados/csv_marketplaces/padronizador.py:41 | a cleaned SKU is present, holds no '*' and has no surrounding whitespace |
| CsvMarketplaceStandardiser.BlzSkuIdempotent | dados/csv_marketplaces/padronizador.py:41 | cleaning a SKU twice is cleaning it once |
| CsvMarketplaceStandardiser.NamedColumnRewritten | dados/csv_marketplaces/padronizador.py:36-41 | rewriting a named column keeps the header and the rows |
| CsvMarketplaceStandardiser.StandardiseBlz | dados/csv_marketplaces/padronizador.py:32-41 | padronizar_blz keeps the header and the rows |
| CsvMarketplaceStandardiser.BlzCells | dados/csv_marketplaces/padronizador.py:36-41 | every cell of "data" and "sku" is rewritten; the others are kept |
| CsvMarketplaceStandardiser.SpacesEnd | dados/csv_marketplaces/padronizador.py:54 | `\s*` stops at the first non-space |
| CsvMarketplaceStandardiser.DigitsEnd | dados/csv_marketplaces/padronizador.py:54 | `\d{1,most}` stops at the bound or at the first non-digit |
| CsvMarketplaceStandardiser.MatchDateAt | dados/csv_marketplaces/padronizador.py:54 | a match at the start of the text is a fragment the pattern describes, its year as long as the greedy `\d{2,4}` takes |
| CsvMarketplaceStandardiser.MatchDateAtFragment | dados/csv_marketplaces/padronizador.py:54 | every fragment the pattern describes is matched, up to its greedy end |
| CsvMarketplaceStandardiser.RemoveDates | dados/csv_marketplaces/padronizador.py:54 | removing matches never lengthens the text |
| CsvMarketplaceStandardiser.RemoveDatesNoDash | dados/csv_marketplaces/padronizador.py:54 | a name with no dash is left as it is |
| CsvMarketplaceStandardiser.RemoveDatesWholeFragment | dados/csv_marketplaces/padronizador.py:54 | a text that is one date fragment is removed entirely |
| CsvMarketplaceStandardiser.RemoveDatesSuffix | dados/csv_marketplaces/padronizador.py:52-54 | a date suffix is removed in full, with the spaces before its dash, from a name with no dash of its own |
| CsvMarketplaceStandardiser.RemoveDatesExample | dados/csv_marketplaces/padronizador.py:52 | "Produto XYZ - 12/10/2025" becomes "Produto XYZ" |
| CsvMarketplaceStandardiser.ProdutoCell | dados/csv_marketplaces/padronizador.py:54 | NaN stays NaN and text stays text |
| CsvMarketplaceStandardiser.DropEmptyRows | dados/csv_marketplaces/padronizador.py:57 | the kept rows are exactly those with some value |
| CsvMarketplaceStandardiser.DropEmptyRowsAppend | dados/csv_marketplaces/padronizador.py:57 | dropping works row by row, so the kept rows stay in their order |
| CsvMarketplaceStandardiser.DropEmptyRowsKeepsFull | dados/csv_marketplaces/padronizador.py:57 | a table with no empty row loses nothing |
| CsvMarketplaceStandardiser.StandardiseMeli | dados/csv_marketplaces/padronizador.py:49-57 | padronizar_mercadolivre keeps the header and never adds a row |
| CsvMarketplaceStandardiser.MeliKeepsRows | dados/csv_marketplaces/padronizador.py:53-57 | a row is written exactly when it has a value |
| CsvMarketplaceStandardiser.Table.CleanColumns | dados/csv_marketplaces/padronizador.py:10 | the header is stripped and lower-cased in place, the rows unchanged |
| CsvMarketplaceStandardiser.Table.Rewrite | dados/csv_marketplaces/padronizador.py:17-22 | one column is rewritten in place |
| CsvMarketplaceStandardiser.Table.RewriteNamed | dados/csv_marketplaces/padronizador.py:36-54 | a named column, when present, is rewritten in place |
| CsvMarketplaceStandardiser.Table.DropEmpty | dados/csv_marketplaces/padronizador.py:57 | the empty rows are dropped in place |
| CsvMarketplaceStandardiser.PadronizarShopee | dados/csv_marketplaces/padronizador.py:6-24 | the in-place steps give the standardised Shopee table |
| CsvMarketplaceStandardiser.PadronizarBlz | dados/csv_marketplaces/padronizador.py:32-41 | the in-place steps give the standardised Beleza na Web table |
| CsvMarketplaceStandardiser.PadronizarMercadoLivre | dados/csv_marketplaces/padronizador.py:49-57 | the in-place steps give the standardised Mercado Livre table |
| MlDescriptions.MlColumnName | scripts_agora_vai/ml.py:13 | a cleaned name holds no space and no byte-order mark |
| MlDescriptions.MlHeader | scripts_agora_vai/ml.py:13 | one cleaned name per column, in order |
| MlDescriptions.MlColumnNameKeepsClean | scripts_agora_vai/ml.py:13 | a name already clean is left alone |
| MlDescriptions.MlColumnNameBom | scripts_agora_vai/ml.py:13 | the byte-order mark on a UTF-8 export's first header is removed: it reads "data" |
| MlDescriptions.MlSkuCell | scripts_agora_vai/ml.py:27 | after `astype(str)` no SKU cell is missing |
| MlDescriptions.MlSkuCellNoDotZero | scripts_agora_vai/ml.py:27 | a SKU without ".0" is only stripped |
| MlDescriptions.MlSkuCellInner | scripts_agora_vai/ml.py:27 | every ".0" goes, not only a trailing one: "7.05" becomes "75" |
| MlDescriptions.Zfill2 | scripts_agora_vai/ml.py:38 | `zfill(2)` pads to two characters and never shortens |
| MlDescriptions.Zfill2IntToString | scripts_agora_vai/ml.py:38 | zfill(2) of an integer's text is its two-digit zero-padded form |
| MlDescriptions.DatePartCell | scripts_agora_vai/ml.py:20-21 | a month or year cell is present exactly when the date parsed |
| MlDescriptions.ColumnCells | scripts_agora_vai/ml.py:10 | a column's cells are those its first column of that name holds |
| MlDescriptions.Assigned | scripts_agora_vai/ml.py:20-35 | assigning a column replaces exactly that column's cells |
| MlDescriptions.Dropped | scripts_agora_vai/ml.py:24 | dropping a column removes exactly that column |
| MlDescriptions.Without | scripts_agora_vai/ml.py:24 | the remaining names are exactly the others |
| MlDescriptions.FirstName | scripts_agora_vai/ml.py:30-32 | the name found is a column passing the test; None exactly when no column passes |
| MlDescriptions.FirstNameAppend | scripts_agora_vai/ml.py:20-30 | appending a name the test rejects does not change which is found |
| MlDescriptions.FirstNameWithout | scripts_agora_vai/ml.py:24-30 | dropping a name the test rejects does not change which is found |
| MlDescriptions.Selected | scripts_agora_vai/ml.py:45 | the selection has the listed columns and one row per input row |
| MlDescriptions.ParsedDates | scripts_agora_vai/ml.py:17 | each date is the parser's reading of the stripped text of its cell |
| MlDescriptions.DescricaoCells | scripts_agora_vai/ml.py:35-42 | every row gets a descricao |
| MlDescriptions.WithMonthYear | scripts_agora_vai/ml.py:20-24 | mes and ano are assigned from the dates and data dropped |
| MlDescriptions.Described | scripts_agora_vai/ml.py:35-45 | the written table has the six output columns and one row per input row |
| MlDescriptions.Read | scripts_agora_vai/ml.py:10-13 | the frame has the cleaned header and each name's cells |
| MlDescriptions.DatesMissing | scripts_agora_vai/ml.py:17-21 | the date column holds a NaT exactly when some row's date does not parse |
| MlDescriptions.Dated | scripts_agora_vai/ml.py:17-24 | the frame holds mes and ano from the parsed dates, and no data |
| MlDescriptions.Skued | scripts_agora_vai/ml.py:27 | only the sku column is rewritten, each cell through the SKU cleaning |
| MlDescriptions.MlProcess | scripts_agora_vai/ml.py:10-45 | the written table has the six output columns, one row per input row |
| MlDescriptions.MlFailsWithSku | scripts_agora_vai/ml.py:30-41 | with data and sku present, the script stops exactly when the description column, vendas or valor_total is missing |
| MlDescriptions.MlFailsExactly | scripts_agora_vai/ml.py:17-41 | the script stops exactly when the cleaned header lacks data, sku, a description column, vendas or valor_total |
| MlDescriptions.FixedNamesNotDescriptions | scripts_agora_vai/ml.py:30 | none of mes, ano, data, sku, vendas or valor_total is taken for the description column |
| MlDescriptions.DatedNames | scripts_agora_vai/ml.py:20-24 | the frame's names are the cleaned header's, plus mes and ano, minus data |
| MlDescriptions.SkuedFirstDescription | scripts_agora_vai/ml.py:20-30 | the description column found is the first in the cleaned header |
| MlDescriptions.DescribedFails | scripts_agora_vai/ml.py:35-41 | the last step stops exactly on a missing vendas or valor_total column |
| MlDescriptions.SkuedOther | scripts_agora_vai/ml.py:10-27 | a column the script does not touch keeps its cells |
| MlDescriptions.RowOut | scripts_agora_vai/ml.py:35-45 | a written row has six cells, with the SKU and descricao always present |
| MlDescriptions.MlRow | scripts_agora_vai/ml.py:13-45 | each written row is built from its own input row: the SKU cleaned, descricao assembled from the first description column, month and year from its date |
| MlDescriptions.RowOutIntended | scripts_agora_vai/ml.py:35-42 | with integer parts, a dated row's descricao is the intended text |
| MlDescriptions.RowOutFloat | scripts_agora_vai/ml.py:20-42 | with float parts, month and year carry ".0" and descricao is longer than intended |
| MlDescriptions.MlMonthWrittenAsFloat | scripts_agora_vai/ml.py:17-42 | as written, once any date fails to parse, every month and year is written as a float |
| MlDescriptions.FloatMonthNotPadded | scripts_agora_vai/ml.py:38 | zfill(2) leaves "1.0" as it is, where "01" was meant |
| MlDescriptions.MlProcessCorrected | scripts_agora_vai/ml.py:10-45 | corrected: the same shape of output |
| MlDescriptions.MlCorrectedDescricao | scripts_agora_vai/ml.py:20-42 | corrected, every dated row gets integer month and year and the intended description, whatever the other rows hold |
| MlDescriptions.MlAgreesWhenDatesParse | scripts_agora_vai/ml.py:17-21 | when every date parses, as written and corrected write the same table |
| MlDescriptions.DataFrame.Assign | scripts_agora_vai/ml.py:20-35 | `df[name] = cells` updates the frame in place |
| MlDescriptions.DataFrame.Drop | scripts_agora_vai/ml.py:24 | `drop(inplace=True)` updates the frame in place |
| MlDescriptions.RunMl | scripts_agora_vai/ml.py:10-45 | the statements on the frame updated in place compute the script's result |
| MlDescriptions.FinishMl | scripts_agora_vai/ml.py:30-45 | the last steps on the frame compute the written table |
| XmlOrganiser.StripLeadingZeros | scripts_complementar/organizador_xml.py:16 | `lstrip("0")` removes a prefix made only of zeros, leaving text that does not start with '0' |
| XmlOrganiser.NormaliseNumber | scripts_complementar/organizador_xml.py:13-16 | "" exactly for None or ""; otherwise the stripped text without its leading zeros, or "0" when only zeros were left; only "0" starts with '0' |
| XmlOrganiser.NormalFormFixed | scripts_complementar/organizador_xml.py:13-16 | trimmed text without a leading zero is its own normal form |
| XmlOrganiser.NormaliseIdempotentWhenTrimmed | scripts_complementar/organizador_xml.py:13-16 | normalising twice is normalising once when the result has no surrounding whitespace |
| XmlOrganiser.NormaliseNotIdempotent | scripts_complementar/organizador_xml.py:16 | not idempotent in general: "0 5" gives " 5", which gives "5" |
| XmlOrganiser.NormalFormValue | scripts_complementar/organizador_xml.py:16 | a number written with digits only normalises to digits without a leading zero, of the same value |
| XmlOrganiser.SameNormalFormIffSameValue | scripts_complementar/organizador_xml.py:16-58 | two digit strings normalise alike exactly when they have the same value, so the match ignores zero padding |
| XmlOrganiser.CanonicalIsNatToString | scripts_complementar/organizador_xml.py:16 | a digit string without a leading zero is how str() writes its value |
| XmlOrganiser.Targets | scripts_complementar/organizador_xml.py:19-22 | the target set is exactly the normal forms of the non-blank lines: each such line's normal form is a target, every target is one of them, and "" never is |
| XmlOrganiser.StripCharBoth | scripts_complementar/organizador_xml.py:34 | `strip('{')` leaves no '{' at either end |
| XmlOrganiser.NamespaceOf | scripts_complementar/organizador_xml.py:34 | the namespace found holds no '}' |
| XmlOrganiser.NamespaceOfQualified | scripts_complementar/organizador_xml.py:34 | the namespace of a `{uri}local` tag is `uri` |
| XmlOrganiser.ExtractNumber | scripts_complementar/organizador_xml.py:30-40 | a number is found exactly when the document parsed and its first nNF in the root's namespace has non-empty text; the number is that text normalised, and never "" |
| XmlOrganiser.Examined | scripts_complementar/organizador_xml.py:46-52 | no more files are examined than listed |
| XmlOrganiser.NamesWhereIff | scripts_complementar/organizador_xml.py:46-62 | a name is among those kept exactly when some file of that name is kept |
| XmlOrganiser.MovedAreExamined | scripts_complementar/organizador_xml.py:52-62 | only examined files are moved |
| XmlOrganiser.MovedIff | scripts_complementar/organizador_xml.py:46-62 | a file is moved exactly when its name ends in ".xml" and its normalised nNF is a target |
| XmlOrganiser.Organise | scripts_complementar/organizador_xml.py:43-64 | `checados` counts every examined XML file, `movidos` the matches, never more than checados; a dry run moves nothing |

## Left out

- Binary floating point: amounts are exact reals, and `round(x, 2)` rounds exact ties to the even hundredth. The inf or NaN from `valor_total / vendas` with zero sales is kept as a missing value.
- `float()` and `pd.to_numeric` are modelled by a reader of an optional sign, digits and one optional '.'. Exponents, "inf", "nan" and underscores are not accepted. `int()` (Numbers.ParseInt) does accept single underscores between digits, as Python does.
- `pd.to_datetime`, `dateutil.parser.parse`, `dateparser.parse` and `unidecode` are caller-supplied functions. They are otherwise unconstrained. A lemma that needs a parsed date to be a valid calendar date says so in its `requires`.
- `np.random` draws in `corrigir_datas` are parameters, each required to lie in the range the sampler draws from.
- Character classes and case: `\d` is the ten ASCII digits, `isdigit()` adds the Latin-1 superscripts '¹', '²' and '³', and `lower()` and `upper()` cover the ASCII and Latin-1 letters, with `upper()` turning 'ß' into "SS", 'ÿ' into 'Ÿ' and 'µ' into 'Μ'. Beyond Latin-1 they are not modelled: digits of other scripts, which `\d`, `isdigit()`, `int()` and `float()` accept, are refused, and other case pairs are left unchanged. `isspace()`, `strip()` and `\s` cover all Unicode whitespace.
- Duplicate column names: `df[name]` reads the first column of that name.
- pandas dtype inference: cells are text as read, and numbers are parsed where a script converts them.
- The Shopee `valor` column of `dados/csv_marketplaces/padronizador.py` is kept as whole hundredths beside the text cells, not as a float column.
- NaN as a dictionary key in the catalogue lookup is treated as an ordinary key. In Python, two NaN floats are distinct keys.
- File system, directory listing, file moves, `read_csv`/`read_excel`/`to_csv`/`to_excel`/`to_sql`, `ET.parse`, coloured logging and progress printing. Their results are inputs, and their effects are the returned tables and counters.
- `scripts/update_database.py` is not part of this model; it is SQLite persistence only.
- `scripts/teste_meli.py` is not part of this model; it only prints diagnostics.
- Normalisers.UnsignedAmountText: the rewrite can leave more than one '.' ("1,234,56" becomes "1.234.56"), so no single-dot property is stated for it.
- TinyInvoices.ToDateIsoFallback: the `dateutil` branch is a parameter, so only the `YYYY-MM-DD` fallback is stated exactly.
- TinyInvoices.Run: the conversion of `data_emissao` and the sort of the sales table by it (`scripts/parse_xml_tiny.py:270-272`) are not modelled; the sales table keeps first-occurrence order. The two left joins that build tiny_merged (lines 280-283) are modelled only for the KeyError they raise without items; the merged table itself is not.
- FinalStandardiser.ProcessChannelGroups: the `sort_values(["canal", "ano", "mes"])` of `agrupar_por_mes` (`scripts/padronizador_final.py:90`) is not stated; grouped tables are maps without row order. The same holds for the row order of every other `groupby` result.
- Date parsers are applied cell by cell: MlDescriptions.ParsedDates, CsvMarketplaceStandardiser.BlzDateCell, the `parse` of AmazonMerge.KeyOf and the `parse` of ShopeeMerge.RowEntry give each cell its own reading. Under pandas 2, `pd.to_datetime` on a column infers one format from its first non-null cell, and with `errors='coerce'` a cell in another format becomes NaT, so one row's date can depend on another row.
- `astype(int)` and `int()` are unbounded here: BelezaNaWeb.CleanWhole and AmazonMonths.UnitsOf do not model int64 overflow of a very large cleaned amount.
- BelezaNaWeb.ToDate: pandas Timestamps exist only from 1677 to 2262, and a dd/mm/yyyy date outside that range becomes NaT; the model accepts every year from 1 to 9999.
- BelezaNaWeb.Process: when one column is both a grouping column (SKU or description) and another role, or SKU and description are one column, pandas' `groupby`/`agg` on repeated or aggregated key columns is not modelled; the model groups by the converted cells. When units and value are one column, pandas writes one summed column; the model gives both sums, which are equal (BelezaNaWeb.SharedUnitsValue).

## Findings

| source | as written | input that shows it | evidently intended | confidence | as-written member | corrected member |
|---|---|---|---|---|---|---|
| scripts/merge_csv_marketplaces.py:42-55 | `astype(str)` turns a NaN sku into the text "NAN" before `dropna(subset=["sku"])`, so no row is ever dropped for a missing sku | a row whose sku cell is NaN | rows without a sku are dropped | not executed | MergeCsvMarketplaces.MissingSkuKept | MergeCsvMarketplaces.CorrectedDropsMissingSku |
| scripts/merge_marketplaces_tiny.py:43-54 | the left join repeats a marketplace row once per matching Tiny row, and `faturamento_total_canais` sums over the joined table | one marketplace sale of 10 for a sku with two Tiny rows reads 20 on each joined row | each marketplace sale counted once | not executed | MergeTinyMarketplaces.FaturamentoDoubleCounted | MergeTinyMarketplaces.CorrectedCountsSaleOnce |
| scripts_agora_vai/ml.py:17-42 | one unparsable date makes `mes` and `ano` float columns, so `descricao` reads "mes 1.0 - ano 2025.0" and `zfill(2)` pads nothing | a table in which one row's date does not parse | "mes 01 - ano 2025" | not executed | MlDescriptions.MlMonthWrittenAsFloat | MlDescriptions.MlCorrectedDescricao |

## Notes on the code

- `normalizar_numero` in `scripts_complementar/organizador_xml.py` is not idempotent: it strips before removing leading zeros, so "0 5" gives " 5" and a second pass gives "5" (XmlOrganiser.NormaliseNotIdempotent).
- In `scripts/parse_xml_tiktok.py`, the stripped extractor searches `.//dhEmi` anywhere in the document. It falls back to `dEmi` only when no `dhEmi` element exists, not when one exists without text. The two extraction modes can therefore give different dates for the same document (TiktokInvoices.StrippedDate).
- `dados/csv_marketplaces/padronizador.py` removes one trailing ".0" from a sku. `scripts_agora_vai/ml.py` removes every ".0", so "7.05" becomes "75" there.
- `scripts_agora_vai/blz.py` converts the date, units and value columns in place, one after the other, and each later step reads the column as the earlier ones left it. A header that holds two roles' markers ("valor venda", "data da venda") therefore gives the value as the truncated units, or units read from the digits of a Timestamp (BelezaNaWeb.SharedUnitsValue, BelezaNaWeb.SharedDateUnits).
- `df = df[cols_base]` at `scripts/merge_csv_marketplaces.py:51` rebinds the loop variable only. The frames that are concatenated keep their own columns.
