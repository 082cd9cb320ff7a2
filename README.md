# Alu-Quote pricing core in Dafny

Alu-Quote quotes aluminium and steel fabrication jobs from a project's
technical drawings (DXF) and documents (PDF). This project models the part
of the backend that turns the analyses of those files into a budget, and
proves properties of that model:

- **Drawing analysis** (`Dxf`, from `backend/dxf_parser.py`): profile
  weight and machining time, polygon area, bounding box and centroid,
  complexity scoring, quantity and material hints from texts, the
  compilation of material quantities from blocks and layers, the unit
  correction, and the feature summary.
- **Document analysis** (`Pdf`, `PdfItems` and `PdfDocument`, from
  `backend/pdf_reader.py`): header normalisation, cell parsing, number
  reading in European and English formats, row-to-item reading,
  deduplication of the bill of materials, filling of item material and
  finish from page constraints, profile-reference extraction, and the
  fragmented-text test.
- **Steel catalogue** (`CostCatalog`, from `backend/cost_database.py`):
  the profile and cladding tables and their indexes, the name
  normalisers, `find_profile`, `find_cladding`, `get_all_profiles`, the
  per-length and per-quantity costs, and the structure and cladding
  totals.
- **Budget engine** (from `backend/budget_calculator.py`), in several
  modules:
  - `Correlator`: how DXF profiles, block counts and PDF rows become
    correlations, including the fallback items;
  - `Pricer`: the catalogue route and the formula route of line
    pricing;
  - `BudgetLines`: the budget lines and the recommendations;
  - `Summary`: the summary;
  - `Calculator`: the `BudgetCalculator` class, whose methods carry
    the loops.
- **API helpers** (`Api`, from `backend/main.py`):
  - the file categorisers;
  - the merge of a project's analyses;
  - the upload loop;
  - parameter overrides and the admission checks of the calculate
    endpoint;
  - the endpoint itself;
  - the margin simulation.

Python dictionaries are modelled as association lists (`Dicts.Dict`). An
assignment replaces a key in place or appends it. Iteration follows
insertion order. Python floats are modelled as Dafny `real`s.

The generic modules model the pieces of Python's library that the core
relies on:

- `Strings`: `upper`, `strip`, `split`, whitespace collapsing and
  `sorted`.
- `Numerals`: `int()` truncation and `float()` of digit runs.
- `Patterns`: the fragment of `re` that the designation and reference
  patterns use. A backtracking matcher is proved sound and complete
  against a declarative meaning.
- `Folds`: maps, concatenations, sums and first-match searches over
  sequences.

## Model

| member | source | states |
|---|---|---|
| CostCatalog.SteelProfile.CalculateCost | backend/cost_database.py:40-76 | weight and painted area are proportional to the length, and the total is the weight at the six per-kg rates plus the area at the painting rate |
| CostCatalog.CostIsLinear | backend/cost_database.py:40-76 | the cost of a length is that length times the cost of one metre |
| CostCatalog.ProfileCostAdditive | backend/cost_database.py:40-76 | costing two lengths separately or together gives the same weight and total |
| CostCatalog.ProfileCostScales | backend/cost_database.py:40-76 | costing `f` times a length costs `f` times as much |
| CostCatalog.CladdingItem.CalculateCost | backend/cost_database.py:93-114 | a cladding total equals the sum of its seven cost components |
| CostCatalog.CladdingCostAdditive | backend/cost_database.py:93-114 | costing two quantities separately or together gives the same total |
| CostCatalog.UpperClean | backend/cost_database.py:359-383 | the shared first steps of both normalisers give a clean, upper-case string |
| CostCatalog.NormalizeProfileName | backend/cost_database.py:359-366 | the normalised name is upper case, trimmed, single-spaced, and has no `*` or `×` |
| CostCatalog.NormalizeProfileNameIdempotent | backend/cost_database.py:359-366 | normalising a normalised profile name changes nothing |
| CostCatalog.NormalizeProfileNameNonEmpty | backend/cost_database.py:359-366 | a name with a non-blank character never normalises to the empty string |
| CostCatalog.NormalizeItemName | backend/cost_database.py:368-383 | the normalised item name is clean, upper case and free of the accented capitals |
| CostCatalog.NormalizeItemNameIdempotent | backend/cost_database.py:368-383 | normalising a normalised item name changes nothing |
| CostCatalog.InitSteelProfiles | backend/cost_database.py:233-253 | the loop builds the index that assigns each row under its normalised designation and then under its code |
| CostCatalog.ProfileIndexStep | backend/cost_database.py:249-253 | one more row adds its two assignments at the end |
| CostCatalog.ProfileRetrievableByName | backend/cost_database.py:249-251 | when no two rows share a key, every profile can be read back under its normalised designation |
| CostCatalog.ProfileRetrievableByCode | backend/cost_database.py:252-253 | when no two rows share a key, every profile can be read back under its code |
| CostCatalog.ProfileIndexEntries | backend/cost_database.py:233-253 | every indexed profile comes from a row, sits under that row's key or code, and is galvanised exactly when its name says so |
| CostCatalog.InitCladdingItems | backend/cost_database.py:255-357 | the facade, roof and accessory loops index each row under its normalised designation |
| CostCatalog.ItemRetrievable | backend/cost_database.py:255-357 | when no two rows share a name, every cladding item can be read back under its normalised designation |
| CostCatalog.TypeSizeKey | backend/cost_database.py:398-405 | the "TYPE SIZE" rewrite is a profile type, at most one blank, then the digits |
| CostCatalog.FindProfileExact | backend/cost_database.py:389-391 | an exact normalised key is always returned first |
| CostCatalog.FindProfileFirstOverlap | backend/cost_database.py:393-396 | without an exact key, the first entry in index order whose key overlaps the name is returned |
| CostCatalog.FindProfileNone | backend/cost_database.py:385-407 | nothing is found exactly when there is no exact key, no overlapping key, and no "TYPE SIZE" key |
| CostCatalog.FindProfileSound | backend/cost_database.py:385-407 | whatever is found is stored under the name, under a key overlapping it, or under its "TYPE SIZE" form |
| CostCatalog.EmptyNameMatchesFirstProfile | backend/cost_database.py:385-407 | as written, the empty search term finds the first profile of the index |
| CostCatalog.FindProfileStrict | backend/cost_database.py:385-407 | a name that normalises to nothing finds nothing; any other name finds what `find_profile` finds |
| CostCatalog.SearchSource | backend/cost_database.py:421-433 | the per-table search tries the exact key, then each key in order by the overlap or keyword rule |
| CostCatalog.EmptyNameMatchesFirstCladding | backend/cost_database.py:409-435 | as written, the empty search term finds the first item of the first table |
| CostCatalog.FindInSourcesStrict | backend/cost_database.py:409-435 | a name that normalises to nothing finds nothing; any other name finds what `find_cladding` finds |
| CostCatalog.CostDatabase.constructor | backend/cost_database.py:120-124 | the four indexes are built from the four static tables |
| CostCatalog.CostDatabase.FindProfile | backend/cost_database.py:385-407 | corrected (first Findings row): `find_profile` with the empty-name guard: exact key, then first overlap, then the "TYPE SIZE" key |
| CostCatalog.CostDatabase.CladdingSources | backend/cost_database.py:413-419 | a category searches at most three tables |
| CostCatalog.CostDatabase.FindCladding | backend/cost_database.py:409-435 | corrected (second Findings row): `find_cladding` with the empty-name guard returns the first table's hit |
| CostCatalog.CostDatabase.GetAllProfiles | backend/cost_database.py:437-445 | the result is the catalogue's profiles, one per designation, sorted by designation |
| CostCatalog.FirstPerDesignation | backend/cost_database.py:439-444 | the `seen` loop keeps the first profile of each designation, each designation once |
| CostCatalog.AllProfilesListing | backend/cost_database.py:437-445 | every catalogue designation is listed exactly once, in sorted order, and only catalogue profiles appear |
| Strings.SortBy | backend/cost_database.py:445 | `sorted` by a key returns a permutation of its input, ordered by that key |
| CostCatalog.CalculateSteelStructureCost | backend/cost_database.py:470-500 | corrected (first Findings row), so a request without a profile name finds nothing: the report's lines are the priced requests, and its totals are their weight and cost sums |
| CostCatalog.SteelStructureCostAdditive | backend/cost_database.py:470-500 | splitting the requests in two and adding the two reports gives the report of the whole |
| CostCatalog.SteelStructureSingle | backend/cost_database.py:484-492 | corrected (first Findings row): a request contributes a line exactly when its profile is found and its length is positive, and tonnes are kilograms over 1000 |
| CostCatalog.CalculateCladdingCost | backend/cost_database.py:502-527 | corrected (second Findings row), so a request without an item name finds nothing: the report's lines are the priced requests over all tables, and its total is their sum |
| CostCatalog.CladdingCostAdditiveOverRequests | backend/cost_database.py:502-527 | splitting the requests in two adds the lines and the totals |
| Dxf.ProfileData.Thickness | backend/dxf_parser.py:83-95 | the thickness is the first non-zero of the given thickness, the hint, and 2.0 |
| Dxf.ProfileData.CalculateWeight | backend/dxf_parser.py:83-95 | an open outline without a positive perimeter weighs nothing (sign and scaling are stated by the two lemmas below) |
| Dxf.WeightNonNegative | backend/dxf_parser.py:83-95 | for a non-negative density, the weight is never negative, provided a closed outline's thickness is positive |
| Dxf.MachiningTimeBounds | backend/dxf_parser.py:97-102 | after complexity scoring, the machining time is 2 to 6 minutes plus the features' time |
| Dxf.PolygonArea | backend/dxf_parser.py:1147-1156 | the shoelace area is non-negative and is zero below three vertices |
| Dxf.CalculateArea | backend/dxf_parser.py:1147-1156 | the accumulator loop computes the shoelace area |
| Dxf.AreaScales | backend/dxf_parser.py:1102-1128 | scaling every coordinate by `f` scales the area by `f²` |
| Dxf.RectangleArea | backend/dxf_parser.py:1147-1156 | a `w × h` rectangle listed corner by corner has the absolute value of `w·h` as its area |
| Dxf.CalculateBoundingBox | backend/dxf_parser.py:1159-1171 | with points, the box is the smallest axis-aligned box holding every point, with its width and height; without points, all zeros |
| Dxf.CalculateCentroid | backend/dxf_parser.py:1173-1179 | the centroid is the mean of the coordinates, and `(0, 0)` without points |
| Dxf.CentroidInBoundingBox | backend/dxf_parser.py:1159-1179 | the centroid lies inside the bounding box of the same points |
| Dxf.VertexFactor | backend/dxf_parser.py:1026-1027 | the vertex factor lies in [1, 2] |
| Dxf.AspectFactor | backend/dxf_parser.py:1036-1042 | the aspect factor lies in [1, 1.3], and is 1 for a box without positive sides |
| Dxf.NearFeatures | backend/dxf_parser.py:1030-1032 | the features kept are exactly those near the profile: on its layer or within 100 on both axes |
| Dxf.ComplexityBounds | backend/dxf_parser.py:1023-1045 | every complexity score lies in [1, 3] |
| Dxf.ScaleByOne | backend/dxf_parser.py:1102-1128 | a factor of 1 changes nothing, so skipping the correction is the same as applying it |
| Dxf.ScaleCompose | backend/dxf_parser.py:1102-1128 | correcting by `f` and then by `g` is correcting once by `f·g` |
| Dxf.WeightAfterScale | backend/dxf_parser.py:83-95 | after a positive correction `f`, a weight from area grows by `f²` and a weight from perimeter by `f` |
| Dxf.QuantityFromText | backend/dxf_parser.py:423-436 | the quantity is that of the first pattern whose capture is in (0, 10000), and nothing when there is none |
| Dxf.MaterialFromName | backend/dxf_parser.py:376-382 | the material is the first one whose pattern matches the lower-cased name |
| Dxf.NearbyQuantityFirst | backend/dxf_parser.py:980-988 | the first text within the radius that carries a hint decides the quantity |
| Dxf.NearbyQuantityDefault | backend/dxf_parser.py:980-988 | with no such text, the quantity is 1 |
| Dxf.NearbyQuantityRange | backend/dxf_parser.py:980-988 | when every hint came from the quantity extraction, the quantity lies in [1, 10000) |
| Dxf.BlockQuantitiesMembers | backend/dxf_parser.py:1049-1065 | block entries are exactly those of the blocks that are inserted and have a perimeter |
| Dxf.BlockEntryFacts | backend/dxf_parser.py:1049-1065 | a block entry counts whole insertions, and its total length is the unit length times the count |
| Dxf.LayerAggregatesGet | backend/dxf_parser.py:1067-1080 | each layer's running totals are the totals of the profiles on that layer; a layer without profiles has none |
| Dxf.LayerEntryTotals | backend/dxf_parser.py:1082-1100 | a layer entry reports the pieces drawn on its layer and their total perimeter |
| Dxf.FeatureCountsGet | backend/dxf_parser.py:1181-1186 | the summary holds, for each present type, the number of features of that type, and nothing else |
| Dxf.FeatureCountsTotal | backend/dxf_parser.py:1181-1186 | the summary's counts add up to the number of features |
| Dxf.CollectBlockQuantities | backend/dxf_parser.py:1049-1065 | the block loop gives one entry per block inserted with a positive perimeter |
| Dxf.AggregateLayers | backend/dxf_parser.py:1073-1080 | the grouping loop gives the per-layer totals in first-seen order |
| Dxf.DxfParser.constructor | backend/dxf_parser.py:196-209 | the parser starts with the analysed profiles, texts, blocks and features |
| Dxf.DxfParser.DetectMaterialFromName | backend/dxf_parser.py:376-382 | the result is the first material whose pattern matches |
| Dxf.DxfParser.ExtractQuantityFromText | backend/dxf_parser.py:423-436 | the result is the first pattern's capture that lies in (0, 10000) |
| Dxf.DxfParser.FindQuantityNearPosition | backend/dxf_parser.py:980-988 | the result is the hint of the first text within the radius, and otherwise 1 |
| Dxf.DxfParser.CalculateComplexity | backend/dxf_parser.py:1023-1045 | every profile is scored against the detected features |
| Dxf.DxfParser.CompileMaterialQuantities | backend/dxf_parser.py:1047-1100 | the block entries come first, then one entry per layer with a positive perimeter |
| Dxf.DxfParser.CollectLayerQuantities | backend/dxf_parser.py:1082-1100 | the layer loop gives one entry per layer with a positive perimeter |
| Dxf.DxfParser.ApplyScaleCorrections | backend/dxf_parser.py:1102-1128 | lengths are converted by the unit factor and areas by its square, unless the factor is 1 |
| Dxf.DxfParser.GetFeaturesSummary | backend/dxf_parser.py:1181-1186 | the result counts the features by type |
| Dxf.ScaleKeepsBlockTotals | backend/dxf_parser.py:1102-1128 | the unit correction keeps every block entry's total equal to its unit length times its count |
| Pdf.CleanHeader | backend/pdf_reader.py:432-437 | the cleaned header is trimmed and single-spaced |
| Pdf.NormalizeHeaderCascade | backend/pdf_reader.py:438-450 | a header maps to its exact entry, else to the first entry that contains it or is contained in it, else to itself |
| Pdf.NormalizeOneHeader | backend/pdf_reader.py:438-450 | the loop body computes the cascade for one cell |
| Pdf.NormalizeHeadersIn | backend/pdf_reader.py:428-451 | corrected (last Findings row), so a blank cell names no column: the loop builds the map of the visible header cells, by column |
| Pdf.VisibleHeaderMapSnoc | backend/pdf_reader.py:433-450 | one more header cell adds its column exactly when it has visible text |
| Pdf.NormalizeHeaders | backend/pdf_reader.py:428-451 | corrected (last Findings row): the header map under the reader's table, with blank cells skipped |
| Pdf.IsValidHeaderRowIff | backend/pdf_reader.py:453-456 | a header row is accepted exactly when some column names one of the five important fields |
| Pdf.HeaderMappingsFacts | backend/pdf_reader.py:113-181 | no header spelling is empty, and the table opens with `qty` |
| Pdf.BlankHeaderReadsAsFirstField | backend/pdf_reader.py:432-450 | as written, a blank header cell takes the field of the table's first entry |
| Pdf.BlankHeaderReadsAsQuantity | backend/pdf_reader.py:432-450 | as written, a blank header cell names the quantity column |
| Pdf.BlankHeaderRowAccepted | backend/pdf_reader.py:428-456 | as written, a header row made of one blank cell is accepted as a bill-of-materials header |
| Pdf.VisibleHeaderMapSound | backend/pdf_reader.py:428-456 | skipping blank cells keeps every other column's field, and a row without visible header text is never accepted |
| Pdf.RemoveUnitsKeepsNumberChars | backend/pdf_reader.py:548 | removing unit words never drops, adds or reorders a digit, point or comma |
| Pdf.EuropeanFormat | backend/pdf_reader.py:551-555 | the format rule leaves no comma in the text |
| Pdf.ExtractNumberText | backend/pdf_reader.py:538-563 | a number read from text is never negative (the values read are stated by the lemmas below) |
| Numerals.ParseDecimalRun | backend/pdf_reader.py:557-562 | `float` of a run of digits and points has a value, never negative, exactly when the run has at most one point and is not a lone point |
| Pdf.ExtractWholeNumber | backend/pdf_reader.py:538-563 | a whole number reads as its value |
| Pdf.ExtractDecimalPoint | backend/pdf_reader.py:538-563 | `12.5` reads as 12.5 |
| Pdf.ExtractDecimalComma | backend/pdf_reader.py:538-563 | `12,5` reads as 12.5 |
| Pdf.ExtractThousands | backend/pdf_reader.py:538-563 | `1,234.5` reads as 1234.5 |
| Pdf.ExtractWithUnit | backend/pdf_reader.py:538-563 | a number followed by a unit word reads as the number |
| Pdf.RemoveTrailingUnit | backend/pdf_reader.py:548 | a unit word after the digits is dropped whole |
| PdfItems.ParseCellValue | backend/pdf_reader.py:517-536 | an empty cell is no value at confidence 0; otherwise the confidence is in [0.5, 1] and numeric fields hold their reading |
| PdfItems.ExtractNumber | backend/pdf_reader.py:538-563 | no value reads as nothing and text by the text reading; a float re-read through its `str` is itself when written positionally (0 or in [1e-4, 1e16)) and otherwise a mantissa in [1, 10) |
| Numerals.FloatReadBack | backend/pdf_reader.py:543-563 | what `[\d.]+` reads from `str(x)`: the size of `x` when it is 0 or in [1e-4, 1e16), and otherwise that size moved some number of decimal places into [1, 10) |
| Numerals.FiveMillionthsReadBack | backend/pdf_reader.py:543-563 | `str(5e-05)` reads back as 5 |
| Pdf.TinyQuantityText | backend/pdf_reader.py:538-563 | the text `0.00005` reads as 5e-05 |
| PdfItems.ExponentFormReadBack | backend/pdf_reader.py:491-505 | a quantity cell `0.00005` is parsed to 5e-05 and read back by the row as 5 |
| PdfItems.ExtractParsedNumber | backend/pdf_reader.py:517-563 | reading back a parsed numeric cell re-reads the `str` of the text reading: the same value when that reading is 0 or in [1e-4, 1e16), and the re-read mantissa otherwise |
| PdfItems.FirstNonEmptyCell | backend/pdf_reader.py:484-487 | the result is the first cell whose stripped text is non-empty |
| PdfItems.FallbackIdentified | backend/pdf_reader.py:481-490 | after the fallback, the fields identify the item exactly when they did before or the row has a non-empty cell |
| PdfItems.RowItem | backend/pdf_reader.py:468-515 | a kept item has a positive quantity, the given row id and page, and the raw row |
| PdfItems.RowItemNoneIff | backend/pdf_reader.py:481-490 | a row is dropped exactly when it has no reference, no description, and no non-empty cell |
| PdfItems.RowItemFromFields | backend/pdf_reader.py:492-512 | a kept row's item is the one built from its fields |
| PdfItems.RowToItemReference | backend/pdf_reader.py:498 | with the correction, an item's reference is empty exactly when the row gave none |
| PdfItems.EmptyReferenceReadsNone | backend/pdf_reader.py:498 | as written, an empty reference cell gives the reference "None" |
| PdfItems.EmptyReferenceReadsEmpty | backend/pdf_reader.py:498 | with the correction, the same row gives an empty reference |
| PdfItems.RowItemConfidence | backend/pdf_reader.py:509 | an item's confidence lies in [0, 1] |
| PdfItems.MeanConfidenceUnit | backend/pdf_reader.py:509 | the mean of confidences in [0, 1] lies in [0, 1] |
| PdfDocument.TableItemsExtend | backend/pdf_reader.py:458-466 | reading a table only appends items from this page and keeps the list numbered 1..n |
| PdfDocument.AppendRowShape | backend/pdf_reader.py:462-466 | one row leaves the list unchanged, or appends one item from this page, numbered next |
| PdfDocument.ReadRowCells | backend/pdf_reader.py:474-479 | the cell loop assigns each header column's parsed cell and records its confidence |
| PdfDocument.BorrowDescription | backend/pdf_reader.py:482-487 | an unidentified row takes its first non-empty cell as its description |
| PdfDocument.KeptKeys | backend/pdf_reader.py:781-807 | the `seen` set holds exactly the keys of the valid items met so far |
| PdfDocument.KeptIsFirstsOfKeys | backend/pdf_reader.py:781-807 | the pass keeps exactly the first valid item of each key, in list order |
| PdfDocument.KeptDistinct | backend/pdf_reader.py:781-807 | no two kept items share a key, and every kept item is valid and comes from the list |
| PdfDocument.PageConstraints | backend/pdf_reader.py:891-892 | the result holds exactly the constraints of that page |
| PdfDocument.FillTouchesOnlyMaterialAndFinish | backend/pdf_reader.py:888-899 | filling changes the material and the finish, and no other field |
| PdfDocument.FillSlot | backend/pdf_reader.py:893-899 | a present value is kept; a missing one takes the first constraint of its kind with a non-empty value, and otherwise stays missing |
| PdfDocument.FillMaterial | backend/pdf_reader.py:893-896 | the material is kept if present, else it is the first non-empty grade |
| PdfDocument.FillFinish | backend/pdf_reader.py:897-899 | the finish is kept if present, else it is the first non-empty treatment |
| PdfDocument.NoPageConstraints | backend/pdf_reader.py:888-899 | an item whose page has no constraints is unchanged |
| PdfDocument.BlockTotalsShape | backend/pdf_reader.py:969-976 | a block has one line more than its newlines, no more newlines than characters, and at most one short line per line |
| PdfDocument.FragmentedIff | backend/pdf_reader.py:959-988 | the text is fragmented exactly when it has characters and either more than 15 newlines per 100 characters or more than 3 short lines in 10 |
| PdfDocument.RatioAbove | backend/pdf_reader.py:982-988 | a ratio exceeds `num/den` exactly when the cross-multiplied integers say so |
| PdfDocument.ReferenceSetMembers | backend/pdf_reader.py:901-918 | the references are exactly the cleaned, upper-cased item references plus the first pattern match in each grade or dimension constraint |
| PdfDocument.SortedListingUnique | backend/pdf_reader.py:918 | a sorted list without repeats is determined by its members |
| PdfDocument.SortedListing | backend/pdf_reader.py:918 | the listing is the names in order, each once |
| PdfDocument.CollectNames | backend/pdf_reader.py:904-910 | the item loop gathers the names element by element |
| PdfDocument.ConstraintReferencesOf | backend/pdf_reader.py:912-916 | the constraint loop gathers each grade or dimension constraint's match |
| PdfDocument.AccumulateTotals | backend/pdf_reader.py:969-976 | the accumulation loop sums characters, newlines, lines and short lines over the blocks |
| PdfDocument.PdfReader.constructor | backend/pdf_reader.py:264-275 | the reader holds the items, constraints and text blocks found on the pages |
| PdfDocument.PdfReader.ParseRowToItem | backend/pdf_reader.py:468-515 | corrected (third Findings row), so an empty text cell gives the field's default rather than "None": the row is read into an item numbered after the items so far |
| PdfDocument.PdfReader.ExtractBomFromTable | backend/pdf_reader.py:458-466 | corrected (third Findings row): every non-blank row that reads as an item is appended |
| PdfDocument.PdfReader.ValidateAndDedupeBomItems | backend/pdf_reader.py:781-807 | the first valid item of each key is kept, in order, and the kept items are numbered 1..n |
| PdfDocument.PdfReader.CorrelateConstraintsWithItems | backend/pdf_reader.py:888-899 | each item takes its page's constraints in order: a grade fills a missing material, and a treatment fills a missing finish |
| PdfDocument.PdfReader.ExtractAllProfileReferences | backend/pdf_reader.py:901-918 | the result is the document's references, sorted, each once |
| PdfDocument.PdfReader.CheckIfTextFragmented | backend/pdf_reader.py:959-988 | the result is the fragmented-text test on the text blocks |
| Correlator.ParseDimensionMax | backend/budget_calculator.py:410-424 | the value is one of the numbers in the text and no number there is larger; there is none exactly when the text has no digit |
| Correlator.MaxOf | backend/budget_calculator.py:421 | the maximum is an element, and no element is larger |
| Correlator.DimensionNumbersEmpty | backend/budget_calculator.py:416 | the scan finds a number exactly when a digit is left to read |
| Correlator.WithoutSeparators | backend/budget_calculator.py:442 | the result has no dash, underscore or white space |
| Correlator.FiledAllGet | backend/budget_calculator.py:434-448 | an index reads at `k` the last item filed under `k`, and nothing when no item is |
| Correlator.ByReferenceGet | backend/budget_calculator.py:438-443 | `by_reference[k]` is the last item whose reference gives the key `k` |
| Correlator.NoEmptyReferenceKey | backend/budget_calculator.py:438-443 | the corrected index has no empty key |
| Correlator.ConstraintIndexGet | backend/budget_calculator.py:452-460 | a type's group holds exactly the constraints of that type, in order; a type without constraints has no group |
| Correlator.ConstraintIndexTyped | backend/budget_calculator.py:452-460 | each constraint is grouped under its own type |
| Correlator.HighSpecsRegrouped | backend/budget_calculator.py:559-566 | grouping by type neither loses nor repeats a high-importance constraint |
| Correlator.SpecsForIndex | backend/budget_calculator.py:530-568 | the row's material and finish are kept; a missing one comes from the first constraint of its type; the thickness is the row's; certifications and high constraints are recorded |
| Correlator.ProfileMatchCascade | backend/budget_calculator.py:462-510 | a layer filed as a reference matches at 0.9; else the first overlapping reference at 0.8; else the first row mentioning the material hint at 0.6 |
| Correlator.BlockCorrelationsFromDxf | backend/budget_calculator.py:512-528 | every block-count correlation keeps its DXF quantity |
| Correlator.DxfPath | backend/budget_calculator.py:261-279 | the DXF path gives one correlation per profile, in order, then the block counts |
| Correlator.DxfPrevails | backend/budget_calculator.py:242-302 | with DXF profiles, every correlation takes its quantity from the DXF, and no fallback is used |
| Correlator.PdfFallbackPath | backend/budget_calculator.py:281-296 | without DXF geometry but with PDF rows, there is one correlation per row, in order, at 0.5, quantity from the PDF |
| Correlator.DimensionScanKeeps | backend/budget_calculator.py:370-389 | the dimension loop keeps each distinct non-empty text whose largest number exceeds 50, with that number as the length |
| Correlator.ConstraintFallbacksShape | backend/budget_calculator.py:324-368 | the material items come first, in constraint order, then the treatment items |
| Correlator.DimensionFallbacksShape | backend/budget_calculator.py:370-389 | the dimension items carry their lengths, in the order the texts were kept |
| Correlator.FallbackShape | backend/budget_calculator.py:304-408 | at most 10 material and 5 treatment items, then the dimension items of the first 20 entries, or the `PROJ-01` placeholder alone |
| Correlator.CorrelationsNonEmpty | backend/budget_calculator.py:242-302 | `correlate_data` never returns an empty list, and logs the fallback exactly when it uses it |
| Correlator.SeparatorFiledTwice | backend/budget_calculator.py:438-443 | as written, a separator-only reference is filed under itself and under the empty key |
| Correlator.SeparatorReferenceMatchesAnyProfile | backend/budget_calculator.py:478-487 | as written, such a row matches at 0.8 a profile it has nothing in common with |
| Correlator.SeparatorReferenceCorrected | backend/budget_calculator.py:478-487 | with the empty key dropped, the same row no longer matches that profile |
| Pricer.FirstPatternMatch | backend/budget_calculator.py:718-722 | the result is the match of the first pattern that occurs, and nothing exactly when none occurs |
| Patterns.SearchCorrect | backend/budget_calculator.py:719 | `re.search` finds a match exactly when some piece of the text matches, returns a matching piece, and no match starts earlier |
| Pricer.Designation | backend/budget_calculator.py:714-727 | the first non-empty term whose upper-cased text contains a designation decides it, and nothing exactly when no term does |
| Pricer.DesignationNonEmpty | backend/budget_calculator.py:701-727 | a designation found is non-empty and starts with a non-blank |
| Pricer.LineDesignationNonEmpty | backend/budget_calculator.py:714-730 | a line's designation is never blank, so the guarded search and the search as written find the same profile |
| Pricer.CatalogCostFacts | backend/budget_calculator.py:734-738 | the length is positive (one metre when missing), the weight and cost are those of that length, and the seven parts add up |
| Pricer.CatalogPricedFacts | backend/budget_calculator.py:740-756 | the unit cost is the cost of the length, the total is unit times quantity and splits into five parts, the note names the profile, and nothing else changes |
| Pricer.TreatmentRateDefault | backend/budget_calculator.py:855-864 | an unknown treatment is priced as standard powder coating, "none" costs nothing, and rates are non-negative when the parameters are |
| Pricer.EstimatedGeometry | backend/budget_calculator.py:826-846 | the weight chain keeps the line's quantity, id and reference |
| Pricer.EstimatedGeometryFacts | backend/budget_calculator.py:826-846 | a given weight is kept; only weight, length and perimeter change; the weight becomes positive except for an area without a section; a line without geometry becomes one 0.5 kg metre |
| Pricer.FormulaPriced | backend/budget_calculator.py:822-889 | a formula-priced line of at least one unit is settled, accessories are 8% of the material, and its identity is kept |
| Pricer.FormulaCosts | backend/budget_calculator.py:822-875 | a weightless line has no material or extrusion cost |
| Pricer.Settle | backend/budget_calculator.py:877-889 | for a line of at least one unit, the components add up to the unit cost times the quantity; accessories are 8% of the material; the identity is kept |
| Pricer.FormulaPricedFrame | backend/budget_calculator.py:822-889 | the formula changes only the costs, plus what the weight chain changes |
| Pricer.CatalogPriceShape | backend/budget_calculator.py:688-758 | a catalogue-priced line is priced at the cost of some profile's length |
| Pricer.PricedLineSettled | backend/budget_calculator.py:814-889 | on either route, a priced line of at least one unit has components that add up to unit cost times quantity, and keeps its identity |
| Pricer.PricedLineRoutes | backend/budget_calculator.py:818-820 | a catalogue-priced line does not depend on the parameters or the treatment; any other line is formula-priced |
| BudgetLines.FinishPassesUnknown | backend/budget_calculator.py:676-686 | an unknown treatment code is passed through as the finish |
| BudgetLines.FinishRenamesKnown | backend/budget_calculator.py:676-686 | every known treatment gets a readable name distinct from its code |
| BudgetLines.FinishNamesDistinct | backend/budget_calculator.py:676-686 | no two known treatments share a finish name |
| BudgetLines.HoleCount | backend/budget_calculator.py:644-645 | the hole count is at most the number of features, and zero exactly when no feature is a hole |
| BudgetLines.DraftLineFacts | backend/budget_calculator.py:592-653 | a correlation gives a line exactly when it has a source, with its number, at least one unit, and the right quantity source, confidence, method, finish and specification source |
| BudgetLines.QuantityPriority | backend/budget_calculator.py:598-622 | the quantity is the DXF profile's, else the block count's, else the PDF row's truncated; never below one |
| Numerals.Trunc | backend/budget_calculator.py:611 | `int()` of a float truncates toward zero |
| BudgetLines.DxfGeometry | backend/budget_calculator.py:632-653 | a profile line takes the profile's weight, complexity and id, and a non-zero length whenever there is one; a block line takes its unit length and area |
| BudgetLines.PricedLineKeeps | backend/budget_calculator.py:814-889 | pricing changes costs and measurements, never what the line is |
| BudgetLines.PricingFaithful | backend/budget_calculator.py:814-889 | line pricing satisfies the pricing promises for any parameters, catalogue and treatment |
| BudgetLines.LineMakerFaithful | backend/budget_calculator.py:589-658 | with faithful pricing, the lines keep every promise of the draft |
| BudgetLines.LinesShape | backend/budget_calculator.py:586-658 | at most one line per correlation, numbered in increasing order, each settled |
| BudgetLines.LinesTotal | backend/budget_calculator.py:586-658 | when every correlation has a source, the `k`-th line comes from the `k`-th correlation and is numbered `k + 1` |
| BudgetLines.BudgetLinesShape | backend/budget_calculator.py:570-658 | budget lines are at most one per correlation, numbered in increasing order, with at least one unit, and their components add up |
| BudgetLines.PrimaryCorrelationsHaveSource | backend/budget_calculator.py:261-279 | with DXF profiles, every primary correlation has a source |
| BudgetLines.FallbackCorrelationsHaveSource | backend/budget_calculator.py:304-408 | every fallback correlation has a PDF row, real or placeholder |
| BudgetLines.CorrelationsHaveSource | backend/budget_calculator.py:242-302 | every correlation `correlate_data` returns has a source |
| BudgetLines.EveryCorrelationPriced | backend/budget_calculator.py:586-658 | no correlation is skipped: line `k` comes from correlation `k` and is numbered `k + 1` |
| BudgetLines.DxfQuantitiesPrevail | backend/budget_calculator.py:242-302 | with DXF profiles, the first lines are the profiles in order with their quantities, all sourced "dxf", and the rest count blocks |
| BudgetLines.PdfQuantitiesAsFallback | backend/budget_calculator.py:281-296 | without DXF but with PDF rows, there is one line per row with its truncated quantity, PDF specifications and confidence 0.5 |
| BudgetLines.LowConfidenceCountPositive | backend/budget_calculator.py:993-994 | a line is counted exactly when some line's confidence is below 0.5 |
| BudgetLines.RecommendationsWarranted | backend/budget_calculator.py:949-1002 | every category is recommended exactly when its condition holds |
| BudgetLines.RecommendationCount | backend/budget_calculator.py:949-1002 | there are one to five recommendations, and price protection is always among them |
| BudgetLines.RecommendationConditions | backend/budget_calculator.py:957-1000 | material optimisation when waste exceeds 12%, labour efficiency above 15 euros per unit, volume discount above 1000 kg, data quality when a confidence is below 0.5 |
| BudgetLines.QuickEstimateOrdered | backend/budget_calculator.py:1005-1015 | the estimate is weight times a price per kg between 10 and 20; an unknown complexity counts as medium; higher complexity never costs less |
| Summary.WastePercentage | backend/budget_calculator.py:924-925 | the waste percentage is capped at 20% and is otherwise the base plus the complexity surcharge |
| Summary.Summarize | backend/budget_calculator.py:891-947 | the summary counts the lines, carries the project and sources, and applies at most 20% waste |
| Summary.QuoteChain | backend/budget_calculator.py:924-947 | the quote is direct costs marked up by overhead and then by margin; waste is its share of material; hours times rate is labour |
| Summary.MarkUp | backend/budget_calculator.py:939-944 | adding `pct`% of a base multiplies the base by `1 + pct/100` |
| Summary.QuoteCoversDirectCosts | backend/budget_calculator.py:929-944 | with non-negative costs and percentages, direct costs ≤ subtotal ≤ quote |
| Summary.TotalsAddUp | backend/budget_calculator.py:911-915 | the five cost totals of lines that add up sum to the line totals |
| Summary.DirectCostsOfSettledLines | backend/budget_calculator.py:911-936 | for priced lines, the direct costs are the sum of line totals plus the waste allowance |
| Summary.EmptyBudget | backend/budget_calculator.py:891-947 | a budget without lines quotes nothing, with average complexity zero |
| Calculator.FirstOverlapping | backend/budget_calculator.py:481-487 | the strategy-2 loop finds the first filed reference overlapping the profile id |
| Calculator.FirstMentioning | backend/budget_calculator.py:489-497 | the strategy-3 loop finds the first row whose description mentions the hint |
| Calculator.FirstMatch | backend/budget_calculator.py:718-722 | the inner loop returns the first pattern's match |
| Calculator.FindDesignation | backend/budget_calculator.py:714-724 | the outer loop skips empty terms and stops at the first designation |
| Calculator.LookupStep | backend/budget_calculator.py:434-448 | filing one more row extends both indexes by that row's keys |
| Calculator.ApplyCatalogCost | backend/budget_calculator.py:740-756 | the update sets the catalogue-priced line |
| Calculator.SettleCosts | backend/budget_calculator.py:877-889 | the end of line costing settles the line |
| Calculator.EstimateGeometry | backend/budget_calculator.py:826-846 | the weight chain as the method runs it |
| Calculator.FormulaCosts | backend/budget_calculator.py:822-889 | the formula route as the method runs it |
| Calculator.BudgetCalculator.constructor | backend/budget_calculator.py:236-240 | the parameters are the given ones or the defaults, with nothing calculated yet |
| Calculator.BudgetCalculator.BuildPdfLookup | backend/budget_calculator.py:426-450 | corrected (fourth Findings row), so no row is filed under the empty key: rows are filed by reference, by reference without separators, and by the first 30 characters of the description; a later row replaces an earlier one |
| Calculator.BudgetCalculator.IndexConstraints | backend/budget_calculator.py:452-460 | each constraint is appended to its type's group, and a new group is opened at the end |
| Calculator.BudgetCalculator.ExtractSpecifications | backend/budget_calculator.py:530-568 | the loops compute the specifications of the match |
| Calculator.BudgetCalculator.CollectHighConstraints | backend/budget_calculator.py:559-566 | the nested loop collects the high-importance constraints, group by group |
| Calculator.BudgetCalculator.CorrelateProfileWithPdf | backend/budget_calculator.py:462-510 | the method runs the 0.9 / 0.8 / 0.6 cascade and keeps the profile's quantity |
| Calculator.BudgetCalculator.CreateMaterialCorrelation | backend/budget_calculator.py:512-528 | the block count is matched by its upper-cased reference |
| Calculator.BudgetCalculator.CorrelateProfiles | backend/budget_calculator.py:270-272 | one correlation per DXF profile, in order |
| Calculator.BudgetCalculator.CorrelateBlocks | backend/budget_calculator.py:275-279 | a correlation per block-count quantity |
| Calculator.BudgetCalculator.CorrelatePdfOnly | backend/budget_calculator.py:288-296 | every row at confidence 0.5 with its own quantity |
| Calculator.BudgetCalculator.CorrelatePrimary | backend/budget_calculator.py:248-296 | the correlations of the path taken, logged; the lines and summary are unchanged |
| Calculator.BudgetCalculator.CorrelateData | backend/budget_calculator.py:242-302 | the correlations, or the fallback items when the path gives none, with the log extended |
| Calculator.BudgetCalculator.MaterialItems | backend/budget_calculator.py:332-349 | each grade becomes `MAT-01`, `MAT-02`, … |
| Calculator.BudgetCalculator.TreatmentItems | backend/budget_calculator.py:351-368 | each treatment is appended as `TRAT-01`, `TRAT-02`, … |
| Calculator.BudgetCalculator.ConstraintItems | backend/budget_calculator.py:324-368 | constraints grouped by type, then the first 10 grades and the first 5 treatments |
| Calculator.BudgetCalculator.DimensionItems | backend/budget_calculator.py:370-389 | each new dimension text longer than 50 is appended, numbered after the existing items |
| Calculator.BudgetCalculator.CreateFallbackCorrelations | backend/budget_calculator.py:304-408 | the constraint items, then the dimension items, or the placeholder, with the fallback logged |
| Calculator.BudgetCalculator.TryCalculateFromCostDb | backend/budget_calculator.py:688-758 | nothing without a catalogue, a designation or a catalogue profile; otherwise the line priced from the profile's cost for its length |
| Calculator.BudgetCalculator.CalculateLineCosts | backend/budget_calculator.py:814-889 | the catalogue route when it succeeds, otherwise the weight chain and the formula |
| Calculator.BudgetCalculator.DraftLine | backend/budget_calculator.py:589-653 | the unpriced line for a correlation, or nothing for a correlation without a source |
| Calculator.BudgetCalculator.PriceCorrelations | backend/budget_calculator.py:586-658 | the lines are reset, then each correlation with a source adds a priced line numbered by its position |
| Calculator.BudgetCalculator.CalculateSummary | backend/budget_calculator.py:891-947 | the summary of the current lines; lines and log are unchanged |
| Calculator.BudgetCalculator.CalculateBudget | backend/budget_calculator.py:570-674 | corrected lookup (fourth Findings row): the correlations, one priced line per correlation with a source, their summary, and the sources used |
| Calculator.BudgetCalculator.GetAiRecommendations | backend/budget_calculator.py:949-1002 | none before a budget; after one, one to five, always price protection, and each other category exactly when warranted |
| Api.CategorizeDxf | backend/main.py:546-564 | the category is one of six, and "error" exactly for a failed analysis |
| Api.DxfCategoryExactly | backend/main.py:546-564 | a successful drawing gets a category exactly when that category's condition holds |
| Api.CategorizePdf | backend/main.py:567-582 | the category is one of five, and "error" exactly for a failed analysis |
| Api.PdfCategoryExactly | backend/main.py:567-582 | a successful document gets a category exactly when that category's condition holds |
| Api.GetBump | backend/main.py:486-487 | bumping raises that type's count by `c` and leaves the others |
| Api.SumValuesBump | backend/main.py:486-487 | bumping raises the total by `c` |
| Api.AddCountsGet | backend/main.py:486-487 | adding counts raises each type by its listed counts and leaves the others |
| Api.AddCountsTotal | backend/main.py:486-487 | adding counts raises the total by the added total |
| Api.AddFeatureCounts | backend/main.py:486-487 | the loop adds one drawing's counts, type by type |
| Api.MergeDxfFacts | backend/main.py:460-504 | corrected (fifth Findings row): the merge counts every drawing, succeeds exactly when one was read, and holds the read drawings' lists and totals |
| Api.MergedFeatureCount | backend/main.py:479-502 | each merged feature count is the sum over the successful drawings |
| Api.MergedLayersLastWins | backend/main.py:479-500 | a merged layer or block is the last successful drawing's entry |
| Api.MergeDxfAnalysis | backend/main.py:479-500 | one pass of the merge loop, field by field |
| Api.MergeDxfAnalyses | backend/main.py:460-504 | the drawing half of the merge computes the corrected merged view |
| Api.Distinct | backend/main.py:538 | each reference appears once, and the members are kept |
| Api.MergePdfFacts | backend/main.py:506-543 | corrected (fifth Findings row): the merge counts every document, succeeds exactly when one was read, and holds lists, totals and distinct references |
| Api.MergedReferences | backend/main.py:521-538 | a reference is merged exactly when a successfully read document names it |
| Api.MergePdfAnalysis | backend/main.py:521-536 | one pass of the merge loop, field by field |
| Api.MergePdfAnalyses | backend/main.py:506-543 | the document half of the merge computes the corrected merged view |
| Api.Project.constructor | backend/main.py:289-308 | a new project has no files, no merged views, and no budget |
| Api.Project.MergeProjectAnalyses | backend/main.py:460-543 | corrected (fifth Findings row): the merged view of each kind with analyses is rebuilt, and nothing else changes |
| Api.Project.Receive | backend/main.py:360-430 | one file's result is reported, and its analysis is stored when it is a drawing or a document |
| Api.Project.Upload | backend/main.py:334-444 | corrected merge (fifth Findings row): every analysis is stored, read or not; one result is reported per file; the merged views are rebuilt at the end |
| Api.ApplyOverrides | backend/main.py:721-726 | every given value replaces its parameter, and every other parameter is kept |
| Api.OverridesIdempotent | backend/main.py:721-726 | overriding twice is overriding once, and an empty update changes nothing |
| Api.Admit | backend/main.py:704-747 | corrected (fifth Findings row), so a project whose only drawing failed is turned away: turned away exactly when neither picked analysis succeeded; otherwise the defaults with overrides, and sources named as the endpoint names them |
| Api.RejectedIffNothingRead | backend/main.py:704-719 | with the corrected merges, a request is turned away exactly when no file was read |
| Api.AsWrittenRejectsOnlyEmptyProjects | backend/main.py:460-543 | as written, a request is turned away only for a project without uploads |
| Api.UnreadableDrawingAdmittedAsWritten | backend/main.py:460-504 | a single unreadable drawing is admitted as written and turned away with the correction |
| Api.Assemble | backend/main.py:729-747 | the stored budget holds a summary counting one profile per line, the parameters, the lines and the sources |
| Api.Quote | backend/main.py:722-747 | the stored budget for an admitted request holds a summary, its parameters and sources |
| Api.RunEngine | backend/main.py:729-739 | a fresh calculator computes the budget and its recommendations |
| Api.CalculateBudget | backend/main.py:693-754 | corrected (the Findings rows; a project whose only drawing failed gets no data): not found, no data, and division by zero each exactly in their case; otherwise the quote is stored and the analyses are unchanged |
| Api.Simulation | backend/main.py:778-790 | the target margin is reported back |
| Api.SimulateMarginRequest | backend/main.py:766-790 | corrected (sixth Findings row), so the budget's own margin is reported as the original: not found exactly without a project, no budget exactly without a budget, otherwise the simulation |
| Api.SimulatedQuote | backend/main.py:779-782 | the new total is the subtotal times `1 + target/100` |
| Api.DifferentMarkUps | backend/main.py:779-782 | two different margins on a non-zero subtotal give different simulated quotes |
| Api.OwnMarginReproducesQuote | backend/main.py:779-787 | simulating the reported margin gives back the budget's own margin and quote |
| Api.AsWrittenMisreportsMargin | backend/main.py:785 | as written, a margin other than 20% is reported as 20%, and simulating it changes the quote |

## Left out

- File reading, OCR, and the `ezdxf` and `pdfplumber` extraction are not modelled. The DXF parser is modelled from its analysed entities, and the PDF reader from the pages' items, constraints and text blocks.
- `_parse_table_exhaustive` and the table strategies are not modelled. The reader's table methods take the header map and rows as arguments.
- The web layer is not modelled: FastAPI, HTTP status codes, JSON serialisation and `to_dict`. Errors are datatype cases.
- The projects table is modelled as a `Project?` argument.
- Generated ids and timestamps are parameters.
- `HAS_COST_DB` is modelled by a null catalogue argument. `_try_calculate_cladding_from_cost_db` and `get_all_cladding` are not part of this model, because the budget path never calls them.
- `round()` in reported values is not modelled. The model works on the unrounded values.
- Floats are modelled as exact reals, so the model has no overflow, no rounding and no NaN.
- The `str(float)` formatting in reported texts is not modelled. Where `_extract_number` re-reads a parsed float, only the value that `[\d.]+` reads from `str` is modelled (`Numerals.FloatReadBack`), with the mantissa of the exponent form taken as an exact real rather than Python's shortest digits.
- Unicode digits are not modelled: `Strings.IsDigit` accepts ASCII `0` to `9` only, while Python's `\d` and `float()` also accept other decimal digits, such as the full-width `３`. A cell written in such digits reads as a number in the source and as nothing in the model.
- Default arguments are not modelled as defaults. `Api.SimulateMarginRequest` takes the target margin that `simulate_margin` defaults to 25.0 (backend/main.py:767) as a required argument. `Dxf.ProfileData.CalculateWeight` takes the density that `calculate_weight` defaults to 2700 (backend/dxf_parser.py:83), and `Dxf.DxfParser.FindQuantityNearPosition` takes the radius that `_find_quantity_near_position` defaults to 200 (backend/dxf_parser.py:980), as required parameters.
- The pipeline members run the corrected behaviour of the "## Findings" rows, each of which also has an as-written member: `CostCatalog.CostDatabase.FindProfile`, `CostCatalog.CostDatabase.FindCladding`, `CostCatalog.CalculateSteelStructureCost`, `CostCatalog.SteelStructureSingle` and `CostCatalog.CalculateCladdingCost` (empty name); `Pdf.NormalizeHeaders` and `Pdf.NormalizeHeadersIn` (blank header cell); `PdfDocument.PdfReader.ParseRowToItem` and `PdfDocument.PdfReader.ExtractBomFromTable` (empty text cell); `Calculator.BudgetCalculator.BuildPdfLookup` and `Calculator.BudgetCalculator.CalculateBudget` (separator-only reference); `Api.MergeDxfFacts`, `Api.MergePdfFacts`, `Api.Project.MergeProjectAnalyses`, `Api.Project.Upload`, `Api.Admit` and `Api.CalculateBudget` (merged success); `Api.SimulateMarginRequest` (original margin).
- `sqrt`, the arc and ellipse geometry, and `_calculate_perimeter` are not modelled. Perimeters are inputs.
- The regular expressions of `_detect_material_from_name` and `_extract_quantity_from_text` are parameters (a matcher per pattern). The designation patterns of `_try_calculate_from_cost_db` and the reference pattern of `_extract_all_profile_references` are modelled.
- `_is_valid_bom_item` is the parameter `isValid` of `ValidateAndDedupeBomItems`.
- Recommendation texts are not modelled. Each recommendation carries its category, priority and saving kind.
- Character handling covers upper and lower case only: ASCII, and the Latin-1 accented capitals the item normaliser removes. Other Unicode case mappings are not modelled.
- `list(set(...))` has no defined order in Python. The model keeps first occurrences in order. Only the members and the absence of repeats are stated.
- The file extension is given with each uploaded file rather than derived from its name.
- The extractors called by the upload loop are function parameters.
- Missing statistics keys read as 0, and missing dictionary keys read as their defaults.
- The `source_file` tags that the merge adds to merged items are not modelled.
- A JSON object whose content the core never inspects is modelled as an opaque value.
- CostCatalog.ProfileRetrievableByName: stated only when no two rows share a key. The index keeps the last row assigned to a key.
- Pricer.FormulaPriced: requires a non-zero EUR/USD rate. That rate is a constant the calculate request cannot override.
- Summary.Summarize: requires a non-zero labour rate. A zero labour-rate override is modelled as the `DivisionByZero` response of `Api.CalculateBudget`.

## Findings

| source | as written | input that shows it | evidently intended | confidence | as-written member | corrected member |
|---|---|---|---|---|---|---|
| backend/cost_database.py:385-407 | the empty search term is a substring of every key, so `find_profile` returns the first profile; `calculate_steel_structure_cost` passes `""` for a request without `"profile"` | `[{"length": 10}]` prices 10 m of the first catalogue profile | a name that normalises to nothing finds nothing | not executed | CostCatalog.EmptyNameMatchesFirstProfile | CostCatalog.FindProfileStrict |
| backend/cost_database.py:409-435 | the same for `find_cladding`, reached from `calculate_cladding_cost` for a request without `"item"` | `[{"quantity": 5}]` prices 5 units of the first facade item | a name that normalises to nothing finds nothing | not executed | CostCatalog.EmptyNameMatchesFirstCladding | CostCatalog.FindInSourcesStrict |
| backend/pdf_reader.py:498-508 | an empty text cell is parsed to `None`, and `str(None)` gives the text "None" | the row `["", "Bracket"]` under the headers reference, description gives the reference "None" | an empty cell reads as the field's default | not executed | PdfItems.EmptyReferenceReadsNone | PdfItems.EmptyReferenceReadsEmpty |
| backend/budget_calculator.py:438-443 | a reference made only of separators is filed under the empty key once the separators are removed, and every profile id contains `""` | the row with reference `"-"` matches at 0.8 a profile whose layer is not a reference | a reference without characters is not filed | not executed | Correlator.SeparatorReferenceMatchesAnyProfile | Correlator.SeparatorReferenceCorrected |
| backend/main.py:460-504 | the merged drawing view sets `success` to true even when no drawing was read, and the endpoint checks only that flag | one drawing whose analysis failed is admitted and priced | the merged view succeeds only when a drawing was read | not executed | Api.UnreadableDrawingAdmittedAsWritten | Api.RejectedIffNothingRead |
| backend/main.py:785 | `original_margin_pct` is read from the summary's metrics, which never hold `profit_margin_pct`, so it is always 20 | a budget priced at a 30% margin reports 20, and simulating 20 changes the quote | the margin the budget was priced with | not executed | Api.AsWrittenMisreportsMargin | Api.OwnMarginReproducesQuote |
| backend/pdf_reader.py:432-456 | a blank header cell is truthy, cleans to `""`, and every mapping key contains `""`, so it names the quantity column | the header row `[" "]` is accepted as a bill-of-materials header | a blank header cell names nothing | not executed | Pdf.BlankHeaderRowAccepted | Pdf.VisibleHeaderMapSound |
