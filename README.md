# Repair catalog search: retrieval, trade-term expansion, pricing and ingestion

This project models the core of a browser application that helps a technician search a catalog of
repair procedures and parts. It covers four pieces:

- **`VectorStore`**: two parallel arrays, one of embedding vectors and one of catalog items.
  - Before anything is embedded, the text is expanded with a dictionary of trade terms
    (`enhanceSearchText`).
  - `addItem` appends a vector and its item together.
  - `search` ranks every stored vector against the query with a stable sort by descending score
    and keeps the first `k`.
- **`SearchEngine`**: prices a matched record.
  - A cost is rounded to cents and multiplied by the markup of the first tier whose range holds it.
  - A repair's total is its labour at the hourly rate plus its marked-up parts.
- **`FileProcessor`**: ingests the data.
  - It parses two fixed-width repairs files, a fixed-width parts file and a markup file.
  - It groups the parts by repair number and gives each repair its group.
  - It keeps the items that have a description and adds them to the store fifty at a time.
- **Text built-ins** the code relies on: `toLowerCase`, `includes`, `trim`, `substring`, `split`,
  `parseFloat` and `parseInt`. Only `toLowerCase` and `trim` are restricted (see "Left out"); the
  others work on any characters.

Modules:

- `Wrappers`: `Option` and `Result`.
- `Text`: the string built-ins.
- `Seqs`: filtering maps and flattening.
- `Records`: `Part`, `Repair`, `Item` and `Tier`.
- `TradeTerms`: the dictionary and the expansion.
- `Retrieval`: `VectorStore` and the ranking.
- `Pricing`: markup, totals and `SearchEngine`.
- `Ingest`: the parsers, the grouping, the batches and `FileProcessor`.

How the source's code is modelled:

- Code that mutates in place has an imperative counterpart: the `enhanceSearchText` loops, the
  parse loops, the `partsMap` loop, the retry loop and the batch loops are methods with loop
  invariants.
  - The `enhanceSearchText` loops and the parse loops are proved equal to recursive functions,
    and the properties are proved about those functions.
  - The retry loop (`LoadModel`), the `partsMap` loop (`BuildPartsMap`) and the batch loops
    (`AddBatch`, `AddAll`) are specified directly: by the predicate `ModelLoads`, by what the map
    holds under each key, and by the new state of the store's arrays.
- The three classes are Dafny classes with the source's fields.
- Outside effects become parameters:
  - the embedding model is the function `embed`;
  - the similarity is the function `similarity`;
  - the outcome of each model-load attempt is `loadSucceeds`;
  - what the persistence adapter's `loadData` returns is `stored`.

Where the code and its documented behaviour disagree, the model follows the code:

- The total of a part record is 0. `calculateTotal` reads only `laborTime`, `associatedParts` and
  `partsCost`, and a part has none of them (`searchEngine.js:50-77`). It is not the part's
  marked-up cost.
- A quantity of 0 counts as 1 (`parseInt(...) || 1`, `searchEngine.js:63`).
- A blank refrigerant cost is $40.00 (`fileProcessor.js:116`).
- Ingestion saves the store's vectors beside this run's items only (`fileProcessor.js:211`). It
  does not replace the stored data wholesale, so a store that already held vectors saves more
  vectors than items. `ProcessFiles` follows the code; `ProcessFilesReplacing` is the corrected form (see "Findings").

## Model

| member | source | states |
|---|---|---|
| `Text.Split` | js/fileProcessor.js:32 | splitting at `'\n'` gives at least one piece, no piece holds the separator, and joining the pieces gives the content back |
| `Text.SplitOfJoin` | js/fileProcessor.js:32 | splitting lines that hold no newline, joined by newlines, gives those lines back |
| `Text.Trim` | js/fileProcessor.js:35 | the trimmed text has no white space at either end; it is empty exactly when the input is all white space |
| `Text.TrimPadded` | js/fileProcessor.js:35 | the trimmed text occurs in the input at a position with only white space before it and only white space after it, so `trim` removes white space at the ends and nothing else |
| `Text.Lower` | js/vectorStore.js:153 | `toLowerCase` keeps the length and lowers each character: A-Z become a-z and every other character stays |
| `Text.ContainsPrefix` | js/vectorStore.js:158 | `includes` finds every prefix of a text |
| `Text.ContainsGrows` | js/vectorStore.js:160 | a term found in a text is still found after more text is appended |
| `Text.NotContainedByFirst` | js/vectorStore.js:160 | `includes` is false when the term's first character appears at no position where the term could start |
| `Text.ParseFloat` | js/fileProcessor.js:37-39 | a number only for non-empty text; a string of digits, with or without a leading `-`, reads as the number it writes |
| `Text.ParseInt` | js/fileProcessor.js:117 | a number only for non-empty text; a string of digits, with or without a leading `-`, reads as the whole number it writes |
| `Text.Substring` | js/fileProcessor.js:37-39 | `substring(from, to)` clamps both indices to the length: the exact slice when the line is long enough, the rest of the line when it ends inside the field, nothing when it ends before the field, and never more than `to - from` characters |
| `Text.TrimIdempotent` | js/fileProcessor.js:73 | trimming a trimmed column changes nothing |
| `Text.ParseIntOfNatToString` | js/fileProcessor.js:117 | `parseInt` of a written whole number gives that number |
| `TradeTerms.EnhanceSearchText` | js/vectorStore.js:151-180 | the nested loops over categories, entries and variations compute the expansion function `Enhanced` |
| `TradeTerms.Enhanced` | js/vectorStore.js:153 | the expansion starts with the lower-cased input, unchanged: terms are only appended |
| `TradeTerms.EnhancedTrace` | js/vectorStore.js:156-176 | the expanded text is the lower-cased input followed by `" " + t` for a sequence of terms; each `t` is a formal term or variation of the dictionary that was not yet a substring of the growing text |
| `TradeTerms.EnhancedCovers` | js/vectorStore.js:158-173 | if the lower-cased input contains an entry's formal term or any of its variations, the expanded text contains the formal term and every variation |
| `TradeTerms.RefrigerantQueryExpands` | js/vectorStore.js:54-55 | with the refrigerant category, the query "r410a leak" gains "puron" and "410a" |
| `TradeTerms.SynonymExpansionIsSymmetric` | js/vectorStore.js:54-55 | a document saying "puron" gains "r410a", and a query saying "r410a" gains "puron" |
| `TradeTerms.NumericSubstringMatchesR22` | js/vectorStore.js:56 | matching is by substring: "unit 1225" contains "22" and so gains "r22" |
| `Retrieval.LoadModel` | js/vectorStore.js:18-30 | at most three attempts; loading succeeds exactly when one of the three does; it stops at the first success; when every attempt fails, all three were made |
| `Retrieval.EmbeddingInput` | js/vectorStore.js:237 | the model's input is the first `min(n, 1000)` characters of the trimmed text, `n` its length |
| `Retrieval.GenerateEmbedding` | js/vectorStore.js:226-250 | an empty text is refused; otherwise the result is the model's vector for the cut text, and an empty vector is an error |
| `Retrieval.Insert` | js/vectorStore.js:196-197 | inserting an index into a ranked list keeps it ranked and adds exactly that index |
| `Retrieval.Rank` | js/vectorStore.js:196-198 | the result is the top `min(k, n)` indices in stable descending-score order, and every index left out ranks after every index kept |
| `Retrieval.TopKUnique` | js/vectorStore.js:196-198 | two rankings that meet the top-k specification are equal, so the specification fixes the stable sort's output |
| `Retrieval.VectorStore.constructor` | js/vectorStore.js:2-10 | a new store is empty, not initialised, has no model and no dictionary |
| `Retrieval.VectorStore.InitializeTradeTerms` | js/vectorStore.js:50-130 | the store's dictionary becomes the trade-term dictionary |
| `Retrieval.VectorStore.Initialize` | js/vectorStore.js:12-48 | fails exactly when no load attempt succeeds, and then changes no data; otherwise it takes over the stored arrays exactly when both are non-empty and reports whether it did |
| `Retrieval.VectorStore.EmbedEnhanced` | js/vectorStore.js:139-140 | the embedding of the expanded text under the store's dictionary |
| `Retrieval.VectorStore.AddItem` | js/vectorStore.js:132-149 | refused without a model; it succeeds exactly when the expanded text has an embedding; success appends that vector and the item together; failure changes neither array |
| `Retrieval.VectorStore.Search` | js/vectorStore.js:182-211 | refused when not initialised or empty; otherwise it succeeds exactly when the expanded query has an embedding, and returns the top `min(k, n)` items with their scores in stable descending-score order; on a store with data every hit has its item; `k` is always passed (the source's default of 5 is not modelled) |
| `Retrieval.VectorStore.HasData` | js/vectorStore.js:281-286 | true exactly when the store is initialised and holds at least one vector, at least one item, and as many items as vectors |
| `Retrieval.VectorStore.ClearCache` | js/vectorStore.js:268-279 | both arrays are emptied, so the store has no data |
| `Pricing.Round2` | js/searchEngine.js:34 | the result is a whole number of cents within half a cent of the cost |
| `Pricing.Round2Idempotent` | js/searchEngine.js:34 | rounding an amount already in cents changes nothing |
| `Pricing.FindTier` | js/searchEngine.js:35-38 | the index of the first tier whose range holds the cost (both ends included), or none exactly when no tier holds it |
| `Pricing.FirstMatchingTier` | js/searchEngine.js:35-38 | conversely, a tier that holds the cost with no earlier tier holding it is the one found |
| `Pricing.CalculateMarkup` | js/searchEngine.js:27-48 | 0 for a cost of zero or less; otherwise the cost in cents times the first matching tier's markup, or the cost in cents when no tier matches |
| `Pricing.MarkupNonNegative` | js/searchEngine.js:27-48 | with no negative markups, the marked-up cost is never negative |
| `Pricing.MarkupIgnoresLaterTiers` | js/searchEngine.js:35-38 | once a tier holds the cost, tiers appended after it change nothing, even overlapping ones |
| `Pricing.MarkupExamples` | js/searchEngine.js:27-48 | with tiers $0-$50 at 2.5x and $50.01-$200 at 1.8x: $40 gives $100, $60 gives $108, $500 gives $500 |
| `Pricing.LaborHours` | js/searchEngine.js:54 | a repair's labour time, or 0 when it has none; 0 for a part |
| `Pricing.Quantity` | js/searchEngine.js:63 | never 0: the part's quantity, or 1 when it is missing or zero |
| `Pricing.ReduceIsSum` | js/searchEngine.js:61-67 | the `reduce` from an accumulator equals the accumulator plus the sum of the parts' line costs |
| `Pricing.SumAppend` | js/searchEngine.js:61-67 | the line costs of two part lists add up |
| `Pricing.SumNonNegative` | js/searchEngine.js:61-67 | with no negative markups or quantities, the parts sum is never negative |
| `Pricing.PartsTotal` | js/searchEngine.js:59-71 | with associated parts, the sum of their marked-up costs times quantities; otherwise the marked-up parts cost when it is present and not zero, and 0 otherwise |
| `Pricing.CalculateTotal` | js/searchEngine.js:50-77 | labour hours times the rate plus the parts sum for a repair with parts; for a repair without parts, labour plus the marked-up parts cost when that cost is present and not zero, and labour alone otherwise; 0 for a part record |
| `Pricing.TotalExample` | js/searchEngine.js:50-77 | 1.5 hours at $95 with a $40 parts cost under the example tiers totals $242.50 |
| `Pricing.SearchEngine.constructor` | js/searchEngine.js:2-6 | no tiers and a labour rate of $95 |
| `Pricing.SearchEngine.Initialize` | js/searchEngine.js:8-25 | takes the stored tiers and keeps the rate; the store gets the trade-term dictionary; it fails exactly when no model-load attempt succeeds, and then keeps the arrays and the flags; on success the store is initialised with its model, takes the stored arrays exactly when both are non-empty, and otherwise keeps its arrays; it then has data exactly when the arrays have equal lengths, there is a tier and the rate is positive |
| `Pricing.SearchEngine.HasData` | js/searchEngine.js:242-248 | true exactly when the store has data, there is at least one tier and the labour rate is positive |
| `Pricing.SearchEngine.ClearCache` | js/searchEngine.js:229-240 | empties the store, drops the tiers and zeroes the rate, so the engine has no data; the dictionary, the model and the flags are not touched |
| `Ingest.MarkupLine` | js/fileProcessor.js:35-48 | a blank line gives nothing; otherwise a tier exactly when all three columns (0-8, 9-17, 18-26) are numbers, holding those numbers |
| `Ingest.ParseMarkupFile` | js/fileProcessor.js:29-54 | the loop returns the tiers of the lines that hold one, in line order |
| `Ingest.MarkupLineRoundTrip` | js/fileProcessor.js:37-39 | a markup line written with three whole numbers in its columns reads back as those numbers |
| `Ingest.NumberColumn` | js/fileProcessor.js:74-76 | a blank numeric column is 0; a column of digits reads as the number it writes; anything else goes through `parseFloat` |
| `Ingest.RepairLine` | js/fileProcessor.js:62-83 | lines under 82 characters are skipped; a longer line gives a repair exactly when its number and description are not blank, with every field taken from its column and no parts |
| `Ingest.ParseRepairsFile` | js/fileProcessor.js:56-89 | the loop returns the repairs of the lines that hold one, in line order |
| `Ingest.RepairEntriesWellFormed` | js/fileProcessor.js:70-80 | every parsed repair has a repair number and a trimmed, non-blank description, and no parts |
| `Ingest.RefrigerantExamples` | js/fileProcessor.js:105-107 | the refrigerant test ignores case and finds its words anywhere: "R-410A 25LB" and "Drum of Refrigerant" are refrigerants, "CAPACITOR" is not |
| `Ingest.PartLine` | js/fileProcessor.js:97-136 | a line gives a part exactly when it has at least 107 characters; fields come from their columns; a refrigerant is told by its description; a blank cost is $40 for a refrigerant and 0 otherwise; a blank quantity is 1 |
| `Ingest.ParsePartsFile` | js/fileProcessor.js:91-142 | the loop returns the parts of the lines that hold one, in line order |
| `Ingest.PartEntriesOfLongLines` | js/fileProcessor.js:96-97 | every line of 107 characters or more gives exactly one part, in line order |
| `Ingest.PartInItsGroup` | js/fileProcessor.js:179-184 | every part is in the group of its own repair number |
| `Ingest.BuildPartsMap` | js/fileProcessor.js:178-184 | the map holds a key exactly for each repair number that has parts, and under it exactly those parts in file order |
| `Ingest.AssociateViaGroups` | js/fileProcessor.js:187-189 | looking parts up in the map gives each repair exactly the parts that share its repair number |
| `Ingest.AllItems` | js/fileProcessor.js:187-194 | no more items than repairs and parts together, each with a non-blank description |
| `Ingest.AllItemsOrder` | js/fileProcessor.js:187-194 | the repairs of both files come first and the parts after them, each kept in order |
| `Ingest.AllItemsCarryTheirParts` | js/fileProcessor.js:187-189 | every repair item in the list carries exactly the parts with its repair number |
| `Ingest.AllItemsKeepParts` | js/fileProcessor.js:190-194 | every part with a non-blank description is in the list |
| `Ingest.AllItemsKeepRepairs` | js/fileProcessor.js:187-194 | every repair with a non-blank description is in the list, with its parts |
| `Ingest.Batches` | js/fileProcessor.js:196-200 | the batches flatten back to the list; each holds 1 to 50 items, all but the last exactly 50; there are `ceil(n / 50)` of them |
| `Ingest.BatchSlice` | js/fileProcessor.js:199-200 | batch `b` is `allItems.slice(50 * b, 50 * b + 50)` and starts inside the list |
| `Ingest.ParseAll` | js/fileProcessor.js:144-194 | the four files are parsed by their own parsers, and the grouping and association steps produce `AllItems` of the parsed files |
| `Ingest.FileProcessor.AddBatch` | js/fileProcessor.js:203 | what was in the store stays in front; every vector added sits beside its item's embedding; every item added is from the batch; without a failure the whole batch is appended in order; a failure means no model or some item of the batch has no embedding |
| `Ingest.FileProcessor.AddAll` | js/fileProcessor.js:196-209 | what was in the store stays in front, and every item added sits beside its embedding; without a failure all items are appended in order; after a failure the added items are the earlier batches whole, in order, followed by items of the failing batch; a failure means no model or some item has no embedding |
| `Ingest.FileProcessor.ProcessFiles` | js/fileProcessor.js:144-219 | as written: returns the parsed repairs, parts and tiers; what was in the store stays in front and `AllItems` is appended beside its embeddings; the payload saved is the store's vectors beside `AllItems`, so when the store held vectors before, the saved vectors outnumber the saved items; a failure saves nothing and leaves the earlier batches whole |
| `Ingest.FileProcessor.ProcessFilesReplacing` | js/fileProcessor.js:144-219 | corrected: the store is emptied first, so on success it holds exactly `AllItems`, each beside its embedding, and the payload saved is the store's own vectors and items, lined up index by index; a failure saves nothing and leaves the earlier batches whole |

## Left out

- The IndexedDB persistence adapter (`js/indexedDB.js`) is not part of this model. What `loadData`
  returns is the parameter `stored` and what `saveData` receives is the field `saved`. Clearing
  is modelled as always succeeding.
- Opening the database (`this.db.initialize()`, `vectorStore.js:15`) is assumed to succeed; its
  failure path is not modelled.
- A Dafny `char` is one Unicode scalar value, while JavaScript's `length` and `substring` count
  UTF-16 code units. Text with characters outside the Basic Multilingual Plane would shift the
  fixed-width columns in the source; the model counts characters.
- The application shell (`app.js`), the HTML rendering and the searchEngine functions that format
  results (`formatSearchResult`, `formatResults`, its `search`) are not modelled: they produce
  markup only.
- The Universal Sentence Encoder is the function parameter `embed`.
- `cosineSimilarity` (floating-point dot products, square roots and the `NaN` a zero vector
  gives) is the function parameter `similarity`. Scores are exact reals, so `NaN` comparisons in
  the sort are not modelled.
- All arithmetic is on exact reals, not IEEE doubles:
  - `Round2` rounds halves up on the exact value; `toFixed(2)` rounds the binary value.
  - `MarkedUp`, `LineCost` and the totals do not round.
- `Text.ParseFloat` and `Text.ParseInt` read an optional sign, digits and (for floats) one decimal
  point. They do not read exponents, `Infinity`, leading white space or hexadecimal prefixes.
  `NaN` is `None`.
- `Text.Lower` lowers the ASCII letters A-Z only; Unicode case mapping is not modelled.
- `Text.IsSpace` (what `trim` removes) covers space, tab, line feed, carriage return, vertical tab,
  form feed, U+00A0 and U+FEFF. It misses the rest of JavaScript's white space: U+1680,
  U+2000-U+200A, U+202F, U+205F, U+3000, U+2028 and U+2029.
- `updateProgress`, `readFile`, the progress fields and the DOM updates are not modelled. The file
  contents are the parameters of `ProcessFiles`.
- `Promise.all` starts the additions of a batch together. The model adds them one after the other
  in batch order, and it reports the batch's first failure after the whole batch.
- `generateEmbedding` loads the model lazily when it is missing. The model treats the store's
  `modelLoaded` flag as the only state, and `Search` embeds without that check.
- The one-second pause between model-load attempts is not modelled.
- `VectorStore.saveToCache` is not called anywhere in the core and is not modelled.
- `SearchEngine.Initialize` assumes the stored data always holds a tier list, possibly empty. A
  missing payload, for which the source keeps its tiers, is not modelled.
- `Retrieval.VectorStore.Search`: the source's `search` spreads the item's fields into the result
  object; the model returns the item and the score side by side.

## Findings

| source | as written | input that shows it | evidently intended | confidence | as-written member | corrected member |
|---|---|---|---|---|---|---|
| js/fileProcessor.js:211 | `saveData(this.vectorStore.vectors, allItems, markup)` saves every vector in the store beside only this run's items | a store that already holds one vector (from stored data or an earlier run) and files that yield one item: two vectors are saved beside one item, and on reload item `i` no longer matches vector `i` | ingestion replaces the stored data: empty the store first, then save the store's own vectors beside the store's own items, aligned index by index | not executed | `Ingest.FileProcessor.ProcessFiles` | `Ingest.FileProcessor.ProcessFilesReplacing` |
