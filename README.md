# ShoppingConciarage core, modelled in Dafny

ShoppingConciarage is a command-line shopping assistant. It pulls product
hits from a shopping search service and extracts attributes from each hit's
title and snippet with a fixed table of substring rules. It then either
filters the hits against the user's keywords and required attributes
(targeted search), or scores and ranks them against the user's 1-5 ratings
(exploratory search). It can export the results as a spreadsheet and
remembers each category's preferences.

This project models the logic between those services:

- **`Extractor`** (`extractor.dfy`) is the attribute extractor `simulate_llm_extract_features`.
  - The extractor is written as a table of if/elif chains. Each chain is a list of rules, and each rule is a list of clauses over substring patterns.
  - `Features(title, description)` interprets the table.
  - `ExtractFeatures` follows the source's straight-line updates of a local map, section by section. It is proved equal to `Features`.
  - `ExtractorProperties` (`extractor_properties.dfy`) proves what the extractor promises:
    - the vocabulary and value kinds;
    - when the map is empty;
    - the value of every if/elif chain, with the first match winning;
    - the example of a Lenovo laptop title.
- **`ProductFilter`** (`filter.dfy`) is the filter loop of `search_google_products`.
  - The search result is an input sequence of `Hit` records. A field the service leaves out is `None`.
  - The loop is proved equal to `Filtered`. That function keeps exactly the hits passing the keyword and attribute tests, in order.
  - Attribute equality is Python's `==` (`Values.PyEq`), so `True == 1`.
- **`Ranker`** (`ranking.dfy`) covers the exploratory search's scoring, its stable descending sort and the choice of the top five.
- **`Entries`** (`entries.dfy`) is the targeted search's prompt loop. It reads `key:value` attributes and keywords until the first blank line.
- **`Export`** (`export.dfy`) computes the header row and the data rows of `export_to_gsheet`.
- **`Preferences`** (`preferences.dfy`) is the saved-preference store. It is a class whose `saved` map `Save` updates in place and `Recall` reads.
- **`Text`** and **`Values`** hold shared definitions:
  - Python's `lower`, `strip`, `in`, `split(":", 1)`, `isdigit`/`int` and string `<`, on ASCII;
  - the attribute values `True`/`False`, integers and strings, with Python's `==`.

Attribute equality in the filter is Python's `==`: `True == 1` and `False == 0` (`ProductFilter.TrueMatchesOne`).

## Model

| member | source | states |
|---|---|---|
| Extractor.ExtractFeatures | ShoppingConciarage.py:99-182 | The extractor's map equals the whole rule table run in order on an empty map, for the lowercased title and description. |
| Extractor.GeneralAttributes | ShoppingConciarage.py:116-130 | The seven general flags are applied in order, as the general section of the table specifies. |
| Extractor.LaptopAttributes | ShoppingConciarage.py:132-170 | The processor, memory, storage, graphics, screen, touchscreen, resolution and battery chains are applied in order, as the laptop section specifies. |
| Extractor.ComposterAttributes | ShoppingConciarage.py:172-180 | The bin size, odour control and subscription chains are applied in order, as the composter section specifies. |
| Extractor.FirstRuleWins | ShoppingConciarage.py:146-149 | In an if/elif chain setting one key, the key is set iff some rule fires. Its value is that of the first rule that fires. |
| Extractor.ApplyEmpty | ShoppingConciarage.py:112-182 | Starting from `{}`, the map stays empty exactly when no chain applies. |
| ExtractorProperties.FeaturesAllowed | ShoppingConciarage.py:116-180 | Every key set is of the fixed vocabulary. Flags are `True`, `subscription_required` is only ever `False`, and every other key is a string. |
| ExtractorProperties.FeaturesEmpty | ShoppingConciarage.py:112-182 | The extractor returns `{}` exactly when no rule of the table fires. |
| ExtractorProperties.NoTextNoFeatures | ShoppingConciarage.py:112-182 | An empty title and an empty description yield `{}`. |
| ExtractorProperties.CpuFeature | ShoppingConciarage.py:133-144 | `cpu` is set iff the title names `intel` or `amd` and one of the eight models. The value is the first model in the order i3, i5, i7, i9, ryzen 3/5/7/9, so the `amd ryzen` and `intel` fallbacks are never reached. |
| ExtractorProperties.RamFeature | ShoppingConciarage.py:146-149 | `ram` is set iff some size matches. Its value is the first size matching in the listed order. |
| ExtractorProperties.StorageFeature | ShoppingConciarage.py:151-155 | `storage` is the first SSD size matching. `storage_type = "hdd"` is set only when no SSD size matched and `hdd` is named. |
| ExtractorProperties.GpuFeature | ShoppingConciarage.py:157-160 | `gpu` is `dedicated` whenever a dedicated brand is named, even if integrated graphics are named too. Otherwise it is `integrated` iff those are named. |
| ExtractorProperties.ScreenSizeFeature | ShoppingConciarage.py:162-165 | `screen_size` is the first size matching in the listed order, and is set iff one matches. |
| ExtractorProperties.ResolutionFeature | ShoppingConciarage.py:167-168 | `4k` beats `full hd`. `resolution` is set iff either matches. |
| ExtractorProperties.BinSizeFeature | ShoppingConciarage.py:173-176 | `large` beats `small`. `bin_size` is set iff either matches. |
| ExtractorProperties.LenovoExample | ShoppingConciarage.py:133-165 | For a title like "Lenovo Laptop Intel i7 16GB RAM 512GB SSD 15 inch" the result has cpu "intel i7", ram "16gb", storage "512gb ssd", no storage_type and screen_size "15 inch". |
| ProductFilter.FilterHits | ShoppingConciarage.py:209-238 | The loop returns exactly the records of the hits passing both tests, in the order of the hits. |
| ProductFilter.MatchAttributes | ShoppingConciarage.py:223-230 | The attribute check passes iff every required key is extracted with a value equal under Python's `==`. |
| ProductFilter.FilteredIsKeptHits | ShoppingConciarage.py:209-238 | A hit is kept iff its keywords and attributes match. Kept hits keep their relative order, and each becomes its record. |
| ProductFilter.FilteredAppend | ShoppingConciarage.py:210-238 | Filtering a concatenation filters each part: nothing is reordered or dropped across parts. |
| ProductFilter.NoCriteriaKeepsAll | ShoppingConciarage.py:215-238 | Without keywords or required attributes every hit is kept, in order. |
| ProductFilter.FilteredAttributes | ShoppingConciarage.py:231-238 | Every record carries the attributes extracted from its own hit's title and snippet. |
| ProductFilter.UnknownAttributeRejects | ShoppingConciarage.py:224-228 | A required key outside the extractor's vocabulary rejects every hit. |
| ProductFilter.TrueMatchesOne | ShoppingConciarage.py:225 | An extracted `True` satisfies a required `1` and does not satisfy a required `2`. |
| Values.PyEqEquivalence | ShoppingConciarage.py:225 | Python's `==` on attribute values is an equivalence. It differs from identity only between a boolean and the integer 0 or 1. |
| Ranker.ScoreProduct | ShoppingConciarage.py:477-485 | The scoring loop returns the sum of the ratings of the rated attributes that are extracted from the product's name with a value other than `False`. An untitled product is read as titled `""` (the corrected reading under Findings; the source raises there). |
| Ranker.ScoreBounds | ShoppingConciarage.py:455-485 | With ratings from 1 to 5 a score lies between 0 and 5 times the number of ratings. |
| Ranker.WeightOf | ShoppingConciarage.py:481-483 | A rating counts exactly when its key was extracted with a value other than `False`. |
| Ranker.ScoreAppend | ShoppingConciarage.py:481-483 | A score is additive over the ratings. |
| Ranker.ScoreExample | ShoppingConciarage.py:481-483 | With `{cpu: 5, ram: 3}` a product with both scores 8. Without ram it scores 5. |
| Ranker.FalseAddsNothing | ShoppingConciarage.py:482-483 | `subscription_required: False` adds nothing. |
| Ranker.SortByScoreSpec | ShoppingConciarage.py:487 | The sort is by descending score and is a permutation. Elements with equal scores keep their order. |
| Ranker.BestMatchesSpec | ShoppingConciarage.py:487-488 | The best matches are the first `min(5, n)` of the ranking. Every product appears in the ranking with its own score, and none left out scores above one kept. |
| Ranker.RankProducts | ShoppingConciarage.py:476-488 | Scoring, sorting and truncation return exactly `BestMatches`. Untitled products score as under Findings' corrected reading, where the source raises. |
| Ranker.UntitledHitBreaksScoring | ShoppingConciarage.py:479 | A hit without a title passes the filter without criteria, and the scoring as written fails on its record. |
| Ranker.RescoredFeaturesCorrected | ShoppingConciarage.py:479 | The corrected re-extraction agrees with the source on every titled product. An untitled product gets `{}` and scores 0. |
| Entries.ConvertValue | ShoppingConciarage.py:356-364 | `true`/`false` become booleans. All-digit text becomes the integer `int()` reads from it. Any other text stays a string. |
| Entries.ConvertLeadingZero | ShoppingConciarage.py:361-362 | A leading zero does not change the number: `007` converts like `7`. |
| Entries.ConvertShown | ShoppingConciarage.py:360-361 | The digits of a number convert back to that number. |
| Entries.ParseAttributeLine | ShoppingConciarage.py:351-364 | A line `key:value` (stripped, lowercase, no `:` in the key) reads as that key with its value converted. |
| Entries.ParseKeywordLine | ShoppingConciarage.py:365-366 | A line without `:` is a lowercased keyword. |
| Entries.EnteredSpec | ShoppingConciarage.py:346-349 | The lines read are the longest prefix without a blank line. |
| Entries.EnteredStops | ShoppingConciarage.py:346-349 | Any blank-free prefix ending at a blank line or at the end of input is what is read. |
| Entries.AttributesPresent | ShoppingConciarage.py:351-364 | A key is among the attributes iff some line sets it. |
| Entries.AttributesLastWins | ShoppingConciarage.py:351-364 | A key's value is the one the last line setting it gives. |
| Entries.KeywordsInOrder | ShoppingConciarage.py:365-366 | The `j`-th keyword is the word of the `j`-th keyword line: one keyword per keyword line, in the order entered, repeats kept. |
| Entries.CollectEntries | ShoppingConciarage.py:344-366 | The prompt loop returns the attributes and keywords of the lines before the first blank one. |
| Export.BuildSheet | ShoppingConciarage.py:250-292 | No data exports nothing. Otherwise the headers are the five fields and then the attribute names found, sorted and distinct. Every row has a cell per header, and each cell is that product's `Cell`. |
| Export.CollectNames | ShoppingConciarage.py:274-276 | The attribute names collected are exactly the union of every product's attribute names. |
| Export.AttributeNamesSpec | ShoppingConciarage.py:274-276 | A name is collected iff some product has an attribute of that name. |
| Export.SortNames | ShoppingConciarage.py:278 | The sorted names are strictly increasing and hold exactly the names collected. |
| Export.InsertSortedSpec | ShoppingConciarage.py:278 | Inserting into a sorted list keeps it sorted and adds exactly the new name. |
| Export.SortedUnique | ShoppingConciarage.py:278 | Two strictly sorted lists with the same names are equal, so the header row is determined by the names found. |
| Export.BuildRow | ShoppingConciarage.py:284-291 | A row has one cell per header. A base header gives the field, an attribute header the attribute, and otherwise the cell is empty. |
| Export.BuildRows | ShoppingConciarage.py:283-292 | There is one row per product, in order, each as wide as the headers. |
| Export.AttributeCell | ShoppingConciarage.py:286-291 | An attribute's column shows the product's value of it, or `""` when it lacks it. |
| Export.AttributeNamesAreNotFields | ShoppingConciarage.py:273 | No attribute name is one of the five field names or `attributes`, so the two header kinds never collide. |
| Preferences.PreferenceStore.Save | ShoppingConciarage.py:301-307 | Saving replaces only the category's record: the preferences, the timestamp and `note or ""`. |
| Preferences.PreferenceStore.Recall | ShoppingConciarage.py:315-327 | An unsaved category gives nothing. A confirmed one gives its preferences and note. A declined one gives only the new note, stripped. |
| Preferences.RecallOutcomes | ShoppingConciarage.py:317-327 | Preferences come back iff the category is saved and confirmed, and a note comes back iff the category is saved. |
| Preferences.SaveKeepsOthers | ShoppingConciarage.py:303 | Saving one category leaves what every other category recalls unchanged. |
| Preferences.SaveThenRecall | ShoppingConciarage.py:301-326 | A save followed by a confirmed recall returns the preferences and note saved. Other categories keep their records. |
| Preferences.PreferenceStore.constructor | ShoppingConciarage.py:27-31 | The store starts from the preferences loaded. |

## Left out

- **Network and spreadsheet calls.** The SerpAPI request, its debug output and its catch-all handler are not modelled, and neither is the query string. The hits are an input instead. The gspread calls (authorisation, open/create, clear, insert, append) are not modelled either. `Export.BuildSheet` returns the rows those calls would write.
- **File and clock I/O.** JSON loading and saving of the preference file are not modelled. The constructor takes the loaded map. The `datetime.now()` timestamp is a parameter of `Save`.
- **Console interaction.**
  - The menu, `prompt_yes_no`, the rating re-prompt and the export decisions are not modelled.
  - User input is passed as parameters: the lines typed, the ratings, the confirmation and the new note.
  - `Entries.CollectEntries` also stops at the end of its lines, where the console would wait for more.
- **`simulate_llm_summarize` and the suggested-attribute tables.** They are constant text lookups. The ratings are an input.
- **Text handling.**
  - Lowercasing, stripping and `isdigit` are modelled on ASCII.
  - Python lowercases Cyrillic letters too. `Lower` leaves them as they are. So titles and descriptions with capital Cyrillic letters can extract differently: "Маленький компостер" gets `bin_size` "small" in the source and nothing in the model. The filter's keyword test differs on such text and keywords too.
  - Non-ASCII whitespace that `strip()` removes (such as U+00A0 or U+2028) is not modelled.
  - Unicode digits that `isdigit` accepts are not modelled.
- **Prices.** `extracted_price` is a number in the search result, usually a float. It is modelled as an attribute value (integer, string or boolean). `str()` of a float is not modelled.
- **The Lenovo example.** `ExtractorProperties.LenovoExample` states the title by the patterns its lowercased form contains and lacks, not by the literal string.
- **Scoring with a description.** `Ranker.ScoreProduct` re-extracts with the empty description. The product records never carry a `description` key, so the source always passes `""` there.
- **Repeated rating keys.** Ratings are a sequence of (attribute, rating) pairs in entry order, standing for the ratings dict. Its keys are distinct in the source.
- **An `attributes` header.** The export never meets one (`Export.AttributeNamesAreNotFields`). `Export.Cell` therefore does not model the `str()` of a whole attribute dict that such a header would produce.
- **Exceptions.** Missing keys in a hit are `None`. A hit whose JSON holds an explicit `null` title or `null` snippet is not distinguished from one without that field. The model reads it as `""`. The source calls `.lower()` on `None` there (lines 113-114, or 216 when keywords are given), and its catch-all handler returns no hits at all for the whole search.
- Ranker.ScoreProduct and Ranker.RankProducts: an untitled product is scored as titled `""`, the corrected reading under Findings. The source raises at line 479 instead.

## Findings

| source | as written | input that shows it | evidently intended | confidence | as-written member | corrected member |
|---|---|---|---|---|---|---|
| ShoppingConciarage.py:479 | Scoring calls `simulate_llm_extract_features(product["name"], ...)`, which lowercases the name. The filter copies `p.get("title")` into `name`, and that is `None` for a hit without a title. Such a hit passes the filter when no keywords or attributes are given, which is exactly how the exploratory search calls it. `None.lower()` then raises, and the exploratory search stops. | A shopping result without a `title` field, e.g. `Hit(None, None, None, None, None, None)`, in an exploratory search. | An untitled product is read as an empty title: no attributes and score 0. | not executed | Ranker.UntitledHitBreaksScoring | Ranker.RescoredFeaturesCorrected |
