# KMart ML API: interaction tracking, interaction log and ranking, in Dafny

This project models the part of the KMart ML API that decides things itself.
The rest of the service hands its work to pandas, PyTorch, scikit-learn and
implicit. The model covers three parts:

- **The interaction log and catalog access (`DataManager`).**
  - `interaction_df` is a sequence of `LogRow`s held by the class `DataManager`.
  - `SaveInteraction` appends one row and returns the generated id `int_<YYYYMMDD_HHMMSS>_<user>`, or None.
  - `ProductInfo` is the first-match catalog lookup.
  - `ExtractPrice` is the price parser that never raises.
- **The interaction tracker (`InteractionServices`).**
  - The six `track_*` methods are one method, `Track`, selected by a `Category`. They share one shape and differ only in data: the allowed kinds, the enrichment rule, the extra saved columns and the messages. Each of these is a function of the category.
  - `Track` validates the kind, enriches the event's metadata in place from the catalog, and saves the event.
  - The history queries filter by user or by product, sort newest first, take `head(limit)`, and decode metadata, with bad metadata read as `{}`.
- **Ranking post-processing (`MLServices`).**
  - The cold-start user-index lookup, and the score sanity filter and truncation for recommendations.
  - The trending rule: a strict time window, `value_counts`, `head(limit)`, the all-time fallback, and skipping unknown ids.
  - The `argsort()[::-1]` slices of search and similar products.

Foreign computations are inputs to the model:

- The collaborative-filtering recommender is a function `(user index, N) -> (item indices, scores)`.
- Cosine similarities are a sequence of reals for a search query and a matrix of reals between catalog products.
- `datetime.now()` is a microsecond reading. `save_interaction` reads the clock twice, once for the id and once for the `timestamp` column, so it takes two readings.
- Whether the CSV append succeeded is a boolean.

Python and pandas behaviour the model reproduces:

- Python slicing and `head(n)` are exact, including negative bounds (`Lists.PySlice`, `Lists.Take`).
- A descending `sort_values` puts NaT last (`Lists.Key.Missing`).
- `value_counts` drops NaN product ids, which are `None` in `LogRow.productId`.
- `str.replace` removes occurrences in a left-to-right scan (`Catalog.RemoveAll`).

Modules:

- `Common`: options, results, cell values and digit strings.
- `Lists`: sorting, filtering, search and slicing.
- `Catalog`: product lookup and prices.
- `Clock`: the strftime stamp.
- `InteractionLog`: `LogRow` and `DataManager`.
- `Tracker`: `InteractionServices` and the history queries.
- `Ranking`: `MLServices`.

Two places where the code's own comments say more than the code does:

- **Trending fallback.** The comment at src/services/ml_services.py:102 says the service falls back to overall popular products when there are no recent interactions. The code tests whether the window holds any row at all, not whether it yields a count. A window holding only rows without a product id gives an empty list (`Ranking.WindowOfUnlabelledRows`). So does a window whose products are all missing from the catalog.
- **Similar products.** The comment at src/services/ml_services.py:149-150 says the slice excludes the product itself and that the first entry is the product. The code drops whatever ranks first, which need not be the product (see Findings). `Ranking.Similar` is the code as written; `Ranking.SimilarCorrected` is the intended result.

## Model

| member | source | states |
|---|---|---|
| Catalog.ProductInfo | src/data/data_manager.py:116-121 | None exactly when no catalog row has the id; otherwise a row with that id, with no earlier row having it (the first match) |
| Catalog.FirstMatch | src/data/data_manager.py:118-120 | the position of the first row whose `id` cell is the given string; None iff no row has it |
| Catalog.FindProductIndex | src/services/ml_services.py:134-141 | the row-by-row search with early `break` finds exactly the first matching position, None when no row matches (the "Product not found" case) |
| Catalog.ExtractPrice | src/data/data_manager.py:123-131 | never fails: a missing `priceAndDiscount` column, a non-text cell (where `.replace` raises) and text `float()` rejects all give 0.0 |
| Catalog.RemoveAll | src/data/data_manager.py:128 | `str.replace(pat, '')`: occurrences removed in one left-to-right scan; its effect on prices is stated by `Catalog.StripPriceNoCommas` and `Catalog.StripFormatted` |
| Catalog.StripPrice | src/data/data_manager.py:128 | the text handed to `float()`: `.replace('Ugx', '').replace(',', '')`; stated by `Catalog.StripPriceNoCommas` and `Catalog.StripFormatted` |
| Catalog.TrimStart | src/data/data_manager.py:128 | the ASCII white space `float()` ignores before a number: the result is what follows the leading ASCII white space, and does not start with any |
| Catalog.TrimEnd | src/data/data_manager.py:128 | the ASCII white space `float()` ignores after a number: the result is what precedes the trailing ASCII white space, and does not end with any |
| Catalog.ParseFloat | src/data/data_manager.py:128 | `float()` over decimal text, None where it raises; `Catalog.DigitsParse` states its value on plain digits and `Catalog.ExtractPrice` what becomes of None |
| Catalog.DigitsParse | src/data/data_manager.py:128 | a space followed by a run of digits parses to exactly the digits' decimal value |
| Catalog.StripFormatted | src/data/data_manager.py:128 | stripping "Ugx " followed by digits and commas leaves a space and the digits without their commas |
| Catalog.StripPriceNoCommas | src/data/data_manager.py:128 | the text handed to `float()` never contains a thousands separator, whatever the cell held |
| Catalog.FormattedPriceRoundTrip | src/data/data_manager.py:125-131 | a price written "Ugx " followed by a number grouped in threes by commas extracts to exactly that number |
| Clock.Stamp | src/data/data_manager.py:83 | the `%Y%m%d_%H%M%S` stamp is 15 characters with `_` at position 8 |
| InteractionLog.InteractionId | src/data/data_manager.py:83 | the generated id `int_<YYYYMMDD_HHMMSS>_<user>`; when two of them coincide is stated by `InteractionLog.InteractionIdEqual` |
| InteractionLog.InteractionIdEqual | src/data/data_manager.py:83 | two generated ids are equal iff they have the same user and the same second's stamp |
| InteractionLog.SameSecondSameId | src/data/data_manager.py:83 | two saves by one user within one second get the same id (ids can collide) |
| InteractionLog.NewRow | src/data/data_manager.py:86-99 | the new row carries the request's user, product (default '') and kind, the second clock reading as timestamp, each optional column's value when the request has it and '' when it lacks it, and the metadata map (default `{}`) |
| InteractionLog.DataManager.SaveInteraction | src/data/data_manager.py:79-114 | with user, kind and a working append: returns `int_<stamp>_<user>` and the log is the old log plus exactly that row at the end; a missing key or a failed append returns None and leaves the log unchanged |
| Tracker.ErrorMessagesNameTheirCause | src/services/interaction_services.py:20-22 | every tracker's rejection of a kind contains "Invalid interaction type", and every failed save's error contains "Failed to save interaction" |
| Tracker.AllowedKinds | src/services/interaction_services.py:21-224 | the kinds each tracker's check accepts (lines 21, 62, 102, 144, 183, 224): view/view_details, like/unlike, add_to_cart, chat_message, rating, search; `Tracker.InteractionServices.Track` states that any other kind is rejected with the log and metadata unchanged |
| Tracker.InteractionServices.EnrichEvent | src/services/interaction_services.py:25-34 | the lookup step updates the event's metadata in place to the enriched metadata: the catalog's details under the tracker's rule when the product is found, the caller's own map otherwise |
| Tracker.InteractionServices.Track | src/services/interaction_services.py:17-247 | each of the six trackers accepts only its own kinds (view/view_details, like/unlike, add_to_cart, chat_message, rating, search); a kind outside them fails with the tracker's prefix and "Invalid interaction type" message, and the metadata and log are unchanged; an accepted event's metadata becomes the enriched metadata (no lookup for search); a working save appends exactly the row built from the tracker's save request and answers success with the generated id and the tracker's message; a failed save leaves the log unchanged and fails with "Failed to save interaction" |
| Tracker.RuleFor | src/services/interaction_services.py:29-194 | each tracker's `metadata.update`: the keys taken from the catalog and the keys kept from the caller with their defaults, never one key in both; what it does is stated by `Tracker.ProductViewEnrichment` and `Tracker.EnrichmentKeepsCallerValues` |
| Tracker.EnrichedMetadata | src/services/interaction_services.py:24-34 | the metadata after the lookup step; stated by `Tracker.ProductViewEnrichment`, `Tracker.EnrichmentKeepsCallerValues`, `Tracker.UnknownProductKeepsMetadata` and `Tracker.SearchSavesNoProduct` |
| Tracker.SaveRequestFor | src/services/interaction_services.py:37-233 | each tracker's `interaction_data`; the row it produces is stated by `Tracker.SavedColumnsComeFromCaller` and `Tracker.SearchSavesNoProduct` |
| Tracker.Enrich | src/services/interaction_services.py:29-34 | `dict.update` with a rule: the result's keys are the caller's plus the rule's; catalog keys take the catalog value, kept keys the caller's value or the default, and every other caller key is untouched |
| Tracker.ProductViewEnrichment | src/services/interaction_services.py:25-34 | product found: `product_name` (default 'Unknown Product'), `category` (default '') and `price` (the extracted price) come from the catalog, `source` keeps the caller's value or becomes 'flutter_app', and no other key changes |
| Tracker.EnrichmentKeepsCallerValues | src/services/interaction_services.py:150-155 | for every tracker, enrichment keeps all caller keys and changes only the keys its rule takes from the catalog (chat: only `product_name`) |
| Tracker.UnknownProductKeepsMetadata | src/services/interaction_services.py:25-26 | when no catalog row has the product id, the metadata saved is exactly the caller's |
| Tracker.SavedColumnsComeFromCaller | src/services/interaction_services.py:37-233 | in the row a tracker appends, the cart quantity is the caller's `quantity` or 1, and the review's rating and review are the caller's `rating_value` (or 0) and `review_text` (or ''), whether or not the product was found; every other optional column of every tracker's row is '' |
| Tracker.SearchSavesNoProduct | src/services/interaction_services.py:227-233 | a search saves product id '' and the caller's metadata unchanged, whatever product id the event carries |
| Tracker.DecodeMetadata | src/services/interaction_services.py:257-261 | an empty cell, the text '{}' and text `json.loads` rejects all read as the empty map |
| Tracker.ToEntry | src/services/interaction_services.py:263-272 | the `interaction` dict of one row (also lines 298-307); stated by `Tracker.HistoryReportsCounterpart` |
| Tracker.Entries | src/services/interaction_services.py:255-273 | the `iterrows` loop (also lines 290-308): one entry per selected row, in order, each the row's `interaction` dict |
| Tracker.HistoryReportsCounterpart | src/services/interaction_services.py:255-308 | each entry has its row's id, kind, timestamp and decoded metadata; a user's history reports each row's `product_id`, a product's history each row's `user_id`, and every row reported is about the user (or product) asked for |
| Tracker.SelectRows | src/services/interaction_services.py:252-288 | filter, newest-first sort and `head(limit)`; stated by `Tracker.SelectRowsContract` and `Tracker.SelectRowsAreNewest` |
| Tracker.SelectRowsContract | src/services/interaction_services.py:252-288 | a user's (or product's) history holds only rows with that `userId` (or `productId`), newest first (NaT last); its length is what `head(limit)` gives (`min(limit, n)`, or `n + limit` floored at 0 for a negative limit); no row comes more often than it matches; and with room for all, every matching row is there |
| Tracker.SelectRowsAreNewest | src/services/interaction_services.py:253 | a matching row left out by `head(limit)` is no newer than any row returned |
| Tracker.GetInteractions | src/services/interaction_services.py:275-279 | `total_interactions` equals the length of `interactions` |
| Tracker.SavedRowReadsBack | src/services/interaction_services.py:257-273 | after a save, the user's history with room for all of the user's rows shows the new id with the metadata map that was saved |
| Ranking.CardOf | src/services/ml_services.py:50-163 | the fields of `ProductRecommendation`, `SearchResult`, `TrendingProduct` and `SimilarProduct` (lines 50-55, 81-86, 117-121, 157-162): the given id, `name` (default 'Unknown Product'), `description` (default '') and the extracted price; stated by `Ranking.CardsAt`, `Ranking.CollectIsFilterThenMap` and `Ranking.ResolveCountsSound` |
| Ranking.UserIndex | src/services/ml_services.py:21-29 | the key of the first `user_map` entry whose value is the user id, and 0 for an unknown user |
| Ranking.FindUserIndex | src/services/ml_services.py:21-29 | the early-exit loop computes exactly `UserIndex` |
| Ranking.Collect | src/services/ml_services.py:40-56 | a successful loop returns at most one entry per recommender entry, every score with `abs(score) < 1e6` |
| Ranking.CollectFails | src/services/ml_services.py:41-43 | the loop fails iff some sane entry's item index is missing from `item_map`, and then with the first such index as the message |
| Ranking.CollectIsFilterThenMap | src/services/ml_services.py:40-56 | with every item mapped, the loop keeps, in the recommender's order, exactly the sane entries whose product the catalog has, each turned into its card and score |
| Ranking.RecommendationsKeepOrder | src/services/ml_services.py:40-58 | scores that come in non-increasing stay non-increasing in the recommendations |
| Ranking.MLServices.GetRecommendations | src/services/ml_services.py:17-61 | failure is the loop's error prefixed "Error getting recommendations: "; success is the first `num` recommendations, at most `num` of them, every score sane |
| Ranking.ProductIds | src/services/ml_services.py:105-108 | the `productId` column without its NaN cells: every id listed is some row's product, and every row's product is listed; `Ranking.ProductIdsCount` states the multiplicities |
| Ranking.ProductIdsCount | src/services/ml_services.py:105-108 | a product id occurs in the non-NaN `productId` column as often as there are rows about that product |
| Ranking.ValueCounts | src/services/ml_services.py:105-108 | `value_counts()`; stated by `Ranking.ValueCountsContract` |
| Ranking.ValueCountsContract | src/services/ml_services.py:108 | `value_counts()` lists every product id once with its true, positive count, in non-increasing order of count |
| Ranking.TopCounts | src/services/ml_services.py:108 | `value_counts().head(limit)` has the length `head` gives, each id once with its true count, non-increasing |
| Ranking.TopCountsAreTop | src/services/ml_services.py:108 | an id cut by `head(limit)` occurs no more often than any id kept |
| Ranking.TrendingCountsExact | src/services/ml_services.py:97-108 | the trending counts: each product of the counted rows at most once, with its true, positive number of rows, in non-increasing order, `head(limit)` of them |
| Ranking.TrendingCountsAreTop | src/services/ml_services.py:105-108 | a product of the counted rows left out of the trending counts has no more rows than any product kept |
| Ranking.IsRecent | src/services/ml_services.py:99 | `timestamp > now - timedelta(days)`: strictly after the window start, NaT never; stated by `Ranking.CountedRowsRule` |
| Ranking.CountedRows | src/services/ml_services.py:98-108 | the rows whose product ids are counted; stated by `Ranking.CountedRowsRule` |
| Ranking.CountedRowsRule | src/services/ml_services.py:98-108 | with no row in the window the whole log is counted (NaT rows included); otherwise exactly the rows with a timestamp strictly after `now - days`, each as often as the log holds it |
| Ranking.FallbackNotEmpty | src/services/ml_services.py:102-105 | with an empty window, a log naming a product and a positive limit, the counts are non-empty |
| Ranking.WindowOfUnlabelledRows | src/services/ml_services.py:102-108 | a non-empty window whose rows all lack a product id gives no counts: the fallback is decided by the rows, not by the counts |
| Ranking.ResolveCounts | src/services/ml_services.py:110-123 | the loop over the counts; no more products than counts, and its result is stated by `Ranking.ResolveIsFilterThenMap`, `Ranking.ResolveCountsSorted`, `Ranking.ResolveCountsSound` and `Ranking.ResolveCountsComplete` |
| Ranking.ResolveIsFilterThenMap | src/services/ml_services.py:110-123 | the loop keeps, in order, exactly the counts whose id the catalog has |
| Ranking.ResolveCountsSorted | src/services/ml_services.py:110-123 | skipping unknown ids keeps `interaction_count` non-increasing |
| Ranking.ResolveCountsSound | src/services/ml_services.py:110-123 | every trending product is the card of a kept count whose id the catalog has |
| Ranking.ResolveCountsComplete | src/services/ml_services.py:110-123 | no kept count whose id the catalog has is dropped |
| Ranking.Trending | src/services/ml_services.py:97-125 | the trending products once the window start is computed; stated by `Ranking.TrendingContract` |
| Ranking.FirstDayIsYearOne | src/services/ml_services.py:99 | the earliest day a `datetime` holds is 1 January of year 1 |
| Ranking.LastDayIsYear9999 | src/services/ml_services.py:99 | the latest day a `datetime` holds is 31 December 9999, the day after it is in year 10000 |
| Ranking.WindowStart | src/services/ml_services.py:99 | `datetime.now() - timedelta(days=days)` succeeds iff `abs(days) <= 999999999` and the start lies between 0001-01-01 and the end of 9999-12-31, and is then `now` minus `days` days; otherwise it gives the OverflowError's text |
| Ranking.GetTrending | src/services/ml_services.py:94-128 | fails, with the prefix "Error getting trending products: ", exactly when the window start cannot be computed; otherwise the trending products |
| Ranking.DefaultWindowSucceeds | src/services/ml_services.py:94-99 | with the default of 7 days, every clock reading from the eighth day of year 1 to the end of 9999 gives the trending products |
| Ranking.TrendingContract | src/services/ml_services.py:94-125 | at most `limit` trending products, each a catalog product with its true number of counted rows (positive), in non-increasing order of count |
| Ranking.RankBySimilarity | src/services/ml_services.py:74 | `argsort()[::-1]` lists every position exactly once, by non-increasing similarity |
| Ranking.CardsAt | src/services/ml_services.py:76-87 | fails with pandas' out-of-bounds message iff a ranked position is past the catalog; otherwise one card per position, with the row's id (or ''), name, description, price and similarity |
| Ranking.SearchIndices | src/services/ml_services.py:74 | `argsort()[::-1][:num_results]`: positions of the similarity row; stated by `Ranking.SearchIndicesContract` |
| Ranking.Search | src/services/ml_services.py:63-92 | the search results, prefixed "Error searching products: " on failure; stated by `Ranking.SearchContract` |
| Ranking.SearchIndicesContract | src/services/ml_services.py:74 | `[:num_results]` of the ranking: `head`'s length, no position twice, non-increasing similarity, and no position left out is more similar than one returned |
| Ranking.SearchContract | src/services/ml_services.py:63-89 | with one similarity per catalog row, search succeeds with `min(num_results, n)` results (for a non-negative count), the top rows with their similarities, in non-increasing order of score |
| Ranking.SimilarIndicesAsWritten | src/services/ml_services.py:150 | `argsort()[::-1][1:limit+1]`, positions of the similarity row; stated by `Ranking.SimilarIndicesAsWrittenContract` |
| Ranking.SimilarIndicesAsWrittenContract | src/services/ml_services.py:150 | the slice as written: `min(limit, n - 1)` positions for a non-negative limit, none twice, never the first-ranked one, by non-increasing similarity |
| Ranking.SimilarAsWrittenKeepsTarget | src/services/ml_services.py:150 | under any tie order, a product that does not rank first but ranks within the first `limit + 1` positions is among its own similar products as written |
| Ranking.SimilarAsWrittenReturnsTarget | src/services/ml_services.py:134-165 | two rows with equal similarity, under the model's tie order: `get_similar_products("a", 1)` as written returns product "a" itself (see Findings) |
| Ranking.Similar | src/services/ml_services.py:147-165 | the similar products as written, prefixed "Error getting similar products: " on failure; stated by `Ranking.SimilarAsWrittenContract` |
| Ranking.SimilarAsWrittenContract | src/services/ml_services.py:147-165 | with one similarity per catalog row, the program's similar products are `min(limit, n - 1)` rows for a non-negative limit, in non-increasing order of score, and equal the corrected result whenever the product itself ranks first |
| Ranking.SimilarIndices | src/services/ml_services.py:149-150 | corrected (see Findings): the ranking with the product moved to the front, then `[1:limit+1]` |
| Ranking.SimilarIndicesContract | src/services/ml_services.py:149-150 | corrected: the slice never contains the product itself, has `min(limit, n - 1)` positions for a non-negative limit, and none twice |
| Ranking.SimilarIndicesSorted | src/services/ml_services.py:149-150 | corrected: the slice is in non-increasing order of similarity |
| Ranking.SimilarIndicesAreTop | src/services/ml_services.py:149-150 | corrected: no other position left out is more similar than one returned |
| Ranking.CorrectionAgreesWhenTargetRanksFirst | src/services/ml_services.py:150 | when the product itself ranks first, the corrected slice equals the slice as written |
| Ranking.SimilarCorrected | src/services/ml_services.py:149-165 | corrected (see Findings): the similar products built from the corrected slice; stated by `Ranking.SimilarCorrectedContract` |
| Ranking.SimilarCorrectedContract | src/services/ml_services.py:149-165 | corrected: with one similarity per catalog row and distinct ids, `min(limit, n - 1)` results, none carrying the product's own id, in non-increasing order of score |
| Ranking.MLServices.GetSimilarProducts | src/services/ml_services.py:130-168 | an unknown id fails with "Error getting similar products: Product not found"; a row past the embeddings fails with numpy's index error; otherwise the result is `Ranking.Similar`, the slice as written, for the first matching row |

## Left out

- Model loading is not modelled: pickle files, the tokenizer and transformer, `np.load`/`np.save`, the CSV reads and embedding generation (src/data/data_manager.py:26-77). These are file I/O and foreign libraries. The loaded tables are the `DataManager` constructor's arguments.
- `cf_model.recommend`, tokenisation, embedding inference and `cosine_similarity` are inputs. Failures inside them are not modelled.
- The physical CSV append is the `appendOk` parameter. `datetime.now()` is a parameter.
- JSON encoding and decoding are not modelled. Metadata is a map. A loaded cell carries its text and what `json.loads` makes of it, with None when it raises.
- Floating point: prices and scores are exact reals. NaN scores are left out; the code would skip them, since `abs(nan) < 1e6` is false.
- Catalog.ParseFloat: accepts only an optional sign, ASCII digits and an optional fraction, with surrounding ASCII white space. Python's `float()` accepts more: exponents, 'inf', 'nan', digit underscores, non-ASCII white space (such as the no-break space U+00A0) and non-ASCII decimal digits. All of these read as unparseable here, so ExtractPrice gives 0.0 for them; "Ugx\u00a01,250" gives 0.0 here but 1250.0 in Python.
- Catalog.TrimStart: strips only the six ASCII white-space characters (space, tab, newline, carriage return, vertical tab, form feed); the non-ASCII white space `float()` also skips is kept.
- Catalog.TrimEnd: strips only the same six ASCII white-space characters; trailing non-ASCII white space is kept.
- Ranking.CollectFails: the message for an unmapped item is its decimal index. Python's KeyError text is the key's repr (for example `np.int64(5)` under numpy 2).
- Ranking.MLServices.GetRecommendations: a recommender that fails, or a negative N it rejects, is not modelled.
- Clock.Stamp: states only the length and the `_` position. The year is taken modulo 10000 and zero-padded to four digits. Python's rendering of years before 1000 is not modelled.
- Tie order: the descending sort fixes one order for equal keys, reverse input order. Neither numpy's `argsort` (whose default kind is not stable, and whose kernel depends on the processor) nor pandas' `sort_values` and `value_counts` promise any order for ties. No lemma depends on tie order except the Findings example, which uses the model's order; `Ranking.SimilarAsWrittenKeepsTarget` states the discrepancy for every order.
- The `timestamp` of a history entry is the parsed timestamp value, not its `isoformat()` text.
- Pandas dtype coercion is left out. An `id` column read as numbers never equals a string id, and `HasId` requires the cell to be that very text.
- Ranking.GetTrending: the failure of the window start is modelled with Python's OverflowError texts. The comparison of a pandas `datetime64[ns]` column with a start outside pandas' nanosecond range (years 1677 to 2262) is modelled as a plain comparison of readings.
- Ranking.Trending: a clock reading itself outside the `datetime` range cannot come from `datetime.now()`, and is not excluded.
- Catalog.ProductInfo: a catalog without an `id` column makes `product_df['id']` raise KeyError (src/data/data_manager.py:118), which every caller re-raises with its own prefix: the trackers, `get_recommendations` (through `get_product_info` at src/services/ml_services.py:46), `get_trending_products` (line 113) and `get_similar_products` (through `row['id']` at line 136). The model's catalog always has the column, and a row's missing `id` cell matches no id.
- The outer `try/except` of the history queries re-raises with a prefix. The model's log always has the `userId`, `productId` and `timestamp` columns they read, so those queries return plain values.
- Concurrency: the code has no locking, and the model has none either.
- src/api/api_routes.py, api_server.py and api_server_refactored.py are not part of this model: FastAPI routing and wiring. src/models/models.py gives only the shapes of the datatypes; its pydantic validation is not modelled.

## Findings

| source | as written | input that shows it | evidently intended | confidence | as-written member | corrected member |
|---|---|---|---|---|---|---|
| src/services/ml_services.py:150 | `similarities.argsort()[::-1][1:limit+1]` drops whatever ranks first, assuming it is the product itself | catalog rows "a" and "b" with identical embeddings: both queries see similarities [1.0, 1.0] and share one ranking; under the model's order [1, 0] the query for "a" returns "a", and under [0, 1] the query for "b" returns "b" | skip the product itself ("excluding the product itself"), whatever its rank among equal similarities | not executed | Ranking.Similar (shown by Ranking.SimilarAsWrittenReturnsTarget, Ranking.SimilarAsWrittenKeepsTarget) | Ranking.SimilarCorrected (Ranking.SimilarCorrectedContract, Ranking.SimilarIndicesContract, Ranking.CorrectionAgreesWhenTargetRanksFirst) |
