# Crime case similarity and suspect ranking, in Dafny

This project models the analytic core of a crime-analytics dashboard. It has three parts:

- **Preprocessing** (`preprocess_cases.dfy`, module `Preprocess`). Raw column headers are
  normalised: strip, lower-case, `' '` to `'_'`, drop `'.'`. Rows whose occurrence date does
  not parse are dropped. Each row gets a `mo_text` narrative made from its crime description,
  weapon and area. Only the wanted columns are kept, in a fixed order, and every cell that is
  exactly `"nan"` is rewritten to `"unknown"`. The frame the steps update in place is the class
  `Frame`. The pure expressions each step computes are functions on a `Table` value.
- **Similarity search** (`similarity_engine.dfy`, module `Similarity`). The class
  `SimilarityEngine` keeps the case table, with missing narratives filled with `""`, and the
  matrix of pairwise narrative similarities. `GetSimilarCases` does the following:
  - finds the first row carrying the query id;
  - drops every row with that id;
  - applies the optional area and weapon filters;
  - sorts by similarity, highest first;
  - keeps the first `top_k` rows.
- **Suspect ranking** (`suspect_ranker.dfy`, module `Ranking`). Every candidate in a pool gets
  the score `0.5·text + 0.2·area match + 0.1·weapon match + 0.2·time decay` against the first
  table row with the base id. The pool is then sorted by score and cut to `top_k` rows.

Shared pieces:

- `cases.dfy` (module `Cases`) holds the case row and the first-index lookup. A missing
  categorical cell (pandas NaN) is `None` and never equals anything.
- `sorting.dfy` (module `Sorting`) holds the boolean-mask `Filter`, a descending sort, pandas'
  `head` and their combination `TopK`.
- `wrappers.dfy` holds `Option`.

Dates are integer day numbers, and the day gap is their absolute difference. Weights and
scores are exact `real`s.

## Model

| member | source | states |
|---|---|---|
| Cases.FirstIndexOf | src/similarity_engine.py:19-21 | The result is the smallest position whose `dr_no` is the id. It is None exactly when no row carries the id. |
| Similarity.SimilarityEngine.IdxForCase | src/similarity_engine.py:19-21 | Definition, no contract of its own: `_idx_for_case` is `Cases.FirstIndexOf` on the engine's table, whose contract is stated there. |
| Cases.CellEquals | src/suspect_ranker.py:38-39 | Definition, no contract: pandas `==` on a cell holds only when both sides are present and equal, so a missing (NaN) value never matches. |
| Similarity.Filters | src/similarity_engine.py:41-45 | Definition, no contract: `if city and city != "All"`. An argument filters only when it is present, non-empty and not `"All"`. |
| Similarity.Admits | src/similarity_engine.py:41-45 | Definition, no contract: the mask of one filter. It keeps every row when the argument does not filter, and otherwise only rows whose cell equals the argument. |
| Similarity.Passes | src/similarity_engine.py:38-45 | Definition, no contract: the conjunction of the exclusion mask and the two filter masks. |
| Similarity.SimilarityEngine.PassesMeans | src/similarity_engine.py:38-45 | A passing row lacks the query id and holds the value of every active filter. |
| Similarity.FillMoText | src/similarity_engine.py:13-14 | Every narrative is present afterwards. A missing one becomes `""`. Every other field, and every present narrative, is unchanged. |
| Similarity.SimilarityEngine.constructor | src/similarity_engine.py:12-17 | The engine holds the filled table and the similarity matrix of its narratives, each entry in [0,1]. |
| Similarity.SimilarityEngine.Annotated | src/similarity_engine.py:34-36 | Row `i` of the copy is table row `i` with similarity `sims[base][i]` attached. |
| Similarity.Narratives | src/similarity_engine.py:17 | Definition whose contract keeps only the row count: the `mo_text` column handed to the vectoriser, one narrative per row. |
| Similarity.SimilarityEngine.Candidates | src/similarity_engine.py:35-45 | Definition, no contract: the annotated copy after the `dr_no != case_id` mask and both filter masks. The row count of `GetSimilarCases` is stated over it. |
| Similarity.SimilarityEngine.CandidateRows | src/similarity_engine.py:35-45 | Every row surviving exclusion and filters is a table row at its own position with its own similarity. It passes both filters and occurs exactly once. |
| Similarity.SimilarityEngine.PassingIsCandidate | src/similarity_engine.py:38-45 | Every table row that does not carry the query id and matches the active filters survives the masks. |
| Similarity.SimilarityEngine.DrawnRows | src/similarity_engine.py:34-45 | Every row drawn from the surviving rows (any sub-multiset, such as the sorted head) is a table row with its own similarity, in [0,1]. It lacks the query id and matches every active filter. |
| Similarity.SimilarityEngine.DrawnPositionsDistinct | src/similarity_engine.py:34-45 | No table position occurs twice among rows drawn from the surviving rows. |
| Similarity.SimilarityEngine.GetSimilarCases | src/similarity_engine.py:23-48 | An unknown id gives an empty result. Otherwise each returned row is a distinct table row with `dr_no` different from the query id. It equals `city` and `weapon` whenever those filter, and a missing cell never matches. Its similarity is the base case's similarity at its position, in [0,1]. The order is non-increasing in similarity. The row count is exactly what `head(top_k)` keeps of the surviving rows, which is min(`top_k`, survivors) for a non-negative `top_k`. |
| Similarity.SimilarityEngine.GetSimilarCasesMaximal | src/similarity_engine.py:47-48 | A row that passes exclusion and filters but is not returned is no more similar than any returned row. |
| Similarity.SimilarityEngine.GetSimilarCasesComplete | src/similarity_engine.py:38-48 | When at most `top_k` rows survive, a position is returned if and only if its row lacks the query id and matches every active filter. |
| Similarity.SimilarityEngine.ReturnedAt | src/similarity_engine.py:47-48 | When at most `top_k` rows survive, a passing row appears in the result at the index it returns. |
| Similarity.SimilarityEngine.ReturnedPasses | src/similarity_engine.py:38-48 | The table row at any returned position lacks the query id and matches every active filter. |
| Sorting.Filter | src/similarity_engine.py:39-45 | A boolean mask keeps each element exactly as often as the input holds it when the predicate holds, and never otherwise. |
| Sorting.FilterConcat | src/preprocess_cases.py:21 | A mask distributes over concatenation, so kept rows stay in their original order. |
| Sorting.SortDesc | src/similarity_engine.py:47 | The output is a permutation of the input in non-increasing key order. |
| Sorting.Head | src/similarity_engine.py:48 | `head(n)` is the first `n` rows. A negative `n` drops the last `|n|` rows, and `n` beyond the length keeps all rows. |
| Sorting.TopK | src/similarity_engine.py:47-48 | The output is in non-increasing order and is a sub-multiset of the input. Its length is exactly that of `head(n)`, which is min(`n`, input length) for `n >= 0`. It holds all rows when `n` covers the input. No row left out has a larger key than a row kept. |
| Cases.DayGap | src/suspect_ranker.py:41-42 | The gap is the absolute difference of the two day numbers. |
| Ranking.TextScore | src/suspect_ranker.py:36 | Definition, no contract: `row.get("similarity", 0.0)`. The text score is the row's similarity, or 0.0 when the pool has none. |
| Ranking.Score | src/suspect_ranker.py:35-45 | The weighted score lies in [0,1] whenever the similarity and the decay do. |
| Ranking.PerfectScore | src/suspect_ranker.py:36-45 | Similarity 1.0, the base's (present) area and weapon, and the base's day score exactly 1.0. |
| Ranking.ScoreMonotone | src/suspect_ranker.py:36-45 | With area and weapon fixed, a higher similarity or a smaller day gap never lowers the score. |
| Ranking.MissingFieldsScore | src/suspect_ranker.py:38-39 | Missing area and weapon values never match, so only text and time contribute. |
| Ranking.UnrelatedScore | src/suspect_ranker.py:36-45 | No similarity field, another area and another weapon leave only the decay share, which is in (0, 0.2]. |
| Ranking.ScoreAll | src/suspect_ranker.py:47-48 | Every pool row gets its own score, in pool order. |
| Ranking.TopScoredRows | src/suspect_ranker.py:47-51 | Every row kept after sorting and `head` is a pool row carrying its own score. |
| Ranking.SuspectRanker.RankSuspects | src/suspect_ranker.py:19-51 | An empty pool or an unknown base id gives an empty result. Otherwise each output row is a pool row scored against the first table row with the id. The order is non-increasing in score. The row count is exactly what `head(top_k)` keeps of the pool, which is min(`top_k`, pool size) for a non-negative `top_k`. |
| Ranking.SuspectRanker.RankSuspectsSelection | src/suspect_ranker.py:47-51 | The output is a sub-multiset of the scored pool, and all of it when `top_k` covers the pool. No scored row left out outranks a kept one. |
| Ranking.SuspectRanker.RankedScoresBounded | src/suspect_ranker.py:41-45 | With similarities in [0,1] and a proper decay, every ranked score lies in [0,1]. |
| Ranking.ToPool | app/app.py:320-330 | The search result used as a pool keeps each row and carries its similarity as the text score. |
| Ranking.PipelineScoresBounded | app/app.py:320-330 | Ranking the output of a similarity search always yields scores in [0,1]. |
| Preprocess.TrimLeft | src/preprocess_cases.py:7 | The result is the suffix of the input after its longest all-white-space prefix. |
| Preprocess.TrimRight | src/preprocess_cases.py:7 | The result is the prefix of the input before its longest all-white-space suffix. |
| Preprocess.Strip | src/preprocess_cases.py:7 | Definition, no contract: `str.strip()` is `TrimRight` after `TrimLeft`, whose contracts are stated on those rows. |
| Preprocess.Lower | src/preprocess_cases.py:8 | Each character is lower-cased in place, and the length is kept. |
| Preprocess.ReplaceSpaces | src/preprocess_cases.py:9 | Each `' '` becomes `'_'`, and every other character stays. |
| Preprocess.RemoveDots | src/preprocess_cases.py:10 | No `'.'` is left. Every other character occurs exactly as often as in the input, and nothing new appears. Their order is pinned by `RemoveDotsConcat`. |
| Preprocess.NormaliseName | src/preprocess_cases.py:6-11 | A normalised header holds no `' '`, no `'.'` and no upper-case ASCII letter. |
| Preprocess.NormaliseNames | src/preprocess_cases.py:6-11 | Every header is normalised on its own, and the count is kept. |
| Preprocess.NormaliseDropsOuterSpace | src/preprocess_cases.py:7-9 | Because strip runs first, white space at either end vanishes instead of becoming `'_'`. |
| Preprocess.NormaliseInteriorSpace | src/preprocess_cases.py:7-10 | A space between two non-blank parts becomes exactly one `'_'` between the parts' normalised forms. |
| Preprocess.StripInteriorSpace | src/preprocess_cases.py:7 | Strip of two non-blank parts joined by a space strips each part only on its outer side. |
| Preprocess.NormaliseSimple | src/preprocess_cases.py:6-11 | A header with no white space and no `'.'` only changes case. This includes the empty header. |
| Preprocess.WeaponDescHeader | src/preprocess_cases.py:6-11 | Example, one input: `" Weapon Desc "` normalises to `"weapon_desc"`. |
| Preprocess.DrNoHeader | src/preprocess_cases.py:6-11 | Example, one input: `"DR_NO"` normalises to `"dr_no"`. |
| Preprocess.AsText | src/preprocess_cases.py:35-37 | Definition, no contract: `astype(str)` on a cell. A missing cell prints as `"nan"`, so the later `fillna("")` never applies. |
| Preprocess.MoText | src/preprocess_cases.py:34-38 | Definition, no contract: the lower-cased crime description, weapon and area joined by single spaces. Its round trip is `MoTextFields`. |
| Preprocess.WeaponColumn | src/preprocess_cases.py:29-32 | Definition, no contract: `weapon_desc` when the frame has that column, `crm_cd_desc` otherwise. |
| Preprocess.MoTextFields | src/preprocess_cases.py:34-38 | When no field contains a space, splitting the narrative on spaces gives back the three lower-cased fields. A missing field reads `"nan"`. |
| Preprocess.MissingWeaponReadsNan | src/preprocess_cases.py:34-38 | Example, one input: a missing weapon appears as the word `"nan"` in the narrative, and the later cell rewrite leaves that narrative alone. |
| Preprocess.ColumnIndex | src/preprocess_cases.py:29-37 | The result is the first position of a column name. It is None exactly when the name is absent. |
| Preprocess.SetColumn | src/preprocess_cases.py:17 | Assigning a column overwrites the first column of that name, or appends one. Every other cell is kept. |
| Preprocess.WithDatetime | src/preprocess_cases.py:17-19 | The `datetime` column is overwritten, or appended when absent. Its cell in each row is the parse of that row's `date_occ` cell, and every other cell is kept. |
| Preprocess.KeepDated | src/preprocess_cases.py:21-22 | Exactly the rows with a date are kept, each as often as before, and every kept row has a date. |
| Preprocess.Dated | src/preprocess_cases.py:21 | Definition, no contract: the `notna()` mask on the `datetime` column. |
| Preprocess.KeepDatedConcat | src/preprocess_cases.py:21 | The dated rows of two stacked row blocks are the dated rows of the first block followed by those of the second, so kept rows stay in their original order. |
| Preprocess.KeepDatedOne | src/preprocess_cases.py:21 | A single row is kept exactly when its `datetime` cell is present. |
| Preprocess.WithMoText | src/preprocess_cases.py:27-40 | Every row's `mo_text` is present and is the narrative of its crime description, its weapon column (`weapon_desc`, else `crm_cd_desc`) and its area. Every other cell is kept. |
| Preprocess.KeepPresent | src/preprocess_cases.py:56 | The kept names are exactly the wanted names present, in the wanted list's order. |
| Preprocess.SelectColumns | src/preprocess_cases.py:44-57 | The output columns are exactly the wanted names present in the input, in the wanted order. |
| Preprocess.CleanCell | src/preprocess_cases.py:55 | Only a cell exactly `"nan"` changes, to `"unknown"`, so no `"nan"` cell remains. |
| Preprocess.CleanCases | src/preprocess_cases.py:43-57 | The output has the selected columns, every cell cleaned from the cell of the same name in the same row, and no `"nan"` cell. |
| Preprocess.Frame.constructor | src/preprocess_cases.py:4 | The frame holds the given table. |
| Preprocess.Frame.NormaliseColumns | src/preprocess_cases.py:6-11 | Every header is renamed to its normalised form, and no cell changes. |
| Preprocess.Frame.BuildDatetime | src/preprocess_cases.py:16-24 | A frame without `date_occ` is left alone and the step fails. Otherwise the frame gains the parsed `datetime` column, and a fresh frame holds the rows with a date. |
| Preprocess.Frame.CreateMoText | src/preprocess_cases.py:27-40 | The step fails without changing anything unless `crm_cd_desc` and `area_name` exist. Otherwise the frame gains the `mo_text` column in place. |
| Preprocess.Preprocessed | src/preprocess_cases.py:60-64 | The result is None where a step reads a missing column (KeyError). Otherwise it is the table after load, `build_datetime`, `create_mo_text` and `clean_cases`, and it is rectangular. |
| Preprocess.PreprocessCases | src/preprocess_cases.py:60-65 | Running the steps on frames computes `Preprocessed`, the value-level pipeline. |
| Preprocess.PreprocessedSteps | src/preprocess_cases.py:60-64 | Unfolding helper for `PreprocessedShape`: a successful run passes through the normalised, dated, narrated and cleaned tables in that order. |
| Preprocess.PreprocessedShape | src/preprocess_cases.py:60-64 | The output is rectangular and holds only wanted columns, including `datetime` and `mo_text`. Every row has both, and no cell is `"nan"`. |

## Left out

- Similarity.SimilarityEngine.constructor: always builds an engine. The source's
  `TfidfVectorizer(stop_words="english").fit_transform` (src/similarity_engine.py:16-17) raises
  ValueError when the corpus has an empty vocabulary, and construction then fails before any
  query runs. That happens for an empty table, for example when no `date_occ` parses. It also
  happens when every narrative is `""`, stop words only or one-letter tokens. The model has no
  vocabulary. Over such a table it builds an engine anyway, and queries run on whatever matrix
  the `cosine` parameter gives. For an empty table, every query returns an empty result.
- TF-IDF vectorisation and cosine similarity are not modelled. The engine takes a function from
  the corpus of narratives to a square matrix with entries in [0,1]. Self-similarity and stop
  words are not modelled either.
- `np.exp(-days / 365)` is a parameter `decay` of the ranker. The ranking lemmas assume it is 1
  at 0, in (0,1], and non-increasing. Floating-point rounding of the score is not modelled,
  and neither are NaN similarities.
- Tie order: pandas sorts with an unstable quicksort. The model sorts stably but states order
  only up to ties, as non-increasing keys plus a permutation.
- CSV reading and writing are not modelled, and `pd.to_datetime(errors="coerce")` is a parameter
  `parse`. `.dt.date` is folded into it, and dates elsewhere are integer day numbers. The
  ranker's constructor conversion of `datetime` is therefore not modelled.
- Strip and lower-case work on ASCII only, with white space as Python's `str.isspace` on ASCII.
  Unicode case folding is not modelled.
- Duplicate column names: every lookup takes the first column of that name, where pandas would
  yield a sub-frame.
- Missing columns in the search and the ranking are not modelled. A `Case` row always has
  `dr_no`, `area_name`, `weapon_desc`, `mo_text` and a day. The source reads these columns
  without checking (src/similarity_engine.py:14,20,45 and src/suspect_ranker.py:28,38-41) and
  raises KeyError when one is absent. The engine and the ranker assume the columns exist. A
  cleaned table without `weapon_desc`, which `clean_cases` yields when the raw data has no
  weapon column, would make the source's `rank_suspects` raise, and the model does not show that.
- Ranking.Candidate carries its similarity per row. pandas either has the `similarity` column
  or lacks it for the whole pool.
- app/app.py (the dashboard) and main.py (a driver) are not part of this model, apart from the
  search-then-rank call that `PipelineScoresBounded` covers.
- Missing categorical cells are never rewritten. `clean_cases` changes only cells that are
  exactly the string `"nan"` (src/preprocess_cases.py:55), so missing cells stay missing, and a
  narrative such as `"theft nan central"` is kept.
- A negative `top_k` follows pandas `head`: it drops the last `|top_k|` rows. The bound
  `|r| <= top_k` is stated only for `top_k >= 0`.
