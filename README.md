# EcoScan AI service: post-inference and configuration core

This project is a Dafny model of the deterministic logic in the EcoScan waste-classification service (`api/main.py`). It proves properties of that model. It covers four parts:

- **Detection filter.** `validate_detections` keeps a raw detection when its confidence reaches the threshold of its category. The thresholds are recycle 0.7, compost 0.8, trash 0.6 and hazardous 0.9; any other category uses 0.5. The filter is stable: survivors keep their input order.
- **Enrichment.** A label is normalised to a database key by lower-casing it and turning each space into `_`. The key is looked up in the built-in environmental database, and a missing key gives an empty fact map. Each detection then gets a disposal instruction chosen by category and a list of tips. Tips follow category-gated rules, and each of these rules also looks at which fact keys are present. The `/environmental-impact` lookup answers "not found" when the key has no entry.
- **Device optimizer.** `optimize_for_device` is a decision table over the device's memory (default 4 GB), its GPU flag and the quality preference. It is followed by a closed-form performance estimate over `real` and by advisory recommendations chosen by threshold tests.
- **Running statistics.** `performance_stats` holds a request counter and a running mean of processing times. It is modelled as a class. One request increments the count (line 462) and then folds its time into the mean (`update_performance_stats`).

Files: `wrappers.dfy` (Option, Result), `classifier.dfy` (module `Classifier`), `optimizer.dfy` (module `Optimizer`), `stats.dfy` (module `Stats`).

Text is represented as tagged values. A disposal instruction is, for example, `RecyclingBin(item)` with the lower-cased label. A tip is, for example, `EnergySavedPercent(95)`. The exact wording of the f-strings is not modelled.

Each loop or chain of appends in the source is a method, proved against a reference definition:

- `ValidateDetections` equals the function `Filter`.
- `EnrichWithEnvironmentalData` satisfies the predicate `EnrichedFrom` at every position.
- `GenerateTips` equals the function `Tips`.
- `GenerateRecommendations` equals the function `Advice`.
- `OptimizeForDevice` equals `Profile` for the configuration, `PredictPerformance` for the estimate and `Advice` for the recommendations.

The properties are then proved as lemmas about those definitions.

Behaviour of the code worth knowing:

- `hazardous` items get no tips.
- No tip reports a CO2 footprint or the recycled uses.
- The energy percentage is truncated with `int()`, not rounded.
- The low-memory tier is `memory < 2`.
- The device's cores and network speed are read but never used.
- `fast` and `accurate` overwrite the size and precision whatever the memory tier. The batch size still follows memory.
- The built-in database has three entries: plastic bottle, aluminum can and food waste.
- More memory selects a larger image, so the predicted latency grows with memory (`Optimizer.LatencyGrowsWithMemory`).
- The predicted accuracy depends only on the precision, not on the target size.
- The request's `confidence_threshold` is never used by the filter. Only the per-category table decides.

## Model

| member | source | states |
|---|---|---|
| Classifier.Threshold | api/main.py:98-103 | every threshold lies in [0.5, 0.9]; the 0.5 default is used exactly for categories outside the table |
| Classifier.Filter | api/main.py:238-252 | the filter's output is never longer than its input and holds only input detections that reach their threshold |
| Classifier.FilterKeepsAccepted | api/main.py:240-250 | every input detection that reaches its threshold (boundary included) is in the output |
| Classifier.FilterMembers | api/main.py:240-250 | a detection is in the output iff it is in the input and its confidence is >= its category's threshold |
| Classifier.FilterCounts | api/main.py:240-250 | an accepted detection occurs in the output as often as in the input; a rejected one never occurs |
| Classifier.FilterIsSubsequence | api/main.py:238-252 | survivors keep their original relative order (the output is a subsequence of the input) |
| Classifier.ValidateDetections | api/main.py:236-252 | the append loop returns exactly the filter's result: membership iff accepted, in input order |
| Classifier.Lower | api/main.py:259 | lower-casing keeps the length, leaves no upper-case letter and changes only upper-case letters, each to its lower-case form |
| Classifier.LabelKey | api/main.py:259 | the key has the label's length and contains no space and no upper-case letter; `_` appears exactly where the label had a space or `_`; every other character is the label's lower-cased |
| Classifier.KeyIsFixedPoint | api/main.py:259 | a string is left unchanged by normalisation iff it has no space and no upper-case letter |
| Classifier.LabelKeyIdempotent | api/main.py:579 | normalising a key again changes nothing, so a lookup by key finds what the label finds |
| Classifier.LabelKeyIgnoresCase | api/main.py:259 | labels that differ only in letter case share a key |
| Classifier.LoadEnvironmentalDatabase | api/main.py:106-126 | the database holds exactly plastic_bottle, aluminum_can and food_waste; every entry is non-empty and any energy fraction in it is a number |
| Classifier.DatabaseKeysAreKeys | api/main.py:106-126 | every database key is its own normal form, so each entry can be reached from a label |
| Classifier.ImpactFor | api/main.py:259-260 | the facts attached to any label are ones the tip rules can be applied to |
| Classifier.ImpactIsDatabaseEntry | api/main.py:259-260 | a detection's impact is the database entry for its key, and it is empty exactly when the key has no entry (absence is not an error) |
| Classifier.GenerateDisposalInstructions | api/main.py:283-292 | the instruction's template is the category's own for recycle, compost, trash and hazardous and carries the lower-cased label; every other category gets the fixed fallback |
| Classifier.DisposalCategoriesHaveThresholds | api/main.py:98-103 | the categories with a disposal template (lines 283-292) are exactly those with their own threshold, so a detection gets the fallback instruction iff it was judged at the 0.5 default |
| Classifier.Trunc | api/main.py:301 | `int()` truncates toward zero: the result is within one of the value, on the side of zero |
| Classifier.TipFactKey | api/main.py:298-311 | exactly recycle, compost and trash have a fact that adds a second tip |
| Classifier.TipsShape | api/main.py:294-313 | no tips outside recycle, compost and trash (so none for hazardous); otherwise two tips exactly when the category's fact is present, else one |
| Classifier.TipsGrowWithFacts | api/main.py:294-313 | more facts only append tips: the tips for fewer facts, and the fact-free tips, are a prefix |
| Classifier.EnergyTipTruncates | api/main.py:300-301 | the recycling energy tip reports the fraction times 100, truncated |
| Classifier.GenerateTips | api/main.py:294-313 | the conditional appends produce exactly the category tip followed by the fact tip when present |
| Classifier.EnrichWithEnvironmentalData | api/main.py:254-281 | one result per input detection, in order; label, category, confidence and bbox unchanged; impact, instructions and tips generated from the label and category |
| Classifier.ClassifyDetections | api/main.py:142-146 | validation then enrichment gives one enriched result per surviving detection, in the filter's order |
| Classifier.GetEnvironmentalImpact | api/main.py:575-589 | not found exactly when the normalised item type has no entry; otherwise the entry, with the recycling instructions and tips for it |
| Classifier.LookupByKeyOrLabel | api/main.py:579-582 | looking up an item type or its key gives the same found/not-found answer and the same facts |
| Classifier.FilterScenario | api/main.py:240-250 | a recyclable at 0.92 and a compostable at 0.3 leave only the recyclable |
| Classifier.UnknownItemScenario | api/main.py:258-292 | an unknown label of an unknown category enriches to empty facts, the fallback instruction and no tips |
| Classifier.AluminumCanTips | api/main.py:298-301 | an aluminum can classed as recycle gets the recycling tip and a 95 per cent energy tip |
| Optimizer.Profile | api/main.py:342-374 | the chosen size is square and one of 320, 416, 640, 832 or 1024; batch is 1 or 2; the cache flag is always on |
| Optimizer.FastProfile | api/main.py:343-368 | `fast` gives 320 pixels, int8 and low enhancement for every device; the batch is 2 from 8 GB up, else 1 |
| Optimizer.AccurateProfile | api/main.py:343-374 | `accurate` gives 1024 pixels, float32 and high enhancement for every device; the batch is 2 from 8 GB up, else 1 |
| Optimizer.BalancedProfile | api/main.py:334-355 | other preferences follow memory: below 2 GB 416/int8/batch 1/low; 8 GB or more 832/float32/batch 2/high; otherwise 640/float32/batch 1/medium |
| Optimizer.MissingFieldsDefault | api/main.py:328-360 | a device that reports no memory and no GPU is treated as 4 GB on the CPU: under `balanced` (any preference other than `fast` or `accurate`) it gets the default 640/float32/batch 1/medium configuration and only the GPU note |
| Optimizer.AccelerationFollowsGpu | api/main.py:357-360 | acceleration is "gpu" iff the device reports a GPU |
| Optimizer.SizeGrowsWithMemory | api/main.py:342-374 | with the same preference, more memory never gives a smaller image |
| Optimizer.OptimizeForDevice | api/main.py:324-383 | the in-place updates of the config yield the decision table's profile, its predicted performance and its recommendations |
| Optimizer.PredictPerformance | api/main.py:385-412 | the predicted fps, latency and memory are positive; the accuracy lies in (0, 0.85] |
| Optimizer.SizeFactorMonotone | api/main.py:394 | the size factor is positive and grows with the width |
| Optimizer.PerformanceMonotoneInSize | api/main.py:394-396 | with precision and acceleration fixed, latency and memory are non-decreasing and fps is non-increasing in the target size |
| Optimizer.Int8Speedup | api/main.py:398-401 | int8 strictly lowers latency to 0.7 times, raises fps 1.5 times and scales accuracy by 0.95 |
| Optimizer.GpuSpeedup | api/main.py:403-405 | the GPU strictly lowers latency to 0.5 times and doubles fps |
| Optimizer.ReferencePerformance | api/main.py:388-396 | 640 pixels at float32 on the CPU predicts 15 fps, 200 ms, 0.85 accuracy and 150 MB |
| Optimizer.LatencyGrowsWithMemory | api/main.py:342-405 | with the same preference and GPU flag, more memory never lowers the predicted latency |
| Optimizer.AdviceUnfolded | api/main.py:414-427 | the recommendations are the memory note, the quality note and the GPU note, each present iff its test holds, in that order |
| Optimizer.AdviceExactly | api/main.py:418-425 | each recommendation is present iff its condition holds: memory < 2, target size < 640, acceleration "cpu"; none twice, at most three |
| Optimizer.GenerateRecommendations | api/main.py:414-427 | the three conditional appends produce exactly the applicable recommendations in order |
| Optimizer.OptimizedAdvice | api/main.py:363-425 | for an optimized config the quality note appears iff `fast`, or `balanced` with memory < 2; the GPU note iff there is no GPU |
| Optimizer.LowEndScenario | api/main.py:342-360 | 1 GB, no GPU flag, `balanced` gives 416 pixels, int8, low enhancement, CPU, batch 1, and all three notes |
| Stats.RunningMeanStep | api/main.py:604-606 | one update with the post-increment count n turns the mean of n-1 times into the mean of all n |
| Stats.RunningAverageIsMean | api/main.py:597-606 | folding the formula over t1..tn from average 0 gives (t1+...+tn)/n |
| Stats.PerformanceStats.constructor | api/main.py:85-90 | the statistics start at count 0, average 0, accuracy 0.89 and no cache hits |
| Stats.PerformanceStats.CountRequest | api/main.py:462 | the count goes up by one and nothing else changes |
| Stats.PerformanceStats.UpdatePerformanceStats | api/main.py:597-606 | the formula `(avg*(n-1)+t)/n` with the already incremented count restores "average = mean of recorded times" |
| Stats.PerformanceStats.Record | api/main.py:462 | a sequential request adds one to the count and leaves the average equal to the mean of all recorded times |
| Stats.TwoRequests | api/main.py:597-606 | two sequential requests give count 2 and the mean of their two times |

## Left out

- The FastAPI application, CORS, the routes and the pydantic models. These are HTTP plumbing. The 404 answer of the environmental-impact route is modelled as `Failure(NotFound)`, and the other exceptions are not modelled.
- `decode_base64_image`, `preprocess_image` and the image handling in `classify_image`. These are base64, PIL and OpenCV library calls on pixel arrays.
- `ensemble_predict`: the predictor is mocked behind `asyncio.sleep`. Its detections are an arbitrary input list of `ClassifyDetections`.
- The `uuid4` id of each enriched detection. Ids are random and have no modelled property.
- The segmentation mask and material composition of a raw detection. They pass through the filter untouched and are dropped by enrichment.
- The unused `image` argument of `validate_detections`.
- The per-detection "reduce usage" recommendations built in the `/detect` route. They belong to the route.
- `asyncio` and `BackgroundTasks`: counting a request and updating the average are split across a background task. The model covers the sequential case, where each count is immediately followed by its update. A failed request that is counted but never averaged is not modelled.
- Concurrent updates of the statistics are not modelled.
- `Optimizer.DeviceInfo`, `Optimizer.HasGpu`, `Optimizer.MemoryGb`: the source's `device_info` is an untyped JSON object. The model takes the GPU flag as a bool and memory as a number. Python truthiness of other flag values (`1`, `"false"`) is not modelled. A non-numeric memory value, which makes `memory_gb < 2` raise `TypeError` and gives HTTP 500, is not modelled either.
- `Classifier.Lower`: maps only the ASCII letters A-Z. Python's `str.lower` also maps non-ASCII letters and can change a string's length.
- `Classifier.Tips`: applies only when the energy fraction is a number. On a non-numeric value the source's `int(value*100)` raises or computes a meaningless percentage (a digit string or a bool gives a number), and neither is modelled. Both call sites (api/main.py:266, 588) pass database facts, whose fraction is the number 0.95, so `TipsDefined` holds wherever the source calls it (`Classifier.ImpactFor`, `Classifier.LoadEnvironmentalDatabase`).
- The confidences, thresholds and timings are exact reals. Float rounding is not modelled. For example, Python's `int(0.29*100)` is 28.
- `round()` and the `"<n>MB"` string formatting in `predict_performance`.
- The exact f-string wording of instructions and tips.
- The `optimization_cache`, the `cores` and `network_speed` device fields and `performance_metrics`. They are read or stored but never used.
- The `enhancement_level` field is modelled as the optimizer sets it. No code reads it: `preprocess_image` reads `enhance_quality` and `denoise`, and `/detect` builds its own preprocessing config rather than using the optimizer's.
- The `/health` route as such. It reports the live `performance_stats` (modelled by `Stats`) and `len(model_cache)`, which is always 0 because `model_cache` is never written. The `/models` route returns a literal.
- `scripts/generate-icons.py` and `scripts/download-model.py` only drive ImageMagick, pip and the filesystem.
