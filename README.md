# Farm Shield AI crop recommendation — feature alignment and ranking

A Dafny model of the "Predict Crop" handler of `app.py`. The model covers two parts.

- **Vectorizer** (module `Vectorizer`, pure). It builds a one-row frame from the soil form: `Soilcolor`, `Ph`, `K`, `P`, `N`, `Zn`, `S`. It one-hot encodes `Soilcolor` the way `pandas.get_dummies` does: the text column is dropped and one boolean column `"Soilcolor_" + colour` is appended, so `"yellowish brown"` keeps its space. It then reindexes the frame to the trained schema `cols` with `fill_value=0`. A frame is a sequence of labelled cells. A cell is the colour text, a number, or an indicator flag.
- **Ranker** (module `Ranker`, imperative). It zips the classifier's `classes_` with its `predict_proba` row. It sorts the pairs in place by probability, highest first, with a stable sort (`SortByProbDesc`, an insertion sort on an `array`). It keeps the first three (`Recommend`).
- `Predict.PredictCrop` chains the two. The classifier is passed in as its class list and a `predict_proba` function.

Stability is stated value by value. For every probability `p`, the pairs with probability `p` appear in the same relative order in the output as in the input (`Ranker.Stable`). Python promises this even with `reverse=True`. `SortedStableUnique` shows that sortedness and stability together fix the output completely. So the in-place sort equals the functional reference `Ranked`, and every property proved of `Ranked` holds for the handler's list.

The handler validates nothing:
- An unknown soil colour raises no error. Every indicator in the schema is then 0 (`VectorizeMissingIndicator`, `VectorizeUnproduced`).
- A label/probability length mismatch raises no error either. `zip` truncates to the shorter list (`Zip`).
- No climate data is fetched and no region is resolved. The feature frame holds only the soil fields.

## Model

| member | source | states |
|---|---|---|
| `Vectorizer.SampleFrame` | app.py:25-33 | the one-row frame has the columns Soilcolor, Ph, K, P, N, Zn, S in that order; Soilcolor holds the colour text and each other column holds the value entered for that field |
| `Vectorizer.Drop` | app.py:35 | the labels left after dropping a label are exactly the frame's other labels |
| `Vectorizer.DropLookup` | app.py:35 | after dropping a label, every other label still finds the cell it found before |
| `Vectorizer.GetDummies` | app.py:35 | the encoded column is gone, every other label survives and still finds its cell, and one indicator named prefix + "_" + category, set to true, is appended last |
| `Vectorizer.Reindex` | app.py:36 | a frame whose labels already equal the schema comes back unchanged; otherwise it fails exactly when the frame's labels repeat; a successful result has exactly the schema's names in schema order, and for a frame with distinct labels each cell is taken from the frame by name, or 0 when the frame lacks it |
| `Vectorizer.AlignAligned` | app.py:36 | for a frame with distinct labels, looking every column up by name against its own labels gives the frame back, so the unchanged-frame shortcut agrees with the lookup |
| `Vectorizer.Encode` | app.py:25-35 | the encoded frame has distinct labels, and looking up any name gives the entered value for the six numeric fields, true for the chosen colour's indicator, and nothing otherwise |
| `Vectorizer.Vectorize` | app.py:25-36 | the aligned frame has the schema's length and names in schema order, so produced columns the schema lacks are dropped; each cell is what the form and one-hot step produced under that name, or 0 |
| `Vectorizer.VectorizeNumeric` | app.py:35-36 | no text cell reaches the classifier |
| `Vectorizer.VectorizeInputs` | app.py:25-36 | a schema column named Ph, K, P, N, Zn or S carries the user's value for that field |
| `Vectorizer.VectorizeIndicators` | app.py:35-36 | the chosen colour's indicator column is true; every other Soilcolor_ column is 0 |
| `Vectorizer.VectorizeOneHot` | app.py:35-36 | when the schema has the chosen colour's indicator, some indicator column is set |
| `Vectorizer.VectorizeAtMostOneHot` | app.py:35-36 | every cell is numeric, and two nonzero colour indicators always name the same column |
| `Vectorizer.VectorizeUnproduced` | app.py:36 | a schema column that is neither a numeric field nor the chosen indicator is 0 (the raw Soilcolor column included) |
| `Vectorizer.VectorizeMissingIndicator` | app.py:35-36 | when the chosen colour's indicator is missing from the schema, every colour indicator is 0 and nothing fails |
| `Vectorizer.ReindexIdempotent` | app.py:36 | reindexing an aligned frame to the same schema returns it unchanged, for every schema, repeated names included |
| `Vectorizer.VectorizeIdempotent` | app.py:36 | re-aligning the feature frame against the same schema returns it unchanged |
| `Vectorizer.FormColorIndicators` | app.py:15 | each of the form's colours gets an indicator named "Soilcolor_" plus the colour verbatim ("Soilcolor_yellowish brown" keeps its space); different colours get different indicator names |
| `Ranker.Zip` | app.py:41 | the pairs have the length of the shorter input, and pair i is (classes[i], probs[i]) |
| `Ranker.InsertPerm` | app.py:42 | inserting one pair adds exactly that pair to the multiset |
| `Ranker.InsertSorted` | app.py:42 | inserting into a non-increasing list keeps it non-increasing |
| `Ranker.InsertTies` | app.py:42 | the inserted pair goes in front of every pair it ties with, and the other tie groups are unchanged |
| `Ranker.RankedSpec` | app.py:42 | the reference ranking is non-increasing by probability, a permutation of its input, and stable on ties |
| `Ranker.SwapKeepsTies` | app.py:42 | exchanging two neighbours of different probability keeps every tie group in order |
| `Ranker.SortedStableUnique` | app.py:42 | two non-increasing lists with the same tie groups are equal, so a stable descending sort has exactly one result |
| `Ranker.SortByProbDesc` | app.py:42 | the array is sorted in place into non-increasing order, as a permutation of its old contents that keeps tied pairs in classifier order; it equals `Ranked` of the old contents |
| `Ranker.Top` | app.py:45 | the slice has length min(k, n) and holds the first pairs of the ranking |
| `Ranker.TopIsMostProbable` | app.py:41-45 | the top k are in order, are drawn from the input pairs, and are at least as probable as every pair left out |
| `Ranker.TopKeepsTieOrder` | app.py:42-45 | the shown pairs of any probability are a prefix of that probability's pairs in classifier order |
| `Ranker.Recommend` | app.py:41-45 | the shown list is exactly the first min(3, number of pairs) pairs of the stable descending ranking of zip(classes, probs); it is sorted and drawn from the input |
| `Ranker.RankExample` | app.py:41-45 | wheat 0.2, rice 0.5, maize 0.3 are shown as rice, maize, wheat |
| `Ranker.TieExample` | app.py:41-45 | two crops tied at 0.5 are shown in classifier order |
| `Predict.PredictCrop` | app.py:23-45 | the classifier sees the aligned frame, and the crops shown are the top three of its ranked output |

## Left out

- Streamlit page setup, title, widgets and output (app.py:5-23, 44-46): presentation only. The widget ranges (app.py:16-21) are not preconditions, because no modelled step depends on them. The five-colour list (app.py:15) appears as the constant `SoilColors`, used only by `FormColorIndicators`. The colour is modelled as any string, because nothing in the handler checks it.
- Loading the classifier and schema with joblib (app.py:10-11): file I/O. The schema is a parameter.
- The classifier (app.py:38-39): it is opaque. `PredictCrop` takes its `classes_` and a `predict_proba` function as parameters.
- The percentage display `round(prob * 100, 2)` (app.py:46): floating-point formatting.
- Floating point: probabilities and soil values are reals. NaN and the ordering of floats are not modelled.
- pandas dtypes: an indicator is a boolean cell and the fill is the number 0. The model does not distinguish pandas' int, float and bool column types beyond that.
- Vectorizer.GetDummies: models only the call this handler makes, a one-row frame whose encoded column holds text. It does not state that the kept columns stay in their original order, because reindexing discards that order anyway.
- Vectorizer.Drop: states the surviving labels and, through `DropLookup`, the cells a lookup finds; it does not state their order or how often a repeated label survives, because the handler's frame has no repeated labels and reindexing discards the order.
- Climate fetching, region-to-coordinate lookup and their errors are not part of this model: the handler has none of them.
