# XGBoostPredictor input and output shaping, in Dafny

This project models `XGBoostPredictor` of `ray.train.xgboost`. The Dafny code
follows `python/ray/train/xgboost/xgboost_predictor.py`. `_predict_pandas`
turns one pandas batch into the input of an XGBoost `DMatrix`, then names the
columns of the prediction frame. It makes three decisions on the input side:

- which data feeds the booster: the tensor column (`__value__`), the columns
  listed in `feature_columns`, or every column;
- how columns are picked: by integer position in the tensor array
  (numpy `arr[:, idx]`), or by label in the frame (pandas `df[keys]`);
- whether `feature_names` goes into the `DMatrix` keyword arguments. It does
  only when every chosen label is a string and the list is not empty.

On the output side one prediction column is named `predictions`. Any other
count `k` gives `predictions_0` … `predictions_{k-1}`.

Layout:

- `wrappers.dfy`: `Option` (Python's `None`) and `Result` (an exception).
- `decimal.dfy`: decimal rendering of a natural number, as `f"{i}"` does, and
  reading it back.
- `frames.dfy`: an abstract DataFrame, given as labels, row count and tensor
  width. It also holds the two ways of picking columns and their error cases:
  `KeyError` for an absent label, `IndexError` for a bad tensor index.
- `xgboost_predictor.py` maps to `xgboost_predictor.dfy`. The case split
  (`SelectFeatures`), the keyword update (`WithFeatureNames`) and the output
  naming (`PredictionColumnNames`) are pure functions, with lemmas for what the
  source promises. The in-place parts are classes: the constructor's fields,
  the caller's `dmatrix_kwargs` dict mutated in place, and `df.columns`
  assigned on the result frame. `PredictPandas` ties these to the functions.

The booster is a class whose `predict` is a function field. It yields only
the number of prediction columns for a matrix and the `predict_kwargs`.

A selection is the list of positions it takes from its origin (the tensor
array or the frame), so "exactly these columns, in this order" can be stated.
pandas returns every column that carries a requested label. The model proves
that the selection is exactly those columns, repeated labels included. "One
column per entry of `feature_columns`, in its order" holds when the frame's
labels are distinct, and the model proves it under that condition.

Python truthiness is modelled explicitly. A `feature_columns` that is `None`
or `[]` takes the all-columns path. A `dmatrix_kwargs` that is `None` or `{}`
is replaced by a fresh dict. So a caller's empty dict is never mutated, while
a caller's non-empty dict receives `feature_names` in place.

## Model

| member | source | states |
|---|---|---|
| `XGBoostPredictor.SelectFeatures` | python/ray/train/xgboost/xgboost_predictor.py:113-131 | Fails only when `feature_columns` is non-empty. Keeps the row count. Picks from the tensor array iff the tensor column is present. Without `feature_columns` it takes every position `0 … n-1` of its origin, once and in order. A `feature_names` list arises only off the tensor path, and it is the string labels of `feature_columns`, or of the frame when `feature_columns` is None or empty. |
| `XGBoostPredictor.WithFeatureNames` | python/ray/train/xgboost/xgboost_predictor.py:132-133 | The keys afterwards are the given keys, plus `feature_names` exactly when the feature list is non-empty. |
| `XGBoostPredictor.Booster.constructor` | python/ray/train/xgboost/xgboost_predictor.py:25 | A booster whose `predict` is the given column-count function. |
| `XGBoostPredictor.KwargsDict.constructor` | python/ray/train/xgboost/xgboost_predictor.py:111 | A dict holding exactly the given entries (`{}` for `dmatrix_kwargs or {}`). |
| `Frames.HasTensorColumn` | python/ray/train/xgboost/xgboost_predictor.py:114 | `TENSOR_COLUMN_NAME in data` holds iff some column label is the string `__value__`. |
| `Frames.NormalizeIndex` | python/ray/train/xgboost/xgboost_predictor.py:118 | One numpy index is accepted iff it is an int in `[-width, width)`, and then denotes a position in `[0, width)`: the index itself, or the index plus the width. |
| `Frames.SelectByLabel` | python/ray/train/xgboost/xgboost_predictor.py:121 | `df[keys]` succeeds iff every key is a column label. It then selects exactly the in-range positions whose label is requested, and otherwise raises a KeyError. |
| `XGBoostPredictor.TensorColumnFeatures` | python/ray/train/xgboost/xgboost_predictor.py:114-118 | With a tensor column the data comes from the tensor array and `feature_names` is never produced. The selection succeeds iff `feature_columns` is None/empty or every entry is an int in `[-width, width)`; otherwise an IndexError names an entry of `feature_columns`. Without `feature_columns` all tensor positions are taken. |
| `XGBoostPredictor.TensorColumnPicks` | python/ray/train/xgboost/xgboost_predictor.py:116-118 | A successful tensor selection takes one position per entry, in order; each lies in `[0, width)` and is the index itself, or the index plus the width for a negative index. |
| `XGBoostPredictor.NamedColumnFeatures` | python/ray/train/xgboost/xgboost_predictor.py:119-124 | With no tensor column and a non-empty `feature_columns`, the selection fails iff some entry is not a column label. The KeyError lists only absent labels. On success exactly the columns that carry a requested label are taken from the frame, repeated labels included, and `feature_names` is set iff all entries are strings, and then equals them. |
| `XGBoostPredictor.NamedColumnsInOrder` | python/ray/train/xgboost/xgboost_predictor.py:119-121 | When the frame's labels are distinct, the selected columns' labels are exactly `feature_columns`, one per entry and in its order. |
| `XGBoostPredictor.AllColumnFeatures` | python/ray/train/xgboost/xgboost_predictor.py:125-130 | With no tensor column and `feature_columns` None or empty, the selection always succeeds and takes every position `0 … n-1` of the frame once, in frame order. `feature_names` is set iff every label is a string, and then equals the full label list. |
| `XGBoostPredictor.SelectionShape` | python/ray/train/xgboost/xgboost_predictor.py:114-127 | Selection keeps the row count. The width is `len(feature_columns)` when that list is non-empty (on the frame, when its labels are distinct). Otherwise it is the tensor width or the frame's column count. |
| `XGBoostPredictor.KwargsOrEmpty` | python/ray/train/xgboost/xgboost_predictor.py:111 | A `None` `dmatrix_kwargs` becomes the empty map; a given dict keeps its entries. |
| `XGBoostPredictor.WithFeatureNamesEntries` | python/ray/train/xgboost/xgboost_predictor.py:132-133 | `feature_names` is written only for a non-empty list and then holds it. Every other key and value is kept unchanged, and nothing changes when the list is None or empty. |
| `XGBoostPredictor.DMatrixFeatureNames` | python/ray/train/xgboost/xgboost_predictor.py:113-133 | The `DMatrix` keyword map has no `feature_names` added on the tensor path. When the requested labels, or all labels of a frame with at least one column, are strings, it carries exactly those names. |
| `XGBoostPredictor.PredictionColumnNames` | python/ray/train/xgboost/xgboost_predictor.py:137-141 | There are as many names as prediction columns, and a single column is named `predictions`. |
| `XGBoostPredictor.PredictionNamesEncodeIndex` | python/ray/train/xgboost/xgboost_predictor.py:140 | For any number of columns other than one, column `i`'s name is `predictions_` followed by digits that read back as `i` and have no leading zero, i.e. the canonical decimal text `f"{i}"`. |
| `XGBoostPredictor.PredictionNamesDistinct` | python/ray/train/xgboost/xgboost_predictor.py:137-141 | The prediction column names are pairwise distinct for every column count. |
| `XGBoostPredictor.XGBoostPredictor.constructor` | python/ray/train/xgboost/xgboost_predictor.py:24-28 | Stores `model` and `preprocessor` unchanged; `preprocessor` defaults to `None` (`null`). |
| `XGBoostPredictor.XGBoostPredictor.PredictPandas` | python/ray/train/xgboost/xgboost_predictor.py:111-142 | On a selection error the error is returned and the caller's dict is unchanged. Otherwise the result is a fresh frame whose columns are the prediction names for the booster's column count. The `DMatrix` is built from the selected matrix and the updated keywords. A non-empty caller dict ends up holding those keywords, and an empty one stays empty. |
| `XGBoostPredictor.KwargsDict.Put` | python/ray/train/xgboost/xgboost_predictor.py:133 | Item assignment: the key maps to the value and every other entry is unchanged. |
| `XGBoostPredictor.PredictionFrame.constructor` | python/ray/train/xgboost/xgboost_predictor.py:136 | A frame built from a `k`-column array has the integer labels `0 … k-1`. |
| `XGBoostPredictor.PredictionFrame.SetColumns` | python/ray/train/xgboost/xgboost_predictor.py:137-141 | Assigning `df.columns` succeeds iff the new list has the frame's column count, and then replaces the labels; `PredictPandas` proves this always succeeds. |
| `Frames.SelectByPosition` | python/ray/train/xgboost/xgboost_predictor.py:118 | numpy `arr[:, idx]` succeeds iff every entry is an int in `[-width, width)`. It then yields one in-range position per entry: the entry itself, or the entry plus the width. Otherwise the IndexError names the first bad entry. |
| `Frames.Positions` | python/ray/train/xgboost/xgboost_predictor.py:121 | The positions carrying a label are in range, carry that label and are all of them. There are none when the label is absent. |
| `Frames.PositionsIncreasing` | python/ray/train/xgboost/xgboost_predictor.py:121 | The positions of a label come in frame order. |
| `Frames.PositionsOfDistinct` | python/ray/train/xgboost/xgboost_predictor.py:121 | In a frame with distinct labels a present label is at exactly one position. |
| `Frames.Gather` | python/ray/train/xgboost/xgboost_predictor.py:121 | Every position selected by label is in range and carries one of the requested labels. |
| `Frames.GatherComplete` | python/ray/train/xgboost/xgboost_predictor.py:121 | Every column that carries a requested label is selected, also when the frame repeats that label. |
| `Frames.GatherDistinct` | python/ray/train/xgboost/xgboost_predictor.py:121 | With distinct frame labels and all keys present, the selection has one column per key, and its labels are the keys in order. |
| `Frames.SelectByLabelError` | python/ray/train/xgboost/xgboost_predictor.py:121 | `df[keys]` fails iff some key is not a column label; the KeyError lists only absent keys and all of them. |
| `Frames.MissingKeys` | python/ray/train/xgboost/xgboost_predictor.py:121 | The absent keys listed are requested, are not columns, and include every requested key that is not a column. |
| `Decimal.NatToString` | python/ray/train/xgboost/xgboost_predictor.py:140 | `f"{i}"` for `i >= 0` is a non-empty string of digits without a leading zero. |
| `Decimal.ParseNatToString` | python/ray/train/xgboost/xgboost_predictor.py:140 | Reading the decimal text of `n` gives back `n`. |
| `Decimal.NatToStringInjective` | python/ray/train/xgboost/xgboost_predictor.py:140 | Distinct numbers render to distinct text, so `predictions_{i}` names differ. |

## Left out

- `xgboost.DMatrix` construction and `Booster.predict` (xgboost_predictor.py:135-136) are foreign library calls with floating-point output. The booster yields only its number of prediction columns. Prediction values, the row count of the result, and any validation `DMatrix` does of `feature_names` are not modelled.
- `from_checkpoint` (xgboost_predictor.py:30-43) deserialises through `ray.train.xgboost.utils.load_checkpoint`, which is not part of this model, and neither is the `Predictor` base class that applies the preprocessor.
- `TENSOR_COLUMN_NAME` comes from `ray/air/constants.py`, which is not part of this model. The model takes its value to be `"__value__"`, and no property depends on that value.
- pandas and numpy internals are not modelled: cell values, dtypes, `to_numpy`, numpy integer and boolean index types, and a tensor column label that occurs more than once. A table is its labels, its row count and the width of the tensor column's arrays.
- Frames.SelectByPosition: when several entries are bad, the model reports the first. Which one numpy's message names is not modelled.
- Frames.SelectByLabel: the KeyError lists the absent keys in request order, repeats included. pandas' exact message text is not modelled.
- `python/ray/train/tests/test_gpu.py` is left out. It tests GPU placement, distributed workers, wall-clock timing and floating-point losses.
- `doc/source/ray-air/examples/xgboost_starter.py` is left out. It is an example script that downloads data over the network, trains and tunes remotely, and prints results.
