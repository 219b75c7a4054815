# Feature alignment and batch scoring of the model dashboard

This project models the model layer behind a small dashboard. The dashboard lists pre-trained classifiers (`random_forest`, `xgboost`) and scores an uploaded CSV with one of them. The core is `prepare_features`, which reshapes an arbitrary uploaded table to the ordered list of training features:

- It walks the feature list and copies each listed column the upload has.
- It fills each listed column the upload lacks with the scalar `0`.
- It builds a DataFrame from that dict and selects it by the feature list.
- It tries `to_numeric(errors="ignore")` on every text (`object`) column.

Around it are:

- `list_models`: which models are listed, depending on their metrics files.
- `_model_path` and `load_model`: the closed name-to-file map and the existence check on the model file.
- `get_feature_list`: the existence check on the feature-list file.
- `predict_on_df`: feature list, then model, then alignment, then `predict`.

Files:

- `wrappers.dfy`: `Option` and `Result`.
- `frames.dfy` (module `Frames`): the part of pandas the alignment uses. A table is a row count, distinct column names in order, and a map from name to a column of `Num(int) | Text(string)` cells. The module also has a Python dict with insertion-ordered keys, `DataFrame(dict)`, `df[names]` and `to_numeric(errors="ignore")`.
- `model.dfy` (module `Model`): `model.py`, and the properties proved about it.

The filesystem is a `Disk` value with three parts:

- the set of paths that exist;
- the `feature` column of `outputs/features_for_modeling.csv`;
- the predictor that deserializing each path yields.

A predictor is a function from a table to labels or an error message. Parsing text as a number is a parameter `parse: string -> Option<int>`.

`prepare_features` is imperative: `Model.PrepareFeatures` builds the dict in a `while` loop. It then converts the `object` columns one at a time in a second loop, `Model.CoerceObjectColumns`. It is proved equal to the specification function `Model.Prepared`, and the properties are proved about that function. `list_models` appends to a list and is a method too. The remaining operations are functions.

Three behaviours of the code are worth stating plainly:

- `to_numeric(errors="ignore")` converts a column wholly or leaves it unchanged, never value by value.
- Alignment fails when a non-empty list names no upload column, and an empty list gives zero rows.
- Any name outside the two-entry map is rejected. A known model is loaded whenever its model file exists, whatever its metrics file.

## Model

| member | source | states |
|---|---|---|
| `Model.ListModels` | model.py:12-19 | A name is returned iff it is one of the two candidates and `outputs/<name>_metrics.json` exists. The result is a subsequence of `["random_forest", "xgboost"]`, so that order is kept. |
| `Model.ModelPath` | model.py:48-54 | Defined exactly for `random_forest` and `xgboost`, each mapped to `models/<name>.pkl`. Any other name is a lookup error naming it. |
| `Model.ListedModelsResolve` | model.py:48-61 | Every name `list_models` can return maps to a model path, so `_model_path` does not raise for it. Loading it then succeeds iff `models/<name>.pkl` exists, and otherwise fails with that path, whatever the metrics file. |
| `Model.LoadModel` | model.py:56-61 | An unknown name fails with the lookup error before any file check. A known name fails with "model file not found" for its path iff that path does not exist. Otherwise the result is the object stored at that path. |
| `Model.GetFeatureList` | model.py:65-74 | Fails iff `outputs/features_for_modeling.csv` does not exist; otherwise returns its `feature` column. |
| `Frames.Dict.Put` | model.py:86-88 | Dict assignment keeps the dict well formed. A new key goes last, an existing key keeps its place. The key maps to the new value and other keys are unchanged. |
| `Model.AlignedDict` | model.py:83-88 | The dict built by the first loop has exactly the listed features as keys, in list order. A feature the input has maps to the input's column, and one it lacks maps to the scalar `0`. All columns stored in it share one length. |
| `Frames.FromDict` | model.py:89 | `DataFrame(dict)` fails iff the dict is non-empty and holds only scalars. Otherwise the result is a valid table with the dict's keys as its columns, in order. Stored columns are kept, and their length is the row count. Scalars are repeated on every row. An empty dict gives zero rows. |
| `Frames.Select` | model.py:89 | `t[names]` succeeds iff every name is a column. On success it has exactly those columns, in that order, with the same rows and cells. On failure it names exactly the absent columns. |
| `Model.Aligned` | model.py:83-89 | The table before coercion has exactly the feature list as its columns, in order, so input columns that are not features never appear. A listed column the input has is copied cell for cell. A listed column it lacks is all `0` over the input's rows. The row count is the input's, or 0 when the list is empty. It fails iff the list is non-empty and names no input column. |
| `Frames.ToNumeric` | model.py:94 | Same length as its input. Either every cell is converted, when every cell stands for a number, or the column is returned exactly as it was. |
| `Model.CoerceColumn` | model.py:93-94 | A non-`object` column is unchanged. An `object` column is either unchanged or wholly numeric, cell by cell the numbers it stood for. |
| `Model.CoerceAll` | model.py:92-94 | Coercion keeps the table well formed, with the same rows and the same column order. Each column is the coercion step applied to the original column. |
| `Model.Prepared` | model.py:76-95 | The result of `prepare_features` has the same failure condition, columns and row count as `Aligned`. Each present feature is the coerced input column. Each absent feature stays all `0` after coercion. |
| `Model.PrepareFeatures` | model.py:76-95 | The two-loop method returns exactly `Prepared` of its inputs. |
| `Model.CoerceObjectColumns` | model.py:92-94 | The in-place loop over the columns yields the table with every column coerced. |
| `Model.CoerceColumnIdempotent` | model.py:92-94 | Coercing a column twice is the same as coercing it once. |
| `Model.PrepareIdempotent` | model.py:76-95 | Applying `prepare_features` again to its own output, with the same list, returns that output unchanged. |
| `Model.ProjectionThenPrepare` | app.py:125-137 | When every listed feature is present and the list is non-empty, projecting to the list first (as the app does) gives the same result as aligning the upload directly. That result is the projection with coercion applied. |
| `Model.MissingAndExtraColumns` | model.py:83-94 | Example: features `rooms, income` and upload `income = 50000, extra = "x"` give one row `rooms = 0, income = 50000`, and `extra` is dropped. |
| `Model.PredictOnDf` | model.py:97-106 | A missing feature-list file fails first, whatever the model name. Then an unknown name fails with the lookup error. Then a missing model file fails with its path. Once both files exist and the name is known, an alignment error is passed on as it is. Otherwise scoring succeeds iff the predictor succeeds on the aligned table. Its result is then that table and the predictor's labels, and a predictor failure is passed on with its message. |
| `Model.ScoresTheExample` | model.py:97-106 | The `rooms, income` example scored with a model whose file exists succeeds. The predictor sees exactly the aligned one-row table, and its labels are returned with it. |
| `Model.PredictionsCoverEveryRow` | model.py:102-106 | Assume the predictor returns one label per row. Then a successful scoring has one prediction per aligned row, and the aligned table keeps the upload's row count when the list is non-empty. An empty upload gives an empty table and no predictions. |

## Left out

- `load_metrics_raw`, the image and table accessors, and the reading of files (model.py:23-44, 108-117; `json.load`, `pd.read_csv`, `joblib.load`) are not modelled. File contents are inputs held in `Disk`. A malformed feature file, or one without a `feature` column, is not modelled. A model file that exists but cannot be deserialized (`joblib.load` raising at model.py:61) is not modelled either: `unpickle` always yields a predictor.
- The predictor's internals are left out: it is an opaque function supplied by the caller.
- Numeric parsing is the parameter `parse`. Numbers are integers, so floats, NaN and pandas's number formats are not modelled.
- A pandas dtype is not stored. A column counts as `object` when it holds some text. A pandas `object` column that holds only numbers is treated as numeric here. Its cells are the same either way, but its dtype is not tracked.
- `Model.PrepareFeatures`, `Model.Prepared`, `Model.Aligned`, `Model.AlignedDict` and `Model.PredictOnDf` require distinct feature names (`Model.PredictOnDf` requires it of the stored feature list, which `get_feature_list` does not check). With duplicates, the dict collapses them and `[feature_list]` selects the column twice. The coercion loop then raises AttributeError at `X[c].dtype` (model.py:93), because `X[c]` is a two-column DataFrame for a repeated name. This error path is not modelled.
- Input tables have distinct column names and one shared row range. Pandas index alignment of columns with different indexes is not modelled.
- `check_schema`, `display_schema_warnings` and `schema_template_download` are not part of this model: they are called by app.py but not defined in utils.py.
- The Streamlit UI, caching decorators, the CV-summary loader, metric display and CSV download (app.py, utils.py) are display and I/O, and are not modelled.
