/**
  The model layer of the dashboard: which trained models are listed, how a
  model name resolves to its serialized file, the canonical feature list,
  the alignment of an uploaded table to that feature list, and batch scoring.

  The filesystem is a `Disk` value: the set of paths that exist, the
  `feature` column of the feature-list file, and what deserializing each path
  yields. A loaded model is an opaque predictor from a table to one label per
  row, which may fail with a message.
 */
module Model {
  import opened Wrappers
  import opened Frames

  // ---------- Paths and the files on disk ----------

  const ArtifactDir: string := "outputs"
  const ModelDir: string := "models"

  /** `Path(dir) / file` */
  function Join(dir: string, file: string): string {
    dir + "/" + file
  }

  /** The metrics file whose presence makes a model listed. */
  function MetricsPath(name: string): string {
    Join(ArtifactDir, name + "_metrics.json")
  }

  /** The file holding the ordered list of training features. */
  const FeaturesPath: string := Join(ArtifactDir, "features_for_modeling.csv")

  type Label = string

  /** A loaded model: `predict` on a table gives one label per row, or fails. */
  type Predictor = Table -> Result<seq<Label>, string>

  datatype Disk = Disk(
    present: set<string>,            // the paths that exist
    featureColumn: seq<string>,      // the `feature` column of FeaturesPath
    unpickle: string -> Predictor)   // the object deserialized from a path

  datatype Error =
    | FeatureFileNotFound            // get_feature_list: FileNotFoundError
    | UnknownModel(name: string)     // _model_path: KeyError on the name
    | ModelFileNotFound(path: string)// load_model: "Model file not found: <path>"
    | Frame(cause: FrameError)       // raised by pandas while aligning
    | PredictFailed(message: string) // raised by the model's predict

  // ---------- Discovery ----------

  /** The models the dashboard knows of, in the order it lists them. */
  const Candidates: seq<string> := ["random_forest", "xgboost"]

  predicate IsSubsequence<T(==)>(xs: seq<T>, ys: seq<T>)
    decreases |ys|
  {
    if xs == [] then true
    else if ys == [] then false
    else if xs[0] == ys[0] then IsSubsequence(xs[1..], ys[1..])
    else IsSubsequence(xs, ys[1..])
  }

  /** `list_models`: a model is listed exactly when its metrics file exists,
      and the listed names keep the fixed candidate order. */
  method ListModels(present: set<string>) returns (names: seq<string>)
    ensures forall n :: n in names <==> n in Candidates && MetricsPath(n) in present
    ensures IsSubsequence(names, Candidates)
  {
    assert MetricsPath("random_forest") == Join(ArtifactDir, "random_forest_metrics.json");
    assert MetricsPath("xgboost") == Join(ArtifactDir, "xgboost_metrics.json");
    names := [];
    if Join(ArtifactDir, "random_forest_metrics.json") in present {
      names := names + ["random_forest"];
    }
    if Join(ArtifactDir, "xgboost_metrics.json") in present {
      names := names + ["xgboost"];
    }
  }

  // ---------- Models ----------

  const NameToFile: map<string, string> :=
    map["random_forest" := "random_forest.pkl", "xgboost" := "xgboost.pkl"]

  /** `_model_path`: the two known names map to `models/<name>.pkl`; any
      other name is a lookup error. */
  function ModelPath(name: string): (r: Result<string, Error>)
    ensures r.Success? <==> name == "random_forest" || name == "xgboost"
    ensures r.Failure? ==> r.error == UnknownModel(name)
    ensures r.Success? ==> r.value == Join(ModelDir, name + ".pkl")
  {
    if name in NameToFile then Success(Join(ModelDir, NameToFile[name]))
    else Failure(UnknownModel(name))
  }

  /** `load_model`: an unknown name fails before any file is looked at; a
      known one fails exactly when its model file does not exist. */
  function LoadModel(name: string, disk: Disk): (r: Result<Predictor, Error>)
    ensures name != "random_forest" && name != "xgboost" ==>
      r.Failure? && r.error == UnknownModel(name)
    ensures name == "random_forest" || name == "xgboost" ==>
      (r.Failure? <==> Join(ModelDir, name + ".pkl") !in disk.present)
    ensures r.Failure? && (name == "random_forest" || name == "xgboost") ==>
      r.error == ModelFileNotFound(Join(ModelDir, name + ".pkl"))
    ensures r.Success? ==> r.value == disk.unpickle(Join(ModelDir, name + ".pkl"))
  {
    var path :- ModelPath(name);
    if path !in disk.present then Failure(ModelFileNotFound(path))
    else Success(disk.unpickle(path))
  }

  // ---------- Features & Prediction ----------

  /** `get_feature_list`: the stored feature list, or an error when its file
      does not exist. */
  function GetFeatureList(disk: Disk): (r: Result<seq<string>, Error>)
    ensures r.Failure? <==> FeaturesPath !in disk.present
    ensures r.Failure? ==> r.error == FeatureFileNotFound
    ensures r.Success? ==> r.value == disk.featureColumn
  {
    if FeaturesPath !in disk.present then Failure(FeatureFileNotFound)
    else Success(disk.featureColumn)
  }

  /** The dict `prepare_features` builds: every listed feature, in order, to
      the input's column of that name, or to the scalar 0 when there is none. */
  function AlignedDict(df: Table, features: seq<string>): (d: Dict)
    requires df.Valid() && Distinct(features)
    ensures d.Valid() && d.SharedIndex() && d.keys == features
    ensures forall c :: c in features && c in df.cols ==> d.entries[c] == Series(df.cols[c])
    ensures forall c :: c in features && c !in df.cols ==> d.entries[c] == Scalar(Num(0))
  {
    Dict(features, map c | c in features :: if c in df.cols then Series(df.cols[c]) else Scalar(Num(0)))
  }

  /** `pd.DataFrame(aligned)[feature_list]`: the table before coercion. Its
      columns are exactly the features in order (input columns that are not
      features are gone), a feature the input has is copied cell for cell,
      one it lacks is all zeros over the input's rows. It fails when the list
      is non-empty and names no input column; an empty list gives an empty table. */
  function Aligned(df: Table, features: seq<string>): (r: Result<Table, FrameError>)
    requires df.Valid() && Distinct(features)
    ensures r.Failure? <==> |features| > 0 && forall c :: c in features ==> c !in df.cols
    ensures r.Failure? ==> r.error == AllScalarsNeedIndex
    ensures r.Success? ==> r.value.Valid() && r.value.names == features
    ensures r.Success? ==> r.value.rows == if features == [] then 0 else df.rows
    ensures r.Success? ==> forall c :: c in features && c in df.cols ==> r.value.cols[c] == df.cols[c]
    ensures r.Success? ==> forall c, i :: c in features && c !in df.cols && 0 <= i < df.rows ==>
      r.value.cols[c][i] == Num(0)
  {
    BuildAligned(df, features);
    var built :- FromDict(AlignedDict(df, features));
    Select(built, features)
  }

  /** What `pd.DataFrame(aligned)` makes of the aligned dict. */
  lemma BuildAligned(df: Table, features: seq<string>)
    requires df.Valid() && Distinct(features)
    ensures var r := FromDict(AlignedDict(df, features));
      && (r.Failure? <==> |features| > 0 && forall c :: c in features ==> c !in df.cols)
      && (r.Success? ==> r.value.Valid() && r.value.names == features)
      && (r.Success? ==> r.value.rows == if features == [] then 0 else df.rows)
      && (r.Success? ==> forall c :: c in features && c in df.cols ==> r.value.cols[c] == df.cols[c])
      && (r.Success? ==> forall c, i :: c in features && c !in df.cols && 0 <= i < df.rows ==>
            r.value.cols[c][i] == Num(0))
  {
  }

  /** The coercion step for one column: only an `object` column is passed to
      `to_numeric`, and it comes back either wholly numeric or unchanged. */
  function CoerceColumn(col: Column, parse: string -> Option<int>): (r: Column)
    ensures |r| == |col|
    ensures !IsObject(col) ==> r == col
    ensures r == col || forall i :: 0 <= i < |r| ==> r[i].Num?
    ensures IsObject(col) && Convertible(col, parse) ==>
      forall i :: 0 <= i < |col| ==> r[i] == Num(ToNumber(col[i], parse).value)
    ensures IsObject(col) && !Convertible(col, parse) ==> r == col
  {
    if IsObject(col) then ToNumeric(col, parse) else col
  }

  /** Every column of `t` after the coercion step. */
  function CoerceAll(t: Table, parse: string -> Option<int>): (r: Table)
    requires t.Valid()
    ensures r.Valid() && r.rows == t.rows && r.names == t.names
    ensures forall c :: c in t.cols ==> r.cols[c] == CoerceColumn(t.cols[c], parse)
  {
    t.(cols := map c | c in t.cols :: CoerceColumn(t.cols[c], parse))
  }

  /** What `prepare_features` returns: the aligned table with every `object`
      column coerced. */
  function Prepared(df: Table, features: seq<string>, parse: string -> Option<int>): (r: Result<Table, FrameError>)
    requires df.Valid() && Distinct(features)
    ensures r.Failure? <==> |features| > 0 && forall c :: c in features ==> c !in df.cols
    ensures r.Failure? ==> r.error == AllScalarsNeedIndex
    ensures r.Success? ==> r.value.Valid() && r.value.names == features
    ensures r.Success? ==> r.value.rows == if features == [] then 0 else df.rows
    ensures r.Success? ==> forall c :: c in features && c in df.cols ==>
      r.value.cols[c] == CoerceColumn(df.cols[c], parse)
    ensures r.Success? ==> forall c, i :: c in features && c !in df.cols && 0 <= i < df.rows ==>
      r.value.cols[c][i] == Num(0)
  {
    var aligned :- Aligned(df, features);
    Success(CoerceAll(aligned, parse))
  }

  /** `prepare_features`: builds the dict feature by feature, makes a table
      of it selected by the feature list, then converts its `object`
      columns in place one by one. */
  method PrepareFeatures(df: Table, features: seq<string>, parse: string -> Option<int>)
    returns (r: Result<Table, FrameError>)
    requires df.Valid() && Distinct(features)
    ensures r == Prepared(df, features, parse)
  {
    var aligned := Dict([], map[]);
    var i := 0;
    while i < |features|
      invariant i <= |features|
      invariant Distinct(features[..i])
      invariant aligned == AlignedDict(df, features[..i])
    {
      var col := features[i];
      AlignedDictGrows(df, features, i);
      if col in df.cols {
        aligned := aligned.Put(col, Series(df.cols[col]));
      } else {
        aligned := aligned.Put(col, Scalar(Num(0)));
      }
      i := i + 1;
    }
    assert features[..i] == features;
    PreparedSteps(df, features, parse);

    var built := FromDict(aligned);
    if built.Failure? {
      return Failure(built.error);
    }
    var selected := Select(built.value, features);
    var x := selected.value;

    x := CoerceObjectColumns(x, parse);
    r := Success(x);
  }

  /** The second loop of `prepare_features`: every `object` column of the
      table is replaced, in column order, by its `to_numeric` conversion. */
  method CoerceObjectColumns(t: Table, parse: string -> Option<int>) returns (u: Table)
    requires t.Valid()
    ensures u == CoerceAll(t, parse)
  {
    u := t;
    var j := 0;
    while j < |u.names|
      invariant j <= |t.names|
      invariant u.rows == t.rows && u.names == t.names && u.cols.Keys == t.cols.Keys
      invariant forall k :: 0 <= k < j ==> u.cols[t.names[k]] == CoerceColumn(t.cols[t.names[k]], parse)
      invariant forall k :: j <= k < |t.names| ==> u.cols[t.names[k]] == t.cols[t.names[k]]
    {
      var c := u.names[j];
      assert u.cols[c] == t.cols[c];
      assert forall k :: 0 <= k < |t.names| && k != j ==> t.names[k] != c;
      if IsObject(u.cols[c]) {
        u := u.(cols := u.cols[c := ToNumeric(u.cols[c], parse)]);
      }
      assert u.cols[c] == CoerceColumn(t.cols[c], parse);
      j := j + 1;
    }
    CoercedEverywhere(t, u, parse);
  }

  /** A table whose every column went through the coercion step is `CoerceAll`. */
  lemma CoercedEverywhere(t: Table, u: Table, parse: string -> Option<int>)
    requires t.Valid()
    requires u.rows == t.rows && u.names == t.names && u.cols.Keys == t.cols.Keys
    requires forall k :: 0 <= k < |t.names| ==> u.cols[t.names[k]] == CoerceColumn(t.cols[t.names[k]], parse)
    ensures u == CoerceAll(t, parse)
  {
  }

  /** `Prepared` as the steps `PrepareFeatures` takes. */
  lemma PreparedSteps(df: Table, features: seq<string>, parse: string -> Option<int>)
    requires df.Valid() && Distinct(features)
    ensures var built := FromDict(AlignedDict(df, features));
      && (built.Failure? ==> Prepared(df, features, parse) == Failure(built.error))
      && (built.Success? ==> Select(built.value, features).Success?)
      && (built.Success? ==>
            Prepared(df, features, parse) == Success(CoerceAll(Select(built.value, features).value, parse)))
  {
  }

  /** One more step of the first loop of `PrepareFeatures`. */
  lemma AlignedDictGrows(df: Table, features: seq<string>, i: nat)
    requires df.Valid() && Distinct(features) && i < |features|
    ensures Distinct(features[..i + 1])
    ensures var col := features[i];
      AlignedDict(df, features[..i]).Put(col, if col in df.cols then Series(df.cols[col]) else Scalar(Num(0)))
      == AlignedDict(df, features[..i + 1])
  {
    var col := features[i];
    assert features[..i + 1] == features[..i] + [col];
    assert col !in features[..i];
  }

  /** `predict_on_df`: fetch the feature list, then the model, then align,
      then predict; the first failure is the one reported. */
  function PredictOnDf(df: Table, name: string, disk: Disk, parse: string -> Option<int>)
    : (r: Result<(Table, seq<Label>), Error>)
    requires df.Valid() && Distinct(disk.featureColumn)
    ensures FeaturesPath !in disk.present ==> r == Failure(FeatureFileNotFound)
    ensures FeaturesPath in disk.present && name != "random_forest" && name != "xgboost" ==>
      r == Failure(UnknownModel(name))
    ensures FeaturesPath in disk.present && (name == "random_forest" || name == "xgboost") ==>
      Join(ModelDir, name + ".pkl") !in disk.present ==>
      r == Failure(ModelFileNotFound(Join(ModelDir, name + ".pkl")))
    ensures r.Success? ==> r.value.0.names == disk.featureColumn
    ensures r.Success? ==> Prepared(df, disk.featureColumn, parse) == Success(r.value.0)
    ensures r.Success? ==>
      disk.unpickle(Join(ModelDir, name + ".pkl"))(r.value.0) == Success(r.value.1)
    ensures FeaturesPath in disk.present && ModelPath(name).Success? && ModelPath(name).value in disk.present ==>
      var p := Prepared(df, disk.featureColumn, parse);
      var m := disk.unpickle(ModelPath(name).value);
      && (p.Failure? ==> r == Failure(Frame(p.error)))
      && (p.Success? ==> (r.Success? <==> m(p.value).Success?))
      && (p.Success? && m(p.value).Success? ==> r == Success((p.value, m(p.value).value)))
      && (p.Success? && m(p.value).Failure? ==> r == Failure(PredictFailed(m(p.value).error)))
  {
    var features :- GetFeatureList(disk);
    var model :- LoadModel(name, disk);
    var x :- Prepared(df, features, parse).MapFailure(e => Frame(e));
    var predictions :- model(x).MapFailure(m => PredictFailed(m));
    Success((x, predictions))
  }
  // ---------- Properties ----------

  /** Two well-formed tables with the same rows, names and columns are equal. */
  lemma SameTable(a: Table, b: Table)
    requires a.Valid() && b.Valid()
    requires a.rows == b.rows && a.names == b.names
    requires forall c :: c in a.names ==> a.cols[c] == b.cols[c]
    ensures a == b
  {
  }

  /** Coercing a column twice is coercing it once. */
  lemma CoerceColumnIdempotent(col: Column, parse: string -> Option<int>)
    ensures CoerceColumn(CoerceColumn(col, parse), parse) == CoerceColumn(col, parse)
  {
  }

  /** Every column `prepare_features` returns is left as it is by coercion. */
  lemma PreparedColumnsSettled(df: Table, features: seq<string>, parse: string -> Option<int>)
    requires df.Valid() && Distinct(features)
    requires Prepared(df, features, parse).Success?
    ensures var x := Prepared(df, features, parse).value;
      forall c :: c in features ==> CoerceColumn(x.cols[c], parse) == x.cols[c]
  {
  }

  /** Running `prepare_features` on its own output changes nothing. */
  lemma PrepareIdempotent(df: Table, features: seq<string>, parse: string -> Option<int>)
    requires df.Valid() && Distinct(features)
    requires Prepared(df, features, parse).Success?
    ensures var x := Prepared(df, features, parse).value;
      Prepared(x, features, parse) == Success(x)
  {
    var x := Prepared(df, features, parse).value;
    PreparedColumnsSettled(df, features, parse);
    if features != [] {
      assert features[0] in x.cols;
    }
    var y := Prepared(x, features, parse);
    assert y.Success?;
    SameTable(y.value, x);
  }

  /** The app selects the feature columns itself before calling
      `predict_on_df`, once it has checked that none is missing; aligning that
      projection gives the same table as aligning the upload directly, and
      only the coercion step has any effect on it. */
  lemma ProjectionThenPrepare(df: Table, features: seq<string>, parse: string -> Option<int>)
    requires df.Valid() && Distinct(features) && features != []
    requires forall c :: c in features ==> c in df.cols
    ensures Select(df, features).Success?
    ensures Prepared(Select(df, features).value, features, parse) == Prepared(df, features, parse)
    ensures Prepared(df, features, parse) == Success(CoerceAll(Select(df, features).value, parse))
  {
    var p := Select(df, features).value;
    assert features[0] in df.cols;
    var viaProjection := Prepared(p, features, parse);
    var direct := Prepared(df, features, parse);
    assert viaProjection.Success? && direct.Success?;
    SameTable(viaProjection.value, direct.value);
    SameTable(CoerceAll(p, parse), direct.value);
  }

  /** An upload with only `income` and an unknown `extra` column, scored
      against the features `rooms` and `income`: `extra` is dropped, `rooms`
      is filled with 0, and the one row is kept. */
  lemma MissingAndExtraColumns(parse: string -> Option<int>)
    ensures
      var df := Table(1, ["income", "extra"], map["income" := [Num(50000)], "extra" := [Text("x")]]);
      && df.Valid()
      && Prepared(df, ["rooms", "income"], parse) ==
         Success(Table(1, ["rooms", "income"], map["rooms" := [Num(0)], "income" := [Num(50000)]]))
  {
    var df := Table(1, ["income", "extra"], map["income" := [Num(50000)], "extra" := [Text("x")]]);
    var want := Table(1, ["rooms", "income"], map["rooms" := [Num(0)], "income" := [Num(50000)]]);
    TwoColumnsValid(df, "income", "extra");
    TwoColumnsValid(want, "rooms", "income");
    ScenarioColumns(df, parse);
    SameTable(Prepared(df, ["rooms", "income"], parse).value, want);
  }

  /** Helper of `MissingAndExtraColumns`: a two-column table is well formed. */
  lemma TwoColumnsValid(t: Table, a: string, b: string)
    requires a != b && t.names == [a, b] && t.cols.Keys == {a, b}
    requires |t.cols[a]| == t.rows && |t.cols[b]| == t.rows
    ensures t.Valid()
  {
  }

  /** Helper of `MissingAndExtraColumns`: the columns `prepare_features` gives for its upload. */
  lemma ScenarioColumns(df: Table, parse: string -> Option<int>)
    requires df.Valid() && df.rows == 1 && df.cols.Keys == {"income", "extra"}
    requires df.cols["income"] == [Num(50000)]
    ensures var got := Prepared(df, ["rooms", "income"], parse);
      && got.Success?
      && got.value.Valid() && got.value.rows == 1 && got.value.names == ["rooms", "income"]
      && got.value.cols["rooms"] == [Num(0)] && got.value.cols["income"] == [Num(50000)]
  {
  }

  /** A predictor that returns one label per row of the table it is given. */
  ghost predicate OneLabelPerRow(p: Predictor) {
    forall t: Table :: p(t).Success? ==> |p(t).value| == t.rows
  }

  /** With such a predictor, scoring yields one prediction per aligned row,
      the aligned table keeps the upload's rows, and an empty upload gives
      an empty table and no predictions. */
  lemma PredictionsCoverEveryRow(df: Table, name: string, disk: Disk, parse: string -> Option<int>)
    requires df.Valid() && Distinct(disk.featureColumn)
    requires OneLabelPerRow(disk.unpickle(Join(ModelDir, name + ".pkl")))
    ensures var r := PredictOnDf(df, name, disk, parse);
      && (r.Success? ==> |r.value.1| == r.value.0.rows)
      && (r.Success? && disk.featureColumn != [] ==> r.value.0.rows == df.rows)
      && (r.Success? && df.rows == 0 ==> r.value.0.rows == 0 && r.value.1 == [])
  {
  }

  /** Every name `list_models` can return maps to a model path, so
      `_model_path` does not raise for it; loading it then depends on the
      model file alone, whatever the metrics file that got it listed. */
  lemma ListedModelsResolve(name: string, disk: Disk)
    requires name in Candidates && MetricsPath(name) in disk.present
    ensures ModelPath(name).Success?
    ensures LoadModel(name, disk).Success? <==> ModelPath(name).value in disk.present
    ensures LoadModel(name, disk).Failure? ==> LoadModel(name, disk).error == ModelFileNotFound(ModelPath(name).value)
  {
  }

  /** The upload of `MissingAndExtraColumns` scored with a model whose file
      exists: the predictor sees exactly the aligned one-row table, and
      its labels are returned with it. */
  lemma ScoresTheExample(name: string, disk: Disk, parse: string -> Option<int>, labels: seq<Label>)
    requires name in Candidates
    requires FeaturesPath in disk.present && Join(ModelDir, name + ".pkl") in disk.present
    requires disk.featureColumn == ["rooms", "income"]
    requires var want := Table(1, ["rooms", "income"], map["rooms" := [Num(0)], "income" := [Num(50000)]]);
      disk.unpickle(Join(ModelDir, name + ".pkl"))(want) == Success(labels)
    ensures
      var df := Table(1, ["income", "extra"], map["income" := [Num(50000)], "extra" := [Text("x")]]);
      var want := Table(1, ["rooms", "income"], map["rooms" := [Num(0)], "income" := [Num(50000)]]);
      && df.Valid()
      && PredictOnDf(df, name, disk, parse) == Success((want, labels))
  {
    MissingAndExtraColumns(parse);
  }
}
