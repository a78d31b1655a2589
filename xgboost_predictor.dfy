/** `XGBoostPredictor` of `ray.train.xgboost`: how `_predict_pandas` shapes
    a data batch into the matrix and keyword arguments of an XGBoost
    `DMatrix`, and how it names the columns of the prediction frame. The
    booster itself is an uninterpreted function that yields the number of
    prediction columns. */
module XGBoostPredictor {
  import opened Wrappers
  import opened Decimal
  import opened Frames

  /** A value in a keyword-argument dict: a list of feature names, or any
      other Python object (told apart only by an identity). */
  datatype KwValue = NameList(names: seq<string>) | Opaque(id: int)

  type Kwargs = map<string, KwValue>

  const FeatureNamesKey: string := "feature_names"

  /** What `xgboost.DMatrix(data, **dmatrix_kwargs)` is built from. */
  datatype DMatrix = DMatrix(data: Matrix, kwargs: Kwargs)

  /** The outcome of the input side: the matrix to feed the booster and the
      `feature_names` to attach, if any. */
  datatype Features = Features(data: Matrix, featureNames: Option<seq<string>>)

  /** Python truthiness of `feature_columns`: `None` and `[]` are false. */
  predicate Truthy(featureColumns: Option<seq<Label>>) {
    featureColumns.Some? && featureColumns.value != []
  }

  /** `feature_names` is set to a list of labels only when all are strings. */
  function NamesIfStrings(labels: seq<Label>): Option<seq<string>> {
    if AllStrings(labels) then Some(Names(labels)) else None
  }

  // ---------------------------------------------------------------------
  // Input side
  // ---------------------------------------------------------------------

  /** The three-way case split of `_predict_pandas`: the tensor column (with
      integer positions when `feature_columns` is given), the named columns,
      or every column of the frame. */
  function SelectFeatures(t: Table, featureColumns: Option<seq<Label>>): (r: Result<Features, Error>)
    ensures r.Err? ==> Truthy(featureColumns)
    ensures r.Ok? ==> r.value.data.rows == t.rows
    ensures r.Ok? ==> (r.value.data.origin == TensorArray <==> HasTensorColumn(t))
    ensures r.Ok? && !Truthy(featureColumns) ==>
      r.value.data.picks == Range(if HasTensorColumn(t) then t.tensorWidth else |t.columns|)
    ensures r.Ok? && r.value.featureNames.Some? ==>
      !HasTensorColumn(t) && Labelled(r.value.featureNames.value) == (if Truthy(featureColumns) then featureColumns.value else t.columns)
  {
    if HasTensorColumn(t) then
      if Truthy(featureColumns) then
        match SelectByPosition(featureColumns.value, t.tensorWidth)
        case Err(e) => Err(e)
        case Ok(picks) => Ok(Features(Matrix(TensorArray, t.rows, picks), None))
      else
        Ok(Features(Matrix(TensorArray, t.rows, Range(t.tensorWidth)), None))
    else if Truthy(featureColumns) then
      match SelectByLabel(t.columns, featureColumns.value)
      case Err(e) => Err(e)
      case Ok(picks) => Ok(Features(Matrix(FrameColumns, t.rows, picks), NamesIfStrings(featureColumns.value)))
    else
      Ok(Features(Matrix(FrameColumns, t.rows, Range(|t.columns|)), NamesIfStrings(t.columns)))
  }

  /** With a tensor column, the data is that column's array; a non-empty
      `feature_columns` is read as integer positions into it (each must be an
      int in range, negative ones counting from the end) and no
      `feature_names` is ever produced. */
  lemma TensorColumnFeatures(t: Table, featureColumns: Option<seq<Label>>)
    requires HasTensorColumn(t)
    ensures var r := SelectFeatures(t, featureColumns);
      && (r.Ok? <==> !Truthy(featureColumns) ||
                     forall k :: 0 <= k < |featureColumns.value| ==> ValidIndex(featureColumns.value[k], t.tensorWidth))
      && (r.Err? ==> r.error.IndexError? && r.error.index in featureColumns.value)
      && (r.Ok? ==> r.value.featureNames == None && r.value.data.origin == TensorArray)
      && (r.Ok? && !Truthy(featureColumns) ==> r.value.data.picks == Range(t.tensorWidth))
  {
  }

  /** The positions taken from the tensor array are those `feature_columns`
      names, in order: each is the index itself, or the index plus the width
      for a negative one, and lies in `[0, width)`. */
  lemma TensorColumnPicks(t: Table, featureColumns: Option<seq<Label>>)
    requires HasTensorColumn(t) && Truthy(featureColumns)
    requires SelectFeatures(t, featureColumns).Ok?
    ensures var keys, picks := featureColumns.value, SelectFeatures(t, featureColumns).value.data.picks;
      |picks| == |keys| &&
      forall k :: 0 <= k < |keys| ==>
        picks[k] < t.tensorWidth && (picks[k] == keys[k].value || picks[k] == keys[k].value + t.tensorWidth)
  {
  }

  /** Without a tensor column and with a non-empty `feature_columns`, the
      selection fails exactly when one of them is not a column label; otherwise
      it takes exactly the columns so labelled, and `feature_names` is the list
      itself exactly when all its entries are strings. */
  lemma NamedColumnFeatures(t: Table, featureColumns: Option<seq<Label>>)
    requires !HasTensorColumn(t) && Truthy(featureColumns)
    ensures var keys, r := featureColumns.value, SelectFeatures(t, featureColumns);
      && (r.Ok? <==> forall k :: 0 <= k < |keys| ==> keys[k] in t.columns)
      && (r.Err? ==> r.error.KeyError? && r.error.missing != [] &&
                     forall k :: 0 <= k < |r.error.missing| ==> r.error.missing[k] in keys && r.error.missing[k] !in t.columns)
      && (r.Ok? ==> r.value.data.origin == FrameColumns &&
                    forall k :: 0 <= k < |r.value.data.picks| ==>
                      r.value.data.picks[k] < |t.columns| && t.columns[r.value.data.picks[k]] in keys)
      && (r.Ok? ==> forall j :: 0 <= j < |t.columns| && t.columns[j] in keys ==> j in r.value.data.picks)
      && (r.Ok? ==> (r.value.featureNames.Some? <==> AllStrings(keys)))
      && (r.Ok? && r.value.featureNames.Some? ==> Labelled(r.value.featureNames.value) == keys)
  {
  }

  /** When the frame's labels are distinct, exactly the requested columns are
      selected, one per entry of `feature_columns` and in its order. */
  lemma NamedColumnsInOrder(t: Table, featureColumns: Option<seq<Label>>)
    requires !HasTensorColumn(t) && Truthy(featureColumns) && Distinct(t.columns)
    requires SelectFeatures(t, featureColumns).Ok?
    ensures var picks := SelectFeatures(t, featureColumns).value.data.picks;
      |picks| == |featureColumns.value| && LabelsAt(t.columns, picks) == featureColumns.value
  {
    var keys := featureColumns.value;
    SelectByLabelError(t.columns, keys);
    GatherDistinct(t.columns, keys);
  }

  /** Without a tensor column and without `feature_columns` (None or empty),
      every column is used in frame order, and `feature_names` is the full
      label list exactly when every label is a string. */
  lemma AllColumnFeatures(t: Table, featureColumns: Option<seq<Label>>)
    requires !HasTensorColumn(t) && !Truthy(featureColumns)
    ensures var r := SelectFeatures(t, featureColumns);
      && r.Ok? && r.value.data.origin == FrameColumns
      && r.value.data.picks == Range(|t.columns|)
      && (forall k :: 0 <= k < |r.value.data.picks| ==> r.value.data.picks[k] < |t.columns|)
      && LabelsAt(t.columns, r.value.data.picks) == t.columns
      && (r.value.featureNames.Some? <==> AllStrings(t.columns))
      && (r.value.featureNames.Some? ==> Labelled(r.value.featureNames.value) == t.columns)
  {
  }

  /** Selection keeps the row count; the matrix has one column per entry of a
      non-empty `feature_columns` (on the frame, when its labels are distinct)
      and otherwise every column of its origin. */
  lemma SelectionShape(t: Table, featureColumns: Option<seq<Label>>)
    requires SelectFeatures(t, featureColumns).Ok?
    ensures var m := SelectFeatures(t, featureColumns).value.data;
      && m.rows == t.rows
      && (Truthy(featureColumns) && (HasTensorColumn(t) || Distinct(t.columns)) ==> m.Width() == |featureColumns.value|)
      && (!Truthy(featureColumns) && HasTensorColumn(t) ==> m.Width() == t.tensorWidth)
      && (!Truthy(featureColumns) && !HasTensorColumn(t) ==> m.Width() == |t.columns|)
  {
    if Truthy(featureColumns) && !HasTensorColumn(t) && Distinct(t.columns) {
      NamedColumnsInOrder(t, featureColumns);
    }
  }

  /** `dmatrix_kwargs or {}`: the entries the predictor starts from. */
  function KwargsOrEmpty(callerKwargs: Option<Kwargs>): (r: Kwargs)
    ensures callerKwargs.None? ==> r == map[]
    ensures callerKwargs.Some? ==> r == callerKwargs.value
  {
    if callerKwargs.None? || callerKwargs.value == map[] then map[] else callerKwargs.value
  }

  /** `if feature_names: dmatrix_kwargs["feature_names"] = feature_names`. */
  function WithFeatureNames(kwargs: Kwargs, featureNames: Option<seq<string>>): (r: Kwargs)
    ensures r.Keys == kwargs.Keys + (if featureNames.Some? && featureNames.value != [] then {FeatureNamesKey} else {})
  {
    if featureNames.Some? && featureNames.value != [] then kwargs[FeatureNamesKey := NameList(featureNames.value)]
    else kwargs
  }

  /** The `feature_names` entry is written only for a non-empty list, and
      then holds that list; no other key is added, removed or changed. */
  lemma WithFeatureNamesEntries(kwargs: Kwargs, featureNames: Option<seq<string>>)
    ensures var r := WithFeatureNames(kwargs, featureNames);
      && (forall key :: key != FeatureNamesKey ==> (key in r <==> key in kwargs))
      && (forall key :: key != FeatureNamesKey && key in kwargs ==> r[key] == kwargs[key])
      && (FeatureNamesKey in r <==> FeatureNamesKey in kwargs || (featureNames.Some? && featureNames.value != []))
      && (featureNames.Some? && featureNames.value != [] ==> r[FeatureNamesKey] == NameList(featureNames.value))
      && (featureNames.None? || featureNames.value == [] ==> r == kwargs)
  {
  }

  /** The keyword arguments the `DMatrix` is built with never carry
      `feature_names` on the tensor path, and carry the string feature list
      (or the string labels of the frame) when there is one. */
  lemma DMatrixFeatureNames(t: Table, featureColumns: Option<seq<Label>>, callerKwargs: Option<Kwargs>)
    requires SelectFeatures(t, featureColumns).Ok?
    ensures var kw := WithFeatureNames(KwargsOrEmpty(callerKwargs), SelectFeatures(t, featureColumns).value.featureNames);
      && (HasTensorColumn(t) ==> kw == KwargsOrEmpty(callerKwargs))
      && (!HasTensorColumn(t) && Truthy(featureColumns) && AllStrings(featureColumns.value) ==>
            kw[FeatureNamesKey].NameList? && Labelled(kw[FeatureNamesKey].names) == featureColumns.value)
      && (!HasTensorColumn(t) && !Truthy(featureColumns) && AllStrings(t.columns) && t.columns != [] ==>
            kw[FeatureNamesKey].NameList? && Labelled(kw[FeatureNamesKey].names) == t.columns)
  {
  }

  // ---------------------------------------------------------------------
  // Output side
  // ---------------------------------------------------------------------

  const PredictionsName: string := "predictions"
  const PredictionsPrefix: string := "predictions_"

  /** The names given to the `k` prediction columns. */
  function PredictionColumnNames(k: nat): (r: seq<string>)
    ensures |r| == k
    ensures k == 1 ==> r == [PredictionsName]
  {
    if k == 1 then [PredictionsName]
    else seq(k, i requires 0 <= i < k => PredictionsPrefix + NatToString(i))
  }

  /** Reads the column position back out of a name `predictions_<i>`. */
  function IndexOfName(name: string): Option<nat> {
    var n := |PredictionsPrefix|;
    if |name| > n && name[..n] == PredictionsPrefix && AllDigits(name[n..]) then Some(ParseDecimal(name[n..]))
    else None
  }

  /** For any count other than one, each name carries its own column
      position, which can be read back from it, written as canonical decimal
      text (no leading zero), so the name is exactly `predictions_<i>`. */
  lemma PredictionNamesEncodeIndex(k: nat)
    requires k != 1
    ensures forall i :: 0 <= i < k ==> IndexOfName(PredictionColumnNames(k)[i]) == Some(i)
    ensures forall i :: 0 <= i < k ==> var name := PredictionColumnNames(k)[i];
      |name| > |PredictionsPrefix| + 1 ==> name[|PredictionsPrefix|] != '0'
  {
    forall i | 0 <= i < k ensures IndexOfName(PredictionColumnNames(k)[i]) == Some(i) {
      var name := PredictionColumnNames(k)[i];
      var n := |PredictionsPrefix|;
      assert name[..n] == PredictionsPrefix;
      assert name[n..] == NatToString(i);
      ParseNatToString(i);
    }
  }

  /** No two prediction columns get the same name. */
  lemma PredictionNamesDistinct(k: nat)
    ensures Distinct(PredictionColumnNames(k))
  {
    if k != 1 {
      PredictionNamesEncodeIndex(k);
    }
  }

  // ---------------------------------------------------------------------
  // Objects
  // ---------------------------------------------------------------------

  /** An `xgboost.Booster`, reduced to the number of prediction columns its
      `predict` returns for a matrix and the caller's `predict_kwargs`. */
  class Booster {
    const predict: (DMatrix, Kwargs) -> nat

    constructor (predict: (DMatrix, Kwargs) -> nat)
      ensures this.predict == predict
    {
      this.predict := predict;
    }
  }

  /** A `ray.data.Preprocessor`; the predictor only stores it. */
  class Preprocessor {
  }

  /** A Python dict of keyword arguments for `xgboost.DMatrix`. */
  class KwargsDict {
    var entries: Kwargs

    constructor (entries: Kwargs)
      ensures this.entries == entries
    {
      this.entries := entries;
    }

    /** `d[key] = value`. */
    method Put(key: string, value: KwValue)
      modifies this
      ensures entries == old(entries)[key := value]
    {
      entries := entries[key := value];
    }
  }

  /** The entries of an optional caller dict (`None` for `null`). */
  ghost function Entries(d: KwargsDict?): Option<Kwargs>
    reads d
  {
    if d == null then None else Some(d.entries)
  }

  /** The integer labels `0, …, n-1` pandas gives the columns of a frame built
      from an array. */
  function PositionLabels(n: nat): (r: seq<Label>)
    ensures |r| == n && forall k :: 0 <= k < n ==> r[k] == Int(k)
  {
    seq(n, k => Int(k))
  }

  /** The DataFrame of predictions; only its column labels are modelled. */
  class PredictionFrame {
    var columns: seq<Label>

    /** `pd.DataFrame(array)` for an array with `width` columns. */
    constructor (width: nat)
      ensures columns == PositionLabels(width)
    {
      columns := PositionLabels(width);
    }

    /** `df.columns = labels`: pandas refuses a list of another length. */
    method SetColumns(labels: seq<Label>) returns (ok: bool)
      modifies this
      ensures ok <==> |labels| == |old(columns)|
      ensures columns == if ok then labels else old(columns)
    {
      ok := |labels| == |columns|;
      if ok {
        columns := labels;
      }
    }
  }

  class XGBoostPredictor {
    var model: Booster
    var preprocessor: Preprocessor?

    constructor (model: Booster, preprocessor: Preprocessor? := null)
      ensures this.model == model && this.preprocessor == preprocessor
    {
      this.model := model;
      this.preprocessor := preprocessor;
    }

    /** Runs inference on one batch. A selection error leaves every argument
        as it was. Otherwise a non-empty caller dict receives `feature_names`
        in place (a `None` or empty one is replaced by a fresh dict, so the
        caller's stays untouched), and the result frame's columns are named
        after the booster's column count. */
    method PredictPandas(data: Table, featureColumns: Option<seq<Label>>, dmatrixKwargs: KwargsDict?,
                         predictKwargs: Kwargs)
      returns (r: Result<PredictionFrame, Error>)
      modifies dmatrixKwargs
      ensures var sel := SelectFeatures(data, featureColumns);
        sel.Err? ==> r == Err(sel.error) && Entries(dmatrixKwargs) == old(Entries(dmatrixKwargs))
      ensures var sel := SelectFeatures(data, featureColumns);
        sel.Ok? ==>
          var kw := WithFeatureNames(KwargsOrEmpty(old(Entries(dmatrixKwargs))), sel.value.featureNames);
          var width := model.predict(DMatrix(sel.value.data, kw), predictKwargs);
          && r.Ok? && fresh(r.value)
          && r.value.columns == Labelled(PredictionColumnNames(width))
          && (dmatrixKwargs != null ==>
                dmatrixKwargs.entries == if old(dmatrixKwargs.entries) == map[] then map[] else kw)
    {
      var kwargs: KwargsDict;
      if dmatrixKwargs == null || dmatrixKwargs.entries == map[] {
        kwargs := new KwargsDict(map[]);
      } else {
        kwargs := dmatrixKwargs;
      }
      var sel := SelectFeatures(data, featureColumns);
      if sel.Err? {
        return Err(sel.error);
      }
      var featureNames := sel.value.featureNames;
      if featureNames.Some? && featureNames.value != [] {
        kwargs.Put(FeatureNamesKey, NameList(featureNames.value));
      }
      var matrix := DMatrix(sel.value.data, kwargs.entries);
      var df := new PredictionFrame(model.predict(matrix, predictKwargs));
      var ok := df.SetColumns(Labelled(PredictionColumnNames(|df.columns|)));
      assert ok;
      r := Ok(df);
    }
  }
}
