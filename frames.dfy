/** An abstract pandas DataFrame and the two ways `_predict_pandas` picks
    columns out of it: by label from the frame (`data[feature_columns]`) and
    by integer position from the tensor column's array (`data[:, idx]`).
    Cell values are not modelled; a selection is the list of positions it
    takes, so "which columns, in which order" can be stated exactly. */
module Frames {
  import opened Wrappers

  /** A column label: pandas labels here are Python `str` or `int`. */
  datatype Label = Str(name: string) | Int(value: int)

  /** The name of the column that holds a whole tensor per row
      (`TENSOR_COLUMN_NAME` of `ray.air.constants`). */
  const TensorColumnName: string := "__value__"

  /** A DataFrame reduced to its column labels in frame order, its row count,
      and the width of each row's array in the tensor column (used only when
      that column is present). */
  datatype Table = Table(columns: seq<Label>, rows: nat, tensorWidth: nat)

  /** `TENSOR_COLUMN_NAME in data`: membership among the column labels. */
  predicate HasTensorColumn(t: Table): (b: bool)
    ensures b <==> exists j :: 0 <= j < |t.columns| && t.columns[j] == Str(TensorColumnName)
  {
    Str(TensorColumnName) in t.columns
  }

  /** Where the columns of a selected matrix come from. */
  datatype Origin = TensorArray | FrameColumns

  /** The numpy matrix handed to `xgboost.DMatrix`: its rows, and for each of
      its columns the position it was taken from in the origin. */
  datatype Matrix = Matrix(origin: Origin, rows: nat, picks: seq<nat>) {
    function Width(): nat {
      |picks|
    }
  }

  datatype Error =
    | KeyError(missing: seq<Label>)   // pandas: some requested labels are not columns
    | IndexError(index: Label)        // numpy: an index that is not an in-range int

  predicate AllStrings(ls: seq<Label>) {
    forall k :: 0 <= k < |ls| ==> ls[k].Str?
  }

  predicate Distinct<T(==)>(s: seq<T>) {
    forall i, j :: 0 <= i < j < |s| ==> s[i] != s[j]
  }

  predicate Increasing(s: seq<nat>) {
    forall i, j :: 0 <= i < j < |s| ==> s[i] < s[j]
  }

  /** The plain strings of a list of string labels. */
  function Names(ls: seq<Label>): (r: seq<string>)
    requires AllStrings(ls)
    ensures |r| == |ls|
    ensures Labelled(r) == ls
  {
    var r := seq(|ls|, k requires 0 <= k < |ls| => ls[k].name);
    assert forall k :: 0 <= k < |ls| ==> Labelled(r)[k] == ls[k];
    r
  }

  /** Strings used as column labels. */
  function Labelled(names: seq<string>): (r: seq<Label>)
    ensures |r| == |names| && AllStrings(r)
  {
    seq(|names|, k requires 0 <= k < |names| => Str(names[k]))
  }

  /** The positions `0, 1, …, n-1`. */
  function Range(n: nat): (r: seq<nat>)
    ensures |r| == n && forall k :: 0 <= k < n ==> r[k] == k
  {
    seq(n, k => k)
  }

  /** The labels of the columns at the given positions. */
  function LabelsAt(columns: seq<Label>, picks: seq<nat>): (r: seq<Label>)
    requires forall k :: 0 <= k < |picks| ==> picks[k] < |columns|
    ensures |r| == |picks|
  {
    seq(|picks|, k requires 0 <= k < |picks| => columns[picks[k]])
  }

  lemma LabelsAtCons(columns: seq<Label>, j: nat, picks: seq<nat>)
    requires j < |columns|
    requires forall k :: 0 <= k < |picks| ==> picks[k] < |columns|
    ensures LabelsAt(columns, [j] + picks) == [columns[j]] + LabelsAt(columns, picks)
  {
  }

  // ---------------------------------------------------------------------
  // Selection by label: `data[feature_columns]` on a DataFrame.
  // ---------------------------------------------------------------------

  /** Every position whose label is `key`, in frame order (a frame may hold
      one label several times; pandas then returns all those columns). */
  function Positions(columns: seq<Label>, key: Label): (r: seq<nat>)
    ensures forall k :: 0 <= k < |r| ==> r[k] < |columns| && columns[r[k]] == key
    ensures forall j :: 0 <= j < |columns| && columns[j] == key ==> j in r
    ensures key !in columns ==> r == []
  {
    if columns == [] then []
    else
      var n := |columns| - 1;
      var init := columns[..n];
      var rest := Positions(init, key);
      assert forall j :: 0 <= j < n ==> init[j] == columns[j];
      if columns[n] == key then rest + [n]
      else
        assert key in columns ==> key in init;
        rest
  }

  /** The positions of a label come in frame order. */
  lemma {:induction false} PositionsIncreasing(columns: seq<Label>, key: Label)
    ensures Increasing(Positions(columns, key))
  {
    if columns != [] {
      var n := |columns| - 1;
      var init := columns[..n];
      PositionsIncreasing(init, key);
      var rest := Positions(init, key);
      assert forall k :: 0 <= k < |rest| ==> rest[k] < n;
    }
  }

  /** In a frame whose labels are distinct, a present label is at exactly one
      position. */
  lemma {:induction false} PositionsOfDistinct(columns: seq<Label>, key: Label, j: nat)
    requires Distinct(columns)
    requires j < |columns| && columns[j] == key
    ensures Positions(columns, key) == [j]
  {
    var init := columns[..|columns| - 1];
    assert Distinct(init);
    if j == |columns| - 1 {
      assert key !in init;
    } else {
      assert init[j] == key;
      PositionsOfDistinct(init, key, j);
    }
  }

  /** The one position of a present label in a frame with distinct labels. */
  lemma PositionOfDistinct(columns: seq<Label>, key: Label) returns (j: nat)
    requires Distinct(columns) && key in columns
    ensures j < |columns| && columns[j] == key && Positions(columns, key) == [j]
  {
    j :| 0 <= j < |columns| && columns[j] == key;
    PositionsOfDistinct(columns, key, j);
  }

  /** The requested labels that are not columns of the frame, in request order. */
  function MissingKeys(columns: seq<Label>, keys: seq<Label>): (r: seq<Label>)
    ensures forall k :: 0 <= k < |r| ==> r[k] in keys && r[k] !in columns
    ensures forall k :: 0 <= k < |keys| && keys[k] !in columns ==> keys[k] in r
  {
    if keys == [] then []
    else
      var rest := MissingKeys(columns, keys[1..]);
      assert forall k :: 1 <= k < |keys| ==> keys[k] == keys[1..][k - 1];
      if keys[0] in columns then rest else [keys[0]] + rest
  }

  /** The positions selected for every key in turn. */
  function Gather(columns: seq<Label>, keys: seq<Label>): (r: seq<nat>)
    ensures forall k :: 0 <= k < |r| ==> r[k] < |columns| && columns[r[k]] in keys
  {
    if keys == [] then []
    else
      var head := Positions(columns, keys[0]);
      var rest := Gather(columns, keys[1..]);
      assert forall k :: 0 <= k < |rest| ==> columns[rest[k]] in keys[1..];
      head + rest
  }

  /** Nothing is dropped: every column that carries a requested label is
      selected, also when the frame repeats that label. */
  lemma {:induction false} GatherComplete(columns: seq<Label>, keys: seq<Label>)
    ensures forall j :: 0 <= j < |columns| && columns[j] in keys ==> j in Gather(columns, keys)
  {
    if keys != [] {
      GatherComplete(columns, keys[1..]);
      forall j | 0 <= j < |columns| && columns[j] in keys ensures j in Gather(columns, keys) {
        if columns[j] != keys[0] {
          assert columns[j] in keys[1..];
        }
      }
    }
  }

  /** One step of `GatherDistinct`: a first key found at one position adds
      exactly that column in front of the rest. */
  lemma GatherSingle(columns: seq<Label>, keys: seq<Label>, j: nat)
    requires keys != [] && j < |columns| && columns[j] == keys[0]
    requires Positions(columns, keys[0]) == [j]
    requires |Gather(columns, keys[1..])| == |keys| - 1
    requires LabelsAt(columns, Gather(columns, keys[1..])) == keys[1..]
    ensures |Gather(columns, keys)| == |keys|
    ensures LabelsAt(columns, Gather(columns, keys)) == keys
  {
    var rest := Gather(columns, keys[1..]);
    assert Gather(columns, keys) == [j] + rest;
    LabelsAtCons(columns, j, rest);
    assert keys == [keys[0]] + keys[1..];
  }

  /** With distinct frame labels, each present key contributes exactly its own
      column, so the selection has one column per key, in key order. */
  lemma {:induction false} GatherDistinct(columns: seq<Label>, keys: seq<Label>)
    requires Distinct(columns)
    requires forall k :: 0 <= k < |keys| ==> keys[k] in columns
    ensures |Gather(columns, keys)| == |keys|
    ensures LabelsAt(columns, Gather(columns, keys)) == keys
  {
    if keys != [] {
      var key, tail := keys[0], keys[1..];
      var j := PositionOfDistinct(columns, key);
      assert forall k :: 0 <= k < |tail| ==> tail[k] in columns by {
        assert forall k :: 0 <= k < |tail| ==> tail[k] == keys[k + 1];
      }
      GatherDistinct(columns, tail);
      GatherSingle(columns, keys, j);
    }
  }

  /** `data[keys]`: a KeyError naming every absent key, or the positions taken. */
  function SelectByLabel(columns: seq<Label>, keys: seq<Label>): (r: Result<seq<nat>, Error>)
    ensures r.Ok? <==> forall k :: 0 <= k < |keys| ==> keys[k] in columns
    ensures r.Ok? ==> forall k :: 0 <= k < |r.value| ==> r.value[k] < |columns| && columns[r.value[k]] in keys
    ensures r.Ok? ==> forall j :: 0 <= j < |columns| && columns[j] in keys ==> j in r.value
    ensures r.Err? ==> r.error.KeyError?
  {
    var missing := MissingKeys(columns, keys);
    if missing != [] then
      assert missing[0] in keys && missing[0] !in columns;
      Err(KeyError(missing))
    else
      GatherComplete(columns, keys);
      Ok(Gather(columns, keys))
  }

  /** The selection fails exactly when some key is not a column; then the
      error lists only absent keys and includes all of them. */
  lemma SelectByLabelError(columns: seq<Label>, keys: seq<Label>)
    ensures SelectByLabel(columns, keys).Err? <==> exists k :: 0 <= k < |keys| && keys[k] !in columns
    ensures SelectByLabel(columns, keys).Err? ==>
      var e := SelectByLabel(columns, keys).error;
      e.KeyError? && e.missing != [] &&
      (forall k :: 0 <= k < |e.missing| ==> e.missing[k] in keys && e.missing[k] !in columns) &&
      (forall k :: 0 <= k < |keys| && keys[k] !in columns ==> keys[k] in e.missing)
  {
    var missing := MissingKeys(columns, keys);
    if missing != [] {
      assert missing[0] in keys && missing[0] !in columns;
    }
  }

  // ---------------------------------------------------------------------
  // Selection by position: `arr[:, idx]` on a two-dimensional numpy array.
  // ---------------------------------------------------------------------

  /** numpy's reading of one index on an axis of `width` entries: an int in
      `[-width, width)`, negative ones counting from the end. */
  function NormalizeIndex(key: Label, width: nat): (r: Option<nat>)
    ensures r.Some? <==> ValidIndex(key, width)
    ensures r.Some? ==> r.value < width && (r.value == key.value || r.value == key.value + width)
  {
    match key
    case Str(_) => None
    case Int(i) =>
      if 0 <= i < width then Some(i)
      else if -(width as int) <= i < 0 then Some((i + width) as nat)
      else None
  }

  predicate ValidIndex(key: Label, width: nat) {
    key.Int? && -(width as int) <= key.value < width
  }

  /** `arr[:, keys]`: an IndexError for the first entry that is not a valid
      index, or the positions taken, one per entry. */
  function SelectByPosition(keys: seq<Label>, width: nat): (r: Result<seq<nat>, Error>)
    ensures r.Ok? <==> forall k :: 0 <= k < |keys| ==> ValidIndex(keys[k], width)
    ensures r.Ok? ==> |r.value| == |keys|
    ensures r.Ok? ==> forall k :: 0 <= k < |keys| ==>
      r.value[k] < width && (r.value[k] == keys[k].value || r.value[k] == keys[k].value + width)
    ensures r.Err? ==>
      exists k :: 0 <= k < |keys| && r.error == IndexError(keys[k]) && !ValidIndex(keys[k], width) &&
                  forall m :: 0 <= m < k ==> ValidIndex(keys[m], width)
  {
    if keys == [] then Ok([])
    else
      match NormalizeIndex(keys[0], width)
      case None => Err(IndexError(keys[0]))
      case Some(p) =>
        match SelectByPosition(keys[1..], width)
        case Err(e) =>
          assert forall k :: 1 <= k < |keys| ==> keys[k] == keys[1..][k - 1];
          Err(e)
        case Ok(ps) =>
          assert forall k :: 1 <= k < |keys| ==> keys[k] == keys[1..][k - 1];
          Ok([p] + ps)
  }
}
