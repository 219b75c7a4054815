/**
  The part of pandas that the feature-alignment step relies on:
  cells and columns, a DataFrame as named columns of one common length,
  a Python dict of columns and scalars, the `DataFrame(dict)` constructor,
  selection of columns by a list of names (`df[names]`) and
  `to_numeric(column, errors="ignore")`.

  Numbers are abstracted to integers, and the parsing of text as a number
  is a parameter `parse` of the operations that need it.
 */
module Frames {
  import opened Wrappers

  /** One value of a table. */
  datatype Cell = Num(n: int) | Text(s: string)

  type Column = seq<Cell>

  predicate Distinct<T(==)>(s: seq<T>) {
    forall i, j :: 0 <= i < j < |s| ==> s[i] != s[j]
  }

  /** A DataFrame: its row count, its column names in order, and its columns. */
  datatype Table = Table(rows: nat, names: seq<string>, cols: map<string, Column>) {
    ghost predicate Valid() {
      && Distinct(names)
      && (forall c :: c in cols <==> c in names)
      && (forall c :: c in cols ==> |cols[c]| == rows)
    }
  }

  datatype FrameError =
    /** `DataFrame(d)` where every value of a non-empty dict is a scalar:
        pandas has no index to broadcast them over and raises ValueError. */
    | AllScalarsNeedIndex
    /** `df[names]` naming columns `df` does not have: pandas raises KeyError. */
    | MissingColumns(missing: seq<string>)

  /** A value stored in a dict of columns: a whole column, or one scalar. */
  datatype Entry = Series(cells: Column) | Scalar(value: Cell)

  /** A Python dict from column name to entry. Its keys keep insertion order. */
  datatype Dict = Dict(keys: seq<string>, entries: map<string, Entry>) {
    ghost predicate Valid() {
      Distinct(keys) && (forall k :: k in entries <==> k in keys)
    }

    /** Every column stored in the dict has the same length, as columns taken
        from one DataFrame do (they share its index). */
    ghost predicate SharedIndex() {
      forall j, k :: j in entries && k in entries && entries[j].Series? && entries[k].Series? ==>
        |entries[j].cells| == |entries[k].cells|
    }

    /** `d[k] = v`: a new key goes last, an existing key keeps its place. */
    function Put(k: string, v: Entry): (r: Dict)
      requires Valid()
      ensures r.Valid()
      ensures k in r.entries && r.entries[k] == v
      ensures forall j :: j in entries && j != k ==> j in r.entries && r.entries[j] == entries[j]
      ensures k in entries ==> r.keys == keys
      ensures k !in entries ==> r.keys == keys + [k]
    {
      Dict(if k in entries then keys else keys + [k], entries[k := v])
    }
  }

  /** Length of the first column among `keys`, in key order; None if every
      entry there is a scalar. */
  function FirstSeriesLength(keys: seq<string>, entries: map<string, Entry>): (r: Option<nat>)
    requires forall k :: k in keys ==> k in entries
    ensures r.None? <==> forall k :: k in keys ==> entries[k].Scalar?
    ensures r.Some? ==> exists k :: k in keys && entries[k].Series? && |entries[k].cells| == r.value
  {
    if keys == [] then None
    else match entries[keys[0]]
      case Series(c) => Some(|c|)
      case Scalar(_) => FirstSeriesLength(keys[1..], entries)
  }

  /** An entry as a column of `n` rows: a scalar is repeated on every row. */
  function Broadcast(e: Entry, n: nat): (c: Column)
    requires e.Series? ==> |e.cells| == n
    ensures |c| == n
    ensures e.Scalar? ==> forall i :: 0 <= i < n ==> c[i] == e.value
  {
    match e
    case Series(cells) => cells
    case Scalar(v) => seq(n, _ => v)
  }

  /** `pandas.DataFrame(d)`: columns in the dict's key order; the index comes
      from the stored columns and scalars are broadcast over it; an empty dict
      gives an empty table; a non-empty dict of scalars only is refused. */
  function FromDict(d: Dict): (r: Result<Table, FrameError>)
    requires d.Valid() && d.SharedIndex()
    ensures r.Failure? <==> |d.keys| > 0 && forall k :: k in d.keys ==> d.entries[k].Scalar?
    ensures r.Failure? ==> r.error == AllScalarsNeedIndex
    ensures r.Success? ==> r.value.Valid() && r.value.names == d.keys
    ensures r.Success? && d.keys == [] ==> r.value.rows == 0
    ensures r.Success? ==> forall k :: k in d.entries && d.entries[k].Series? ==>
      r.value.rows == |d.entries[k].cells| && r.value.cols[k] == d.entries[k].cells
    ensures r.Success? ==> forall k, i :: k in d.entries && d.entries[k].Scalar? && 0 <= i < r.value.rows ==>
      r.value.cols[k][i] == d.entries[k].value
  {
    if |d.keys| == 0 then Success(Table(0, [], map[]))
    else match FirstSeriesLength(d.keys, d.entries)
      case None => Failure(AllScalarsNeedIndex)
      case Some(n) => Success(Table(n, d.keys, map k | k in d.entries :: Broadcast(d.entries[k], n)))
  }

  /** The names among `names` that are not columns of `cols`, in order. */
  function Missing(names: seq<string>, cols: map<string, Column>): (r: seq<string>)
    ensures forall c :: c in r <==> c in names && c !in cols
  {
    if names == [] then []
    else (if names[0] in cols then [] else [names[0]]) + Missing(names[1..], cols)
  }

  /** `t[names]`: the named columns, in the order given, or KeyError naming
      the absent ones. */
  function Select(t: Table, names: seq<string>): (r: Result<Table, FrameError>)
    requires t.Valid() && Distinct(names)
    ensures r.Success? <==> forall c :: c in names ==> c in t.cols
    ensures r.Failure? ==> r.error.MissingColumns? && r.error.missing != []
    ensures r.Failure? ==> forall c :: c in r.error.missing <==> c in names && c !in t.cols
    ensures r.Success? ==> r.value.Valid() && r.value.names == names && r.value.rows == t.rows
    ensures r.Success? ==> forall c :: c in names ==> r.value.cols[c] == t.cols[c]
  {
    var missing := Missing(names, t.cols);
    if missing != [] then
      assert missing[0] in missing;
      Failure(MissingColumns(missing))
    else Success(Table(t.rows, names, map c | c in names :: t.cols[c]))
  }

  /** A column of pandas dtype `object`: it holds some text. */
  predicate IsObject(col: Column) {
    exists i :: 0 <= i < |col| && col[i].Text?
  }

  /** The number a cell stands for, if any. */
  function ToNumber(x: Cell, parse: string -> Option<int>): Option<int> {
    match x
    case Num(n) => Some(n)
    case Text(s) => parse(s)
  }

  /** Every cell of the column stands for a number. */
  predicate Convertible(col: Column, parse: string -> Option<int>) {
    forall i :: 0 <= i < |col| ==> ToNumber(col[i], parse).Some?
  }

  /** The column converted cell by cell, or None at the first cell that does
      not stand for a number. */
  function TryNumbers(col: Column, parse: string -> Option<int>): (r: Option<Column>)
    ensures r.Some? <==> Convertible(col, parse)
    ensures r.Some? ==> |r.value| == |col|
    ensures r.Some? ==> forall i :: 0 <= i < |col| ==> r.value[i] == Num(ToNumber(col[i], parse).value)
  {
    if col == [] then Some([])
    else match ToNumber(col[0], parse)
      case None => None
      case Some(n) =>
        match TryNumbers(col[1..], parse)
        case None => None
        case Some(rest) => Some([Num(n)] + rest)
  }

  /** `pandas.to_numeric(col, errors="ignore")`: all cells converted, or the
      column returned exactly as it was when some cell cannot be. */
  function ToNumeric(col: Column, parse: string -> Option<int>): (r: Column)
    ensures |r| == |col|
    ensures Convertible(col, parse) ==>
      forall i :: 0 <= i < |col| ==> r[i] == Num(ToNumber(col[i], parse).value)
    ensures !Convertible(col, parse) ==> r == col
  {
    match TryNumbers(col, parse)
    case Some(numbers) => numbers
    case None => col
  }
}
