/**
 * The part of pandas the design-matrix code relies on: cells that are a number or NaN,
 * the column (Series) operations it applies, and a DataFrame whose named columns are
 * assigned, inserted and dropped in place.
 */
module Frames {
  import opened Numerics

  /** A DataFrame cell. */
  datatype Cell = Num(v: real) | NaN

  type Column = seq<Cell>

  predicate NoNaN(c: Column) {
    forall t :: 0 <= t < |c| ==> c[t].Num?
  }

  /** `Series.shift()`: each value moves one row down and the first row becomes NaN. */
  function Shift(c: Column): (r: Column)
    ensures |r| == |c|
  {
    if |c| == 0 then [] else [NaN] + c[..|c| - 1]
  }

  /** `series * mask` for a boolean mask: True keeps the value, False makes it 0, NaN stays NaN. */
  function Times(c: Column, mask: seq<bool>): (r: Column)
    requires |mask| == |c|
    ensures |r| == |c|
  {
    seq(|c|, t requires 0 <= t < |c| => if c[t].NaN? then NaN else Num(if mask[t] then c[t].v else 0.0))
  }

  /** `series.fillna(value)`. */
  function FillNa(c: Column, value: real): (r: Column)
    ensures |r| == |c| && NoNaN(r)
  {
    seq(|c|, t requires 0 <= t < |c| => if c[t].NaN? then Num(value) else c[t])
  }

  /** `series.replace({from: to})`. */
  function Replace(c: Column, from: real, to: real): (r: Column)
    ensures |r| == |c|
    ensures NoNaN(c) ==> NoNaN(r)
  {
    seq(|c|, t requires 0 <= t < |c| => if c[t] == Num(from) then Num(to) else c[t])
  }

  /** `series == 0` (NaN compares unequal). */
  function IsZero(c: Column): (r: seq<bool>)
    ensures |r| == |c|
  {
    seq(|c|, t requires 0 <= t < |c| => c[t] == Num(0.0))
  }

  /** `series.diff() == 0`: false on the first row and wherever either neighbour is NaN. */
  function DiffIsZero(c: Column): (r: seq<bool>)
    ensures |r| == |c|
  {
    seq(|c|, t requires 0 <= t < |c| => t > 0 && c[t].Num? && c[t - 1].Num? && c[t].v - c[t - 1].v == 0.0)
  }

  /** Conversion of a real to a Python/numpy int: truncation toward zero. */
  function Trunc(x: real): int {
    if x >= 0.0 then x.Floor else -((-x).Floor)
  }

  /** `series.astype(int)`, which raises on NaN; hence the precondition. */
  function AsInt(c: Column): (r: Column)
    requires NoNaN(c)
    ensures |r| == |c| && NoNaN(r)
  {
    seq(|c|, t requires 0 <= t < |c| => Num(Trunc(c[t].v) as real))
  }

  /** `df[[a, b]].mean(axis=1)`: the mean of the non-NaN values of each row, NaN if both are NaN. */
  function RowMean(a: Column, b: Column): (r: Column)
    requires |a| == |b|
    ensures |r| == |a|
  {
    seq(|a|, t requires 0 <= t < |a| =>
      if a[t].NaN? then b[t]
      else if b[t].NaN? then a[t]
      else Num((a[t].v + b[t].v) / 2.0))
  }

  /** The non-NaN values of a column, in order. */
  function NumValues(c: Column): (r: seq<real>)
    ensures |r| <= |c|
  {
    if |c| == 0 then []
    else if c[0].NaN? then NumValues(c[1..])
    else [c[0].v] + NumValues(c[1..])
  }

  /**
   * `(s - s.mean()) / s.std()` with pandas' NaN-skipping mean and sample standard deviation:
   * with fewer than two values, or no spread (0 / 0), every row is NaN.
   */
  function ZScore(c: Column, fns: RealFns): (r: Column)
    requires fns.Valid()
    ensures |r| == |c|
  {
    var xs := NumValues(c);
    var n := |xs|;
    if n < 2 then seq(|c|, t => NaN)
    else
      var mean := Sum(xs) / n as real;
      var variance := SumSquares(seq(n, i requires 0 <= i < n => xs[i] - mean)) / (n - 1) as real;
      if variance == 0.0 then seq(|c|, t => NaN)
      else
        var sd := fns.sqrt(variance);
        seq(|c|, t requires 0 <= t < |c| => if c[t].NaN? then NaN else Num((c[t].v - mean) / sd))
  }

  /** A column of numbers. */
  function Cells(xs: seq<real>): (r: Column)
    ensures |r| == |xs| && NoNaN(r)
  {
    seq(|xs|, i requires 0 <= i < |xs| => Num(xs[i]))
  }

  /** The numbers of a NaN-free column. */
  function Values(c: Column): (r: seq<real>)
    requires NoNaN(c)
    ensures |r| == |c| && Cells(r) == c
  {
    seq(|c|, i requires 0 <= i < |c| => c[i].v)
  }

  /** A column of `n` ones (a scalar broadcast to every row). */
  function Ones(n: nat): (r: Column)
    ensures |r| == n
  {
    seq(n, i => Num(1.0))
  }

  /** The column names after `df[name] = ...`: unchanged if present, else `name` appended. */
  function AddName(names: seq<string>, name: string): seq<string> {
    if name in names then names else names + [name]
  }

  /** `fillna(value)` on every column of a table: same columns, none of them holding NaN. */
  function FillNaColumns(m: map<string, Column>, value: real): (r: map<string, Column>)
    ensures r.Keys == m.Keys
    ensures forall n :: n in r ==> NoNaN(r[n]) && |r[n]| == |m[n]|
  {
    map n | n in m :: FillNa(m[n], value)
  }

  predicate DistinctNames(names: seq<string>) {
    forall i, j :: 0 <= i < j < |names| ==> names[i] != names[j]
  }

  /** `names` without `name`, order kept. */
  function Without(names: seq<string>, name: string): (r: seq<string>)
    ensures forall n :: n in r <==> n in names && n != name
    ensures DistinctNames(names) ==> DistinctNames(r)
  {
    if |names| == 0 then []
    else if names[0] == name then Without(names[1..], name)
    else
      var rest := Without(names[1..], name);
      assert DistinctNames(names) ==> names[0] !in names[1..] && DistinctNames(names[1..]) by {
        if DistinctNames(names) {
          forall k | 0 <= k < |names| - 1 ensures names[1..][k] != names[0] {
            assert names[1..][k] == names[k + 1];
          }
        }
      }
      [names[0]] + rest
  }

  /** Dropping a name that is not there leaves the list as it is. */
  lemma {:induction false} WithoutAbsent(names: seq<string>, name: string)
    requires name !in names
    ensures Without(names, name) == names
  {
    if |names| > 0 {
      assert names[1..] + [] == names[1..];
      WithoutAbsent(names[1..], name);
      assert names == [names[0]] + names[1..];
    }
  }

  /** Dropping `name` from a list skips a leading copy of it and keeps any other head. */
  lemma WithoutCons(x: string, rest: seq<string>, name: string)
    ensures Without([x] + rest, name) == if x == name then Without(rest, name) else [x] + Without(rest, name)
  {
    assert ([x] + rest)[1..] == rest;
  }

  /**
   * A pandas DataFrame: an ordered list of distinct column names, the column stored under
   * each name, and a row count shared by all columns.
   */
  class Frame {
    var names: seq<string>
    var data: map<string, Column>
    const rows: nat

    ghost predicate Valid()
      reads this
    {
      && DistinctNames(names)
      && (forall n :: n in names <==> n in data)
      && (forall n :: n in data ==> |data[n]| == rows)
    }

    /** An empty frame over `rows` rows. */
    constructor (rows: nat)
      ensures Valid() && this.rows == rows
      ensures names == [] && data == map[]
    {
      this.rows := rows;
      names := [];
      data := map[];
    }

    /** `df[name] = values`: replaces the column if it exists, else appends it at the end. */
    method Assign(name: string, values: Column)
      requires Valid() && |values| == rows
      modifies this
      ensures Valid()
      ensures names == AddName(old(names), name)
      ensures data == old(data)[name := values]
    {
      if name !in names {
        names := names + [name];
      }
      data := data[name := values];
    }

    /** `df.insert(0, name, values)`; pandas refuses a name that is already present. */
    method InsertFirst(name: string, values: Column)
      requires Valid() && |values| == rows && name !in names
      modifies this
      ensures Valid()
      ensures names == [name] + old(names)
      ensures data == old(data)[name := values]
    {
      names := [name] + names;
      data := data[name := values];
    }

    /** `df.drop(columns=[name], inplace=True)`. */
    method Drop(name: string)
      requires Valid() && name in names
      modifies this
      ensures Valid()
      ensures names == Without(old(names), name)
      ensures data == old(data) - {name}
    {
      names := Without(names, name);
      data := data - {name};
    }

    /** `df.fillna(value, inplace=True)`: every NaN of every column becomes `value`. */
    method FillNaAll(value: real)
      requires Valid()
      modifies this
      ensures Valid()
      ensures names == old(names)
      ensures data == FillNaColumns(old(data), value)
    {
      data := FillNaColumns(data, value);
    }
  }
}
