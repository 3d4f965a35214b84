/**
 * The table wrangling of src/visualizations/model_visualizer.py: choosing the best fit per animal
 * and group, merging the best fits with the null models, and the information gain in bits per
 * trial of each model over the animal's null model. Plotting is not part of this model.
 */
module Visualizer {
  import opened Wrappers
  import opened Numerics
  import opened Strings
  import opened GroupBy

  /** A row of an experiment's `fit_models` (or `null_models`) table, after its dtypes are set. */
  datatype FitRow = FitRow(
    animalId: string,
    modelName: string,
    nll: real,
    sigma: real,
    tau: real,
    nTrainTrials: nat,
    nTestTrials: nat)

  /** The columns `find_best_fit` can group by. */
  datatype Column = AnimalId | ModelName | Sigma | Tau

  function KeyOf(row: FitRow, col: Column): Key {
    match col
    case AnimalId => Text(row.animalId)
    case ModelName => Text(row.modelName)
    case Sigma => Number(row.sigma)
    case Tau => Number(row.tau)
  }

  function ColumnKeys(rows: seq<FitRow>, col: Column): (ks: seq<Key>)
    ensures |ks| == |rows|
    ensures forall q :: 0 <= q < |rows| ==> ks[q] == KeyOf(rows[q], col)
  {
    seq(|rows|, q requires 0 <= q < |rows| => KeyOf(rows[q], col))
  }

  /** The keys of `rows.groupby(col)`: the distinct values of `col`, ascending. */
  function Groups(rows: seq<FitRow>, col: Column): seq<Key> {
    SortedDistinct(ColumnKeys(rows, col))
  }

  /** Every row's value is a group key, and every group key is some row's value. */
  lemma GroupsMembers(rows: seq<FitRow>, col: Column)
    ensures StrictlySorted(Groups(rows, col))
    ensures forall q :: 0 <= q < |rows| ==> KeyOf(rows[q], col) in Groups(rows, col)
    ensures forall i :: 0 <= i < |Groups(rows, col)| ==>
      exists q :: 0 <= q < |rows| && KeyOf(rows[q], col) == Groups(rows, col)[i]
  {
    var ks := ColumnKeys(rows, col);
    var gs := Groups(rows, col);
    forall q | 0 <= q < |rows| ensures KeyOf(rows[q], col) in gs {
      assert ks[q] in ks;
    }
    forall i | 0 <= i < |gs| ensures exists q :: 0 <= q < |rows| && KeyOf(rows[q], col) == gs[i] {
      assert gs[i] in ks;
      var q :| 0 <= q < |ks| && ks[q] == gs[i];
    }
  }

  /**
   * `idxmin` of `nll` within the rows whose `col` is `k`: the first of them with the least `nll`.
   */
  function FirstMin(rows: seq<FitRow>, col: Column, k: Key): (p: nat)
    requires exists i :: 0 <= i < |rows| && KeyOf(rows[i], col) == k
    ensures p < |rows| && KeyOf(rows[p], col) == k
    ensures forall q :: 0 <= q < |rows| && KeyOf(rows[q], col) == k ==> rows[p].nll <= rows[q].nll
    ensures forall q :: 0 <= q < p && KeyOf(rows[q], col) == k ==> rows[p].nll < rows[q].nll
  {
    var n := |rows| - 1;
    if !(exists i :: 0 <= i < n && KeyOf(rows[i], col) == k) then n
    else
      var p := FirstMin(rows[..n], col, k);
      assert forall q :: 0 <= q < n ==> rows[..n][q] == rows[q];
      if KeyOf(rows[n], col) == k && rows[n].nll < rows[p].nll then n else p
  }

  /** `rows.groupby(col)["nll"].idxmin()` followed by `.loc`: one row per group, in group order. */
  function GroupBest(rows: seq<FitRow>, col: Column): (r: seq<FitRow>)
    ensures |r| == |Groups(rows, col)|
  {
    var gs := Groups(rows, col);
    GroupsMembers(rows, col);
    seq(|gs|, i requires 0 <= i < |gs| => rows[FirstMin(rows, col, gs[i])])
  }

  /**
   * The `i`-th chosen row is a row of the table with the `i`-th group value, and no row with that
   * value has a smaller `nll`.
   */
  lemma GroupBestSpec(rows: seq<FitRow>, col: Column)
    ensures forall i :: 0 <= i < |GroupBest(rows, col)| ==>
      GroupBest(rows, col)[i] in rows && KeyOf(GroupBest(rows, col)[i], col) == Groups(rows, col)[i]
    ensures forall i, q :: 0 <= i < |GroupBest(rows, col)| && 0 <= q < |rows| && KeyOf(rows[q], col) == KeyOf(GroupBest(rows, col)[i], col) ==>
      GroupBest(rows, col)[i].nll <= rows[q].nll
  {
    GroupsMembers(rows, col);
  }

  /** `x` precedes `y` in (animal, `g`) order: by animal, then by the value of `g`. */
  predicate PairLt(x: FitRow, y: FitRow, g: Column) {
    KeyLt(KeyOf(x, AnimalId), KeyOf(y, AnimalId)) || (x.animalId == y.animalId && KeyLt(KeyOf(x, g), KeyOf(y, g)))
  }

  /** `x` has the animal and the value of `g` that `y` has. */
  predicate SameCell(x: FitRow, y: FitRow, g: Column) {
    x.animalId == y.animalId && KeyOf(x, g) == KeyOf(y, g)
  }

  /** `x` is a row of `rows` with least `nll` among the rows with its animal and its value of `g`. */
  predicate BestOfSubset(x: FitRow, rows: seq<FitRow>, g: Column) {
    && x in rows
    && forall q :: 0 <= q < |rows| && SameCell(rows[q], x, g) ==> x.nll <= rows[q].nll
  }

  /** Every row of `r` is best in its (animal, `g`) subset of `rows`. */
  predicate AllBest(r: seq<FitRow>, rows: seq<FitRow>, g: Column) {
    forall i :: 0 <= i < |r| ==> BestOfSubset(r[i], rows, g)
  }

  predicate AnimalsAmong(r: seq<FitRow>, animals: seq<Key>) {
    forall i :: 0 <= i < |r| ==> KeyOf(r[i], AnimalId) in animals
  }

  /** Every (animal, `g`) pair of a row of those animals has a row in `r`. */
  predicate CoversAnimals(r: seq<FitRow>, rows: seq<FitRow>, g: Column, animals: seq<Key>) {
    forall q :: 0 <= q < |rows| && KeyOf(rows[q], AnimalId) in animals ==>
      exists i :: 0 <= i < |r| && SameCell(r[i], rows[q], g)
  }

  /** Every (animal, `g`) pair of a row of `rows` has a row in `r`. */
  predicate Covers(r: seq<FitRow>, rows: seq<FitRow>, g: Column) {
    forall q :: 0 <= q < |rows| ==> exists i :: 0 <= i < |r| && SameCell(r[i], rows[q], g)
  }

  /** `r` is strictly ascending in (animal, `g`) order, so no (animal, `g`) pair repeats. */
  predicate PairSorted(r: seq<FitRow>, g: Column) {
    forall i, j :: 0 <= i < j < |r| ==> PairLt(r[i], r[j], g)
  }

  /** `groupby("animal_id")`'s group with key `a`: the animal's rows, in table order. */
  function AnimalRows(rows: seq<FitRow>, a: Key): (r: seq<FitRow>)
    ensures forall i :: 0 <= i < |r| ==> KeyOf(r[i], AnimalId) == a
  {
    if |rows| == 0 then []
    else
      var n := |rows| - 1;
      var init := AnimalRows(rows[..n], a);
      if KeyOf(rows[n], AnimalId) == a then init + [rows[n]] else init
  }

  lemma {:induction false} AnimalRowsMembers(rows: seq<FitRow>, a: Key)
    ensures forall x :: x in AnimalRows(rows, a) <==> x in rows && KeyOf(x, AnimalId) == a
  {
    if |rows| > 0 {
      var n := |rows| - 1;
      AnimalRowsMembers(rows[..n], a);
      assert rows == rows[..n] + [rows[n]];
    }
  }

  /** The loop over `groupby("animal_id")`: per animal in `animals`, the best row per value of `g`. */
  function PerAnimal(rows: seq<FitRow>, animals: seq<Key>, g: Column): seq<FitRow> {
    if |animals| == 0 then []
    else
      var n := |animals| - 1;
      PerAnimal(rows, animals[..n], g) + GroupBest(AnimalRows(rows, animals[n]), g)
  }

  /** `ModelVisualizer.find_best_fit(group)`. */
  function BestFit(rows: seq<FitRow>, g: Column): seq<FitRow> {
    if g == AnimalId then GroupBest(rows, AnimalId)
    else PerAnimal(rows, Groups(rows, AnimalId), g)
  }

  /** `ModelVisualizerCompare.find_best_fit(group)`: the per-animal loop for every group. */
  function CompareBestFit(rows: seq<FitRow>, g: Column): seq<FitRow> {
    PerAnimal(rows, Groups(rows, AnimalId), g)
  }

  /** The rows chosen for animal `a` are the table's rows of that animal, each best in its subset. */
  lemma BlockBest(rows: seq<FitRow>, a: Key, g: Column)
    ensures AllBest(GroupBest(AnimalRows(rows, a), g), rows, g)
    ensures AnimalsAmong(GroupBest(AnimalRows(rows, a), g), [a])
  {
    var sub := AnimalRows(rows, a);
    var block := GroupBest(sub, g);
    AnimalRowsMembers(rows, a);
    GroupBestSpec(sub, g);
    forall i | 0 <= i < |block| ensures BestOfSubset(block[i], rows, g) && KeyOf(block[i], AnimalId) in [a] {
      var x := block[i];
      assert x in sub;
      forall q | 0 <= q < |rows| && SameCell(rows[q], x, g) ensures x.nll <= rows[q].nll {
        assert rows[q] in sub;
        var s :| 0 <= s < |sub| && sub[s] == rows[q];
        assert KeyOf(sub[s], g) == KeyOf(x, g);
      }
    }
  }

  /** Every chosen row is a row of the table, of an animal in `animals`, and best in its subset. */
  lemma {:induction false} PerAnimalBest(rows: seq<FitRow>, animals: seq<Key>, g: Column)
    ensures AllBest(PerAnimal(rows, animals, g), rows, g)
    ensures AnimalsAmong(PerAnimal(rows, animals, g), animals)
  {
    if |animals| > 0 {
      var n := |animals| - 1;
      var prefix := PerAnimal(rows, animals[..n], g);
      var block := GroupBest(AnimalRows(rows, animals[n]), g);
      PerAnimalBest(rows, animals[..n], g);
      BlockBest(rows, animals[n], g);
      var r := prefix + block;
      forall i | 0 <= i < |r| ensures BestOfSubset(r[i], rows, g) && KeyOf(r[i], AnimalId) in animals {
        if i < |prefix| {
          assert r[i] == prefix[i];
          assert KeyOf(prefix[i], AnimalId) in animals[..n];
        } else {
          assert r[i] == block[i - |prefix|];
        }
      }
    }
  }

  /** Every row of an animal in `animals` has a chosen row with its animal and its value of `g`. */
  lemma {:induction false} PerAnimalCovers(rows: seq<FitRow>, animals: seq<Key>, g: Column)
    ensures CoversAnimals(PerAnimal(rows, animals, g), rows, g, animals)
  {
    if |animals| > 0 {
      var n := |animals| - 1;
      var a := animals[n];
      var prefix := PerAnimal(rows, animals[..n], g);
      var block := GroupBest(AnimalRows(rows, a), g);
      PerAnimalCovers(rows, animals[..n], g);
      AnimalRowsMembers(rows, a);
      BlockCovers(AnimalRows(rows, a), rows, a, g);
      CoversConcat(prefix, block, rows, g, animals);
    }
  }

  /** Covering the earlier animals and covering the last one covers them all. */
  lemma CoversConcat(prefix: seq<FitRow>, block: seq<FitRow>, rows: seq<FitRow>, g: Column, animals: seq<Key>)
    requires |animals| > 0
    requires CoversAnimals(prefix, rows, g, animals[..|animals| - 1])
    requires CoversAnimals(block, rows, g, [animals[|animals| - 1]])
    ensures CoversAnimals(prefix + block, rows, g, animals)
  {
    var n := |animals| - 1;
    var r := prefix + block;
    forall q | 0 <= q < |rows| && KeyOf(rows[q], AnimalId) in animals
      ensures exists i :: 0 <= i < |r| && SameCell(r[i], rows[q], g)
    {
      if KeyOf(rows[q], AnimalId) == animals[n] {
        var b :| 0 <= b < |block| && SameCell(block[b], rows[q], g);
        assert r[|prefix| + b] == block[b];
      } else {
        assert KeyOf(rows[q], AnimalId) in animals[..n] by {
          var k :| 0 <= k < |animals| && animals[k] == KeyOf(rows[q], AnimalId);
          assert animals[..n][k] == animals[k];
        }
        var i :| 0 <= i < |prefix| && SameCell(prefix[i], rows[q], g);
        assert r[i] == prefix[i];
      }
    }
  }

  /** Every row of animal `a` has a chosen row of that animal with its value of `g`. */
  lemma BlockCovers(sub: seq<FitRow>, rows: seq<FitRow>, a: Key, g: Column)
    requires forall q :: 0 <= q < |sub| ==> KeyOf(sub[q], AnimalId) == a
    requires forall x :: x in sub <==> x in rows && KeyOf(x, AnimalId) == a
    ensures CoversAnimals(GroupBest(sub, g), rows, g, [a])
  {
    var block := GroupBest(sub, g);
    var gs := Groups(sub, g);
    GroupsMembers(sub, g);
    forall q | 0 <= q < |rows| && KeyOf(rows[q], AnimalId) in [a]
      ensures exists b :: 0 <= b < |block| && SameCell(block[b], rows[q], g)
    {
      assert rows[q] in sub;
      var s :| 0 <= s < |sub| && sub[s] == rows[q];
      var b :| 0 <= b < |gs| && gs[b] == KeyOf(sub[s], g);
      var p := FirstMin(sub, g, gs[b]);
      assert block[b] == sub[p];
      assert SameCell(block[b], rows[q], g);
    }
  }

  /** The chosen rows are in strictly ascending (animal, `g`) order, so no pair repeats. */
  lemma {:induction false} PerAnimalSorted(rows: seq<FitRow>, animals: seq<Key>, g: Column)
    requires StrictlySorted(animals)
    ensures PairSorted(PerAnimal(rows, animals, g), g)
  {
    if |animals| > 0 {
      var n := |animals| - 1;
      var prefix := PerAnimal(rows, animals[..n], g);
      var block := GroupBest(AnimalRows(rows, animals[n]), g);
      PerAnimalSorted(rows, animals[..n], g);
      PerAnimalBest(rows, animals[..n], g);
      BlockSorted(AnimalRows(rows, animals[n]), animals[n], g);
      PrefixBeforeBlock(prefix, block, animals, g);
      PairSortedConcat(prefix, block, g);
    }
  }

  /** One animal's chosen rows are that animal's, ascending in the value of `g`. */
  lemma BlockSorted(sub: seq<FitRow>, a: Key, g: Column)
    requires forall q :: 0 <= q < |sub| ==> KeyOf(sub[q], AnimalId) == a
    ensures PairSorted(GroupBest(sub, g), g)
    ensures forall i :: 0 <= i < |GroupBest(sub, g)| ==> KeyOf(GroupBest(sub, g)[i], AnimalId) == a
  {
    var block := GroupBest(sub, g);
    var gs := Groups(sub, g);
    GroupsMembers(sub, g);
    forall i | 0 <= i < |block| ensures KeyOf(block[i], AnimalId) == a && KeyOf(block[i], g) == gs[i] {
      assert block[i] == sub[FirstMin(sub, g, gs[i])];
    }
  }

  /** Rows of earlier animals come before the rows of the last animal. */
  lemma PrefixBeforeBlock(prefix: seq<FitRow>, block: seq<FitRow>, animals: seq<Key>, g: Column)
    requires StrictlySorted(animals) && |animals| > 0
    requires AnimalsAmong(prefix, animals[..|animals| - 1])
    requires forall j :: 0 <= j < |block| ==> KeyOf(block[j], AnimalId) == animals[|animals| - 1]
    ensures forall i, j :: 0 <= i < |prefix| && 0 <= j < |block| ==> PairLt(prefix[i], block[j], g)
  {
    var n := |animals| - 1;
    forall i, j | 0 <= i < |prefix| && 0 <= j < |block| ensures PairLt(prefix[i], block[j], g) {
      var k :| 0 <= k < n && animals[..n][k] == KeyOf(prefix[i], AnimalId);
      assert KeyLt(animals[k], animals[n]);
    }
  }

  lemma PairSortedConcat(a: seq<FitRow>, b: seq<FitRow>, g: Column)
    requires PairSorted(a, g) && PairSorted(b, g)
    requires forall i, j :: 0 <= i < |a| && 0 <= j < |b| ==> PairLt(a[i], b[j], g)
    ensures PairSorted(a + b, g)
  {
    var r := a + b;
    forall i, j | 0 <= i < j < |r| ensures PairLt(r[i], r[j], g) {
      if j < |a| {
        assert r[i] == a[i] && r[j] == a[j];
      } else if i >= |a| {
        assert r[i] == b[i - |a|] && r[j] == b[j - |a|];
      } else {
        assert r[i] == a[i] && r[j] == b[j - |a|];
      }
    }
  }

  /**
   * `ModelVisualizerCompare.find_best_fit`: one row per (animal, group value) present in the
   * table, each a row of least `nll` for its animal and group value, in ascending (animal, group
   * value) order.
   */
  lemma CompareBestFitSpec(rows: seq<FitRow>, g: Column)
    ensures AllBest(CompareBestFit(rows, g), rows, g)
    ensures Covers(CompareBestFit(rows, g), rows, g)
    ensures PairSorted(CompareBestFit(rows, g), g)
  {
    var animals := Groups(rows, AnimalId);
    var r := PerAnimal(rows, animals, g);
    assert AllBest(r, rows, g) by {
      PerAnimalBest(rows, animals, g);
    }
    assert PairSorted(r, g) by {
      GroupsMembers(rows, AnimalId);
      PerAnimalSorted(rows, animals, g);
    }
    assert Covers(r, rows, g) by {
      GroupsMembers(rows, AnimalId);
      PerAnimalCovers(rows, animals, g);
    }
  }

  /**
   * `ModelVisualizer.find_best_fit`: the same three properties; grouping by animal gives exactly
   * one row per animal, in ascending animal order.
   */
  lemma BestFitSpec(rows: seq<FitRow>, g: Column)
    ensures AllBest(BestFit(rows, g), rows, g)
    ensures Covers(BestFit(rows, g), rows, g)
    ensures PairSorted(BestFit(rows, g), g)
  {
    if g == AnimalId {
      GroupBestByAnimal(rows);
    } else {
      CompareBestFitSpec(rows, g);
    }
  }

  /** Grouping the whole table by animal: one best row per animal, in ascending animal order. */
  lemma GroupBestByAnimal(rows: seq<FitRow>)
    ensures AllBest(GroupBest(rows, AnimalId), rows, AnimalId)
    ensures Covers(GroupBest(rows, AnimalId), rows, AnimalId)
    ensures PairSorted(GroupBest(rows, AnimalId), AnimalId)
  {
    var g := AnimalId;
    var r := GroupBest(rows, AnimalId);
    var gs := Groups(rows, AnimalId);
    GroupBestSpec(rows, AnimalId);
    GroupsMembers(rows, AnimalId);
    forall q | 0 <= q < |rows| ensures exists i :: 0 <= i < |r| && SameCell(r[i], rows[q], g) {
      var i :| 0 <= i < |gs| && gs[i] == KeyOf(rows[q], AnimalId);
      assert SameCell(r[i], rows[q], g);
    }
    forall i, j | 0 <= i < j < |r| ensures PairLt(r[i], r[j], g) {
      assert KeyOf(r[i], AnimalId) == gs[i] && KeyOf(r[j], AnimalId) == gs[j];
    }
  }

  /** The per-animal loop over one more animal appends that animal's block. */
  lemma PerAnimalSnoc(rows: seq<FitRow>, animals: seq<Key>, i: nat, g: Column)
    requires i < |animals|
    ensures PerAnimal(rows, animals[..i + 1], g) == PerAnimal(rows, animals[..i], g) + GroupBest(AnimalRows(rows, animals[i]), g)
  {
    assert animals[..i + 1][..i] == animals[..i];
  }

  /** The per-animal loop both `find_best_fit` methods run, appending one block per animal. */
  method BestPerAnimal(rows: seq<FitRow>, g: Column) returns (r: seq<FitRow>)
    ensures r == CompareBestFit(rows, g)
  {
    var animals := Groups(rows, AnimalId);
    r := [];
    for i := 0 to |animals|
      invariant r == PerAnimal(rows, animals[..i], g)
    {
      var subDf := AnimalRows(rows, animals[i]);
      var bestFitDf := GroupBest(subDf, g);
      PerAnimalSnoc(rows, animals, i, g);
      r := r + bestFitDf;
    }
    assert animals[..|animals|] == animals;
  }

  // Merging the best fits with the null models.

  /** A row of `all_models_df`; `sigma` and `tau` are missing on null-model rows. */
  datatype MergedRow = MergedRow(
    animalId: string,
    modelName: string,
    nll: real,
    sigma: Option<real>,
    tau: Option<real>,
    nTrainTrials: nat,
    nTestTrials: nat,
    logLike: real)

  function FitSelected(x: FitRow): MergedRow {
    MergedRow(x.animalId, x.modelName, x.nll, Some(x.sigma), Some(x.tau), x.nTrainTrials, x.nTestTrials, -x.nll)
  }

  function NullSelected(x: FitRow): MergedRow {
    MergedRow(x.animalId, x.modelName, x.nll, None, None, x.nTrainTrials, x.nTestTrials, -x.nll)
  }

  /** The best fit per animal and model name, then the null models: the rows `pd.concat` joins. */
  function MergeInputs(fitModels: seq<FitRow>, nullModels: seq<FitRow>): seq<MergedRow> {
    var best := CompareBestFit(fitModels, ModelName);
    seq(|best|, i requires 0 <= i < |best| => FitSelected(best[i]))
      + seq(|nullModels|, i requires 0 <= i < |nullModels| => NullSelected(nullModels[i]))
  }

  /** `sort_values(["animal_id", "model_name"])` order. */
  predicate RowLe(a: MergedRow, b: MergedRow) {
    LexLe(a.animalId, b.animalId) && (a.animalId == b.animalId ==> LexLe(a.modelName, b.modelName))
  }

  predicate SortedRows(rs: seq<MergedRow>) {
    forall i :: 0 < i < |rs| ==> RowLe(rs[i - 1], rs[i])
  }

  lemma RowLeTotal(a: MergedRow, b: MergedRow)
    ensures RowLe(a, b) || RowLe(b, a)
  {
    LexTotal(a.animalId, b.animalId);
    LexTotal(a.modelName, b.modelName);
  }

  function InsertRow(x: MergedRow, s: seq<MergedRow>): (r: seq<MergedRow>)
    requires SortedRows(s)
    ensures SortedRows(r)
    ensures multiset(r) == multiset(s) + multiset{x}
    ensures |r| == |s| + 1
    ensures r[0] == x || (|s| > 0 && r[0] == s[0])
  {
    if |s| == 0 then [x]
    else if RowLe(x, s[0]) then [x] + s
    else
      RowLeTotal(x, s[0]);
      var rest := InsertRow(x, s[1..]);
      assert s == [s[0]] + s[1..];
      [s[0]] + rest
  }

  /** A stable sort of the rows into (animal, model name) order. */
  function SortRows(rs: seq<MergedRow>): (r: seq<MergedRow>)
    ensures SortedRows(r)
    ensures multiset(r) == multiset(rs)
  {
    if |rs| == 0 then []
    else
      assert rs == [rs[0]] + rs[1..];
      InsertRow(rs[0], SortRows(rs[1..]))
  }

  /** The two rows share the sort key (animal, model name). */
  predicate SameKey(a: MergedRow, b: MergedRow) {
    a.animalId == b.animalId && a.modelName == b.modelName
  }

  /** The rows with `k`'s sort key, in their order in `rs`. */
  function Ties(rs: seq<MergedRow>, k: MergedRow): seq<MergedRow> {
    if |rs| == 0 then []
    else (if SameKey(rs[0], k) then [rs[0]] else []) + Ties(rs[1..], k)
  }

  /** Rows with the same sort key are in order either way. */
  lemma SameKeyRowLe(a: MergedRow, b: MergedRow)
    requires SameKey(a, b)
    ensures RowLe(a, b)
  {
    LexTotal(a.animalId, a.animalId);
    LexTotal(a.modelName, a.modelName);
  }

  /** A row inserted into sorted rows goes before the rows it ties with. */
  lemma {:induction false} InsertRowTies(x: MergedRow, s: seq<MergedRow>, k: MergedRow)
    requires SortedRows(s)
    ensures Ties(InsertRow(x, s), k) == (if SameKey(x, k) then [x] else []) + Ties(s, k)
  {
    var ax: seq<MergedRow> := if SameKey(x, k) then [x] else [];
    if |s| > 0 && !RowLe(x, s[0]) {
      var s0 := s[0];
      var tail := s[1..];
      var a0: seq<MergedRow> := if SameKey(s0, k) then [s0] else [];
      if SameKey(x, s0) {
        SameKeyRowLe(x, s0);
      }
      assert SortedRows(tail) by {
        forall i | 0 < i < |tail| ensures RowLe(tail[i - 1], tail[i]) {
          assert tail[i - 1] == s[i] && tail[i] == s[i + 1];
        }
      }
      InsertRowTies(x, tail, k);
      var r := InsertRow(x, s);
      assert r == [s0] + InsertRow(x, tail);
      assert Ties(r, k) == a0 + Ties(InsertRow(x, tail), k);
      assert Ties(s, k) == a0 + Ties(tail, k);
      TiesCommute(ax, a0, Ties(tail, k));
    } else if |s| > 0 {
      assert ([x] + s)[1..] == s;
    }
  }

  lemma TiesCommute(a: seq<MergedRow>, b: seq<MergedRow>, rest: seq<MergedRow>)
    requires |a| == 0 || |b| == 0
    ensures b + (a + rest) == a + (b + rest)
  {
    if |a| == 0 {
      assert a + rest == rest && a + (b + rest) == b + rest;
    } else {
      assert b + (a + rest) == a + rest && b + rest == rest;
    }
  }

  /**
   * The sort is stable: for every sort key, the rows with that key come out in their input
   * order, as pandas' two-key (lexsort) `sort_values` keeps them.
   */
  lemma {:induction false} SortRowsStable(rs: seq<MergedRow>, k: MergedRow)
    ensures Ties(SortRows(rs), k) == Ties(rs, k)
  {
    if |rs| > 0 {
      SortRowsStable(rs[1..], k);
      InsertRowTies(rs[0], SortRows(rs[1..]), k);
    }
  }

  /** `merge_null_and_fit_models_dfs`'s table. */
  function Merged(fitModels: seq<FitRow>, nullModels: seq<FitRow>): seq<MergedRow> {
    SortRows(MergeInputs(fitModels, nullModels))
  }

  /**
   * The merged table holds exactly the best fits per animal and model name and the null models,
   * each once, sorted by animal and then model name, and `log_like = -nll` on every row.
   */
  lemma MergedSpec(fitModels: seq<FitRow>, nullModels: seq<FitRow>)
    ensures var r := Merged(fitModels, nullModels);
      SortedRows(r) && multiset(r) == multiset(MergeInputs(fitModels, nullModels))
    ensures var r := Merged(fitModels, nullModels);
      forall i :: 0 <= i < |r| ==> r[i].logLike == -r[i].nll
  {
    var all := MergeInputs(fitModels, nullModels);
    InputsLogLike(fitModels, nullModels);
    LogLikeKept(Merged(fitModels, nullModels), all);
  }

  /** Every row's `log_like` is its negated `nll`. */
  predicate LogLikeIsMinusNll(rs: seq<MergedRow>) {
    forall i :: 0 <= i < |rs| ==> rs[i].logLike == -rs[i].nll
  }

  lemma InputsLogLike(fitModels: seq<FitRow>, nullModels: seq<FitRow>)
    ensures LogLikeIsMinusNll(MergeInputs(fitModels, nullModels))
  {
  }

  /** A reordering of rows with `log_like = -nll` has `log_like = -nll` too. */
  lemma LogLikeKept(r: seq<MergedRow>, all: seq<MergedRow>)
    requires multiset(r) == multiset(all) && LogLikeIsMinusNll(all)
    ensures LogLikeIsMinusNll(r)
  {
    forall i | 0 <= i < |r| ensures r[i].logLike == -r[i].nll {
      assert r[i] in multiset(all);
      var j :| 0 <= j < |all| && all[j] == r[i];
    }
  }

  // Bits per trial.

  /** A row of `bits_per_trial_df`; the value is missing where the division by zero trials gives inf or NaN. */
  datatype BitsRow = BitsRow(row: MergedRow, bitsPerTrial: Option<real>)

  /** The position of the animal's first `null` model row, if there is one. */
  function FirstNull(group: seq<MergedRow>): (r: Option<nat>)
    ensures r.Some? <==> exists i :: 0 <= i < |group| && group[i].modelName == "null"
    ensures r.Some? ==> r.value < |group| && group[r.value].modelName == "null"
    ensures r.Some? ==> forall j :: 0 <= j < r.value ==> group[j].modelName != "null"
  {
    if |group| == 0 then None
    else if group[0].modelName == "null" then Some(0)
    else
      var rest := FirstNull(group[1..]);
      assert forall i :: 0 < i < |group| ==> group[1..][i - 1] == group[i];
      if rest.Some? then Some(rest.value + 1) else None
  }

  /** The bits per trial of one row, given the null log-likelihood and the test size. */
  function BitsFor(row: MergedRow, nullLL: real, nTest: nat, fns: RealFns): Option<real>
    requires fns.Valid()
  {
    if nTest == 0 then None
    else
      LogPositive(fns, 2.0);
      var denominator := nTest as real * fns.log(2.0);
      Some((if row.modelName == "null" then nullLL else row.logLike - nullLL) / denominator)
  }

  lemma DivSign(d: real, c: real)
    requires c > 0.0
    ensures (d / c > 0.0 <==> d > 0.0) && (d / c == 0.0 <==> d == 0.0) && (d / c < 0.0 <==> d < 0.0)
    ensures (d / c) * c == d
  {
  }

  /**
   * With at least one test trial, a model row's bits per trial times `n_test · ln 2` is its gain in
   * log-likelihood over the null model, so it is positive exactly when the model beats the null,
   * zero exactly when they tie; the null row's value times `n_test · ln 2` is the null's own
   * log-likelihood. With no test trials there is no finite value.
   */
  lemma BitsSign(row: MergedRow, nullLL: real, nTest: nat, fns: RealFns)
    requires fns.Valid()
    ensures nTest == 0 <==> BitsFor(row, nullLL, nTest, fns).None?
    ensures nTest > 0 && row.modelName != "null" ==>
      var b := BitsFor(row, nullLL, nTest, fns).value;
      && b * (nTest as real * fns.log(2.0)) == row.logLike - nullLL
      && (b > 0.0 <==> row.logLike > nullLL)
      && (b == 0.0 <==> row.logLike == nullLL)
      && (b < 0.0 <==> row.logLike < nullLL)
    ensures nTest > 0 && row.modelName == "null" ==>
      BitsFor(row, nullLL, nTest, fns).value * (nTest as real * fns.log(2.0)) == nullLL
  {
    if nTest > 0 {
      LogPositive(fns, 2.0);
      var c := nTest as real * fns.log(2.0);
      assert c > 0.0;
      DivSign(row.logLike - nullLL, c);
      DivSign(nullLL, c);
    }
  }

  /**
   * `_calculate_bits_per_trial` on one animal's rows: `iloc[0]` on the rows or on the `null`
   * selection raises IndexError when either is empty; otherwise every row gets its bits per trial
   * relative to the first null row, with the test size of the animal's first row.
   */
  function CalcBits(group: seq<MergedRow>, fns: RealFns): (r: Result<seq<BitsRow>, Error>)
    requires fns.Valid()
  {
    if |group| == 0 then Failure(IndexError("single positional indexer is out-of-bounds"))
    else
      var nullAt := FirstNull(group);
      if nullAt.None? then Failure(IndexError("single positional indexer is out-of-bounds"))
      else
        var nullLL := group[nullAt.value].logLike;
        Success(seq(|group|, i requires 0 <= i < |group| =>
          BitsRow(group[i], BitsFor(group[i], nullLL, group[0].nTestTrials, fns))))
  }

  /**
   * The loop of `_calculate_bits_per_trial`: it fails with IndexError exactly when the animal has
   * no null row, and otherwise keeps every row, in order, adding its bits per trial.
   */
  method CalculateBitsPerTrial(group: seq<MergedRow>, fns: RealFns) returns (r: Result<seq<BitsRow>, Error>)
    requires fns.Valid()
    ensures r.Success? <==> |group| > 0 && FirstNull(group).Some?
    ensures r.Failure? ==> r.error.IndexError?
    ensures r.Success? ==> |r.value| == |group| && forall i :: 0 <= i < |group| ==>
      && r.value[i].row == group[i]
      && r.value[i].bitsPerTrial == BitsFor(group[i], group[FirstNull(group).value].logLike, group[0].nTestTrials, fns)
    ensures r == CalcBits(group, fns)
  {
    if |group| == 0 {
      return Failure(IndexError("single positional indexer is out-of-bounds"));
    }
    var nTestTrials := group[0].nTestTrials;
    var nullAt := FirstNull(group);
    if nullAt.None? {
      return Failure(IndexError("single positional indexer is out-of-bounds"));
    }
    var nullLL := group[nullAt.value].logLike;
    var bitsPerTrial: seq<BitsRow> := [];
    for i := 0 to |group|
      invariant |bitsPerTrial| == i
      invariant forall k :: 0 <= k < i ==> bitsPerTrial[k] == BitsRow(group[k], BitsFor(group[k], nullLL, nTestTrials, fns))
    {
      bitsPerTrial := bitsPerTrial + [BitsRow(group[i], BitsFor(group[i], nullLL, nTestTrials, fns))];
    }
    assert bitsPerTrial == CalcBits(group, fns).value;
    r := Success(bitsPerTrial);
  }

  function MergedKeys(all: seq<MergedRow>): (ks: seq<Key>)
    ensures |ks| == |all|
    ensures forall q :: 0 <= q < |all| ==> ks[q] == Text(all[q].animalId)
  {
    seq(|all|, q requires 0 <= q < |all| => Text(all[q].animalId))
  }

  /** The animals of `all_models_df.groupby("animal_id")`, ascending. */
  function MergedAnimals(all: seq<MergedRow>): seq<Key> {
    SortedDistinct(MergedKeys(all))
  }

  /** The group of animal `a`: the animal's merged rows, in table order. */
  function AnimalGroup(all: seq<MergedRow>, a: Key): (r: seq<MergedRow>)
    ensures forall i :: 0 <= i < |r| ==> Text(r[i].animalId) == a
  {
    if |all| == 0 then []
    else
      var n := |all| - 1;
      var init := AnimalGroup(all[..n], a);
      if Text(all[n].animalId) == a then init + [all[n]] else init
  }

  lemma {:induction false} AnimalGroupMembers(all: seq<MergedRow>, a: Key)
    ensures forall x :: x in AnimalGroup(all, a) <==> x in all && Text(x.animalId) == a
  {
    if |all| > 0 {
      var n := |all| - 1;
      AnimalGroupMembers(all[..n], a);
      assert all == all[..n] + [all[n]];
    }
  }

  /** `groupby("animal_id").apply(...)` over the animals `animals`: the first failure, or every block. */
  function BitsTable(all: seq<MergedRow>, animals: seq<Key>, fns: RealFns): Result<seq<BitsRow>, Error>
    requires fns.Valid()
  {
    if |animals| == 0 then Success([])
    else
      var n := |animals| - 1;
      var prefix := BitsTable(all, animals[..n], fns);
      if prefix.Failure? then prefix
      else
        var block := CalcBits(AnimalGroup(all, animals[n]), fns);
        if block.Failure? then block else Success(prefix.value + block.value)
  }

  /** The animal has a null row among the merged rows. */
  predicate HasNull(all: seq<MergedRow>, a: Key) {
    exists i :: 0 <= i < |all| && Text(all[i].animalId) == a && all[i].modelName == "null"
  }

  lemma GroupHasNull(all: seq<MergedRow>, a: Key)
    ensures |AnimalGroup(all, a)| > 0 && FirstNull(AnimalGroup(all, a)).Some? <==> HasNull(all, a)
  {
    AnimalGroupMembers(all, a);
    var g := AnimalGroup(all, a);
    if HasNull(all, a) {
      var i :| 0 <= i < |all| && Text(all[i].animalId) == a && all[i].modelName == "null";
      assert all[i] in g;
      var j :| 0 <= j < |g| && g[j] == all[i];
    }
    if |g| > 0 && FirstNull(g).Some? {
      var j := FirstNull(g).value;
      assert g[j] in all;
      var i :| 0 <= i < |all| && all[i] == g[j];
    }
  }

  /** The bits value of a merged row of animal `a`, relative to that animal's first null row. */
  predicate BitsOfAnimal(x: BitsRow, all: seq<MergedRow>, a: Key, fns: RealFns)
    requires fns.Valid()
  {
    var group := AnimalGroup(all, a);
    && x.row in all
    && Text(x.row.animalId) == a
    && |group| > 0 && FirstNull(group).Some?
    && x.bitsPerTrial == BitsFor(x.row, group[FirstNull(group).value].logLike, group[0].nTestTrials, fns)
  }

  /** Every output row is a merged row of one of `animals`, valued relative to its own animal. */
  predicate RowsOfAnimals(out: seq<BitsRow>, all: seq<MergedRow>, animals: seq<Key>, fns: RealFns)
    requires fns.Valid()
  {
    forall i :: 0 <= i < |out| ==>
      Text(out[i].row.animalId) in animals && BitsOfAnimal(out[i], all, Text(out[i].row.animalId), fns)
  }

  predicate AllHaveNull(all: seq<MergedRow>, animals: seq<Key>) {
    forall k :: 0 <= k < |animals| ==> HasNull(all, animals[k])
  }

  /** The rows computed for one animal carry its values. */
  lemma BlockRows(all: seq<MergedRow>, a: Key, fns: RealFns)
    requires fns.Valid() && CalcBits(AnimalGroup(all, a), fns).Success?
    ensures RowsOfAnimals(CalcBits(AnimalGroup(all, a), fns).value, all, [a], fns)
  {
    var group := AnimalGroup(all, a);
    var block := CalcBits(group, fns).value;
    AnimalGroupMembers(all, a);
    forall b | 0 <= b < |block| ensures Text(block[b].row.animalId) in [a] && BitsOfAnimal(block[b], all, Text(block[b].row.animalId), fns) {
      assert block[b].row == group[b];
      assert group[b] in group;
    }
  }

  /** `compute_bits_per_trial_df` succeeds exactly when every animal has a null row. */
  lemma {:induction false} BitsTableSucceeds(all: seq<MergedRow>, animals: seq<Key>, fns: RealFns)
    requires fns.Valid()
    ensures BitsTable(all, animals, fns).Success? <==> AllHaveNull(all, animals)
  {
    if |animals| > 0 {
      var n := |animals| - 1;
      BitsTableSucceeds(all, animals[..n], fns);
      GroupHasNull(all, animals[n]);
      CalcBitsSucceeds(AnimalGroup(all, animals[n]), fns);
      AllHaveNullSnoc(all, animals);
    }
  }

  lemma CalcBitsSucceeds(group: seq<MergedRow>, fns: RealFns)
    requires fns.Valid()
    ensures CalcBits(group, fns).Success? <==> |group| > 0 && FirstNull(group).Some?
  {
  }

  lemma AllHaveNullSnoc(all: seq<MergedRow>, animals: seq<Key>)
    requires |animals| > 0
    ensures AllHaveNull(all, animals) <==>
      AllHaveNull(all, animals[..|animals| - 1]) && HasNull(all, animals[|animals| - 1])
  {
    assert forall k :: 0 <= k < |animals| - 1 ==> animals[..|animals| - 1][k] == animals[k];
  }

  /**
   * On success, every output row is a merged row of one of the animals, with its value computed
   * relative to its own animal's first null row and with its own animal's test size.
   */
  lemma {:induction false} BitsTableRows(all: seq<MergedRow>, animals: seq<Key>, fns: RealFns)
    requires fns.Valid() && BitsTable(all, animals, fns).Success?
    ensures RowsOfAnimals(BitsTable(all, animals, fns).value, all, animals, fns)
  {
    if |animals| > 0 {
      var n := |animals| - 1;
      var a := animals[n];
      var prefix := BitsTable(all, animals[..n], fns).value;
      var block := CalcBits(AnimalGroup(all, a), fns).value;
      BitsTableRows(all, animals[..n], fns);
      BlockRows(all, a, fns);
      RowsConcat(prefix, block, all, animals, fns);
    }
  }

  /** Rows valued for the earlier animals followed by rows valued for the last one. */
  lemma RowsConcat(prefix: seq<BitsRow>, block: seq<BitsRow>, all: seq<MergedRow>, animals: seq<Key>, fns: RealFns)
    requires fns.Valid() && |animals| > 0
    requires RowsOfAnimals(prefix, all, animals[..|animals| - 1], fns)
    requires RowsOfAnimals(block, all, [animals[|animals| - 1]], fns)
    ensures RowsOfAnimals(prefix + block, all, animals, fns)
  {
    var n := |animals| - 1;
    var out := prefix + block;
    forall i | 0 <= i < |out|
      ensures Text(out[i].row.animalId) in animals && BitsOfAnimal(out[i], all, Text(out[i].row.animalId), fns)
    {
      if i < |prefix| {
        assert out[i] == prefix[i];
        var k :| 0 <= k < n && animals[..n][k] == Text(prefix[i].row.animalId);
        assert animals[k] == Text(out[i].row.animalId);
      } else {
        assert out[i] == block[i - |prefix|];
        assert animals[n] == Text(out[i].row.animalId);
      }
    }
  }

  /** One more animal: its failure, or its block appended. */
  lemma BitsTableStep(all: seq<MergedRow>, animals: seq<Key>, i: nat, fns: RealFns)
    requires fns.Valid() && i < |animals| && BitsTable(all, animals[..i], fns).Success?
    ensures var block := CalcBits(AnimalGroup(all, animals[i]), fns);
      BitsTable(all, animals[..i + 1], fns) ==
        if block.Failure? then block else Success(BitsTable(all, animals[..i], fns).value + block.value)
  {
    assert animals[..i + 1][..i] == animals[..i];
  }

  /** A failure on the first `j` animals is the failure on the first `j + 1`. */
  lemma BitsTableFailStep(all: seq<MergedRow>, animals: seq<Key>, j: nat, fns: RealFns)
    requires fns.Valid() && j < |animals| && BitsTable(all, animals[..j], fns).Failure?
    ensures BitsTable(all, animals[..j + 1], fns) == BitsTable(all, animals[..j], fns)
  {
    assert animals[..j + 1][..j] == animals[..j];
  }

  /** Once the animal-by-animal computation fails, later animals do not change the outcome. */
  lemma BitsTableFailureStays(all: seq<MergedRow>, animals: seq<Key>, i: nat, fns: RealFns)
    requires fns.Valid() && i <= |animals|
    requires BitsTable(all, animals[..i], fns).Failure?
    ensures BitsTable(all, animals, fns) == BitsTable(all, animals[..i], fns)
  {
    var j := i;
    while j < |animals|
      invariant i <= j <= |animals|
      invariant BitsTable(all, animals[..j], fns) == BitsTable(all, animals[..i], fns)
    {
      BitsTableFailStep(all, animals, j, fns);
      j := j + 1;
    }
    assert animals[..j] == animals;
  }

  /** `ModelVisualizer`: the fit table of an experiment. */
  class ModelVisualizer {
    const fitModels: seq<FitRow>

    constructor(fitModels: seq<FitRow>)
      ensures this.fitModels == fitModels
    {
      this.fitModels := fitModels;
    }

    /** `find_best_fit(group)`: grouping by animal is one `idxmin`; any other group loops by animal. */
    method FindBestFit(group: Column) returns (r: seq<FitRow>)
      ensures r == BestFit(fitModels, group)
    {
      if group == AnimalId {
        r := GroupBest(fitModels, AnimalId);
      } else {
        r := BestPerAnimal(fitModels, group);
      }
    }
  }

  /** `ModelVisualizerCompare`: the fit and null tables, and the two tables it derives from them. */
  class ModelVisualizerCompare {
    const fitModels: seq<FitRow>
    const nullModels: seq<FitRow>
    /** `all_models_df`, absent until merged. */
    var allModels: Option<seq<MergedRow>>
    /** `bits_per_trial_df`, absent until computed. */
    var bitsPerTrial: Option<seq<BitsRow>>

    constructor(fitModels: seq<FitRow>, nullModels: seq<FitRow>)
      ensures this.fitModels == fitModels && this.nullModels == nullModels
      ensures allModels == None && bitsPerTrial == None
    {
      this.fitModels := fitModels;
      this.nullModels := nullModels;
      allModels := None;
      bitsPerTrial := None;
    }

    method FindBestFit(group: Column) returns (r: seq<FitRow>)
      ensures r == CompareBestFit(fitModels, group)
    {
      r := BestPerAnimal(fitModels, group);
    }

    /** `merge_null_and_fit_models_dfs`: sets `all_models_df` from the best fit per model name. */
    method MergeNullAndFitModelsDfs()
      modifies this
      ensures allModels == Some(Merged(fitModels, nullModels))
      ensures bitsPerTrial == old(bitsPerTrial)
    {
      var bestFitDf := FindBestFit(ModelName);
      var all := seq(|bestFitDf|, i requires 0 <= i < |bestFitDf| => FitSelected(bestFitDf[i]))
                 + seq(|nullModels|, i requires 0 <= i < |nullModels| => NullSelected(nullModels[i]));
      assert all == MergeInputs(fitModels, nullModels);
      allModels := Some(SortRows(all));
    }

    /**
     * `compute_bits_per_trial_df`: merges first if `all_models_df` is absent, then computes the
     * bits per trial animal by animal; a raised IndexError leaves `bits_per_trial_df` as it was.
     */
    method ComputeBitsPerTrialDf(fns: RealFns) returns (r: Result<seq<BitsRow>, Error>)
      requires fns.Valid()
      modifies this
      ensures allModels == (if old(allModels).Some? then old(allModels) else Some(Merged(fitModels, nullModels)))
      ensures allModels.Some? && r == BitsTable(allModels.value, MergedAnimals(allModels.value), fns)
      ensures bitsPerTrial == (if r.Success? then Some(r.value) else old(bitsPerTrial))
    {
      if allModels.None? {
        MergeNullAndFitModelsDfs();
      }
      var all := allModels.value;
      var animals := MergedAnimals(all);
      var out: seq<BitsRow> := [];
      for i := 0 to |animals|
        invariant allModels == Some(all) && bitsPerTrial == old(bitsPerTrial)
        invariant BitsTable(all, animals[..i], fns) == Success(out)
      {
        var block := CalculateBitsPerTrial(AnimalGroup(all, animals[i]), fns);
        BitsTableStep(all, animals, i, fns);
        if block.Failure? {
          BitsTableFailureStays(all, animals, i + 1, fns);
          return block;
        }
        out := out + block.value;
      }
      assert animals[..|animals|] == animals;
      r := Success(out);
      bitsPerTrial := Some(out);
    }
  }
}
