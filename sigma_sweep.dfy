/**
 * The sigma sweep experiment (src/violmulti/experiments/experiment_sigma_sweep.py): for every
 * animal in turn it builds that animal's design matrix and train/test split once, then fits and
 * evaluates one model per prior width `sigma`, appending one record per fit to the results table.
 * The experiment base class (design matrix, split, fit and evaluation) is not part of this model:
 * its operations are function parameters, and `store` appends.
 */
module SigmaSweep {
  import opened Wrappers

  /** One row of the trial table: the animal it belongs to and its other columns. */
  datatype Row = Row(animalId: string, cells: map<string, real>)

  /** A design matrix (or label table): its column names and its rows. */
  datatype Table = Table(columns: seq<string>, rows: seq<seq<real>>)

  /** `apply_session_split(X, Y)`: the train and test halves of the design matrix and labels. */
  datatype SplitData = SplitData(xTrain: Table, xTest: Table, yTrain: Table, yTest: Table)

  /** What `fit_and_evaluate_model` returns: the fitted weights and the test and train NLL. */
  datatype FitResult = FitResult(weights: seq<seq<real>>, testNll: real, trainNll: real)

  /** One row of the results table. */
  datatype FitRecord = FitRecord(
    animalId: string,
    modelName: string,
    modelType: string,
    nll: real,
    trainNll: real,
    sigma: Option<real>,
    features: seq<string>,
    weights: seq<seq<real>>,
    nTrainTrials: nat,
    nTestTrials: nat)

  /**
   * The base-class operations the sweep calls: the design matrix of one animal's rows for a
   * model name, the session split of that animal's rows, and fitting plus evaluation.
   */
  datatype ExperimentBase = ExperimentBase(
    design: (seq<Row>, string) -> (Table, Table),
    split: (seq<Row>, Table, Table) -> SplitData,
    fitEval: (SplitData, Option<real>, string) -> FitResult)

  /** The positions of the animal's rows in the table, in table order. */
  function AnimalIndices(df: seq<Row>, animalId: string): seq<nat> {
    if |df| == 0 then []
    else
      var n := |df| - 1;
      var init := AnimalIndices(df[..n], animalId);
      if df[n].animalId == animalId then init + [n] else init
  }

  /** `r` lists the animal's positions in `df`: strictly increasing, each holds its row, none missed. */
  predicate PositionsOf(df: seq<Row>, animalId: string, r: seq<nat>) {
    && (forall i :: 0 <= i < |r| ==> r[i] < |df| && df[r[i]].animalId == animalId)
    && (forall i, j :: 0 <= i < j < |r| ==> r[i] < r[j])
    && (forall t :: 0 <= t < |df| && df[t].animalId == animalId ==> t in r)
  }

  lemma {:induction false} AnimalIndicesSpec(df: seq<Row>, animalId: string)
    ensures PositionsOf(df, animalId, AnimalIndices(df, animalId))
  {
    if |df| > 0 {
      var n := |df| - 1;
      var init := AnimalIndices(df[..n], animalId);
      AnimalIndicesSpec(df[..n], animalId);
      assert PositionsOf(df[..n], animalId, init);
      forall i | 0 <= i < |init| ensures init[i] < n && df[init[i]].animalId == animalId {
        assert df[..n][init[i]] == df[init[i]];
      }
      forall t | 0 <= t < n && df[t].animalId == animalId ensures t in init {
        assert df[..n][t] == df[t];
      }
    }
  }

  /** `df.query("animal_id == @animal_id")`: the animal's rows, in table order. */
  function AnimalRows(df: seq<Row>, animalId: string): (r: seq<Row>)
    ensures forall row :: row in r <==> row in df && row.animalId == animalId
    ensures |r| <= |df|
  {
    if |df| == 0 then []
    else
      var init := AnimalRows(df[..|df| - 1], animalId);
      assert forall row :: row in df <==> row in df[..|df| - 1] || row == df[|df| - 1];
      if df[|df| - 1].animalId == animalId then init + [df[|df| - 1]] else init
  }

  /**
   * The query keeps table order and repeats: the i-th kept row is the table's row at the
   * animal's i-th position.
   */
  lemma {:induction false} AnimalRowsInOrder(df: seq<Row>, animalId: string)
    ensures PositionsOf(df, animalId, AnimalIndices(df, animalId))
    ensures |AnimalRows(df, animalId)| == |AnimalIndices(df, animalId)|
    ensures forall i :: 0 <= i < |AnimalRows(df, animalId)| ==>
      AnimalRows(df, animalId)[i] == df[AnimalIndices(df, animalId)[i]]
  {
    AnimalIndicesSpec(df, animalId);
    if |df| > 0 {
      var n := |df| - 1;
      AnimalRowsInOrder(df[..n], animalId);
      var ix, rs := AnimalIndices(df[..n], animalId), AnimalRows(df[..n], animalId);
      AnimalIndicesSpec(df[..n], animalId);
      assert PositionsOf(df[..n], animalId, ix);
      assert forall i :: 0 <= i < |ix| ==> rs[i] == df[ix[i]] by {
        forall i | 0 <= i < |ix| ensures rs[i] == df[ix[i]] {
          assert df[..n][ix[i]] == df[ix[i]];
        }
      }
      if df[n].animalId == animalId {
        assert AnimalRows(df, animalId) == rs + [df[n]];
        assert AnimalIndices(df, animalId) == ix + [n];
      } else {
        assert AnimalRows(df, animalId) == rs;
        assert AnimalIndices(df, animalId) == ix;
      }
    }
  }

  class ExperimentSigmaSweep {
    const df: seq<Row>
    const animals: seq<string>
    const sigmas: seq<Option<real>>
    const modelName: string
    const modelType: string
    const base: ExperimentBase
    /** The results table, one record per fit, in the order the fits ran. */
    var fitModels: seq<FitRecord>

    constructor(df: seq<Row>, animals: seq<string>, sigmas: seq<Option<real>>,
                modelName: string, modelType: string, base: ExperimentBase)
      ensures this.df == df && this.animals == animals && this.sigmas == sigmas
      ensures this.modelName == modelName && this.modelType == modelType && this.base == base
      ensures fitModels == []
    {
      this.df := df;
      this.animals := animals;
      this.sigmas := sigmas;
      this.modelName := modelName;
      this.modelType := modelType;
      this.base := base;
      fitModels := [];
    }

    /** The design matrix of the animal's rows, split into train and test once. */
    function AnimalData(animalDf: seq<Row>): SplitData {
      var (X, Y) := base.design(animalDf, modelName);
      base.split(animalDf, X, Y)
    }

    /** The record stored for one fit of the animal's split data with prior width `sigma`. */
    function MakeRecord(animalId: string, data: SplitData, sigma: Option<real>): FitRecord {
      var fit := base.fitEval(data, sigma, modelName);
      FitRecord(animalId, modelName, modelType, fit.testNll, fit.trainNll, sigma,
                data.xTest.columns, fit.weights, |data.xTrain.rows|, |data.xTest.rows|)
    }

    /** The records of one animal: one per entry of `ss`, in order, all from the same split data. */
    function SigmaRecords(animalId: string, data: SplitData, ss: seq<Option<real>>): seq<FitRecord> {
      if |ss| == 0 then []
      else SigmaRecords(animalId, data, ss[..|ss| - 1]) + [MakeRecord(animalId, data, ss[|ss| - 1])]
    }

    /** The records a run appends for the animals `ids`, animal by animal. */
    function RunRecords(ids: seq<string>): seq<FitRecord> {
      if |ids| == 0 then []
      else
        var id := ids[|ids| - 1];
        RunRecords(ids[..|ids| - 1]) + SigmaRecords(id, AnimalData(AnimalRows(df, id)), sigmas)
    }

    /**
     * An animal gets one record per sigma: record `j` is the fit with `ss[j]`, carrying the loop's
     * animal, model name and sigma, the test and train NLL of that fit, the test columns as
     * features, and the sizes of the train and test halves.
     */
    lemma {:induction false} SigmaRecordsAt(animalId: string, data: SplitData, ss: seq<Option<real>>, j: nat)
      requires j < |ss|
      ensures |SigmaRecords(animalId, data, ss)| == |ss|
      ensures var r := SigmaRecords(animalId, data, ss)[j];
        var fit := base.fitEval(data, ss[j], modelName);
        && r == MakeRecord(animalId, data, ss[j])
        && r.animalId == animalId && r.modelName == modelName && r.modelType == modelType
        && r.sigma == ss[j] && r.nll == fit.testNll && r.trainNll == fit.trainNll
        && r.weights == fit.weights && r.features == data.xTest.columns
        && r.nTrainTrials == |data.xTrain.rows| && r.nTestTrials == |data.xTest.rows|
    {
      var n := |ss| - 1;
      if j < n {
        SigmaRecordsAt(animalId, data, ss[..n], j);
        assert ss[..n][j] == ss[j];
      } else if n > 0 {
        SigmaRecordsAt(animalId, data, ss[..n], 0);
      }
    }

    /** An animal gets exactly one record per sigma. */
    lemma {:induction false} SigmaRecordsLength(animalId: string, data: SplitData, ss: seq<Option<real>>)
      ensures |SigmaRecords(animalId, data, ss)| == |ss|
    {
      if |ss| > 0 {
        SigmaRecordsLength(animalId, data, ss[..|ss| - 1]);
      }
    }

    /** A run over `ids` appends exactly `|ids| * |sigmas|` records. */
    lemma {:induction false} RunRecordsLength(ids: seq<string>)
      ensures |RunRecords(ids)| == |ids| * |sigmas|
    {
      if |ids| > 0 {
        var n := |ids| - 1;
        RunRecordsLength(ids[..n]);
        var id := ids[n];
        SigmaRecordsLength(id, AnimalData(AnimalRows(df, id)), sigmas);
        MulSucc(n, |sigmas|);
      }
    }

    lemma MulSucc(n: nat, m: nat)
      ensures n * m + m == (n + 1) * m
    {
    }

    /**
     * Record `i * |sigmas| + j` of a run is animal `i`'s fit with `sigmas[j]`, made from that
     * animal's rows only and from the split computed once for that animal: animals in order,
     * sigmas in order within each animal.
     */
    lemma {:induction false} RunRecordAt(ids: seq<string>, i: nat, j: nat) returns (p: nat)
      requires i < |ids| && j < |sigmas|
      ensures p == i * |sigmas| + j && p < |RunRecords(ids)|
      ensures RunRecords(ids)[p] == MakeRecord(ids[i], AnimalData(AnimalRows(df, ids[i])), sigmas[j])
    {
      var n := |ids| - 1;
      var id := ids[n];
      var tail := SigmaRecords(id, AnimalData(AnimalRows(df, id)), sigmas);
      RunRecordsLength(ids[..n]);
      SigmaRecordsAt(id, AnimalData(AnimalRows(df, id)), sigmas, j);
      if i == n {
        p := |RunRecords(ids[..n])| + j;
        assert RunRecords(ids)[p] == tail[j];
      } else {
        p := RunRecordAt(ids[..n], i, j);
        assert ids[..n][i] == ids[i];
        assert RunRecords(ids)[p] == RunRecords(ids[..n])[p];
      }
      RunRecordsLength(ids);
      MulBound(i, j, |ids|, |sigmas|);
    }

    lemma MulBound(i: nat, j: nat, n: nat, m: nat)
      requires i < n && j < m
      ensures i * m + j < n * m
    {
      assert (i + 1) * m <= n * m;
    }

    /** `store(data, fit_models)`: the record is appended to the results table. */
    method Store(record: FitRecord)
      modifies this
      ensures fitModels == old(fitModels) + [record]
    {
      fitModels := fitModels + [record];
    }

    /**
     * `run_single_animal`: builds the design matrix and split once, then appends one record per
     * sigma, in order; earlier records are kept.
     */
    method RunSingleAnimal(animalId: string, animalDf: seq<Row>)
      modifies this
      ensures fitModels == old(fitModels) + SigmaRecords(animalId, AnimalData(animalDf), sigmas)
    {
      var (X, Y) := base.design(animalDf, modelName);
      var data := base.split(animalDf, X, Y);
      for k := 0 to |sigmas|
        invariant fitModels == old(fitModels) + SigmaRecords(animalId, data, sigmas[..k])
      {
        var sigma := sigmas[k];
        var fit := base.fitEval(data, sigma, modelName);
        var record := FitRecord(animalId, modelName, modelType, fit.testNll, fit.trainNll, sigma,
                                data.xTest.columns, fit.weights, |data.xTrain.rows|, |data.xTest.rows|);
        Store(record);
        assert sigmas[..k + 1][..k] == sigmas[..k];
      }
      assert sigmas[..|sigmas|] == sigmas;
    }

    /** `run`: every animal in `animals` order, each on its own rows of the trial table. */
    method Run()
      modifies this
      ensures fitModels == old(fitModels) + RunRecords(animals)
    {
      for i := 0 to |animals|
        invariant fitModels == old(fitModels) + RunRecords(animals[..i])
      {
        var animalId := animals[i];
        var animalDf := AnimalRows(df, animalId);
        RunSingleAnimal(animalId, animalDf);
        assert animals[..i + 1][..i] == animals[..i];
      }
      assert animals[..|animals|] == animals;
    }
  }
}
