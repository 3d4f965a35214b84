/**
 * The PWM feature functions (src/multiglm/features/design_matrix_generator_PWM.py): each
 * feature is a composition of column helpers (remap, session-aware shift, previous-violation
 * mask, binarize, combine, standardize, exponential filter) over one animal's trial table.
 */
module DesignMatrixPWM {
  import opened Wrappers
  import opened Numerics
  import opened Convolution

  /** One animal's trial table: one entry per trial in every column. */
  datatype Trials = Trials(
    session: seq<int>,
    sA: seq<real>,
    sB: seq<real>,
    correctSide: seq<int>,
    choice: seq<int>,
    violation: seq<int>,
    nPrevTrialNotStarted: seq<int>,
    animalId: seq<string>)
  {
    predicate Valid() {
      && |sA| == |session| && |sB| == |session| && |correctSide| == |session|
      && |choice| == |session| && |violation| == |session|
      && |nPrevTrialNotStarted| == |session| && |animalId| == |session|
    }

    function Rows(): nat { |session| }
  }

  /** Trial `t` opens a session: it is the first trial or its session id changes. */
  predicate StartsSession(session: seq<int>, t: nat)
    requires t < |session|
  {
    t == 0 || session[t] != session[t - 1]
  }

  // Column helpers (their module is not part of this model; these are the minimal definitions
  // their uses here call for)

  /** `remap_values(column, mapping)`: values in the mapping are replaced, the others kept. */
  function RemapValues(c: seq<int>, mapping: map<int, int>): (r: seq<int>)
    ensures |r| == |c|
    ensures forall t :: 0 <= t < |c| ==> r[t] == if c[t] in mapping then mapping[c[t]] else c[t]
  {
    seq(|c|, t requires 0 <= t < |c| => if c[t] in mapping then mapping[c[t]] else c[t])
  }

  /**
   * `remap_values` makes one pass: a value whose image is itself a key keeps that image, so
   * remapping twice differs from remapping once wherever the two images differ.
   */
  lemma RemapOnePass(c: seq<int>, mapping: map<int, int>, t: nat)
    requires t < |c| && c[t] in mapping && mapping[c[t]] in mapping
    requires mapping[mapping[c[t]]] != mapping[c[t]]
    ensures RemapValues(c, mapping)[t] == mapping[c[t]]
    ensures RemapValues(RemapValues(c, mapping), mapping)[t] != RemapValues(c, mapping)[t]
  {
  }

  /** `shift_n_trials_up(column, session, shift_size=1)`: the previous trial's value, 0 at a session start. */
  function ShiftNTrialsUp<T>(c: seq<T>, session: seq<int>, zero: T): (r: seq<T>)
    requires |c| == |session|
    ensures |r| == |c|
  {
    seq(|c|, t requires 0 <= t < |c| => if StartsSession(session, t) then zero else c[t - 1])
  }

  /** `mask_prev_event(column, event, session)`: 0 where the previous trial of the session had the event. */
  function MaskPrevEvent<T>(c: seq<T>, event: seq<int>, session: seq<int>, zero: T): (r: seq<T>)
    requires |c| == |event| == |session|
    ensures |r| == |c|
  {
    seq(|c|, t requires 0 <= t < |c| =>
      if !StartsSession(session, t) && event[t - 1] != 0 then zero else c[t])
  }

  /** `binarize(column, operator.gt, value)`. */
  function Binarize(c: seq<int>, value: int): (r: seq<int>)
    ensures |r| == |c|
  {
    seq(|c|, t requires 0 <= t < |c| => if c[t] > value then 1 else 0)
  }

  /** The operations `combine_two_cols` is called with. */
  datatype Combine = Mean | Add | Mul

  /** `combine_two_cols(a, b, operation)`, row by row. */
  function CombineTwoCols(a: seq<real>, b: seq<real>, op: Combine): (r: seq<real>)
    requires |a| == |b|
    ensures |r| == |a|
  {
    seq(|a|, t requires 0 <= t < |a| =>
      match op
      case Mean => (a[t] + b[t]) / 2.0
      case Add => a[t] + b[t]
      case Mul => Numerics.Mul(a[t], b[t]))
  }

  /**
   * `standardize(column)`: `(x - mean) / std` with the sample standard deviation; a column
   * with fewer than two values or no spread becomes all zeros.
   */
  function Standardize(c: seq<real>, fns: RealFns): (r: seq<real>)
    requires fns.Valid()
    ensures |r| == |c|
  {
    var n := |c|;
    if n < 2 then seq(n, t => 0.0)
    else
      var mean := Sum(c) / n as real;
      var variance := SumSquares(seq(n, i requires 0 <= i < n => c[i] - mean)) / (n - 1) as real;
      if variance == 0.0 then seq(n, t => 0.0)
      else seq(n, t requires 0 <= t < n => (c[t] - mean) / fns.sqrt(variance))
  }

  /** `exp_filter_column(column, session, tau)`: the exponential filter restarted in every session. */
  function ExpFilterColumn(c: seq<real>, session: seq<int>, tau: int, fns: RealFns): (r: seq<real>)
    requires |c| == |session|
    ensures |r| == |c|
  {
    SessionConvolve(c, session, Kernel(tau, 5, fns))
  }

  /**
   * A non-negative column stays non-negative under the filter, and at a session start the
   * filter passes the trial's own value through (the kernel starts at 1).
   */
  lemma ExpFilterColumnAt(c: seq<real>, session: seq<int>, tau: int, fns: RealFns, t: nat)
    requires |c| == |session| && fns.Valid() && tau > 0 && t < |c|
    requires forall i :: 0 <= i < |c| ==> c[i] >= 0.0
    ensures ExpFilterColumn(c, session, tau, fns)[t] >= 0.0
    ensures StartsSession(session, t) ==> ExpFilterColumn(c, session, tau, fns)[t] == c[t]
  {
    var k := Kernel(tau, 5, fns);
    KernelShape(tau, 5, fns);
    LaggedNonNegative(c, k, t, Window(k, t, SessionStart(session, t)));
    if StartsSession(session, t) {
      SessionConvolveAtStart(c, session, k, t);
    }
  }

  function AsReals(c: seq<int>): (r: seq<real>)
    ensures |r| == |c| && forall t :: 0 <= t < |c| ==> r[t] == c[t] as real
  {
    seq(|c|, t requires 0 <= t < |c| => c[t] as real)
  }

  // Features

  /** `prev_avg_stim`: the standardized stimulus mean of the previous trial, optionally violation-masked. */
  function PrevAvgStim(df: Trials, maskPrevViolation: bool, fns: RealFns): (r: seq<real>)
    requires df.Valid() && fns.Valid()
    ensures |r| == df.Rows()
  {
    var avg := CombineTwoCols(df.sA, df.sB, Mean);
    var prev := ShiftNTrialsUp(Standardize(avg, fns), df.session, 0.0);
    if maskPrevViolation then MaskPrevEvent(prev, df.violation, df.session, 0.0) else prev
  }

  /**
   * `prev_avg_stim` is 0 at a session start; mid-session it is the previous trial's standardized
   * mean, except that with the mask on it is 0 after a violation.
   */
  lemma PrevAvgStimAt(df: Trials, maskPrevViolation: bool, fns: RealFns, t: nat)
    requires df.Valid() && fns.Valid() && t < df.Rows()
    ensures var r := PrevAvgStim(df, maskPrevViolation, fns);
      var z := Standardize(CombineTwoCols(df.sA, df.sB, Mean), fns);
      && (StartsSession(df.session, t) ==> r[t] == 0.0)
      && (!StartsSession(df.session, t) && maskPrevViolation && df.violation[t - 1] != 0 ==> r[t] == 0.0)
      && (!StartsSession(df.session, t) && (!maskPrevViolation || df.violation[t - 1] == 0) ==> r[t] == z[t - 1])
  {
  }

  /** `prev_correct_side`: the previous correct side with left (0) as -1, zeroed after a violation. */
  function PrevCorrectSide(df: Trials): (r: seq<int>)
    requires df.Valid()
    ensures |r| == df.Rows()
  {
    var correct := RemapValues(df.correctSide, map[0 := -1]);
    var prev := ShiftNTrialsUp(correct, df.session, 0);
    MaskPrevEvent(prev, df.violation, df.session, 0)
  }

  /**
   * Mid-session and after a non-violation trial, `prev_correct_side` is -1 or 1 for a previous
   * left or right side; at a session start or after a violation it is 0.
   */
  lemma PrevCorrectSideAt(df: Trials, t: nat)
    requires df.Valid() && t < df.Rows()
    ensures var r := PrevCorrectSide(df);
      && (StartsSession(df.session, t) || df.violation[t - 1] != 0 ==> r[t] == 0)
      && (!StartsSession(df.session, t) && df.violation[t - 1] == 0 ==>
            r[t] == if df.correctSide[t - 1] == 0 then -1 else df.correctSide[t - 1])
  {
  }

  /** `prev_choice`: the previous choice as left -1, right 1, violation 0; never violation-masked. */
  function PrevChoice(df: Trials): (r: seq<int>)
    requires df.Valid()
    ensures |r| == df.Rows()
  {
    ShiftNTrialsUp(RemapValues(df.choice, map[0 := -1, 2 := 0]), df.session, 0)
  }

  /** Every choice is left (0), right (1) or violation (2). */
  predicate ChoicesCoded(choice: seq<int>) {
    forall t :: 0 <= t < |choice| ==> 0 <= choice[t] <= 2
  }

  /**
   * `prev_choice`'s mapping codes left, right and violation as -1, 1 and 0 in one pass: a
   * violation becomes 0 and is not carried on to -1, as a second pass would carry it.
   */
  lemma PrevChoiceRemap(c: seq<int>)
    requires ChoicesCoded(c)
    ensures forall t :: 0 <= t < |c| ==> RemapValues(c, map[0 := -1, 2 := 0])[t] == [-1, 1, 0][c[t]]
    ensures forall t :: 0 <= t < |c| && c[t] == 2 ==>
      RemapValues(RemapValues(c, map[0 := -1, 2 := 0]), map[0 := -1, 2 := 0])[t] == -1
  {
  }

  /**
   * `prev_choice` takes values in {-1, 0, 1}: mid-session it codes the previous choice, whatever
   * the violation flag says, and it is 0 at a session start.
   */
  lemma PrevChoiceValues(df: Trials)
    requires df.Valid() && ChoicesCoded(df.choice)
    ensures forall t :: 0 <= t < df.Rows() ==> PrevChoice(df)[t] in {-1, 0, 1}
    ensures forall t :: 0 <= t < df.Rows() ==>
      PrevChoice(df)[t] == if StartsSession(df.session, t) then 0
                          else [-1, 1, 0][df.choice[t - 1]]
  {
  }

  /** `prev_violation`: 1 exactly when the previous trial of the session was a violation (choice 2). */
  function PrevViolation(df: Trials): (r: seq<int>)
    requires df.Valid()
    ensures |r| == df.Rows()
  {
    ShiftNTrialsUp(RemapValues(df.choice, map[1 := 0, 2 := 1]), df.session, 0)
  }

  /**
   * `prev_violation`'s mapping codes left and right as 0 and a violation as 1 in one pass: a
   * violation becomes 1 and is not carried on to 0, as a second pass would carry it.
   */
  lemma PrevViolationRemap(c: seq<int>)
    requires ChoicesCoded(c)
    ensures forall t :: 0 <= t < |c| ==> RemapValues(c, map[1 := 0, 2 := 1])[t] == [0, 0, 1][c[t]]
    ensures forall t :: 0 <= t < |c| && c[t] == 2 ==>
      RemapValues(RemapValues(c, map[1 := 0, 2 := 1]), map[1 := 0, 2 := 1])[t] == 0
  {
  }

  /**
   * `prev_violation` takes values in {0, 1}: 1 exactly mid-session after a violation. The
   * mapping is applied in one pass, so a violation (2) becomes 1 and is not remapped again by 1 -> 0.
   */
  lemma PrevViolationValues(df: Trials)
    requires df.Valid() && ChoicesCoded(df.choice)
    ensures forall t :: 0 <= t < df.Rows() ==> PrevViolation(df)[t] in {0, 1}
    ensures forall t :: 0 <= t < df.Rows() ==>
      (PrevViolation(df)[t] == 1 <==> !StartsSession(df.session, t) && df.choice[t - 1] == 2)
  {
  }

  /** `prev_trial_not_started`: 1 when `n_prev_trial_not_started > 0`, else 0. */
  function PrevTrialNotStarted(df: Trials): (r: seq<int>)
    requires df.Valid()
    ensures |r| == df.Rows()
    ensures forall t :: 0 <= t < |r| ==> r[t] in {0, 1} && (r[t] == 1 <==> df.nPrevTrialNotStarted[t] > 0)
  {
    Binarize(df.nPrevTrialNotStarted, 0)
  }

  /** `filtered_prev_viol`: `prev_violation` filtered by the exponential kernel within each session. */
  function FilteredPrevViol(df: Trials, tau: int, fns: RealFns): (r: seq<real>)
    requires df.Valid()
    ensures |r| == df.Rows()
  {
    ExpFilterColumn(AsReals(PrevViolation(df)), df.session, tau, fns)
  }

  /**
   * The filtered previous-violation column is non-negative and is 0 at every session start:
   * no violation history crosses a session boundary.
   */
  lemma FilteredPrevViolAt(df: Trials, tau: int, fns: RealFns, t: nat)
    requires df.Valid() && fns.Valid() && ChoicesCoded(df.choice) && tau > 0 && t < df.Rows()
    ensures FilteredPrevViol(df, tau, fns)[t] >= 0.0
    ensures StartsSession(df.session, t) ==> FilteredPrevViol(df, tau, fns)[t] == 0.0
  {
    var x := AsReals(PrevViolation(df));
    PrevViolationValues(df);
    assert forall i :: 0 <= i < |x| ==> x[i] >= 0.0;
    ExpFilterColumnAt(x, df.session, tau, fns, t);
  }

  /** `filtered_prev_disengaged` without pre-filter binarization: not-started plus violation, filtered. */
  function FilteredPrevDisengaged(df: Trials, tau: int, fns: RealFns): (r: seq<real>)
    requires df.Valid()
    ensures |r| == df.Rows()
  {
    var combined := CombineTwoCols(AsReals(PrevTrialNotStarted(df)), AsReals(PrevViolation(df)), Add);
    ExpFilterColumn(combined, df.session, tau, fns)
  }

  /**
   * The filtered disengagement column is non-negative; at a session start no violation history
   * reaches it, so it is exactly the trial's own not-started flag.
   */
  lemma FilteredPrevDisengagedAt(df: Trials, tau: int, fns: RealFns, t: nat)
    requires df.Valid() && fns.Valid() && ChoicesCoded(df.choice) && tau > 0 && t < df.Rows()
    ensures FilteredPrevDisengaged(df, tau, fns)[t] >= 0.0
    ensures StartsSession(df.session, t) ==>
      FilteredPrevDisengaged(df, tau, fns)[t] == PrevTrialNotStarted(df)[t] as real
  {
    var x := CombineTwoCols(AsReals(PrevTrialNotStarted(df)), AsReals(PrevViolation(df)), Add);
    PrevViolationValues(df);
    assert forall i :: 0 <= i < |x| ==> x[i] >= 0.0;
    ExpFilterColumnAt(x, df.session, tau, fns, t);
  }

  /** The numeric columns of the trial table, by their names. */
  const NumericColumns: set<string> :=
    {"session", "s_a", "s_b", "correct_side", "choice", "violation", "n_prev_trial_not_started"}

  /** pandas' refusal to take the mean of the string column `animal_id`. */
  const StringMean: Error := TypeError("Could not convert string to numeric")

  /**
   * `df[name]` on the trial table: every numeric column is selected (as reals); `animal_id`
   * is selected too, but `standardize` cannot average its strings; any other name is a KeyError.
   */
  function Stimulus(df: Trials, stimName: string): (r: Result<seq<real>, Error>)
    requires df.Valid()
    ensures r.Success? <==> stimName in NumericColumns
    ensures r.Success? ==> |r.value| == df.Rows()
    ensures stimName == "s_a" ==> r == Success(df.sA)
    ensures stimName == "s_b" ==> r == Success(df.sB)
    ensures stimName == "choice" ==> r == Success(AsReals(df.choice))
    ensures r.Failure? ==> r.error == if stimName == "animal_id" then StringMean else KeyError(stimName)
  {
    if stimName == "session" then Success(AsReals(df.session))
    else if stimName == "s_a" then Success(df.sA)
    else if stimName == "s_b" then Success(df.sB)
    else if stimName == "correct_side" then Success(AsReals(df.correctSide))
    else if stimName == "choice" then Success(AsReals(df.choice))
    else if stimName == "violation" then Success(AsReals(df.violation))
    else if stimName == "n_prev_trial_not_started" then Success(AsReals(df.nPrevTrialNotStarted))
    else if stimName == "animal_id" then Failure(StringMean)
    else Failure(KeyError(stimName))
  }

  /**
   * `stim_filt_viol_intrx`: the standardized selected column (a stimulus, `s_a` or `s_b`, by
   * design) times the filtered previous violation, row by row.
   */
  function StimFiltViolIntrx(df: Trials, stimName: string, tau: int, fns: RealFns): (r: Result<seq<real>, Error>)
    requires df.Valid() && fns.Valid()
    ensures r.Success? <==> stimName in NumericColumns
    ensures r.Failure? ==> r.error == if stimName == "animal_id" then StringMean else KeyError(stimName)
    ensures r.Success? ==> |r.value| == df.Rows()
  {
    match Stimulus(df, stimName)
    case Failure(e) => Failure(e)
    case Success(stim) => Success(CombineTwoCols(Standardize(stim, fns), FilteredPrevViol(df, tau, fns), Mul))
  }

  /** The interaction is the product of its two factors, row by row. */
  lemma StimFiltViolIntrxAt(df: Trials, stimName: string, tau: int, fns: RealFns, t: nat)
    requires df.Valid() && fns.Valid() && t < df.Rows()
    requires stimName in NumericColumns
    ensures StimFiltViolIntrx(df, stimName, tau, fns).value[t]
      == Standardize(Stimulus(df, stimName).value, fns)[t] * FilteredPrevViol(df, tau, fns)[t]
  {
  }

  /** So the interaction vanishes at every session start, where the filtered history is 0. */
  lemma StimFiltViolIntrxZeroAtStart(df: Trials, stimName: string, tau: int, fns: RealFns, t: nat)
    requires df.Valid() && fns.Valid() && ChoicesCoded(df.choice) && tau > 0 && t < df.Rows()
    requires stimName in NumericColumns && StartsSession(df.session, t)
    ensures StimFiltViolIntrx(df, stimName, tau, fns).value[t] == 0.0
  {
    StimFiltViolIntrxAt(df, stimName, tau, fns, t);
    FilteredPrevViolAt(df, tau, fns, t);
  }

  // Labels

  /** A label a choice is mapped to: a class, or NaN, which marks the row to be dropped. */
  datatype Label = Class(c: int) | Dropped

  datatype LabelSpec = LabelSpec(columnName: string, mapping: map<int, Label>)

  /** `multi_choice_labels`: left, right and violation are classes 0, 1 and 2. */
  function MultiChoiceLabels(): (r: LabelSpec)
    ensures r.columnName == "choice" && r.mapping.Keys == {0, 1, 2}
    ensures forall c :: c in r.mapping ==> r.mapping[c] == Class(c)
  {
    LabelSpec("choice", map[0 := Class(0), 1 := Class(1), 2 := Class(2)])
  }

  /** `binary_choice_labels`: left and right are classes 0 and 1; a violation is NaN, a dropped row. */
  function BinaryChoiceLabels(): (r: LabelSpec)
    ensures r.columnName == "choice" && r.mapping.Keys == {0, 1, 2}
    ensures forall c :: c in r.mapping ==> (r.mapping[c] == Dropped <==> c == 2)
    ensures forall c :: c in r.mapping && c != 2 ==> r.mapping[c] == Class(c)
  {
    LabelSpec("choice", map[0 := Class(0), 1 := Class(1), 2 := Dropped])
  }

  /** The rows a label spec keeps: those whose choice is mapped to a class. */
  function KeptRows(choice: seq<int>, spec: LabelSpec): (r: seq<nat>)
    ensures forall i :: 0 <= i < |r| ==> r[i] < |choice|
  {
    if |choice| == 0 then []
    else
      var n := |choice| - 1;
      var init := KeptRows(choice[..n], spec);
      var last := choice[n];
      if last in spec.mapping && spec.mapping[last].Class? then init + [n] else init
  }

  /** With binary labels exactly the non-violation trials are kept, in order. */
  lemma {:induction false} BinaryKeepsNonViolations(choice: seq<int>)
    requires ChoicesCoded(choice)
    ensures forall t :: 0 <= t < |choice| ==> (t in KeptRows(choice, BinaryChoiceLabels()) <==> choice[t] != 2)
    ensures forall i, j :: 0 <= i < j < |KeptRows(choice, BinaryChoiceLabels())| ==>
              KeptRows(choice, BinaryChoiceLabels())[i] < KeptRows(choice, BinaryChoiceLabels())[j]
  {
    if |choice| > 0 {
      var n := |choice| - 1;
      BinaryKeepsNonViolations(choice[..n]);
      forall t | 0 <= t < n ensures choice[..n][t] == choice[t] {
      }
    }
  }

  /** With multi-class labels every trial is kept. */
  lemma {:induction false} MultiKeepsAll(choice: seq<int>)
    requires ChoicesCoded(choice)
    ensures KeptRows(choice, MultiChoiceLabels()) == seq(|choice|, t => t)
  {
    if |choice| > 0 {
      var n := |choice| - 1;
      MultiKeepsAll(choice[..n]);
      assert seq(n + 1, t => t) == seq(n, t => t) + [n];
    }
  }

  // Construction checks

  /** `run_init_tests`: the trial table must hold exactly one distinct animal id. */
  function RunInitTests(animalId: seq<string>): (r: Option<Error>)
  {
    if |set a | a in animalId| == 1 then None else Some(AssertionError("More than 1 animal in dataframe!"))
  }

  /** The check passes exactly for a non-empty table whose rows all name the same animal. */
  lemma RunInitTestsPasses(animalId: seq<string>)
    ensures RunInitTests(animalId).None? <==>
      |animalId| > 0 && forall t :: 0 <= t < |animalId| ==> animalId[t] == animalId[0]
  {
    var ids := set a | a in animalId;
    if |animalId| > 0 && forall t :: 0 <= t < |animalId| ==> animalId[t] == animalId[0] {
      assert ids == {animalId[0]};
    }
    if |ids| == 1 {
      var a :| a in ids;
      assert |ids - {a}| == 0;
      forall t | 0 <= t < |animalId| ensures animalId[t] == animalId[0] {
        assert animalId[t] in ids && animalId[0] in ids;
      }
    }
  }
}
