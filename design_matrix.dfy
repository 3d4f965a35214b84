/**
 * The older, vectorised design-matrix builder (src/features/generate_design_matrix.py):
 * stimulus and lagged history regressors with session-boundary and violation masks, one-hot
 * choice labels, and exponential-kernel history columns appended to the design matrix.
 */
module DesignMatrix {
  import opened Wrappers
  import opened Numerics
  import opened Strings
  import opened Frames
  import opened Convolution

  /** The trial-table columns the builder reads. */
  predicate HasTrialColumns(df: map<string, Column>, rows: nat) {
    && "s_a" in df && "s_b" in df && "session" in df
    && "violation" in df && "correct_side" in df && "choice" in df
    && |df["s_a"]| == rows && |df["s_b"]| == rows && |df["session"]| == rows
    && |df["violation"]| == rows && |df["correct_side"]| == rows && |df["choice"]| == rows
  }

  /** `correct_side.replace({0: -1}).astype(int)` of one value. */
  function CorrectCode(c: real): int {
    Trunc(if c == 0.0 then -1.0 else c)
  }

  /** `choice.replace({0: -1}).fillna(0).astype(int)` of one cell: a missing choice (a violation) is 0. */
  function ChoiceCode(c: Cell): int {
    match c
    case NaN => 0
    case Num(v) => Trunc(if v == 0.0 then -1.0 else v)
  }

  /** `df["session"].diff() == 0`: true exactly when trial t continues the session of trial t - 1. */
  function SessionBoundariesMask(session: Column): (m: seq<bool>)
    ensures |m| == |session|
  {
    DiffIsZero(session)
  }

  /** `(violation.shift() * mask).fillna(0)`. */
  function PrevViolation(violation: Column, mask: seq<bool>): (r: Column)
    requires |mask| == |violation|
    ensures |r| == |violation|
  {
    FillNa(Times(Shift(violation), mask), 0.0)
  }

  /** The lagged stimulus mean, z-scored, then multiplied by both masks. */
  function PrevSoundAvg(sa: Column, sb: Column, mask: seq<bool>, pvMask: seq<bool>, fns: RealFns): (r: Column)
    requires fns.Valid() && |sa| == |sb| == |mask| == |pvMask|
    ensures |r| == |sa|
  {
    Times(Times(ZScore(RowMean(Shift(sa), Shift(sb)), fns), mask), pvMask)
  }

  /** The lagged remapped correct side, multiplied by both masks. */
  function PrevCorrect(correct: Column, mask: seq<bool>, pvMask: seq<bool>): (r: Column)
    requires NoNaN(correct) && |correct| == |mask| == |pvMask|
    ensures |r| == |correct|
  {
    Times(Times(Shift(AsInt(Replace(correct, 0.0, -1.0))), mask), pvMask)
  }

  /** The lagged remapped choice, multiplied by the session mask only. */
  function PrevChoice(choice: Column, mask: seq<bool>): (r: Column)
    requires |choice| == |mask|
    ensures |r| == |choice|
  {
    Times(Shift(AsInt(FillNa(Replace(choice, 0.0, -1.0), 0.0))), mask)
  }

  /** The columns of the base design matrix, in order. */
  const BaseColumns: seq<string> := ["bias", "s_a", "s_b", "prev_sound_avg", "prev_correct", "prev_choice"]

  /** The six base column names differ pairwise, each told apart by one character. */
  lemma BaseColumnsDistinct()
    ensures "bias" != "s_a" && "bias" != "s_b" && "bias" != "prev_sound_avg"
    ensures "bias" != "prev_correct" && "bias" != "prev_choice"
    ensures "s_a" != "s_b" && "s_a" != "prev_sound_avg" && "s_a" != "prev_correct" && "s_a" != "prev_choice"
    ensures "s_b" != "prev_sound_avg" && "s_b" != "prev_correct" && "s_b" != "prev_choice"
    ensures "prev_sound_avg" != "prev_correct" && "prev_sound_avg" != "prev_choice"
    ensures "prev_correct" != "prev_choice"
  {
    assert "bias"[0] == 'b' && "s_a"[0] == 's' && "s_b"[0] == 's';
    assert "prev_sound_avg"[0] == 'p' && "prev_correct"[0] == 'p' && "prev_choice"[0] == 'p';
    assert "s_a"[2] != "s_b"[2];
    assert "prev_sound_avg"[5] != "prev_correct"[5] && "prev_sound_avg"[5] != "prev_choice"[5];
    assert "prev_correct"[6] != "prev_choice"[6];
  }

  /** The base design matrix, column by column, after the final `fillna(0)`. */
  function BaseDesign(df: map<string, Column>, rows: nat, fns: RealFns): map<string, Column>
    requires fns.Valid() && HasTrialColumns(df, rows) && NoNaN(df["correct_side"])
  {
    var mask := SessionBoundariesMask(df["session"]);
    var pvMask := IsZero(PrevViolation(df["violation"], mask));
    map[
      "bias" := Ones(rows),
      "s_a" := FillNa(ZScore(df["s_a"], fns), 0.0),
      "s_b" := FillNa(ZScore(df["s_b"], fns), 0.0),
      "prev_sound_avg" := FillNa(PrevSoundAvg(df["s_a"], df["s_b"], mask, pvMask, fns), 0.0),
      "prev_correct" := FillNa(PrevCorrect(df["correct_side"], mask, pvMask), 0.0),
      "prev_choice" := FillNa(PrevChoice(df["choice"], mask), 0.0)
    ]
  }

  /** Trial t starts a session: it is the first trial, or its session id differs from trial t - 1's. */
  predicate SessionStart(session: Column, t: nat)
    requires t < |session|
  {
    t == 0 || session[t] != session[t - 1]
  }

  /** Trial t - 1 was a violation: its violation flag is a non-zero number. */
  predicate PrevWasViolation(violation: Column, t: nat)
    requires 0 < t < |violation|
  {
    violation[t - 1].Num? && violation[t - 1].v != 0.0
  }

  /** The session mask is false at trial 0 and wherever the session id changes. */
  lemma SessionMaskFalseAtStarts(session: Column, t: nat)
    requires t < |session| && SessionStart(session, t)
    ensures !SessionBoundariesMask(session)[t]
  {
    if t > 0 && session[t].Num? && session[t - 1].Num? {
      assert session[t].v != session[t - 1].v;
    }
  }

  /**
   * At a session start the three lagged regressors are 0.
   */
  lemma BaseDesignZeroAtSessionStart(df: map<string, Column>, rows: nat, fns: RealFns, t: nat)
    requires fns.Valid() && HasTrialColumns(df, rows) && NoNaN(df["correct_side"])
    requires t < rows && SessionStart(df["session"], t)
    ensures BaseDesign(df, rows, fns)["prev_sound_avg"][t] == Num(0.0)
    ensures BaseDesign(df, rows, fns)["prev_correct"][t] == Num(0.0)
    ensures BaseDesign(df, rows, fns)["prev_choice"][t] == Num(0.0)
  {
    SessionMaskFalseAtStarts(df["session"], t);
  }

  /**
   * Within a session, after a violation, the lagged stimulus and correct-side regressors are 0,
   * while the lagged choice is not masked: it is the remapped choice of trial t - 1.
   */
  lemma BaseDesignAfterViolation(df: map<string, Column>, rows: nat, fns: RealFns, t: nat)
    requires fns.Valid() && HasTrialColumns(df, rows) && NoNaN(df["correct_side"])
    requires 0 < t < rows && !SessionStart(df["session"], t)
    requires df["session"][t].Num? && PrevWasViolation(df["violation"], t)
    ensures BaseDesign(df, rows, fns)["prev_sound_avg"][t] == Num(0.0)
    ensures BaseDesign(df, rows, fns)["prev_correct"][t] == Num(0.0)
    ensures BaseDesign(df, rows, fns)["prev_choice"][t] == Num(ChoiceCode(df["choice"][t - 1]) as real)
  {
    var mask := SessionBoundariesMask(df["session"]);
    assert mask[t];
    assert Shift(df["violation"])[t] == df["violation"][t - 1];
    var pv := PrevViolation(df["violation"], mask);
    assert pv[t] == df["violation"][t - 1];
    assert Shift(AsInt(FillNa(Replace(df["choice"], 0.0, -1.0), 0.0)))[t]
        == AsInt(FillNa(Replace(df["choice"], 0.0, -1.0), 0.0))[t - 1];
  }

  /**
   * Within a session and not after a violation, the lagged correct side and choice are the
   * remapped values of trial t - 1.
   */
  lemma BaseDesignMidSession(df: map<string, Column>, rows: nat, fns: RealFns, t: nat)
    requires fns.Valid() && HasTrialColumns(df, rows) && NoNaN(df["correct_side"])
    requires 0 < t < rows && !SessionStart(df["session"], t)
    requires df["session"][t].Num? && !PrevWasViolation(df["violation"], t)
    ensures BaseDesign(df, rows, fns)["prev_correct"][t] == Num(CorrectCode(df["correct_side"][t - 1].v) as real)
    ensures BaseDesign(df, rows, fns)["prev_choice"][t] == Num(ChoiceCode(df["choice"][t - 1]) as real)
  {
    var mask := SessionBoundariesMask(df["session"]);
    assert mask[t];
    var pv := PrevViolation(df["violation"], mask);
    assert Shift(df["violation"])[t] == df["violation"][t - 1];
    assert pv[t] == Num(0.0);
    assert Shift(AsInt(Replace(df["correct_side"], 0.0, -1.0)))[t]
        == AsInt(Replace(df["correct_side"], 0.0, -1.0))[t - 1];
    assert Shift(AsInt(FillNa(Replace(df["choice"], 0.0, -1.0), 0.0)))[t]
        == AsInt(FillNa(Replace(df["choice"], 0.0, -1.0), 0.0))[t - 1];
  }

  /** The remaps: correct side 0 -> -1 and 1 -> 1; choice 0 -> -1, 1 -> 1 and missing -> 0. */
  lemma CodesOnBinaryValues()
    ensures CorrectCode(0.0) == -1 && CorrectCode(1.0) == 1
    ensures ChoiceCode(Num(0.0)) == -1 && ChoiceCode(Num(1.0)) == 1 && ChoiceCode(NaN) == 0
  {
  }

  /**
   * The bias column is constant 1, every column has one value per trial and no NaN is left.
   */
  lemma BaseDesignShape(df: map<string, Column>, rows: nat, fns: RealFns)
    requires fns.Valid() && HasTrialColumns(df, rows) && NoNaN(df["correct_side"])
    ensures BaseDesign(df, rows, fns).Keys == set n | n in BaseColumns
    ensures forall t :: 0 <= t < rows ==> BaseDesign(df, rows, fns)["bias"][t] == Num(1.0)
    ensures forall n :: n in BaseDesign(df, rows, fns) ==>
              |BaseDesign(df, rows, fns)[n]| == rows && NoNaN(BaseDesign(df, rows, fns)[n])
  {
    var mask := SessionBoundariesMask(df["session"]);
    var pvMask := IsZero(PrevViolation(df["violation"], mask));
    var bias := Ones(rows);
    assert NoNaN(bias) by {
      forall t | 0 <= t < rows ensures bias[t] == Num(1.0) { }
    }
    BaseDisplayShape(bias,
      FillNa(ZScore(df["s_a"], fns), 0.0), FillNa(ZScore(df["s_b"], fns), 0.0),
      FillNa(PrevSoundAvg(df["s_a"], df["s_b"], mask, pvMask, fns), 0.0),
      FillNa(PrevCorrect(df["correct_side"], mask, pvMask), 0.0),
      FillNa(PrevChoice(df["choice"], mask), 0.0), rows);
  }

  /** A display over the base columns whose six columns each have `rows` values and no NaN. */
  lemma BaseDisplayShape(c0: Column, c1: Column, c2: Column, c3: Column, c4: Column, c5: Column, rows: nat)
    requires |c0| == rows && NoNaN(c0) && |c1| == rows && NoNaN(c1) && |c2| == rows && NoNaN(c2)
    requires |c3| == rows && NoNaN(c3) && |c4| == rows && NoNaN(c4) && |c5| == rows && NoNaN(c5)
    ensures
      var m := map["bias" := c0, "s_a" := c1, "s_b" := c2, "prev_sound_avg" := c3, "prev_correct" := c4, "prev_choice" := c5];
      && m.Keys == (set n | n in BaseColumns)
      && m["bias"] == c0
      && forall n :: n in m ==> |m[n]| == rows && NoNaN(m[n])
  {
    BaseColumnsDistinct();
    var m := map["bias" := c0, "s_a" := c1, "s_b" := c2, "prev_sound_avg" := c3, "prev_correct" := c4, "prev_choice" := c5];
    forall n | n in m ensures |m[n]| == rows && NoNaN(m[n]) { }
  }

  /** Two maps over exactly the base columns that agree on each of them are equal. */
  lemma SameBaseColumns(a: map<string, Column>, b: map<string, Column>)
    requires a.Keys == b.Keys == set n | n in BaseColumns
    requires a["bias"] == b["bias"] && a["s_a"] == b["s_a"] && a["s_b"] == b["s_b"]
    requires a["prev_sound_avg"] == b["prev_sound_avg"] && a["prev_correct"] == b["prev_correct"]
    requires a["prev_choice"] == b["prev_choice"]
    ensures a == b
  {
  }

  lemma BiasIsNew()
    ensures "bias" !in ["s_a", "s_b", "prev_violation", "prev_sound_avg", "prev_correct", "prev_choice"]
  {
  }

  lemma DropPrevViolationName()
    ensures Without(["bias", "s_a", "s_b", "prev_violation", "prev_sound_avg", "prev_correct", "prev_choice"],
                    "prev_violation") == BaseColumns
  {
    var pv := "prev_violation";
    assert "bias"[0] != pv[0] && "s_a"[0] != pv[0] && "s_b"[0] != pv[0];
    assert "prev_sound_avg"[5] != pv[5] && "prev_correct"[5] != pv[5] && "prev_choice"[5] != pv[5];
    DropFourth("bias", "s_a", "s_b", pv, "prev_sound_avg", "prev_correct", "prev_choice");
  }

  /** Dropping the fourth of seven names, none of the others equal to it. */
  lemma DropFourth(a: string, b: string, c: string, d: string, e: string, f: string, g: string)
    requires a != d && b != d && c != d && e != d && f != d && g != d
    ensures Without([a, b, c, d, e, f, g], d) == [a, b, c, e, f, g]
  {
    var t := [e, f, g];
    SevenAsConcat(a, b, c, d, t);
    WithoutAbsent(t, d);
    WithoutCons(d, t, d);
    WithoutCons(c, [d] + t, d);
    WithoutCons(b, [c] + ([d] + t), d);
    WithoutCons(a, [b] + ([c] + ([d] + t)), d);
  }

  /** A seven-name display as the nested concatenation `Without` unfolds along. */
  lemma SevenAsConcat(a: string, b: string, c: string, d: string, t: seq<string>)
    requires |t| == 3
    ensures [a, b, c, d, t[0], t[1], t[2]] == [a] + ([b] + ([c] + ([d] + t)))
    ensures [a] + ([b] + ([c] + t)) == [a, b, c, t[0], t[1], t[2]]
  {
  }

  /** The columns `generate_base_design_matrix` has built just before its `fillna(0)`. */
  const RawColumns: seq<string> := ["s_a", "s_b", "prev_violation", "prev_sound_avg", "prev_correct", "prev_choice"]

  /** Those columns' values, the helper `prev_violation` column included. */
  function RawDesign(d: map<string, Column>, rows: nat, fns: RealFns): map<string, Column>
    requires fns.Valid() && HasTrialColumns(d, rows) && NoNaN(d["correct_side"])
  {
    var mask := SessionBoundariesMask(d["session"]);
    var pvMask := IsZero(PrevViolation(d["violation"], mask));
    map[
      "s_a" := ZScore(d["s_a"], fns),
      "s_b" := ZScore(d["s_b"], fns),
      "prev_violation" := PrevViolation(d["violation"], mask),
      "prev_sound_avg" := PrevSoundAvg(d["s_a"], d["s_b"], mask, pvMask, fns),
      "prev_correct" := PrevCorrect(d["correct_side"], mask, pvMask),
      "prev_choice" := PrevChoice(d["choice"], mask)
    ]
  }

  /** The column order that the assignments of `generate_base_design_matrix` produce. */
  lemma RawNamesByAssign()
    ensures AddName(AddName(AddName(AddName(AddName(AddName(AddName(AddName(
              [], "s_a"), "s_b"), "prev_violation"),
              "prev_sound_avg"), "prev_sound_avg"), "prev_sound_avg"),
              "prev_correct"), "prev_choice") == RawColumns
  {
    var n2 := ["s_a", "s_b"];
    assert AddName(AddName([], "s_a"), "s_b") == n2;
    var n3 := n2 + ["prev_violation"];
    assert "prev_violation" !in n2;
    var n4 := n3 + ["prev_sound_avg"];
    assert "prev_sound_avg" !in n3;
    assert "prev_sound_avg" in n4 by { assert n4[3] == "prev_sound_avg"; }
    var n5 := n4 + ["prev_correct"];
    assert "prev_correct" !in n4;
    assert "prev_choice" !in n5;
  }

  /** The map the assignments of `generate_base_design_matrix` produce, as one display. */
  lemma RawDataByAssign(a: Column, b: Column, c: Column, p1: Column, p2: Column, p3: Column, e: Column, f: Column)
    ensures map[]["s_a" := a]["s_b" := b]["prev_violation" := c]
              ["prev_sound_avg" := p1]["prev_sound_avg" := p2]["prev_sound_avg" := p3]
              ["prev_correct" := e]["prev_choice" := f]
         == map["s_a" := a, "s_b" := b, "prev_violation" := c, "prev_sound_avg" := p3,
                "prev_correct" := e, "prev_choice" := f]
  {
  }

  /** Filling NaN, inserting the bias and dropping `prev_violation` turns the raw columns into the base design. */
  lemma BaseFromRaw(d: map<string, Column>, rows: nat, fns: RealFns)
    requires fns.Valid() && HasTrialColumns(d, rows) && NoNaN(d["correct_side"])
    ensures FillNaColumns(RawDesign(d, rows, fns), 0.0)["bias" := Ones(rows)] - {"prev_violation"}
         == BaseDesign(d, rows, fns)
  {
    var mask := SessionBoundariesMask(d["session"]);
    var pvMask := IsZero(PrevViolation(d["violation"], mask));
    AssembleBase(ZScore(d["s_a"], fns), ZScore(d["s_b"], fns), PrevViolation(d["violation"], mask),
                 PrevSoundAvg(d["s_a"], d["s_b"], mask, pvMask, fns), PrevCorrect(d["correct_side"], mask, pvMask),
                 PrevChoice(d["choice"], mask), rows);
  }

  /** The fill, the bias insertion and the drop, on any six raw columns. */
  lemma AssembleBase(sa: Column, sb: Column, pv: Column, psa: Column, pc: Column, pch: Column, rows: nat)
    ensures FillNaColumns(map["s_a" := sa, "s_b" := sb, "prev_violation" := pv, "prev_sound_avg" := psa,
                              "prev_correct" := pc, "prev_choice" := pch], 0.0)["bias" := Ones(rows)] - {"prev_violation"}
         == map["bias" := Ones(rows), "s_a" := FillNa(sa, 0.0), "s_b" := FillNa(sb, 0.0),
                "prev_sound_avg" := FillNa(psa, 0.0), "prev_correct" := FillNa(pc, 0.0), "prev_choice" := FillNa(pch, 0.0)]
  {
    var raw := map["s_a" := sa, "s_b" := sb, "prev_violation" := pv, "prev_sound_avg" := psa,
                   "prev_correct" := pc, "prev_choice" := pch];
    var m := FillNaColumns(raw, 0.0)["bias" := Ones(rows)] - {"prev_violation"};
    var expected := map["bias" := Ones(rows), "s_a" := FillNa(sa, 0.0), "s_b" := FillNa(sb, 0.0),
                        "prev_sound_avg" := FillNa(psa, 0.0), "prev_correct" := FillNa(pc, 0.0), "prev_choice" := FillNa(pch, 0.0)];
    var names := {"bias", "s_a", "s_b", "prev_sound_avg", "prev_correct", "prev_choice"};
    assert (set n | n in BaseColumns) == names;
    assert "prev_violation" !in names;
    assert m.Keys == names;
    SameBaseColumns(m, expected);
  }

  /**
   * First half of `generate_base_design_matrix`: assigns the standardized stimuli, the helper
   * `prev_violation` column and the three lagged regressors, in that order, to an empty frame.
   */
  method AddRawColumns(x: Frame, d: map<string, Column>, fns: RealFns)
    requires x.Valid() && x.names == [] && x.data == map[]
    requires fns.Valid() && HasTrialColumns(d, x.rows) && NoNaN(d["correct_side"])
    modifies x
    ensures x.Valid() && x.names == RawColumns
    ensures x.data == RawDesign(d, x.rows, fns)
  {
    var sa, sb, session := d["s_a"], d["s_b"], d["session"];
    var mask := SessionBoundariesMask(session);
    var a := ZScore(sa, fns);
    x.Assign("s_a", a);
    var b := ZScore(sb, fns);
    x.Assign("s_b", b);
    var c := PrevViolation(d["violation"], mask);
    x.Assign("prev_violation", c);
    var pvMask := IsZero(x.data["prev_violation"]);
    var p1 := RowMean(Shift(sa), Shift(sb));
    x.Assign("prev_sound_avg", p1);
    var p2 := ZScore(x.data["prev_sound_avg"], fns);
    x.Assign("prev_sound_avg", p2);
    var p3 := Times(Times(x.data["prev_sound_avg"], mask), pvMask);
    x.Assign("prev_sound_avg", p3);
    var e := PrevCorrect(d["correct_side"], mask, pvMask);
    x.Assign("prev_correct", e);
    var f := PrevChoice(d["choice"], mask);
    x.Assign("prev_choice", f);
    RawNamesByAssign();
    RawDataByAssign(a, b, c, p1, p2, p3, e, f);
  }

  /**
   * `generate_base_design_matrix`: builds the design matrix column by column in a fresh frame,
   * fills NaN with 0, inserts the bias column first and drops the helper `prev_violation` column.
   */
  method GenerateBaseDesignMatrix(df: Frame, returnLabels: bool, fns: RealFns)
    returns (x: Frame, y: Option<seq<seq<int>>>)
    requires df.Valid() && fns.Valid() && HasTrialColumns(df.data, df.rows)
    requires NoNaN(df.data["correct_side"])
    ensures fresh(x) && x.Valid() && x.rows == df.rows
    ensures x.names == BaseColumns
    ensures x.data == BaseDesign(df.data, df.rows, fns)
    ensures y == if returnLabels then Some(OneHotEncodeLabels(df.data["choice"])) else None
  {
    x := new Frame(df.rows);
    AddRawColumns(x, df.data, fns);
    x.FillNaAll(0.0);
    BiasIsNew();
    x.InsertFirst("bias", Ones(df.rows));
    DropPrevViolationName();
    x.Drop("prev_violation");
    BaseFromRaw(df.data, df.rows, fns);
    y := if returnLabels then Some(OneHotEncodeLabels(df.data["choice"])) else None;
  }

  // One-hot labels

  predicate StrictlyIncreasing(s: seq<real>) {
    forall i, j :: 0 <= i < j < |s| ==> s[i] < s[j]
  }

  /** Inserts `v` into a strictly increasing sequence, keeping it strictly increasing. */
  function InsertSorted(v: real, s: seq<real>): (r: seq<real>)
    requires StrictlyIncreasing(s)
    ensures StrictlyIncreasing(r)
    ensures forall x :: x in r <==> x == v || x in s
  {
    if |s| == 0 then [v]
    else if v < s[0] then [v] + s
    else if v == s[0] then s
    else
      assert StrictlyIncreasing(s[1..]) by {
        forall i, j | 0 <= i < j < |s[1..]| ensures s[1..][i] < s[1..][j] {
          assert s[1..][i] == s[i + 1] && s[1..][j] == s[j + 1];
        }
      }
      assert forall x :: x in s <==> x == s[0] || x in s[1..] by {
        assert s == [s[0]] + s[1..];
      }
      var rest := InsertSorted(v, s[1..]);
      assert forall x :: x in rest ==> s[0] < x by {
        forall x | x in rest ensures s[0] < x {
          if x != v {
            var k :| 0 <= k < |s[1..]| && s[1..][k] == x;
            assert s[k + 1] == x;
          }
        }
      }
      var r := [s[0]] + rest;
      assert StrictlyIncreasing(r) by {
        forall i, j | 0 <= i < j < |r| ensures r[i] < r[j] {
          if i == 0 {
            assert r[j] in rest;
          } else {
            assert r[i] == rest[i - 1] && r[j] == rest[j - 1];
          }
        }
      }
      r
  }

  /** The distinct non-NaN values of a column in increasing order: `get_dummies`' categories. */
  function Categories(c: Column): (r: seq<real>)
    ensures StrictlyIncreasing(r)
    ensures forall x :: x in r <==> Num(x) in c
  {
    if |c| == 0 then []
    else
      var init := c[..|c| - 1];
      assert c == init + [c[|c| - 1]];
      var rest := Categories(init);
      if c[|c| - 1].NaN? then rest else InsertSorted(c[|c| - 1].v, rest)
  }

  /** One row of `get_dummies(choice, dummy_na=True)`: a column per category, then the NaN column. */
  function OneHotRow(categories: seq<real>, c: Cell): (r: seq<int>)
    ensures |r| == |categories| + 1
  {
    seq(|categories| + 1, j requires 0 <= j <= |categories| =>
      if j < |categories| then (if c == Num(categories[j]) then 1 else 0)
      else (if c.NaN? then 1 else 0))
  }

  /** `one_hot_encode_labels`: `pd.get_dummies(df["choice"], "choice", dummy_na=True)` as a matrix. */
  function OneHotEncodeLabels(choice: Column): (y: seq<seq<int>>)
    ensures |y| == |choice|
  {
    var categories := Categories(choice);
    seq(|choice|, t requires 0 <= t < |choice| => OneHotRow(categories, choice[t]))
  }

  /**
   * Every label row has exactly one 1, in the column of that trial's choice (or the NaN column
   * for a missing choice), and 0 elsewhere.
   */
  lemma OneHotExactlyOne(choice: Column, t: nat)
    requires t < |choice|
    ensures var y := OneHotEncodeLabels(choice);
      && |y[t]| == |Categories(choice)| + 1
      && exists j :: 0 <= j < |y[t]| && y[t][j] == 1
           && (j == |Categories(choice)| <==> choice[t].NaN?)
           && (j < |Categories(choice)| ==> choice[t] == Num(Categories(choice)[j]))
           && forall i :: 0 <= i < |y[t]| && i != j ==> y[t][i] == 0
  {
    var cats := Categories(choice);
    var row := OneHotEncodeLabels(choice)[t];
    assert row == OneHotRow(cats, choice[t]);
    if choice[t].NaN? {
      assert row[|cats|] == 1;
    } else {
      assert choice[t] in choice;
      var j :| 0 <= j < |cats| && cats[j] == choice[t].v;
      assert row[j] == 1;
      forall i | 0 <= i < |row| && i != j ensures row[i] == 0 {
        if i < |cats| {
          assert cats[i] != cats[j];
        }
      }
    }
  }
  // Exponential-kernel history columns (create_exp_filter)

  /** The name `create_exp_filter` gives the filtered column: `f"{column}_exp_{tau}"`. */
  function FilterName(column: string, tau: int): string {
    column + "_exp_" + IntToString(tau)
  }

  /**
   * Of two filter names of equal length whose column parts differ in length, the one with
   * the shorter column has a digit or sign where the other has the '_' of its "_exp_".
   */
  lemma UnderscoreAt(c1: string, t1: int, c2: string, t2: int)
    requires |c1| < |c2| && |FilterName(c1, t1)| == |FilterName(c2, t2)|
    ensures FilterName(c2, t2)[|c2| + 4] == '_' != FilterName(c1, t1)[|c2| + 4]
  {
    var d1 := IntToString(t1);
    var s1 := FilterName(c1, t1);
    assert s1 == (c1 + "_exp_") + d1;
    assert s1[|c2| + 4] == d1[|c2| + 4 - (|c1| + 5)];
  }

  lemma NoShorterColumn(c1: string, t1: int, c2: string, t2: int)
    requires FilterName(c1, t1) == FilterName(c2, t2)
    ensures |c2| <= |c1|
  {
    if |c1| < |c2| {
      UnderscoreAt(c1, t1, c2, t2);
    }
  }

  /** Distinct (column, tau) pairs give distinct filter names. */
  lemma FilterNameInjective(c1: string, t1: int, c2: string, t2: int)
    requires FilterName(c1, t1) == FilterName(c2, t2)
    ensures c1 == c2 && t1 == t2
  {
    NoShorterColumn(c1, t1, c2, t2);
    NoShorterColumn(c2, t2, c1, t1);
    var s := FilterName(c1, t1);
    assert c1 == s[..|c1|] && c2 == s[..|c2|];
    assert IntToString(t1) == s[|c1| + 5..] && IntToString(t2) == s[|c2| + 5..];
    IntToStringInjective(t1, t2);
  }

  /** A filter name ends in a digit, so it never overwrites a base column. */
  lemma FilterNameNotBase(column: string, tau: int)
    ensures FilterName(column, tau) !in BaseColumns
  {
    var s := FilterName(column, tau);
    assert s[|s| - 1] == IntToString(tau)[|IntToString(tau)| - 1];
  }
  /** The filtered column: the clipped full convolution, divided by its maximum when `scale` is set. */
  function ExpFilter(x: seq<real>, k: seq<real>, scale: bool): (r: seq<real>)
    requires |x| > 0
    requires scale ==> MaxOf(Convolve(x, k)) != 0.0
    ensures |r| == |x|
  {
    var c := Convolve(x, k);
    if scale then Scale(c, MaxOf(c)) else c
  }

  /** Scaled by a positive maximum, the filtered column peaks at exactly 1. */
  lemma ExpFilterScaled(x: seq<real>, k: seq<real>)
    requires |x| > 0 && MaxOf(Convolve(x, k)) > 0.0
    ensures forall t :: 0 <= t < |x| ==> ExpFilter(x, k, true)[t] <= 1.0
    ensures MaxOf(ExpFilter(x, k, true)) == 1.0
  {
    ScaleByMax(Convolve(x, k));
  }

  /** Unscaled, the filtered column at `t` depends only on the source up to `t`. */
  lemma ExpFilterUnscaledCausal(x: seq<real>, y: seq<real>, k: seq<real>, t: nat)
    requires t < |x| && t < |y| && x[..t + 1] == y[..t + 1]
    ensures ExpFilter(x, k, false)[t] == ExpFilter(y, k, false)[t]
  {
    ConvolveIsCausal(x, y, k, t);
  }

  /**
   * What `create_exp_filter` needs of its source column beyond what it checks itself: numbers
   * only, and a non-zero maximum to divide by when it scales.
   */
  predicate ExpFilterReady(src: map<string, Column>, column: string, tau: int, lenFactor: int, scale: bool,
                           fns: RealFns)
  {
    column in src ==>
      && NoNaN(src[column])
      && (scale && |src[column]| > 0 && lenFactor * tau > 0 ==>
            MaxOf(Convolve(Values(src[column]), Kernel(tau, lenFactor, fns))) != 0.0)
  }

  /**
   * The filtered values, or the error raised on the way: pandas' KeyError for a missing column,
   * then numpy's ValueError for an empty source or kernel.
   */
  function ExpFilterResult(src: map<string, Column>, column: string, tau: int, lenFactor: int, scale: bool,
                           fns: RealFns): (r: Result<seq<real>, Error>)
    requires ExpFilterReady(src, column, tau, lenFactor, scale, fns)
    ensures r.Success? <==> column in src && |src[column]| > 0 && lenFactor * tau > 0
    ensures r.Success? ==> |r.value| == |src[column]|
  {
    if column !in src then Failure(KeyError(column))
    else
      var x := Values(src[column]);
      var k := Kernel(tau, lenFactor, fns);
      if |x| == 0 && |k| == 0 then Failure(ValueError("a cannot be empty"))
      else if |x| == 0 || |k| == 0 then Failure(ValueError("v cannot be empty"))
      else Success(ExpFilter(x, k, scale))
  }

  /** pandas' refusal to assign a column whose length differs from the frame's. */
  const LengthMismatch: Error := ValueError("Length of values does not match length of index")

  /**
   * One call of `create_exp_filter` on the table (`names`, `data`) it writes to: no change for
   * `tau = None`, else the filtered column under its filter name, or the error raised.
   */
  function ExpFilterStep(src: map<string, Column>, rows: nat, names: seq<string>, data: map<string, Column>,
                         column: string, tau: Option<int>, lenFactor: int, scale: bool, fns: RealFns)
    : (r: Result<(seq<string>, map<string, Column>), Error>)
    requires tau.Some? ==> ExpFilterReady(src, column, tau.value, lenFactor, scale, fns)
  {
    if tau.None? then Success((names, data))
    else
      match ExpFilterResult(src, column, tau.value, lenFactor, scale, fns)
      case Failure(e) => Failure(e)
      case Success(v) =>
        if |v| != rows then Failure(LengthMismatch)
        else
          var name := FilterName(column, tau.value);
          Success((AddName(names, name), data[name := Cells(v)]))
  }

  /**
   * A successful step adds exactly the filtered column: present under its filter name with the
   * filtered values, every other column kept, and the new name appended unless already there.
   */
  lemma ExpFilterStepAdds(src: map<string, Column>, rows: nat, names: seq<string>, data: map<string, Column>,
                          column: string, tau: int, lenFactor: int, scale: bool, fns: RealFns)
    requires ExpFilterReady(src, column, tau, lenFactor, scale, fns)
    requires column in src && |src[column]| == rows > 0 && lenFactor * tau > 0
    ensures var r := ExpFilterStep(src, rows, names, data, column, Some(tau), lenFactor, scale, fns);
      && r.Success?
      && var name := FilterName(column, tau);
      && r.value.1 == data[name := Cells(ExpFilter(Values(src[column]), Kernel(tau, lenFactor, fns), scale))]
      && r.value.0 == (if name in names then names else names + [name])
  {
  }

  /** The kinds of failure, in the order the source meets them. */
  lemma ExpFilterStepFails(src: map<string, Column>, rows: nat, names: seq<string>, data: map<string, Column>,
                           column: string, tau: int, lenFactor: int, scale: bool, fns: RealFns)
    requires ExpFilterReady(src, column, tau, lenFactor, scale, fns)
    ensures var r := ExpFilterStep(src, rows, names, data, column, Some(tau), lenFactor, scale, fns);
      && (column !in src ==> r == Failure(KeyError(column)))
      && (column in src && |src[column]| == 0 && lenFactor * tau <= 0 ==> r == Failure(ValueError("a cannot be empty")))
      && (column in src && (|src[column]| == 0) != (lenFactor * tau <= 0) ==> r == Failure(ValueError("v cannot be empty")))
      && (column in src && |src[column]| > 0 && lenFactor * tau > 0 && |src[column]| != rows ==> r == Failure(LengthMismatch))
  {
  }

  /**
   * `create_exp_filter`: writes the filtered column into `output`, or into `source` when no
   * output frame is given; `tau = None` and every error leave both frames as they were.
   */
  method CreateExpFilter(source: Frame, tau: Option<int>, output: Frame?, column: string, lenFactor: int,
                         scale: bool, fns: RealFns)
    returns (err: Option<Error>)
    requires source.Valid() && (output != null ==> output.Valid())
    requires tau.Some? ==> ExpFilterReady(source.data, column, tau.value, lenFactor, scale, fns)
    modifies if output != null then output else source
    ensures var target := if output != null then output else source;
      var r := ExpFilterStep(old(source.data), target.rows, old(target.names), old(target.data),
                             column, tau, lenFactor, scale, fns);
      && target.Valid()
      && (tau.None? ==> err.None?)
      && (r.Failure? ==> err == Some(r.error) && target.names == old(target.names) && target.data == old(target.data))
      && (r.Success? ==> err.None? && target.names == r.value.0 && target.data == r.value.1)
  {
    if tau.None? {
      return None;
    }
    var t := tau.value;
    if column !in source.data {
      return Some(KeyError(column));
    }
    var x := Values(source.data[column]);
    var k := Kernel(t, lenFactor, fns);
    if |x| == 0 && |k| == 0 {
      return Some(ValueError("a cannot be empty"));
    }
    if |x| == 0 || |k| == 0 {
      return Some(ValueError("v cannot be empty"));
    }
    var result := ExpFilter(x, k, scale);
    var target := if output != null then output else source;
    if |result| != target.rows {
      return Some(LengthMismatch);
    }
    target.Assign(FilterName(column, t), Cells(result));
    err := None;
  }
  // The wrapper (generate_design_mat_and_labels)

  /** An argument the wrapper requires to be a Python list. */
  datatype PyArg<T> = PyList(items: seq<T>) | NotAList

  /** The (column, tau) pairs of one column, in `taus` order. */
  function PairsFor(column: string, taus: seq<Option<int>>): (r: seq<(string, Option<int>)>)
    ensures |r| == |taus|
  {
    seq(|taus|, j requires 0 <= j < |taus| => (column, taus[j]))
  }

  /** The (column, tau) pairs the wrapper filters, columns outer and taus inner. */
  function FilterPairs(columns: seq<string>, taus: seq<Option<int>>): seq<(string, Option<int>)> {
    if |columns| == 0 then []
    else FilterPairs(columns[..|columns| - 1], taus) + PairsFor(columns[|columns| - 1], taus)
  }

  /** Pair number `i * |taus| + j` is (columns[i], taus[j]): columns outer, taus inner. */
  lemma {:induction false} FilterPairsOrder(columns: seq<string>, taus: seq<Option<int>>, i: nat, j: nat)
    requires i < |columns| && j < |taus|
    ensures |FilterPairs(columns, taus)| == |columns| * |taus|
    ensures i * |taus| + j < |FilterPairs(columns, taus)|
    ensures FilterPairs(columns, taus)[i * |taus| + j] == (columns[i], taus[j])
  {
    var n := |columns| - 1;
    var init := columns[..n];
    FilterPairsLength(init, taus);
    assert n * |taus| + |taus| == |columns| * |taus|;
    if i < n {
      FilterPairsOrder(init, taus, i, j);
      assert i * |taus| + j < n * |taus| by {
        MulLess(i, n, |taus|, j);
      }
    } else {
      assert FilterPairs(columns, taus)[n * |taus| + j] == PairsFor(columns[n], taus)[j];
    }
  }

  /** Where the pair (columns[i], taus[j]) sits in the list. */
  lemma PairIndex(columns: seq<string>, taus: seq<Option<int>>, i: nat, j: nat) returns (p: nat)
    requires i < |columns| && j < |taus|
    ensures p < |FilterPairs(columns, taus)| && FilterPairs(columns, taus)[p] == (columns[i], taus[j])
  {
    FilterPairsOrder(columns, taus, i, j);
    p := i * |taus| + j;
  }

  lemma MulLess(i: nat, n: nat, m: nat, j: nat)
    requires i < n && j < m
    ensures i * m + j < n * m
  {
    assert (i + 1) * m <= n * m;
  }

  lemma {:induction false} FilterPairsLength(columns: seq<string>, taus: seq<Option<int>>)
    ensures |FilterPairs(columns, taus)| == |columns| * |taus|
  {
    if |columns| > 0 {
      FilterPairsLength(columns[..|columns| - 1], taus);
      assert (|columns| - 1) * |taus| + |taus| == |columns| * |taus|;
    }
  }
  lemma {:induction false} FilterPairsAppend(a: seq<string>, b: seq<string>, taus: seq<Option<int>>)
    ensures FilterPairs(a + b, taus) == FilterPairs(a, taus) + FilterPairs(b, taus)
  {
    if |b| == 0 {
      assert a + b == a;
    } else {
      var init, last := b[..|b| - 1], b[|b| - 1];
      FilterPairsAppend(a, init, taus);
      assert (a + b)[..|a + b| - 1] == a + init;
      assert (a + b)[|a + b| - 1] == last;
      var x, y, z := FilterPairs(a, taus), FilterPairs(init, taus), PairsFor(last, taus);
      assert FilterPairs(a + b, taus) == (x + y) + z;
      assert FilterPairs(b, taus) == y + z;
      assert (x + y) + z == x + (y + z);
    }
  }

  /** Splitting the pairs at column `i`. */
  lemma OuterSplit(columns: seq<string>, taus: seq<Option<int>>, i: nat)
    requires i < |columns|
    ensures FilterPairs(columns[i..], taus) == PairsFor(columns[i], taus) + FilterPairs(columns[i + 1..], taus)
    ensures FilterPairs(columns[..i + 1], taus) == FilterPairs(columns[..i], taus) + PairsFor(columns[i], taus)
  {
    assert columns[i..] == [columns[i]] + columns[i + 1..];
    FilterPairsAppend([columns[i]], columns[i + 1..], taus);
    assert [columns[i]][..0] == [];
    assert columns[..i + 1][..i] == columns[..i];
  }

  /** Splitting the pairs of one column at tau `j`. */
  lemma InnerSplit(column: string, taus: seq<Option<int>>, j: nat)
    requires j < |taus|
    ensures PairsFor(column, taus[..j + 1]) == PairsFor(column, taus[..j]) + [(column, taus[j])]
    ensures PairsFor(column, taus[j..]) == [(column, taus[j])] + PairsFor(column, taus[j + 1..])
  {
  }

  /** Every filter in `pairs` is one `create_exp_filter` can compute with the wrapper's defaults. */
  predicate PairsReady(src: map<string, Column>, pairs: seq<(string, Option<int>)>, fns: RealFns) {
    forall p :: 0 <= p < |pairs| && pairs[p].1.Some? ==>
      ExpFilterReady(src, pairs[p].0, pairs[p].1.value, 5, true, fns)
  }

  lemma ReadyParts(src: map<string, Column>, a: seq<(string, Option<int>)>, b: seq<(string, Option<int>)>,
                   fns: RealFns)
    requires PairsReady(src, a + b, fns)
    ensures PairsReady(src, a, fns) && PairsReady(src, b, fns)
  {
    forall p | 0 <= p < |a| && a[p].1.Some?
      ensures ExpFilterReady(src, a[p].0, a[p].1.value, 5, true, fns)
    {
      assert a[p] == (a + b)[p];
    }
    forall p | 0 <= p < |b| && b[p].1.Some?
      ensures ExpFilterReady(src, b[p].0, b[p].1.value, 5, true, fns)
    {
      assert b[p] == (a + b)[|a| + p];
    }
  }

  /**
   * The wrapper's loops as a fold: each pair in turn applied with `len_factor=5, scale=True`
   * to the design table, stopping at the first error.
   */
  function ApplyFilters(src: map<string, Column>, rows: nat, names: seq<string>, data: map<string, Column>,
                        pairs: seq<(string, Option<int>)>, fns: RealFns)
    : Result<(seq<string>, map<string, Column>), Error>
    requires PairsReady(src, pairs, fns)
    decreases |pairs|
  {
    if |pairs| == 0 then Success((names, data))
    else
      var last := pairs[|pairs| - 1];
      assert PairsReady(src, pairs[..|pairs| - 1], fns) by {
        assert forall p :: 0 <= p < |pairs| - 1 ==> pairs[..|pairs| - 1][p] == pairs[p];
      }
      match ApplyFilters(src, rows, names, data, pairs[..|pairs| - 1], fns)
      case Failure(e) => Failure(e)
      case Success(t) => ExpFilterStep(src, rows, t.0, t.1, last.0, last.1, 5, true, fns)
  }

  lemma ApplyFiltersSnoc(src: map<string, Column>, rows: nat, names: seq<string>, data: map<string, Column>,
                         pairs: seq<(string, Option<int>)>, pair: (string, Option<int>), fns: RealFns)
    requires PairsReady(src, pairs + [pair], fns)
    ensures PairsReady(src, pairs, fns)
    ensures pair.1.Some? ==> ExpFilterReady(src, pair.0, pair.1.value, 5, true, fns)
    ensures ApplyFilters(src, rows, names, data, pairs + [pair], fns) ==
      match ApplyFilters(src, rows, names, data, pairs, fns)
      case Failure(e) => Failure(e)
      case Success(t) => ExpFilterStep(src, rows, t.0, t.1, pair.0, pair.1, 5, true, fns)
  {
    ReadyParts(src, pairs, [pair], fns);
    assert (pairs + [pair])[..|pairs|] == pairs;
    assert (pairs + [pair])[|pairs|] == pair;
  }

  /**
   * Folding over `a + b` is folding over `a`, then over `b` from where `a` left the table; once
   * a filter fails, the ones after it are never reached.
   */
  lemma {:induction false} ApplyFiltersAppend(src: map<string, Column>, rows: nat, names: seq<string>,
                                              data: map<string, Column>, a: seq<(string, Option<int>)>,
                                              b: seq<(string, Option<int>)>, fns: RealFns)
    requires PairsReady(src, a + b, fns)
    ensures PairsReady(src, a, fns) && PairsReady(src, b, fns)
    ensures ApplyFilters(src, rows, names, data, a + b, fns) ==
      match ApplyFilters(src, rows, names, data, a, fns)
      case Failure(e) => Failure(e)
      case Success(t) => ApplyFilters(src, rows, t.0, t.1, b, fns)
  {
    ReadyParts(src, a, b, fns);
    if |b| == 0 {
      assert a + b == a;
    } else {
      var init := b[..|b| - 1];
      var last := b[|b| - 1];
      assert a + b == (a + init) + [last];
      assert b == init + [last];
      ApplyFiltersSnoc(src, rows, names, data, a + init, last, fns);
      ApplyFiltersAppend(src, rows, names, data, a, init, fns);
      var r := ApplyFilters(src, rows, names, data, a, fns);
      if r.Success? {
        ApplyFiltersSnoc(src, rows, r.value.0, r.value.1, init, last, fns);
      }
    }
  }

  /** The names the filters in `pairs` write to. */
  function FilterNames(pairs: seq<(string, Option<int>)>): set<string> {
    set p | 0 <= p < |pairs| && pairs[p].1.Some? :: FilterName(pairs[p].0, pairs[p].1.value)
  }

  /** The table holds the wrapper's filter of `column` with `tau` under its filter name. */
  predicate FilteredAt(src: map<string, Column>, rows: nat, names: seq<string>, data: map<string, Column>,
                       column: string, tau: int, fns: RealFns)
  {
    && ExpFilterReady(src, column, tau, 5, true, fns)
    && column in src && |src[column]| == rows > 0 && 5 * tau > 0
    && FilterName(column, tau) in names && FilterName(column, tau) in data
    && data[FilterName(column, tau)] == Cells(ExpFilter(Values(src[column]), Kernel(tau, 5, fns), true))
  }

  /** A successful step stores the filter it computes under its name, with one value per row. */
  lemma StepFiltered(src: map<string, Column>, rows: nat, names: seq<string>, data: map<string, Column>,
                     column: string, tau: int, fns: RealFns)
    requires ExpFilterReady(src, column, tau, 5, true, fns)
    requires ExpFilterStep(src, rows, names, data, column, Some(tau), 5, true, fns).Success?
    ensures var t := ExpFilterStep(src, rows, names, data, column, Some(tau), 5, true, fns).value;
      var name := FilterName(column, tau);
      && name in t.1 && |t.1[name]| == rows
      && t == (AddName(names, name), data[name := t.1[name]])
      && FilteredAt(src, rows, t.0, t.1, column, tau, fns)
  {
  }

  /** A step that writes another name keeps a stored filter. */
  lemma StepKeepsFiltered(src: map<string, Column>, rows: nat, names: seq<string>, data: map<string, Column>,
                          name: string, col: Column, column: string, tau: int, fns: RealFns)
    requires FilteredAt(src, rows, names, data, column, tau, fns) && FilterName(column, tau) != name
    ensures FilteredAt(src, rows, AddName(names, name), data[name := col], column, tau, fns)
  {
  }

  /** What a successful fold over `pairs` from `(names, data)` has left in the table `t`. */
  predicate FoldKeeps(src: map<string, Column>, rows: nat, names: seq<string>, data: map<string, Column>,
                      pairs: seq<(string, Option<int>)>, t: (seq<string>, map<string, Column>), fns: RealFns)
  {
    && |names| <= |t.0| && t.0[..|names|] == names
    && (forall k :: k in data && k !in FilterNames(pairs) ==> k in t.1 && t.1[k] == data[k])
    && (forall p :: 0 <= p < |pairs| && pairs[p].1.Some? ==>
          FilteredAt(src, rows, t.0, t.1, pairs[p].0, pairs[p].1.value, fns))
    && ((forall k :: k in data ==> |data[k]| == rows) ==> forall k :: k in t.1 ==> |t.1[k]| == rows)
  }

  /**
   * After a successful fold: the old names come first, every column no filter writes to is
   * kept, every filter of the list is present with its values, and every column keeps the
   * row count.
   */
  lemma {:induction false} ApplyFiltersSuccess(src: map<string, Column>, rows: nat, names: seq<string>,
                                               data: map<string, Column>, pairs: seq<(string, Option<int>)>,
                                               fns: RealFns)
    requires PairsReady(src, pairs, fns)
    requires ApplyFilters(src, rows, names, data, pairs, fns).Success?
    ensures var t := ApplyFilters(src, rows, names, data, pairs, fns).value;
      && |names| <= |t.0| && t.0[..|names|] == names
      && (forall k :: k in data && k !in FilterNames(pairs) ==> k in t.1 && t.1[k] == data[k])
      && (forall p :: 0 <= p < |pairs| && pairs[p].1.Some? ==>
            FilteredAt(src, rows, t.0, t.1, pairs[p].0, pairs[p].1.value, fns))
      && ((forall k :: k in data ==> |data[k]| == rows) ==> forall k :: k in t.1 ==> |t.1[k]| == rows)
  {
    var t := ApplyFilters(src, rows, names, data, pairs, fns).value;
    if |pairs| == 0 {
      assert names[..|names|] == names;
    } else {
      var init := pairs[..|pairs| - 1];
      var last := pairs[|pairs| - 1];
      assert pairs == init + [last];
      ApplyFiltersSnoc(src, rows, names, data, init, last, fns);
      ApplyFiltersSuccess(src, rows, names, data, init, fns);
      var prev := ApplyFilters(src, rows, names, data, init, fns).value;
      assert FoldKeeps(src, rows, names, data, init, prev, fns);
      assert ExpFilterStep(src, rows, prev.0, prev.1, last.0, last.1, 5, true, fns) == Success(t);
      FoldSnoc(src, rows, names, data, init, last, prev, t, fns);
    }
    assert FoldKeeps(src, rows, names, data, pairs, t, fns);
  }

  /** One more step of a successful fold keeps what the fold has left in the table. */
  lemma FoldSnoc(src: map<string, Column>, rows: nat, names: seq<string>, data: map<string, Column>,
                 init: seq<(string, Option<int>)>, last: (string, Option<int>),
                 prev: (seq<string>, map<string, Column>), t: (seq<string>, map<string, Column>), fns: RealFns)
    requires last.1.Some? ==> ExpFilterReady(src, last.0, last.1.value, 5, true, fns)
    requires FoldKeeps(src, rows, names, data, init, prev, fns)
    requires ExpFilterStep(src, rows, prev.0, prev.1, last.0, last.1, 5, true, fns) == Success(t)
    ensures FoldKeeps(src, rows, names, data, init + [last], t, fns)
  {
    var pairs := init + [last];
    assert FilterNames(init) <= FilterNames(pairs) by {
      forall p | 0 <= p < |init| && init[p].1.Some? ensures FilterName(init[p].0, init[p].1.value) in FilterNames(pairs) {
        assert init[p] == pairs[p];
      }
    }
    if last.1.Some? {
      assert FilterName(last.0, last.1.value) in FilterNames(pairs) by {
        assert pairs[|pairs| - 1] == last;
      }
      FoldSnocFilter(src, rows, names, data, init, last.0, last.1.value, prev, t, fns);
    } else {
      assert FilterNames(pairs) == FilterNames(init) by {
        forall p | 0 <= p < |pairs| && pairs[p].1.Some? ensures FilterName(pairs[p].0, pairs[p].1.value) in FilterNames(init) {
          assert p < |init| && init[p] == pairs[p];
        }
      }
      forall p | 0 <= p < |pairs| && pairs[p].1.Some?
        ensures FilteredAt(src, rows, t.0, t.1, pairs[p].0, pairs[p].1.value, fns)
      {
        assert pairs[p] == init[p];
      }
    }
  }

  /** A filtering step stores its column and keeps every filter stored before it. */
  lemma FoldSnocFilter(src: map<string, Column>, rows: nat, names: seq<string>, data: map<string, Column>,
                       init: seq<(string, Option<int>)>, column: string, tau: int,
                       prev: (seq<string>, map<string, Column>), t: (seq<string>, map<string, Column>), fns: RealFns)
    requires ExpFilterReady(src, column, tau, 5, true, fns)
    requires FoldKeeps(src, rows, names, data, init, prev, fns)
    requires ExpFilterStep(src, rows, prev.0, prev.1, column, Some(tau), 5, true, fns) == Success(t)
    requires FilterNames(init) <= FilterNames(init + [(column, Some(tau))])
    requires FilterName(column, tau) in FilterNames(init + [(column, Some(tau))])
    ensures FoldKeeps(src, rows, names, data, init + [(column, Some(tau))], t, fns)
  {
    var pairs := init + [(column, Some(tau))];
    var name := FilterName(column, tau);
    StepFiltered(src, rows, prev.0, prev.1, column, tau, fns);
    var col := t.1[name];
    assert t == (AddName(prev.0, name), prev.1[name := col]);
    assert AddName(prev.0, name)[..|names|] == names by {
      assert AddName(prev.0, name)[..|prev.0|] == prev.0;
    }
    forall p | 0 <= p < |pairs| && pairs[p].1.Some?
      ensures FilteredAt(src, rows, t.0, t.1, pairs[p].0, pairs[p].1.value, fns)
    {
      if p < |init| {
        assert pairs[p] == init[p];
        if FilterName(pairs[p].0, pairs[p].1.value) == name {
          FilterNameInjective(pairs[p].0, pairs[p].1.value, column, tau);
        } else {
          StepKeepsFiltered(src, rows, prev.0, prev.1, name, col, pairs[p].0, pairs[p].1.value, fns);
        }
      }
    }
  }

  /** What the wrapper needs of its inputs: the trial columns, and filters it can compute. */
  ghost predicate WrapperReady(df: map<string, Column>, rows: nat, columns: PyArg<string>, taus: PyArg<Option<int>>,
                         fns: RealFns)
  {
    && fns.Valid() && HasTrialColumns(df, rows) && NoNaN(df["correct_side"])
    && (columns.PyList? && taus.PyList? ==> PairsReady(df, FilterPairs(columns.items, taus.items), fns))
  }

  /**
   * `generate_design_mat_and_labels` as a value: the type checks on its two list arguments,
   * then the base design with one filtered column per (column, tau) pair, and the labels.
   */
  function DesignMatAndLabels(df: map<string, Column>, rows: nat, columns: PyArg<string>,
                              taus: PyArg<Option<int>>, fns: RealFns)
    : Result<(seq<string>, map<string, Column>, seq<seq<int>>), Error>
    requires WrapperReady(df, rows, columns, taus, fns)
  {
    if taus.NotAList? then Failure(AssertionError("taus must be in a list"))
    else if columns.NotAList? then Failure(AssertionError("columns_to_filter must be in a list"))
    else
      match ApplyFilters(df, rows, BaseColumns, BaseDesign(df, rows, fns), FilterPairs(columns.items, taus.items), fns)
      case Failure(e) => Failure(e)
      case Success(t) => Success((t.0, t.1, OneHotEncodeLabels(df["choice"])))
  }

  /**
   * A successful wrapper call yields the six base columns first and unchanged, every requested
   * filter column with its values, one row per trial in every column, and as many label rows
   * as design rows.
   */
  lemma DesignMatAndLabelsContents(df: map<string, Column>, rows: nat, columns: seq<string>,
                                   taus: seq<Option<int>>, fns: RealFns)
    requires WrapperReady(df, rows, PyList(columns), PyList(taus), fns)
    requires DesignMatAndLabels(df, rows, PyList(columns), PyList(taus), fns).Success?
    ensures var t := DesignMatAndLabels(df, rows, PyList(columns), PyList(taus), fns).value;
      && |BaseColumns| <= |t.0| && t.0[..|BaseColumns|] == BaseColumns
      && (forall b :: b in BaseColumns ==> b in t.1 && t.1[b] == BaseDesign(df, rows, fns)[b])
      && (forall i, j :: 0 <= i < |columns| && 0 <= j < |taus| && taus[j].Some? ==>
            FilteredAt(df, rows, t.0, t.1, columns[i], taus[j].value, fns))
      && (forall k :: k in t.1 ==> |t.1[k]| == rows)
      && |t.2| == rows
  {
    var pairs := FilterPairs(columns, taus);
    var base := BaseDesign(df, rows, fns);
    BaseDesignShape(df, rows, fns);
    ApplyFiltersSuccess(df, rows, BaseColumns, base, pairs, fns);
    var t := DesignMatAndLabels(df, rows, PyList(columns), PyList(taus), fns).value;
    forall b | b in BaseColumns ensures b !in FilterNames(pairs) {
      if b in FilterNames(pairs) {
        var p :| 0 <= p < |pairs| && pairs[p].1.Some? && b == FilterName(pairs[p].0, pairs[p].1.value);
        FilterNameNotBase(pairs[p].0, pairs[p].1.value);
      }
    }
    var r := ApplyFilters(df, rows, BaseColumns, base, pairs, fns).value;
    assert t.0 == r.0 && t.1 == r.1;
    forall i, j | 0 <= i < |columns| && 0 <= j < |taus| && taus[j].Some?
      ensures FilteredAt(df, rows, t.0, t.1, columns[i], taus[j].value, fns)
    {
      var p := PairIndex(columns, taus, i, j);
      assert FilteredAt(df, rows, r.0, r.1, pairs[p].0, pairs[p].1.value, fns);
    }
  }
  /**
   * One tau of the inner loop: the fold up to it is the fold before it followed by its step,
   * and once that fails the fold over all taus fails the same way.
   */
  lemma InnerStep(src: map<string, Column>, rows: nat, names: seq<string>, data: map<string, Column>,
                  column: string, taus: seq<Option<int>>, j: nat, fns: RealFns)
    requires j < |taus| && PairsReady(src, PairsFor(column, taus), fns)
    ensures PairsReady(src, PairsFor(column, taus[..j + 1]), fns)
    ensures PairsReady(src, PairsFor(column, taus[..j]), fns)
    ensures taus[j].Some? ==> ExpFilterReady(src, column, taus[j].value, 5, true, fns)
    ensures ApplyFilters(src, rows, names, data, PairsFor(column, taus[..j + 1]), fns) ==
      match ApplyFilters(src, rows, names, data, PairsFor(column, taus[..j]), fns)
      case Failure(e) => Failure(e)
      case Success(t) => ExpFilterStep(src, rows, t.0, t.1, column, taus[j], 5, true, fns)
    ensures ApplyFilters(src, rows, names, data, PairsFor(column, taus[..j + 1]), fns).Failure? ==>
      ApplyFilters(src, rows, names, data, PairsFor(column, taus), fns)
        == ApplyFilters(src, rows, names, data, PairsFor(column, taus[..j + 1]), fns)
  {
    InnerSplit(column, taus, j);
    assert PairsFor(column, taus) == PairsFor(column, taus[..j + 1]) + PairsFor(column, taus[j + 1..]);
    ReadyParts(src, PairsFor(column, taus[..j + 1]), PairsFor(column, taus[j + 1..]), fns);
    ApplyFiltersSnoc(src, rows, names, data, PairsFor(column, taus[..j]), (column, taus[j]), fns);
    ApplyFiltersAppend(src, rows, names, data, PairsFor(column, taus[..j + 1]), PairsFor(column, taus[j + 1..]), fns);
  }

  /**
   * One column of the outer loop: the fold up to it is the fold before it followed by the
   * column's filters, and once that fails the fold over all columns fails the same way.
   */
  lemma OuterStep(src: map<string, Column>, rows: nat, names: seq<string>, data: map<string, Column>,
                  columns: seq<string>, taus: seq<Option<int>>, i: nat, fns: RealFns)
    requires i < |columns| && PairsReady(src, FilterPairs(columns, taus), fns)
    ensures PairsReady(src, FilterPairs(columns[..i + 1], taus), fns)
    ensures PairsReady(src, FilterPairs(columns[..i], taus), fns)
    ensures PairsReady(src, PairsFor(columns[i], taus), fns)
    ensures ApplyFilters(src, rows, names, data, FilterPairs(columns[..i + 1], taus), fns) ==
      match ApplyFilters(src, rows, names, data, FilterPairs(columns[..i], taus), fns)
      case Failure(e) => Failure(e)
      case Success(t) => ApplyFilters(src, rows, t.0, t.1, PairsFor(columns[i], taus), fns)
    ensures ApplyFilters(src, rows, names, data, FilterPairs(columns[..i + 1], taus), fns).Failure? ==>
      ApplyFilters(src, rows, names, data, FilterPairs(columns, taus), fns)
        == ApplyFilters(src, rows, names, data, FilterPairs(columns[..i + 1], taus), fns)
  {
    OuterSplit(columns, taus, i);
    assert FilterPairs(columns, taus) == FilterPairs(columns[..i + 1], taus) + FilterPairs(columns[i + 1..], taus) by {
      assert columns == columns[..i + 1] + columns[i + 1..];
      FilterPairsAppend(columns[..i + 1], columns[i + 1..], taus);
    }
    ApplyFiltersAppend(src, rows, names, data, FilterPairs(columns[..i + 1], taus), FilterPairs(columns[i + 1..], taus), fns);
    ApplyFiltersAppend(src, rows, names, data, FilterPairs(columns[..i], taus), PairsFor(columns[i], taus), fns);
  }

  /**
   * The inner loop of the wrapper: one `create_exp_filter` call per tau, in order, on the
   * design frame `x`, stopping at the first error.
   */
  method AddColumnFilters(df: Frame, x: Frame, column: string, taus: seq<Option<int>>, fns: RealFns)
    returns (err: Option<Error>)
    requires df.Valid() && x.Valid() && x != df && x.rows == df.rows
    requires PairsReady(df.data, PairsFor(column, taus), fns)
    modifies x
    ensures x.Valid()
    ensures var r := ApplyFilters(df.data, df.rows, old(x.names), old(x.data), PairsFor(column, taus), fns);
      && (r.Failure? ==> err == Some(r.error))
      && (r.Success? ==> err.None? && x.names == r.value.0 && x.data == r.value.1)
  {
    ghost var names0, data0 := x.names, x.data;
    var j := 0;
    assert taus[..0] == [];
    while j < |taus|
      invariant 0 <= j <= |taus|
      invariant x.Valid()
      invariant PairsReady(df.data, PairsFor(column, taus[..j]), fns)
      invariant ApplyFilters(df.data, df.rows, names0, data0, PairsFor(column, taus[..j]), fns)
                == Success((x.names, x.data))
    {
      InnerStep(df.data, df.rows, names0, data0, column, taus, j, fns);
      err := CreateExpFilter(df, taus[j], x, column, 5, true, fns);
      if err.Some? {
        return;
      }
      j := j + 1;
    }
    assert taus[..j] == taus;
    err := None;
  }

  /** The outer loop of the wrapper: the filters of each column in turn, stopping at the first error. */
  method AddAllFilters(df: Frame, x: Frame, columns: seq<string>, taus: seq<Option<int>>, fns: RealFns)
    returns (err: Option<Error>)
    requires df.Valid() && x.Valid() && x != df && x.rows == df.rows
    requires PairsReady(df.data, FilterPairs(columns, taus), fns)
    modifies x
    ensures x.Valid()
    ensures var r := ApplyFilters(df.data, df.rows, old(x.names), old(x.data), FilterPairs(columns, taus), fns);
      && (r.Failure? ==> err == Some(r.error))
      && (r.Success? ==> err.None? && x.names == r.value.0 && x.data == r.value.1)
  {
    ghost var names0, data0 := x.names, x.data;
    assert columns[..0] == [];
    var i := 0;
    while i < |columns|
      invariant 0 <= i <= |columns|
      invariant x.Valid()
      invariant PairsReady(df.data, FilterPairs(columns[..i], taus), fns)
      invariant ApplyFilters(df.data, df.rows, names0, data0, FilterPairs(columns[..i], taus), fns)
                == Success((x.names, x.data))
    {
      OuterStep(df.data, df.rows, names0, data0, columns, taus, i, fns);
      err := AddColumnFilters(df, x, columns[i], taus, fns);
      if err.Some? {
        return;
      }
      i := i + 1;
    }
    assert columns[..|columns|] == columns;
    err := None;
  }

  /** The wrapper's result: the design frame and the one-hot labels. */
  datatype DesignAndLabels = DesignAndLabels(x: Frame, y: seq<seq<int>>)

  /**
   * `generate_design_mat_and_labels`: checks that both arguments are lists, builds the base
   * design, then appends one filtered column per column (outer loop) and tau (inner loop).
   */
  method GenerateDesignMatAndLabels(df: Frame, columnsToFilter: PyArg<string>, taus: PyArg<Option<int>>,
                                    fns: RealFns)
    returns (r: Result<DesignAndLabels, Error>)
    requires df.Valid() && WrapperReady(df.data, df.rows, columnsToFilter, taus, fns)
    ensures var spec := DesignMatAndLabels(df.data, df.rows, columnsToFilter, taus, fns);
      && (r.Failure? <==> spec.Failure?)
      && (r.Failure? ==> r.error == spec.error)
      && (r.Success? ==>
            && fresh(r.value.x) && r.value.x.Valid() && r.value.x.rows == df.rows
            && r.value.x.names == spec.value.0 && r.value.x.data == spec.value.1
            && r.value.y == spec.value.2 && |r.value.y| == r.value.x.rows)
  {
    if taus.NotAList? {
      return Failure(AssertionError("taus must be in a list"));
    }
    if columnsToFilter.NotAList? {
      return Failure(AssertionError("columns_to_filter must be in a list"));
    }
    var x, y := GenerateBaseDesignMatrix(df, true, fns);
    var err := AddAllFilters(df, x, columnsToFilter.items, taus.items, fns);
    if err.Some? {
      return Failure(err.value);
    }
    r := Success(DesignAndLabels(x, y.value));
  }
}
