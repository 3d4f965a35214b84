/**
 * The part of pandas' `groupby` the visualizer relies on: group keys come out distinct and in
 * ascending key order.
 */
module GroupBy {
  import opened Strings

  /** A group key: a text column (animal or model name) or a numeric one (sigma, tau). */
  datatype Key = Text(s: string) | Number(x: real)

  /** Ascending key order: numbers by value, text by code point, numbers before text. */
  predicate KeyLt(a: Key, b: Key) {
    match (a, b)
    case (Number(x), Number(y)) => x < y
    case (Number(_), Text(_)) => true
    case (Text(_), Number(_)) => false
    case (Text(s), Text(t)) => LexLe(s, t) && s != t
  }

  lemma KeyLtTotal(a: Key, b: Key)
    ensures a == b || KeyLt(a, b) || KeyLt(b, a)
  {
    if a.Text? && b.Text? {
      LexTotal(a.s, b.s);
    }
  }

  lemma KeyLtAsymmetric(a: Key, b: Key)
    requires KeyLt(a, b)
    ensures !KeyLt(b, a) && a != b
  {
    if a.Text? && b.Text? && KeyLt(b, a) {
      LexAntisymmetric(a.s, b.s);
    }
  }

  lemma KeyLtTransitive(a: Key, b: Key, c: Key)
    requires KeyLt(a, b) && KeyLt(b, c)
    ensures KeyLt(a, c)
  {
    if a.Text? && b.Text? && c.Text? {
      LexTransitive(a.s, b.s, c.s);
      if a.s == c.s {
        LexAntisymmetric(a.s, b.s);
      }
    }
  }

  /** Every key is strictly below every later key: ascending and duplicate-free. */
  predicate StrictlySorted(ks: seq<Key>) {
    forall i, j :: 0 <= i < j < |ks| ==> KeyLt(ks[i], ks[j])
  }

  /** Adds `k` to an ascending duplicate-free key list. */
  function Insert(k: Key, s: seq<Key>): (r: seq<Key>)
    requires StrictlySorted(s)
    ensures StrictlySorted(r)
    ensures forall x :: x in r <==> x == k || x in s
  {
    if |s| == 0 then [k]
    else if k == s[0] then s
    else if KeyLt(k, s[0]) then
      assert forall j :: 0 < j < |s| ==> KeyLt(k, s[j]) by {
        forall j | 0 < j < |s| {
          KeyLtTransitive(k, s[0], s[j]);
        }
      }
      [k] + s
    else
      KeyLtTotal(k, s[0]);
      var rest := Insert(k, s[1..]);
      assert forall x :: x in s <==> x == s[0] || x in s[1..] by {
        assert s == [s[0]] + s[1..];
      }
      assert forall j :: 0 <= j < |rest| ==> KeyLt(s[0], rest[j]) by {
        forall j | 0 <= j < |rest| ensures KeyLt(s[0], rest[j]) {
          assert rest[j] in rest;
          if rest[j] != k {
            assert rest[j] in s[1..];
            var i :| 0 <= i < |s[1..]| && s[1..][i] == rest[j];
            assert s[i + 1] == rest[j];
          }
        }
      }
      [s[0]] + rest
  }

  /** The distinct keys of `ks` in ascending order: the order `groupby` visits its groups in. */
  function SortedDistinct(ks: seq<Key>): (r: seq<Key>)
    ensures StrictlySorted(r)
    ensures forall x :: x in r <==> x in ks
  {
    if |ks| == 0 then []
    else
      var n := |ks| - 1;
      assert forall x :: x in ks <==> x == ks[n] || x in ks[..n] by {
        assert ks == ks[..n] + [ks[n]];
      }
      Insert(ks[n], SortedDistinct(ks[..n]))
  }
}
