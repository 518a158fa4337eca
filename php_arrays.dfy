/** The usual optional value. */
module Wrappers {
  datatype Option<+T> = None | Some(value: T)
}

/**
 * The part of PHP's value model that the adapter relies on: scalar values,
 * array keys, and arrays as ordered maps (insertion order, one entry per key).
 */
module PhpArrays {
  import opened Wrappers

  /**
   * A scalar as the adapter passes it to the database driver or reads it
   * back. A float is an exact real number.
   */
  datatype Value = Null | Bool(b: bool) | Int(i: int) | Float(f: real) | Str(s: string)

  /** A PHP array key. */
  datatype Key = IntKey(n: int) | StrKey(s: string)

  /** A float cast to an integer: its fractional part dropped, rounding toward zero. */
  function Truncate(f: real): (n: int)
    ensures 0.0 <= f ==> n as real <= f < n as real + 1.0
    ensures f < 0.0 ==> n as real - 1.0 < f <= n as real
  {
    if 0.0 <= f then f.Floor else -((-f).Floor)
  }

  /**
   * The key a scalar becomes when it is used as an array index: null
   * becomes the empty string, booleans become 0 and 1, a float loses its
   * fractional part, integers and strings stay as they are.
   */
  function KeyOf(v: Value): (r: Key)
    ensures r.StrKey? <==> v.Null? || v.Str?
    ensures r == StrKey("") <==> v == Null || v == Str("")
    ensures v.Float? ==> r == IntKey(Truncate(v.f))
  {
    match v
    case Null => StrKey("")
    case Bool(b) => IntKey(if b then 1 else 0)
    case Int(i) => IntKey(i)
    case Float(f) => IntKey(Truncate(f))
    case Str(s) => StrKey(s)
  }

  /** Floats with the same integer part share a key: 1.2 and 1.7 both become 1, as do -1.7 and -1.2 as -1. */
  lemma FloatKeysCollide()
    ensures KeyOf(Float(1.2)) == KeyOf(Float(1.7)) == IntKey(1)
    ensures KeyOf(Float(-1.7)) == KeyOf(Float(-1.2)) == IntKey(-1)
  {
    assert Truncate(1.2) == 1 && Truncate(1.7) == 1;
    assert Truncate(-1.7) == -1 && Truncate(-1.2) == -1;
  }

  /** PHP's `empty()` on an optional string: null, "" and "0" are empty. */
  predicate Blank(o: Option<string>) {
    o.None? || o.value == "" || o.value == "0"
  }

  predicate DistinctKeys<K(==), V>(m: seq<(K, V)>) {
    forall i, j :: 0 <= i < j < |m| ==> m[i].0 != m[j].0
  }

  /** A PHP array: entries in insertion order, no key twice. */
  type OMap<K(==), V> = m: seq<(K, V)> | DistinctKeys(m)

  function Keys<K, V>(m: seq<(K, V)>): set<K> {
    set i | 0 <= i < |m| :: m[i].0
  }

  lemma KeysSplit<K, V>(m: seq<(K, V)>)
    requires |m| > 0
    ensures Keys(m) == {m[0].0} + Keys(m[1..])
    ensures Keys(m) == Keys(m[..|m| - 1]) + {m[|m| - 1].0}
  {
    var n := |m| - 1;
    forall k | k in Keys(m) ensures k in {m[0].0} + Keys(m[1..]) && k in Keys(m[..n]) + {m[n].0} {
      var i :| 0 <= i < |m| && m[i].0 == k;
      if i > 0 { assert m[1..][i - 1] == m[i]; }
      if i < n { assert m[..n][i] == m[i]; }
    }
    forall k | k in Keys(m[1..]) ensures k in Keys(m) {
      var i :| 0 <= i < |m[1..]| && m[1..][i].0 == k;
      assert m[i + 1] == m[1..][i];
    }
    forall k | k in Keys(m[..n]) ensures k in Keys(m) {
      var i :| 0 <= i < n && m[..n][i].0 == k;
      assert m[i] == m[..n][i];
    }
  }

  /** `$m[$k]` for a key that may be absent. */
  function Get<K(==), V>(m: OMap<K, V>, k: K): (r: Option<V>)
    ensures r.None? <==> k !in Keys(m)
    ensures forall i :: 0 <= i < |m| && m[i].0 == k ==> r == Some(m[i].1)
    decreases |m|
  {
    if m == [] then None
    else
      KeysSplit(m);
      if m[0].0 == k then Some(m[0].1)
      else
        var r := Get(m[1..], k);
        assert forall i :: 1 <= i < |m| ==> m[i] == m[1..][i - 1];
        r
  }

  /** PHP's `isset($m[$k])`: the key is present and its value is not null. */
  predicate IsSet<K(==)>(m: OMap<K, Value>, k: K) {
    Get(m, k).Some? && Get(m, k).value != Null
  }

  /**
   * `$m[$k] = $v`: an existing key keeps its position and takes the new
   * value; a new key is appended.
   */
  function Put<K(==), V>(m: OMap<K, V>, k: K, v: V): (r: OMap<K, V>)
    ensures Keys(r) == Keys(m) + {k}
    ensures |r| == if k in Keys(m) then |m| else |m| + 1
  {
    if k in Keys(m) then
      var r := seq(|m|, i requires 0 <= i < |m| => if m[i].0 == k then (k, v) else m[i]);
      assert forall i :: 0 <= i < |m| ==> r[i].0 == m[i].0;
      assert Keys(r) == Keys(m) by {
        forall x | x in Keys(m) ensures x in Keys(r) {
          var i :| 0 <= i < |m| && m[i].0 == x;
          assert r[i].0 == x;
        }
      }
      r
    else
      var r := m + [(k, v)];
      assert Keys(r) == Keys(m) + {k} by {
        KeysSplit(r);
        assert r[..|m|] == m;
      }
      r
  }

  lemma GetPut<K, V>(m: OMap<K, V>, k: K, v: V, k': K)
    ensures Get(Put(m, k, v), k') == if k' == k then Some(v) else Get(m, k')
  {
    var r := Put(m, k, v);
    if k' in Keys(m) {
      var i :| 0 <= i < |m| && m[i].0 == k';
      assert r[i].0 == k';
    } else if k' == k {
      assert r[|r| - 1] == (k, v);
    }
  }

  /** Successive assignments `$m[$k] = $v` for each pair of `ps`, in order. */
  function PutAll<K(==), V>(a: OMap<K, V>, ps: seq<(K, V)>): (r: OMap<K, V>)
    ensures Keys(r) == Keys(a) + Keys(ps)
    ensures |r| <= |a| + |ps|
    decreases |ps|
  {
    if ps == [] then a
    else
      KeysSplit(ps);
      var n := |ps| - 1;
      Put(PutAll(a, ps[..n]), ps[n].0, ps[n].1)
  }

  lemma PutAllSnoc<K, V>(a: OMap<K, V>, ps: seq<(K, V)>, k: K, v: V)
    ensures PutAll(a, ps + [(k, v)]) == Put(PutAll(a, ps), k, v)
  {
    assert (ps + [(k, v)])[..|ps|] == ps;
  }

  /** The pair at index `i` is the last one with its key. */
  predicate IsLastFor<K(==), V>(ps: seq<(K, V)>, i: int) {
    0 <= i < |ps| && forall j :: i < j < |ps| ==> ps[j].0 != ps[i].0
  }

  /** A key no pair assigns keeps the value it had before. */
  lemma {:induction false} PutAllUntouched<K, V>(a: OMap<K, V>, ps: seq<(K, V)>, k: K)
    requires k !in Keys(ps)
    ensures Get(PutAll(a, ps), k) == Get(a, k)
    decreases |ps|
  {
    if ps != [] {
      var n := |ps| - 1;
      KeysSplit(ps);
      PutAllUntouched(a, ps[..n], k);
      GetPut(PutAll(a, ps[..n]), ps[n].0, ps[n].1, k);
    }
  }

  /** The last assignment to a key wins. */
  lemma {:induction false} PutAllLastWins<K, V>(a: OMap<K, V>, ps: seq<(K, V)>, i: int)
    requires IsLastFor(ps, i)
    ensures Get(PutAll(a, ps), ps[i].0) == Some(ps[i].1)
    decreases |ps|
  {
    var n := |ps| - 1;
    var init := ps[..n];
    var before := PutAll(a, init);
    assert PutAll(a, ps) == Put(before, ps[n].0, ps[n].1);
    GetPut(before, ps[n].0, ps[n].1, ps[i].0);
    if i < n {
      assert init[i] == ps[i];
      assert IsLastFor(init, i) by {
        forall j | i < j < n ensures init[j].0 != init[i].0 {
          assert init[j] == ps[j];
        }
      }
      PutAllLastWins(a, init, i);
    }
  }

  /** Copying an array entry by entry into an empty one gives back that array. */
  lemma {:induction false} PutAllIntoEmpty<K, V>(m: OMap<K, V>)
    ensures PutAll([], m) == m
    decreases |m|
  {
    if m != [] {
      var n := |m| - 1;
      var init: OMap<K, V> := m[..n];
      PutAllIntoEmpty(init);
      assert m[n].0 !in Keys(init);
      assert init + [m[n]] == m;
    }
  }

  /** A value in a key of an array: the key of the last assignment to it. */
  lemma PutAllGetOMap<K, V>(a: OMap<K, V>, b: OMap<K, V>, k: K)
    ensures Get(PutAll(a, b), k) == if k in Keys(b) then Get(b, k) else Get(a, k)
  {
    if k in Keys(b) {
      var i :| 0 <= i < |b| && b[i].0 == k;
      PutAllLastWins(a, b, i);
    } else {
      PutAllUntouched(a, b, k);
    }
  }

  /**
   * The named parameters a statement receives when every entry of `a` is
   * bound with `bindValue(':' . $key, $value)`.
   */
  function Bindings(a: seq<(string, Value)>): map<string, Value>
    decreases |a|
  {
    if a == [] then map[]
    else
      var n := |a| - 1;
      Bindings(a[..n])[":" + a[n].0 := a[n].1]
  }

  /** The parameters of a bound array are the names `:k` for its keys `k`, and no others. */
  lemma {:induction false} BindingsDomain(a: seq<(string, Value)>, p: string)
    ensures p in Bindings(a) <==> |p| > 0 && p[0] == ':' && p[1..] in Keys(a)
    decreases |a|
  {
    if a != [] {
      var n := |a| - 1;
      BindingsDomain(a[..n], p);
      KeysSplit(a);
      var q := ":" + a[n].0;
      assert q[0] == ':' && q[1..] == a[n].0;
      if |p| > 0 && p[0] == ':' { assert p == ":" + p[1..]; }
    }
  }

  /** Parameter `:k` holds the value the array has under `k`. */
  lemma {:induction false} BindingsValue(a: OMap<string, Value>, k: string)
    requires k in Keys(a)
    ensures ":" + k in Bindings(a) && Bindings(a)[":" + k] == Get(a, k).value
    decreases |a|
  {
    var n := |a| - 1;
    var init: OMap<string, Value> := a[..n];
    KeysSplit(a);
    if k != a[n].0 {
      assert k in Keys(init);
      BindingsValue(init, k);
      assert (":" + k)[1..] == k && (":" + a[n].0)[1..] == a[n].0;
      var i :| 0 <= i < n && init[i].0 == k;
      assert a[i] == init[i];
    }
  }

  /** PHP's `implode($sep, $parts)`. */
  function Join(parts: seq<string>, sep: string): string
    decreases |parts|
  {
    if |parts| == 0 then ""
    else if |parts| == 1 then parts[0]
    else parts[0] + sep + Join(parts[1..], sep)
  }
}
