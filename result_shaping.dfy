/**
 * What `retrieve` does with the rows the driver returns: keep them by
 * position, or re-key them by a column, and optionally copy each row into a
 * fresh object of a named class.
 */
module ResultShaping {
  import opened Wrappers
  import opened PhpArrays

  /** A fetched row: column name to value, in column order. */
  type Row = OMap<string, Value>

  /** One entry of the result: the row itself, or an object of class `className` whose properties were set from it. */
  datatype Entry = ArrayRow(row: Row) | ObjectRow(className: string, props: OMap<string, Value>)

  /** `$row[$index]`: null when the row has no such column. */
  function Column(row: Row, index: string): Value {
    match Get(row, index)
    case Some(v) => v
    case None => Null
  }

  /** The list `fetchAll` returns, keyed 0, 1, 2, ... */
  function Positional(rows: seq<Row>): OMap<Key, Row> {
    seq(|rows|, i requires 0 <= i < |rows| => (IntKey(i), rows[i]))
  }

  function ReindexKey(row: Row, index: string): Key {
    KeyOf(Column(row, index))
  }

  function ReindexPairs(rows: seq<Row>, index: string): seq<(Key, Row)> {
    seq(|rows|, i requires 0 <= i < |rows| => (ReindexKey(rows[i], index), rows[i]))
  }

  /**
   * The rows re-keyed by column `index`: the keys are exactly the values
   * the rows carry in that column, so there are no more entries than rows.
   */
  function Reindexed(rows: seq<Row>, index: string): (r: OMap<Key, Row>)
    ensures Keys(r) == set i | 0 <= i < |rows| :: ReindexKey(rows[i], index)
    ensures |r| <= |rows|
  {
    var pairs := ReindexPairs(rows, index);
    assert Keys(pairs) == set i | 0 <= i < |rows| :: ReindexKey(rows[i], index) by {
      forall k | k in Keys(pairs) ensures exists i :: 0 <= i < |rows| && k == ReindexKey(rows[i], index) {
        var i :| 0 <= i < |pairs| && pairs[i].0 == k;
        assert k == ReindexKey(rows[i], index);
      }
      forall i | 0 <= i < |rows| ensures ReindexKey(rows[i], index) in Keys(pairs) {
        assert pairs[i].0 == ReindexKey(rows[i], index);
      }
    }
    PutAll([], pairs)
  }

  /** A key carried by several rows holds the last of them. */
  lemma ReindexLastRowWins(rows: seq<Row>, index: string, i: int)
    requires 0 <= i < |rows|
    requires forall j :: i < j < |rows| ==> ReindexKey(rows[j], index) != ReindexKey(rows[i], index)
    ensures Get(Reindexed(rows, index), ReindexKey(rows[i], index)) == Some(rows[i])
  {
    var pairs := ReindexPairs(rows, index);
    assert IsLastFor(pairs, i) by {
      forall j | i < j < |pairs| ensures pairs[j].0 != pairs[i].0 {
        assert pairs[j].0 == ReindexKey(rows[j], index);
      }
    }
    PutAllLastWins([], pairs, i);
  }

  function AsArrays(data: OMap<Key, Row>): OMap<Key, Entry> {
    var r := seq(|data|, i requires 0 <= i < |data| => (data[i].0, ArrayRow(data[i].1)));
    assert forall i :: 0 <= i < |data| ==> r[i].0 == data[i].0;
    r
  }

  /** Every entry replaced, in place, by an object of class `className` carrying the row's fields and values. */
  function AsObjects(data: OMap<Key, Row>, className: string): OMap<Key, Entry> {
    var r := seq(|data|, i requires 0 <= i < |data| => (data[i].0, ObjectRow(className, data[i].1)));
    assert forall i :: 0 <= i < |data| ==> r[i].0 == data[i].0;
    r
  }

  /** The result of `retrieve` for the fetched `rows`. */
  function Shaped(rows: seq<Row>, reindex: Option<string>, fetchas: string): OMap<Key, Entry> {
    var data := if Blank(reindex) then Positional(rows) else Reindexed(rows, reindex.value);
    if fetchas == "array" then AsArrays(data) else AsObjects(data, fetchas)
  }

  /** The entry wrapping `row` under the `fetchas` option. */
  function Wrap(row: Row, fetchas: string): Entry {
    if fetchas == "array" then ArrayRow(row) else ObjectRow(fetchas, row)
  }

  /** Wrapping keeps every key where it was, with the row it held. */
  lemma GetWrapped(data: OMap<Key, Row>, fetchas: string, k: Key)
    ensures var shaped := if fetchas == "array" then AsArrays(data) else AsObjects(data, fetchas);
      Keys(shaped) == Keys(data) &&
      Get(shaped, k) == if k in Keys(data) then Some(Wrap(Get(data, k).value, fetchas)) else None
  {
    var shaped := if fetchas == "array" then AsArrays(data) else AsObjects(data, fetchas);
    assert forall j :: 0 <= j < |data| ==> shaped[j] == (data[j].0, Wrap(data[j].1, fetchas));
    assert Keys(shaped) == Keys(data) by {
      forall x | x in Keys(data) ensures x in Keys(shaped) {
        var j :| 0 <= j < |data| && data[j].0 == x;
        assert shaped[j].0 == x;
      }
    }
    if k in Keys(data) {
      var j :| 0 <= j < |data| && data[j].0 == k;
      assert shaped[j].0 == k;
    }
  }

  /**
   * Without `reindex`, row `i` is the entry under key `i`; with it, a row is
   * the entry under its value in the `reindex` column unless a later row
   * carries the same value. Either way it is wrapped as `fetchas` asks.
   */
  lemma ShapedEntry(rows: seq<Row>, reindex: Option<string>, fetchas: string, i: int)
    requires 0 <= i < |rows|
    requires !Blank(reindex) ==>
      forall j :: i < j < |rows| ==> ReindexKey(rows[j], reindex.value) != ReindexKey(rows[i], reindex.value)
    ensures Get(Shaped(rows, reindex, fetchas), if Blank(reindex) then IntKey(i) else ReindexKey(rows[i], reindex.value))
         == Some(Wrap(rows[i], fetchas))
  {
    var data := if Blank(reindex) then Positional(rows) else Reindexed(rows, reindex.value);
    var k := if Blank(reindex) then IntKey(i) else ReindexKey(rows[i], reindex.value);
    if Blank(reindex) {
      assert data[i] == (k, rows[i]);
    } else {
      ReindexLastRowWins(rows, reindex.value, i);
    }
    GetWrapped(data, fetchas, k);
  }

  /** The keys of the result: 0 .. n-1, or the values the rows carry in the `reindex` column. */
  lemma ShapedKeys(rows: seq<Row>, reindex: Option<string>, fetchas: string)
    ensures Keys(Shaped(rows, reindex, fetchas)) ==
      if Blank(reindex) then set i | 0 <= i < |rows| :: IntKey(i)
      else set i | 0 <= i < |rows| :: ReindexKey(rows[i], reindex.value)
  {
    var data := if Blank(reindex) then Positional(rows) else Reindexed(rows, reindex.value);
    GetWrapped(data, fetchas, IntKey(0));
    if Blank(reindex) {
      assert Keys(data) == set i | 0 <= i < |rows| :: IntKey(i) by {
        forall i | 0 <= i < |rows| ensures IntKey(i) in Keys(data) {
          assert data[i].0 == IntKey(i);
        }
      }
    }
  }
}
