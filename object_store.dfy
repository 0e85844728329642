/**
 * An Indexed Database object store with key path `id`, seen through one
 * index: the records form a sequence in index order, where rows compare by
 * index key and then by primary key, as IndexedDB orders the entries of an
 * index with duplicate keys. `Put` and `RemoveId` are the store's `put` and
 * `delete`.
 */
module ObjectStore {

  /** A record with its index key and its primary key. */
  datatype Row<T> = Row(indexKey: int, id: string, value: T)

  /** Lexicographic order of strings by Unicode scalar value (IndexedDB compares UTF-16 code units). */
  predicate StrLt(a: string, b: string)
    decreases |a|
  {
    if a == [] then b != []
    else if b == [] then false
    else if a[0] != b[0] then a[0] < b[0]
    else StrLt(a[1..], b[1..])
  }

  lemma {:induction false} StrLtIrreflexive(a: string)
    ensures !StrLt(a, a)
    decreases |a|
  {
    if a != [] {
      StrLtIrreflexive(a[1..]);
    }
  }

  lemma {:induction false} StrLtTransitive(a: string, b: string, c: string)
    requires StrLt(a, b) && StrLt(b, c)
    ensures StrLt(a, c)
    decreases |a|
  {
    if a != [] && b != [] && c != [] && a[0] == b[0] && b[0] == c[0] {
      StrLtTransitive(a[1..], b[1..], c[1..]);
    }
  }

  lemma {:induction false} StrLtTotal(a: string, b: string)
    requires a != b
    ensures StrLt(a, b) || StrLt(b, a)
    decreases |a|
  {
    if a != [] && b != [] && a[0] == b[0] {
      assert a == [a[0]] + a[1..] && b == [b[0]] + b[1..];
      StrLtTotal(a[1..], b[1..]);
    }
  }

  /** Index order: by index key, then by primary key. */
  predicate RowLt<T>(a: Row<T>, b: Row<T>) {
    a.indexKey < b.indexKey || (a.indexKey == b.indexKey && StrLt(a.id, b.id))
  }

  lemma RowLtIrreflexive<T>(a: Row<T>)
    ensures !RowLt(a, a)
  {
    StrLtIrreflexive(a.id);
  }

  lemma RowLtTransitive<T>(a: Row<T>, b: Row<T>, c: Row<T>)
    requires RowLt(a, b) && RowLt(b, c)
    ensures RowLt(a, c)
  {
    if a.indexKey == b.indexKey == c.indexKey {
      StrLtTransitive(a.id, b.id, c.id);
    }
  }

  lemma RowLtTotal<T>(a: Row<T>, b: Row<T>)
    requires a.id != b.id
    ensures RowLt(a, b) || RowLt(b, a)
  {
    StrLtTotal(a.id, b.id);
  }

  /** The rows are strictly ascending in index order. */
  predicate Ordered<T>(rows: seq<Row<T>>) {
    forall i, j :: 0 <= i < j < |rows| ==> RowLt(rows[i], rows[j])
  }

  /** No two rows share a primary key. */
  predicate UniqueIds<T>(rows: seq<Row<T>>) {
    forall i, j :: 0 <= i < j < |rows| ==> rows[i].id != rows[j].id
  }

  /** A well-formed store. */
  predicate Table<T>(rows: seq<Row<T>>) {
    Ordered(rows) && UniqueIds(rows)
  }

  /** The row with primary key `id`, if any. */
  predicate HasId<T>(rows: seq<Row<T>>, id: string) {
    exists i :: 0 <= i < |rows| && rows[i].id == id
  }

  /** A row placed before an ordered sequence of greater rows keeps it ordered. */
  lemma OrderedCons<T>(h: Row<T>, rest: seq<Row<T>>)
    requires Ordered(rest)
    requires forall x :: x in rest ==> RowLt(h, x)
    ensures Ordered([h] + rest)
  {
    var s := [h] + rest;
    forall i, j | 0 <= i < j < |s| ensures RowLt(s[i], s[j]) {
      assert s[j] == rest[j - 1];
      if i > 0 { assert s[i] == rest[i - 1]; }
    }
  }

  /** A row placed before rows with other keys keeps the keys distinct. */
  lemma UniqueCons<T>(h: Row<T>, rest: seq<Row<T>>)
    requires UniqueIds(rest)
    requires forall x :: x in rest ==> x.id != h.id
    ensures UniqueIds([h] + rest)
  {
    var s := [h] + rest;
    forall i, j | 0 <= i < j < |s| ensures s[i].id != s[j].id {
      assert s[j] == rest[j - 1];
      if i > 0 { assert s[i] == rest[i - 1]; }
    }
  }

  /** The first row of an ordered sequence precedes all the others. */
  lemma OrderedHead<T>(rows: seq<Row<T>>)
    requires rows != [] && Ordered(rows)
    ensures Ordered(rows[1..])
    ensures forall x :: x in rows[1..] ==> RowLt(rows[0], x)
  {
    forall x | x in rows[1..] ensures RowLt(rows[0], x) {
      var j :| 0 <= j < |rows[1..]| && rows[1..][j] == x;
      assert x == rows[j + 1];
    }
  }

  lemma UniqueHead<T>(rows: seq<Row<T>>)
    requires rows != [] && UniqueIds(rows)
    ensures UniqueIds(rows[1..])
    ensures forall x :: x in rows[1..] ==> x.id != rows[0].id
  {
    forall x | x in rows[1..] ensures x.id != rows[0].id {
      var j :| 0 <= j < |rows[1..]| && rows[1..][j] == x;
      assert x == rows[j + 1];
    }
  }

  /** `store.delete(id)`: every row but the one with that key, in the same order. */
  function RemoveId<T(!new)>(rows: seq<Row<T>>, id: string): (r: seq<Row<T>>)
    ensures forall x :: x in r <==> x in rows && x.id != id
    ensures |r| <= |rows|
  {
    if rows == [] then []
    else
      var rest := RemoveId(rows[1..], id);
      assert forall x :: x in rows <==> x == rows[0] || x in rows[1..];
      if rows[0].id == id then rest else [rows[0]] + rest
  }

  /** Removing rows keeps the index order and the distinct keys. */
  lemma {:induction false} RemoveIdKeepsTable<T(!new)>(rows: seq<Row<T>>, id: string)
    requires Table(rows)
    ensures Table(RemoveId(rows, id))
  {
    if rows != [] {
      OrderedHead(rows);
      UniqueHead(rows);
      RemoveIdKeepsTable(rows[1..], id);
      var rest := RemoveId(rows[1..], id);
      if rows[0].id != id {
        OrderedCons(rows[0], rest);
        UniqueCons(rows[0], rest);
      }
    }
  }

  /** Places a row with a fresh primary key at its position in index order. */
  function Insert<T(!new)>(rows: seq<Row<T>>, row: Row<T>): (r: seq<Row<T>>)
    requires Ordered(rows)
    requires forall x :: x in rows ==> x.id != row.id
    ensures forall x :: x in r <==> x in rows || x == row
    ensures |r| == |rows| + 1
    ensures Ordered(r)
    ensures UniqueIds(rows) ==> UniqueIds(r)
  {
    if rows == [] then [row]
    else
      OrderedHead(rows);
      assert forall x :: x in rows <==> x == rows[0] || x in rows[1..];
      if RowLt(row, rows[0]) then
        assert forall x :: x in rows ==> RowLt(row, x) by {
          forall x | x in rows ensures RowLt(row, x) {
            if x != rows[0] { RowLtTransitive(row, rows[0], x); }
          }
        }
        OrderedCons(row, rows);
        assert UniqueIds(rows) ==> UniqueIds([row] + rows) by {
          if UniqueIds(rows) { UniqueCons(row, rows); }
        }
        [row] + rows
      else
        RowLtTotal(row, rows[0]);
        var rest := Insert(rows[1..], row);
        OrderedCons(rows[0], rest);
        assert UniqueIds(rows) ==> UniqueIds([rows[0]] + rest) by {
          if UniqueIds(rows) {
            UniqueHead(rows);
            UniqueCons(rows[0], rest);
          }
        }
        [rows[0]] + rest
  }

  /** `store.put(row)`: the row replaces the one with its primary key, or is added. */
  function Put<T(!new)>(rows: seq<Row<T>>, row: Row<T>): (r: seq<Row<T>>)
    requires Table(rows)
    ensures Table(r)
    ensures forall x :: x in r <==> x == row || (x in rows && x.id != row.id)
    ensures HasId(rows, row.id) ==> |r| == |rows|
    ensures !HasId(rows, row.id) ==> |r| == |rows| + 1
  {
    var removed := RemoveId(rows, row.id);
    RemoveIdKeepsTable(rows, row.id);
    assert HasId(rows, row.id) ==> |removed| == |rows| - 1 by {
      if HasId(rows, row.id) { RemoveOne(rows, row.id); }
    }
    assert !HasId(rows, row.id) ==> removed == rows by {
      if !HasId(rows, row.id) { RemoveNone(rows, row.id); }
    }
    Insert(removed, row)
  }

  lemma {:induction false} RemoveOne<T(!new)>(rows: seq<Row<T>>, id: string)
    requires UniqueIds(rows) && HasId(rows, id)
    ensures |RemoveId(rows, id)| == |rows| - 1
  {
    if rows[0].id == id {
      RemoveNone(rows[1..], id);
    } else {
      RemoveOne(rows[1..], id);
    }
  }

  lemma {:induction false} RemoveNone<T(!new)>(rows: seq<Row<T>>, id: string)
    requires !HasId(rows, id)
    ensures RemoveId(rows, id) == rows
  {
    if rows != [] {
      assert rows[0].id != id;
      assert !HasId(rows[1..], id) by {
        forall i | 0 <= i < |rows[1..]| ensures rows[1..][i].id != id {
          assert rows[1..][i] == rows[i + 1];
        }
      }
      RemoveNone(rows[1..], id);
    }
  }

  /** The stored values in index order. */
  function Values<T>(rows: seq<Row<T>>): (vs: seq<T>)
    ensures |vs| == |rows|
    ensures forall k :: 0 <= k < |rows| ==> vs[k] == rows[k].value
  {
    seq(|rows|, k requires 0 <= k < |rows| => rows[k].value)
  }

  /** The values against index order, as a `'prev'` cursor or `getAll().reverse()` yields them. */
  function NewestFirst<T>(rows: seq<Row<T>>): (vs: seq<T>)
    ensures |vs| == |rows|
    ensures forall k :: 0 <= k < |rows| ==> vs[k] == rows[|rows| - 1 - k].value
  {
    seq(|rows|, k requires 0 <= k < |rows| => rows[|rows| - 1 - k].value)
  }

  /** Splitting the rows splits the reversed listing the other way around. */
  lemma NewestFirstSplit<T>(rows: seq<Row<T>>, n: nat)
    requires n <= |rows|
    ensures NewestFirst(rows) == NewestFirst(rows[n..]) + NewestFirst(rows[..n])
  {
    var l := NewestFirst(rows);
    var r := NewestFirst(rows[n..]) + NewestFirst(rows[..n]);
    forall k | 0 <= k < |rows| ensures l[k] == r[k] {
      if k < |rows| - n {
        assert r[k] == rows[n..][|rows| - n - 1 - k].value;
      } else {
        assert r[k] == rows[..n][n - 1 - (k - (|rows| - n))].value;
      }
    }
  }

  /** `put` of each row of `rs` in turn, as `forEach(p => store.put(p))`. */
  function PutAll<T(!new)>(rows: seq<Row<T>>, rs: seq<Row<T>>): (r: seq<Row<T>>)
    requires Table(rows)
    ensures Table(r)
    decreases |rs|
  {
    if rs == [] then rows else PutAll(Put(rows, rs[0]), rs[1..])
  }

  /** Putting rows with distinct keys into an empty store keeps exactly those rows. */
  lemma {:induction false} PutAllDistinct<T(!new)>(rows: seq<Row<T>>, rs: seq<Row<T>>)
    requires Table(rows) && UniqueIds(rs)
    requires forall x, y :: x in rows && y in rs ==> x.id != y.id
    ensures forall x :: x in PutAll(rows, rs) <==> x in rows || x in rs
    ensures |PutAll(rows, rs)| == |rows| + |rs|
    decreases |rs|
  {
    if rs != [] {
      var next := Put(rows, rs[0]);
      assert !HasId(rows, rs[0].id) by {
        forall i | 0 <= i < |rows| ensures rows[i].id != rs[0].id {
          assert rows[i] in rows;
        }
      }
      assert forall x, y :: x in next && y in rs[1..] ==> x.id != y.id by {
        forall x, y | x in next && y in rs[1..] ensures x.id != y.id {
          var j :| 0 <= j < |rs[1..]| && rs[1..][j] == y;
          assert y == rs[j + 1];
        }
      }
      assert UniqueIds(rs[1..]) by {
        forall i, j | 0 <= i < j < |rs[1..]| ensures rs[1..][i].id != rs[1..][j].id {
          assert rs[1..][i] == rs[i + 1] && rs[1..][j] == rs[j + 1];
        }
      }
      PutAllDistinct(next, rs[1..]);
      assert forall x :: x in rs <==> x == rs[0] || x in rs[1..];
    }
  }
}
