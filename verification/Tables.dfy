/** Keyed tables with the few operations that the repositories use: insertion
    that refuses a taken key, replacement of all rows of an owner, and listing
    in the order of the keys. */
module Tables {
  import opened Basics
  import opened Texts

  // ----- Order of keys -----

  predicate Ascending(ids: seq<string>) {
    forall i, j :: 0 <= i < j < |ids| ==> Before(ids[i], ids[j])
  }

  /** Insertion into an ascending list. */
  function Insert(ids: seq<string>, x: string): seq<string> {
    if ids == [] then [x]
    else if Before(x, ids[0]) then [x] + ids
    else [ids[0]] + Insert(ids[1..], x)
  }

  lemma {:induction false} InsertKeepsOrder(ids: seq<string>, x: string)
    requires Ascending(ids) && x !in ids
    ensures Ascending(Insert(ids, x))
    ensures forall y :: y in Insert(ids, x) <==> y in ids || y == x
  {
    hide Before;
    if ids != [] {
      assert ids == [ids[0]] + ids[1..];
      BeforeTotal(x, ids[0]);
      if Before(x, ids[0]) {
        forall i | 0 <= i < |ids| ensures Before(x, ids[i]) {
          if i > 0 {
            BeforeTransitive(x, ids[0], ids[i]);
          }
        }
      } else {
        InsertKeepsOrder(ids[1..], x);
        var rest := Insert(ids[1..], x);
        forall i | 0 <= i < |rest| ensures Before(ids[0], rest[i]) {
          assert rest[i] in rest;
        }
      }
    }
  }

  /** The elements of a set in order. */
  ghost function Ordered(s: set<string>): seq<string> {
    if s == {} then [] else
      var x :| x in s;
      Insert(Ordered(s - {x}), x)
  }

  lemma {:induction false} OrderedIsAscending(s: set<string>)
    ensures Ascending(Ordered(s)) && forall x :: x in Ordered(s) <==> x in s
    decreases s
  {
    if s != {} {
      var x :| x in s && Ordered(s) == Insert(Ordered(s - {x}), x);
      OrderedIsAscending(s - {x});
      InsertKeepsOrder(Ordered(s - {x}), x);
    }
  }

  lemma AscendingHead(a: seq<string>, b: seq<string>)
    requires Ascending(a) && Ascending(b) && a != [] && forall x :: x in a <==> x in b
    ensures b != [] && a[0] == b[0]
    ensures forall x :: x in a[1..] <==> x in b[1..]
  {
    hide Before;
    assert a[0] in a;
    var j :| 0 <= j < |b| && b[j] == a[0];
    assert b[0] in b;
    var i :| 0 <= i < |a| && a[i] == b[0];
    BeforeTotal(a[0], b[0]);
    assert a == [a[0]] + a[1..] && b == [b[0]] + b[1..];
    HeadOnce(a);
    HeadOnce(b);
    assert forall x :: x in a <==> x == a[0] || x in a[1..];
    assert forall x :: x in b <==> x == b[0] || x in b[1..];
  }

  lemma HeadOnce(a: seq<string>)
    requires Ascending(a) && a != []
    ensures a[0] !in a[1..]
  {
    hide Before;
    if k :| 1 <= k < |a| && a[k] == a[0] {
      BeforeTotal(a[0], a[0]);
    }
  }

  /** There is one ascending list of given elements. */
  lemma {:induction false} AscendingIsUnique(a: seq<string>, b: seq<string>)
    requires Ascending(a) && Ascending(b) && forall x :: x in a <==> x in b
    ensures a == b
    decreases |a|
  {
    if a != [] {
      AscendingHead(a, b);
      AscendingIsUnique(a[1..], b[1..]);
    } else if b != [] {
      AscendingHead(b, a);
    }
  }

  /** `ORDER BY id`. */
  method OrderIds(s: set<string>) returns (ids: seq<string>)
    ensures ids == Ordered(s)
  {
    hide Ascending;
    ids := [];
    var todo := s;
    assert Ascending([]) by {
      EmptyAscending();
    }
    while todo != {}
      invariant todo <= s && Ascending(ids) && forall x :: x in ids <==> x in s - todo
      decreases todo
    {
      var x :| x in todo;
      InsertKeepsOrder(ids, x);
      ids := Insert(ids, x);
      todo := todo - {x};
    }
    OrderedIsAscending(s);
    AscendingIsUnique(ids, Ordered(s));
  }

  lemma EmptyAscending()
    ensures Ascending([])
  {
  }

  // ----- Rows -----

  /** The rows of a table in the order of their keys. */
  ghost function Listing<R>(table: map<string, R>): seq<R> {
    OrderedIsAscending(table.Keys);
    var ids := Ordered(table.Keys);
    seq(|ids|, i requires 0 <= i < |ids| => assert ids[i] in ids; table[ids[i]])
  }

  /** Insertion of rows one by one; None if a key is taken. */
  function AddAll<R>(table: map<string, R>, key: R -> string, rows: seq<R>): Option<map<string, R>> {
    if rows == [] then Some(table)
    else
      var n := |rows| - 1;
      var before := AddAll(table, key, rows[..n]);
      if before.None? || key(rows[n]) in before.value then None
      else Some(before.value[key(rows[n]) := rows[n]])
  }

  /** The table of rows with distinct keys. */
  function TableOf<R>(key: R -> string, rows: seq<R>): map<string, R> {
    if rows == [] then map[]
    else
      var n := |rows| - 1;
      TableOf(key, rows[..n])[key(rows[n]) := rows[n]]
  }

  lemma {:induction false} TableOfRows<R>(key: R -> string, rows: seq<R>)
    requires DistinctKeys(key, rows)
    ensures forall k :: k in TableOf(key, rows) ==> TableOf(key, rows)[k] in rows && key(TableOf(key, rows)[k]) == k
    ensures forall i :: 0 <= i < |rows| ==> key(rows[i]) in TableOf(key, rows) && TableOf(key, rows)[key(rows[i])] == rows[i]
  {
    if rows != [] {
      var n := |rows| - 1;
      TableOfRows(key, rows[..n]);
      assert rows == rows[..n] + [rows[n]];
    }
  }

  lemma LastKeyIsNew<R>(key: R -> string, rows: seq<R>)
    requires DistinctKeys(key, rows) && rows != []
    ensures var n := |rows| - 1;
      DistinctKeys(key, rows[..n]) && key(rows[n]) !in TableOf(key, rows[..n])
  {
    TableOfRows(key, rows[..|rows| - 1]);
  }

  lemma {:induction false} AddAllSucceeds<R>(table: map<string, R>, key: R -> string, rows: seq<R>)
    requires DistinctKeys(key, rows) && forall i :: 0 <= i < |rows| ==> key(rows[i]) !in table
    ensures AddAll(table, key, rows) == Some(table + TableOf(key, rows))
  {
    hide DistinctKeys;
    if rows != [] {
      var n := |rows| - 1;
      LastKeyIsNew(key, rows);
      AddAllSucceeds(table, key, rows[..n]);
      var before, k := TableOf(key, rows[..n]), key(rows[n]);
      assert (table + before)[k := rows[n]] == table + before[k := rows[n]];
    } else {
      assert table + map[] == table;
    }
  }

  // ----- Rows by owner -----

  /** How rows of a table are identified: by their key; each belongs to an owner,
      and a key tells by itself which owner may use it. */
  datatype Kind<!R> = Kind(key: R -> string, owner: R -> string, claim: string -> string)

  /** The rows of one owner. */
  function Of<R>(owner: R -> string, table: map<string, R>, o: string): map<string, R> {
    map id | id in table && owner(table[id]) == o :: table[id]
  }

  function WithoutOwner<R>(owner: R -> string, table: map<string, R>, o: string): map<string, R> {
    map id | id in table && owner(table[id]) != o :: table[id]
  }

  /** Rows that replace all rows of an owner. */
  datatype Batch<R> = Batch(owner: string, rows: seq<R>)

  /** Delete, then insert; None if a key is taken. */
  function Replaced<R>(kind: Kind<R>, table: map<string, R>, b: Batch<R>): Option<map<string, R>> {
    AddAll(WithoutOwner(kind.owner, table, b.owner), kind.key, b.rows)
  }

  /** A replacement that fails is rolled back. */
  function AfterBatches<R>(kind: Kind<R>, batches: seq<Batch<R>>): map<string, R> {
    if batches == [] then map[]
    else
      var before := AfterBatches(kind, batches[..|batches| - 1]);
      match Replaced(kind, before, batches[|batches| - 1])
      case Some(table) => table
      case None => before
  }

  predicate GoodBatch<R>(kind: Kind<R>, b: Batch<R>) {
    DistinctKeys(kind.key, b.rows) &&
    forall i :: 0 <= i < |b.rows| ==> kind.owner(b.rows[i]) == b.owner && kind.claim(kind.key(b.rows[i])) == b.owner
  }

  predicate Sound<R>(kind: Kind<R>, table: map<string, R>) {
    forall id :: id in table ==> kind.key(table[id]) == id && kind.claim(id) == kind.owner(table[id])
  }

  function LastRows<R>(batches: seq<Batch<R>>, o: string): seq<R> {
    if batches == [] then []
    else if batches[|batches| - 1].owner == o then batches[|batches| - 1].rows
    else LastRows(batches[..|batches| - 1], o)
  }

  lemma BatchTable<R>(kind: Kind<R>, b: Batch<R>)
    requires GoodBatch(kind, b)
    ensures Sound(kind, TableOf(kind.key, b.rows))
    ensures forall id :: id in TableOf(kind.key, b.rows) ==> kind.owner(TableOf(kind.key, b.rows)[id]) == b.owner
  {
    TableOfRows(kind.key, b.rows);
    hide DistinctKeys, TableOf;
  }

  /** A good batch always goes in, and only the rows of its owner change. */
  lemma GoodBatchReplaces<R>(kind: Kind<R>, table: map<string, R>, b: Batch<R>)
    requires Sound(kind, table) && GoodBatch(kind, b)
    ensures Replaced(kind, table, b) == Some(WithoutOwner(kind.owner, table, b.owner) + TableOf(kind.key, b.rows))
    ensures Sound(kind, Replaced(kind, table, b).value)
    ensures forall o ::
      Of(kind.owner, Replaced(kind, table, b).value, o) ==
      (if o == b.owner then TableOf(kind.key, b.rows) else Of(kind.owner, table, o))
  {
    var others, rows := WithoutOwner(kind.owner, table, b.owner), TableOf(kind.key, b.rows);
    AddAllSucceeds(others, kind.key, b.rows);
    BatchTable(kind, b);
    hide TableOf, DistinctKeys, AddAll;
    forall o | true
      ensures Of(kind.owner, others + rows, o) == if o == b.owner then rows else Of(kind.owner, table, o)
    {
      OfUnion(kind.owner, table, b.owner, rows, o);
    }
  }

  lemma OfUnion<R>(owner: R -> string, table: map<string, R>, o: string, rows: map<string, R>, p: string)
    requires forall id :: id in rows ==> owner(rows[id]) == o && (id in table ==> owner(table[id]) == o)
    ensures Of(owner, WithoutOwner(owner, table, o) + rows, p) == if p == o then rows else Of(owner, table, p)
  {
  }

  /** After any good replacements, an owner has the rows of its last one. */
  lemma {:induction false} LastBatchStands<R>(kind: Kind<R>, batches: seq<Batch<R>>, o: string)
    requires forall i :: 0 <= i < |batches| ==> GoodBatch(kind, batches[i])
    ensures Sound(kind, AfterBatches(kind, batches))
    ensures Of(kind.owner, AfterBatches(kind, batches), o) == TableOf(kind.key, LastRows(batches, o))
  {
    if batches != [] {
      var front := batches[..|batches| - 1];
      LastBatchStands(kind, front, o);
      GoodBatchReplaces(kind, AfterBatches(kind, front), batches[|batches| - 1]);
    }
  }

  // ----- Listing rows -----

  ghost predicate InOrder<R>(key: R -> string, rows: seq<R>) {
    forall i, j :: 0 <= i < j < |rows| ==> Before(key(rows[i]), key(rows[j]))
  }

  /** Rows already in the order of their keys are listed as they are. */
  lemma ListingKeepsOrder<R>(key: R -> string, rows: seq<R>)
    requires InOrder(key, rows)
    ensures Listing(TableOf(key, rows)) == rows
  {
    var table := TableOf(key, rows);
    var ids := seq(|rows|, i requires 0 <= i < |rows| => key(rows[i]));
    OrderDistinct(key, rows);
    TableOfRows(key, rows);
    OrderedIsAscending(table.Keys);
    hide Before, TableOf;
    forall x | true ensures x in ids <==> x in Ordered(table.Keys) {
      if x in table {
        var i :| 0 <= i < |rows| && rows[i] == table[x];
        assert ids[i] == x;
      }
    }
    AscendingIsUnique(ids, Ordered(table.Keys));
  }

  lemma OrderDistinct<R>(key: R -> string, rows: seq<R>)
    requires InOrder(key, rows)
    ensures DistinctKeys(key, rows)
  {
    forall i, j | 0 <= i < j < |rows| ensures key(rows[i]) != key(rows[j]) {
      BeforeTotal(key(rows[i]), key(rows[j]));
    }
  }

  /** In any order, the rows listed are the rows saved. */
  lemma ListingIsComplete<R>(key: R -> string, rows: seq<R>)
    requires DistinctKeys(key, rows)
    ensures |Listing(TableOf(key, rows))| == |rows| && InOrder(key, Listing(TableOf(key, rows)))
    ensures forall r :: r in Listing(TableOf(key, rows)) <==> r in rows
  {
    var table := TableOf(key, rows);
    TableOfRows(key, rows);
    TableSize(key, rows);
    ListingOf(table);
    hide TableOf, Before, Listing;
    var listing, ids := Listing(table), Ordered(table.Keys);
    forall r | r in rows ensures r in listing {
      var i :| 0 <= i < |rows| && rows[i] == r;
      var j :| 0 <= j < |ids| && ids[j] == key(r);
      assert listing[j] == r;
    }
    forall r | r in listing ensures r in rows {
      var j :| 0 <= j < |listing| && listing[j] == r;
      assert ids[j] in table;
    }
    forall i, j | 0 <= i < j < |listing| ensures Before(key(listing[i]), key(listing[j])) {
      assert ids[i] in table && ids[j] in table;
    }
  }

  lemma ListingOf<R>(table: map<string, R>)
    ensures var ids := Ordered(table.Keys);
      && |Listing(table)| == |ids| == |table| && Ascending(ids) && (forall x :: x in ids <==> x in table)
      && forall i :: 0 <= i < |ids| ==> ids[i] in table && Listing(table)[i] == table[ids[i]]
  {
    OrderedIsAscending(table.Keys);
    var ids := Ordered(table.Keys);
    AscendingSize(ids);
    assert (set x | x in ids) == table.Keys;
    assert forall i :: 0 <= i < |ids| ==> ids[i] in ids;
  }

  lemma {:induction false} TableSize<R>(key: R -> string, rows: seq<R>)
    requires DistinctKeys(key, rows)
    ensures |TableOf(key, rows)| == |rows|
  {
    if rows != [] {
      var n := |rows| - 1;
      LastKeyIsNew(key, rows);
      TableSize(key, rows[..n]);
      var before := TableOf(key, rows[..n]);
      assert TableOf(key, rows).Keys == before.Keys + {key(rows[n])};
    }
  }

  lemma {:induction false} AscendingSize(ids: seq<string>)
    requires Ascending(ids)
    ensures |set x | x in ids| == |ids|
  {
    if ids != [] {
      HeadOnce(ids);
      AscendingSize(ids[1..]);
      assert ids == [ids[0]] + ids[1..];
      assert (set x | x in ids) == {ids[0]} + (set x | x in ids[1..]);
    }
  }
}
