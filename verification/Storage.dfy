// `FrontierStore`: the two tables behind a resumable crawl
// (crates/frontier/src/store.rs). Every method is one SQL statement, taken as
// atomic and durable.
module Storage {
  import opened Protocol
  import opened Recovery

  // The key of a row is the fingerprint of its URL, so no item has two rows.
  predicate RowsApart(rows: map<Fp, Row>) {
    forall a, b :: a in rows && b in rows && a != b ==> rows[a].item != rows[b].item
  }

  function RowItems(rows: map<Fp, Row>): multiset<Item> {
    multiset(set fp | fp in rows :: rows[fp].item)
  }

  lemma RowItemsWithout(rows: map<Fp, Row>, fp: Fp)
    requires RowsApart(rows) && fp in rows
    ensures RowItems(rows) == RowItems(rows - {fp}) + multiset{rows[fp].item}
  {
    var all := set k | k in rows :: rows[k].item;
    var rest := set k | k in rows - {fp} :: (rows - {fp})[k].item;
    forall item | item in rest ensures item in all && item != rows[fp].item {
      var k :| k in rows - {fp} && (rows - {fp})[k].item == item;
      assert rows[k].item == item;
    }
    forall item | item in all && item != rows[fp].item ensures item in rest {
      var k :| k in rows && rows[k].item == item;
      assert k in rows - {fp};
    }
    assert all == rest + {rows[fp].item};
  }

  // ORDER BY priority DESC, seq ASC
  predicate InPopOrder(items: seq<Item>) {
    forall i, j :: 0 <= i < j < |items| ==> Above(items[i], items[j])
  }

  function InsertInOrder(item: Item, items: seq<Item>): seq<Item> {
    if items == [] || Above(item, items[0]) then [item] + items
    else [items[0]] + InsertInOrder(item, items[1..])
  }

  lemma {:induction false} InsertOrdered(item: Item, items: seq<Item>)
    requires InPopOrder(items)
    ensures InPopOrder(InsertInOrder(item, items))
    ensures multiset(InsertInOrder(item, items)) == multiset(items) + multiset{item}
  {
    if items != [] && !Above(item, items[0]) {
      InsertOrdered(item, items[1..]);
      var rest := InsertInOrder(item, items[1..]);
      assert items == [items[0]] + items[1..];
      OrderedCons(items[0], items[1..], item, rest);
    }
  }

  lemma OrderedCons(first: Item, tail: seq<Item>, item: Item, rest: seq<Item>)
    requires InPopOrder([first] + tail) && Above(first, item) && InPopOrder(rest)
    requires multiset(rest) == multiset(tail) + multiset{item}
    ensures InPopOrder([first] + rest)
  {
    forall j | 0 <= j < |rest| ensures Above(first, rest[j]) {
      assert rest[j] in multiset(rest);
      if rest[j] in tail {
        var k :| 0 <= k < |tail| && tail[k] == rest[j];
        assert ([first] + tail)[0] == first && ([first] + tail)[k + 1] == tail[k];
      }
    }
  }

  lemma OneRowLess(left: map<Fp, Row>, fp: Fp, items: seq<Item>)
    requires RowsApart(left) && fp in left && InPopOrder(items)
    ensures RowsApart(left - {fp}) && |left - {fp}| < |left|
    ensures InPopOrder(InsertInOrder(left[fp].item, items))
    ensures multiset(InsertInOrder(left[fp].item, items)) + RowItems(left - {fp}) == multiset(items) + RowItems(left)
  {
    RowItemsWithout(left, fp);
    InsertOrdered(left[fp].item, items);
    assert left == (left - {fp})[fp := left[fp]];
  }

  predicate IsMaxOf(items: seq<Item>, m: nat) {
    (forall i :: 0 <= i < |items| ==> items[i].seqno <= m) &&
    (m == 0 || exists i :: 0 <= i < |items| && items[i].seqno == m)
  }

  lemma MaxOfRows(rows: map<Fp, Row>, items: seq<Item>, m: nat)
    requires multiset(items) == RowItems(rows) && IsMaxOf(items, m)
    ensures IsMaxSeq(rows, m)
  {
    forall fp | fp in rows ensures rows[fp].item.seqno <= m {
      assert rows[fp].item in RowItems(rows);
      assert rows[fp].item in multiset(items);
    }
    if m > 0 {
      var i :| 0 <= i < |items| && items[i].seqno == m;
      assert items[i] in multiset(items);
    }
  }

  class FrontierStore {
    var seen: set<Fp>
    var rows: map<Fp, Row>

    function Contents(): Tables
      reads this
    {
      Tables(seen, rows)
    }

    constructor Open()
      ensures Contents() == Tables({}, map[])
    {
      seen, rows := {}, map[];
    }

    method MarkSeen(fp: Fp)
      modifies this`seen
      ensures seen == old(seen) + {fp}
    {
      seen := seen + {fp};
    }

    // INSERT OR REPLACE
    method Enqueue(fp: Fp, item: Item)
      modifies this`rows
      ensures rows == old(rows)[fp := Row(item, Queued)]
    {
      rows := rows[fp := Row(item, Queued)];
    }

    method MarkInflight(fp: Fp)
      modifies this`rows
      ensures rows == if fp in old(rows) then old(rows)[fp := old(rows)[fp].(lease := Inflight)] else old(rows)
    {
      if fp in rows { rows := rows[fp := rows[fp].(lease := Inflight)]; }
    }

    method Complete(fp: Fp)
      modifies this`rows
      ensures rows == old(rows) - {fp}
    {
      rows := rows - {fp};
    }

    // Requeue leases, then read `seen`, the queued items in pop order, and the
    // largest sequence number.
    method Load() returns (loadedSeen: set<Fp>, items: seq<Item>, maxSeq: nat)
      requires RowsApart(rows)
      modifies this`rows
      ensures Contents() == Requeue(old(Contents())) && loadedSeen == seen
      ensures multiset(items) == RowItems(rows) && InPopOrder(items) && IsMaxSeq(rows, maxSeq)
    {
      rows := map fp | fp in rows :: rows[fp].(lease := Queued);
      loadedSeen := seen;
      items := SelectQueued();
      maxSeq := 0;
      var i := 0;
      while i < |items|
        invariant 0 <= i <= |items|
        invariant IsMaxOf(items[..i], maxSeq)
      {
        if items[i].seqno > maxSeq { maxSeq := items[i].seqno; }
        i := i + 1;
        assert items[..i] == items[..i - 1] + [items[i - 1]];
        assert items[..i][i - 1] == items[i - 1];
      }
      assert items[..i] == items;
      MaxOfRows(rows, items, maxSeq);
    }

    method SelectQueued() returns (items: seq<Item>)
      requires RowsApart(rows)
      ensures multiset(items) == RowItems(rows) && InPopOrder(items)
    {
      items := [];
      var left := rows;
      while left != map[]
        invariant RowsApart(left) && InPopOrder(items)
        invariant multiset(items) + RowItems(left) == RowItems(rows)
        decreases |left|
      {
        var fp :| fp in left;
        OneRowLess(left, fp, items);
        items := InsertInOrder(left[fp].item, items);
        left := left - {fp};
      }
      assert RowItems(left) == multiset{};
    }
  }
}
