// `Frontier` as one thread uses it (crates/frontier/src/frontier.rs): the queue,
// the dedup set, the pending count and the optional store, changed in place.
module FrontierQueue {
  import opened Prelude
  import opened Urls
  import opened UrlBuffer
  import opened Protocol
  import opened Recovery
  import opened Storage

  // What one attempt of `pop` finds.
  datatype Polled = Got(item: Item) | Leave | Park

  function Child(c: Config, url: Url, depth: nat, from: Option<Url>, seqno: nat): Item {
    Item(c.Norm(url), depth, from, Score(depth), seqno)
  }

  // Alone, the stages of a push in the shared machine do together what `TryPush` does.
  lemma PushStagesTogether(c: Config, s: State, child: Item, o: Oracle)
    requires StoreFree(s.ws) && PushEnabled(s, Notifying, o)
    ensures
      var numbered := child.(seqno := s.f.nextSeq);
      var s1 := PushEffect(c, s, child, Numbering, o);
      var s2 := PushEffect(c, s1, numbered, MarkingSeen, o);
      var s3 := PushEffect(c, s2, numbered, Enqueuing, o);
      var s4 := PushEffect(c, s3, numbered, Counting, o);
      var s5 := PushEffect(c, s4, numbered, Heaping, o);
      && PushNext(s, child, Numbering).0 == numbered
      && s5.f == s.f.(queue := s.f.queue + multiset{numbered}, pending := s.f.pending + 1, nextSeq := s.f.nextSeq + 1)
      && s5.d == Tables(s.d.seen + {c.fp(child.url)}, s.d.rows[c.fp(child.url) := Row(numbered, Queued)])
      && s5.ws == s.ws
  {
  }

  ghost predicate FromRow(rows: map<Fp, Row>, item: Item) {
    exists fp :: fp in rows && rows[fp].item == item
  }

  lemma RestoredItem(rows: map<Fp, Row>, queue: seq<Item>, i: nat)
    requires multiset(queue) == RowItems(rows) && i < |queue|
    ensures FromRow(rows, queue[i])
  {
    assert queue[i] in multiset(queue);
  }

  lemma Twice(items: seq<Item>, i: nat, j: nat)
    requires i < j < |items| && items[i] == items[j]
    ensures multiset(items)[items[i]] >= 2
  {
    assert items == items[..j] + items[j..];
    assert items[..j][i] in multiset(items[..j]) && items[j..][0] in multiset(items[j..]);
  }

  lemma RestoredOnce(rows: map<Fp, Row>, queue: seq<Item>, i: nat, j: nat)
    requires multiset(queue) == RowItems(rows) && SeqDistinct(rows) && i < j < |queue|
    ensures queue[i].seqno != queue[j].seqno
  {
    RestoredItem(rows, queue, i);
    RestoredItem(rows, queue, j);
    var a :| a in rows && rows[a].item == queue[i];
    var b :| b in rows && rows[b].item == queue[j];
    if a == b { Twice(queue, i, j); }
  }

  lemma TakeOut(queue: seq<Item>, i: nat)
    requires i < |queue| && forall j :: 0 <= j < |queue| ==> Above(queue[i], queue[j])
    ensures multiset(queue[..i] + queue[i + 1..]) + multiset{queue[i]} == multiset(queue)
    ensures IsTop(multiset(queue), queue[i])
  {
    assert queue == queue[..i] + [queue[i]] + queue[i + 1..];
  }

  // The row is leased, if there is one.
  function WithLease(rows: map<Fp, Row>, fp: Fp): map<Fp, Row> {
    if fp in rows then rows[fp := Row(rows[fp].item, Inflight)] else rows
  }

  class Frontier {
    const c: Config
    var queue: seq<Item>        // a heap; only its order of extraction matters
    var visited: set<Fp>
    var pending: int
    var nextSeq: nat
    var stopped: bool
    const store: FrontierStore?

    // Everything queued was accepted once, in canonical form, with its own number.
    predicate Valid()
      reads this
    {
      && (forall i :: 0 <= i < |queue| ==>
            c.Norm(queue[i].url) == queue[i].url && c.fp(queue[i].url) in visited
            && queue[i].priority == Score(queue[i].depth) && queue[i].seqno < nextSeq)
      && (forall i, j :: 0 <= i < j < |queue| ==> queue[i].seqno != queue[j].seqno)
    }

    // What the threads of the protocol share of it; a stored permit is not part of the class.
    ghost function Shared(): Protocol.Frontier
      reads this
    {
      Protocol.Frontier(multiset(queue), visited, pending, nextSeq, false, stopped)
    }

    constructor New(c: Config)
      ensures Valid() && this.c == c && store == null
      ensures queue == [] && visited == {} && pending == 0 && nextSeq == 0 && !stopped
    {
      this.c := c;
      queue, visited, pending, nextSeq, stopped := [], {}, 0, 0, false;
      store := null;
    }

    // `with_store`: the same start as Protocol.Start gives on these tables, and fit to
    // go on if the tables are what a crawl leaves behind, wherever it dies.
    constructor WithStore(c: Config, store: FrontierStore)
      requires RowsApart(store.rows)
      modifies store
      ensures this.c == c && this.store == store && store.Contents() == old(Requeue(store.Contents()))
      ensures exists m: nat :: IsMaxSeq(store.rows, m) && nextSeq == m + 1
      ensures multiset(queue) == RowItems(store.rows) && visited == store.seen && pending == |queue| && !stopped
      ensures forall n: nat, h: History :: Shared() == Start(c, n, store.Contents(), nextSeq, h).f
      ensures Sane(c, old(store.Contents())) ==> Valid()
    {
      var seen, items, maxSeq := store.Load();
      var heap, count := [], 0;
      while count < |items|
        invariant 0 <= count <= |items|
        invariant heap == items[..count]
      {
        heap := heap + [items[count]];
        count := count + 1;
      }
      assert items[..count] == items;
      this.c := c;
      this.store := store;
      queue, visited, pending, nextSeq, stopped := heap, seen, count, maxSeq + 1, false;
      new;
      if Sane(c, old(store.Contents())) {
        forall i | 0 <= i < |queue| ensures FromRow(store.rows, queue[i]) { RestoredItem(store.rows, queue, i); }
        forall i, j | 0 <= i < j < |queue| ensures queue[i].seqno != queue[j].seqno {
          RestoredOnce(store.rows, queue, i, j);
        }
      }
    }

    // Accepted exactly when the fingerprint of the canonical URL is new.
    method TryPush(url: Url, depth: nat, from: Option<Url>) returns (accepted: bool)
      requires Valid()
      modifies this`queue, this`visited, this`pending, this`nextSeq, store
      ensures Valid()
      ensures accepted <==> c.fp(c.Norm(url)) !in old(visited)
      ensures visited == old(visited) + {c.fp(c.Norm(url))}
      ensures accepted ==>
        var child := Child(c, url, depth, from, old(nextSeq));
        && queue == old(queue) + [child] && pending == old(pending) + 1 && nextSeq == old(nextSeq) + 1
        && (store != null ==>
              store.seen == old(store.seen) + {c.fp(child.url)}
              && store.rows == old(store.rows)[c.fp(child.url) := Row(child, Queued)])
      ensures !accepted ==>
        queue == old(queue) && pending == old(pending) && nextSeq == old(nextSeq)
        && (store != null ==> store.Contents() == old(store.Contents()))
    {
      var buffer := new Buffer(url);
      buffer.NormalizeInPlace(c.rules);
      var normalized := buffer.Value();
      var fp := c.fp(normalized);
      if fp in visited { return false; }
      visited := visited + {fp};
      var item := Item(normalized, depth, from, Score(depth), nextSeq);
      nextSeq := nextSeq + 1;
      if store != null {
        store.MarkSeen(fp);
        store.Enqueue(fp, item);
      }
      pending := pending + 1;
      queue := queue + [item];
      return true;
    }

    // One attempt of `pop`. The item ranks above everything else in the queue, and
    // pushing its URL again is refused.
    method Poll() returns (r: Polled)
      requires Valid()
      modifies this`queue, store
      ensures Valid()
      ensures stopped ==> r == Leave
      ensures !stopped && old(queue) == [] ==> r == (if pending == 0 then Leave else Park)
      ensures !stopped && old(queue) != [] ==>
        && r.Got? && multiset(queue) + multiset{r.item} == multiset(old(queue)) && IsTop(multiset(old(queue)), r.item)
        && c.fp(c.Norm(r.item.url)) in visited
      ensures !r.Got? ==> queue == old(queue)
      ensures store != null ==>
        store.seen == old(store.seen)
        && store.rows == if r.Got? then WithLease(old(store.rows), c.fp(r.item.url)) else old(store.rows)
    {
      if stopped { return Leave; }
      if queue != [] {
        var item := TakeTop();
        if store != null { store.MarkInflight(c.fp(item.url)); }
        return Got(item);
      }
      return if pending == 0 then Leave else Park;
    }

    method TakeTop() returns (item: Item)
      requires Valid() && queue != []
      modifies this`queue
      ensures Valid() && multiset(queue) + multiset{item} == multiset(old(queue)) && IsTop(multiset(old(queue)), item)
      ensures c.Norm(item.url) == item.url && c.fp(item.url) in visited
    {
      var i := FindTop();
      item := queue[i];
      TakeOut(queue, i);
      queue := queue[..i] + queue[i + 1..];
    }

    // The heap's extraction order: no other item ranks above.
    method FindTop() returns (top: nat)
      requires queue != []
      ensures top < |queue| && forall j :: 0 <= j < |queue| ==> Above(queue[top], queue[j])
    {
      top := 0;
      var i := 1;
      while i < |queue|
        invariant 1 <= i <= |queue| && top < i
        invariant forall j :: 0 <= j < i ==> Above(queue[top], queue[j])
      {
        if !Above(queue[top], queue[i]) { top := i; }
        i := i + 1;
      }
    }

    method Stop()
      modifies this`stopped
      ensures stopped
    {
      stopped := true;
    }

    method Complete(item: Item)
      modifies this`pending, store
      ensures pending == old(pending) - 1
      ensures store != null ==>
        store.seen == old(store.seen) && store.rows == old(store.rows) - {c.fp(item.url)}
    {
      if store != null { store.Complete(c.fp(item.url)); }
      pending := pending - 1;
    }
  }
}
