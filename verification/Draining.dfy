/**
  What a flush does to the outbox when nothing else happens: no other process writes, and
  no call fails but the publishing of certain rows. `Services.OutboxPublisher.Flush` is
  proved to compute `FlushOnce`; here is what repeated flushes achieve.
*/
module Draining {
  import opened Protocol
  import opened Sets

  /** One turn of the loop in flush for row `r`. */
  function RowFlushed(outbox: seq<OutboxRow>, r: nat, poison: set<nat>): (after: seq<OutboxRow>)
    requires r < |outbox|
    ensures |after| == |outbox|
  {
    if !HasPublished(outbox, outbox[r].delivery) && r in poison
    then outbox[r := outbox[r].(attempts := outbox[r].attempts + 1)]
    else outbox[r := outbox[r].(published := true)]
  }

  function Flushed(outbox: seq<OutboxRow>, rows: seq<nat>, poison: set<nat>): (after: seq<OutboxRow>)
    requires forall i :: 0 <= i < |rows| ==> rows[i] < |outbox|
    ensures |after| == |outbox|
    decreases |rows|
  {
    if rows == [] then outbox else Flushed(RowFlushed(outbox, rows[0], poison), rows[1..], poison)
  }

  function FlushOnce(outbox: seq<OutboxRow>, batch: nat, poison: set<nat>): (after: seq<OutboxRow>)
    ensures |after| == |outbox|
  {
    OldestRows(outbox, 0, batch);
    Flushed(outbox, Oldest(outbox, 0, batch), poison)
  }

  function Flushes(outbox: seq<OutboxRow>, n: nat, batch: nat, poison: set<nat>): (after: seq<OutboxRow>)
    ensures |after| == |outbox|
  {
    if n == 0 then outbox else FlushOnce(Flushes(outbox, n - 1, batch, poison), batch, poison)
  }

  /** The pending rows that can be published. */
  function Good(outbox: seq<OutboxRow>, poison: set<nat>): set<nat> {
    set r | 0 <= r < |outbox| && !outbox[r].published && r !in poison
  }

  /** The pending rows that cannot. */
  function Bad(outbox: seq<OutboxRow>, poison: set<nat>): set<nat> {
    set r | 0 <= r < |outbox| && !outbox[r].published && r in poison
  }

  /** Rows are neither lost nor created nor redirected, and a published row stays published. */
  ghost predicate SameRows(a: seq<OutboxRow>, b: seq<OutboxRow>) {
    && |a| == |b|
    && forall r :: 0 <= r < |a| ==>
         && b[r].delivery == a[r].delivery && b[r].subject == a[r].subject
         && a[r].attempts <= b[r].attempts && (a[r].published ==> b[r].published)
  }

  lemma {:induction false} FlushedRows(outbox: seq<OutboxRow>, rows: seq<nat>, poison: set<nat>)
    requires forall i :: 0 <= i < |rows| ==> rows[i] < |outbox|
    ensures SameRows(outbox, Flushed(outbox, rows, poison))
    ensures forall i :: 0 <= i < |rows| && rows[i] !in poison ==> Flushed(outbox, rows, poison)[rows[i]].published
    decreases |rows|
  {
    if rows != [] {
      var next := RowFlushed(outbox, rows[0], poison);
      FlushedRows(next, rows[1..], poison);
      assert SameRows(outbox, next);
      assert forall i :: 0 < i < |rows| ==> rows[i] == rows[1..][i - 1];
    }
  }

  lemma {:induction false} FlushesKeepRows(outbox: seq<OutboxRow>, n: nat, batch: nat, poison: set<nat>)
    ensures SameRows(outbox, Flushes(outbox, n, batch, poison))
  {
    if n > 0 {
      var before := Flushes(outbox, n - 1, batch, poison);
      FlushesKeepRows(outbox, n - 1, batch, poison);
      OldestRows(before, 0, batch);
      FlushedRows(before, Oldest(before, 0, batch), poison);
    }
  }

  /** A flush publishes a batch of the oldest rows, less the poisoned ones, or all that can be published. */
  lemma FlushMakesProgress(outbox: seq<OutboxRow>, batch: nat, poison: set<nat>)
    requires |Bad(outbox, poison)| < batch
    ensures var after := FlushOnce(outbox, batch, poison);
            && Bad(after, poison) <= Bad(outbox, poison)
            && Good(after, poison) <= Good(outbox, poison)
            && (Good(after, poison) == {} ||
                |Good(after, poison)| + (batch - |Bad(outbox, poison)|) <= |Good(outbox, poison)|)
  {
    var rows := Oldest(outbox, 0, batch);
    OldestRows(outbox, 0, batch);
    FlushedRows(outbox, rows, poison);
    var after := FlushOnce(outbox, batch, poison);
    var fetched := Elements(rows);
    DistinctSize(rows);
    assert Good(after, poison) <= Good(outbox, poison) - fetched;
    if Good(after, poison) != {} {
      var r :| r in Good(after, poison);
      assert r !in rows && |rows| == batch;
      var published := fetched - Bad(outbox, poison);
      assert published <= Good(outbox, poison);
      SubsetIsSmaller(Good(after, poison), Good(outbox, poison) - published);
      SizeOfRest(fetched, Bad(outbox, poison));
    }
  }

  lemma SizeOfRest(a: set<nat>, b: set<nat>)
    ensures |a - b| >= |a| - |b|
  {
    SubsetIsSmaller(a * b, b);
    assert a == (a - b) + a * b;
  }

  lemma {:induction false} FlushesMakeProgress(outbox: seq<OutboxRow>, n: nat, batch: nat, poison: set<nat>)
    requires |Bad(outbox, poison)| < batch
    ensures var after := Flushes(outbox, n, batch, poison);
            && Bad(after, poison) <= Bad(outbox, poison)
            && (Good(after, poison) == {} ||
                |Good(after, poison)| + n * (batch - |Bad(outbox, poison)|) <= |Good(outbox, poison)|)
  {
    if n > 0 {
      var before := Flushes(outbox, n - 1, batch, poison);
      FlushesMakeProgress(outbox, n - 1, batch, poison);
      SubsetIsSmaller(Bad(before, poison), Bad(outbox, poison));
      FlushMakesProgress(before, batch, poison);
      var step := batch - |Bad(outbox, poison)|;
      assert n * step == (n - 1) * step + step;
    }
  }

  /**
    With f poisoned rows, f < batch, and no arrivals, all g other pending rows are published within
    ceil(g / (batch - f)) flushes, and no row is lost, created or redirected.
  */
  lemma DrainsInTime(outbox: seq<OutboxRow>, batch: nat, poison: set<nat>)
    requires |Bad(outbox, poison)| < batch
    ensures var step := batch - |Bad(outbox, poison)|;
            var n := (|Good(outbox, poison)| + step - 1) / step;
            var after := Flushes(outbox, n, batch, poison);
            && SameRows(outbox, after)
            && forall r :: 0 <= r < |after| && r !in poison ==> after[r].published
  {
    var g, step := |Good(outbox, poison)|, batch - |Bad(outbox, poison)|;
    var n := (g + step - 1) / step;
    FlushesKeepRows(outbox, n, batch, poison);
    FlushesMakeProgress(outbox, n, batch, poison);
    CeilingCovers(g, step);
    var after := Flushes(outbox, n, batch, poison);
    assert |Good(after, poison)| == 0;
    assert forall r :: 0 <= r < |after| && r !in poison && !after[r].published ==> r in Good(after, poison);
  }

  lemma CeilingCovers(g: nat, step: nat)
    requires step > 0
    ensures (g + step - 1) / step * step >= g
  {
  }

  // ----- What one flush does to each row

  predicate Fetched(outbox: seq<OutboxRow>, batch: nat, r: nat) {
    r in Oldest(outbox, 0, batch)
  }

  /**
    With one row a delivery, a flush marks the fetched rows that can be published, counts a failed attempt of the
    others, and leaves every other row as it is.
  */
  lemma FlushIsExact(outbox: seq<OutboxRow>, batch: nat, poison: set<nat>, r: nat)
    requires OneRowEach(outbox) && r < |outbox|
    ensures var row := outbox[r];
            FlushOnce(outbox, batch, poison)[r] ==
            if !Fetched(outbox, batch, r) then row
            else if r in poison then OutboxRow(row.delivery, row.subject, row.published, row.attempts + 1)
            else OutboxRow(row.delivery, row.subject, true, row.attempts)
  {
    OldestRows(outbox, 0, batch);
    FlushedIsExact(outbox, Oldest(outbox, 0, batch), poison, r);
  }

  lemma {:induction false} FlushedIsExact(outbox: seq<OutboxRow>, rows: seq<nat>, poison: set<nat>, r: nat)
    requires OneRowEach(outbox) && r < |outbox|
    requires forall i :: 0 <= i < |rows| ==> rows[i] < |outbox| && !outbox[rows[i]].published
    requires forall i, j :: 0 <= i < j < |rows| ==> rows[i] < rows[j]
    ensures var row := outbox[r];
            Flushed(outbox, rows, poison)[r] ==
            if r !in rows then row
            else if r in poison then OutboxRow(row.delivery, row.subject, row.published, row.attempts + 1)
            else OutboxRow(row.delivery, row.subject, true, row.attempts)
    decreases |rows|
  {
    if rows != [] {
      var next := RowFlushed(outbox, rows[0], poison);
      assert !HasPublished(outbox, outbox[rows[0]].delivery);
      FlushedIsExact(next, rows[1..], poison, r);
      assert r in rows <==> r == rows[0] || r in rows[1..];
      assert rows[0] !in rows[1..];
    }
  }

  /** A further row of a published delivery is marked without being published, and no attempt is counted. */
  lemma DuplicateIsMarked(outbox: seq<OutboxRow>, r: nat, poison: set<nat>)
    requires r < |outbox| && HasPublished(outbox, outbox[r].delivery)
    ensures var row := outbox[r];
            RowFlushed(outbox, r, poison) == outbox[r := OutboxRow(row.delivery, row.subject, true, row.attempts)]
  {
  }

  // ----- Which rows are ever published

  ghost predicate OneRowEach(outbox: seq<OutboxRow>) {
    forall q, r :: 0 <= q < r < |outbox| ==> outbox[q].delivery != outbox[r].delivery
  }

  function BadBefore(outbox: seq<OutboxRow>, poison: set<nat>, r: nat): set<nat> {
    set q | q in Bad(outbox, poison) && q < r
  }

  function GoodBefore(outbox: seq<OutboxRow>, poison: set<nat>, r: nat): set<nat> {
    set q | q in Good(outbox, poison) && q < r
  }

  /** A poisoned row stays pending if no other row is for its delivery. */
  lemma {:induction false} PoisonPends(outbox: seq<OutboxRow>, rows: seq<nat>, poison: set<nat>, q: nat)
    requires forall i :: 0 <= i < |rows| ==> rows[i] < |outbox|
    requires OneRowEach(outbox) && q < |outbox| && q in poison && !outbox[q].published
    ensures !Flushed(outbox, rows, poison)[q].published
    decreases |rows|
  {
    if rows != [] {
      var next := RowFlushed(outbox, rows[0], poison);
      assert rows[0] == q ==> !HasPublished(outbox, outbox[q].delivery);
      PoisonPends(next, rows[1..], poison, q);
    }
  }

  lemma {:induction false} OthersUntouched(outbox: seq<OutboxRow>, rows: seq<nat>, poison: set<nat>, q: nat)
    requires forall i :: 0 <= i < |rows| ==> rows[i] < |outbox|
    requires q < |outbox| && q !in rows
    ensures Flushed(outbox, rows, poison)[q] == outbox[q]
    decreases |rows|
  {
    if rows != [] {
      assert q !in rows[1..] && rows[0] in rows;
      OthersUntouched(RowFlushed(outbox, rows[0], poison), rows[1..], poison, q);
    }
  }

  /** A row with a batch of pending rows before it is not fetched. */
  lemma NotFetched(outbox: seq<OutboxRow>, batch: nat, before: set<nat>, r: nat)
    requires |before| >= batch && forall q :: q in before ==> q < r && q < |outbox| && !outbox[q].published
    ensures r !in Oldest(outbox, 0, batch)
  {
    var rows := Oldest(outbox, 0, batch);
    OldestRows(outbox, 0, batch);
    DistinctSize(rows);
    if r in rows {
      SubsetIsSmaller(before, Elements(rows) - {r});
    }
  }

  lemma {:induction false} BlockedForever(outbox: seq<OutboxRow>, n: nat, batch: nat, poison: set<nat>, r: nat)
    requires OneRowEach(outbox) && r < |outbox| && !outbox[r].published && |BadBefore(outbox, poison, r)| >= batch
    ensures var after := Flushes(outbox, n, batch, poison);
            && OneRowEach(after) && !after[r].published
            && forall q :: q in BadBefore(outbox, poison, r) ==> !after[q].published
  {
    if n > 0 {
      var before := Flushes(outbox, n - 1, batch, poison);
      var rows := Oldest(before, 0, batch);
      BlockedForever(outbox, n - 1, batch, poison, r);
      OldestRows(before, 0, batch);
      FlushedRows(before, rows, poison);
      NotFetched(before, batch, BadBefore(outbox, poison, r), r);
      OthersUntouched(before, rows, poison, r);
      forall q | q in BadBefore(outbox, poison, r) ensures !Flushed(before, rows, poison)[q].published {
        PoisonPends(before, rows, poison, q);
      }
    }
  }

  lemma {:induction false} FlushFirst(outbox: seq<OutboxRow>, n: nat, batch: nat, poison: set<nat>)
    ensures Flushes(FlushOnce(outbox, batch, poison), n, batch, poison) == Flushes(outbox, n + 1, batch, poison)
  {
    if n > 0 { FlushFirst(outbox, n - 1, batch, poison); }
  }

  /** A flush that does not fetch the row publishes one that is before it. */
  lemma GetsCloser(outbox: seq<OutboxRow>, batch: nat, poison: set<nat>, r: nat)
    requires r < |outbox| && !outbox[r].published && |BadBefore(outbox, poison, r)| < batch
    requires r !in Oldest(outbox, 0, batch)
    ensures var after := FlushOnce(outbox, batch, poison);
            && !after[r].published && |BadBefore(after, poison, r)| < batch
            && |GoodBefore(after, poison, r)| < |GoodBefore(outbox, poison, r)|
  {
    var rows := Oldest(outbox, 0, batch);
    OldestRows(outbox, 0, batch);
    FlushedRows(outbox, rows, poison);
    OthersUntouched(outbox, rows, poison, r);
    DistinctSize(rows);
    var after := FlushOnce(outbox, batch, poison);
    SubsetIsSmaller(BadBefore(after, poison, r), BadBefore(outbox, poison, r));
    var q := FetchedGood(outbox, rows, poison, r);
    assert q !in GoodBefore(after, poison, r);
    SubsetIsSmaller(GoodBefore(after, poison, r), GoodBefore(outbox, poison, r) - {q});
  }

  lemma FetchedGood(outbox: seq<OutboxRow>, rows: seq<nat>, poison: set<nat>, r: nat) returns (q: nat)
    requires |Elements(rows)| > |BadBefore(outbox, poison, r)|
    requires forall i :: 0 <= i < |rows| ==> rows[i] < r && rows[i] < |outbox| && !outbox[rows[i]].published
    ensures q in rows && q !in poison && q in GoodBefore(outbox, poison, r)
  {
    var good := Elements(rows) - BadBefore(outbox, poison, r);
    SizeOfRest(Elements(rows), BadBefore(outbox, poison, r));
    q :| q in good;
  }

  lemma FetchedIsPublished(outbox: seq<OutboxRow>, batch: nat, poison: set<nat>, r: nat)
    requires r in Oldest(outbox, 0, batch) && r !in poison
    ensures r < |outbox| && Flushes(outbox, 1, batch, poison)[r].published
  {
    var rows := Oldest(outbox, 0, batch);
    OldestRows(outbox, 0, batch);
    FlushedRows(outbox, rows, poison);
    assert Flushes(outbox, 0, batch, poison) == outbox;
  }

  lemma {:induction false} PublishedAtLast(outbox: seq<OutboxRow>, batch: nat, poison: set<nat>, r: nat) returns (n: nat)
    requires r < |outbox| && !outbox[r].published && r !in poison && |BadBefore(outbox, poison, r)| < batch
    ensures Flushes(outbox, n, batch, poison)[r].published
    decreases |GoodBefore(outbox, poison, r)|
  {
    if r in Oldest(outbox, 0, batch) {
      FetchedIsPublished(outbox, batch, poison, r);
      n := 1;
    } else {
      GetsCloser(outbox, batch, poison, r);
      var m := PublishedAtLast(FlushOnce(outbox, batch, poison), batch, poison, r);
      FlushFirst(outbox, m, batch, poison);
      n := m + 1;
    }
  }

  /**
    With one row a delivery, a pending row that can be published is published by some flush exactly if fewer
    rows than a batch before it are pending and cannot be. Rows behind it do not matter, nor do published ones.
  */
  lemma PublishedExactly(outbox: seq<OutboxRow>, batch: nat, poison: set<nat>, r: nat)
    requires OneRowEach(outbox) && r < |outbox| && !outbox[r].published && r !in poison
    ensures (exists n :: Flushes(outbox, n, batch, poison)[r].published) <==> |BadBefore(outbox, poison, r)| < batch
  {
    if |BadBefore(outbox, poison, r)| < batch {
      var n := PublishedAtLast(outbox, batch, poison, r);
    } else {
      forall n: nat ensures !Flushes(outbox, n, batch, poison)[r].published {
        BlockedForever(outbox, n, batch, poison, r);
      }
    }
  }

  /** A batch of poisoned rows at the head of the outbox is never got past, however often it is flushed. */
  lemma PoisonBlocks(outbox: seq<OutboxRow>, n: nat, batch: nat, poison: set<nat>, r: nat)
    requires OneRowEach(outbox) && batch <= r < |outbox| && !outbox[r].published && r !in poison
    requires forall q :: 0 <= q < batch ==> !outbox[q].published && q in poison
    ensures !Flushes(outbox, n, batch, poison)[r].published
  {
    PublishedExactly(outbox, batch, poison, r);
    BelowSize(batch);
    SubsetIsSmaller(Below(batch), BadBefore(outbox, poison, r));
  }

  // ----- An outbox in which nothing is published yet, with any number of rows a delivery

  lemma {:induction false} OldestOfPending(outbox: seq<OutboxRow>, from: nat, limit: nat)
    requires from + limit <= |outbox| && forall r :: from <= r < from + limit ==> !outbox[r].published
    ensures forall r :: r in Oldest(outbox, from, limit) ==> from <= r < from + limit
    decreases limit
  {
    if limit > 0 { OldestOfPending(outbox, from + 1, limit - 1); }
  }

  lemma {:induction false} PoisonStaysPending(outbox: seq<OutboxRow>, rows: seq<nat>, poison: set<nat>)
    requires forall r :: 0 <= r < |outbox| ==> !outbox[r].published
    requires forall i :: 0 <= i < |rows| ==> rows[i] < |outbox| && rows[i] in poison
    ensures forall r :: 0 <= r < |outbox| ==> !Flushed(outbox, rows, poison)[r].published
    decreases |rows|
  {
    if rows != [] { PoisonStaysPending(RowFlushed(outbox, rows[0], poison), rows[1..], poison); }
  }

  /** A batch of poisoned rows at the head of the outbox keeps everything from being published. */
  lemma {:induction false} PoisonBlocksAll(outbox: seq<OutboxRow>, n: nat, batch: nat, poison: set<nat>)
    requires batch <= |outbox| && forall r :: 0 <= r < batch ==> r in poison
    requires forall r :: 0 <= r < |outbox| ==> !outbox[r].published
    ensures forall r :: 0 <= r < |outbox| ==> !Flushes(outbox, n, batch, poison)[r].published
  {
    if n > 0 {
      var before := Flushes(outbox, n - 1, batch, poison);
      PoisonBlocksAll(outbox, n - 1, batch, poison);
      OldestOfPending(before, 0, batch);
      OldestRows(before, 0, batch);
      PoisonStaysPending(before, Oldest(before, 0, batch), poison);
    }
  }
}
