/** Finite sets of sort keys: the least, and the n-th in order. */
module SortedKeys {
  import opened Wrappers

  function UpTo(keys: set<nat>, bound: nat): set<nat> {
    set k | k in keys && k <= bound
  }

  predicate IsLeast(keys: set<nat>, k: nat) {
    k in keys && forall j :: j in keys ==> k <= j
  }

  lemma {:induction false} LeastKey(keys: set<nat>) returns (least: nat)
    requires |keys| > 0
    ensures IsLeast(keys, least)
    decreases |keys|
  {
    least :| least in keys;
    var others := keys - {least};
    assert forall k :: k in keys && k != least ==> k in others;
    if |others| > 0 {
      var other := LeastKey(others);
      if other < least {
        least := other;
      }
    }
  }

  lemma FewerKeys(some: set<nat>, all: set<nat>, k: nat)
    requires some <= all && k in all && k !in some
    ensures |some| < |all|
  {
    assert all == (all - some) + some;
    assert k in all - some;
  }

  /** `passed` is the keys below all of `rest`. */
  ghost predicate Passed(keys: set<nat>, passed: set<nat>, rest: set<nat>) {
    && passed + rest == keys && |passed| + |rest| == |keys|
    && (forall p, r :: p in passed && r in rest ==> p < r)
  }

  lemma PassLeast(keys: set<nat>, passed: set<nat>, rest: set<nat>, k: nat)
    requires Passed(keys, passed, rest) && IsLeast(rest, k)
    ensures Passed(keys, passed + {k}, rest - {k}) && |passed + {k}| == |passed| + 1
    ensures UpTo(keys, k) == passed + {k}
  {
  }

  /** SELECT DISTINCT .. ORDER BY .. LIMIT 1 OFFSET n - 1: the n-th smallest key, if there are so many. */
  method NthKey(keys: set<nat>, n: nat) returns (upper: Option<nat>)
    requires n >= 1
    ensures upper.None? <==> |keys| < n
    ensures upper.Some? ==> upper.value in keys && |UpTo(keys, upper.value)| == n
  {
    var rest, skipped := keys, 0;
    ghost var passed: set<nat> := {};
    while |rest| > 0
      invariant Passed(keys, passed, rest) && |passed| == skipped < n
      decreases |rest|
    {
      ghost var least := LeastKey(rest);
      var k :| k in rest && IsLeast(rest, k);
      PassLeast(keys, passed, rest, k);
      if skipped == n - 1 { return Some(k); }
      rest, passed, skipped := rest - {k}, passed + {k}, skipped + 1;
    }
    return None;
  }
}

/** Re-owning an application's rows in batches, while other transactions may still add rows. */
module RenameBatches {
  import opened SortedKeys
  import opened Wrappers

  /** The column that bounds a batch, in its sort order, and the owning application. */
  datatype Owned = Owned(key: nat, owner: Option<string>)
  type Table = map<nat, Owned>
  datatype Source = Source(oldName: Option<string>, adoptUnclaimed: bool)

  /** The rows a rename moves: the old name's, the unclaimed ones, or both. */
  predicate Matches(row: Owned, source: Source) {
    (source.oldName.Some? && row.owner == source.oldName) || (source.adoptUnclaimed && row.owner.None?)
  }

  predicate InRange(key: nat, above: Option<nat>, upTo: Option<nat>) {
    (above.Some? ==> above.value < key) && (upTo.Some? ==> key <= upTo.value)
  }

  function Selected(t: Table, source: Source, above: Option<nat>, upTo: Option<nat>): set<nat> {
    set id | id in t && Matches(t[id], source) && InRange(t[id].key, above, upTo)
  }

  function KeysOf(t: Table, ids: set<nat>): set<nat> {
    set id | id in ids && id in t :: t[id].key
  }

  function WithOwner(t: Table, ids: set<nat>, newName: string): Table {
    map id | id in t :: if id in ids then t[id].(owner := Some(newName)) else t[id]
  }

  /** The single UPDATE that the batches stand for. */
  function BulkRename(t: Table, source: Source, newName: string): Table {
    WithOwner(t, Selected(t, source, None, None), newName)
  }

  /** A row of the old name, or an unclaimed one that is to be adopted. */
  predicate Moves(row: Owned, source: Source) {
    match row.owner
    case None => source.adoptUnclaimed
    case Some(name) => source.oldName == Some(name)
  }

  function MovingRows(t: Table, source: Source): set<nat> {
    set id | id in t && Moves(t[id], source)
  }

  /** The rename gives exactly those rows the new name, and changes nothing else. */
  ghost predicate IsRenamed(t: Table, u: Table, source: Source, newName: string) {
    && u.Keys == t.Keys
    && forall id :: id in t ==>
         u[id].key == t[id].key && u[id].owner == if Moves(t[id], source) then Some(newName) else t[id].owner
  }

  lemma BulkRenameIsExact(t: Table, source: Source, newName: string)
    ensures IsRenamed(t, BulkRename(t, source, newName), source, newName)
    ensures Selected(t, source, None, None) == MovingRows(t, source)
  {
  }

  /** New rows of other transactions; none touches a row that is there. */
  function Arrived(t: Table, arrivals: seq<Table>): Table {
    if arrivals == [] then t else arrivals[|arrivals| - 1] + Arrived(t, arrivals[..|arrivals| - 1])
  }

  /** Whatever part of the rows has moved, moving the rest ends as the single UPDATE does, and no row counts twice. */
  lemma RerunCompletes(all: Table, moved: set<nat>, t: Table, source: Source, newName: string)
    requires source.oldName != Some(newName)
    requires moved <= Selected(all, source, None, None) && t == WithOwner(all, moved, newName)
    ensures WithOwner(t, Selected(t, source, None, None), newName) == BulkRename(all, source, newName)
    ensures |moved| + |Selected(t, source, None, None)| == |Selected(all, source, None, None)|
  {
    var last := Selected(t, source, None, None);
    assert moved !! last && moved + last == Selected(all, source, None, None);
  }

  /** A batch takes the keys up to its bound, so fewer are left above it. */
  lemma KeysRemain(t: Table, batch: set<nat>, source: Source, newName: string, above: Option<nat>, upTo: nat)
    requires source.oldName != Some(newName)
    requires upTo in KeysOf(t, Selected(t, source, above, None))
    ensures var left := WithOwner(t, batch, newName);
            |KeysOf(left, Selected(left, source, Some(upTo), None))| < |KeysOf(t, Selected(t, source, above, None))|
  {
    var left := WithOwner(t, batch, newName);
    var id :| id in Selected(t, source, above, None) && t[id].key == upTo;
    assert InRange(upTo, above, None);
    forall j | j in Selected(left, source, Some(upTo), None)
      ensures j in Selected(t, source, above, None) && left[j].key == t[j].key
    {
    }
    FewerKeys(
      KeysOf(left, Selected(left, source, Some(upTo), None)), KeysOf(t, Selected(t, source, above, None)), upTo);
  }

  ghost predicate Before(t: Table, a: set<nat>, b: set<nat>) {
    forall x, y :: x in a && y in b && x in t && y in t ==> t[x].key < t[y].key
  }

  /** No key in two batches, and later batches hold later keys. */
  ghost predicate Ordered(t: Table, batches: seq<set<nat>>) {
    forall i, j :: 0 <= i < j < |batches| ==> Before(t, batches[i], batches[j])
  }

  /** Ordered batches of `n` keys each. */
  ghost predicate Batched(t: Table, batches: seq<set<nat>>, n: nat) {
    (forall i :: 0 <= i < |batches| ==> |KeysOf(t, batches[i])| == n) && Ordered(t, batches)
  }

  ghost predicate NotAfter(t: Table, a: set<nat>, bound: Option<nat>) {
    forall x :: x in a ==> x in t && bound.Some? && t[x].key <= bound.value
  }

  ghost predicate Within(t: Table, batches: seq<set<nat>>, bound: Option<nat>) {
    forall i :: 0 <= i < |batches| ==> NotAfter(t, batches[i], bound)
  }

  lemma BatchesStay(t: Table, u: Table, batches: seq<set<nat>>, n: nat, bound: Option<nat>)
    requires Batched(t, batches, n) && Within(t, batches, bound)
    requires forall id :: id in t ==> id in u && u[id].key == t[id].key
    ensures Batched(u, batches, n) && Within(u, batches, bound)
  {
    forall i | 0 <= i < |batches| ensures KeysOf(u, batches[i]) == KeysOf(t, batches[i]) {
      assert NotAfter(t, batches[i], bound);
    }
    forall i, j | 0 <= i < j < |batches| ensures Before(u, batches[i], batches[j]) {
      assert NotAfter(t, batches[i], bound) && NotAfter(t, batches[j], bound) && Before(t, batches[i], batches[j]);
    }
  }

  lemma BatchKeys(t: Table, source: Source, above: Option<nat>, upTo: nat)
    requires InRange(upTo, above, None)
    ensures KeysOf(t, Selected(t, source, above, Some(upTo))) == UpTo(KeysOf(t, Selected(t, source, above, None)), upTo)
  {
    var all, batch := Selected(t, source, above, None), Selected(t, source, above, Some(upTo));
    assert forall id :: id in batch <==> id in all && t[id].key <= upTo;
    forall k | k in UpTo(KeysOf(t, all), upTo) ensures k in KeysOf(t, batch) {
      var id :| id in all && t[id].key == k;
      assert id in batch;
    }
  }

  lemma OneMoreBatch(t: Table, batches: seq<set<nat>>, n: nat, batch: set<nat>, above: Option<nat>, upTo: nat)
    requires Batched(t, batches, n) && Within(t, batches, above) && |KeysOf(t, batch)| == n
    requires forall id :: id in batch ==> id in t && InRange(t[id].key, above, Some(upTo))
    requires InRange(upTo, above, None)
    ensures Batched(t, batches + [batch], n) && Within(t, batches + [batch], Some(upTo))
  {
    var more := batches + [batch];
    forall i | 0 <= i < |more| ensures NotAfter(t, more[i], Some(upTo)) {
      assert i < |batches| ==> more[i] == batches[i] && NotAfter(t, batches[i], above);
    }
    forall i, j | 0 <= i < j < |more| ensures Before(t, more[i], more[j]) {
      assert more[i] == batches[i] && NotAfter(t, batches[i], above);
      assert j < |batches| ==> more[j] == batches[j] && Before(t, batches[i], batches[j]);
    }
    forall i | 0 <= i < |more| ensures |KeysOf(t, more[i])| == n {
      assert i < |batches| ==> more[i] == batches[i];
    }
  }

  /** What holds after some batches: `moved` of all the rows there are have the new owner, batch by batch up to
      `bound`. */
  ghost predicate Progress(all: Table, moved: set<nat>, t: Table, source: Source, newName: string,
                           batches: seq<set<nat>>, n: nat, bound: Option<nat>) {
    && moved <= Selected(all, source, None, None) && t == WithOwner(all, moved, newName)
    && Batched(t, batches, n) && Within(t, batches, bound)
  }

  lemma ArrivalsKeepProgress(start: Table, arrivals: seq<Table>, seen: nat, moved: set<nat>, t: Table,
                             source: Source, newName: string, batches: seq<set<nat>>, n: nat, bound: Option<nat>)
    requires seen < |arrivals|
    requires Progress(Arrived(start, arrivals[..seen]), moved, t, source, newName, batches, n, bound)
    ensures Progress(
              Arrived(start, arrivals[..seen + 1]), moved, arrivals[seen] + t, source, newName, batches, n, bound)
  {
    assert arrivals[..seen + 1][..seen] == arrivals[..seen];
    BatchesStay(t, arrivals[seen] + t, batches, n, bound);
  }

  lemma BatchKeepsProgress(all: Table, moved: set<nat>, t: Table, source: Source, newName: string,
                           batches: seq<set<nat>>, n: nat, bound: Option<nat>, upTo: nat)
    requires source.oldName != Some(newName) && Progress(all, moved, t, source, newName, batches, n, bound)
    requires var keys := KeysOf(t, Selected(t, source, bound, None)); upTo in keys && |UpTo(keys, upTo)| == n
    ensures var batch := Selected(t, source, bound, Some(upTo));
            && moved !! batch
            && Progress(all, moved + batch, WithOwner(t, batch, newName), source, newName,
                        batches + [batch], n, Some(upTo))
  {
    var batch := Selected(t, source, bound, Some(upTo));
    var id :| id in Selected(t, source, bound, None) && t[id].key == upTo;
    BatchKeys(t, source, bound, upTo);
    OneMoreBatch(t, batches, n, batch, bound, upTo);
    BatchesStay(t, WithOwner(t, batch, newName), batches + [batch], n, Some(upTo));
  }

  /** No matching row is left at or below the bound. */
  ghost predicate Clear(t: Table, source: Source, bound: Option<nat>) {
    Selected(t, source, None, None) == Selected(t, source, bound, None)
  }

  lemma RangeIsCleared(t: Table, source: Source, newName: string, above: Option<nat>, upTo: nat)
    requires source.oldName != Some(newName) && Clear(t, source, above)
    ensures Clear(WithOwner(t, Selected(t, source, above, Some(upTo)), newName), source, Some(upTo))
  {
    var end := WithOwner(t, Selected(t, source, above, Some(upTo)), newName);
    forall id | id in Selected(end, source, None, None) ensures id in Selected(end, source, Some(upTo), None) {
      assert id in Selected(t, source, None, None);
    }
  }

  /** What a run leaves: the bulk rename's table and count, and batches that split no key. If nothing was left at or
      below the bound before the last batch, that one too holds later keys only. */
  ghost predicate Done(all: Table, t: Table, total: nat, source: Source, newName: string,
                       batches: seq<set<nat>>, n: nat, quiet: bool) {
    && t == BulkRename(all, source, newName) && total == |Selected(all, source, None, None)|
    && batches != [] && Batched(t, batches[..|batches| - 1], n)
    && (quiet ==> Ordered(t, batches) && |KeysOf(t, batches[|batches| - 1])| < n)
  }

  lemma LastBatchIsDone(all: Table, moved: set<nat>, t: Table, source: Source, newName: string,
                        batches: seq<set<nat>>, n: nat, bound: Option<nat>, quiet: bool)
    requires source.oldName != Some(newName) && Progress(all, moved, t, source, newName, batches, n, bound)
    requires quiet ==> Clear(t, source, bound)
    requires |KeysOf(t, Selected(t, source, bound, None))| < n
    ensures var last := Selected(t, source, None, None);
            Done(all, WithOwner(t, last, newName), |moved| + |last|, source, newName, batches + [last], n, quiet)
  {
    var last := Selected(t, source, None, None);
    var end := WithOwner(t, last, newName);
    RerunCompletes(all, moved, t, source, newName);
    BatchesStay(t, end, batches, n, bound);
    assert (batches + [last])[..|batches|] == batches;
    if quiet {
      assert KeysOf(end, last) == KeysOf(t, last);
      forall i, j | 0 <= i < j < |batches + [last]| ensures Before(end, (batches + [last])[i], (batches + [last])[j]) {
        assert NotAfter(t, batches[i], bound);
        assert j < |batches| ==> Before(end, batches[i], batches[j]);
      }
    }
  }

  lemma SuffixGrows<T>(journal: seq<T>, last: T, start: nat)
    requires start <= |journal|
    ensures (journal + [last])[start..] == journal[start..] + [last]
  {
  }

  class OwnedTable {
    var rows: Table
    /** The rows each UPDATE so far has moved, one entry a transaction. */
    var journal: seq<set<nat>>

    constructor (rows: Table)
      ensures this.rows == rows && journal == []
    {
      this.rows := rows;
      journal := [];
    }

    method Update(source: Source, newName: string, above: Option<nat>, upTo: Option<nat>) returns (rowCount: nat)
      modifies this
      ensures rows == WithOwner(old(rows), Selected(old(rows), source, above, upTo), newName)
      ensures journal == old(journal) + [Selected(old(rows), source, above, upTo)]
      ensures rowCount == |Selected(old(rows), source, above, upTo)|
    {
      var ids := Selected(rows, source, above, upTo);
      rows := WithOwner(rows, ids, newName);
      journal := journal + [ids];
      rowCount := |ids|;
    }

    /** Half-open key ranges of `batchSize` keys each. Before each round other transactions may have added rows:
        `arrivals` says which, and `seen` of them came before the last round. */
    method RenameRowsInBatches(source: Source, newName: string, batchSize: Option<nat>, arrivals: seq<Table>)
      returns (total: nat, seen: nat)
      requires source.oldName != Some(newName) && (batchSize.Some? ==> batchSize.value >= 1)
      modifies this
      ensures seen <= |arrivals| && old(journal) <= journal
      ensures var all := Arrived(old(rows), arrivals[..seen]);
              if batchSize.Some? then
                Done(all, rows, total, source, newName, journal[|old(journal)|..], batchSize.value, arrivals == [])
              else rows == BulkRename(all, source, newName) && total == |Selected(all, source, None, None)|
      ensures var all := Arrived(old(rows), arrivals[..seen]);
              IsRenamed(all, rows, source, newName) && total == |MovingRows(all, source)|
    {
      seen := 0;
      if batchSize.None? {
        total := Update(source, newName, None, None);
      } else {
        total, seen := RenameRanges(source, newName, batchSize.value, arrivals);
      }
      BulkRenameIsExact(Arrived(old(rows), arrivals[..seen]), source, newName);
    }

    /** One round of the run that began at `start` in the journal: the range up to the `size`-th matching key, or
        everything that is left. */
    method MoveRange(source: Source, newName: string, size: nat, watermark: Option<nat>,
                     ghost all: Table, ghost moved: set<nat>, ghost start: nat, ghost quiet: bool)
      returns (upper: Option<nat>, n: nat)
      requires source.oldName != Some(newName) && size >= 1 && (quiet ==> Clear(rows, source, watermark))
      requires start <= |journal| && Progress(all, moved, rows, source, newName, journal[start..], size, watermark)
      modifies this
      ensures var batch := Selected(old(rows), source, if upper.Some? then watermark else None, upper);
              journal == old(journal) + [batch] && n == |batch| && batch !! moved
      ensures upper.None? ==> Done(all, rows, |moved| + n, source, newName, journal[start..], size, quiet)
      ensures upper.Some? ==>
                && Progress(all, moved + journal[|journal| - 1], rows, source, newName, journal[start..], size, upper)
                && (quiet ==> Clear(rows, source, upper))
                && |KeysOf(rows, Selected(rows, source, upper, None))|
                   < |KeysOf(old(rows), Selected(old(rows), source, watermark, None))|
    {
      upper := NthKey(KeysOf(rows, Selected(rows, source, watermark, None)), size);
      ghost var batches := journal[start..];
      if upper.None? {
        RerunCompletes(all, moved, rows, source, newName);
        LastBatchIsDone(all, moved, rows, source, newName, batches, size, watermark, quiet);
        n := Update(source, newName, None, None);
      } else {
        BatchKeepsProgress(all, moved, rows, source, newName, batches, size, watermark, upper.value);
        if quiet {
          RangeIsCleared(rows, source, newName, watermark, upper.value);
        }
        KeysRemain(rows, Selected(rows, source, watermark, upper), source, newName, watermark, upper.value);
        n := Update(source, newName, watermark, upper);
      }
      SuffixGrows(old(journal), journal[|journal| - 1], start);
    }

    method RenameRanges(source: Source, newName: string, size: nat, arrivals: seq<Table>)
      returns (total: nat, seen: nat)
      requires source.oldName != Some(newName) && size >= 1
      modifies this
      ensures seen <= |arrivals| && old(journal) <= journal
      ensures Done(Arrived(old(rows), arrivals[..seen]), rows, total, source, newName,
                   journal[|old(journal)|..], size, arrivals == [])
    {
      total, seen := 0, 0;
      var watermark: Option<nat> := None;
      ghost var start, quiet, moved: set<nat> := |journal|, arrivals == [], {};
      while true
        invariant seen <= |arrivals| && old(journal) <= journal && total == |moved|
        invariant Progress(Arrived(old(rows), arrivals[..seen]), moved, rows, source, newName,
                           journal[start..], size, watermark)
        invariant quiet ==> Clear(rows, source, watermark)
        decreases |arrivals| - seen, |KeysOf(rows, Selected(rows, source, watermark, None))|
      {
        if seen < |arrivals| {
          ArrivalsKeepProgress(
            old(rows), arrivals, seen, moved, rows, source, newName, journal[start..], size, watermark);
          rows, seen := arrivals[seen] + rows, seen + 1;
        }
        ghost var all := Arrived(old(rows), arrivals[..seen]);
        var upper, n := MoveRange(source, newName, size, watermark, all, moved, start, quiet);
        total := total + n;
        if upper.None? { return; }
        moved, watermark := moved + journal[|journal| - 1], upper;
      }
    }
  }
}
