/**
 * The assets a details query returns: an `ArrayObject` keyed by asset
 * identifier, the single `ArrayIterator` over it that every caller shares,
 * and the total number of matches.
 */
module QueryResults {
  import opened Wrappers
  import opened PhpValues
  import Assoc

  /** A value held in the asset collection: an asset's data, or anything else `offsetSet` stored. */
  datatype Element = AssetData(data: Record) | Scalar(value: Value)

  type Entries = seq<(string, Element)>

  /** The `ArrayObject`: keys are distinct, in insertion order. */
  class AssetCollection {
    var entries: Entries

    constructor(entries: Entries)
      ensures this.entries == entries
    {
      this.entries := entries;
    }
  }

  /**
   * The `ArrayIterator` of an `ArrayObject`: it reads and writes the
   * collection it was created from, and its cursor is a position in it.
   */
  class AssetIterator {
    const storage: AssetCollection
    var position: nat

    ghost predicate Inv()
      reads this, storage
    {
      Assoc.DistinctKeys(storage.entries) && position <= |storage.entries|
    }

    /** Created by `getIterator()`: over the collection, at its first entry. */
    constructor(storage: AssetCollection)
      requires Assoc.DistinctKeys(storage.entries)
      ensures this.storage == storage && position == 0 && Inv()
    {
      this.storage := storage;
      position := 0;
    }

    /** `valid()`: the cursor stands on an entry. */
    predicate Valid()
      reads this, storage
    {
      position < |storage.entries|
    }

    /** `current()`: the entry under the cursor, nothing past the end. */
    function Current(): (e: Option<Element>)
      reads this, storage
      ensures e.Some? <==> Valid()
      ensures e.Some? ==> (Key().value, e.value) in storage.entries
    {
      if Valid() then Some(storage.entries[position].1) else None
    }

    /** `key()`: the key under the cursor, nothing past the end. */
    function Key(): (k: Option<string>)
      reads this, storage
      ensures k.Some? <==> Valid()
      ensures k.Some? ==> Assoc.HasKey(storage.entries, k.value)
    {
      if Valid() then Some(storage.entries[position].0) else None
    }

    /** `next()`: one entry on; past the end it stays there. */
    method Next()
      requires Inv()
      modifies this`position
      ensures Inv()
      ensures position == if old(Valid()) then old(position) + 1 else old(position)
    {
      if position < |storage.entries| {
        position := position + 1;
      }
    }

    /** `rewind()`: back to the first entry. */
    method Rewind()
      requires Inv()
      modifies this`position
      ensures Inv() && position == 0
    {
      position := 0;
    }

    /** `offsetExists($k)`. */
    predicate OffsetExists(k: string)
      reads storage
    {
      Assoc.HasKey(storage.entries, k)
    }

    /** `offsetGet($k)`: the element under the key; nothing (PHP's null) for a missing key. */
    function OffsetGet(k: string): (e: Option<Element>)
      reads storage
      ensures e.Some? <==> OffsetExists(k)
      ensures e.Some? ==> (k, e.value) in storage.entries
    {
      Assoc.Get(storage.entries, k)
    }

    /**
     * `offsetSet($k, $v)`: writes through to the collection; an existing key
     * keeps its place, a new one is appended; the cursor does not move.
     */
    method OffsetSet(k: string, e: Element)
      requires Inv()
      modifies storage
      ensures storage.entries == Assoc.Put(old(storage.entries), k, e)
      ensures Inv() && position == old(position)
      ensures OffsetGet(k) == Some(e)
    {
      Assoc.PutKeepsKeysDistinct(storage.entries, k, e);
      Assoc.GetPut(storage.entries, k, e, k);
      storage.entries := Assoc.Put(storage.entries, k, e);
    }

    /**
     * `offsetUnset($k)`: removes the entry from the collection. The cursor
     * keeps standing on the same entry when an earlier one is removed, and
     * moves on to the next entry when its own is removed.
     */
    method OffsetUnset(k: string)
      requires Inv()
      modifies storage, this`position
      ensures storage.entries == Assoc.Remove(old(storage.entries), k)
      ensures Inv() && !OffsetExists(k)
      ensures !old(OffsetExists(k)) ==> position == old(position)
      ensures old(OffsetExists(k)) && Assoc.IndexOf(old(storage.entries), k).value < old(position) ==>
        position == old(position) - 1 && Current() == old(Current())
      ensures old(OffsetExists(k)) && Assoc.IndexOf(old(storage.entries), k).value >= old(position) ==>
        position == old(position)
      ensures old(OffsetExists(k)) && Assoc.IndexOf(old(storage.entries), k).value == old(position) ==>
        Current() == if old(position) + 1 < |old(storage.entries)| then Some(old(storage.entries)[old(position) + 1].1) else None
    {
      var before := storage.entries;
      Assoc.GetRemove(before, k, k);
      Assoc.RemoveKeepsKeysDistinct(before, k);
      var ix := Assoc.IndexOf(before, k);
      if ix.None? {
        Assoc.RemoveAbsent(before, k);
        storage.entries := Assoc.Remove(before, k);
      } else {
        var i := ix.value;
        Assoc.RemoveAt(before, i);
        storage.entries := Assoc.Remove(before, k);
        RemovedAt(before, storage.entries, i);
        if i < position {
          position := position - 1;
        }
      }
    }
  }

  /** What removing the element at position `i` does to every other position. */
  lemma RemovedAt<T>(before: seq<T>, after: seq<T>, i: nat)
    requires i < |before| && after == before[..i] + before[i + 1..]
    ensures |after| == |before| - 1
    ensures forall j :: 0 <= j < i ==> after[j] == before[j]
    ensures forall j :: i <= j < |after| ==> after[j] == before[j + 1]
  {
  }

  /** The assets of one details query and the total number of matches behind them. */
  class MediaWikiQueryResult {
    const assets: AssetCollection
    const assetIterator: AssetIterator
    const totalResults: int

    /** The assets keep their keys and order; the iterator starts at the first of them. */
    constructor(entries: Entries, totalResults: int)
      requires Assoc.DistinctKeys(entries)
      ensures fresh(assets) && fresh(assetIterator)
      ensures assets.entries == entries && this.totalResults == totalResults
      ensures assetIterator.storage == assets && assetIterator.position == 0 && assetIterator.Inv()
    {
      var collection := new AssetCollection(entries);
      assets := collection;
      assetIterator := new AssetIterator(collection);
      this.totalResults := totalResults;
    }

    /** The same collection object on every call. */
    function GetAssets(): (a: AssetCollection)
      ensures a == assets
    {
      assets
    }

    /** The same iterator object on every call, so its position is shared by all callers. */
    function GetAssetIterator(): (it: AssetIterator)
      ensures it == assetIterator
    {
      assetIterator
    }

    /** The total given at construction, whatever the number of assets. */
    function GetTotalResults(): (n: int)
      ensures n == totalResults
    {
      totalResults
    }
  }
}
