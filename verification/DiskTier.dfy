/** The disk tier: a session-local index of what was written or loaded, and the effects that keep the host in step. */
module DiskTier {
  import opened Protocol
  import opened Recency

  datatype Effect = Persist(key: CacheKey, value: Encoded) | Remove(key: CacheKey)

  /** A key on disk at a size; the index keeps no content. */
  function OnDisk(key: CacheKey, size: nat): Item { Item(key, [], size) }

  // ---- the index as a list, oldest first ------------------------------------

  function Fresh(index: seq<Item>, key: CacheKey, size: nat): seq<Item> { Without(index, key) + [OnDisk(key, size)] }

  /** The entries a touch pushes out, and what the index then holds. */
  function PushedOut(index: seq<Item>, budget: nat, key: CacheKey, size: nat): seq<Item> {
    var renewed := Fresh(index, key, size); Evicted(renewed, {key}, Total(renewed) - budget)
  }

  function Touched(index: seq<Item>, budget: nat, key: CacheKey, size: nat): seq<Item> {
    var renewed := Fresh(index, key, size); Survivors(renewed, {key}, Total(renewed) - budget)
  }

  function KeysOf(items: seq<Item>): seq<CacheKey> { seq(|items|, i requires 0 <= i < |items| => items[i].key) }

  function RemoveAll(gone: seq<CacheKey>): seq<Effect> { seq(|gone|, i requires 0 <= i < |gone| => Remove(gone[i])) }

  function Removals(gone: seq<Item>): seq<Effect> { RemoveAll(KeysOf(gone)) }

  function PersistEffects(index: seq<Item>, budget: nat, e: Item): seq<Effect> {
    Removals(PushedOut(index, budget, e.key, |e.value|)) + [Persist(e.key, e.value)]
  }

  /** One eviction written through: already indexed keys are only touched, others are written again. */
  function Through(index: seq<Item>, budget: nat, e: Item): (seq<Item>, seq<Effect>) {
    if Find(index, e.key).Some? then (Touched(index, budget, e.key, e.size),
        Removals(PushedOut(index, budget, e.key, e.size)))
    else (Touched(index, budget, e.key, |e.value|), PersistEffects(index, budget, e))
  }

  function ThroughAll(index: seq<Item>, budget: nat, evicted: seq<Item>): (seq<Item>, seq<Effect>) {
    if evicted == [] then (index, [])
    else
      var before := ThroughAll(index, budget, evicted[..|evicted| - 1]);
      var last := Through(before.0, budget, evicted[|evicted| - 1]);
      (last.0, before.1 + last.1)
  }

  // ---- the index in place ---------------------------------------------------

  class DiskIndex {
    const budget: nat
    var used: nat
    var sizes: map<CacheKey, Entry>
    var order: map<nat, CacheKey>
    var nextTick: nat

    ghost predicate Valid() reads this {
      && Matched(sizes, order, nextTick) && used == Total(Listed(sizes, order, nextTick))
      && forall k | k in sizes :: sizes[k].value == []
    }

    ghost function Index(): seq<Item>
      requires Valid()
      reads this
    {
      Listed(sizes, order, nextTick)
    }

    constructor (budget: nat)
      ensures Valid() && Index() == [] && this.budget == budget
    {
      this.budget, used, sizes, order, nextTick := budget, 0, map[], map[], 0;
    }

    method Forget(key: CacheKey)
      requires Valid()
      modifies this
      ensures Valid() && Index() == Without(old(Index()), key)
    {
      if key in sizes {
        var entry := sizes[key];
        ListedRemove(sizes, order, nextTick, key);
        sizes := sizes - {key};
        order := order - {entry.tick};
        used := used - entry.size;
      } else {
        ListedAbsent(sizes, order, nextTick, key);
      }
    }

    method Append(key: CacheKey, size: nat)
      requires Valid() && key !in sizes
      modifies this
      ensures Valid() && Index() == old(Index()) + [OnDisk(key, size)] && key in sizes
    {
      ListedAdd(sizes, order, nextTick, OnDisk(key, size));
      var tick := nextTick;
      nextTick := nextTick + 1;
      used := used + size;
      order := order[tick := key];
      sizes := sizes[key := Entry([], size, tick)];
    }

    /** The oldest entry leaves. */
    method DropOldest(tick: nat) returns (gone: CacheKey)
      requires Valid() && tick in order && forall t | 0 <= t < tick :: t !in order
      modifies this
      ensures Valid() && old(Index()) != [] && gone == old(order)[tick]
      ensures gone == old(Index())[0].key && Index() == old(Index())[1..] && used == old(used) - old(Index())[0].size
    {
      gone := order[tick];
      var entry := sizes[gone];
      ghost var slots := Slots(sizes, order);
      ListedRemove(sizes, order, nextTick, gone);
      ListingAround(slots, 0, tick, nextTick);
      ListingEmpty(slots, 0, tick);
      sizes := sizes - {gone};
      order := order - {tick};
      used := used - entry.size;
      assert Index() == Listing(slots, tick + 1, old(nextTick));
    }

    lemma FirstTick(tick: nat)
      requires Valid() && tick <= nextTick && (tick < nextTick ==> tick in order) && forall t | 0 <= t < tick ::
               t !in order
      ensures tick == nextTick ==> Index() == []
      ensures tick < nextTick ==> Index() != [] && Index()[0].key == order[tick]
    {
      ListingEmpty(Slots(sizes, order), 0, tick);
      if tick < nextTick {
        ListingAround(Slots(sizes, order), 0, tick, nextTick);
      }
    }

    /** Record a key as most recently used; the keys that must go to stay in budget come back, oldest first. */
    method Touch(key: CacheKey, size: nat) returns (out: seq<CacheKey>)
      requires Valid()
      modifies this
      ensures Valid() && Index() == Touched(old(Index()), budget, key, size)
      ensures out == KeysOf(PushedOut(old(Index()), budget, key, size))
    {
      Forget(key);
      ListedFind(sizes, order, nextTick, key);
      WithoutMembers(old(Index()), key);
      FindMember(Index(), key);
      Append(key, size);
      EndsFresh(Without(old(Index()), key), key, size);
      out := Trim(key);
    }

    /** Oldest entries leave until the budget holds or only `key` is left. */
    method Trim(key: CacheKey) returns (out: seq<CacheKey>)
      requires Valid() && Ends(Index(), key)
      modifies this
      ensures Valid() && Index() == Survivors(old(Index()), {key}, Total(old(Index())) - budget)
      ensures out == KeysOf(Evicted(old(Index()), {key}, Total(old(Index())) - budget))
    {
      hide Evicted, Survivors, FirstFrom, Listing;
      ghost var all, excess := Index(), used - budget;
      out := [];
      ghost var gone: seq<Item> := [];
      OwesAll(all, excess, key);
      while used > budget
        invariant Valid() && Ends(Index(), key) && out == KeysOf(gone)
                  && Owes(all, excess, key, gone, Index(), used - budget)
        decreases |Index()|
      {
        var t := FirstFrom(order, 0, nextTick);
        FirstTick(t);
        if t == nextTick { break; }
        if order[t] == key {
          LoneEntry(Index(), key, used - budget);
          break;
        }
        OwesLess(all, excess, key, gone, Index(), used - budget);
        gone := gone + [Index()[0]];
        var k := DropOldest(t);
        out := out + [k];
      }
      OwesNothing(all, excess, key, gone, Index(), used - budget);
    }

    method WritePersist(key: CacheKey, value: Encoded) returns (effects: seq<Effect>)
      requires Valid()
      modifies this
      ensures Valid() && Index() == Touched(old(Index()), budget, key, |value|)
      ensures forall size :: effects == PersistEffects(old(Index()), budget, Item(key, value, size))
    {
      var gone := Touch(key, |value|);
      effects := RemoveAll(gone) + [Persist(key, value)];
    }

    /** Memory evictions reach the disk tier. */
    method WriteThrough(evicted: seq<Item>) returns (effects: seq<Effect>)
      requires Valid()
      modifies this
      ensures Valid() && (Index(), effects) == ThroughAll(old(Index()), budget, evicted)
    {
      effects := [];
      for n := 0 to |evicted|
        invariant Valid() && (Index(), effects) == ThroughAll(old(Index()), budget, evicted[..n])
      {
        var e := evicted[n];
        assert evicted[..n + 1][..n] == evicted[..n];
        ListedFind(sizes, order, nextTick, e.key);
        if e.key in sizes {
          var gone := Touch(e.key, e.size);
          effects := effects + RemoveAll(gone);
        } else {
          var more := WritePersist(e.key, e.value);
          assert more == PersistEffects(ThroughAll(old(Index()), budget, evicted[..n]).0, budget,
                 Item(e.key, e.value, e.size));
          effects := effects + more;
        }
      }
      assert evicted[..|evicted|] == evicted;
    }
  }

  /** `key` is the newest entry and occurs once. */
  predicate Ends(items: seq<Item>, key: CacheKey) {
    items != [] && items[|items| - 1].key == key && forall i | 0 <= i < |items| - 1 :: items[i].key != key
  }

  lemma EndsFresh(index: seq<Item>, key: CacheKey, size: nat)
    requires forall i | i in index :: i.key != key
    ensures Ends(index + [OnDisk(key, size)], key)
  {
  }

  lemma LoneEntry(items: seq<Item>, key: CacheKey, excess: int)
    requires Ends(items, key) && items[0].key == key
    ensures |items| == 1 && Evicted(items, {key}, excess) == [] && Survivors(items, {key}, excess) == items
  {
    assert items[1..] == [];
  }

  /** The pass over `all` has taken out `gone` and still has `items` to go. */
  predicate Owes(all: seq<Item>, excess: int, key: CacheKey, gone: seq<Item>, items: seq<Item>, still: int) {
    && Evicted(all, {key}, excess) == gone + Evicted(items, {key}, still)
    && Survivors(all, {key}, excess) == Survivors(items, {key}, still)
  }

  lemma OwesAll(all: seq<Item>, excess: int, key: CacheKey)
    ensures Owes(all, excess, key, [], all, excess)
  {
  }

  lemma OwesNothing(all: seq<Item>, excess: int, key: CacheKey, gone: seq<Item>, items: seq<Item>, still: int)
    requires Owes(all, excess, key, gone, items, still)
    requires still <= 0 || (Evicted(items, {key}, still) == [] && Survivors(items, {key}, still) == items)
    ensures gone == Evicted(all, {key}, excess) && items == Survivors(all, {key}, excess)
  {
  }

  lemma OwesLess(all: seq<Item>, excess: int, key: CacheKey, gone: seq<Item>, items: seq<Item>, still: int)
    requires Owes(all, excess, key, gone, items, still) && Ends(items, key) && items[0].key != key && still > 0
    ensures Owes(all, excess, key, gone + [items[0]], items[1..], still - items[0].size) && Ends(items[1..], key)
    ensures KeysOf(gone + [items[0]]) == KeysOf(gone) + [items[0].key]
  {
    assert items == [items[0]] + items[1..];
    EvictionUnfolds(items[0], items[1..], {key}, still);
  }
}
