/** The memory tier: entries by key, recency by tick, a byte budget and pins. It refines the recency list. */
module Cache {
  import opened Protocol
  import opened Recency

  class ContentCache {
    const budget: nat
    var used: nat
    var entries: map<CacheKey, Entry>
    var order: map<nat, CacheKey>
    var nextTick: nat
    var pinned: set<CacheKey>

    ghost predicate Valid() reads this {
      Matched(entries, order, nextTick) && used == Total(Listed(entries, order, nextTick))
    }

    /** Oldest first. */
    ghost function Items(): seq<Item>
      requires Valid()
      reads this
    {
      Listed(entries, order, nextTick)
    }

    constructor (budget: nat)
      ensures Valid() && Items() == [] && pinned == {} && this.budget == budget
    {
      this.budget, used, entries, order, nextTick, pinned := budget, 0, map[], map[], 0, {};
    }

    /** A hit becomes the newest entry; a miss changes no recency. */
    method Get(key: CacheKey) returns (value: Option<Encoded>)
      requires Valid()
      modifies this
      ensures Valid() && pinned == old(pinned)
      ensures match Find(old(Items()), key)
              case None => value == None && Items() == old(Items())
              case Some(item) => value == Some(item.value) && Items() == Without(old(Items()), key) + [item]
    {
      var tick := nextTick;
      nextTick := nextTick + 1;
      ListedFind(entries, order, tick, key);
      ListedLater(entries, order, tick);
      if key !in entries { return None; }
      var entry := entries[key];
      ListedRemove(entries, order, tick, key);
      ListedAdd(entries - {key}, order - {entry.tick}, tick, Item(key, entry.value, entry.size));
      order := order - {entry.tick};
      entries := entries[key := entry.(tick := tick)];
      order := order[tick := key];
      assert entries == (old(entries) - {key})[key := Entry(entry.value, entry.size, tick)];
      value := Some(entry.value);
    }

    method Remove(key: CacheKey) returns (value: Option<Encoded>)
      requires Valid()
      modifies this
      ensures Valid() && Items() == Without(old(Items()), key)
      ensures value == (if Find(old(Items()), key).Some? then Some(Find(old(Items()), key).value.value) else None)
      ensures pinned == if value.Some? then old(pinned) - {key} else old(pinned)
    {
      ListedFind(entries, order, nextTick, key);
      if key !in entries {
        ListedAbsent(entries, order, nextTick, key);
        return None;
      }
      var entry := entries[key];
      ListedRemove(entries, order, nextTick, key);
      entries := entries - {key};
      order := order - {entry.tick};
      used := used - entry.size;
      pinned := pinned - {key};
      value := Some(entry.value);
    }

    method Insert(key: CacheKey, value: Encoded, size: nat) returns (out: seq<Item>)
      requires Valid()
      modifies this
      ensures Valid() && pinned == old(pinned)
      ensures var items := Without(old(Items()), key) + [Item(key, value, size)];
              && out == Evicted(items, pinned, Total(items) - budget)
              && Items() == Survivors(items, pinned, Total(items) - budget)
    {
      Detach(key);
      Append(Item(key, value, size));
      out := Evict();
    }

    method Detach(key: CacheKey)
      requires Valid()
      modifies `used, `entries, `order
      ensures Valid() && Items() == Without(old(Items()), key) && key !in entries
    {
      if key in entries {
        var gone := entries[key];
        ListedRemove(entries, order, nextTick, key);
        entries := entries - {key};
        order := order - {gone.tick};
        used := used - gone.size;
      } else {
        ListedAbsent(entries, order, nextTick, key);
      }
    }

    method Append(item: Item)
      requires Valid() && item.key !in entries
      modifies `used, `entries, `order, `nextTick
      ensures Valid() && Items() == old(Items()) + [item]
    {
      ListedAdd(entries, order, nextTick, item);
      var tick := nextTick;
      nextTick := nextTick + 1;
      used := used + item.size;
      order := order[tick := item.key];
      entries := entries[item.key := Entry(item.value, item.size, tick)];
    }

    method Pin(key: CacheKey)
      requires Valid()
      modifies `pinned
      ensures Valid() && pinned == old(pinned) + {key} && Items() == old(Items())
    {
      pinned := pinned + {key};
    }

    method Unpin(key: CacheKey)
      requires Valid()
      modifies `pinned
      ensures Valid() && pinned == old(pinned) - {key} && Items() == old(Items())
    {
      pinned := pinned - {key};
    }

    method RetainPins(keep: CacheKey -> bool) returns (out: seq<Item>)
      requires Valid()
      modifies this
      ensures Valid() && pinned == set k | k in old(pinned) && keep(k)
      ensures out == Evicted(old(Items()), pinned, Total(old(Items())) - budget)
      ensures Items() == Survivors(old(Items()), pinned, Total(old(Items())) - budget)
    {
      pinned := set k | k in pinned && keep(k);
      out := Evict();
    }

    method ClearPins() returns (out: seq<Item>)
      requires Valid()
      modifies this
      ensures Valid() && pinned == {}
      ensures out == Evicted(old(Items()), {}, Total(old(Items())) - budget)
      ensures Items() == Survivors(old(Items()), {}, Total(old(Items())) - budget)
    {
      pinned := {};
      out := Evict();
    }

    /** Walk the ticks upward from a cursor, skipping pinned entries, until the budget holds. */
    method Evict() returns (out: seq<Item>)
      requires Valid()
      modifies `used, `entries, `order
      ensures Valid()
      ensures out == Evicted(old(Items()), pinned, Total(old(Items())) - budget)
      ensures Items() == Survivors(old(Items()), pinned, Total(old(Items())) - budget)
    {
      hide Evicted, Survivors, Listing, FirstFrom;
      out := [];
      var cursor := 0;
      ghost var items, excess := Items(), used - budget;
      NothingPassed(items, excess);
      while used > budget
        invariant Valid() && cursor <= nextTick && Progress(items, excess, out, cursor)
        decreases nextTick - cursor
      {
        var tick := FirstFrom(order, cursor, nextTick);
        PassedTo(cursor, tick);
        if tick == nextTick {
          break;
        }
        var key := order[tick];
        cursor := tick + 1;
        PassedOver(tick, items, excess, out);
        if key in pinned {
          continue;
        }
        var item := Drop(tick);
        out := out + [item];
      }
      AllPassed(items, excess, out, cursor);
    }

    lemma NothingPassed(items: seq<Item>, excess: int)
      requires Valid() && items == Items() && excess == used - budget
      ensures Progress(items, excess, [], 0)
    {
    }

    lemma AllPassed(items: seq<Item>, excess: int, out: seq<Item>, cursor: nat)
      requires Valid() && cursor <= nextTick && Progress(items, excess, out, cursor)
               && (used <= budget || Rest(cursor) == [])
      ensures out == Evicted(items, pinned, excess) && Items() == Survivors(items, pinned, excess)
    {
      ListingSplit(Slots(entries, order), 0, cursor, nextTick);
    }

    method Drop(tick: nat) returns (item: Item)
      requires Valid() && tick in order
      modifies `used, `entries, `order
      ensures Valid() && item == old(Slots(entries, order)[tick]) && used == old(used) - item.size
      ensures Passed(tick + 1) == old(Passed(tick)) && Rest(tick + 1) == old(Rest(tick + 1))
    {
      var key := order[tick];
      var entry := entries[key];
      ListedRemove(entries, order, nextTick, key);
      TakenOut(tick);
      order := order - {tick};
      entries := entries - {key};
      used := used - entry.size;
      item := Item(key, entry.value, entry.size);
    }

    /** What is left to evict and to keep is what the pass still owes beyond the cursor. */
    ghost predicate Progress(items: seq<Item>, excess: int, out: seq<Item>, cursor: nat)
      requires Valid()
      reads this
    {
      && Evicted(items, pinned, excess) == out + Evicted(Rest(cursor), pinned, used - budget)
      && Survivors(items, pinned, excess) == Passed(cursor) + Survivors(Rest(cursor), pinned, used - budget)
    }

    ghost function Passed(cursor: nat): seq<Item>
      requires Valid()
      reads this
    {
      Listing(Slots(entries, order), 0, cursor)
    }

    ghost function Rest(cursor: nat): seq<Item>
      requires Valid()
      reads this
    {
      Listing(Slots(entries, order), cursor, nextTick)
    }

    lemma PassedTo(cursor: nat, tick: nat)
      requires Valid() && cursor <= tick <= nextTick && forall s | cursor <= s < tick :: s !in order
      ensures Passed(tick) == Passed(cursor) && Rest(tick) == Rest(cursor) && (tick == nextTick ==> Rest(cursor) == [])
    {
      var slots := Slots(entries, order);
      ListingSplit(slots, 0, cursor, tick);
      ListingSplit(slots, cursor, tick, nextTick);
      ListingEmpty(slots, cursor, tick);
    }

    lemma PassedOver(tick: nat, items: seq<Item>, excess: int, out: seq<Item>)
      requires Valid() && tick < nextTick && tick in order && used > budget && Progress(items, excess, out, tick)
      ensures order[tick] in pinned ==> Progress(items, excess, out, tick + 1)
      ensures order[tick] !in pinned ==>
                var item := Slots(entries, order)[tick];
                && Evicted(items, pinned, excess)
                   == out + [item] + Evicted(Rest(tick + 1), pinned, used - item.size - budget)
                && Survivors(items, pinned, excess)
                   == Passed(tick) + Survivors(Rest(tick + 1), pinned, used - item.size - budget)
    {
      var item := Slots(entries, order)[tick];
      ListingAround(Slots(entries, order), tick, tick, nextTick);
      ListingAround(Slots(entries, order), 0, tick, tick + 1);
      assert Rest(tick) == [item] + Rest(tick + 1);
      assert Passed(tick + 1) == Passed(tick) + [item];
      EvictionUnfolds(item, Rest(tick + 1), pinned, used - budget);
    }

    lemma TakenOut(tick: nat)
      requires Valid() && tick < nextTick && tick in order
      ensures var fewer := Slots(entries, order) - {tick};
              Listing(fewer, 0, tick + 1) == Passed(tick) && Listing(fewer, tick + 1, nextTick) == Rest(tick + 1)
    {
      var slots := Slots(entries, order);
      ListingAround(slots, 0, tick, tick + 1);
      ListingAgrees(slots, slots - {tick}, tick + 1, nextTick);
    }
  }

  /**
   What every eviction promises: the shortest oldest-first run of unpinned entries that meets the budget,
   or all of them.
   */
  lemma {:induction false} EvictionIsShortest(items: seq<Item>, pinned: set<CacheKey>, budget: nat)
    ensures var excess := Total(items) - budget;
            var out, left, free := Evicted(items, pinned, excess), Survivors(items, pinned, excess),
                Unpinned(items, pinned);
            && |out| <= |free| && out == free[..|out|]
            && (forall n | 0 <= n < |out| :: Total(items) - Total(free[..n]) > budget)
            && (Total(left) <= budget || out == free)
  {
    hide Survivors, Evicted;
    var excess := Total(items) - budget;
    EvictedIsPrefix(items, pinned, excess);
    EvictionConserves(items, pinned, excess);
    var free, n := Unpinned(items, pinned), |Evicted(items, pinned, excess)|;
    assert free[..|free|] == free;
  }
}
