/** A recency list under a byte budget: the simple form both cache tiers refine. */
module Recency {
  import opened Protocol

  datatype Render = Render(repo: nat, path: string, target: nat, opts: nat)

  datatype CacheKey = Tree(tree: nat) | Header(render: Render) | Chunk(render: Render, index: nat)

  type Encoded = seq<bv8>

  /** An entry with the byte size it is charged. */
  datatype Item = Item(key: CacheKey, value: Encoded, size: nat)

  function Total(items: seq<Item>): nat { if items == [] then 0 else items[0].size + Total(items[1..]) }

  function Keys(items: seq<Item>): set<CacheKey> { set i | i in items :: i.key }

  predicate Distinct(items: seq<Item>) { forall i, j | 0 <= i < j < |items| :: items[i].key != items[j].key }

  function Without(items: seq<Item>, key: CacheKey): seq<Item> {
    if items == [] then [] else if items[0].key == key then Without(items[1..], key)
        else [items[0]] + Without(items[1..], key)
  }

  function Unpinned(items: seq<Item>, pinned: set<CacheKey>): seq<Item> {
    if items == [] then [] else if items[0].key in pinned then Unpinned(items[1..], pinned)
        else [items[0]] + Unpinned(items[1..], pinned)
  }

  /** What an eviction pass over the list, oldest first, takes out and leaves. */
  function Evicted(items: seq<Item>, pinned: set<CacheKey>, excess: int): seq<Item> {
    if items == [] || excess <= 0 then []
    else if items[0].key in pinned then Evicted(items[1..], pinned, excess)
    else [items[0]] + Evicted(items[1..], pinned, excess - items[0].size)
  }

  function Survivors(items: seq<Item>, pinned: set<CacheKey>, excess: int): seq<Item> {
    if items == [] || excess <= 0 then items
    else if items[0].key in pinned then [items[0]] + Survivors(items[1..], pinned, excess)
    else Survivors(items[1..], pinned, excess - items[0].size)
  }

  lemma EvictionUnfolds(head: Item, rest: seq<Item>, pinned: set<CacheKey>, excess: int)
    requires excess > 0
    ensures head.key in pinned ==>
              && Evicted([head] + rest, pinned, excess) == Evicted(rest, pinned, excess)
              && Survivors([head] + rest, pinned, excess) == [head] + Survivors(rest, pinned, excess)
    ensures head.key !in pinned ==>
              && Evicted([head] + rest, pinned, excess) == [head] + Evicted(rest, pinned, excess - head.size)
              && Survivors([head] + rest, pinned, excess) == Survivors(rest, pinned, excess - head.size)
  {
    assert ([head] + rest)[1..] == rest;
  }

  // ---- sums -----------------------------------------------------------------

  lemma {:induction false} TotalConcat(a: seq<Item>, b: seq<Item>)
    ensures Total(a + b) == Total(a) + Total(b)
    ensures forall i: Item :: Total([i]) == i.size
  {
    assert forall i: Item :: [i][1..] == [];
    if a == [] {
      assert a + b == b;
    } else {
      assert (a + b)[1..] == a[1..] + b;
      TotalConcat(a[1..], b);
    }
  }

  // ---- what an eviction pass achieves ---------------------------------------

  /** Survivors and evicted together are what was there. */
  lemma {:induction false} EvictionConserves(items: seq<Item>, pinned: set<CacheKey>, excess: int)
    ensures multiset(Evicted(items, pinned, excess)) + multiset(Survivors(items, pinned, excess)) == multiset(items)
    ensures Total(Evicted(items, pinned, excess)) + Total(Survivors(items, pinned, excess)) == Total(items)
  {
    if items != [] && excess > 0 {
      assert items == [items[0]] + items[1..];
      EvictionConserves(items[1..], pinned, if items[0].key in pinned then excess else excess - items[0].size);
    }
  }

  /** The evicted entries are the first `n` unpinned ones, in order. */
  lemma {:induction false} EvictedIsPrefix(items: seq<Item>, pinned: set<CacheKey>, excess: int)
    ensures var u, n := Unpinned(items, pinned), |Evicted(items, pinned, excess)|;
            && n <= |u| && Evicted(items, pinned, excess) == u[..n]
            && (n == |u| || excess <= Total(u[..n]))
            && (forall m | 0 <= m < n :: Total(u[..m]) < excess)
  {
    if items != [] && excess > 0 {
      var rest := Unpinned(items[1..], pinned);
      if items[0].key in pinned {
        EvictedIsPrefix(items[1..], pinned, excess);
      } else {
        var less, u := excess - items[0].size, Unpinned(items, pinned);
        EvictedIsPrefix(items[1..], pinned, less);
        assert u == [items[0]] + rest;
        var n := |Evicted(items[1..], pinned, less)|;
        assert u[..n + 1] == [items[0]] + rest[..n] && u[..n + 1][1..] == rest[..n];
        forall m | 0 <= m < n + 1
          ensures Total(u[..m]) < excess
        {
          if m > 0 {
            assert u[..m][1..] == rest[..m - 1];
          }
        }
      }
    }
  }

  /** Afterwards the excess is gone, or only pinned entries are left. */
  lemma {:induction false} SurvivorsFit(items: seq<Item>, pinned: set<CacheKey>, excess: int)
    ensures var left := Survivors(items, pinned, excess);
            Total(left) <= Total(items) - excess || forall i | i in left :: i.key in pinned
  {
    if items != [] && excess > 0 {
      var pinnedHead := items[0].key in pinned;
      SurvivorsFit(items[1..], pinned, if pinnedHead then excess else excess - items[0].size);
      if pinnedHead {
        var left := Survivors(items, pinned, excess);
        assert left[1..] == Survivors(items[1..], pinned, excess) && left == [items[0]] + left[1..];
      }
    }
  }

  /** Pinned entries stay, and the survivors keep their order. */
  lemma {:induction false} PinnedSurvive(items: seq<Item>, pinned: set<CacheKey>, excess: int)
    ensures forall i | i in items && i.key in pinned :: i in Survivors(items, pinned, excess)
    ensures Distinct(items) ==> Survivors(items, pinned, excess) == Kept(items, Keys(Evicted(items, pinned, excess)))
  {
    if items == [] {
    } else if excess <= 0 {
      assert Keys(Evicted(items, pinned, excess)) == {};
      KeptAll(items);
    } else {
      var rest, less := items[1..], if items[0].key in pinned then excess else excess - items[0].size;
      PinnedSurvive(rest, pinned, less);
      var gone := Keys(Evicted(rest, pinned, less));
      if Distinct(items) {
        EvictedKeys(rest, pinned, less);
        assert items[0].key !in gone;
        if items[0].key !in pinned {
          assert Keys(Evicted(items, pinned, excess)) == {items[0].key} + gone by {
            assert Evicted(items, pinned, excess) == [items[0]] + Evicted(rest, pinned, less);
          }
          KeptAway(rest, gone, items[0].key);
        }
      }
    }
  }

  /** The list without some keys, in order. */
  function Kept(items: seq<Item>, gone: set<CacheKey>): seq<Item> {
    if items == [] then [] else if items[0].key in gone then Kept(items[1..], gone)
        else [items[0]] + Kept(items[1..], gone)
  }

  lemma {:induction false} KeptAll(items: seq<Item>)
    ensures Kept(items, {}) == items
  {
    if items != [] {
      KeptAll(items[1..]);
    }
  }

  lemma {:induction false} KeptAway(items: seq<Item>, gone: set<CacheKey>, key: CacheKey)
    requires forall i | 0 <= i < |items| :: items[i].key != key
    ensures Kept(items, {key} + gone) == Kept(items, gone)
  {
    if items != [] {
      KeptAway(items[1..], gone, key);
    }
  }

  lemma {:induction false} EvictedKeys(items: seq<Item>, pinned: set<CacheKey>, excess: int)
    ensures forall i | i in Evicted(items, pinned, excess) :: i in items && i.key !in pinned
    ensures forall i | i in Survivors(items, pinned, excess) :: i in items
  {
    if items != [] && excess > 0 {
      EvictedKeys(items[1..], pinned, if items[0].key in pinned then excess else excess - items[0].size);
    }
  }

  lemma {:induction false} WithoutMembers(items: seq<Item>, key: CacheKey)
    ensures forall i :: i in Without(items, key) <==> i in items && i.key != key
    ensures Distinct(items) ==> Distinct(Without(items, key))
  {
    if items != [] {
      WithoutMembers(items[1..], key);
    }
  }

  // ---- listing slots by tick ------------------------------------------------

  /** The entries with ticks from `a` up to `b`, oldest first. */
  function Listing(slots: map<nat, Item>, a: nat, b: nat): seq<Item> {
    if b <= a then [] else if b - 1 in slots then Listing(slots, a, b - 1) + [slots[b - 1]]
        else Listing(slots, a, b - 1)
  }

  lemma {:induction false} ListingSplit(slots: map<nat, Item>, a: nat, b: nat, c: nat)
    requires a <= b <= c
    ensures Listing(slots, a, c) == Listing(slots, a, b) + Listing(slots, b, c)
  {
    if b < c {
      ListingSplit(slots, a, b, c - 1);
    }
  }

  lemma {:induction false} ListingAgrees(slots: map<nat, Item>, other: map<nat, Item>, a: nat, b: nat)
    requires forall t | a <= t < b :: t in slots <==> t in other
    requires forall t | a <= t < b && t in slots && t in other :: slots[t] == other[t]
    ensures Listing(slots, a, b) == Listing(other, a, b)
  {
    if a < b {
      ListingAgrees(slots, other, a, b - 1);
    }
  }

  lemma {:induction false} ListingEmpty(slots: map<nat, Item>, a: nat, b: nat)
    requires forall t | a <= t < b :: t !in slots
    ensures Listing(slots, a, b) == []
  {
    if a < b {
      ListingEmpty(slots, a, b - 1);
    }
  }

  lemma {:induction false} ListingMembers(slots: map<nat, Item>, a: nat, b: nat)
    ensures forall i :: i in Listing(slots, a, b) <==> exists t: nat :: a <= t < b && t in slots && slots[t] == i
  {
    if a < b {
      ListingMembers(slots, a, b - 1);
      forall i
        ensures i in Listing(slots, a, b) <==> exists t: nat :: a <= t < b && t in slots && slots[t] == i
      {
        if t: nat :| a <= t < b && t in slots && slots[t] == i {
          assert t == b - 1 || (a <= t < b - 1 && t in slots && slots[t] == i);
        }
      }
    }
  }

  lemma ListingOne(slots: map<nat, Item>, t: nat)
    requires t in slots
    ensures Listing(slots, t, t + 1) == [slots[t]] && Listing(slots - {t}, t, t + 1) == []
  {
    assert Listing(slots, t, t) == [];
    ListingEmpty(slots - {t}, t, t + 1);
  }

  /** One tick picked out of a listing. */
  lemma ListingAround(slots: map<nat, Item>, a: nat, t: nat, b: nat)
    requires a <= t < b && t in slots
    ensures Listing(slots, a, b) == Listing(slots, a, t) + [slots[t]] + Listing(slots, t + 1, b)
    ensures Listing(slots - {t}, a, b) == Listing(slots, a, t) + Listing(slots, t + 1, b)
  {
    hide Listing;
    var fewer := slots - {t};
    ListingOne(slots, t);
    ListingSplit(slots, a, t, b);
    ListingSplit(slots, t, t + 1, b);
    ListingSplit(fewer, a, t, b);
    ListingSplit(fewer, t, t + 1, b);
    ListingAgrees(slots, fewer, a, t);
    ListingAgrees(slots, fewer, t + 1, b);
  }

  lemma {:induction false} WithoutConcat(a: seq<Item>, b: seq<Item>, key: CacheKey)
    ensures Without(a + b, key) == Without(a, key) + Without(b, key)
  {
    if a == [] {
      assert a + b == b;
    } else {
      assert (a + b)[1..] == a[1..] + b;
      WithoutConcat(a[1..], b, key);
    }
  }

  lemma {:induction false} WithoutAbsent(items: seq<Item>, key: CacheKey)
    requires forall i | i in items :: i.key != key
    ensures Without(items, key) == items
  {
    if items != [] {
      WithoutAbsent(items[1..], key);
    }
  }

  predicate Injective(slots: map<nat, Item>) {
    forall s, t | s in slots && t in slots && slots[s].key == slots[t].key :: s == t
  }

  /** Taking a slot out takes its key out of the list. */
  lemma ListingWithout(slots: map<nat, Item>, t: nat, b: nat)
    requires Injective(slots) && t in slots && t < b
    ensures Listing(slots - {t}, 0, b) == Without(Listing(slots, 0, b), slots[t].key)
    ensures Total(Listing(slots, 0, b)) == Total(Listing(slots - {t}, 0, b)) + slots[t].size
  {
    hide Listing;
    var key, before, after := slots[t].key, Listing(slots, 0, t), Listing(slots, t + 1, b);
    ListingAround(slots, 0, t, b);
    ListingMembers(slots, 0, t);
    ListingMembers(slots, t + 1, b);
    WithoutConcat(before + [slots[t]], after, key);
    WithoutConcat(before, [slots[t]], key);
    WithoutAbsent(before, key);
    WithoutAbsent(after, key);
    assert Without([slots[t]], key) == [] by {
      assert [slots[t]][1..] == [];
    }
    TotalConcat(before + [slots[t]], after);
    TotalConcat(before, [slots[t]]);
    TotalConcat(before, after);
    assert Total([slots[t]]) == slots[t].size by {
      assert [slots[t]][1..] == [];
    }
  }

  /** A new newest slot. */
  lemma ListingAppend(slots: map<nat, Item>, b: nat, item: Item)
    requires forall t | t in slots :: t < b
    ensures Listing(slots[b := item], 0, b + 1) == Listing(slots, 0, b) + [item]
    ensures Total(Listing(slots[b := item], 0, b + 1)) == Total(Listing(slots, 0, b)) + item.size
  {
    ListingAgrees(slots, slots[b := item], 0, b);
    TotalConcat(Listing(slots, 0, b), [item]);
    assert [item][1..] == [];
  }

  lemma {:induction false} ListingDistinct(slots: map<nat, Item>, b: nat)
    requires Injective(slots)
    ensures Distinct(Listing(slots, 0, b))
  {
    if b > 0 {
      var init := Listing(slots, 0, b - 1);
      ListingDistinct(slots, b - 1);
      ListingMembers(slots, 0, b - 1);
      assert forall k | 0 <= k < |init| :: init[k] in init;
    }
  }

  /** The entry under a key. */
  function Find(items: seq<Item>, key: CacheKey): Option<Item> {
    if items == [] then None else if items[0].key == key then Some(items[0]) else Find(items[1..], key)
  }

  lemma {:induction false} FindMember(items: seq<Item>, key: CacheKey)
    ensures Find(items, key).Some? ==> Find(items, key).value in items && Find(items, key).value.key == key
    ensures Find(items, key).None? ==> forall i | i in items :: i.key != key
  {
    if items != [] && items[0].key != key {
      FindMember(items[1..], key);
    }
  }

  // ---- a map of entries and a map of ticks ----------------------------------

  datatype Entry = Entry(value: Encoded, size: nat, tick: nat)

  /** Ticks and entries are in bijection, all ticks in the past. */
  predicate Matched(entries: map<CacheKey, Entry>, order: map<nat, CacheKey>, next: nat) {
    && (forall t | t in order :: t < next && order[t] in entries && entries[order[t]].tick == t)
    && (forall k | k in entries :: entries[k].tick in order && order[entries[k].tick] == k)
  }

  function Slots(entries: map<CacheKey, Entry>, order: map<nat, CacheKey>): map<nat, Item>
    requires forall t | t in order :: order[t] in entries
  {
    map t | t in order :: Item(order[t], entries[order[t]].value, entries[order[t]].size)
  }

  /** The recency list the two maps stand for. */
  function Listed(entries: map<CacheKey, Entry>, order: map<nat, CacheKey>, next: nat): seq<Item>
    requires Matched(entries, order, next)
  {
    Listing(Slots(entries, order), 0, next)
  }

  lemma {:induction false} ListedFind(entries: map<CacheKey, Entry>, order: map<nat, CacheKey>, next: nat,
                                      key: CacheKey)
    requires Matched(entries, order, next)
    ensures Find(Listed(entries, order, next), key)
         == if key in entries then Some(Item(key, entries[key].value, entries[key].size)) else None
    ensures Distinct(Listed(entries, order, next))
  {
    var slots, items := Slots(entries, order), Listed(entries, order, next);
    ListingMembers(slots, 0, next);
    ListingDistinct(slots, next);
    FindMember(items, key);
    if key in entries {
      var t := entries[key].tick;
      assert t in slots && slots[t] in items && slots[t].key == key;
    }
  }

  lemma MatchedRemove(entries: map<CacheKey, Entry>, order: map<nat, CacheKey>, next: nat, key: CacheKey)
    requires Matched(entries, order, next) && key in entries
    ensures var t := entries[key].tick;
            Matched(entries - {key}, order - {t}, next)
              && Slots(entries - {key}, order - {t}) == Slots(entries, order) - {t}
  {
  }

  lemma SlotsInjective(entries: map<CacheKey, Entry>, order: map<nat, CacheKey>, next: nat)
    requires Matched(entries, order, next)
    ensures Injective(Slots(entries, order))
  {
  }

  lemma ListedRemove(entries: map<CacheKey, Entry>, order: map<nat, CacheKey>, next: nat, key: CacheKey)
    requires Matched(entries, order, next) && key in entries
    ensures var t := entries[key].tick;
            && Matched(entries - {key}, order - {t}, next)
            && Slots(entries - {key}, order - {t}) == Slots(entries, order) - {t}
            && Listed(entries - {key}, order - {t}, next) == Without(Listed(entries, order, next), key)
            && Total(Listed(entries, order, next))
               == Total(Listed(entries - {key}, order - {t}, next)) + entries[key].size
  {
    MatchedRemove(entries, order, next, key);
    SlotsInjective(entries, order, next);
    ListingWithout(Slots(entries, order), entries[key].tick, next);
  }

  lemma ListedAdd(entries: map<CacheKey, Entry>, order: map<nat, CacheKey>, next: nat, item: Item)
    requires Matched(entries, order, next) && item.key !in entries
    ensures var more, ticks := entries[item.key := Entry(item.value, item.size, next)], order[next := item.key];
            && Matched(more, ticks, next + 1)
            && Listed(more, ticks, next + 1) == Listed(entries, order, next) + [item]
            && Total(Listed(more, ticks, next + 1)) == Total(Listed(entries, order, next)) + item.size
  {
    var more, ticks := entries[item.key := Entry(item.value, item.size, next)], order[next := item.key];
    assert Slots(more, ticks) == Slots(entries, order)[next := item];
    ListingAppend(Slots(entries, order), next, item);
  }

  /** A tick counter that moved on without a new entry. */
  lemma ListedLater(entries: map<CacheKey, Entry>, order: map<nat, CacheKey>, next: nat)
    requires Matched(entries, order, next)
    ensures Matched(entries, order, next + 1) && Listed(entries, order, next + 1) == Listed(entries, order, next)
  {
  }

  lemma ListedAbsent(entries: map<CacheKey, Entry>, order: map<nat, CacheKey>, next: nat, key: CacheKey)
    requires Matched(entries, order, next) && key !in entries
    ensures Without(Listed(entries, order, next), key) == Listed(entries, order, next)
  {
    ListingMembers(Slots(entries, order), 0, next);
    WithoutAbsent(Listed(entries, order, next), key);
  }

  /** The oldest tick from `a` on. */
  function FirstFrom(order: map<nat, CacheKey>, a: nat, b: nat): (t: nat)
    requires a <= b
    ensures a <= t <= b && (t < b ==> t in order) && forall s | a <= s < t :: s !in order
    decreases b - a
  {
    if a == b || a in order then a else FirstFrom(order, a + 1, b)
  }
}
