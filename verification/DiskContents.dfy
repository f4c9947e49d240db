/** What the host holds: an arriving or evicted value is stored as it is, and only what was pushed out goes. */
module DiskContents {
  import opened Recency
  import opened DiskTier
  import opened DiskRuns

  /** The host's storage after the effects, in order. */
  function Stored(host: map<CacheKey, Encoded>, effects: seq<Effect>): map<CacheKey, Encoded> {
    if effects == [] then host
    else
      var before, e := Stored(host, effects[..|effects| - 1]), effects[|effects| - 1];
      if e.Persist? then before[e.key := e.value] else before - {e.key}
  }

  lemma {:induction false} StoredConcat(host: map<CacheKey, Encoded>, a: seq<Effect>, b: seq<Effect>)
    ensures Stored(host, a + b) == Stored(Stored(host, a), b)
    decreases |b|
  {
    if b == [] {
      assert a + b == a;
    } else {
      var init := b[..|b| - 1];
      assert (a + b)[..|a + b| - 1] == a + init;
      StoredConcat(host, a, init);
    }
  }

  lemma {:induction false} StoredKeys(host: map<CacheKey, Encoded>, effects: seq<Effect>)
    ensures Stored(host, effects).Keys == Execute(host.Keys, effects)
  {
    if effects != [] {
      StoredKeys(host, effects[..|effects| - 1]);
    }
  }

  /** Removals take exactly the keys of `gone`. */
  lemma {:induction false} RemovalsTake(host: map<CacheKey, Encoded>, gone: seq<Item>)
    ensures Stored(host, Removals(gone)) == host - Keys(gone)
    decreases |gone|
  {
    if gone == [] {
      assert Removals(gone) == [];
    } else {
      var init, last := gone[..|gone| - 1], gone[|gone| - 1];
      assert gone == init + [last];
      assert Removals(gone) == Removals(init) + [Remove(last.key)];
      RemovalsTake(host, init);
      StoredConcat(host, Removals(init), [Remove(last.key)]);
      assert [Remove(last.key)][..0] == [];
      assert Keys(gone) == Keys(init) + {last.key};
    }
  }

  /** Storing `value` under `key`: what the index pushes out goes first, then the value is written. */
  lemma {:induction false} ArrivalIsStored(index: seq<Item>, budget: nat, host: map<CacheKey, Encoded>, key: CacheKey,
                                           value: Encoded)
    requires Distinct(index)
    ensures var after := Stored(host, PersistEffects(index, budget, Item(key, value, |value|)));
            var gone := Keys(PushedOut(index, budget, key, |value|));
            && after == (host - gone)[key := value] && key !in gone
            && gone == Keys(index) + {key} - Keys(Touched(index, budget, key, |value|))
  {
    var out := PushedOut(index, budget, key, |value|);
    RemovalsTake(host, out);
    StoredConcat(host, Removals(out), [Persist(key, value)]);
    assert [Persist(key, value)][..0] == [];
    TouchSplits(index, budget, key, |value|);
  }

  lemma TouchSplits(index: seq<Item>, budget: nat, key: CacheKey, size: nat)
    requires Distinct(index)
    ensures var now, out := Keys(Touched(index, budget, key, size)), Keys(PushedOut(index, budget, key, size));
            out == Keys(index) + {key} - now && key in now && key !in out
  {
    TouchBound(index, budget, key, size);
    FreshShape(index, key, size);
    NoneTwice(Fresh(index, key, size), {key}, Total(Fresh(index, key, size)) - budget);
  }

  /** In a list without doubles nothing is both evicted and kept. */
  lemma {:induction false} NoneTwice(items: seq<Item>, pinned: set<CacheKey>, excess: int)
    requires Distinct(items)
    ensures Keys(Evicted(items, pinned, excess)) !! Keys(Survivors(items, pinned, excess))
  {
    if items != [] && excess > 0 {
      var head, less := items[0], if items[0].key in pinned then excess else excess - items[0].size;
      NoneTwice(items[1..], pinned, less);
      EvictionSplitsKeys(items[1..], pinned, less);
      assert head.key !in Keys(items[1..]) by {
        assert forall i | i in items[1..] :: i.key != head.key;
      }
      HeadKeys(head, Evicted(items[1..], pinned, less));
      HeadKeys(head, Survivors(items[1..], pinned, less));
    }
  }

  lemma HeadKeys(head: Item, rest: seq<Item>)
    ensures Keys([head] + rest) == {head.key} + Keys(rest)
  {
    assert forall i | i in rest :: i in [head] + rest;
    assert head in [head] + rest;
    assert forall i | i in [head] + rest :: i == head || i in rest;
  }

  /** One eviction written through: an unknown key is stored with its value, a known one stays as it is stored. */
  lemma {:induction false} EvictionIsStored(index: seq<Item>, budget: nat, host: map<CacheKey, Encoded>, e: Item)
    requires Distinct(index)
    ensures var r := Through(index, budget, e);
            var gone := Keys(index) + {e.key} - Keys(r.0);
            && e.key in Keys(r.0) && e.key !in gone
            && Stored(host, r.1) == if e.key in Keys(index) then host - gone else (host - gone)[e.key := e.value]
  {
    FindMember(index, e.key);
    ArrivalIsStored(index, budget, host, e.key, e.value);
    TouchSplits(index, budget, e.key, e.size);
    TouchSplits(index, budget, e.key, |e.value|);
    RemovalsTake(host, PushedOut(index, budget, e.key, e.size));
    KnownFound(index, e.key);
  }

  lemma KnownFound(index: seq<Item>, key: CacheKey)
    ensures Find(index, key).Some? <==> key in Keys(index)
  {
    FindMember(index, key);
    if Find(index, key).None? {
      assert forall i | i in index :: i.key != key;
    }
  }

  /** A touch makes its key the newest entry, at the given size. */
  lemma {:induction false} TouchedIsNewest(index: seq<Item>, budget: nat, key: CacheKey, size: nat)
    ensures var now := Touched(index, budget, key, size);
            now != [] && now[|now| - 1] == Item(key, [], size)
  {
    var more := Fresh(index, key, size);
    LastStays(more, {key}, Total(more) - budget);
  }

  lemma {:induction false} LastStays(items: seq<Item>, pinned: set<CacheKey>, excess: int)
    requires items != [] && items[|items| - 1].key in pinned
    ensures var left := Survivors(items, pinned, excess); left != [] && left[|left| - 1] == items[|items| - 1]
  {
    if excess > 0 && |items| > 1 {
      LastStays(items[1..], pinned, if items[0].key in pinned then excess else excess - items[0].size);
    }
  }

  // ---- whole runs -----------------------------------------------------------

  /** Every stored value is the content of its key. */
  ghost predicate Faithful(host: map<CacheKey, Encoded>, content: CacheKey -> Encoded) {
    forall k | k in host :: host[k] == content(k)
  }

  ghost predicate TrueItems(items: seq<Item>, content: CacheKey -> Encoded) {
    forall i | i in items :: i.value == content(i.key)
  }

  predicate TrueInput(input: Input, content: CacheKey -> Encoded) {
    match input
    case Arrived(key, value) => value == content(key)
    case EvictedFromMemory(items) => forall i | i in items :: i.value == content(i.key)
    case _ => true
  }

  /** The effects of one input. */
  function EffectsOf(index: seq<Item>, budget: nat, input: Input): seq<Effect> {
    match input
    case Arrived(key, value) => PersistEffects(index, budget, Item(key, value, |value|))
    case EvictedFromMemory(items) => ThroughAll(index, budget, items).1
    case Loaded(key, size) => Removals(PushedOut(index, budget, key, size))
    case Unreadable(key) => [Remove(key)]
  }

  /** The host's storage through a run. */
  function StoredRun(host: map<CacheKey, Encoded>, budget: nat, inputs: seq<Input>): map<CacheKey, Encoded> {
    if inputs == [] then host
    else
      var init := inputs[..|inputs| - 1];
      Stored(StoredRun(host, budget, init), EffectsOf(Run(host.Keys, budget, init).index, budget, inputs[|inputs| - 1]))
  }

  lemma {:induction false} EffectsFaithful(host: map<CacheKey, Encoded>, effects: seq<Effect>,
                                           content: CacheKey -> Encoded)
    requires Faithful(host, content) && forall e | e in effects && e.Persist? :: e.value == content(e.key)
    ensures Faithful(Stored(host, effects), content)
  {
    if effects != [] {
      EffectsFaithful(host, effects[..|effects| - 1], content);
      assert effects[|effects| - 1] in effects;
    }
  }

  lemma RemovalsPersistNothing(gone: seq<Item>)
    ensures forall e | e in Removals(gone) :: e.Remove?
  {
  }

  lemma {:induction false} ThroughPersists(index: seq<Item>, budget: nat, items: seq<Item>,
                                           content: CacheKey -> Encoded)
    requires TrueItems(items, content)
    ensures forall e | e in ThroughAll(index, budget, items).1 && e.Persist? :: e.value == content(e.key)
    decreases |items|
  {
    if items != [] {
      var init, last := items[..|items| - 1], items[|items| - 1];
      assert last in items;
      ThroughPersists(index, budget, init, content);
      var before := ThroughAll(index, budget, init);
      RemovalsPersistNothing(PushedOut(before.0, budget, last.key, |last.value|));
      RemovalsPersistNothing(PushedOut(before.0, budget, last.key, last.size));
    }
  }

  /**
   In every run over true values the host's keys are those of the run, and each is stored with the content of
   its key.
   */
  lemma {:induction false} HostIsFaithful(host: map<CacheKey, Encoded>, budget: nat, inputs: seq<Input>,
                                          content: CacheKey -> Encoded)
    requires Faithful(host, content) && forall i | 0 <= i < |inputs| :: TrueInput(inputs[i], content)
    ensures StoredRun(host, budget, inputs).Keys == Run(host.Keys, budget, inputs).host
    ensures Faithful(StoredRun(host, budget, inputs), content)
    decreases |inputs|
  {
    hide Stored, Execute, ThroughAll, Removals, Touched, PushedOut, Faithful;
    if inputs != [] {
      var init, last := inputs[..|inputs| - 1], inputs[|inputs| - 1];
      HostIsFaithful(host, budget, init, content);
      var before, d := StoredRun(host, budget, init), Run(host.Keys, budget, init);
      var effects := EffectsOf(d.index, budget, last);
      StoredKeys(before, effects);
      assert TrueInput(last, content);
      InputPersists(d.index, budget, last, content);
      EffectsFaithful(before, effects, content);
      UnreadableRemoves(before.Keys, last);
    }
  }

  lemma UnreadableRemoves(host: set<CacheKey>, input: Input)
    ensures input.Unreadable? ==> Execute(host, [Remove(input.key)]) == host - {input.key}
  {
    if input.Unreadable? {
      assert [Remove(input.key)][..0] == [];
    }
  }

  lemma InputPersists(index: seq<Item>, budget: nat, input: Input, content: CacheKey -> Encoded)
    requires TrueInput(input, content)
    ensures forall e | e in EffectsOf(index, budget, input) && e.Persist? :: e.value == content(e.key)
  {
    match input
    case Arrived(key, value) => RemovalsPersistNothing(PushedOut(index, budget, key, |value|));
    case EvictedFromMemory(items) => ThroughPersists(index, budget, items, content);
    case Loaded(key, size) => RemovalsPersistNothing(PushedOut(index, budget, key, size));
    case Unreadable(key) =>
  }

  /** An arriving value is indexed and on the host under its key, whatever had to go for it. */
  lemma {:induction false} ArrivedIsKept(host: map<CacheKey, Encoded>, budget: nat, inputs: seq<Input>, key: CacheKey,
                                         value: Encoded)
    ensures var more := inputs + [Arrived(key, value)];
            var after := StoredRun(host, budget, more);
            key in after && after[key] == value && key in Keys(Run(host.Keys, budget, more).index)
  {
    hide Stored, Touched, PushedOut;
    var more := inputs + [Arrived(key, value)];
    assert more[..|inputs|] == inputs;
    var d := Run(host.Keys, budget, inputs);
    RunKeeps(host.Keys, budget, inputs);
    ArrivalIsStored(d.index, budget, StoredRun(host, budget, inputs), key, value);
    TouchSplits(d.index, budget, key, |value|);
  }
}
