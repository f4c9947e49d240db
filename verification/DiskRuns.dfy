/** Whole runs of the disk tier beside a host that executes its effects in order. */
module DiskRuns {
  import opened Recency
  import opened DiskTier

  /** The index, the keys on the host, and the keys written or loaded this session. */
  datatype Disk = Disk(index: seq<Item>, host: set<CacheKey>, session: set<CacheKey>)

  datatype Input =
    | Arrived(key: CacheKey, value: Encoded)
    | EvictedFromMemory(items: seq<Item>)
    | Loaded(key: CacheKey, size: nat)
    | Unreadable(key: CacheKey)

  function Execute(host: set<CacheKey>, effects: seq<Effect>): set<CacheKey> {
    if effects == [] then host
    else
      var before, e := Execute(host, effects[..|effects| - 1]), effects[|effects| - 1];
      if e.Persist? then before + {e.key} else before - {e.key}
  }

  function Step(d: Disk, budget: nat, input: Input): Disk {
    match input
    case Arrived(key, value) =>
      Disk(Touched(d.index, budget, key, |value|),
        Execute(d.host, PersistEffects(d.index, budget, Item(key, value, |value|))), d.session + {key})
    case EvictedFromMemory(items) =>
      var r := ThroughAll(d.index, budget, items);
      Disk(r.0, Execute(d.host, r.1), d.session + Keys(items))
    case Loaded(key, size) =>
      Disk(Touched(d.index, budget, key, size), Execute(d.host, Removals(PushedOut(d.index, budget, key, size))),
        d.session + {key})
    case Unreadable(key) => Disk(Without(d.index, key), d.host - {key}, d.session)
  }

  /** A session starts with an empty index over whatever earlier sessions left on the host. */
  function Run(host: set<CacheKey>, budget: nat, inputs: seq<Input>): Disk {
    if inputs == [] then Disk([], host, {})
        else Step(Run(host, budget, inputs[..|inputs| - 1]), budget, inputs[|inputs| - 1])
  }

  // ---- one touch ------------------------------------------------------------

  lemma {:induction false} SurvivorsDistinct(items: seq<Item>, pinned: set<CacheKey>, excess: int)
    requires Distinct(items)
    ensures Distinct(Survivors(items, pinned, excess))
  {
    if items != [] && excess > 0 {
      var less := if items[0].key in pinned then excess else excess - items[0].size;
      SurvivorsDistinct(items[1..], pinned, less);
      EvictedKeys(items[1..], pinned, less);
      var rest := Survivors(items[1..], pinned, less);
      assert forall k | 0 <= k < |rest| :: rest[k] in rest;
    }
  }

  lemma {:induction false} EvictionSplitsKeys(items: seq<Item>, pinned: set<CacheKey>, excess: int)
    ensures Keys(Evicted(items, pinned, excess)) + Keys(Survivors(items, pinned, excess)) == Keys(items)
    ensures Keys(Evicted(items, pinned, excess)) !! pinned
  {
    EvictionConserves(items, pinned, excess);
    EvictedKeys(items, pinned, excess);
    var out, left := Evicted(items, pinned, excess), Survivors(items, pinned, excess);
    assert forall i | i in items :: i in multiset(items);
    assert forall i | i in multiset(out) + multiset(left) :: i in out || i in left;
  }

  lemma {:induction false} FreshShape(index: seq<Item>, key: CacheKey, size: nat)
    requires Distinct(index)
    ensures Distinct(Fresh(index, key, size)) && Keys(Fresh(index, key, size)) == Keys(index) + {key}
  {
    var rest, more := Without(index, key), Fresh(index, key, size);
    WithoutMembers(index, key);
    assert forall k | 0 <= k < |rest| :: rest[k] in rest;
    assert more[|rest|] in more && more[|rest|].key == key;
    forall i | i in index
      ensures i.key in Keys(more)
    {
      if i.key != key {
        assert i in rest && i in more;
      } else {
        assert OnDisk(key, size) in more;
      }
    }
  }

  lemma {:induction false} OtherKey(items: seq<Item>, key: CacheKey)
    requires Distinct(items) && |items| >= 2
    ensures !forall i | i in items :: i.key == key
  {
    assert items[0] in items && items[1] in items && items[0].key != items[1].key;
  }

  /** A touch keeps the touched key, and afterwards the budget holds or that key is alone. */
  lemma {:induction false} TouchBound(index: seq<Item>, budget: nat, key: CacheKey, size: nat)
    requires Distinct(index)
    ensures var now, out := Touched(index, budget, key, size), PushedOut(index, budget, key, size);
            && Distinct(now) && key in Keys(now) && key !in Keys(out) && Keys(now) + Keys(out) == Keys(index) + {key}
            && (Total(now) <= budget || |now| == 1)
  {
    var more := Fresh(index, key, size);
    var excess := Total(more) - budget;
    FreshShape(index, key, size);
    SurvivorsDistinct(more, {key}, excess);
    EvictionSplitsKeys(more, {key}, excess);
    SurvivorsFit(more, {key}, excess);
    if |Touched(index, budget, key, size)| >= 2 {
      OtherKey(Touched(index, budget, key, size), key);
    }
  }

  // ---- effects on the host --------------------------------------------------

  lemma {:induction false} ExecuteConcat(host: set<CacheKey>, a: seq<Effect>, b: seq<Effect>)
    ensures Execute(host, a + b) == Execute(Execute(host, a), b)
    decreases |b|
  {
    if b == [] {
      assert a + b == a;
    } else {
      assert (a + b)[..|a + b| - 1] == a + b[..|b| - 1];
      ExecuteConcat(host, a, b[..|b| - 1]);
    }
  }

  lemma {:induction false} ExecuteRemoves(host: set<CacheKey>, gone: seq<Item>)
    ensures Execute(host, Removals(gone)) == host - Keys(gone)
    decreases |gone|
  {
    if gone != [] {
      var init := gone[..|gone| - 1];
      assert gone == init + [gone[|gone| - 1]];
      ExecuteRemoves(host, init);
      assert Removals(gone)[..|gone| - 1] == Removals(init);
      assert Keys(gone) == Keys(init) + {gone[|gone| - 1].key};
    }
  }

  lemma ExecutePersist(host: set<CacheKey>, index: seq<Item>, budget: nat, e: Item)
    ensures Execute(host, PersistEffects(index, budget, e))
            == host - Keys(PushedOut(index, budget, e.key, |e.value|)) + {e.key}
  {
    var removals := Removals(PushedOut(index, budget, e.key, |e.value|));
    ExecuteConcat(host, removals, [Persist(e.key, e.value)]);
    ExecuteRemoves(host, PushedOut(index, budget, e.key, |e.value|));
    assert [Persist(e.key, e.value)][..0] == [];
  }

  // ---- the invariant --------------------------------------------------------

  ghost predicate Invariant(d: Disk, budget: nat) {
    && Distinct(d.index) && (Total(d.index) <= budget || |d.index| <= 1)
    && Keys(d.index) <= d.session && d.session * d.host <= Keys(d.index)
  }

  lemma {:induction false} TouchKeeps(d: Disk, budget: nat, key: CacheKey, size: nat)
    requires Invariant(d, budget)
    ensures var now, gone := Touched(d.index, budget, key, size), Keys(PushedOut(d.index, budget, key, size));
            Invariant(Disk(now, d.host - gone, d.session + {key}), budget)
              && Invariant(Disk(now, d.host - gone + {key}, d.session + {key}), budget)
  {
    TouchBound(d.index, budget, key, size);
  }

  lemma {:induction false} ThroughKeeps(d: Disk, budget: nat, e: Item)
    requires Invariant(d, budget)
    ensures var r := Through(d.index, budget, e);
            Invariant(Disk(r.0, Execute(d.host, r.1), d.session + {e.key}), budget)
  {
    if Find(d.index, e.key).Some? {
      TouchKeeps(d, budget, e.key, e.size);
      ExecuteRemoves(d.host, PushedOut(d.index, budget, e.key, e.size));
    } else {
      TouchKeeps(d, budget, e.key, |e.value|);
      ExecutePersist(d.host, d.index, budget, e);
    }
  }

  lemma {:induction false} ThroughAllKeeps(d: Disk, budget: nat, items: seq<Item>)
    requires Invariant(d, budget)
    ensures var r := ThroughAll(d.index, budget, items);
            Invariant(Disk(r.0, Execute(d.host, r.1), d.session + Keys(items)), budget)
    decreases |items|
  {
    if items == [] {
      assert Keys(items) == {};
    } else {
      var init, last := items[..|items| - 1], items[|items| - 1];
      ThroughAllKeeps(d, budget, init);
      var before := ThroughAll(d.index, budget, init);
      var mid := Disk(before.0, Execute(d.host, before.1), d.session + Keys(init));
      ThroughKeeps(mid, budget, last);
      ExecuteConcat(d.host, before.1, Through(before.0, budget, last).1);
      assert items == init + [last];
      assert d.session + Keys(items) == mid.session + {last.key};
    }
  }

  lemma {:induction false} ForgetKeeps(d: Disk, budget: nat, key: CacheKey)
    requires Invariant(d, budget)
    ensures Invariant(Step(d, budget, Unreadable(key)), budget)
  {
    WithoutMembers(d.index, key);
    WithoutSmaller(d.index, key);
    forall k | k in d.session * (d.host - {key})
      ensures k in Keys(Without(d.index, key))
    {
      assert k in Keys(d.index);
      var i :| i in d.index && i.key == k;
      assert i in Without(d.index, key);
    }
  }

  lemma {:induction false} WithoutSmaller(items: seq<Item>, key: CacheKey)
    ensures Total(Without(items, key)) <= Total(items) && |Without(items, key)| <= |items|
  {
    if items != [] {
      WithoutSmaller(items[1..], key);
    }
  }

  lemma {:induction false} RunKeeps(host: set<CacheKey>, budget: nat, inputs: seq<Input>)
    ensures Invariant(Run(host, budget, inputs), budget)
    decreases |inputs|
  {
    if inputs != [] {
      RunKeeps(host, budget, inputs[..|inputs| - 1]);
      var d := Run(host, budget, inputs[..|inputs| - 1]);
      match inputs[|inputs| - 1]
      case Arrived(key, value) =>
        TouchKeeps(d, budget, key, |value|);
        ExecutePersist(d.host, d.index, budget, Item(key, value, |value|));
      case EvictedFromMemory(items) => ThroughAllKeeps(d, budget, items);
      case Loaded(key, size) =>
        TouchKeeps(d, budget, key, size);
        ExecuteRemoves(d.host, PushedOut(d.index, budget, key, size));
      case Unreadable(key) => ForgetKeeps(d, budget, key);
    }
  }

  /** In every run the index is within budget or holds at most one entry. */
  lemma {:induction false} IndexBounded(host: set<CacheKey>, budget: nat, inputs: seq<Input>)
    ensures var index := Run(host, budget, inputs).index; Total(index) <= budget || |index| <= 1
  {
    RunKeeps(host, budget, inputs);
  }

  /** In every run, what the host still holds of this session's keys is in the index. */
  lemma {:induction false} HostWithinIndex(host: set<CacheKey>, budget: nat, inputs: seq<Input>, key: CacheKey)
    ensures var d := Run(host, budget, inputs); key in d.session && key in d.host ==> key in Keys(d.index)
  {
    RunKeeps(host, budget, inputs);
  }

  // ---- when the host holds the whole index ----------------------------------

  /** A touch never both keeps and drops a key. */
  lemma {:induction false} TouchParts(index: seq<Item>, budget: nat, key: CacheKey, size: nat)
    requires Distinct(index)
    ensures Keys(Touched(index, budget, key, size)) !! Keys(PushedOut(index, budget, key, size))
  {
    var more := Fresh(index, key, size);
    FreshShape(index, key, size);
    PinnedSurvive(more, {key}, Total(more) - budget);
    KeptApart(more, Keys(PushedOut(index, budget, key, size)));
  }

  lemma {:induction false} KeptApart(items: seq<Item>, gone: set<CacheKey>)
    ensures Keys(Kept(items, gone)) !! gone
  {
    if items != [] {
      KeptApart(items[1..], gone);
    }
  }

  /** What a touch leaves on the host covers the index, but for the touched key itself. */
  lemma {:induction false} TouchHeld(d: Disk, budget: nat, key: CacheKey, size: nat)
    requires Invariant(d, budget) && Keys(d.index) <= d.host
    ensures var now, gone := Touched(d.index, budget, key, size), Keys(PushedOut(d.index, budget, key, size));
            && Keys(now) <= d.host - gone + {key} && key in Keys(now) && key !in gone
            && (key in d.host ==> Keys(now) <= d.host - gone)
  {
    TouchBound(d.index, budget, key, size);
    TouchParts(d.index, budget, key, size);
  }

  lemma {:induction false} ThroughHeld(d: Disk, budget: nat, e: Item)
    requires Invariant(d, budget) && Keys(d.index) <= d.host
    ensures var r := Through(d.index, budget, e); Keys(r.0) <= Execute(d.host, r.1)
  {
    FindMember(d.index, e.key);
    if Find(d.index, e.key).Some? {
      assert e.key in Keys(d.index);
      TouchHeld(d, budget, e.key, e.size);
      ExecuteRemoves(d.host, PushedOut(d.index, budget, e.key, e.size));
    } else {
      TouchHeld(d, budget, e.key, |e.value|);
      ExecutePersist(d.host, d.index, budget, e);
    }
  }

  lemma {:induction false} ThroughAllHeld(d: Disk, budget: nat, items: seq<Item>)
    requires Invariant(d, budget) && Keys(d.index) <= d.host
    ensures var r := ThroughAll(d.index, budget, items); Keys(r.0) <= Execute(d.host, r.1)
    decreases |items|
  {
    if items != [] {
      var init, last := items[..|items| - 1], items[|items| - 1];
      ThroughAllHeld(d, budget, init);
      ThroughAllKeeps(d, budget, init);
      var before := ThroughAll(d.index, budget, init);
      ThroughHeld(Disk(before.0, Execute(d.host, before.1), d.session + Keys(init)), budget, last);
      ExecuteConcat(d.host, before.1, Through(before.0, budget, last).1);
    }
  }

  /** A load answer finds its key still on the host. */
  predicate Timely(d: Disk, input: Input) { input.Loaded? ==> input.key in d.host }

  /** From a host that holds the whole index, exactly a late load answer leads to one that does not. */
  lemma {:induction false} StepHeld(d: Disk, budget: nat, input: Input)
    requires Invariant(d, budget) && Keys(d.index) <= d.host
    ensures var next := Step(d, budget, input); Keys(next.index) <= next.host <==> Timely(d, input)
  {
    match input
    case Arrived(key, value) =>
      TouchHeld(d, budget, key, |value|);
      ExecutePersist(d.host, d.index, budget, Item(key, value, |value|));
    case EvictedFromMemory(items) => ThroughAllHeld(d, budget, items);
    case Loaded(key, size) =>
      TouchHeld(d, budget, key, size);
      ExecuteRemoves(d.host, PushedOut(d.index, budget, key, size));
    case Unreadable(key) => WithoutMembers(d.index, key);
  }

  ghost predicate AlwaysHeld(host: set<CacheKey>, budget: nat, inputs: seq<Input>) {
    forall n | 0 <= n <= |inputs| :: Keys(Run(host, budget, inputs[..n]).index) <= Run(host, budget, inputs[..n]).host
  }

  ghost predicate AlwaysTimely(host: set<CacheKey>, budget: nat, inputs: seq<Input>) {
    forall n | 0 <= n < |inputs| :: Timely(Run(host, budget, inputs[..n]), inputs[n])
  }

  lemma RunNext(host: set<CacheKey>, budget: nat, inputs: seq<Input>, n: nat)
    requires n < |inputs|
    ensures Run(host, budget, inputs[..n + 1]) == Step(Run(host, budget, inputs[..n]), budget, inputs[n])
  {
    assert inputs[..n + 1][..n] == inputs[..n];
  }

  lemma {:induction false} HeldWhileTimely(host: set<CacheKey>, budget: nat, inputs: seq<Input>, n: nat)
    requires AlwaysTimely(host, budget, inputs) && n <= |inputs|
    ensures Keys(Run(host, budget, inputs[..n]).index) <= Run(host, budget, inputs[..n]).host
    decreases n
  {
    if n > 0 {
      HeldWhileTimely(host, budget, inputs, n - 1);
      RunKeeps(host, budget, inputs[..n - 1]);
      StepHeld(Run(host, budget, inputs[..n - 1]), budget, inputs[n - 1]);
      RunNext(host, budget, inputs, n - 1);
    }
  }

  /**
   The host holds every indexed key throughout a run exactly when every load answer arrives while its key
   is still on the host.
   */
  lemma {:induction false} HostHoldsIndex(host: set<CacheKey>, budget: nat, inputs: seq<Input>)
    ensures AlwaysHeld(host, budget, inputs) <==> AlwaysTimely(host, budget, inputs)
  {
    if AlwaysTimely(host, budget, inputs) {
      forall n | 0 <= n <= |inputs|
        ensures Keys(Run(host, budget, inputs[..n]).index) <= Run(host, budget, inputs[..n]).host
      {
        HeldWhileTimely(host, budget, inputs, n);
      }
    }
    if AlwaysHeld(host, budget, inputs) {
      forall n | 0 <= n < |inputs|
        ensures Timely(Run(host, budget, inputs[..n]), inputs[n])
      {
        RunKeeps(host, budget, inputs[..n]);
        RunNext(host, budget, inputs, n);
        StepHeld(Run(host, budget, inputs[..n]), budget, inputs[n]);
      }
    }
  }

  /** A load asked for after its key left memory and answered after the key was pushed out of the disk tier. */
  function LateLoad(): seq<Input> {
    [Arrived(Tree(1), [0]), EvictedFromMemory([Item(Tree(1), [0], 1)]), Arrived(Tree(2), [0]), Loaded(Tree(1), 1)]
  }

  /** The condition is needed: such an answer puts the key back in the index of a host that no longer holds it. */
  lemma {:induction false} IndexMayOutliveHost()
    ensures var d := Run({}, 0, LateLoad()); Tree(1) in Keys(d.index) && Tree(1) !in d.host
  {
    hide Execute, Touched, PushedOut, Removals, PersistEffects;
    var inputs := LateLoad();
    assert inputs[..1][..0] == [] && inputs[..4] == inputs;
    RunNext({}, 0, inputs, 0);
    RunNext({}, 0, inputs, 1);
    RunNext({}, 0, inputs, 2);
    RunNext({}, 0, inputs, 3);
    Crowded({}, [], Tree(1));
    FirstIn(Tree(1));
    var a := Disk([OnDisk(Tree(1), 1)], {Tree(1)}, {Tree(1)});
    assert Run({}, 0, inputs[..1]) == a;
    TouchedAgain(Tree(1));
    assert Keys([Item(Tree(1), [0], 1)]) == {Tree(1)} by {
      assert Item(Tree(1), [0], 1) in [Item(Tree(1), [0], 1)];
    }
    ExecuteNothing({Tree(1)});
    assert Run({}, 0, inputs[..2]) == a;
    Replaces(Tree(1), Tree(2));
    assert OnDisk(Tree(1), 1) in [OnDisk(Tree(1), 1)];
    Crowded(a.host, [OnDisk(Tree(1), 1)], Tree(2));
    var b := Disk([OnDisk(Tree(2), 1)], {Tree(2)}, {Tree(1), Tree(2)});
    assert Run({}, 0, inputs[..3]) == b;
    Replaces(Tree(2), Tree(1));
    ExecuteRemoves(b.host, [OnDisk(Tree(2), 1)]);
    assert OnDisk(Tree(1), 1) in Run({}, 0, inputs).index;
  }

  lemma ExecuteNothing(host: set<CacheKey>)
    ensures Execute(host, []) == host
  {
  }

  /** Writing the only key through again leaves the index and the host as they are. */
  lemma TouchedAgain(key: CacheKey)
    ensures ThroughAll([OnDisk(key, 1)], 0, [Item(key, [0], 1)]) == ([OnDisk(key, 1)], [])
  {
    var x, e := OnDisk(key, 1), Item(key, [0], 1);
    assert [x] == [x] + [] && [x][1..] == [];
    assert Without([x], key) == [];
    assert Fresh([x], key, 1) == [] + [x] == [x];
    assert Total([x]) == 1;
    EvictionUnfolds(x, [], {key}, 1);
    assert Evicted([x], {key}, 1) == [] && Survivors([x], {key}, 1) == [x] + [] == [x];
    assert Touched([x], 0, key, 1) == [x] && PushedOut([x], 0, key, 1) == [];
    assert Removals([]) == [];
    assert Through([x], 0, e) == ([x], []);
    assert [e][..0] == [] && ThroughAll([x], 0, []) == ([x], []);
    var none: seq<Effect> := [];
    assert none + none == none;
    assert ThroughAll([x], 0, [e]) == ([x], none + none);
  }

  /** Writing one byte under `key` leaves only that key on a host that had at most the pushed-out one. */
  lemma Crowded(host: set<CacheKey>, index: seq<Item>, key: CacheKey)
    requires host <= Keys(PushedOut(index, 0, key, 1))
    ensures Execute(host, PersistEffects(index, 0, Item(key, [0], 1))) == {key}
  {
    ExecutePersist(host, index, 0, Item(key, [0], 1));
  }

  lemma FirstIn(key: CacheKey)
    ensures Touched([], 0, key, 1) == [OnDisk(key, 1)] && PushedOut([], 0, key, 1) == []
  {
    var y := OnDisk(key, 1);
    assert Fresh([], key, 1) == [y];
    assert [y] == [y] + [] && Total([y]) == 1;
    EvictionUnfolds(y, [], {key}, 1);
  }

  /** With no room for two, the new key replaces the one there. */
  lemma Replaces(there: CacheKey, key: CacheKey)
    requires there != key
    ensures Touched([OnDisk(there, 1)], 0, key, 1) == [OnDisk(key, 1)]
            && PushedOut([OnDisk(there, 1)], 0, key, 1) == [OnDisk(there, 1)]
  {
    var x, y := OnDisk(there, 1), OnDisk(key, 1);
    assert [x][1..] == [] && [y][1..] == [];
    assert Without([x], key) == [x];
    assert Fresh([x], key, 1) == [x] + [y];
    TotalConcat([x], [y]);
    EvictionUnfolds(x, [y], {key}, 2);
    assert Evicted([y], {key}, 1) == [] && Survivors([y], {key}, 1) == [y];
  }
}
