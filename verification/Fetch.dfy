/**
 The content scheduler: every wanted key is loaded from disk, queued or requested, with a bounded number of
 requests out.
 */
module Fetch {
  import opened Protocol
  import opened Recency

  /** A fetch fills one cache key; `detail` stands for the parameters of its request. */
  datatype Fetch = Fetch(key: CacheKey, detail: nat)

  datatype Mark = Loading(fetch: Fetch) | Queued | Requested

  /** Storage keys are injective in the cache key. */
  datatype StorageKey = StorageKey(of: CacheKey)

  datatype Waiting = ForContent(key: CacheKey) | ForOther

  datatype State = State(
    resident: set<CacheKey>, disk: bool, marks: map<CacheKey, Mark>, loads: map<StorageKey, CacheKey>,
    queue: seq<Fetch>,
    counter: nat, limit: nat, requests: map<nat, Waiting>, nextRequest: nat)

  function Initial(disk: bool, limit: nat): State { State({}, disk, map[], map[], [], 0, limit, map[], 1) }

  /** What storage answers: nothing, something unusable, or the value with its evictions and the wants that follow. */
  datatype Answer = Missing | Unreadable | Good(gone: set<CacheKey>, follow: seq<Fetch>)

  datatype Input =
    | Want(fetch: Fetch)
    | Stored(storage: StorageKey, answer: Answer)
    | Prune(dropped: set<Fetch>)
    | Responded(id: nat, gone: set<CacheKey>)
    | Streamed(key: CacheKey, gone: set<CacheKey>)
    | StreamEnded(id: nat)
    | Errored(id: nat)
    | SentOther
    | OtherAnswered(id: nat)
    | ConnectionLost
    | Evict(gone: set<CacheKey>)

  // ---- the operations -------------------------------------------------------

  function SendFront(s: State): State
    requires s.queue != []
  {
    var key := s.queue[0].key;
    s.(marks := s.marks[key := Requested], counter := s.counter + 1, queue := s.queue[1..],
       requests := s.requests[s.nextRequest := ForContent(key)], nextRequest := s.nextRequest + 1)
  }

  /** Queued fetches go out, oldest first, while slots are free. */
  function Drain(s: State): State
    decreases |s.queue|
  {
    if s.counter < s.limit && s.queue != [] then Drain(SendFront(s)) else s
  }

  function Enqueue(s: State, f: Fetch): State { Drain(s.(marks := s.marks[f.key := Queued], queue := s.queue + [f])) }

  function WantFetch(s: State, f: Fetch): State {
    if f.key in s.resident || f.key in s.marks then s
    else if s.disk then s.(loads := s.loads[StorageKey(f.key) := f.key], marks := s.marks[f.key := Loading(f)])
    else Enqueue(s, f)
  }

  function WantAll(s: State, fs: seq<Fetch>): State
    decreases |fs|
  {
    if fs == [] then s else WantAll(WantFetch(s, fs[0]), fs[1..])
  }

  function Unmark(s: State, key: CacheKey): State { s.(marks := s.marks - {key}) }

  function Arrive(s: State, key: CacheKey, gone: set<CacheKey>): State {
    Unmark(s, key).(resident := s.resident + {key} - gone)
  }

  /** A content request finished. */
  function ContentDone(s: State): State { Drain(s.(counter := if s.counter == 0 then 0 else s.counter - 1)) }

  function OnStored(s: State, storage: StorageKey, answer: Answer): State {
    if storage !in s.loads then s
    else
      var key, taken := s.loads[storage], s.(loads := s.loads - {storage});
      if key !in s.marks then taken
      else
        var free := Unmark(taken, key);
        if !s.marks[key].Loading? then free
        else if answer.Good? then WantAll(Arrive(free, key, answer.gone), answer.follow)
        else Enqueue(free, s.marks[key].fetch)
  }

  function Kept(queue: seq<Fetch>, dropped: set<Fetch>): seq<Fetch>
    decreases |queue|
  {
    if queue == [] then [] else if queue[0] in dropped then Kept(queue[1..], dropped)
        else [queue[0]] + Kept(queue[1..], dropped)
  }

  /** The keys of the dropped fetches of a queue. */
  function Gone(queue: seq<Fetch>, dropped: set<Fetch>): set<CacheKey> { set f | f in queue && f in dropped :: f.key }

  lemma GoneSnoc(queue: seq<Fetch>, f: Fetch, dropped: set<Fetch>)
    ensures Gone(queue + [f], dropped) == Gone(queue, dropped) + if f in dropped then {f.key} else {}
  {
    assert forall g | g in queue + [f] :: g in queue || g == f;
    if f in dropped {
      assert f in queue + [f];
    }
    assert forall g | g in queue :: g in queue + [f];
  }

  function PruneQueue(s: State, dropped: set<Fetch>): State {
    s.(queue := Kept(s.queue, dropped), marks := s.marks - Gone(s.queue, dropped))
  }

  function ContentIds(requests: map<nat, Waiting>): set<nat> { set id | id in requests && requests[id].ForContent? }

  function ContentKeys(requests: map<nat, Waiting>): set<CacheKey> {
    set id | id in requests && requests[id].ForContent? :: requests[id].key
  }

  function Dropped(s: State, id: nat): State { s.(requests := s.requests - {id}) }

  predicate IsContent(s: State, id: nat) { id in s.requests && s.requests[id].ForContent? }

  /** The table entry of an answered request goes last, after its slot was reused. */
  function OnResponse(s: State, id: nat, gone: set<CacheKey>): State
    requires IsContent(s, id)
  {
    Dropped(ContentDone(Arrive(s, s.requests[id].key, gone)), id)
  }

  function OnFailed(s: State, id: nat): State
    requires IsContent(s, id)
  {
    ContentDone(Unmark(Dropped(s, id), s.requests[id].key))
  }

  function ClearInFlight(s: State): State {
    s.(marks := s.marks - ContentKeys(s.requests), requests := map[], counter := 0)
  }

  function Step(s: State, input: Input): State {
    match input
    case Want(f) => WantFetch(s, f)
    case Stored(storage, answer) => OnStored(s, storage, answer)
    case Prune(dropped) => PruneQueue(s, dropped)
    case Responded(id, gone) => if IsContent(s, id) && !s.requests[id].key.Header? then OnResponse(s, id, gone) else s
    case Streamed(key, gone) => Arrive(s, key, gone)
    case StreamEnded(id) => if IsContent(s, id) && s.requests[id].key.Header? then OnFailed(s, id) else s
    case Errored(id) => if IsContent(s, id) then OnFailed(s, id) else s
    case SentOther => s.(requests := s.requests[s.nextRequest := ForOther], nextRequest := s.nextRequest + 1)
    case OtherAnswered(id) => if id in s.requests && s.requests[id].ForOther? then Dropped(s, id) else s
    case ConnectionLost => ClearInFlight(s)
    case Evict(gone) => s.(resident := s.resident - gone)
  }

  function Run(disk: bool, limit: nat, inputs: seq<Input>): State {
    if inputs == [] then Initial(disk, limit) else Step(Run(disk, limit, inputs[..|inputs| - 1]), inputs[|inputs| - 1])
  }

  // ---- the invariant --------------------------------------------------------

  predicate InQueue(queue: seq<Fetch>, key: CacheKey) { exists i :: 0 <= i < |queue| && queue[i].key == key }

  /** Something outstanding will clear the mark. */
  predicate Backed(s: State, key: CacheKey)
    requires key in s.marks
  {
    match s.marks[key]
    case Loading(f) => f.key == key && StorageKey(key) in s.loads && s.loads[StorageKey(key)] == key
    case Queued => InQueue(s.queue, key)
    case Requested => key in ContentKeys(s.requests)
  }

  predicate AllBacked(s: State) { forall k | k in s.marks :: Backed(s, k) }

  predicate Counted(s: State) {
    s.counter == |ContentIds(s.requests)| <= s.limit && forall id | id in s.requests :: id < s.nextRequest
  }

  predicate LoadsFine(s: State) { forall k | k in s.loads :: s.loads[k] == k.of }

  predicate Invariant(s: State) { Counted(s) && AllBacked(s) && LoadsFine(s) }

  lemma IdsAdded(requests: map<nat, Waiting>, id: nat, key: CacheKey)
    requires id !in requests
    ensures |ContentIds(requests[id := ForContent(key)])| == |ContentIds(requests)| + 1
  {
    assert ContentIds(requests[id := ForContent(key)]) == ContentIds(requests) + {id};
  }

  lemma KeyStays(requests: map<nat, Waiting>, more: map<nat, Waiting>, k: CacheKey)
    requires k in ContentKeys(requests) && forall i | i in requests :: i in more && more[i] == requests[i]
    ensures k in ContentKeys(more)
  {
    var i :| i in requests && requests[i].ForContent? && requests[i].key == k;
    assert i in more && more[i] == requests[i];
  }

  lemma KeysAdded(requests: map<nat, Waiting>, id: nat, key: CacheKey)
    requires id !in requests
    ensures key in ContentKeys(requests[id := ForContent(key)])
            && ContentKeys(requests) <= ContentKeys(requests[id := ForContent(key)])
  {
    var more := requests[id := ForContent(key)];
    assert id in more && more[id].ForContent? && more[id].key == key;
    forall k | k in ContentKeys(requests)
      ensures k in ContentKeys(more)
    {
      KeyStays(requests, more, k);
    }
  }

  lemma ContentRemoved(requests: map<nat, Waiting>, id: nat)
    requires id in requests && requests[id].ForContent?
    ensures |ContentIds(requests - {id})| == |ContentIds(requests)| - 1
    ensures forall k | k in ContentKeys(requests) && k != requests[id].key :: k in ContentKeys(requests - {id})
  {
    var fewer := requests - {id};
    assert ContentIds(requests) == ContentIds(fewer) + {id};
    forall k | k in ContentKeys(requests) && k != requests[id].key
      ensures k in ContentKeys(fewer)
    {
      var i :| i in requests && requests[i].ForContent? && requests[i].key == k;
      assert i in fewer && fewer[i] == requests[i];
    }
  }

  lemma SendFrontKeeps(s: State)
    requires Invariant(s) && s.queue != [] && s.counter < s.limit
    ensures Invariant(SendFront(s))
  {
    var now, key := SendFront(s), s.queue[0].key;
    IdsAdded(s.requests, s.nextRequest, key);
    KeysAdded(s.requests, s.nextRequest, key);
    forall k | k in now.marks
      ensures Backed(now, k)
    {
      if k != key {
        assert Backed(s, k);
        if s.marks[k].Queued? {
          var i :| 0 <= i < |s.queue| && s.queue[i].key == k;
          assert now.queue[i - 1].key == k;
        }
      }
    }
  }

  lemma {:induction false} DrainKeeps(s: State)
    requires Invariant(s)
    ensures Invariant(Drain(s))
    decreases |s.queue|
  {
    if s.counter < s.limit && s.queue != [] {
      SendFrontKeeps(s);
      DrainKeeps(SendFront(s));
    }
  }

  /** Draining leaves no fetch waiting beside a free slot. */
  lemma {:induction false} DrainFillsSlots(s: State)
    ensures Drain(s).queue == [] || Drain(s).counter >= s.limit
    ensures Drain(s).limit == s.limit
    decreases |s.queue|
  {
    if s.counter < s.limit && s.queue != [] {
      DrainFillsSlots(SendFront(s));
    }
  }

  /** Whether the answered request leaves the table before or after the drain makes no difference. */
  lemma {:induction false} DrainCommutes(s: State, id: nat)
    requires id < s.nextRequest
    ensures Drain(Dropped(s, id)) == Dropped(Drain(s), id)
    decreases |s.queue|
  {
    if s.counter < s.limit && s.queue != [] {
      DrainCommutes(SendFront(s), id);
      assert SendFront(Dropped(s, id)) == Dropped(SendFront(s), id);
    }
  }

  lemma EnqueueKeeps(s: State, f: Fetch)
    requires Invariant(s)
    ensures Invariant(Enqueue(s, f))
  {
    var now := s.(marks := s.marks[f.key := Queued], queue := s.queue + [f]);
    forall k | k in now.marks
      ensures Backed(now, k)
    {
      if k == f.key {
        assert now.queue[|s.queue|].key == k;
      } else {
        assert Backed(s, k);
        if s.marks[k].Queued? {
          var i :| 0 <= i < |s.queue| && s.queue[i].key == k;
          assert now.queue[i].key == k;
        }
      }
    }
    DrainKeeps(now);
  }

  lemma WantKeeps(s: State, f: Fetch)
    requires Invariant(s)
    ensures Invariant(WantFetch(s, f))
  {
    if f.key !in s.resident && f.key !in s.marks {
      if s.disk {
        var now := WantFetch(s, f);
        forall k | k in now.marks
          ensures Backed(now, k)
        {
          if k != f.key {
            assert Backed(s, k);
          }
        }
      } else {
        EnqueueKeeps(s, f);
      }
    }
  }

  lemma {:induction false} WantAllKeeps(s: State, fs: seq<Fetch>)
    requires Invariant(s)
    ensures Invariant(WantAll(s, fs))
    decreases |fs|
  {
    if fs != [] {
      WantKeeps(s, fs[0]);
      WantAllKeeps(WantFetch(s, fs[0]), fs[1..]);
    }
  }

  lemma ArriveKeeps(s: State, key: CacheKey, gone: set<CacheKey>)
    requires Invariant(s)
    ensures Invariant(Arrive(s, key, gone)) && Invariant(Unmark(s, key))
  {
    assert forall k | k in s.marks :: Backed(s, k);
  }

  lemma StoredKeeps(s: State, storage: StorageKey, answer: Answer)
    requires Invariant(s)
    ensures Invariant(OnStored(s, storage, answer))
  {
    if storage in s.loads {
      var key := s.loads[storage];
      var free := Unmark(s.(loads := s.loads - {storage}), key);
      assert Invariant(free) by {
        assert forall k | k in free.marks :: Backed(s, k) && k != storage.of;
      }
      if key in s.marks && s.marks[key].Loading? {
        ArriveKeeps(free, key, if answer.Good? then answer.gone else {});
        EnqueueKeeps(free, s.marks[key].fetch);
        if answer.Good? {
          WantAllKeeps(Arrive(free, key, answer.gone), answer.follow);
        }
      }
    }
  }

  lemma {:induction false} KeptMembers(queue: seq<Fetch>, dropped: set<Fetch>)
    ensures forall f :: f in Kept(queue, dropped) <==> f in queue && f !in dropped
    decreases |queue|
  {
    if queue != [] {
      KeptMembers(queue[1..], dropped);
    }
  }

  lemma PruneKeeps(s: State, dropped: set<Fetch>)
    requires Invariant(s)
    ensures Invariant(PruneQueue(s, dropped))
  {
    var now := PruneQueue(s, dropped);
    KeptMembers(s.queue, dropped);
    forall k | k in now.marks
      ensures Backed(now, k)
    {
      assert Backed(s, k);
      if s.marks[k].Queued? {
        var i :| 0 <= i < |s.queue| && s.queue[i].key == k;
        assert s.queue[i] in s.queue && s.queue[i] !in dropped;
        assert s.queue[i] in now.queue;
      }
    }
  }

  /** Freeing a slot of a request whose key is no longer marked. */
  lemma DoneKeeps(s: State, id: nat)
    requires Invariant(s) && IsContent(s, id) && s.requests[id].key !in s.marks
    ensures Invariant(ContentDone(Dropped(s, id)))
  {
    ContentRemoved(s.requests, id);
    var freed := Dropped(s, id).(counter := s.counter - 1);
    forall k | k in freed.marks
      ensures Backed(freed, k)
    {
      assert Backed(s, k);
    }
    DrainKeeps(freed);
  }

  lemma ResponseKeeps(s: State, id: nat, gone: set<CacheKey>)
    requires Invariant(s) && IsContent(s, id)
    ensures Invariant(OnResponse(s, id, gone))
  {
    var here := Arrive(s, s.requests[id].key, gone);
    ArriveKeeps(s, s.requests[id].key, gone);
    DoneKeeps(here, id);
    DrainCommutes(here.(counter := if s.counter == 0 then 0 else s.counter - 1), id);
  }

  lemma FailedKeeps(s: State, id: nat)
    requires Invariant(s) && IsContent(s, id)
    ensures Invariant(OnFailed(s, id))
  {
    var key := s.requests[id].key;
    ArriveKeeps(s, key, {});
    DoneKeeps(Unmark(s, key), id);
    assert Unmark(Dropped(s, id), key) == Dropped(Unmark(s, key), id);
  }

  lemma {:induction false} ClearKeeps(s: State)
    requires Invariant(s)
    ensures Invariant(ClearInFlight(s))
  {
    var now := ClearInFlight(s);
    assert ContentIds(now.requests) == {};
    assert forall k | k in now.marks :: Backed(s, k);
  }

  lemma OtherKeeps(s: State, input: Input)
    requires Invariant(s) && (input.SentOther? || input.OtherAnswered? || input.Evict?)
    ensures Invariant(Step(s, input))
  {
    var now := Step(s, input);
    assert ContentIds(now.requests) == ContentIds(s.requests);
    forall k | k in s.marks
      ensures Backed(now, k)
    {
      assert Backed(s, k);
      if s.marks[k].Requested? {
        var i :| i in s.requests && s.requests[i].ForContent? && s.requests[i].key == k;
        assert i in now.requests && now.requests[i] == s.requests[i];
      }
    }
  }

  lemma StepKeeps(s: State, input: Input)
    requires Invariant(s)
    ensures Invariant(Step(s, input))
  {
    match input
    case Want(f) => WantKeeps(s, f);
    case Stored(storage, answer) => StoredKeeps(s, storage, answer);
    case Prune(dropped) => PruneKeeps(s, dropped);
    case Responded(id, gone) => if IsContent(s, id) { ResponseKeeps(s, id, gone); }
    case Streamed(key, gone) => ArriveKeeps(s, key, gone);
    case StreamEnded(id) => if IsContent(s, id) { FailedKeeps(s, id); }
    case Errored(id) => if IsContent(s, id) { FailedKeeps(s, id); }
    case ConnectionLost => ClearKeeps(s);
    case _ => OtherKeeps(s, input);
  }

  /**
   In every reachable state the counter is the number of content requests in the table and within the
   limit, and every mark is backed by an outstanding load, a queue entry or a request in the table.
   */
  lemma {:induction false} NoOrphanedFetch(disk: bool, limit: nat, inputs: seq<Input>)
    ensures var s := Run(disk, limit, inputs);
            s.counter == |ContentIds(s.requests)| && s.counter <= limit && (forall k | k in s.marks :: Backed(s, k))
    ensures Invariant(Run(disk, limit, inputs)) && Run(disk, limit, inputs).limit == limit
    decreases |inputs|
  {
    if inputs == [] {
      assert ContentIds(Initial(disk, limit).requests) == {};
    } else {
      NoOrphanedFetch(disk, limit, inputs[..|inputs| - 1]);
      StepKeeps(Run(disk, limit, inputs[..|inputs| - 1]), inputs[|inputs| - 1]);
      StepKeepsLimit(Run(disk, limit, inputs[..|inputs| - 1]), inputs[|inputs| - 1]);
    }
  }

  lemma {:induction false} WantAllKeepsLimit(s: State, fs: seq<Fetch>)
    ensures WantAll(s, fs).limit == s.limit
    decreases |fs|
  {
    if fs != [] {
      DrainFillsSlots(s.(marks := s.marks[fs[0].key := Queued], queue := s.queue + [fs[0]]));
      WantAllKeepsLimit(WantFetch(s, fs[0]), fs[1..]);
    }
  }

  lemma StepKeepsLimit(s: State, input: Input)
    ensures Step(s, input).limit == s.limit
  {
    forall t: State
      ensures Drain(t).limit == t.limit
    {
      DrainFillsSlots(t);
    }
    forall t: State, fs
      ensures WantAll(t, fs).limit == t.limit
    {
      WantAllKeepsLimit(t, fs);
    }
  }
}
