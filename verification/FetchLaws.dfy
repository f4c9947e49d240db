/**
 What becomes of a wanted key: it is loaded, queued or requested, the queue goes out in order under fresh
 requests, an unusable load is fetched again, and an answer makes the key resident and the next one go out.
 */
module FetchLaws {
  import opened Protocol
  import Recency
  type CacheKey = Recency.CacheKey
  import opened Fetch

  function Slots(s: State): nat { if s.counter < s.limit then s.limit - s.counter else 0 }

  /** How many fetches of a queue go out while slots are free. */
  function Sent(s: State, queue: seq<Fetch>): nat { if |queue| < Slots(s) then |queue| else Slots(s) }

  /** The first `n` fetches of `queue` were requested in order, under consecutive fresh requests; the rest wait. */
  ghost predicate SendsFirst(s: State, t: State, queue: seq<Fetch>, n: nat)
    requires n <= |queue|
  {
    && t.queue == queue[n..] && t.counter == s.counter + n && t.nextRequest == s.nextRequest + n
    && Requests(s.requests, t.requests, s.nextRequest, queue[..n]) && Marks(s.marks, t.marks, queue[..n])
    && t.resident == s.resident && t.loads == s.loads && t.disk == s.disk && t.limit == s.limit
  }

  /** The table grew by one request for each of `sent`, numbered from `first`. */
  ghost predicate Requests(before: map<nat, Waiting>, after: map<nat, Waiting>, first: nat, sent: seq<Fetch>) {
    && (forall id: nat | first <= id < first + |sent| :: id in after && after[id] == ForContent(sent[id - first].key))
    && (forall id | id in before && id < first :: id in after && after[id] == before[id])
    && (forall id | id in after :: (id in before && after[id] == before[id]) || first <= id < first + |sent|)
  }

  predicate Has(sent: seq<Fetch>, k: CacheKey) { exists i :: 0 <= i < |sent| && sent[i].key == k }

  /** The keys of `sent` are marked requested, all others as they were. */
  ghost predicate Marks(before: map<CacheKey, Mark>, after: map<CacheKey, Mark>, sent: seq<Fetch>) {
    && (forall k | Has(sent, k) :: k in after && after[k] == Requested)
    && (forall k | !Has(sent, k) :: (k in after <==> k in before) && (k in before ==> after[k] == before[k]))
  }

  /** Draining sends exactly the front of the queue, as far as slots are free. */
  lemma {:induction false} DrainSendsFront(s: State)
    ensures SendsFirst(s, Drain(s), s.queue, Sent(s, s.queue))
    decreases |s.queue|
  {
    if s.counter < s.limit && s.queue != [] {
      var mid := SendFront(s);
      DrainSendsFront(mid);
      FrontFirst(s, mid, Drain(mid), Sent(mid, mid.queue));
    }
  }

  lemma FrontFirst(s: State, mid: State, t: State, n: nat)
    requires s.queue != [] && mid == SendFront(s) && n <= |mid.queue| && SendsFirst(mid, t, mid.queue, n)
    ensures SendsFirst(s, t, s.queue, n + 1)
  {
    hide Requests, Marks;
    var f := s.queue[0];
    assert s.queue[..n + 1] == [f] + mid.queue[..n];
    RequestsFirst(s.requests, t.requests, s.nextRequest, f, mid.queue[..n]);
    MarksFirst(s.marks, t.marks, f, mid.queue[..n]);
  }

  lemma RequestsFirst(before: map<nat, Waiting>, after: map<nat, Waiting>, first: nat, f: Fetch, rest: seq<Fetch>)
    requires Requests(before[first := ForContent(f.key)], after, first + 1, rest)
    ensures Requests(before, after, first, [f] + rest)
  {
    forall id: nat | first <= id < first + |rest| + 1
      ensures id in after && after[id] == ForContent(([f] + rest)[id - first].key)
    {
      if id == first {
        assert id in before[first := ForContent(f.key)];
      }
    }
  }

  lemma MarksFirst(before: map<CacheKey, Mark>, after: map<CacheKey, Mark>, f: Fetch, rest: seq<Fetch>)
    requires Marks(before[f.key := Requested], after, rest)
    ensures Marks(before, after, [f] + rest)
  {
    forall k
      ensures Has([f] + rest, k) <==> k == f.key || Has(rest, k)
    {
      assert ([f] + rest)[0] == f;
      if Has(rest, k) {
        var i :| 0 <= i < |rest| && rest[i].key == k;
        assert ([f] + rest)[i + 1].key == k;
      }
    }
  }

  // ---- a wanted key ---------------------------------------------------------

  /** The fetch joined the queue, and the queue goes out as far as slots are free. */
  ghost predicate Queues(s: State, t: State, f: Fetch) {
    var queue := s.queue + [f];
    var n := Sent(s, queue);
    SendsFirst(s.(marks := s.marks[f.key := Queued]), t, queue, n)
  }

  lemma EnqueueQueues(s: State, f: Fetch)
    ensures Queues(s, Enqueue(s, f), f) && f.key in Enqueue(s, f).marks
    ensures forall k | k in s.marks :: k in Enqueue(s, f).marks
  {
    hide Requests;
    var joined := s.(marks := s.marks[f.key := Queued], queue := s.queue + [f]);
    DrainSendsFront(joined);
    NoMarkLost(joined.marks, Drain(joined).marks, joined.queue[..Sent(joined, joined.queue)]);
  }

  lemma NoMarkLost(before: map<CacheKey, Mark>, after: map<CacheKey, Mark>, sent: seq<Fetch>)
    requires Marks(before, after, sent)
    ensures forall k | k in before :: k in after
  {
    forall k | k in before
      ensures k in after
    {
      assert Has(sent, k) || !Has(sent, k);
    }
  }

  /** A wanted key that is neither here nor coming is loaded from disk if there is a disk tier, else queued. */
  lemma {:induction false} WantFetches(s: State, f: Fetch)
    ensures var t := Step(s, Want(f));
            && (f.key in s.resident || f.key in s.marks ==> t == s)
            && (f.key !in s.resident && f.key !in s.marks && s.disk ==>
                  t == s.(marks := s.marks[f.key := Loading(f)], loads := s.loads[StorageKey(f.key) := f.key]))
            && (f.key !in s.resident && f.key !in s.marks && !s.disk ==> Queues(s, t, f))
            && (f.key in t.resident || f.key in t.marks)
  {
    EnqueueQueues(s, f);
  }

  /** With a free slot and nothing waiting the request goes out at once. */
  lemma {:induction false} WantGoesOut(s: State, f: Fetch)
    requires f.key !in s.resident && f.key !in s.marks && !s.disk && s.queue == []
    ensures var t, n := Step(s, Want(f)), s.nextRequest;
            && (s.counter < s.limit ==>
                  && t.marks == s.marks[f.key := Requested] && t.queue == [] && t.counter == s.counter + 1
                  && t.requests == s.requests[n := ForContent(f.key)] && t.nextRequest == n + 1)
            && (s.counter >= s.limit ==> t == s.(marks := s.marks[f.key := Queued], queue := [f]))
  {
    var joined := s.(marks := s.marks[f.key := Queued], queue := s.queue + [f]);
    assert joined.queue == [f];
    if s.counter < s.limit {
      var once := SendFront(joined);
      assert once.queue == [];
      assert Drain(once) == once;
    }
  }

  // ---- what storage answers -------------------------------------------------

  /** The load of `f` is outstanding. */
  predicate LoadingOf(s: State, f: Fetch) {
    f.key in s.marks && s.marks[f.key] == Loading(f) && StorageKey(f.key) in s.loads
      && s.loads[StorageKey(f.key)] == f.key
  }

  /** Without its load and mark. */
  function Freed(s: State, key: CacheKey): State { s.(loads := s.loads - {StorageKey(key)}, marks := s.marks - {key}) }

  /** Nothing stored, or something unusable: the fetch is queued for the daemon. */
  lemma {:induction false} UnusableIsFetched(s: State, f: Fetch, answer: Answer)
    requires LoadingOf(s, f) && !answer.Good?
    ensures var t := Step(s, Stored(StorageKey(f.key), answer));
            Queues(Freed(s, f.key), t, f) && f.key in t.marks && StorageKey(f.key) !in t.loads
  {
    hide Queues, Enqueue;
    EnqueueQueues(Freed(s, f.key), f);
    LoadsStay(Freed(s, f.key), f);
  }

  lemma LoadsStay(s: State, f: Fetch)
    ensures Enqueue(s, f).loads == s.loads && Enqueue(s, f).resident == s.resident
  {
    DrainSendsFront(s.(marks := s.marks[f.key := Queued], queue := s.queue + [f]));
  }

  lemma {:induction false} WantAllCovers(s: State, fs: seq<Fetch>)
    ensures var t := WantAll(s, fs);
            t.resident == s.resident && (forall f | f in fs :: f.key in t.resident || f.key in t.marks)
            && forall k | k in s.marks :: k in t.marks
    decreases |fs|
  {
    if fs != [] {
      var mid := WantFetch(s, fs[0]);
      WantOneCovers(s, fs[0]);
      WantAllCovers(mid, fs[1..]);
    }
  }

  lemma WantOneCovers(s: State, f: Fetch)
    ensures var t := WantFetch(s, f);
            t.resident == s.resident && (f.key in t.resident || f.key in t.marks) && forall k | k in s.marks ::
              k in t.marks
  {
    EnqueueQueues(s, f);
    LoadsStay(s, f);
  }

  /** A usable value is here, except what its arrival pushed out, and all that it asks for is here or coming. */
  lemma {:induction false} GoodArrives(s: State, f: Fetch, gone: set<CacheKey>, follow: seq<Fetch>)
    requires LoadingOf(s, f)
    ensures var t := Step(s, Stored(StorageKey(f.key), Good(gone, follow)));
            && t.resident == s.resident + {f.key} - gone
            && (forall g | g in follow :: g.key in t.resident || g.key in t.marks)
            && forall k | k in s.marks && k != f.key :: k in t.marks
  {
    WantAllCovers(Arrive(Freed(s, f.key), f.key, gone), follow);
  }

  /** An answer nobody waits for changes nothing but the load it ends. */
  lemma {:induction false} StrayAnswers(s: State, storage: StorageKey, answer: Answer)
    ensures storage !in s.loads ==> Step(s, Stored(storage, answer)) == s
    ensures storage in s.loads && s.loads[storage] !in s.marks ==>
              Step(s, Stored(storage, answer)) == s.(loads := s.loads - {storage})
  {
  }

  // ---- what the daemon answers ----------------------------------------------

  /** After one answer a slot is free: the next of the queue goes out. */
  ghost predicate Serves(s: State, t: State, key: CacheKey, id: nat, resident: set<CacheKey>) {
    s.counter > 0 &&
    var freed := s.(counter := s.counter - 1, marks := s.marks - {key}, resident := resident,
        requests := s.requests - {id});
    SendsFirst(freed, t, s.queue, Sent(freed, s.queue))
  }

  /** A response makes its key resident and is done with; an error or the end of a stream only frees the slot. */
  lemma {:induction false} AnswersServe(s: State, id: nat, gone: set<CacheKey>)
    requires Invariant(s) && IsContent(s, id)
    ensures var key := s.requests[id].key;
            && (!key.Header? ==> Serves(s, Step(s, Responded(id, gone)), key, id, s.resident + {key} - gone))
            && (key.Header? ==> Serves(s, Step(s, StreamEnded(id)), key, id, s.resident))
            && Serves(s, Step(s, Errored(id)), key, id, s.resident)
  {
    hide Requests, Marks, Drain;
    var key := s.requests[id].key;
    ContentRemoved(s.requests, id);
    var freed := s.(counter := s.counter - 1, marks := s.marks - {key}, requests := s.requests - {id});
    assert s.counter > 0;
    DrainSendsFront(freed);
    DrainSendsFront(freed.(resident := s.resident + {key} - gone));
    CountedIds(s);
    DrainCommutes(Arrive(s, key, gone).(counter := s.counter - 1), id);
    assert Dropped(Arrive(s, key, gone).(counter := s.counter - 1), id)
           == freed.(resident := s.resident + {key} - gone);
  }

  lemma CountedIds(s: State)
    requires Invariant(s)
    ensures forall id | id in s.requests :: id < s.nextRequest
  {
  }

  /** What streams in is here at once; its request goes on. */
  lemma {:induction false} StreamedArrives(s: State, key: CacheKey, gone: set<CacheKey>)
    ensures Step(s, Streamed(key, gone)) == s.(marks := s.marks - {key}, resident := s.resident + {key} - gone)
  {
  }

  /** Other requests share the numbering and take no slot; what memory evicts is no longer here. */
  lemma {:induction false} OthersShareNumbers(s: State, id: nat, gone: set<CacheKey>)
    ensures Step(s, SentOther) == s.(requests := s.requests[s.nextRequest := ForOther],
            nextRequest := s.nextRequest + 1)
    ensures id in s.requests && s.requests[id] == ForOther ==>
            Step(s, OtherAnswered(id)) == s.(requests := s.requests - {id})
    ensures Step(s, Evict(gone)) == s.(resident := s.resident - gone)
  {
  }

  // ---- pruning and losing ---------------------------------------------------

  /** A fetch stays in the queue exactly if it was not dropped; the others keep their order. */
  lemma {:induction false} KeptConcat(a: seq<Fetch>, b: seq<Fetch>, dropped: set<Fetch>)
    ensures Kept(a + b, dropped) == Kept(a, dropped) + Kept(b, dropped)
    ensures forall f :: Kept([f], dropped) == if f in dropped then [] else [f]
    decreases |a|
  {
    assert forall f: Fetch :: [f][1..] == [];
    if a == [] {
      assert a + b == b;
    } else {
      assert (a + b)[1..] == a[1..] + b;
      KeptConcat(a[1..], b, dropped);
    }
  }

  /** A dropped fetch leaves the queue with its mark; all other marks and the rest of the queue stay. */
  lemma {:induction false} PruneDrops(s: State, dropped: set<Fetch>, a: seq<Fetch>, f: Fetch, b: seq<Fetch>)
    requires s.queue == a + [f] + b && f in dropped && forall g | g in a + b :: g !in dropped
    ensures Step(s, Prune(dropped)) == s.(queue := a + b, marks := s.marks - {f.key})
  {
    hide Kept;
    KeptConcat(a + [f], b, dropped);
    KeptConcat(a, [f], dropped);
    AllKept(a, dropped);
    AllKept(b, dropped);
    OneGone(a, f, b, dropped);
    assert a + [] == a;
  }

  lemma OneGone(a: seq<Fetch>, f: Fetch, b: seq<Fetch>, dropped: set<Fetch>)
    requires f in dropped && forall g | g in a + b :: g !in dropped
    ensures Gone(a + [f] + b, dropped) == {f.key}
  {
    assert forall g | g in a + [f] + b :: g == f || g in a + b;
    assert (a + [f] + b)[|a|] == f;
  }

  lemma {:induction false} AllKept(queue: seq<Fetch>, dropped: set<Fetch>)
    requires forall g | g in queue :: g !in dropped
    ensures Kept(queue, dropped) == queue
    decreases |queue|
  {
    if queue != [] {
      AllKept(queue[1..], dropped);
      assert queue == [queue[0]] + queue[1..];
    }
  }

  /** A lost connection loses every request: its slots are free, its content keys unmarked, all else stays. */
  lemma {:induction false} LossFrees(s: State)
    ensures var t := Step(s, ConnectionLost);
            && t == s.(marks := t.marks, requests := map[], counter := 0)
            && (forall k | k in t.marks :: k in s.marks && t.marks[k] == s.marks[k])
            && forall k | k in s.marks ::
                 k in t.marks <==> forall id | id in s.requests :: s.requests[id] != ForContent(k)
  {
    var t := Step(s, ConnectionLost);
    forall k | k in s.marks
      ensures k in t.marks <==> forall id | id in s.requests :: s.requests[id] != ForContent(k)
    {
      if id :| id in s.requests && s.requests[id] == ForContent(k) {
        assert s.requests[id].ForContent? && s.requests[id].key == k;
        assert k in ContentKeys(s.requests);
      }
    }
  }
}
