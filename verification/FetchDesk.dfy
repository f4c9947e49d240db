/** The content scheduler in place: each method is its function in `Fetch`. */
module FetchDesk {
  import opened Protocol
  import opened Recency
  import F = Fetch
  import L = FetchLaws

  class Scheduler {
    var resident: set<CacheKey>
    const disk: bool
    const limit: nat
    var marks: map<CacheKey, F.Mark>
    var loads: map<F.StorageKey, CacheKey>
    var queue: seq<F.Fetch>
    var counter: nat
    var requests: map<nat, F.Waiting>
    var nextRequest: nat

    ghost function Value(): F.State reads this {
      F.State(resident, disk, marks, loads, queue, counter, limit, requests, nextRequest)
    }

    constructor (disk: bool, limit: nat)
      ensures Value() == F.Initial(disk, limit)
    {
      this.disk, this.limit := disk, limit;
      resident, marks, loads, queue, counter, requests, nextRequest := {}, map[], map[], [], 0, map[], 1;
    }

    method Drain()
      modifies this
      ensures Value() == F.Drain(old(Value()))
    {
      while counter < limit && queue != []
        invariant F.Drain(Value()) == F.Drain(old(Value()))
        decreases |queue|
      {
        var key := queue[0].key;
        queue := queue[1..];
        marks := marks[key := F.Requested];
        counter := counter + 1;
        requests := requests[nextRequest := F.ForContent(key)];
        nextRequest := nextRequest + 1;
      }
    }

    method Enqueue(f: F.Fetch)
      modifies this
      ensures Value() == F.Enqueue(old(Value()), f)
    {
      marks := marks[f.key := F.Queued];
      queue := queue + [f];
      Drain();
    }

    method Want(f: F.Fetch) returns (cached: bool)
      modifies this
      ensures Value() == F.WantFetch(old(Value()), f) && cached == (f.key in old(resident))
      ensures f.key in resident || f.key in marks
      ensures old(f.key !in resident && f.key !in marks) && disk ==>
                marks[f.key] == F.Loading(f) && loads == old(loads)[F.StorageKey(f.key) := f.key]
    {
      L.WantFetches(Value(), f);
      if f.key in resident { return true; }
      if f.key in marks { return false; }
      if disk {
        loads := loads[F.StorageKey(f.key) := f.key];
        marks := marks[f.key := F.Loading(f)];
      } else {
        Enqueue(f);
      }
      return false;
    }

    method WantAll(fs: seq<F.Fetch>)
      modifies this
      ensures Value() == F.WantAll(old(Value()), fs)
    {
      var n := 0;
      while n < |fs|
        invariant n <= |fs| && F.WantAll(Value(), fs[n..]) == F.WantAll(old(Value()), fs)
      {
        assert fs[n..][0] == fs[n] && fs[n..][1..] == fs[n + 1..];
        var _ := Want(fs[n]);
        n := n + 1;
      }
    }

    method ContentDone()
      modifies this
      ensures Value() == F.ContentDone(old(Value()))
    {
      counter := if counter == 0 then 0 else counter - 1;
      Drain();
    }

    method Arrive(key: CacheKey, gone: set<CacheKey>)
      modifies `marks, `resident
      ensures Value() == F.Arrive(old(Value()), key, gone)
    {
      marks := marks - {key};
      resident := resident + {key} - gone;
    }

    method Stored(storage: F.StorageKey, answer: F.Answer)
      modifies this
      ensures Value() == F.OnStored(old(Value()), storage, answer)
    {
      if storage !in loads { return; }
      var key := loads[storage];
      loads := loads - {storage};
      if key !in marks { return; }
      var mark := marks[key];
      marks := marks - {key};
      if !mark.Loading? { return; }
      if answer.Good? {
        Arrive(key, answer.gone);
        WantAll(answer.follow);
      } else {
        Enqueue(mark.fetch);
      }
    }

    method Prune(dropped: set<F.Fetch>)
      modifies this
      ensures Value() == F.PruneQueue(old(Value()), dropped)
    {
      var kept, n := [], 0;
      while n < |queue|
        modifies `marks
        invariant n <= |queue| && kept + F.Kept(queue[n..], dropped) == F.Kept(queue, dropped)
        invariant marks == old(marks) - F.Gone(queue[..n], dropped)
      {
        var f := queue[n];
        assert queue[n..][0] == f && queue[n..][1..] == queue[n + 1..] && queue[..n + 1] == queue[..n] + [f];
        F.GoneSnoc(queue[..n], f, dropped);
        if f in dropped {
          marks := marks - {f.key};
        } else {
          kept := kept + [f];
        }
        n := n + 1;
      }
      assert queue[..n] == queue;
      queue := kept;
    }

    method Responded(id: nat, gone: set<CacheKey>)
      requires id in requests && requests[id].ForContent?
      modifies this
      ensures Value() == F.OnResponse(old(Value()), id, gone)
    {
      Arrive(requests[id].key, gone);
      ContentDone();
      requests := requests - {id};
    }

    method Failed(id: nat)
      requires id in requests && requests[id].ForContent?
      modifies this
      ensures Value() == F.OnFailed(old(Value()), id)
    {
      var key := requests[id].key;
      requests := requests - {id};
      marks := marks - {key};
      ContentDone();
    }

    method ClearInFlight()
      modifies this
      ensures Value() == F.ClearInFlight(old(Value()))
    {
      var left := F.ContentKeys(requests);
      while left != {}
        modifies `marks
        invariant left <= F.ContentKeys(requests)
        invariant marks == old(marks) - (F.ContentKeys(requests) - left)
        decreases |left|
      {
        var key :| key in left;
        marks := marks - {key};
        left := left - {key};
      }
      requests := map[];
      counter := 0;
    }
  }
}
