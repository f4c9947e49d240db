/** The log never holds two events with the same client sequence number of this client. */
module AtMostOnce {
  import opened Protocol
  import opened Events
  import opened Client
  import opened Session

  predicate OfMine(w: World, e: Event, s: nat) { e.client == w.client.me && e.clientSeq == s }

  /** No copy of mutation `s` is committed or on its way. */
  predicate Unsent(w: World, s: nat) {
    && (forall e | e in w.log :: !OfMine(w, e, s))
    && (forall r | r in w.requests && r.send.SendMutate? :: r.send.clientSeq != s)
  }

  predicate Ordered(pending: seq<Pending>) {
    forall i, j | 0 <= i < j < |pending| :: pending[i].clientSeq < pending[j].clientSeq
  }

  /** The client's own bookkeeping. */
  ghost predicate Tidy(c: State) {
    && Ordered(c.pending)
    && (forall p | p in c.pending :: p.clientSeq < c.nextClientSeq)
    && (forall id | id in c.inFlight ::
       id < c.nextRequest
       && (c.inFlight[id].WaitMutate? ==> c.inFlight[id].clientSeq < c.nextClientSeq))
    && (forall a, b | a in c.inFlight && b in c.inFlight && c.inFlight[a].WaitMutate?
       && c.inFlight[a] == c.inFlight[b] :: a == b)
    && (forall p, id | p in c.pending && p.delivery.NotAdmitted? && id in c.inFlight ::
       c.inFlight[id] != WaitMutate(p.clientSeq))
  }

  ghost predicate Invariant(w: World) {
    && Tidy(w.client)
    && (forall i, j | 0 <= i < j < |w.log| && w.log[i].client == w.client.me == w.log[j].client ::
       w.log[i].clientSeq != w.log[j].clientSeq)
    && (forall i, j | 0 <= i < j < |w.requests| && w.requests[i].send.SendMutate? && w.requests[j].send.SendMutate? ::
          w.requests[i].send.clientSeq != w.requests[j].send.clientSeq)
    && (forall r, e | r in w.requests && r.send.SendMutate? && e in w.log :: !OfMine(w, e, r.send.clientSeq))
    && (forall e | e in w.log && e.client == w.client.me :: e.clientSeq < w.client.nextClientSeq)
    && (forall r | r in w.requests ::
          && r.send.id < w.client.nextRequest
          && (r.send.SendMutate? ==> r.send.clientSeq < w.client.nextClientSeq)
          && (r.send.id in w.client.inFlight ==>
                if r.send.SendMutate? then w.client.inFlight[r.send.id] == WaitMutate(r.send.clientSeq)
                else !w.client.inFlight[r.send.id].WaitMutate?))
    && (forall p | p in w.client.pending && p.delivery.NotAdmitted? :: Unsent(w, p.clientSeq))
    && (forall m | m in w.down && m.ErrorReply? ::
          && m.id < w.client.nextRequest
          && (m.error.Restarting? && m.id in w.client.inFlight && w.client.inFlight[m.id].WaitMutate? ==>
             Unsent(w, w.client.inFlight[m.id].clientSeq)))
  }

  // ---- the client side ------------------------------------------------------

  /** The client moved without sending: fewer entries, fewer waits, the same counters. */
  ghost predicate Quieter(c: State, d: State) {
    && d.me == c.me && d.nextRequest == c.nextRequest && d.nextClientSeq == c.nextClientSeq
    && (forall id | id in d.inFlight :: id in c.inFlight && d.inFlight[id] == c.inFlight[id])
    && Fewer(c.pending, d.pending, c.nextClientSeq)
  }

  ghost predicate Fewer(a: seq<Pending>, b: seq<Pending>, bound: nat) {
    && Ordered(b)
    && forall p | p in b :: p in a || (!p.delivery.NotAdmitted? && p.clientSeq < bound)
  }

  lemma QuieterTidy(c: State, d: State)
    requires Tidy(c) && Quieter(c, d)
    ensures Tidy(d)
  {
  }

  lemma {:induction false} WithoutOrdered(pending: seq<Pending>, s: nat)
    requires Ordered(pending)
    ensures Ordered(Without(pending, s))
  {
    if pending != [] {
      var init, rest := pending[..|pending| - 1], Without(pending[..|pending| - 1], s);
      WithoutOrdered(init, s);
      forall i | 0 <= i < |rest|
        ensures rest[i].clientSeq < pending[|pending| - 1].clientSeq
      {
        assert rest[i] in init;
      }
    }
  }

  lemma ApplyLiveWires(c: State, e: Event)
    ensures var d := ApplyLive(c, e);
            d.me == c.me && d.nextRequest == c.nextRequest && d.nextClientSeq == c.nextClientSeq
              && d.inFlight == c.inFlight
  {
    var n := Noted(c, e);
    assert n.me == c.me && n.nextRequest == c.nextRequest && n.nextClientSeq == c.nextClientSeq
           && n.inFlight == c.inFlight;
  }

  lemma ApplyLivePending(c: State, e: Event)
    ensures var b := ApplyLive(c, e).pending; b == c.pending || b == Without(c.pending, e.clientSeq) || b == []
  {
    var n := Noted(c, e);
    assert n.pending == c.pending || n.pending == Without(c.pending, e.clientSeq);
  }

  lemma ApplyLiveQuieter(c: State, e: Event)
    requires Ordered(c.pending)
    ensures Quieter(c, ApplyLive(c, e))
  {
    ApplyLiveWires(c, e);
    ApplyLivePending(c, e);
    WithoutOrdered(c.pending, e.clientSeq);
  }

  lemma QuieterTransitive(a: State, b: State, c: State)
    requires Quieter(a, b) && Quieter(b, c)
    ensures Quieter(a, c)
  {
  }

  lemma {:induction false} ApplyAllQuieter(c: State, events: seq<Event>)
    requires Ordered(c.pending)
    ensures Quieter(c, ApplyAll(c, events))
    decreases |events|
  {
    if events != [] {
      var init := ApplyAll(c, events[..|events| - 1]);
      ApplyAllQuieter(c, events[..|events| - 1]);
      ApplyLiveQuieter(init, events[|events| - 1]);
      QuieterTransitive(c, init, ApplyAll(c, events));
    }
  }

  lemma EventQuieter(c: State, e: Event)
    requires Ordered(c.pending)
    ensures Quieter(c, OnEvent(c, e))
  {
    if TakesEvent(c, e) {
      ApplyLiveQuieter(c.(connection := Advanced(c.connection, e.seqNo)), e);
    }
  }

  lemma AnsweredQuieter(c: State, d: State, id: nat)
    requires Quieter(c, d)
    ensures Quieter(c, Answered(d, id))
  {
  }

  lemma CommittedQuieter(c: State, id: nat, e: Event)
    requires Ordered(c.pending)
    ensures Quieter(c, OnCommitted(c, id, e))
  {
    if id in c.inFlight && c.inFlight[id].WaitMutate? && c.connection.Subscribed? {
      if c.connection.seqNo >= e.seqNo {
        var rest := Without(c.pending, c.inFlight[id].clientSeq);
        WithoutOrdered(c.pending, c.inFlight[id].clientSeq);
        assert Quieter(c, Rebase(c.(pending := rest)));
        AnsweredQuieter(c, if |rest| == |c.pending| then c else Rebase(c.(pending := rest)), id);
      } else {
        var live := ApplyLive(c.(connection := Subscribed(e.seqNo)), e);
        ApplyLiveQuieter(c.(connection := Subscribed(e.seqNo)), e);
        AnsweredQuieter(c, live, id);
      }
    }
  }

  lemma SnapshotWires(c: State, id: nat, s: Snapshot)
    ensures var d := OnSnapshot(c, id, s);
            && d.me == c.me && d.nextRequest == c.nextRequest && d.nextClientSeq == c.nextClientSeq
            && (d.inFlight == c.inFlight || d.inFlight == c.inFlight - {id})
            && (d.pending == c.pending || d.pending == [])
  {
    var installed := InstallSnapshot(c, id, s);
    assert installed.pending == c.pending || installed.pending == [];
  }

  lemma SnapshotQuieter(c: State, id: nat, s: Snapshot)
    requires Ordered(c.pending)
    ensures Quieter(c, OnSnapshot(c, id, s))
  {
    SnapshotWires(c, id, s);
  }

  lemma MarkedFewer(pending: seq<Pending>, marked: seq<Pending>, bound: nat)
    requires Ordered(pending) && |marked| == |pending| && forall p | p in pending :: p.clientSeq < bound
    requires forall i | 0 <= i < |pending| ::
               marked[i] == pending[i] || (marked[i].clientSeq == pending[i].clientSeq
                 && !marked[i].delivery.NotAdmitted?)
    ensures Fewer(pending, marked, bound)
  {
    forall p | p in marked
      ensures p in pending || (!p.delivery.NotAdmitted? && p.clientSeq < bound)
    {
      var i :| 0 <= i < |marked| && marked[i] == p;
      assert pending[i] in pending;
    }
  }

  lemma DisconnectQuieter(c: State)
    requires Tidy(c)
    ensures Quieter(c, OnDisconnected(c))
  {
    MarkedFewer(c.pending, Uncertain(c.pending), c.nextClientSeq);
  }

  /** Anything but a refusal of admission makes the client quieter. */
  lemma ErrorQuieter(c: State, id: nat, error: RpcError)
    requires Tidy(c) && !error.Restarting?
    ensures Quieter(c, OnError(c, id, error))
  {
    ErrorWires(c, id, error);
    if id in c.inFlight && c.inFlight[id].WaitMutate? {
      var s := c.inFlight[id].clientSeq;
      WithoutOrdered(c.pending, s);
      MarkedFewer(c.pending, SetDelivery(c.pending, s, OutcomeUnknown), c.nextClientSeq);
    }
  }

  lemma ErrorWires(c: State, id: nat, error: RpcError)
    ensures var d := OnError(c, id, error);
            && d.me == c.me && d.nextRequest == c.nextRequest && d.nextClientSeq == c.nextClientSeq
            && d.inFlight == c.inFlight - {id}
            && d.pending == (if id !in c.inFlight || !c.inFlight[id].WaitMutate? then c.pending
                             else match error
                                  case OtherError => Without(c.pending, c.inFlight[id].clientSeq)
                                  case RestartInterrupted =>
                                      SetDelivery(c.pending, c.inFlight[id].clientSeq, OutcomeUnknown)
                                  case Restarting => SetDelivery(c.pending, c.inFlight[id].clientSeq, NotAdmitted))
  {
    hide Overlay, SetDelivery, Without;
  }

  // ---- resending ------------------------------------------------------------

  /** A resend comes from a refused entry. */
  ghost predicate FromRefused(pending: seq<Pending>, r: Send) {
    r.SendMutate? && exists p :: p in pending && p.delivery.NotAdmitted? && p.clientSeq == r.clientSeq
  }

  lemma {:induction false} ResentShape(pending: seq<Pending>, next: nat)
    requires Ordered(pending)
    ensures ResentWell(pending, Resent(pending, next), next)
  {
    if pending != [] {
      var init, last := pending[..|pending| - 1], pending[|pending| - 1];
      ResentShape(init, next);
      var before := Resent(init, next);
      assert last in pending && forall p | p in init :: p in pending && p.clientSeq < last.clientSeq;
      forall i | 0 <= i < |before|
        ensures FromRefused(pending, before[i]) && before[i].clientSeq < last.clientSeq
      {
        assert FromRefused(init, before[i]);
        var p :| p in init && p.delivery.NotAdmitted? && p.clientSeq == before[i].clientSeq;
        assert p in pending;
      }
    }
  }

  ghost predicate ResentWell(pending: seq<Pending>, sends: seq<Send>, next: nat) {
    && (forall i | 0 <= i < |sends| :: FromRefused(pending, sends[i]) && sends[i].id == next + i)
    && (forall i, j | 0 <= i < j < |sends| :: sends[i].clientSeq < sends[j].clientSeq)
  }

  lemma {:induction false} WaitingShape(sends: seq<Send>, next: nat)
    requires forall i | 0 <= i < |sends| :: sends[i].SendMutate? && sends[i].id == next + i
    ensures forall id :: id in WaitingFor(sends) <==> next <= id < next + |sends|
    ensures forall i | 0 <= i < |sends| ::
            next + i in WaitingFor(sends)
            && WaitingFor(sends)[next + i] == WaitMutate(sends[i].clientSeq)
  {
    if sends != [] {
      WaitingShape(sends[..|sends| - 1], next);
    }
  }

  // ---- world steps ----------------------------------------------------------

  lemma QuieterKeeps(w: World, d: State, rest: seq<Msg>)
    requires Invariant(w) && Quieter(w.client, d) && forall m | m in rest :: m in w.down
    ensures forall basis :: Invariant(w.(client := d, down := rest, basis := basis))
  {
    QuieterTidy(w.client, d);
    forall basis
      ensures Invariant(w.(client := d, down := rest, basis := basis))
    {
      var x := w.(client := d, down := rest, basis := basis);
      assert forall s: nat :: Unsent(w, s) ==> Unsent(x, s);
    }
  }

  lemma RefusedPending(c: State, s: nat)
    requires Tidy(c) && s < c.nextClientSeq
    ensures var marked := SetDelivery(c.pending, s, NotAdmitted);
            && Ordered(marked)
            && forall p | p in marked :: p in c.pending || (p.clientSeq == s && p.delivery.NotAdmitted?)
  {
    var marked := SetDelivery(c.pending, s, NotAdmitted);
    forall p | p in marked
      ensures p in c.pending || (p.clientSeq == s && p.delivery.NotAdmitted?)
    {
      var i :| 0 <= i < |marked| && marked[i] == p;
      assert c.pending[i] in c.pending;
    }
  }

  /** A refused entry may be sent again: no other copy of it exists. */
  lemma RefusalKeeps(w: World)
    requires Invariant(w) && w.down != [] && w.down[0].ErrorReply? && w.down[0].error.Restarting?
    ensures Invariant(DeliverStep(w))
  {
    var m, c, x := w.down[0], w.client, DeliverStep(w);
    assert m in w.down;
    if m.id in c.inFlight && c.inFlight[m.id].WaitMutate? {
      var s := c.inFlight[m.id].clientSeq;
      RefusedPending(c, s);
      ErrorWires(c, m.id, m.error);
      RefusedInvariant(w, x, m.id, s);
    } else {
      QuieterKeeps(w, OnError(c, m.id, m.error), w.down[1..]);
    }
  }

  lemma RefusedInvariant(w: World, x: World, id: nat, s: nat)
    requires Invariant(w) && id in w.client.inFlight && w.client.inFlight[id] == WaitMutate(s) && Unsent(w, s)
    requires x.log == w.log && x.requests == w.requests && forall m | m in x.down :: m in w.down
    requires var c, d := w.client, x.client;
             && d.me == c.me && d.nextRequest == c.nextRequest && d.nextClientSeq == c.nextClientSeq
             && d.inFlight == c.inFlight - {id} && Ordered(d.pending)
             && forall p | p in d.pending :: p in c.pending || (p.clientSeq == s && p.delivery.NotAdmitted?)
    ensures Invariant(x)
  {
    assert forall t: nat :: Unsent(w, t) ==> Unsent(x, t);
    assert Tidy(x.client);
  }

  ghost predicate Resends(w: World, after: State, sends: seq<Send>) {
    var c := w.client;
    && after.me == c.me && after.nextClientSeq == c.nextClientSeq && after.nextRequest == c.nextRequest + |sends|
    && after.pending == Readmitted(c.pending)
    && ResentWell(c.pending, sends, c.nextRequest)
    && (forall id | id in after.inFlight && id < c.nextRequest ::
       id in c.inFlight && after.inFlight[id] == c.inFlight[id])
    && (forall id | id in after.inFlight && c.nextRequest <= id ::
       id < c.nextRequest + |sends| && after.inFlight[id] == WaitMutate(sends[id - c.nextRequest].clientSeq))
  }

  lemma {:induction false} SubscribedKeeps(w: World)
    requires Invariant(w) && w.down != [] && w.down[0].SubscribedReply?
    ensures Invariant(DeliverStep(w))
  {
    var c, m := w.client, w.down[0];
    var (after, sends) := OnSubscribed(c, m.id, m.seqNo);
    if m.id in c.inFlight && c.inFlight[m.id].WaitSubscribe? && c.connection.Connecting? {
      SubscribedResends(w, m.id, m.seqNo);
      ReadmittedTidy(w, after, sends);
      ResendKeeps(w, after, sends);
    } else {
      assert AsRequests(sends) == [];
      assert w.requests + [] == w.requests;
      QuieterKeeps(w, c, w.down[1..]);
    }
  }

  lemma SubscribedResends(w: World, id: nat, n: Seq)
    requires Invariant(w) && id in w.client.inFlight && w.client.inFlight[id].WaitSubscribe?
             && w.client.connection.Connecting?
    ensures var (after, sends) := OnSubscribed(w.client, id, n); Resends(w, after, sends)
  {
    hide Readmitted, Resent, Ordered, Unsent;
    var c := w.client;
    var sends := Resent(c.pending, c.nextRequest);
    assert Ordered(c.pending);
    ResentShape(c.pending, c.nextRequest);
    assert forall i | 0 <= i < |sends| :: FromRefused(c.pending, sends[i]);
    WaitingShape(sends, c.nextRequest);
  }

  lemma ReadmittedMarks(pending: seq<Pending>, bound: nat)
    requires Ordered(pending) && forall p | p in pending :: p.clientSeq < bound
    ensures Ordered(Readmitted(pending))
    ensures forall p | p in Readmitted(pending) :: !p.delivery.NotAdmitted? && p.clientSeq < bound
  {
    forall p | p in Readmitted(pending)
      ensures !p.delivery.NotAdmitted? && p.clientSeq < bound
    {
      var i :| 0 <= i < |pending| && p == Readmitted(pending)[i];
      assert pending[i] in pending;
    }
  }

  lemma ReadmittedTidy(w: World, after: State, sends: seq<Send>)
    requires Invariant(w) && Resends(w, after, sends)
    ensures Tidy(after)
  {
    var c := w.client;
    ReadmittedMarks(c.pending, c.nextClientSeq);
    forall i | 0 <= i < |sends|
      ensures sends[i].clientSeq < c.nextClientSeq
      ensures forall id | id in c.inFlight :: c.inFlight[id] != WaitMutate(sends[i].clientSeq)
    {
      assert FromRefused(c.pending, sends[i]);
      var p :| p in c.pending && p.delivery.NotAdmitted? && p.clientSeq == sends[i].clientSeq;
    }
  }

  lemma SendsAreFree(w: World, after: State, sends: seq<Send>)
    requires Invariant(w) && Resends(w, after, sends)
    ensures forall i | 0 <= i < |sends| ::
              && sends[i].SendMutate? && Unsent(w, sends[i].clientSeq) && sends[i].clientSeq < w.client.nextClientSeq
              && sends[i].id == w.client.nextRequest + i
              && forall id | id in w.client.inFlight :: w.client.inFlight[id] != WaitMutate(sends[i].clientSeq)
  {
    forall i | 0 <= i < |sends|
      ensures Unsent(w, sends[i].clientSeq) && sends[i].clientSeq < w.client.nextClientSeq
      ensures forall id | id in w.client.inFlight :: w.client.inFlight[id] != WaitMutate(sends[i].clientSeq)
    {
      assert FromRefused(w.client.pending, sends[i]);
      var p :| p in w.client.pending && p.delivery.NotAdmitted? && p.clientSeq == sends[i].clientSeq;
    }
  }

  lemma ResendKeeps(w: World, after: State, sends: seq<Send>)
    requires Invariant(w) && Resends(w, after, sends) && Tidy(after) && w.down != []
    ensures Invariant(w.(client := after, down := w.down[1..], requests := w.requests + AsRequests(sends)))
  {
    hide Ordered, Readmitted, ResentWell, Tidy, Unsent;
    ReadmittedMarks(w.client.pending, w.client.nextClientSeq) by { assert Tidy(w.client); TidyPending(w.client); }
    ResentRequests(w, after, sends);
    RefusalsStillFree(w, after, sends);
  }

  lemma TidyPending(c: State)
    requires Tidy(c)
    ensures Ordered(c.pending) && forall p | p in c.pending :: p.clientSeq < c.nextClientSeq
  {
  }

  /** A refusal on the wire is of a request that was not among the resent ones. */
  lemma RefusalsStillFree(w: World, after: State, sends: seq<Send>)
    requires Invariant(w) && Resends(w, after, sends) && w.down != []
    ensures var x := w.(client := after, down := w.down[1..], requests := w.requests + AsRequests(sends));
            forall m | m in x.down && m.ErrorReply? && m.error.Restarting? && m.id in after.inFlight
                && after.inFlight[m.id].WaitMutate? ::
              Unsent(x, after.inFlight[m.id].clientSeq)
  {
    hide Ordered, Readmitted, ResentWell;
    var x := w.(client := after, down := w.down[1..], requests := w.requests + AsRequests(sends));
    SendsAreFree(w, after, sends);
    forall m | m in x.down && m.ErrorReply? && m.error.Restarting? && m.id in after.inFlight
        && after.inFlight[m.id].WaitMutate?
      ensures Unsent(x, after.inFlight[m.id].clientSeq)
    {
      assert m in w.down && m.id < w.client.nextRequest && Unsent(w, w.client.inFlight[m.id].clientSeq);
      forall r | r in x.requests && r.send.SendMutate?
        ensures r.send.clientSeq != after.inFlight[m.id].clientSeq
      {
        if r !in w.requests {
          var i :| 0 <= i < |sends| && r == AsRequests(sends)[i];
          assert r.send == sends[i];
        }
      }
    }
  }

  lemma ResentRequests(w: World, after: State, sends: seq<Send>)
    requires Invariant(w) && Resends(w, after, sends)
    ensures var rs := w.requests + AsRequests(sends);
            && (forall i, j | 0 <= i < j < |rs| && rs[i].send.SendMutate? && rs[j].send.SendMutate? ::
               rs[i].send.clientSeq != rs[j].send.clientSeq)
            && (forall r, e | r in rs && r.send.SendMutate? && e in w.log :: !OfMine(w, e, r.send.clientSeq))
            && (forall r | r in rs ::
                  && r.send.id < after.nextRequest
                  && (r.send.SendMutate? ==> r.send.clientSeq < after.nextClientSeq)
                  && (r.send.id in after.inFlight ==>
                        if r.send.SendMutate? then after.inFlight[r.send.id] == WaitMutate(r.send.clientSeq)
                        else !after.inFlight[r.send.id].WaitMutate?))
  {
    hide Readmitted, Ordered, OfMine, FromRefused, WaitingFor;
    SendsAreFree(w, after, sends);
    var rs, n := w.requests + AsRequests(sends), |w.requests|;
    assert forall i | 0 <= i < |rs| ::
             if i < n then rs[i] == w.requests[i] && rs[i] in w.requests else rs[i].send == sends[i - n];
    SentOrResent(w.requests, sends);
  }

  lemma SentOrResent(from: seq<Outstanding>, sends: seq<Send>)
    ensures forall r | r in from + AsRequests(sends) :: r in from || exists i :: 0 <= i < |sends| && r.send == sends[i]
  {
    var rs, n := from + AsRequests(sends), |from|;
    forall r | r in rs
      ensures r in from || exists i :: 0 <= i < |sends| && r.send == sends[i]
    {
      var k :| 0 <= k < |rs| && rs[k] == r;
      if n <= k {
        assert r.send == sends[k - n];
      }
    }
  }

  /** A fresh mutation: new request id, new client sequence number. */
  lemma SendKeeps(w: World, d: State, body: Body)
    requires Invariant(w)
    requires var c := w.client;
             && d.me == c.me && d.nextRequest == c.nextRequest + 1 && d.nextClientSeq == c.nextClientSeq + 1
             && d.inFlight == c.inFlight[c.nextRequest := WaitMutate(c.nextClientSeq)]
             && Ordered(d.pending)
             && forall p | p in d.pending ::
                p in c.pending || (p.clientSeq == c.nextClientSeq && !p.delivery.NotAdmitted?)
    ensures forall issued :: Invariant(
                w.(client := d, issued := issued,
                   requests := w.requests + [Outstanding(SendMutate(w.client.nextRequest, w.client.nextClientSeq, body),
                     true)]))
  {
    var c, r := w.client, Outstanding(SendMutate(w.client.nextRequest, w.client.nextClientSeq, body), true);
    forall issued
      ensures Invariant(w.(client := d, issued := issued, requests := w.requests + [r]))
    {
      var x := w.(client := d, issued := issued, requests := w.requests + [r]);
      assert Tidy(d);
      assert forall q | q in x.requests :: q in w.requests || q == r;
      assert forall s: nat | s < c.nextClientSeq :: Unsent(w, s) ==> Unsent(x, s);
    }
  }

  /** Any other request leaves mutations alone. */
  lemma AskKeeps(w: World, d: State, send: Send, wait: Waiting)
    requires Invariant(w) && !send.SendMutate? && send.id == w.client.nextRequest && !wait.WaitMutate?
    requires var c := w.client;
             && d.me == c.me && d.nextRequest == c.nextRequest + 1 && d.nextClientSeq == c.nextClientSeq
                && d.pending == c.pending
             && d.inFlight == c.inFlight[c.nextRequest := wait]
    ensures forall tail :: Invariant(w.(client := d, tail := tail, requests := w.requests + [Outstanding(send, true)]))
  {
    forall tail
      ensures Invariant(w.(client := d, tail := tail, requests := w.requests + [Outstanding(send, true)]))
    {
      var x := w.(client := d, tail := tail, requests := w.requests + [Outstanding(send, true)]);
      assert Tidy(d);
      assert forall q | q in x.requests :: q in w.requests || q == Outstanding(send, true);
      assert forall s: nat :: Unsent(w, s) ==> Unsent(x, s);
    }
  }

  lemma DropKeeps(w: World)
    requires Invariant(w)
    ensures Invariant(UserStep(w, Drop))
  {
    hide OnDisconnected, Ordered;
    var x := UserStep(w, Drop);
    DisconnectQuieter(w.client);
    QuieterTidy(w.client, x.client);
    forall r | r in x.requests
      ensures exists q :: q in w.requests && q.send == r.send
    {
      var i :| 0 <= i < |w.requests| && r == Silenced(w.requests)[i];
      assert w.requests[i] in w.requests;
    }
    assert forall s: nat :: Unsent(w, s) ==> Unsent(x, s);
  }

  lemma MutateWires(c: State, body: Body, ts: Timestamp)
    requires Tidy(c)
    ensures var d := MutateWith(c, body, ts);
            && d.me == c.me && d.nextRequest == c.nextRequest + 1 && d.nextClientSeq == c.nextClientSeq + 1
            && d.inFlight == c.inFlight[c.nextRequest := WaitMutate(c.nextClientSeq)]
            && Ordered(d.pending)
            && forall p | p in d.pending ::
               p in c.pending || (p.clientSeq == c.nextClientSeq && !p.delivery.NotAdmitted?)
  {
  }

  lemma UserKeeps(w: World, step: Step)
    requires Invariant(w)
    ensures Invariant(UserStep(w, step))
  {
    hide ApplyAll, Overlay, OnPreviewReceipt;
    var c := w.client;
    match step
    case Welcome =>
      if c.connection.Connecting? {
        AskKeeps(w, Requested(c, WaitSubscribe), SendSubscribe(c.nextRequest, c.connection.last), WaitSubscribe);
      }
    case Drop => DropKeeps(w);
    case UserMutate(body, ts) =>
      MutateWires(c, body, ts);
      SendKeeps(w, MutateWith(c, body, ts), body);
    case UserUntracked(body) => SendKeeps(w, MutateUntracked(c), body);
    case UserOpen(review) => AskKeeps(w, OpenReview(c, review), SendOpen(c.nextRequest, review), WaitSnapshot(review));
    case UserOpenReference(review) => AskKeeps(w, OpenReference(c, review), SendOpen(c.nextRequest, review),
        WaitSnapshot(review));
    case _ => QuietStep(w, step);
  }

  lemma QuietStep(w: World, step: Step)
    requires Invariant(w)
    requires !step.Welcome? && !step.Drop? && !step.UserMutate? && !step.UserUntracked? && !step.UserOpen?
             && !step.UserOpenReference?
    ensures Invariant(UserStep(w, step))
  {
    hide Overlay, ApplyEvent;
    var c := w.client;
    match step
    case UserCloseDraft =>
      ApplyAllQuieter(c.(draft := false, deferred := []), c.deferred);
      QuieterKeeps(w, CloseDraft(c), w.down);
    case UserClose => QuieterKeeps(w, CloseReview(c.(reference := None, latestOpen := None)), w.down);
    case PreviewReceipt(id, receipt) => QuieterKeeps(w, OnPreviewReceipt(c, id, receipt), w.down);
    case UserConnect => QuieterKeeps(w, Connect(c), w.down);
    case TransportUp => QuieterKeeps(w, OnConnected(c), w.down);
    case UserDraft => QuieterKeeps(w, c.(draft := true), w.down);
    case _ =>
  }

  lemma RemovedSubset<T>(s: seq<T>, i: nat)
    requires i < |s|
    ensures forall x | x in Removed(s, i) :: x in s
    ensures forall k | 0 <= k < |Removed(s, i)| :: Removed(s, i)[k] == s[if k < i then k else k + 1]
  {
  }

  /** Withdrawing request `i` leaves no other copy of its mutation. */
  lemma WithdrawnUnique(w: World, i: nat)
    requires Invariant(w) && i < |w.requests| && w.requests[i].send.SendMutate?
    ensures forall q | q in Removed(w.requests, i) && q.send.SendMutate? ::
            q.send.clientSeq != w.requests[i].send.clientSeq
  {
    RemovedSubset(w.requests, i);
    forall q | q in Removed(w.requests, i) && q.send.SendMutate?
      ensures q.send.clientSeq != w.requests[i].send.clientSeq
    {
      var k :| 0 <= k < |Removed(w.requests, i)| && Removed(w.requests, i)[k] == q;
    }
  }

  lemma CommitKeeps(w: World, step: Step)
    requires Invariant(w) && step.DaemonCommit?
    ensures Invariant(DaemonStep(w, step))
  {
    hide SnapshotAt, Echoes, Invariant;
    var x := DaemonStep(w, step);
    if x != w {
      var i := step.i;
      var r, e, rest := w.requests[i], x.log[|w.log|], w.(requests := Removed(w.requests, i));
      AnswerThins(w, i, true);
      ThinnedKeeps(w, Removed(w.requests, i));
      CommittedIsFree(w, i);
      LogKeeps(rest, e);
      UnwatchedKeeps(rest.(log := w.log + [e]), x);
    }
  }

  /** The committed mutation has no other copy on its way and is not refused. */
  lemma CommittedIsFree(w: World, i: nat)
    requires Invariant(w) && i < |w.requests| && w.requests[i].send.SendMutate?
    ensures var s := w.requests[i].send.clientSeq;
            && s < w.client.nextClientSeq && (forall e | e in w.log :: !OfMine(w, e, s))
            && (forall q | q in Removed(w.requests, i) && q.send.SendMutate? :: q.send.clientSeq != s)
            && Unrefused(w, s)
  {
    WithdrawnUnique(w, i);
    assert w.requests[i] in w.requests;
    assert forall s: nat | Unsent(w, s) :: s != w.requests[i].send.clientSeq;
  }

  /** No entry and no answer on the wire counts on mutation `s` not having been admitted. */
  ghost predicate Unrefused(w: World, s: nat) {
    && (forall p | p in w.client.pending && p.delivery.NotAdmitted? :: p.clientSeq != s)
    && (forall m | m in w.down && m.ErrorReply? && m.error.Restarting? && m.id in w.client.inFlight ::
          w.client.inFlight[m.id] != WaitMutate(s))
  }

  /** The log may take an event of ours that nothing else stands for. */
  lemma LogKeeps(w: World, e: Event)
    requires Invariant(w) && e.client == w.client.me && e.clientSeq < w.client.nextClientSeq
    requires forall d | d in w.log :: !OfMine(w, d, e.clientSeq)
    requires forall q | q in w.requests && q.send.SendMutate? :: q.send.clientSeq != e.clientSeq
    requires Unrefused(w, e.clientSeq)
    ensures Invariant(w.(log := w.log + [e]))
  {
    hide Tidy;
    var x := w.(log := w.log + [e]);
    assert forall k | 0 <= k < |w.log| :: x.log[k] == w.log[k] && w.log[k] in w.log;
    assert forall s: nat | s != e.clientSeq :: Unsent(w, s) ==> Unsent(x, s);
  }

  /** The same sends, or fewer, in the same order. */
  ghost predicate Thinned(from: seq<Outstanding>, rs: seq<Outstanding>) {
    && (forall q | q in rs :: exists r :: r in from && r.send == q.send)
    && (forall i, j | 0 <= i < j < |rs| && rs[i].send.SendMutate? && rs[j].send.SendMutate? ::
       rs[i].send.clientSeq != rs[j].send.clientSeq)
  }

  lemma ThinnedKeeps(w: World, rs: seq<Outstanding>)
    requires Invariant(w) && Thinned(w.requests, rs)
    ensures Invariant(w.(requests := rs))
  {
    var x := w.(requests := rs);
    forall s: nat | Unsent(w, s)
      ensures Unsent(x, s)
    {
      forall q | q in rs && q.send.SendMutate?
        ensures q.send.clientSeq != s
      {
        var r :| r in w.requests && r.send == q.send;
      }
    }
  }

  lemma ErrorSent(w: World, m: Msg)
    requires Invariant(w) && m.ErrorReply? && m.id < w.client.nextRequest
    requires m.error.Restarting? && m.id in w.client.inFlight && w.client.inFlight[m.id].WaitMutate? ==>
             Unsent(w, w.client.inFlight[m.id].clientSeq)
    ensures Invariant(w.(down := w.down + [m]))
  {
    var x := w.(down := w.down + [m]);
    assert forall s: nat :: Unsent(w, s) ==> Unsent(x, s);
    assert forall n | n in x.down :: n in w.down || n == m;
  }

  /** Requests with a client sequence number of their own each. */
  ghost predicate Apart(rs: seq<Outstanding>) {
    forall i, j | 0 <= i < j < |rs| && rs[i].send.SendMutate? && rs[j].send.SendMutate? ::
      rs[i].send.clientSeq != rs[j].send.clientSeq
  }

  lemma InvariantApart(w: World)
    requires Invariant(w)
    ensures Apart(w.requests)
  {
  }

  lemma AnswerThins(w: World, i: nat, withdrawn: bool)
    requires Invariant(w) && i < |w.requests|
    ensures Thinned(w.requests, if withdrawn then Removed(w.requests, i)
                                else w.requests[i := w.requests[i].(replyable := false)])
  {
    hide Invariant, Thinned, Apart;
    InvariantApart(w);
    RemovedThins(w.requests, i);
    MutedThins(w.requests, i);
  }

  lemma RemovedThins(rs: seq<Outstanding>, i: nat)
    requires Apart(rs) && i < |rs|
    ensures Thinned(rs, Removed(rs, i))
  {
    RemovedSubset(rs, i);
  }

  lemma MutedThins(rs: seq<Outstanding>, i: nat)
    requires Apart(rs) && i < |rs|
    ensures Thinned(rs, rs[i := rs[i].(replyable := false)])
  {
    var ts := rs[i := rs[i].(replyable := false)];
    assert forall k | 0 <= k < |rs| :: ts[k].send == rs[k].send;
    forall q | q in ts
      ensures exists r :: r in rs && r.send == q.send
    {
      var k :| 0 <= k < |ts| && ts[k] == q;
      assert rs[k] in rs && rs[k].send == q.send;
    }
  }

  lemma AnswerKeeps(w: World, step: Step)
    requires Invariant(w) && step.DaemonAnswer?
    ensures Invariant(DaemonStep(w, step))
  {
    var i := step.i;
    if i < |w.requests| && w.requests[i].replyable && (step.withdrawn || !step.error.Restarting?) {
      var r := w.requests[i];
      var rs := if step.withdrawn then Removed(w.requests, i) else w.requests[i := r.(replyable := false)];
      AnswerThins(w, i, step.withdrawn);
      ThinnedKeeps(w, rs);
      var x := w.(requests := rs);
      assert r in w.requests;
      if step.withdrawn && r.send.SendMutate? {
        WithdrawnUnique(w, i);
        assert Unsent(x, r.send.clientSeq);
      }
      ErrorSent(x, ErrorReply(r.send.id, step.error));
    }
  }

  lemma DaemonKeeps(w: World, step: Step)
    requires Invariant(w)
    ensures Invariant(DaemonStep(w, step))
  {
    match step
    case DaemonCommit(_, _, _, _) => CommitKeeps(w, step);
    case DaemonAnswer(_, _, _) => AnswerKeeps(w, step);
    case DaemonSubscribe(i) => WithdrawKeeps(w, step, i);
    case DaemonSnapshot(i) => WithdrawKeeps(w, step, i);
    case DaemonForeign(_, _, _, _, _) => ForeignKeeps(w, step);
    case DaemonBroadcast => PushKeeps(w, DaemonStep(w, step));
    case DaemonFinishReplay => PushKeeps(w, DaemonStep(w, step));
    case DaemonReply(j) => PushKeeps(w, DaemonStep(w, step));
    case _ =>
  }

  lemma WithdrawKeeps(w: World, step: Step, i: nat)
    requires Invariant(w) && (step.DaemonSubscribe? || step.DaemonSnapshot?) && step.i == i
    ensures Invariant(DaemonStep(w, step))
  {
    hide SnapshotAt, Invariant;
    var x := DaemonStep(w, step);
    if i < |w.requests| && x != w {
      AnswerThins(w, i, true);
      ThinnedKeeps(w, Removed(w.requests, i));
      UnwatchedKeeps(w.(requests := Removed(w.requests, i)), x);
    }
  }

  /** The invariant does not look at the daemon's debts. */
  lemma UnwatchedKeeps(w: World, x: World)
    requires Invariant(w) && x == w.(owed := x.owed, tail := x.tail, sent := x.sent)
    ensures Invariant(x)
  {
    hide Tidy;
    assert forall s: nat :: Unsent(w, s) == Unsent(x, s);
  }

  lemma ForeignKeeps(w: World, step: Step)
    requires Invariant(w) && step.DaemonForeign?
    ensures Invariant(DaemonStep(w, step))
  {
    var x := DaemonStep(w, step);
    assert forall s: nat :: Unsent(w, s) ==> Unsent(x, s);
  }

  lemma PushKeeps(w: World, x: World)
    requires Invariant(w) && x.client == w.client && x.log == w.log && x.requests == w.requests
    requires forall m | m in x.down && m.ErrorReply? :: m in w.down
    ensures Invariant(x)
  {
    assert forall s: nat :: Unsent(w, s) ==> Unsent(x, s);
  }

  lemma DeliverKeeps(w: World)
    requires Invariant(w)
    ensures Invariant(DeliverStep(w))
  {
    if w.down != [] {
      var m, c, rest := w.down[0], w.client, w.down[1..];
      match m
      case Broadcast(e) =>
        EventQuieter(c, e);
        QuieterKeeps(w, OnEvent(c, e), rest);
      case CommittedReply(id, e) =>
        CommittedQuieter(c, id, e);
        QuieterKeeps(w, OnCommitted(c, id, e), rest);
      case ErrorReply(id, error) =>
        if error.Restarting? {
          RefusalKeeps(w);
        } else {
          ErrorQuieter(c, id, error);
          QuieterKeeps(w, OnError(c, id, error), rest);
        }
      case SubscribedReply(_, _) => SubscribedKeeps(w);
      case SnapshotReply(id, s) =>
        SnapshotQuieter(c, id, s);
        QuieterKeeps(w, OnSnapshot(c, id, s), rest);
    }
  }

  lemma {:induction false} RunKeeps(w: World, steps: seq<Step>)
    requires Start(w)
    ensures Invariant(Run(w, steps))
    decreases |steps|
  {
    if steps != [] {
      var before, step := Run(w, steps[..|steps| - 1]), steps[|steps| - 1];
      RunKeeps(w, steps[..|steps| - 1]);
      if step.Deliver? {
        DeliverKeeps(before);
      } else {
        UserKeeps(before, step);
        DaemonKeeps(UserStep(before, step), step);
      }
    }
  }

  /** At-most-once commit, through any disconnects, refusals and reconnects. */
  lemma {:induction false} CommittedAtMostOnce(w: World, steps: seq<Step>, i: nat, j: nat)
    requires Start(w)
    requires i < |Run(w, steps).log| && j < |Run(w, steps).log|
    requires var x := Run(w, steps);
             x.log[i].client == x.client.me == x.log[j].client
             && x.log[i].clientSeq == x.log[j].clientSeq
    ensures i == j
  {
    RunKeeps(w, steps);
  }
}
