/**
 Progress: a delivered mutation is no longer pending, and once the wire is quiet the client has caught up
 with the log and shows it plus exactly what is not committed yet.
 */
module Settling {
  import opened Protocol
  import opened Events
  import opened Client
  import opened Session
  import opened Landing
  import opened ReferenceRuns
  import opened Redelivery
  import Replay
  import AtMostOnce
  import Convergence
  import Receipts
  import Shown = ShownIsOverlay

  predicate Own(me: ClientId, e: Event, s: nat) { e.client == me && e.clientSeq == s }

  /** No entry is pending whose event was delivered; nothing is pending before the first subscription. */
  ghost predicate Retired(c: State, log: seq<Event>) {
    && (c.connection.LastSeq().None? ==> c.pending == [])
    && forall k, p | 0 <= k < |log| && k < Cursor(c) && p in c.pending :: !Own(c.me, log[k], p.clientSeq)
  }

  /** The pending list at most lost entries or changed their marks. */
  ghost predicate Shrinks(c: State, d: State) {
    && d.me == c.me && (c.connection.LastSeq().Some? ==> d.connection.LastSeq() == c.connection.LastSeq())
    && (c.pending == [] ==> d.pending == [])
    && forall q | q in d.pending :: exists p :: p in c.pending && p.clientSeq == q.clientSeq
  }

  lemma ShrinksRetired(c: State, d: State, log: seq<Event>)
    requires Retired(c, log) && Shrinks(c, d)
    ensures Retired(d, log)
  {
    if c.connection.LastSeq().None? {
      assert d.pending == [];
    }
  }

  lemma SamePending(c: State, d: State)
    requires d.me == c.me && d.connection.LastSeq() == c.connection.LastSeq() && forall q | q in d.pending ::
             q in c.pending
    ensures Shrinks(c, d)
  {
    if d.pending != [] {
      assert d.pending[0] in c.pending;
    }
  }

  lemma LivePending(c: State, e: Event)
    ensures var d := ApplyLive(c, e);
            && d.me == c.me && d.connection == c.connection && (forall q | q in d.pending :: q in c.pending)
            && (e.client == c.me ==> forall q | q in d.pending :: q.clientSeq != e.clientSeq)
  {
    hide Overlay, ApplyEvent;
  }

  lemma {:induction false} AllPending(c: State, events: seq<Event>)
    ensures var d := ApplyAll(c, events);
            d.me == c.me && d.connection == c.connection && forall q | q in d.pending :: q in c.pending
    decreases |events|
  {
    hide ApplyLive;
    if events != [] {
      AllPending(c, events[..|events| - 1]);
      LivePending(ApplyAll(c, events[..|events| - 1]), events[|events| - 1]);
    }
  }

  /** The event after the cursor is taken: its own entry goes with it. */
  lemma TakenRetired(c: State, d: State, log: seq<Event>)
    requires Retired(c, log) && Cursor(c) < |log| && c.connection.LastSeq().Some?
             && d.connection.LastSeq() == Some(Cursor(c) + 1)
    requires var e := log[Cursor(c)];
             && d.me == c.me && (forall q | q in d.pending :: q in c.pending)
             && (e.client == c.me ==> forall q | q in d.pending :: q.clientSeq != e.clientSeq)
    ensures Retired(d, log)
  {
  }

  lemma MutateRetired(w: World, body: Body, ts: Timestamp)
    requires Retired(w.client, w.log) && AtMostOnce.Invariant(w) && w.client.connection.Subscribed?
    ensures Retired(MutateWith(w.client, body, ts), w.log)
  {
    hide Overlay, AtMostOnce.Tidy, AtMostOnce.Unsent;
    var c, d := w.client, MutateWith(w.client, body, ts);
    forall k, p | 0 <= k < |w.log| && k < Cursor(d) && p in d.pending
      ensures !Own(d.me, w.log[k], p.clientSeq)
    {
      assert w.log[k] in w.log;
    }
  }

  lemma UncertainShrinks(c: State)
    ensures Shrinks(c, OnDisconnected(c))
  {
    var d := OnDisconnected(c);
    forall q | q in d.pending
      ensures exists p :: p in c.pending && p.clientSeq == q.clientSeq
    {
      var i :| 0 <= i < |d.pending| && d.pending[i] == q;
      assert c.pending[i] in c.pending;
    }
  }

  lemma UserRetired(w: World, step: Step)
    requires Retired(w.client, w.log) && AtMostOnce.Invariant(w) && !step.Deliver?
    ensures Retired(UserStep(w, step).client, w.log) && UserStep(w, step).log == w.log
  {
    hide Retired, Shrinks, Overlay, ApplyAll, Receive, MutateWith, OnDisconnected, AtMostOnce.Invariant;
    var c, d := w.client, UserStep(w, step).client;
    match step
    case UserMutate(body, ts) => if c.connection.Subscribed? { MutateRetired(w, body, ts); }
    case UserCloseDraft =>
      AllPending(c.(draft := false, deferred := []), c.deferred);
      SamePending(c, d);
      ShrinksRetired(c, d, w.log);
    case Drop =>
      UncertainShrinks(c);
      ShrinksRetired(c, d, w.log);
    case _ =>
      SamePending(c, d);
      ShrinksRetired(c, d, w.log);
  }

  lemma GrownRetired(c: State, log: seq<Event>, more: seq<Event>)
    requires Retired(c, log) && Cursor(c) <= |log| <= |more| && more[..|log|] == log
    ensures Retired(c, more)
  {
    forall k, p | 0 <= k < |more| && k < Cursor(c) && p in c.pending
      ensures !Own(c.me, more[k], p.clientSeq)
    {
      assert more[k] == log[k];
    }
  }

  lemma ErrorShrinks(c: State, id: nat, error: RpcError)
    ensures Shrinks(c, OnError(c, id, error))
  {
    hide Overlay;
    if id in c.inFlight && c.inFlight[id].WaitMutate? {
      MarkShrinks(c.pending, c.inFlight[id].clientSeq, OutcomeUnknown);
      MarkShrinks(c.pending, c.inFlight[id].clientSeq, NotAdmitted);
    }
  }

  lemma MarkShrinks(pending: seq<Pending>, s: nat, d: Delivery)
    ensures |SetDelivery(pending, s, d)| == |pending|
    ensures forall q | q in SetDelivery(pending, s, d) :: exists p :: p in pending && p.clientSeq == q.clientSeq
  {
    forall q | q in SetDelivery(pending, s, d)
      ensures exists p :: p in pending && p.clientSeq == q.clientSeq
    {
      var i :| 0 <= i < |pending| && SetDelivery(pending, s, d)[i] == q;
      assert pending[i] in pending && pending[i].clientSeq == q.clientSeq;
    }
  }

  lemma SubscribedShrinks(w: World, id: nat, n: Seq)
    requires w.client.connection.LastSeq().Some? ==> n <= w.client.connection.LastSeq().value
    ensures var (d, sends) := OnSubscribed(w.client, id, n); Shrinks(w.client, d)
  {
    hide Resent, WaitingFor;
    var c := w.client;
    var (d, sends) := OnSubscribed(c, id, n);
    forall q | q in d.pending
      ensures exists p :: p in c.pending && p.clientSeq == q.clientSeq
    {
      var i :| 0 <= i < |d.pending| && d.pending[i] == q;
      assert c.pending[i] in c.pending;
    }
  }

  lemma SnapshotShrinks(c: State, id: nat, s: Snapshot)
    ensures Shrinks(c, OnSnapshot(c, id, s))
  {
    hide Overlay, Installed, LandEvents, Shrinks;
    var d := OnSnapshot(c, id, s);
    Convergence.SnapshotConnection(c, id, s);
    assert d.me == c.me && forall q | q in d.pending :: q in c.pending;
    SamePending(c, d);
  }

  lemma StaleShrinks(c: State, id: nat, e: Event)
    requires !Convergence.Wins(c, id, e)
    ensures Shrinks(c, OnCommitted(c, id, e))
  {
    hide Overlay, ApplyLive, Shrinks;
    SamePending(c, OnCommitted(c, id, e));
  }

  lemma DeliverRetired(w: World)
    requires Retired(w.client, w.log) && Fine(w)
    ensures Retired(DeliverStep(w).client, w.log) && DeliverStep(w).log == w.log
  {
    hide Retired, Shrinks, Shown.Invariant, AtMostOnce.Invariant, Landable, ApplyLive, OnSnapshot, OnError, OnCommitted;
    hide OnSubscribed, Rebased;
    if w.down != [] {
      var c, d := w.client, DeliverStep(w).client;
      match w.down[0]
      case Broadcast(e) => BroadcastRetired(w);
      case CommittedReply(id, e) => CommittedRetired(w);
      case ErrorReply(id, error) =>
        ErrorShrinks(c, id, error);
        ShrinksRetired(c, d, w.log);
      case SubscribedReply(id, n) =>
        assert w.down[0] in w.down;
        SubscribedShrinks(w, id, n);
        ShrinksRetired(c, d, w.log);
      case SnapshotReply(id, s) =>
        SnapshotShrinks(c, id, s);
        ShrinksRetired(c, d, w.log);
    }
  }

  lemma BroadcastRetired(w: World)
    requires Retired(w.client, w.log) && Fine(w) && w.down != [] && w.down[0].Broadcast?
    ensures Retired(DeliverStep(w).client, w.log)
  {
    hide Retired, Shown.Invariant, AtMostOnce.Invariant, Landable, ApplyLive;
    var c, e := w.client, w.down[0].event;
    if TakesEvent(c, e) {
      Receipts.BroadcastIsNext(w);
      var moved := c.(connection := Advanced(c.connection, e.seqNo));
      LivePending(moved, e);
      TakenRetired(c, ApplyLive(moved, e), w.log);
    }
  }

  lemma CommittedRetired(w: World)
    requires Retired(w.client, w.log) && Fine(w) && w.down != [] && w.down[0].CommittedReply?
    ensures Retired(DeliverStep(w).client, w.log)
  {
    hide Retired, Shrinks, Shown.Invariant, AtMostOnce.Invariant, Landable, ApplyLive, OnCommitted;
    var c, m := w.client, w.down[0];
    if Convergence.Wins(c, m.id, m.event) {
      Convergence.WinnerIsNext(w);
      WinnerParts(c, m.id, m.event);
      var moved := c.(connection := Subscribed(m.event.seqNo));
      LivePending(moved, m.event);
      TakenRetired(c, OnCommitted(c, m.id, m.event), w.log);
    } else {
      StaleShrinks(c, m.id, m.event);
      ShrinksRetired(c, OnCommitted(c, m.id, m.event), w.log);
    }
  }

  lemma NextRetired(x: World, step: Step)
    requires Retired(x.client, x.log) && Fine(x)
    ensures Retired(Next(x, step).client, Next(x, step).log)
  {
    hide Retired, Shown.Invariant, AtMostOnce.Invariant, Landable, UserStep, DeliverStep;
    if step.Deliver? {
      DeliverRetired(x);
    } else {
      UserRetired(x, step);
      var mid := UserStep(x, step);
      DaemonStands(mid, step);
      Convergence.UserPaced(x, step);
      hide DaemonStep;
      assert Cursor(mid.client) <= |mid.log|;
      GrownRetired(mid.client, mid.log, DaemonStep(mid, step).log);
    }
  }

  /** In every run, an entry whose event was delivered, by broadcast or by response, is no longer pending. */
  lemma {:induction false} DeliveredIsRetired(w: World, steps: seq<Step>)
    requires Start(w)
    ensures var x := Run(w, steps);
            forall k, p | 0 <= k < |x.log| && k < Cursor(x.client) && p in x.client.pending ::
              !(x.log[k].client == x.client.me && x.log[k].clientSeq == p.clientSeq)
  {
    RunRetired(w, steps);
    assert forall e, s ::
             Own(Run(w, steps).client.me, e, s)
             <==> e.client == Run(w, steps).client.me && e.clientSeq == s;
  }

  lemma {:induction false} RunRetired(w: World, steps: seq<Step>)
    requires Start(w)
    ensures Retired(Run(w, steps).client, Run(w, steps).log)
    decreases |steps|
  {
    hide Fine, Next, Retired;
    if steps == [] {
      NothingPending(w);
    } else {
      RunRetired(w, steps[..|steps| - 1]);
      RunFine(w, steps[..|steps| - 1]);
      NextRetired(Run(w, steps[..|steps| - 1]), steps[|steps| - 1]);
    }
  }

  lemma NothingPending(w: World)
    requires Start(w)
    ensures Retired(w.client, w.log)
  {
  }

  // ---- a quiet wire ---------------------------------------------------------

  /** The subscription is live, everything logged was broadcast and everything sent was delivered. */
  predicate Quiet(x: World) {
    x.tail == Tailing && x.sent == |x.log| && x.down == [] && x.client.connection.Subscribed?
  }

  /** What is pending when the wire is quiet is not in the log. */
  ghost predicate Uncommitted(x: World) {
    forall e, p | e in x.log && p in x.client.pending :: !(e.client == x.client.me && e.clientSeq == p.clientSeq)
  }

  /**
   Once the wire is quiet the cursor is at the end of the log and only uncommitted mutations are pending; a
   copy that was installed as a fold of the log is the fold of all of it.
   */
  lemma {:induction false} QuietMeansCaughtUp(w: World, steps: seq<Step>)
    requires Start(w) && Quiet(Run(w, steps))
    ensures var x := Run(w, steps);
            && x.client.connection == Subscribed(|x.log|) && Uncommitted(x)
            && (x.basis.Some? && x.client.deferred == [] && Replay.Grounded(x.basis.value.base, x.log) &&
                x.basis.value.upto <= |x.log| ==>
                  x.client.committed == Some(Fold(x.basis.value.base, x.log)))
  {
    hide Fold, Replay.Grounded, Shown.Invariant, AtMostOnce.Invariant, Landable;
    var x := Run(w, steps);
    RunFine(w, steps);
    assert x.client.connection == Subscribed(|x.log|);
    RunRetired(w, steps);
    forall e, p | e in x.log && p in x.client.pending
      ensures !(e.client == x.client.me && e.clientSeq == p.clientSeq)
    {
      var k :| 0 <= k < |x.log| && x.log[k] == e;
      assert !Own(x.client.me, x.log[k], p.clientSeq);
    }
    assert x.log[..|x.log|] == x.log;
    if x.basis.Some? && x.client.deferred == [] && Replay.Grounded(x.basis.value.base, x.log)
        && x.basis.value.upto <= |x.log| {
      Convergence.Converges(w, steps);
    }
  }

  /** With nothing pending the client shows exactly what is confirmed. */
  lemma {:induction false} NothingPendingShowsConfirmed(w: World, steps: seq<Step>)
    requires Start(w) && Run(w, steps).client.pending == []
    ensures Run(w, steps).client.shown == Run(w, steps).client.committed
  {
    Shown.RunKeeps(w, steps);
  }

  // ---- a mutation, shown at once and settled by its event -------------------

  /** When the user may mutate the open review. */
  predicate MayMutate(x: World, body: Body) {
    && x.client.connection.Subscribed? && x.client.shown.Some? && body.Subject() == Some(x.client.shown.value.review.id)
    && !body.TargetsResolved?
  }

  /**
   In every run: a mutation joins the end of the pending list, is shown over what was shown, and is sent
   under a fresh request and a fresh client sequence number.
   */
  lemma {:induction false} MutationShows(w: World, steps: seq<Step>, body: Body, ts: Timestamp)
    requires Start(w) && MayMutate(Run(w, steps), body)
    ensures var x, y := Run(w, steps), Next(Run(w, steps), UserMutate(body, ts));
            && y.client.pending == x.client.pending + [Pending(x.client.nextClientSeq, ts, body, AwaitingReceipt)]
            && y.client.shown == Some(ApplyBody(x.client.shown.value, Meta(x.client.author, ts), body))
            && y.client.committed == x.client.committed
            && y.requests == x.requests + [Outstanding(SendMutate(x.client.nextRequest, x.client.nextClientSeq, body),
               true)]
            && y.client.inFlight == x.client.inFlight[x.client.nextRequest := WaitMutate(x.client.nextClientSeq)]
            && y.client.nextRequest == x.client.nextRequest + 1 && y.client.nextClientSeq == x.client.nextClientSeq + 1
  {
    hide ApplyBody;
    Shown.RunKeeps(w, steps);
    var x := Run(w, steps);
    var p := Pending(x.client.nextClientSeq, ts, body, AwaitingReceipt);
    assert (x.client.pending + [p])[..|x.client.pending|] == x.client.pending;
  }

  /** Its way through: sent, committed, broadcast and delivered. */
  function Settle(x: World, body: Body, ts: Timestamp, at: Timestamp, author: Author): seq<Step> {
    [UserMutate(body, ts)] + [DaemonCommit(|x.requests|, body, at, author)] + [DaemonBroadcast] + [Deliver]
  }

  lemma RunThen(w: World, steps: seq<Step>, step: Step)
    ensures Run(w, steps + [step]) == Next(Run(w, steps), step)
  {
    assert (steps + [step])[..|steps|] == steps;
  }
}
