/**
 What becomes of a pending mutation, over whole runs: it stays until it is answered or its review goes, a
 refused one is sent again by the next subscription, and one whose event was delivered is no longer pending.
 */
module Redelivery {
  import opened Protocol
  import opened Events
  import opened Client
  import opened Session
  import opened Landing
  import opened ReferenceRuns
  import AtMostOnce
  import Convergence
  import Receipts
  import Shown = ShownIsOverlay

  /** The entry is still pending; a refused one with its mark. */
  ghost predicate Still(d: State, p: Pending) {
    exists q :: q in d.pending && q == p.(delivery := q.delivery) && (p.delivery.NotAdmitted? ==> q == p)
  }

  /** The open review was closed or replaced by another. */
  predicate GivenUp(c: State, d: State) {
    d.committed.None? || c.committed.None? || d.committed.value.review.id != c.committed.value.review.id
  }

  /** The entry was answered by step: its event is in the log, or its own request got a final answer. */
  ghost predicate Answers(w: World, step: Step, p: Pending) {
    || (exists e :: e in w.log && e.client == w.client.me && e.clientSeq == p.clientSeq)
    || (step.Deliver? && w.down != [] && (w.down[0].CommittedReply? || w.down[0].ErrorReply?)
        && w.down[0].id in w.client.inFlight && w.client.inFlight[w.down[0].id] == WaitMutate(p.clientSeq))
  }

  /** The reply to the subscription of this connection. */
  predicate Resubscribes(w: World, step: Step) {
    && step.Deliver? && w.down != [] && w.down[0].SubscribedReply? && w.client.connection.Connecting?
    && w.down[0].id in w.client.inFlight && w.client.inFlight[w.down[0].id].WaitSubscribe?
  }

  ghost predicate Fine(w: World) {
    Shown.Invariant(w) && AtMostOnce.Invariant(w) && Landable(w) && Convergence.Paced(w)
  }

  lemma RunFine(w: World, steps: seq<Step>)
    requires Start(w)
    ensures Fine(Run(w, steps))
  {
    hide Shown.Invariant, AtMostOnce.Invariant, Landable, Convergence.Paced;
    Shown.RunKeeps(w, steps);
    AtMostOnce.RunKeeps(w, steps);
    RunLandable(w, steps);
    Convergence.RunKeeps(w, steps);
    assert Convergence.Invariant(Run(w, steps));
  }

  // ---- what the client does to an entry -------------------------------------

  lemma SameStill(d: State, p: Pending)
    requires p in d.pending
    ensures Still(d, p)
  {
  }

  lemma LiveStill(c: State, e: Event, p: Pending)
    requires p in c.pending && !(e.client == c.me && e.clientSeq == p.clientSeq)
    ensures var d := ApplyLive(c, e); d.me == c.me && (p in d.pending || d.committed.None?)
    ensures var d := ApplyLive(c, e);
            d.committed.Some? ==> c.committed.Some? && d.committed.value.review.id == c.committed.value.review.id
  {
    hide Overlay, ApplyEvent;
    if c.committed.Some? {
      Convergence.LiveKeepsId(c, e);
    }
  }

  lemma {:induction false} AllStill(c: State, events: seq<Event>, p: Pending)
    requires p in c.pending && forall e | e in events :: !(e.client == c.me && e.clientSeq == p.clientSeq)
    ensures var d := ApplyAll(c, events);
            && d.me == c.me && (p in d.pending || d.committed.None?)
            && (d.committed.Some? ==> c.committed.Some? && d.committed.value.review.id == c.committed.value.review.id)
    decreases |events|
  {
    hide ApplyLive;
    if events != [] {
      var init, e := events[..|events| - 1], events[|events| - 1];
      AllStill(c, init, p);
      if p in ApplyAll(c, init).pending {
        LiveStill(ApplyAll(c, init), e, p);
      } else {
        LiveClosed(ApplyAll(c, init), e);
      }
    }
  }

  lemma LiveClosed(c: State, e: Event)
    requires c.committed.None?
    ensures ApplyLive(c, e).committed.None? && ApplyLive(c, e).me == c.me
  {
  }

  lemma UncertainStill(c: State, p: Pending)
    requires p in c.pending
    ensures Still(OnDisconnected(c), p) && OnDisconnected(c).committed == c.committed
  {
    var d := OnDisconnected(c);
    var i :| 0 <= i < |c.pending| && c.pending[i] == p;
    assert d.pending[i] in d.pending;
    assert d.pending[i] == p.(delivery := d.pending[i].delivery);
  }

  lemma ErrorStill(c: State, id: nat, error: RpcError, p: Pending)
    requires p in c.pending && !(id in c.inFlight && c.inFlight[id] == WaitMutate(p.clientSeq))
    ensures p in OnError(c, id, error).pending && OnError(c, id, error).committed == c.committed
  {
    hide Overlay;
    if id in c.inFlight && c.inFlight[id].WaitMutate? {
      MarkStill(c.pending, c.inFlight[id].clientSeq, OutcomeUnknown, p);
      MarkStill(c.pending, c.inFlight[id].clientSeq, NotAdmitted, p);
    }
  }

  lemma MarkStill(pending: seq<Pending>, s: nat, d: Delivery, p: Pending)
    requires p in pending && p.clientSeq != s
    ensures p in SetDelivery(pending, s, d)
  {
    var i :| 0 <= i < |pending| && pending[i] == p;
    var j := PendingAt(pending, s);
    if j < |pending| {
      assert SetDelivery(pending, s, d)[i] == p;
    }
  }

  lemma InstallStill(c: State, id: nat, s: Snapshot, p: Pending)
    requires p in c.pending && c.committed.Some?
    ensures var d := OnSnapshot(c, id, s); p in d.pending || GivenUp(c, d)
  {
    if Installs(c, id, s) {
      hide Overlay, ReplayNewer, MergeReceipts, LandEvents;
      Shown.InstalledKeepsId(c, id, s);
      var i := InstallSnapshot(c, id, s);
      if i.reference.Some? && LandEvents(i.committed.value, i.reference.value.events).Some? {
        Shown.LandKeepsId(i.committed.value, i.reference.value.events);
      }
    } else {
      hide Overlay, Installed, LandReference;
    }
  }

  // ---- steps ----------------------------------------------------------------

  lemma UserStill(w: World, step: Step, p: Pending)
    requires Fine(w) && p in w.client.pending && !step.Deliver? && !Answers(w, step, p)
    ensures Still(UserStep(w, step).client, p) || GivenUp(w.client, UserStep(w, step).client)
  {
    hide Fine, Overlay, ApplyAll, Receive, Still, OnDisconnected;
    var c := w.client;
    match step
    case UserCloseDraft => if c.draft { DraftStill(w, p); } else { SameStill(c, p); }
    case Drop => UncertainStill(c, p);
    case UserClose => SameStill(c, p);
    case _ => SameStill(UserStep(w, step).client, p);
  }

  lemma DraftStill(w: World, p: Pending)
    requires Fine(w) && p in w.client.pending && w.client.draft && !Answers(w, UserCloseDraft, p)
    ensures var d := UserStep(w, UserCloseDraft).client; Still(d, p) || GivenUp(w.client, d)
  {
    hide Shown.Invariant, AtMostOnce.Invariant, Convergence.Paced, Truthful, Covering, Still, ApplyAll;
    var c := w.client;
    forall e | e in c.deferred
      ensures !(e.client == c.me && e.clientSeq == p.clientSeq)
    {
      assert FromLog(w.log, e, Cursor(c));
      assert e in w.log;
    }
    AllStill(c.(draft := false, deferred := []), c.deferred, p);
    var d := UserStep(w, UserCloseDraft).client;
    if p in d.pending {
      SameStill(d, p);
    }
  }

  lemma DeliverStill(w: World, p: Pending)
    requires Fine(w) && p in w.client.pending && !Answers(w, Deliver, p) && !Resubscribes(w, Deliver)
    ensures var d := DeliverStep(w).client; Still(d, p) || GivenUp(w.client, d)
  {
    hide Shown.Invariant, AtMostOnce.Invariant, Landable, Still, ApplyLive, OnSnapshot, OnError, Rebased;
    var c, d := w.client, DeliverStep(w).client;
    if w.down == [] {
      SameStill(c, p);
    } else {
      match w.down[0]
      case Broadcast(e) => BroadcastStill(w, p);
      case CommittedReply(id, e) => CommittedStill(w, p);
      case ErrorReply(id, error) =>
        ErrorStill(c, id, error, p);
        SameStill(d, p);
      case SubscribedReply(id, n) => SameStill(d, p);
      case SnapshotReply(id, s) =>
        PendingNeedsReview(w, p);
        InstallStill(c, id, s, p);
        if p in d.pending { SameStill(d, p); }
    }
  }

  lemma PendingNeedsReview(w: World, p: Pending)
    requires Shown.Invariant(w) && p in w.client.pending
    ensures w.client.committed.Some?
  {
  }

  lemma BroadcastStill(w: World, p: Pending)
    requires Fine(w) && p in w.client.pending && !Answers(w, Deliver, p) && w.down != [] && w.down[0].Broadcast?
    ensures var d := DeliverStep(w).client; Still(d, p) || GivenUp(w.client, d)
  {
    hide Shown.Invariant, AtMostOnce.Invariant, Landable, Still, ApplyLive, Answers;
    var c, e := w.client, w.down[0].event;
    if TakesEvent(c, e) {
      Receipts.BroadcastIsNext(w);
      NotMine(w, e, p);
      LiveStill(c.(connection := Advanced(c.connection, e.seqNo)), e, p);
    }
    if p in DeliverStep(w).client.pending {
      SameStill(DeliverStep(w).client, p);
    }
  }

  lemma NotMine(w: World, e: Event, p: Pending)
    requires e in w.log && !Answers(w, Deliver, p)
    ensures !(e.client == w.client.me && e.clientSeq == p.clientSeq)
  {
  }

  lemma CommittedStill(w: World, p: Pending)
    requires Fine(w) && p in w.client.pending && !Answers(w, Deliver, p) && w.down != [] && w.down[0].CommittedReply?
    ensures var d := DeliverStep(w).client; Still(d, p) || GivenUp(w.client, d)
  {
    hide Shown.Invariant, AtMostOnce.Invariant, Landable, Still, ApplyLive;
    var c, m := w.client, w.down[0];
    if Convergence.Wins(c, m.id, m.event) {
      Convergence.WinnerIsNext(w);
      NotMine(w, m.event, p);
      WinnerParts(c, m.id, m.event);
      LiveStill(c.(connection := Subscribed(m.event.seqNo)), m.event, p);
    } else {
      StaleStill(c, m.id, m.event, p);
    }
    if p in DeliverStep(w).client.pending {
      SameStill(DeliverStep(w).client, p);
    }
  }

  lemma StaleStill(c: State, id: nat, e: Event, p: Pending)
    requires p in c.pending && !Convergence.Wins(c, id, e)
             && !(id in c.inFlight && c.inFlight[id] == WaitMutate(p.clientSeq))
    ensures p in OnCommitted(c, id, e).pending && OnCommitted(c, id, e).committed == c.committed
  {
    hide Overlay, ApplyLive;
  }

  /**
   In every run a pending entry stays through each step, with its body and time, unless it is answered, its
   review is closed or replaced, or the subscription is confirmed and sends it again.
   */
  lemma {:induction false} PendingStays(w: World, steps: seq<Step>, step: Step, p: Pending)
    requires Start(w) && p in Run(w, steps).client.pending
    ensures var x := Run(w, steps);
            || Answers(x, step, p) || Resubscribes(x, step) || GivenUp(x.client, Next(x, step).client)
            || Still(Next(x, step).client, p)
  {
    hide Fine, Answers, Still, UserStep, DaemonStep, DeliverStep, Run;
    RunFine(w, steps);
    var x := Run(w, steps);
    if !Answers(x, step, p) && !Resubscribes(x, step) {
      if step.Deliver? {
        DeliverStill(x, p);
      } else {
        UserStill(x, step, p);
        DaemonAside(UserStep(x, step), step);
      }
    }
  }

  lemma DaemonAside(w: World, step: Step)
    ensures DaemonStep(w, step).client == w.client
  {
  }

  // ---- refused entries are sent again ---------------------------------------

  /** The step sends the entry's mutation under a fresh request, and waits for its answer. */
  ghost predicate SendsAgain(w: World, step: Step, p: Pending) {
    exists id: nat ::
      && w.client.nextRequest <= id < Next(w, step).client.nextRequest
      && Outstanding(SendMutate(id, p.clientSeq, p.body), true) in Next(w, step).requests
      && id in Next(w, step).client.inFlight && Next(w, step).client.inFlight[id] == WaitMutate(p.clientSeq)
      && p.(delivery := AwaitingReceipt) in Next(w, step).client.pending
  }

  lemma {:induction false} ResentHas(pending: seq<Pending>, next: nat, p: Pending)
    requires p in pending && p.delivery.NotAdmitted?
    ensures exists i ::
              0 <= i < |Resent(pending, next)|
              && Resent(pending, next)[i] == SendMutate(next + i, p.clientSeq, p.body)
  {
    var init, last := pending[..|pending| - 1], pending[|pending| - 1];
    var before := Resent(init, next);
    if p in init {
      ResentHas(init, next, p);
      var i :| 0 <= i < |before| && before[i] == SendMutate(next + i, p.clientSeq, p.body);
      assert Resent(pending, next)[i] == before[i];
    } else {
      assert pending == init + [last] && p == last;
      assert Resent(pending, next)[|before|] == SendMutate(next + |before|, p.clientSeq, p.body);
    }
  }

  lemma {:induction false} ResentNumbered(pending: seq<Pending>, next: nat)
    ensures forall i | 0 <= i < |Resent(pending, next)| ::
            Resent(pending, next)[i].SendMutate? && Resent(pending, next)[i].id == next + i
  {
    if pending != [] {
      ResentNumbered(pending[..|pending| - 1], next);
    }
  }

  lemma {:induction false} WaitsFor(sends: seq<Send>, next: nat, i: nat)
    requires i < |sends| && forall k | 0 <= k < |sends| :: sends[k].SendMutate? && sends[k].id == next + k
    ensures next + i in WaitingFor(sends) && WaitingFor(sends)[next + i] == WaitMutate(sends[i].clientSeq)
  {
    if i < |sends| - 1 {
      WaitsFor(sends[..|sends| - 1], next, i);
    }
  }

  /** The confirmed subscription sends every refused entry. */
  lemma ConfirmedSends(w: World, p: Pending)
    requires Resubscribes(w, Deliver) && p in w.client.pending && p.delivery.NotAdmitted?
    requires forall id | id in w.client.inFlight :: id < w.client.nextRequest
    ensures SendsAgain(w, Deliver, p)
  {
    hide Resent, WaitingFor;
    var c, id := w.client, w.down[0].id;
    var sends := Resent(c.pending, c.nextRequest);
    ResentHas(c.pending, c.nextRequest, p);
    ResentNumbered(c.pending, c.nextRequest);
    var i: nat :| i < |sends| && sends[i] == SendMutate(c.nextRequest + i, p.clientSeq, p.body);
    WaitsFor(sends, c.nextRequest, i);
    ReadmittedHas(c.pending, p);
    assert AsRequests(sends)[i] in AsRequests(sends);
  }

  lemma ReadmittedHas(pending: seq<Pending>, p: Pending)
    requires p in pending && p.delivery.NotAdmitted?
    ensures p.(delivery := AwaitingReceipt) in Readmitted(pending)
  {
    var i :| 0 <= i < |pending| && pending[i] == p;
    assert Readmitted(pending)[i] in Readmitted(pending);
  }

  lemma RefusedUnanswered(w: World, step: Step, p: Pending)
    requires AtMostOnce.Invariant(w) && p in w.client.pending && p.delivery.NotAdmitted?
    ensures !Answers(w, step, p)
  {
    assert AtMostOnce.Unsent(w, p.clientSeq);
  }

  /** One step of a refused entry's life. */
  lemma RefusedStep(w: World, steps: seq<Step>, step: Step, p: Pending)
    requires Start(w) && p in Run(w, steps).client.pending && p.delivery.NotAdmitted?
    ensures var x := Run(w, steps);
            || p in Next(x, step).client.pending || GivenUp(x.client, Next(x, step).client)
            || (Resubscribes(x, step) && SendsAgain(x, step, p))
  {
    hide Answers, SendsAgain, Next, Run, Shown.Invariant, Landable, Convergence.Paced;
    RunFine(w, steps);
    var x := Run(w, steps);
    RefusedUnanswered(x, step, p);
    PendingStays(w, steps, step, p);
    if Resubscribes(x, step) {
      ConfirmedSends(x, p);
    }
  }

  /** At step `k` of `more`, after `steps`. */
  ghost function At(w: World, steps: seq<Step>, more: seq<Step>, k: nat): World
    requires k <= |more|
  {
    Run(w, steps + more[..k])
  }

  /**
   A refused mutation waits in the pending list, unchanged, until a confirmed subscription sends it again
   under a fresh request or its review is closed or replaced.
   */
  lemma {:induction false} RefusedIsResent(w: World, steps: seq<Step>, more: seq<Step>, p: Pending)
    requires Start(w) && p in Run(w, steps).client.pending && p.delivery.NotAdmitted?
    ensures || p in Run(w, steps + more).client.pending
            || exists k: nat :: k < |more| && (
                 || GivenUp(At(w, steps, more, k).client, At(w, steps, more, k + 1).client)
                 || (Resubscribes(At(w, steps, more, k), more[k]) && SendsAgain(At(w, steps, more, k), more[k], p)))
    decreases |more|
  {
    hide Run, SendsAgain, GivenUp, Resubscribes, Next;
    if more == [] {
      assert steps + more == steps;
    } else {
      var n := |more| - 1;
      var init, step := more[..n], more[n];
      RefusedIsResent(w, steps, init, p);
      assert forall k: nat | k <= n :: init[..k] == more[..k];
      assert forall k: nat | k <= n :: At(w, steps, init, k) == At(w, steps, more, k);
      if p in Run(w, steps + init).client.pending {
        RefusedStep(w, steps + init, step, p);
        LastStep(w, steps, more);
      } else {
        var k: nat :| k < n && (
          || GivenUp(At(w, steps, init, k).client, At(w, steps, init, k + 1).client)
          || (Resubscribes(At(w, steps, init, k), init[k]) && SendsAgain(At(w, steps, init, k), init[k], p)));
        assert init[k] == more[k];
      }
    }
  }

  lemma LastStep(w: World, steps: seq<Step>, more: seq<Step>)
    requires more != []
    ensures var n := |more| - 1;
            && Run(w, steps + more) == Next(Run(w, steps + more[..n]), more[n])
            && At(w, steps, more, n) == Run(w, steps + more[..n]) && At(w, steps, more, n + 1) == Run(w, steps + more)
  {
    hide Next;
    var n := |more| - 1;
    assert more[..|more|] == more;
    assert (steps + more)[..|steps + more| - 1] == steps + more[..n];
  }
}
