/** Reference landing and ordinary opening in the composed system. */
module ReferenceRuns {
  import opened Protocol
  import opened Events
  import opened Client
  import opened Session
  import opened Landing
  import Replay
  import AtMostOnce
  import Convergence
  import Shown = ShownIsOverlay

  function Cursor(c: State): nat { if c.connection.LastSeq().Some? then c.connection.LastSeq().value else 0 }

  predicate Travelling(w: World, id: nat, s: Snapshot) {
    OwedSnapshot(id, s) in w.owed || SnapshotReply(id, s) in w.down
  }

  predicate Delivered(log: seq<Event>, events: seq<Event>, last: nat) {
    forall e | e in events :: FromLog(log, e, last)
  }

  /** Everything the client remembers was delivered to it. */
  ghost predicate Recent(c: State, log: seq<Event>) {
    && Delivered(log, c.deferred, Cursor(c))
    && (c.reference.Some? ==>
          && Delivered(log, c.reference.value.events, Cursor(c))
          && forall e | e in c.reference.value.events :: e.body.Subject() == Some(c.reference.value.review))
    && (forall id | id in c.snapshotEvents :: Delivered(log, c.snapshotEvents[id].events, Cursor(c)))
    && (c.latestOpen.Some? ==> c.latestOpen.value < c.nextRequest)
    && (c.reference.Some? ==> c.connection.LastSeq().Some?)
    && (c.reference.Some? ==>
       c.latestOpen.Some?
       && (c.latestOpen.value in c.inFlight ==>
             c.inFlight[c.latestOpen.value] == WaitSnapshot(c.reference.value.review)))
  }

  ghost predicate Truthful(w: World) {
    forall id: nat, s | Travelling(w, id, s) ::
      && id < w.client.nextRequest && s.review.id in w.genesis && s.cursor <= |w.log|
      && s == SnapshotAt(w, s.review.id, s.cursor)
  }

  ghost predicate Covering(w: World) {
    w.client.reference.Some? ==>
      forall id: nat, s | Travelling(w, id, s) && w.client.latestOpen == Some(id) ::
        Covered(w.log, w.client.reference.value.events, w.client.reference.value.review, s.cursor, Cursor(w.client))
  }

  ghost predicate Genesis(w: World) {
    forall r | r in w.genesis :: w.genesis[r].review.id == r && w.genesis[r].suggestions == []
  }

  ghost predicate Landable(w: World) { Recent(w.client, w.log) && Truthful(w) && Covering(w) && Genesis(w) }

  // ---- what events do to the recordings -------------------------------------

  lemma LiveRecords(c: State, e: Event)
    ensures var d := ApplyLive(c, e);
            && d.reference == Noted(c, e).reference && d.snapshotEvents == Noted(c, e).snapshotEvents
            && d.latestOpen == c.latestOpen && d.inFlight == c.inFlight && d.nextRequest == c.nextRequest
               && d.connection == c.connection
  {
  }

  lemma LiveDeferred(c: State, e: Event)
    ensures var d := ApplyLive(c, e).deferred; d == c.deferred || d == c.deferred + [e] || d == []
  {
  }

  lemma LiveRecent(c: State, log: seq<Event>, e: Event)
    requires Recent(c, log) && FromLog(log, e, Cursor(c))
    ensures Recent(ApplyLive(c, e), log)
  {
    LiveRecords(c, e);
    LiveDeferred(c, e);
  }

  lemma CoveredAppend(log: seq<Event>, events: seq<Event>, review: ReviewId, m: nat, last: nat, e: Event)
    requires Covered(log, events, review, m, last)
    ensures Covered(log, events + [e], review, m, last)
  {
    forall j: nat | m <= j < last && Mine(log, review, j)
      ensures exists i: nat :: FreshAt(log, events + [e], j, i)
    {
      var i: nat :| FreshAt(log, events, j, i);
      assert FreshAt(log, events + [e], j, i);
    }
  }

  /** A newly delivered event extends the coverage by itself. */
  lemma CoveredNext(log: seq<Event>, events: seq<Event>, review: ReviewId, m: nat, last: nat)
    requires Covered(log, events, review, m, last) && last < |log| && Delivered(log, events, last)
    ensures Mine(log, review, last) ==> Covered(log, events + [log[last]], review, m, last + 1)
    ensures !Mine(log, review, last) ==> Covered(log, events, review, m, last + 1)
  {
    if Mine(log, review, last) {
      CoveredAppend(log, events, review, m, last, log[last]);
      assert forall h | 0 <= h < |events| :: events[h] in events && (events + [log[last]])[h] == events[h];
      assert FreshAt(log, events + [log[last]], last, |events|);
    }
  }

  /** Advancing the cursor by one keeps what was remembered. */
  lemma RecentAdvances(c: State, log: seq<Event>, conn: Connection)
    requires Recent(c, log) && conn.LastSeq() == Some(Cursor(c) + 1) && Cursor(c) < |log|
    ensures Recent(c.(connection := conn), log)
  {
    assert forall events | Delivered(log, events, Cursor(c)) :: Delivered(log, events, Cursor(c) + 1);
  }

  lemma TakenLandable(w: World, conn: Connection, x: World)
    requires Landable(w) && Convergence.Paced(w) && Cursor(w.client) < |w.log|
             && conn.LastSeq() == Some(Cursor(w.client) + 1)
    requires var e := w.log[Cursor(w.client)];
             var live := ApplyLive(w.client.(connection := conn), e);
             && x.client.reference == live.reference && x.client.deferred == live.deferred
                && x.client.latestOpen == live.latestOpen
             && x.client.connection == conn && x.client.nextRequest == live.nextRequest
             && (forall id | id in x.client.snapshotEvents ::
                id in live.snapshotEvents && x.client.snapshotEvents[id] == live.snapshotEvents[id])
             && (forall id | id in x.client.inFlight ::
                id in live.inFlight && x.client.inFlight[id] == live.inFlight[id])
    requires x.log == w.log && x.owed == w.owed && x.genesis == w.genesis && forall m | m in x.down :: m in w.down
    ensures Landable(x)
  {
    var last, c := Cursor(w.client), w.client.(connection := conn);
    var e := w.log[last];
    RecentAdvances(w.client, w.log, conn);
    LiveRecent(c, w.log, e);
    LiveRecords(c, e);
    assert Recent(x.client, x.log);
    assert Truthful(x) by {
      forall id: nat, s | Travelling(x, id, s)
        ensures id < x.client.nextRequest && s.review.id in x.genesis && s.cursor <= |x.log|
                && s == SnapshotAt(x, s.review.id, s.cursor)
      {
        assert Travelling(w, id, s);
      }
    }
    if x.client.reference.Some? {
      var before := w.client.reference.value;
      forall id: nat, s | Travelling(x, id, s) && x.client.latestOpen == Some(id)
        ensures Covered(x.log, x.client.reference.value.events, x.client.reference.value.review, s.cursor,
                Cursor(x.client))
      {
        assert Travelling(w, id, s);
        CoveredNext(w.log, before.events, before.review, s.cursor, last);
      }
    }
  }

  // ---- steps ----------------------------------------------------------------

  /** The recordings stood still while the rest moved on. */
  lemma StillLandable(w: World, x: World)
    requires Landable(w) && x.genesis == w.genesis && |w.log| <= |x.log| && x.log[..|w.log|] == w.log
             && Cursor(w.client) <= |w.log|
    requires var c, d := w.client, x.client;
             && Cursor(d) == Cursor(c) && c.nextRequest <= d.nextRequest && d.deferred == c.deferred
             && (c.connection.LastSeq().Some? ==> d.connection.LastSeq().Some?)
             && (d.reference.None? || (d.reference == c.reference && d.latestOpen == c.latestOpen))
             && (d.latestOpen == c.latestOpen || d.latestOpen.None?)
             && (forall id | id in d.snapshotEvents ::
                id in c.snapshotEvents && d.snapshotEvents[id] == c.snapshotEvents[id])
             && (d.reference.Some? && d.latestOpen.Some? && d.latestOpen.value in d.inFlight ==>
                   d.latestOpen.value in c.inFlight && d.inFlight[d.latestOpen.value] == c.inFlight[d.latestOpen.value])
    requires forall id: nat, s | Travelling(x, id, s) ::
               Travelling(w, id, s) || (id < x.client.nextRequest && s.cursor == |x.log| && s.review.id in x.genesis
                 && s == SnapshotAt(x, s.review.id, s.cursor))
    ensures Landable(x)
  {
    assert forall e | FromLog(w.log, e, Cursor(w.client)) :: FromLog(x.log, e, Cursor(x.client));
    assert Recent(x.client, x.log);
    forall id: nat, s | Travelling(x, id, s)
      ensures id < x.client.nextRequest && s.review.id in x.genesis && s.cursor <= |x.log|
              && s == SnapshotAt(x, s.review.id, s.cursor)
    {
      if Travelling(w, id, s) {
        assert x.log[..s.cursor] == w.log[..s.cursor];
      }
    }
    if x.client.reference.Some? {
      var r := x.client.reference.value;
      forall id: nat, s | Travelling(x, id, s) && x.client.latestOpen == Some(id)
        ensures Covered(x.log, r.events, r.review, s.cursor, Cursor(x.client))
      {
        if Travelling(w, id, s) {
          CoveredSame(w.log, x.log, r.events, r.review, s.cursor, Cursor(x.client));
        }
      }
    }
  }

  lemma CoveredSame(log: seq<Event>, more: seq<Event>, events: seq<Event>, review: ReviewId, m: nat, last: nat)
    requires Covered(log, events, review, m, last) && last <= |log| <= |more| && more[..|log|] == log
    ensures Covered(more, events, review, m, last)
  {
    forall j: nat | m <= j < last && Mine(more, review, j)
      ensures exists i: nat :: FreshAt(more, events, j, i)
    {
      assert more[j] == log[j] && Mine(log, review, j);
      var i: nat :| FreshAt(log, events, j, i);
      assert FreshAt(more, events, j, i);
    }
  }

  /** Whatever the first recording covers, the second does. */
  ghost predicate StillCovers(log: seq<Event>, a: Recording, b: Recording) {
    && a.review == b.review
    && forall m: nat, last: nat | Covered(log, a.events, a.review, m, last) :: Covered(log, b.events, b.review, m, last)
  }

  lemma {:induction false} DrainRecords(c: State, log: seq<Event>, events: seq<Event>)
    requires Recent(c, log) && Delivered(log, events, Cursor(c))
    ensures var d := ApplyAll(c, events);
            && Recent(d, log) && d.connection == c.connection && d.latestOpen == c.latestOpen
               && d.nextRequest == c.nextRequest
            && (d.reference.Some? <==> c.reference.Some?)
            && (c.reference.Some? ==> StillCovers(log, c.reference.value, d.reference.value))
    decreases |events|
  {
    if events != [] {
      var init, e := events[..|events| - 1], events[|events| - 1];
      DrainRecords(c, log, init);
      var mid := ApplyAll(c, init);
      LiveRecent(mid, log, e);
      LiveRecords(mid, e);
      if c.reference.Some? {
        forall m: nat, last: nat | Covered(log, mid.reference.value.events, mid.reference.value.review, m, last)
          ensures Covered(log, mid.reference.value.events + [e], mid.reference.value.review, m, last)
        {
          CoveredAppend(log, mid.reference.value.events, mid.reference.value.review, m, last, e);
        }
      }
    }
  }

  lemma DrainLandable(w: World)
    requires Landable(w) && w.client.draft
    ensures Landable(UserStep(w, UserCloseDraft))
  {
    var c, x := w.client, UserStep(w, UserCloseDraft);
    DrainRecords(c.(draft := false, deferred := []), w.log, c.deferred);
    assert forall id: nat, s :: Travelling(x, id, s) <==> Travelling(w, id, s);
  }

  lemma OpenReferenceLandable(w: World, review: ReviewId)
    requires Landable(w)
    ensures Landable(UserStep(w, UserOpenReference(review)))
  {
    var x := UserStep(w, UserOpenReference(review));
    assert forall id: nat, s :: Travelling(x, id, s) <==> Travelling(w, id, s);
  }

  lemma OpenLandable(w: World, review: ReviewId)
    requires Landable(w)
    ensures Landable(UserStep(w, UserOpen(review)))
  {
    var x := UserStep(w, UserOpen(review));
    assert forall id: nat, s :: Travelling(x, id, s) <==> Travelling(w, id, s);
  }

  lemma CloseLandable(w: World)
    requires Landable(w)
    ensures Landable(UserStep(w, UserClose))
  {
    var x := UserStep(w, UserClose);
    assert forall id: nat, s :: Travelling(x, id, s) <==> Travelling(w, id, s);
  }

  lemma UserLandable(w: World, step: Step)
    requires Landable(w) && Convergence.Paced(w)
    ensures Landable(UserStep(w, step))
  {
    hide ApplyAll, Overlay, Receive, StandsBy, MutateWith;
    match step
    case UserCloseDraft => if w.client.draft { DrainLandable(w); }
    case UserOpenReference(review) => OpenReferenceLandable(w, review);
    case UserOpen(review) => OpenLandable(w, review);
    case UserClose => CloseLandable(w);
    case _ =>
      UserStands(w, step);
      StoodLandable(w, UserStep(w, step));
  }

  /** The client is where it was, as far as references go, and nothing new travels. */
  ghost predicate StandsBy(w: World, x: World) {
    var c, d := w.client, x.client;
    && x.log == w.log && x.genesis == w.genesis
    && Cursor(d) == Cursor(c) && c.nextRequest <= d.nextRequest && d.deferred == c.deferred
    && (c.connection.LastSeq().Some? ==> d.connection.LastSeq().Some?)
    && (d.reference.None? || (d.reference == c.reference && d.latestOpen == c.latestOpen))
    && (d.latestOpen == c.latestOpen || d.latestOpen.None?)
    && (forall id | id in d.snapshotEvents :: id in c.snapshotEvents && d.snapshotEvents[id] == c.snapshotEvents[id])
    && (d.reference.Some? && d.latestOpen.Some? && d.latestOpen.value in d.inFlight ==>
          d.latestOpen.value in c.inFlight && d.inFlight[d.latestOpen.value] == c.inFlight[d.latestOpen.value])
    && (forall id: nat, s | Travelling(x, id, s) :: Travelling(w, id, s))
  }

  lemma StoodLandable(w: World, x: World)
    requires Landable(w) && StandsBy(w, x) && Cursor(w.client) <= |w.log|
    ensures Landable(x)
  {
    assert x.log[..|w.log|] == w.log;
    StillLandable(w, x);
  }

  lemma UserStands(w: World, step: Step)
    requires Landable(w) && !step.UserCloseDraft? && !step.UserOpenReference? && !step.UserOpen? && !step.UserClose?
    ensures StandsBy(w, UserStep(w, step))
  {
    if step.UserMutate? || step.UserUntracked? || step.Welcome? {
      AskStands(w, step);
    } else {
      PlainStands(w, step);
    }
  }

  lemma AskStands(w: World, step: Step)
    requires Landable(w) && (step.UserMutate? || step.UserUntracked? || step.Welcome?)
    ensures StandsBy(w, UserStep(w, step))
  {
    hide ApplyAll, Overlay, Receive, Truthful, Covering, Genesis, Delivered;
  }

  lemma PlainStands(w: World, step: Step)
    requires !step.UserMutate? && !step.UserUntracked? && !step.Welcome?
    requires !step.UserCloseDraft? && !step.UserOpenReference? && !step.UserOpen? && !step.UserClose?
    ensures StandsBy(w, UserStep(w, step))
  {
    hide ApplyAll, Overlay, Receive, MutateWith;
  }

  lemma DaemonLandable(w: World, step: Step)
    requires Landable(w) && Convergence.Paced(w) && IdsBelow(w)
    ensures Landable(DaemonStep(w, step))
  {
    var x := DaemonStep(w, step);
    DaemonStands(w, step);
    forall id: nat, s | Travelling(x, id, s)
      ensures Travelling(w, id, s) || (id < x.client.nextRequest && s.cursor == |x.log| && s.review.id in x.genesis
              && s == SnapshotAt(x, s.review.id, s.cursor))
    {
      if !Travelling(w, id, s) {
        DaemonSends(w, step, id, s);
      }
    }
    StillLandable(w, x);
  }

  lemma DaemonStands(w: World, step: Step)
    ensures var x := DaemonStep(w, step);
            && x.client == w.client && x.genesis == w.genesis && |w.log| <= |x.log| && x.log[..|w.log|] == w.log
  {
  }

  /** A snapshot that starts travelling is the daemon's own at that moment. */
  lemma DaemonSends(w: World, step: Step, id: nat, s: Snapshot)
    requires Landable(w) && Convergence.Paced(w) && IdsBelow(w) && Travelling(DaemonStep(w, step), id, s)
             && !Travelling(w, id, s)
    ensures var x := DaemonStep(w, step);
            id < x.client.nextRequest && s.cursor == |x.log| && s.review.id in x.genesis
              && s == SnapshotAt(x, s.review.id, s.cursor)
  {
    var x := DaemonStep(w, step);
    if step.DaemonSnapshot? {
      var review := w.requests[step.i].send.review;
      assert w.requests[step.i] in w.requests;
      SnapshotShape(w, review);
    }
  }

  lemma SnapshotShape(w: World, review: ReviewId)
    requires Genesis(w) && review in w.genesis
    ensures SnapshotAt(w, review, |w.log|).cursor == |w.log| && SnapshotAt(w, review, |w.log|).review.id == review
  {
    var g := w.genesis[review];
    FoldCursor(g, w.log[..|w.log|], |w.log|);
    Replay.FoldIsOps(g, w.log[..|w.log|]);
  }

  ghost predicate IdsBelow(w: World) { forall r | r in w.requests :: r.send.id < w.client.nextRequest }

  lemma DeliverLandable(w: World)
    requires Landable(w) && Convergence.Paced(w)
    ensures Landable(DeliverStep(w))
  {
    if w.down != [] {
      var m, c, x := w.down[0], w.client, DeliverStep(w);
      assert m in w.down;
      match m
      case Broadcast(e) => BroadcastLandable(w);
      case CommittedReply(id, e) => CommittedLandable(w);
      case ErrorReply(id, error) =>
        ErrorStands(c, id, error);
        StillLandable(w, x);
      case SubscribedReply(id, n) => SubscribedLandable(w);
      case SnapshotReply(id, s) => SnapshotLandable(w);
    }
  }

  /** An answer that installs and applies nothing. */
  ghost predicate Stands(c: State, d: State) {
    && d.connection == c.connection && d.nextRequest == c.nextRequest && d.deferred == c.deferred
       && d.latestOpen == c.latestOpen
    && (d.reference.None? || d.reference == c.reference)
    && (forall id | id in d.snapshotEvents :: id in c.snapshotEvents && d.snapshotEvents[id] == c.snapshotEvents[id])
    && (forall id | id in d.inFlight :: id in c.inFlight && d.inFlight[id] == c.inFlight[id])
  }

  lemma ErrorStands(c: State, id: nat, error: RpcError)
    ensures Stands(c, OnError(c, id, error))
  {
  }

  lemma StaleStands(c: State, id: nat, e: Event)
    requires !Convergence.Wins(c, id, e)
    ensures Stands(c, OnCommitted(c, id, e))
  {
  }

  lemma WinnerParts(c: State, id: nat, e: Event)
    requires Convergence.Wins(c, id, e)
    ensures OnCommitted(c, id, e) == Answered(ApplyLive(c.(connection := Subscribed(e.seqNo)), e), id)
  {
  }

  lemma BroadcastLandable(w: World)
    requires Landable(w) && Convergence.Paced(w) && w.down != [] && w.down[0].Broadcast?
    ensures Landable(DeliverStep(w))
  {
    hide ApplyEvent, Overlay;
    var c, e, x := w.client, w.down[0].event, DeliverStep(w);
    assert w.down[0] in w.down;
    if TakesEvent(c, e) {
      Convergence.EventConnection(c, e);
      TakenLandable(w, Advanced(c.connection, e.seqNo), x);
    } else {
      StillLandable(w, x);
    }
  }

  lemma CommittedLandable(w: World)
    requires Landable(w) && Convergence.Paced(w) && w.down != [] && w.down[0].CommittedReply?
    ensures Landable(DeliverStep(w))
  {
    hide ApplyEvent, Overlay, ApplyLive, OnCommitted, Recent, Truthful, Covering;
    var c, m, x := w.client, w.down[0], DeliverStep(w);
    if Convergence.Wins(c, m.id, m.event) {
      Convergence.WinnerIsNext(w);
      WinnerParts(c, m.id, m.event);
      LiveRecords(c.(connection := Subscribed(m.event.seqNo)), m.event);
      TakenLandable(w, Subscribed(m.event.seqNo), x);
    } else {
      StaleStands(c, m.id, m.event);
      StillLandable(w, x);
    }
  }

  lemma SubscribedLandable(w: World)
    requires Landable(w) && Convergence.Paced(w) && w.down != [] && w.down[0].SubscribedReply?
    ensures Landable(DeliverStep(w))
  {
    assert w.down[0] in w.down;
    var c, x := w.client, DeliverStep(w);
    var (after, sends) := OnSubscribed(c, w.down[0].id, w.down[0].seqNo);
    if c.connection.LastSeq().Some? || after == c {
      SubscribedKeepsWaits(c, w.down[0].id, w.down[0].seqNo);
      StillLandable(w, x);
    } else {
      FirstSubscription(w, x);
    }
  }

  lemma SubscribedKeepsWaits(c: State, id: nat, n: Seq)
    requires c.latestOpen.Some? ==> c.latestOpen.value < c.nextRequest
    ensures var (d, sends) := OnSubscribed(c, id, n);
            c.latestOpen.Some? && c.latestOpen.value in d.inFlight ==>
              c.latestOpen.value in c.inFlight && d.inFlight[c.latestOpen.value] == c.inFlight[c.latestOpen.value]
  {
    WaitingAbove(c.pending, c.nextRequest);
  }

  lemma {:induction false} WaitingAbove(pending: seq<Pending>, next: nat)
    ensures forall i | 0 <= i < |Resent(pending, next)| :: next <= Resent(pending, next)[i].id
    ensures forall id | id in WaitingFor(Resent(pending, next)) :: next <= id
  {
    if pending != [] {
      WaitingAbove(pending[..|pending| - 1], next);
      var sends := Resent(pending, next);
      if pending[|pending| - 1].delivery.NotAdmitted? {
        assert sends[..|sends| - 1] == Resent(pending[..|pending| - 1], next);
      }
    }
  }

  /** Before the first subscription nothing has been delivered. */
  lemma FirstSubscription(w: World, x: World)
    requires Landable(w) && x.log == w.log && x.genesis == w.genesis && x.owed == w.owed
             && (forall m | m in x.down :: m in w.down)
    requires w.client.connection.LastSeq().None? && Cursor(x.client) <= |w.log|
    requires var c, d := w.client, x.client;
             && c.nextRequest <= d.nextRequest && d.deferred == c.deferred && d.reference == c.reference
                && d.latestOpen == c.latestOpen
             && (forall id | id in d.snapshotEvents ::
                id in c.snapshotEvents && d.snapshotEvents[id] == c.snapshotEvents[id])
    requires w.client.reference.None?
    ensures Landable(x)
  {
    assert forall events | Delivered(w.log, events, 0) :: Delivered(x.log, events, Cursor(x.client));
    forall id: nat, s | Travelling(x, id, s)
      ensures id < x.client.nextRequest && s.review.id in x.genesis && s.cursor <= |x.log|
              && s == SnapshotAt(x, s.review.id, s.cursor)
    {
      assert Travelling(w, id, s);
    }
  }

  lemma SnapshotLandable(w: World)
    requires Landable(w) && Convergence.Paced(w) && w.down != [] && w.down[0].SnapshotReply?
    ensures Landable(DeliverStep(w))
  {
    var c, id, s, x := w.client, w.down[0].id, w.down[0].snapshot, DeliverStep(w);
    if Installs(c, id, s) {
      InstallForgets(c, id, s);
      forall i: nat, t | Travelling(x, i, t)
        ensures i < x.client.nextRequest && t.review.id in x.genesis && t.cursor <= |x.log|
                && t == SnapshotAt(x, t.review.id, t.cursor)
      {
        assert Travelling(w, i, t);
      }
    } else {
      StillLandable(w, x);
    }
  }

  lemma InstallForgets(c: State, id: nat, s: Snapshot)
    requires Installs(c, id, s)
    ensures var d := OnSnapshot(c, id, s);
            && d.reference.None? && d.deferred == [] && d.latestOpen == c.latestOpen && d.nextRequest == c.nextRequest
            && d.connection == c.connection
            && (forall i | i in d.snapshotEvents :: i in c.snapshotEvents && d.snapshotEvents[i] == c.snapshotEvents[i])
  {
    var d := InstallSnapshot(c, id, s);
    assert d.deferred == [] && d.latestOpen == c.latestOpen && d.nextRequest == c.nextRequest
           && d.connection == c.connection;
    assert d.snapshotEvents == c.snapshotEvents - {id};
    LandStands(d);
  }

  lemma LandStands(c: State)
    requires c.deferred == []
    ensures var d := LandReference(c);
            && d.reference.None? && d.deferred == [] && d.latestOpen == c.latestOpen && d.nextRequest == c.nextRequest
            && d.connection == c.connection && d.snapshotEvents == c.snapshotEvents
  {
  }

  lemma {:induction false} RunLandable(w: World, steps: seq<Step>)
    requires Start(w)
    ensures Landable(Run(w, steps))
    decreases |steps|
  {
    if steps != [] {
      var init, step := Run(w, steps[..|steps| - 1]), steps[|steps| - 1];
      RunLandable(w, steps[..|steps| - 1]);
      Convergence.RunKeeps(w, steps[..|steps| - 1]);
      AtMostOnce.RunKeeps(w, steps[..|steps| - 1]);
      if step.Deliver? {
        DeliverLandable(init);
      } else {
        UserLandable(init, step);
        Convergence.UserPaced(init, step);
        AtMostOnce.UserKeeps(init, step);
        DaemonLandable(UserStep(init, step), step);
      }
    }
  }
}
