/**
 What a run can always go on to do: a mutation of a quiet client settles, a dropped connection recovers and
 catches up, and a review opens as the fold of the log.
 */
module Progress {
  import opened Protocol
  import opened Events
  import opened Client
  import opened Session
  import opened Landing
  import opened ReferenceRuns
  import opened Receipts
  import opened Levels
  import opened Openings
  import opened Redelivery
  import opened Settling
  import Replay
  import AtMostOnce
  import Convergence
  import Shown = ShownIsOverlay

  lemma {:induction false} RunConcat(w: World, a: seq<Step>, b: seq<Step>)
    ensures Run(w, a + b) == Run(Run(w, a), b)
    decreases |b|
  {
    hide Next;
    if b == [] {
      assert a + b == a;
    } else {
      var init := b[..|b| - 1];
      assert (a + b)[..|a + b| - 1] == a + init;
      RunConcat(w, a, init);
    }
  }

  // ---- a mutation settles ---------------------------------------------------

  /** The event a mutation of `x` becomes. */
  function Echo(x: World, body: Body, at: Timestamp, author: Author): Event {
    Event(|x.log| + 1, at, author, x.client.me, x.client.nextClientSeq, body)
  }

  /** The copy after the event: gone if it deletes the review. */
  function Landed(committed: Option<Snapshot>, e: Event): Option<Snapshot> {
    if committed.None? || e.body == ReviewDeleted(committed.value.review.id) then None
    else Some(ApplyEvent(committed.value, e))
  }

  lemma RetiresLast(pending: seq<Pending>, p: Pending)
    requires forall q | q in pending :: q.clientSeq != p.clientSeq
    ensures Without(pending + [p], p.clientSeq) == pending
  {
    assert (pending + [p])[..|pending|] == pending;
    Shown.WithoutAll(pending, p.clientSeq);
  }

  /** The client's own event, taken next: its entry goes, its effect lands, and the overlay follows. */
  lemma EchoLands(c: State, issued: map<nat, Body>, before: seq<Pending>, p: Pending, e: Event)
    requires Shown.Coherent(c, issued) && c.committed.Some? && c.pending == before + [p] && p.body == e.body
    requires e.client == c.me && e.clientSeq == p.clientSeq && forall q | q in before :: q.clientSeq != p.clientSeq
    requires e.body.Subject() == Some(c.committed.value.review.id) && !e.body.TargetsResolved?
    ensures var d := ApplyLive(c, e);
            && d.connection == c.connection && d.committed == Landed(c.committed, e)
            && d.pending == (if d.committed.Some? then before else [])
  {
    hide Overlay, ApplyEvent, Without;
    RetiresLast(before, p);
    Shown.OverlayKeepsId(c.committed.value, c.author, c.pending);
  }

  lemma OwnIsLast(x: World)
    requires AtMostOnce.Invariant(x)
    ensures forall q | q in x.client.pending :: q.clientSeq != x.client.nextClientSeq
  {
  }

  /**
   From any quiet point of a run a mutation settles: committed, broadcast and delivered, its effect is in
   the confirmed copy, its entry is gone, every other entry is where it was and the wire is quiet again.
   */
  lemma {:induction false} MutationSettles(w: World, steps: seq<Step>, body: Body, ts: Timestamp, at: Timestamp,
                                           author: Author)
    requires Start(w) && Quiet(Run(w, steps)) && MayMutate(Run(w, steps), body)
    ensures var x := Run(w, steps);
            var y, e := Run(w, steps + Settle(x, body, ts, at, author)), Echo(x, body, at, author);
            && Quiet(y) && y.log == x.log + [e] && y.client.committed == Landed(x.client.committed, e)
            && y.client.pending == (if y.client.committed.Some? then x.client.pending else [])
  {
    hide Run, Fold, ApplyEvent, Shown.Invariant, AtMostOnce.Invariant, Landable, Convergence.Paced, Overlay, ApplyLive;
    hide Next;
    var x := Run(w, steps);
    var e, p := Echo(x, body, at, author), Pending(x.client.nextClientSeq, ts, body, AwaitingReceipt);
    var commit := DaemonCommit(|x.requests|, body, at, author);
    RunFine(w, steps);
    QuietMeansCaughtUp(w, steps);
    MutationShows(w, steps, body, ts);
    RunThen(w, steps, UserMutate(body, ts));
    RunFine(w, steps + [UserMutate(body, ts)]);
    var x1 := Run(w, steps + [UserMutate(body, ts)]);
    AfterMutate(x, body, ts);
    RunThen(w, steps + [UserMutate(body, ts)], commit);
    var x2 := Run(w, steps + [UserMutate(body, ts)] + [commit]);
    CommitStep(x, x1, body, at, author);
    RunThen(w, steps + [UserMutate(body, ts)] + [commit], DaemonBroadcast);
    var x3 := Run(w, steps + [UserMutate(body, ts)] + [commit] + [DaemonBroadcast]);
    BroadcastStep(x2, e);
    RunThen(w, steps + [UserMutate(body, ts)] + [commit] + [DaemonBroadcast], Deliver);
    assert steps + Settle(x, body, ts, at, author)
           == steps + [UserMutate(body, ts)] + [commit] + [DaemonBroadcast] + [Deliver];
    OwnIsLast(x);
    var moved := x1.client.(connection := Subscribed(|x.log| + 1));
    CoherentMoved(x1, moved);
    EchoLands(moved, x1.issued, x.client.pending, p, e);
    DeliverEcho(x3, e);
  }

  lemma CoherentMoved(x: World, moved: State)
    requires Shown.Invariant(x) && moved == x.client.(connection := moved.connection)
    ensures Shown.Coherent(moved, x.issued) && (moved.committed.Some? <==> moved.shown.Some?)
    ensures moved.committed.Some? ==> moved.shown.value.review.id == moved.committed.value.review.id
  {
    if moved.committed.Some? {
      Shown.OverlayKeepsId(moved.committed.value, moved.author, moved.pending);
    }
  }

  lemma AfterMutate(x: World, body: Body, ts: Timestamp)
    requires MayMutate(x, body)
    ensures var y := Next(x, UserMutate(body, ts));
            && y.log == x.log && y.down == x.down && y.sent == x.sent && y.tail == x.tail && y.owed == x.owed
            && y.client.me == x.client.me && y.client.connection == x.client.connection
  {
    hide Overlay;
  }

  lemma CommitStep(x: World, x1: World, body: Body, at: Timestamp, author: Author)
    requires x1.requests == x.requests + [Outstanding(SendMutate(x.client.nextRequest, x.client.nextClientSeq, body),
             true)]
    requires x1.log == x.log && x1.client.me == x.client.me
    ensures var y := Next(x1, DaemonCommit(|x.requests|, body, at, author));
            && y.log == x.log + [Echo(x, body, at, author)] && y.client == x1.client && y.down == x1.down
            && y.sent == x1.sent && y.tail == x1.tail
  {
  }

  lemma BroadcastStep(x: World, e: Event)
    requires x.tail == Tailing && x.down == [] && x.sent < |x.log| && x.log[x.sent] == e
    ensures var y := Next(x, DaemonBroadcast);
            y == x.(down := [Broadcast(e)], sent := x.sent + 1)
  {
  }

  lemma DeliverEcho(x: World, e: Event)
    requires x.down == [Broadcast(e)] && x.client.connection.Subscribed? && e.seqNo == x.client.connection.seqNo + 1
    ensures var y := Next(x, Deliver);
            && y.client == ApplyLive(x.client.(connection := Subscribed(e.seqNo)), e) && y.down == [] && y.log == x.log
            && y.sent == x.sent && y.tail == x.tail
  {
    hide ApplyLive;
  }

  // ---- a dropped connection recovers ----------------------------------------

  /** `n` missed events, each broadcast and delivered. */
  function Replayed(n: nat): seq<Step> { if n == 0 then [] else Replayed(n - 1) + [DaemonBroadcast] + [Deliver] }

  function Greeting(i: nat): seq<Step> { [Drop] + [UserConnect] + [TransportUp] + [Welcome] + [DaemonSubscribe(i)] }

  /** The connection drops and comes back, `i` requests from before being lost. */
  function Reconnecting(i: nat, n: nat): seq<Step> { Greeting(i) + Replayed(n) + [DaemonFinishReplay] + [Deliver] }

  /** The daemon has replayed up to position `k`, and the client has taken all of it. */
  predicate Replays(z: World, id: nat, k: nat, log: seq<Event>) {
    && z.log == log && k <= |log| && z.tail == Replaying(id) && z.sent == k && z.down == []
    && z.client.connection.Connecting? && z.client.connection.helloSent
    && (z.client.connection.last == Some(k) || (z.client.connection.last.None? && k == |log|))
    && id in z.client.inFlight && z.client.inFlight[id].WaitSubscribe?
  }

  lemma ReplayOne(z: World, id: nat, k: nat, log: seq<Event>)
    requires Replays(z, id, k, log) && k < |log| && Numbered(log)
    ensures Replays(Next(Next(z, DaemonBroadcast), Deliver), id, k + 1, log)
  {
    hide ApplyLive;
    var c, e := z.client, log[k];
    var y := Next(z, DaemonBroadcast);
    assert y == z.(down := [Broadcast(e)], sent := k + 1);
    LiveRecords(c.(connection := Advanced(c.connection, e.seqNo)), e);
  }

  lemma {:induction false} ReplayAll(z: World, id: nat, k: nat, n: nat, log: seq<Event>)
    requires Replays(z, id, k, log) && k + n <= |log| && Numbered(log)
    ensures Replays(Run(z, Replayed(n)), id, k + n, log)
    decreases n
  {
    hide Next, Replays;
    if n == 0 {
      assert Run(z, []) == z;
    } else {
      ReplayAll(z, id, k, n - 1, log);
      var y := Run(z, Replayed(n - 1));
      ReplayBound(y, id, k + n - 1, log);
      ReplayOne(y, id, k + n - 1, log);
      RunThen(z, Replayed(n - 1), DaemonBroadcast);
      RunThen(z, Replayed(n - 1) + [DaemonBroadcast], Deliver);
    }
  }

  lemma ReplayBound(z: World, id: nat, k: nat, log: seq<Event>)
    requires Replays(z, id, k, log)
    ensures k <= |log|
  {
  }

  lemma DropStep(x: World)
    ensures var y := Next(x, Drop);
            && y.log == x.log && y.down == [] && y.tail == Closed && |y.requests| == |x.requests|
            && y.client.connection == Disconnected(x.client.connection.LastSeq())
               && y.client.nextRequest == x.client.nextRequest
  {
  }

  lemma LinkStep(x: World)
    requires x.client.connection.Disconnected?
    ensures var y := Next(Next(x, UserConnect), TransportUp);
            y == x.(client := x.client.(connection := Connecting(true, x.client.connection.last)))
  {
  }

  lemma WelcomeStep(x: World)
    requires x.client.connection.Connecting? && x.client.connection.helloSent && x.tail == Closed
    ensures var y := Next(x, Welcome);
            && y.client.connection == x.client.connection && y.log == x.log && y.down == x.down && y.tail == Greeted
            && x.client.nextRequest in y.client.inFlight && y.client.inFlight[x.client.nextRequest].WaitSubscribe?
            && y.requests == x.requests + [Outstanding(SendSubscribe(x.client.nextRequest, x.client.connection.last),
               true)]
  {
  }

  lemma SubscribeStep(x: World, i: nat, id: nat)
    requires x.tail == Greeted && i < |x.requests|
             && x.requests[i] == Outstanding(SendSubscribe(id, x.client.connection.LastSeq()), true)
    ensures var y := Next(x, DaemonSubscribe(i));
            && y.client == x.client && y.log == x.log && y.down == x.down && y.tail == Replaying(id)
            && y.sent == (if x.client.connection.LastSeq().Some? then x.client.connection.LastSeq().value else |x.log|)
  {
  }

  /** Greeted again, the daemon is about to replay from the cursor. */
  lemma GreetingReplays(x: World)
    requires Convergence.Paced(x)
    ensures var z := Run(x, Greeting(|x.requests|));
            Replays(z, x.client.nextRequest, |x.log| - Missed(x), x.log)
  {
    hide Run, Next, Convergence.Paced;
    var x0 := Next(x, Drop);
    DropStep(x);
    LinkStep(x0);
    var x2 := Next(Next(x0, UserConnect), TransportUp);
    WelcomeStep(x2);
    var x3 := Next(x2, Welcome);
    var id := x2.client.nextRequest;
    SubscribeStep(x3, |x.requests|, id);
    CursorInLog(x);
    RunNone(x);
    RunThen(x, [], Drop);
    RunThen(x, [Drop], UserConnect);
    RunThen(x, [Drop] + [UserConnect], TransportUp);
    RunThen(x, [Drop] + [UserConnect] + [TransportUp], Welcome);
    RunThen(x, [Drop] + [UserConnect] + [TransportUp] + [Welcome], DaemonSubscribe(|x.requests|));
    assert [] + [Drop] == [Drop];
    assert Replays(Run(x, Greeting(|x.requests|)), id, |x.log| - Missed(x), x.log);
  }

  lemma RunNone(x: World)
    ensures Run(x, []) == x
  {
  }

  lemma CursorInLog(x: World)
    requires Convergence.Paced(x)
    ensures x.client.connection.LastSeq().Some? ==> x.client.connection.LastSeq().value <= |x.log|
    ensures Numbered(x.log)
  {
  }

  /** How many events the client has not seen; before its first subscription it wants none replayed. */
  function Missed(x: World): (n: nat)
    requires x.client.connection.LastSeq().Some? ==> x.client.connection.LastSeq().value <= |x.log|
    ensures n <= |x.log|
  {
    if x.client.connection.LastSeq().Some? then |x.log| - x.client.connection.LastSeq().value else 0
  }

  lemma FinishStep(z: World, id: nat)
    requires Replays(z, id, |z.log|, z.log)
    ensures var y := Next(Next(z, DaemonFinishReplay), Deliver);
            && Quiet(y) && y.log == z.log && forall p | p in y.client.pending :: !p.delivery.NotAdmitted?
  {
    hide Resent, WaitingFor;
    assert Next(z, DaemonFinishReplay) == z.(down := [SubscribedReply(id, |z.log|)], tail := Tailing);
    forall p | p in Readmitted(z.client.pending)
      ensures !p.delivery.NotAdmitted?
    {
      var i :| 0 <= i < |z.client.pending| && Readmitted(z.client.pending)[i] == p;
    }
  }

  /**
   From any point of any run, a dropped connection can be restored: after the missed events were replayed
   the client is subscribed at the end of the log, and no refused entry waits any longer.
   */
  lemma {:induction false} DropIsRecovered(w: World, steps: seq<Step>)
    requires Start(w)
    ensures var x := Run(w, steps);
            && (x.client.connection.LastSeq().Some? ==> x.client.connection.LastSeq().value <= |x.log|)
            && var y := Run(w, steps + Reconnecting(|x.requests|, Missed(x)));
               && Quiet(y) && y.log == x.log && y.client.connection == Subscribed(|x.log|)
               && forall p | p in y.client.pending :: !p.delivery.NotAdmitted?
  {
    hide Run, Next, Convergence.Paced, Shown.Invariant, AtMostOnce.Invariant, Landable, Quiet, Uncommitted, Replays;
    var x := Run(w, steps);
    RunFine(w, steps);
    CursorInLog(x);
    var i, n := |x.requests|, Missed(x);
    GreetingReplays(x);
    var z := Run(x, Greeting(i));
    var id := x.client.nextRequest;
    ReplayAll(z, id, |x.log| - n, n, x.log);
    RunConcat(x, Greeting(i), Replayed(n));
    var z1 := Run(x, Greeting(i) + Replayed(n));
    ReplayLog(z1, id, |x.log|, x.log);
    FinishStep(z1, id);
    RunThen(x, Greeting(i) + Replayed(n), DaemonFinishReplay);
    RunThen(x, Greeting(i) + Replayed(n) + [DaemonFinishReplay], Deliver);
    RunConcat(w, steps, Reconnecting(i, n));
    QuietMeansCaughtUp(w, steps + Reconnecting(i, n));
  }

  lemma ReplayLog(z: World, id: nat, k: nat, log: seq<Event>)
    requires Replays(z, id, k, log)
    ensures z.log == log
  {
  }

  // ---- a review opens -------------------------------------------------------

  function OpenStep(review: ReviewId, reference: bool): Step {
    if reference then UserOpenReference(review) else UserOpen(review)
  }

  /** Asked for, read off the log and answered. */
  function Asking(x: World, review: ReviewId, reference: bool): seq<Step> {
    [OpenStep(review, reference)] + [DaemonSnapshot(|x.requests|)] + [DaemonReply(|x.owed|)]
  }

  lemma AskStep(x: World, review: ReviewId, reference: bool)
    requires x.client.connection.Subscribed?
    ensures var y, id := Next(x, OpenStep(review, reference)), x.client.nextRequest;
            && y.log == x.log && y.genesis == x.genesis && y.down == x.down && y.owed == x.owed
            && y.client.connection == x.client.connection && y.client.latestOpen == Some(id)
            && id in y.client.inFlight && y.client.inFlight[id] == WaitSnapshot(review)
            && y.client.reference == (if reference then Some(Recording(review, [])) else None)
            && y.requests == x.requests + [Outstanding(SendOpen(id, review), true)]
  {
  }

  lemma SnapStep(x: World, i: nat, id: nat, review: ReviewId)
    requires i < |x.requests| && x.requests[i] == Outstanding(SendOpen(id, review), true) && review in x.genesis
    ensures var y := Next(x, DaemonSnapshot(i));
            && y.log == x.log && y.genesis == x.genesis && y.down == x.down && y.client == x.client
            && y.owed == x.owed + [OwedSnapshot(id, SnapshotAt(x, review, |x.log|))]
  {
    hide SnapshotAt;
  }

  lemma ReplyStep(x: World, j: nat, id: nat, s: Snapshot)
    requires j < |x.owed| && x.owed[j] == OwedSnapshot(id, s) && x.down == []
    ensures var y := Next(x, DaemonReply(j));
            y.log == x.log && y.genesis == x.genesis && y.client == x.client && y.down == [SnapshotReply(id, s)]
  {
  }

  lemma AskingArrives(w: World, steps: seq<Step>, review: ReviewId, reference: bool)
    requires Start(w) && Run(w, steps).client.connection.Subscribed? && Run(w, steps).down == []
             && review in Run(w, steps).genesis
    ensures var x := Run(w, steps);
            var y := Run(w, steps + Asking(x, review, reference));
            && y.log == x.log && y.genesis == x.genesis && Arriving(y) && y.client.connection == x.client.connection
            && y.client.reference == (if reference then Some(Recording(review, [])) else None)
            && y.down[0].snapshot == SnapshotAt(x, review, |x.log|)
            && y.down[0].snapshot.cursor == |x.log| && y.down[0].snapshot.review.id == review
  {
    hide Run, Next, SnapshotAt, Shown.Invariant, AtMostOnce.Invariant, Convergence.Paced, Recent, Truthful, Covering;
    var x := Run(w, steps);
    RunFine(w, steps);
    var id, open := x.client.nextRequest, OpenStep(review, reference);
    AskStep(x, review, reference);
    var x1 := Next(x, open);
    SnapStep(x1, |x.requests|, id, review);
    SameSnapshot(x, x1, review);
    SnapshotShape(x, review);
    var x2 := Next(x1, DaemonSnapshot(|x.requests|));
    ReplyStep(x2, |x.owed|, id, SnapshotAt(x, review, |x.log|));
    RunThen(w, steps, open);
    RunThen(w, steps + [open], DaemonSnapshot(|x.requests|));
    RunThen(w, steps + [open] + [DaemonSnapshot(|x.requests|)], DaemonReply(|x.owed|));
    assert steps + Asking(x, review, reference)
           == steps + [open] + [DaemonSnapshot(|x.requests|)] + [DaemonReply(|x.owed|)];
  }

  lemma SameSnapshot(x: World, y: World, review: ReviewId)
    requires y.log == x.log && y.genesis == x.genesis && review in x.genesis
    ensures SnapshotAt(y, review, |y.log|) == SnapshotAt(x, review, |x.log|)
  {
  }

  /** The log's fold for a review, whatever the cursor says. */
  ghost predicate IsFold(x: World, review: ReviewId, s: Snapshot)
    requires review in x.genesis
  {
    s == Fold(x.genesis[review].(cursor := s.cursor), x.log)
  }

  /**
   From any point of a run without previews, whatever is open, the client can open a review, as a reference
   or not, and then holds the fold of the whole log for it.
   */
  lemma {:induction false} ReviewOpens(w: World, steps: seq<Step>, review: ReviewId, reference: bool)
    requires Start(w) && NoPreviews(steps)
    requires Run(w, steps).client.connection.Subscribed? && Run(w, steps).down == [] && review in Run(w, steps).genesis
    ensures var x := Run(w, steps);
            var y := Run(w, steps + Asking(x, review, reference) + [Deliver]);
            && y.log == x.log && y.genesis == x.genesis && y.client.committed.Some?
               && IsFold(x, review, y.client.committed.value)
  {
    hide Run, Fold, SnapshotAt, Overshoots, FreshRun, OnSnapshot, Shown.Invariant, AtMostOnce.Invariant, Landable;
    hide Rebased, NoPreviews;
    var x := Run(w, steps);
    var more := steps + Asking(x, review, reference);
    AskingArrives(w, steps, review, reference);
    AskingQuiet(x, steps, review, reference);
    RunThen(w, more, Deliver);
    RunFine(w, more);
    var y := Run(w, more);
    assert x.log[..|x.log|] == x.log;
    NoPreviewsNoOvershoot(w, more);
    if reference {
      ReferenceLands(w, more);
    } else {
      OpenStartsConvergence(w, more);
      FoldCursor(x.genesis[review], x.log, |x.log|);
    }
  }

  lemma AskingQuiet(x: World, steps: seq<Step>, review: ReviewId, reference: bool)
    requires NoPreviews(steps)
    ensures NoPreviews(steps + Asking(x, review, reference))
  {
  }
}
