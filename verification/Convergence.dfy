/**
 The confirmed snapshot converges to the fold of the log up to the cursor, in every run of broadcasts,
 mutation responses, disconnects and gap replays that follows an install.
 */
module Convergence {
  import opened Protocol
  import opened Events
  import opened Client
  import opened Session
  import Replay
  import Shown = ShownIsOverlay

  // ---- the cursor and the wire ----------------------------------------------

  function Broadcasts(down: seq<Msg>): nat {
    if down == [] then 0 else (if down[0].Broadcast? then 1 else 0) + Broadcasts(down[1..])
  }

  /** The messages on the wire, read from log position p: broadcasts in order, replies never ahead of them. */
  predicate Flow(log: seq<Event>, down: seq<Msg>, p: nat) {
    down == [] ||
    match down[0]
    case Broadcast(e) => p < |log| && e == log[p] && Flow(log, down[1..], p + 1)
    case CommittedReply(_, e) => 1 <= e.seqNo <= p + 1 && e.seqNo <= |log| && e == log[e.seqNo - 1]
        && Flow(log, down[1..], p)
    case SubscribedReply(_, n) => n == p && Flow(log, down[1..], p)
    case _ => Flow(log, down[1..], p)
  }

  predicate Flowing(w: World) { w.tail.Replaying? || w.tail.Tailing? }

  /** The log position the next broadcast on the wire carries. */
  function Position(w: World): int { w.sent - Broadcasts(w.down) }

  ghost predicate Paced(w: World) {
    var last := w.client.connection.LastSeq();
    && (forall k | 0 <= k < |w.log| :: w.log[k].seqNo == k + 1)
    && w.sent <= |w.log|
    && (last.Some? ==> last.value <= |w.log|)
    && (!Flowing(w) ==> forall m | m in w.down :: m.ErrorReply? || m.SnapshotReply?)
    && (w.tail != Closed ==>
       !w.client.connection.Disconnected?
       && (w.client.connection.Connecting? ==> w.client.connection.helloSent))
    && (w.tail == Greeted ==> w.client.connection.Connecting?)
    && (forall r | r in w.requests && w.tail == Greeted && r.replyable && r.send.SendSubscribe? :: r.send.after == last)
    && (w.tail == Closed ==> forall r | r in w.requests && r.send.SendSubscribe? :: !r.replyable)
    && (Flowing(w) ==>
          && 0 <= Position(w) && Flow(w.log, w.down, Position(w))
          && (last.Some? ==> Position(w) <= last.value <= Position(w) + 1))
  }

  lemma {:induction false} FlowAppend(log: seq<Event>, down: seq<Msg>, p: nat, m: Msg)
    requires Flow(log, down, p) && Flow(log, [m], p + Broadcasts(down))
    ensures Flow(log, down + [m], p)
    ensures Broadcasts(down + [m]) == Broadcasts(down) + if m.Broadcast? then 1 else 0
    decreases |down|
  {
    if down == [] {
      assert down + [m] == [m];
      assert [m][1..] == [];
    } else {
      assert (down + [m])[1..] == down[1..] + [m];
      FlowAppend(log, down[1..], if down[0].Broadcast? then p + 1 else p, m);
    }
  }

  lemma {:induction false} FlowGrows(log: seq<Event>, down: seq<Msg>, p: nat, e: Event)
    requires Flow(log, down, p)
    ensures Flow(log + [e], down, p)
    decreases |down|
  {
    if down != [] {
      FlowGrows(log, down[1..], if down[0].Broadcast? then p + 1 else p, e);
    }
  }

  lemma {:induction false} NoBroadcasts(log: seq<Event>, down: seq<Msg>, p: nat)
    requires forall m | m in down :: m.ErrorReply? || m.SnapshotReply?
    ensures Broadcasts(down) == 0 && Flow(log, down, p)
    decreases |down|
  {
    if down != [] {
      assert down[0] in down;
      NoBroadcasts(log, down[1..], p);
    }
  }

  // ---- what the client does to its cursor -----------------------------------

  lemma ApplyLiveConnection(c: State, e: Event)
    ensures ApplyLive(c, e).connection == c.connection
  {
    assert Noted(c, e).connection == c.connection;
  }

  lemma {:induction false} ApplyAllConnection(c: State, events: seq<Event>)
    ensures ApplyAll(c, events).connection == c.connection
  {
    if events != [] {
      ApplyAllConnection(c, events[..|events| - 1]);
      ApplyLiveConnection(ApplyAll(c, events[..|events| - 1]), events[|events| - 1]);
    }
  }

  lemma EventConnection(c: State, e: Event)
    ensures OnEvent(c, e).connection == if TakesEvent(c, e) then Advanced(c.connection, e.seqNo) else c.connection
  {
    if TakesEvent(c, e) {
      ApplyLiveConnection(c.(connection := Advanced(c.connection, e.seqNo)), e);
    }
  }

  /** Whether a `Committed` response is the first to carry its event. */
  predicate Wins(c: State, id: nat, e: Event) {
    id in c.inFlight && c.inFlight[id].WaitMutate? && c.connection.Subscribed? && c.connection.seqNo < e.seqNo
  }

  lemma CommittedConnection(c: State, id: nat, e: Event)
    ensures OnCommitted(c, id, e).connection == if Wins(c, id, e) then Subscribed(e.seqNo) else c.connection
  {
    if Wins(c, id, e) {
      ApplyLiveConnection(c.(connection := Subscribed(e.seqNo)), e);
    }
  }

  predicate NoEarlier(a: Connection, b: Connection) {
    a.LastSeq().Some? ==> b.LastSeq().Some? && a.LastSeq().value <= b.LastSeq().value
  }

  // ---- steps keep pace ------------------------------------------------------

  lemma UserPaced(w: World, step: Step)
    requires Paced(w)
    ensures Paced(UserStep(w, step)) && NoEarlier(w.client.connection, UserStep(w, step).client.connection)
  {
    hide UserStep;
    if step.Drop? {
      DropPaced(w);
    } else if step.UserConnect? || step.TransportUp? {
      LinkPaced(w, step);
    } else if step.Welcome? {
      WelcomePaced(w);
    } else {
      PlainPaced(w, step);
    }
  }

  lemma DropPaced(w: World)
    requires Paced(w)
    ensures Paced(UserStep(w, Drop)) && NoEarlier(w.client.connection, UserStep(w, Drop).client.connection)
  {
    var x := UserStep(w, Drop);
    forall r | r in x.requests
      ensures !r.replyable
    {
      var i :| 0 <= i < |w.requests| && r == Silenced(w.requests)[i];
    }
  }

  lemma LinkPaced(w: World, step: Step)
    requires Paced(w) && (step.UserConnect? || step.TransportUp?)
    ensures Paced(UserStep(w, step)) && NoEarlier(w.client.connection, UserStep(w, step).client.connection)
  {
  }

  /** The connection and the subscribe requests stay as they are. */
  lemma PlainPaced(w: World, step: Step)
    requires Paced(w) && !step.Drop? && !step.UserConnect? && !step.TransportUp? && !step.Welcome?
    ensures Paced(UserStep(w, step)) && NoEarlier(w.client.connection, UserStep(w, step).client.connection)
  {
    hide ApplyAll, Overlay, Receive;
    var x, c := UserStep(w, step), w.client;
    if step.UserCloseDraft? {
      ApplyAllConnection(c.(draft := false, deferred := []), c.deferred);
    }
    assert x.client.connection == c.connection;
    assert forall r | r in x.requests && r.send.SendSubscribe? :: r in w.requests;
  }

  lemma WelcomePaced(w: World)
    requires Paced(w)
    ensures Paced(UserStep(w, Welcome)) && NoEarlier(w.client.connection, UserStep(w, Welcome).client.connection)
  {
    var x := UserStep(w, Welcome);
    assert x.client.connection == w.client.connection;
    if x != w {
      forall r | r in x.requests && r.replyable && r.send.SendSubscribe?
        ensures r.send.after == w.client.connection.LastSeq()
      {
      }
    }
  }

  lemma LogPaced(w: World, step: Step)
    requires Paced(w) && (step.DaemonCommit? || step.DaemonForeign?)
    ensures Paced(DaemonStep(w, step))
  {
    var x := DaemonStep(w, step);
    if x != w {
      assert x.log == w.log + [x.log[|w.log|]];
      if Flowing(w) {
        FlowGrows(w.log, w.down, Position(w), x.log[|w.log|]);
      }
    }
  }

  lemma PushPaced(w: World, m: Msg, sent: nat, tail: Tail, owed: seq<Owed>, requests: seq<Outstanding>)
    requires Paced(w) && sent == w.sent + (if m.Broadcast? then 1 else 0) && sent <= |w.log|
    requires forall r | r in requests && r.replyable && r.send.SendSubscribe? :: r in w.requests
    requires m.ErrorReply? || m.SnapshotReply? || (Flowing(w) && Flow(w.log, [m], w.sent))
    requires tail == w.tail || (w.tail.Replaying? && tail.Tailing?)
    ensures Paced(w.(down := w.down + [m], sent := sent, tail := tail, owed := owed, requests := requests))
  {
    if Flowing(w) {
      assert m.ErrorReply? || m.SnapshotReply? ==> Flow(w.log, [m], w.sent) by { assert [m][1..] == []; }
      FlowAppend(w.log, w.down, Position(w), m);
    }
  }

  lemma DaemonPaced(w: World, step: Step)
    requires Paced(w)
    ensures Paced(DaemonStep(w, step))
  {
    match step
    case DaemonCommit(_, _, _, _) => LogPaced(w, step);
    case DaemonForeign(_, _, _, _, _) => LogPaced(w, step);
    case DaemonAnswer(i, error, withdrawn) =>
      if i < |w.requests| {
        var rest := if withdrawn then Removed(w.requests, i) else w.requests[i := w.requests[i].(replyable := false)];
        PushPaced(w, ErrorReply(w.requests[i].send.id, error), w.sent, w.tail, w.owed, rest);
      }
    case DaemonSubscribe(i) => SubscribePaced(w, i);
    case DaemonBroadcast =>
      if Flowing(w) && w.sent < |w.log| {
        var m := Broadcast(w.log[w.sent]);
        assert [m][1..] == [];
        PushPaced(w, m, w.sent + 1, w.tail, w.owed, w.requests);
      }
    case DaemonFinishReplay =>
      if w.tail.Replaying? {
        var m := SubscribedReply(w.tail.id, w.sent);
        assert [m][1..] == [];
        PushPaced(w, m, w.sent, Tailing, w.owed, w.requests);
      }
    case DaemonSnapshot(i) =>
    case DaemonReply(j) => ReplyPaced(w, j);
    case _ =>
  }

  lemma SubscribePaced(w: World, i: nat)
    requires Paced(w)
    ensures Paced(DaemonStep(w, DaemonSubscribe(i)))
  {
    if i < |w.requests| && w.requests[i].replyable && w.requests[i].send.SendSubscribe? && w.tail == Greeted {
      assert w.requests[i] in w.requests;
      var x := DaemonStep(w, DaemonSubscribe(i));
      NoBroadcasts(w.log, w.down, x.sent);
    }
  }

  lemma ReplyPaced(w: World, j: nat)
    requires Paced(w)
    ensures Paced(DaemonStep(w, DaemonReply(j)))
  {
    if j < |w.owed| {
      match w.owed[j]
      case OwedCommit(id, n) =>
        if Flowing(w) && n <= w.sent + 1 && 1 <= n <= |w.log| {
          var m := CommittedReply(id, w.log[n - 1]);
          assert [m][1..] == [];
          PushPaced(w, m, w.sent, w.tail, Removed(w.owed, j), w.requests);
        }
      case OwedSnapshot(id, s) => PushPaced(w, SnapshotReply(id, s), w.sent, w.tail, Removed(w.owed, j), w.requests);
    }
  }

  /** The head is consumed and the cursor moved to `conn`; the rest of the world stands still. */
  lemma ConsumedPaced(w: World, x: World)
    requires Paced(w) && w.down != [] && x.down == w.down[1..] && x.log == w.log && x.sent == w.sent && x.tail == w.tail
    requires forall r | r in x.requests && r.send.SendSubscribe? :: r in w.requests
    requires NoEarlier(w.client.connection, x.client.connection)
    requires x.client.connection == w.client.connection || (Flowing(w) && x.client.connection.Subscribed?) ||
             (Flowing(w) && x.client.connection.Connecting? && x.client.connection.helloSent)
    requires var last := x.client.connection.LastSeq();
             last.Some? && Flowing(w) ==>
               var p := Position(w) + if w.down[0].Broadcast? then 1 else 0;
                   p <= last.value <= p + 1 && last.value <= |w.log|
    ensures Paced(x)
  {
    if Flowing(w) {
      assert Position(x) == Position(w) + if w.down[0].Broadcast? then 1 else 0;
    } else {
      assert w.down[0] in w.down;
    }
  }

  lemma DeliverPaced(w: World)
    requires Paced(w)
    ensures Paced(DeliverStep(w)) && NoEarlier(w.client.connection, DeliverStep(w).client.connection)
  {
    if w.down != [] {
      var m, c := w.down[0], w.client;
      assert m in w.down;
      match m
      case Broadcast(e) => BroadcastPaced(w);
      case CommittedReply(id, e) => CommittedPaced(w);
      case ErrorReply(id, error) => ConsumedPaced(w, DeliverStep(w));
      case SnapshotReply(id, s) =>
        SnapshotConnection(c, id, s);
        ConsumedPaced(w, DeliverStep(w));
      case SubscribedReply(id, n) => SubscribedPaced(w);
    }
  }

  lemma SnapshotConnection(c: State, id: nat, s: Snapshot)
    ensures OnSnapshot(c, id, s).connection == c.connection
  {
  }

  lemma BroadcastPaced(w: World)
    requires Paced(w) && w.down != [] && w.down[0].Broadcast?
    ensures Paced(DeliverStep(w)) && NoEarlier(w.client.connection, DeliverStep(w).client.connection)
  {
    assert w.down[0] in w.down;
    EventConnection(w.client, w.down[0].event);
    ConsumedPaced(w, DeliverStep(w));
  }

  lemma CommittedPaced(w: World)
    requires Paced(w) && w.down != [] && w.down[0].CommittedReply?
    ensures Paced(DeliverStep(w)) && NoEarlier(w.client.connection, DeliverStep(w).client.connection)
  {
    assert w.down[0] in w.down;
    CommittedConnection(w.client, w.down[0].id, w.down[0].event);
    ConsumedPaced(w, DeliverStep(w));
  }

  lemma SubscribedPaced(w: World)
    requires Paced(w) && w.down != [] && w.down[0].SubscribedReply?
    ensures Paced(DeliverStep(w)) && NoEarlier(w.client.connection, DeliverStep(w).client.connection)
  {
    assert w.down[0] in w.down;
    SubscribedSends(w.client, w.down[0].id, w.down[0].seqNo);
    ConsumedPaced(w, DeliverStep(w));
  }

  lemma SubscribedSends(c: State, id: nat, n: Seq)
    ensures var (after, sends) := OnSubscribed(c, id, n); forall r | r in AsRequests(sends) :: r.send.SendMutate?
  {
    var (after, sends) := OnSubscribed(c, id, n);
    Shown.ResentFromPending(c.pending, c.nextRequest);
    forall r | r in AsRequests(sends)
      ensures r.send in sends
    {
    }
  }

  // ---- committed follows the log --------------------------------------------

  ghost predicate Based(w: World) {
    w.basis.Some? ==>
      var b, last, c := w.basis.value, w.client.connection.LastSeq(), w.client;
      && c.committed.Some? && last.Some? && b.start <= last.value <= |w.log| && b.start <= b.upto <= |w.log|
      && b.base.review.id == c.committed.value.review.id
      && Fold(c.committed.value, c.deferred) == Fold(Fold(b.base, w.log[..b.upto]), w.log[b.start..last.value])
  }

  lemma Unrelated(s: Snapshot, e: Event)
    requires e.body.Subject() != Some(s.review.id)
    ensures ApplyEvent(s, e) == s
  {
  }

  /** How a live event enters: held back, or folded into the confirmed snapshot. */
  lemma LiveEnters(c: State, issued: map<nat, Body>, e: Event)
    requires Shown.Coherent(c, issued) && c.committed.Some? && e.body.Subject() == Some(c.committed.value.review.id)
    ensures var d := ApplyLive(c, e);
            d.committed.Some? ==>
              if e.body.TargetsResolved? && c.draft then d.committed == c.committed && d.deferred == c.deferred + [e]
              else d.committed == Some(ApplyEvent(c.committed.value, e)) && d.deferred == c.deferred
  {
    hide ApplyEvent, Overlay;
    Shown.OverlayKeepsId(c.committed.value, c.author, c.pending);
  }

  lemma LivePasses(c: State, issued: map<nat, Body>, e: Event)
    requires Shown.Coherent(c, issued) && c.committed.Some? && e.body.Subject() != Some(c.committed.value.review.id)
    ensures ApplyLive(c, e).committed == c.committed && ApplyLive(c, e).deferred == c.deferred
  {
    hide ApplyEvent, Overlay;
    Shown.OverlayKeepsId(c.committed.value, c.author, c.pending);
  }

  /** Folding the held-back refreshes in, a live event moves the state by exactly that event. */
  lemma {:induction false} LiveAdvances(c: State, issued: map<nat, Body>, e: Event)
    requires Shown.Coherent(c, issued) && c.committed.Some?
    ensures var d := ApplyLive(c, e);
            d.committed.Some? ==>
              Fold(d.committed.value, d.deferred)
              == ApplyEvent(Fold(c.committed.value, c.deferred), e)
  {
    hide ApplyEvent, ApplyLive;
    var s := c.committed.value;
    if e.body.Subject() != Some(s.review.id) {
      LivePasses(c, issued, e);
      Replay.FoldIsOps(s, c.deferred);
      Unrelated(Fold(s, c.deferred), e);
    } else {
      LiveEnters(c, issued, e);
      if e.body.TargetsResolved? && c.draft {
        FoldSnoc(s, c.deferred, e);
      } else if e.body.TargetsResolved? {
        assert c.deferred == [];
      } else {
        Replay.RefreshesWait(s, e, c.deferred);
      }
    }
  }

  lemma FoldSnoc(s: Snapshot, events: seq<Event>, e: Event)
    ensures Fold(s, events + [e]) == ApplyEvent(Fold(s, events), e)
  {
    hide ApplyEvent;
    assert (events + [e])[..|events|] == events;
  }

  /** Closing the draft folds the held-back refreshes into the confirmed snapshot. */
  lemma {:induction false} DrainFolds(c: State, events: seq<Event>)
    requires c.committed.Some? && c.shown.Some? && c.shown.value.review.id == c.committed.value.review.id
    requires !c.draft && c.deferred == []
    requires forall e | e in events :: Replay.IsRefresh(c.committed.value.review.id, e)
    ensures var d := ApplyAll(c, events);
            && d.committed == Some(Fold(c.committed.value, events)) && !d.draft && d.deferred == []
            && d.shown.Some? && d.shown.value.review.id == c.committed.value.review.id
    decreases |events|
  {
    if events != [] {
      var init, e := events[..|events| - 1], events[|events| - 1];
      DrainFolds(c, init);
      Replay.FoldIsOps(c.committed.value, init);
      DrainOne(ApplyAll(c, init), e);
    }
  }

  lemma DrainOne(c: State, e: Event)
    requires c.committed.Some? && c.shown.Some? && c.shown.value.review.id == c.committed.value.review.id
    requires !c.draft && c.deferred == [] && Replay.IsRefresh(c.committed.value.review.id, e)
    ensures var d := ApplyLive(c, e);
            && d.committed == Some(ApplyEvent(c.committed.value, e)) && !d.draft && d.deferred == []
            && d.shown.Some? && d.shown.value.review.id == c.committed.value.review.id
  {
    Replay.EventIsOps(c.committed.value, e);
    Shown.OverlayKeepsId(ApplyEvent(c.committed.value, e), c.author, Noted(c, e).pending);
  }

  /** The client stayed put and the log at most grew. */
  lemma BasisStays(w: World, x: World)
    requires Based(w) && (x.basis == w.basis || x.basis.None?) && |w.log| <= |x.log| && x.log[..|w.log|] == w.log
    requires x.client.committed == w.client.committed && x.client.deferred == w.client.deferred
    requires w.basis.Some? ==> x.client.connection.LastSeq() == w.client.connection.LastSeq()
    ensures Based(x)
  {
    hide ApplyEvent;
    if x.basis.Some? {
      var b, last := w.basis.value, w.client.connection.LastSeq().value;
      assert x.log[..|w.log|][..b.upto] == x.log[..b.upto];
      assert x.log[..|w.log|][b.start..last] == x.log[b.start..last];
    }
  }

  lemma DraftClosesBased(w: World)
    requires Based(w) && Shown.Invariant(w) && w.client.draft && w.basis.Some?
    ensures Based(UserStep(w, UserCloseDraft))
  {
    hide ApplyEvent, ApplyAll, Overlay;
    var c := w.client;
    Shown.OverlayKeepsId(c.committed.value, c.author, c.pending);
    DrainFolds(c.(draft := false, deferred := []), c.deferred);
    ApplyAllConnection(c.(draft := false, deferred := []), c.deferred);
    Replay.FoldIsOps(c.committed.value, c.deferred);
  }

  lemma UserBased(w: World, step: Step)
    requires Based(w) && Shown.Invariant(w) && Paced(w)
    ensures Based(UserStep(w, step))
  {
    hide ApplyEvent, ApplyAll, Overlay, Fold;
    var c := w.client;
    if step.UserCloseDraft? {
      if c.draft && w.basis.Some? {
        DraftClosesBased(w);
      }
    } else {
      var x := UserStep(w, step);
      assert x.log == w.log;
      if step.UserClose? {
      } else if step.PreviewReceipt? {
        assert x.client.deferred == c.deferred;
      } else {
        QuietCommitted(w, step);
        BasisStays(w, x);
      }
    }
  }

  lemma QuietCommitted(w: World, step: Step)
    requires !step.UserCloseDraft? && !step.UserClose? && !step.PreviewReceipt?
    ensures var x := UserStep(w, step);
            && x.client.committed == w.client.committed && x.client.deferred == w.client.deferred && x.basis == w.basis
            && x.client.connection.LastSeq() == w.client.connection.LastSeq() && x.log == w.log
  {
    hide ApplyAll, Overlay, Receive;
  }

  lemma DaemonBased(w: World, step: Step)
    requires Based(w)
    ensures Based(DaemonStep(w, step))
  {
    var x := DaemonStep(w, step);
    assert x.client == w.client && x.basis == w.basis;
    assert |w.log| <= |x.log| && x.log[..|w.log|] == w.log;
    BasisStays(w, x);
  }

  /** A taken event is the one right after the cursor. */
  lemma TakenAdvances(w: World, c: State, e: Event, x: World)
    requires Based(w) && Shown.Coherent(c, w.issued) && w.client.committed == c.committed
             && w.client.deferred == c.deferred
    requires x.log == w.log && x.basis == (if x.client.committed.None? then None else w.basis)
    requires x.client.committed == ApplyLive(c, e).committed && x.client.deferred == ApplyLive(c, e).deferred
    requires w.basis.Some? ==>
               && w.client.connection.LastSeq().value < |w.log| && e == w.log[w.client.connection.LastSeq().value]
               && x.client.connection.LastSeq() == Some(w.client.connection.LastSeq().value + 1)
    ensures Based(x)
  {
    hide ApplyEvent;
    if x.basis.Some? {
      var b, last := w.basis.value, w.client.connection.LastSeq().value;
      LiveAdvances(c, w.issued, e);
      LiveKeepsId(c, e);
      FoldFurther(Fold(b.base, w.log[..b.upto]), w.log, b.start, last);
    }
  }

  lemma FoldFurther(s: Snapshot, log: seq<Event>, a: nat, n: nat)
    requires a <= n < |log|
    ensures Fold(s, log[a..n + 1]) == ApplyEvent(Fold(s, log[a..n]), log[n])
  {
    hide ApplyEvent;
    assert log[a..n + 1][..n - a] == log[a..n];
  }

  lemma LiveKeepsId(c: State, e: Event)
    requires c.committed.Some?
    ensures ApplyLive(c, e).committed.Some? ==> ApplyLive(c, e).committed.value.review.id == c.committed.value.review.id
  {
    Replay.EventIsOps(c.committed.value, e);
  }

  lemma BroadcastBased(w: World)
    requires Based(w) && Shown.Invariant(w) && Paced(w) && w.down != [] && w.down[0].Broadcast?
    ensures Based(DeliverStep(w))
  {
    hide ApplyEvent, ApplyLive, Fold;
    var c, e, x := w.client, w.down[0].event, DeliverStep(w);
    assert w.down[0] in w.down;
    EventConnection(c, e);
    if TakesEvent(c, e) {
      TakenAdvances(w, c.(connection := Advanced(c.connection, e.seqNo)), e, x);
    } else {
      BasisStays(w, x);
    }
  }

  lemma CommittedBased(w: World)
    requires Based(w) && Shown.Invariant(w) && Paced(w) && w.down != [] && w.down[0].CommittedReply?
    ensures Based(DeliverStep(w))
  {
    hide ApplyEvent, ApplyLive, Fold;
    var c, m, x := w.client, w.down[0], DeliverStep(w);
    CommittedConnection(c, m.id, m.event);
    CommittedParts(c, m.id, m.event);
    if Wins(c, m.id, m.event) {
      WinnerIsNext(w);
      var moved := c.(connection := Subscribed(m.event.seqNo));
      assert Shown.Coherent(moved, w.issued);
      TakenAdvances(w, moved, m.event, x);
    } else {
      BasisStays(w, x);
    }
  }

  /** A response that wins the race carries the event right after the cursor. */
  lemma WinnerIsNext(w: World)
    requires Paced(w) && w.down != [] && w.down[0].CommittedReply? && Wins(w.client, w.down[0].id, w.down[0].event)
    ensures var last, e := w.client.connection.seqNo, w.down[0].event;
            last < |w.log| && e == w.log[last] && e.seqNo == last + 1
  {
    assert w.down[0] in w.down;
  }

  lemma CommittedParts(c: State, id: nat, e: Event)
    ensures var d := OnCommitted(c, id, e);
            if Wins(c, id, e) then
              var live := ApplyLive(c.(connection := Subscribed(e.seqNo)), e);
              d.committed == live.committed && d.deferred == live.deferred
            else d.committed == c.committed && d.deferred == c.deferred
  {
  }

  lemma SnapshotBased(w: World)
    requires Based(w) && Paced(w) && w.down != [] && w.down[0].SnapshotReply?
    ensures Based(DeliverStep(w))
  {
    var c, id, s, x := w.client, w.down[0].id, w.down[0].snapshot, DeliverStep(w);
    SnapshotConnection(c, id, s);
    if Installs(c, id, s) {
      SnapshotDeferred(c, id, s);
      if x.basis.Some? {
        var b := x.basis.value;
        assert w.log[b.start..b.start] == [];
        Replay.FoldIsOps(b.base, w.log[..b.upto]);
      }
    } else {
      BasisStays(w, x);
    }
  }

  lemma SnapshotDeferred(c: State, id: nat, s: Snapshot)
    requires Installs(c, id, s)
    ensures OnSnapshot(c, id, s).deferred == []
  {
  }

  lemma DeliverBased(w: World)
    requires Based(w) && Shown.Invariant(w) && Paced(w)
    ensures Based(DeliverStep(w))
  {
    hide ApplyEvent, ApplyLive, Fold, Based;
    if w.down != [] {
      match w.down[0]
      case Broadcast(_) => BroadcastBased(w);
      case CommittedReply(_, _) => CommittedBased(w);
      case SnapshotReply(_, _) => SnapshotBased(w);
      case ErrorReply(id, error) => BasisStays(w, DeliverStep(w));
      case SubscribedReply(id, n) => SubscribedBased(w);
    }
  }

  lemma SubscribedBased(w: World)
    requires Based(w) && Paced(w) && w.down != [] && w.down[0].SubscribedReply?
    ensures Based(DeliverStep(w))
  {
    assert w.down[0] in w.down;
    BasisStays(w, DeliverStep(w));
  }

  ghost predicate Invariant(w: World) { Shown.Invariant(w) && Paced(w) && Based(w) }

  lemma NextKeeps(w: World, step: Step)
    requires Invariant(w)
    ensures Invariant(Next(w, step)) && NoEarlier(w.client.connection, Next(w, step).client.connection)
  {
    if step.Deliver? {
      Shown.DeliverKeeps(w);
      DeliverPaced(w);
      DeliverBased(w);
    } else {
      var mid := UserStep(w, step);
      Shown.UserKeeps(w, step);
      UserPaced(w, step);
      UserBased(w, step);
      Shown.DaemonKeeps(mid, step);
      DaemonPaced(mid, step);
      DaemonBased(mid, step);
      assert DaemonStep(mid, step).client == mid.client;
    }
  }

  lemma {:induction false} RunKeeps(w: World, steps: seq<Step>)
    requires Start(w)
    ensures Invariant(Run(w, steps))
    decreases |steps|
  {
    if steps != [] {
      RunKeeps(w, steps[..|steps| - 1]);
      NextKeeps(Run(w, steps[..|steps| - 1]), steps[|steps| - 1]);
    }
  }

  /** The cursor never decreases. */
  lemma {:induction false} CursorNeverDecreases(w: World, steps: seq<Step>, n: nat)
    requires Start(w) && n <= |steps|
    ensures NoEarlier(Run(w, steps[..n]).client.connection, Run(w, steps).client.connection)
    decreases |steps|
  {
    if n == |steps| {
      assert steps[..n] == steps;
    } else {
      var init := steps[..|steps| - 1];
      assert init[..n] == steps[..n];
      CursorNeverDecreases(w, init, n);
      RunKeeps(w, init);
      NextKeeps(Run(w, init), steps[|steps| - 1]);
    }
  }

  /**
   Convergence: whenever the last install left the fold of `log[..upto]`, the cursor has since reached
   `upto` and no refresh is held back, the confirmed snapshot is the fold of the log up to the cursor.
   */
  lemma {:induction false} Converges(w: World, steps: seq<Step>)
    requires Start(w) && Run(w, steps).basis.Some?
    requires Run(w, steps).client.connection.LastSeq().Some?
    requires var x := Run(w, steps);
             && x.basis.value.upto <= x.client.connection.LastSeq().value && x.client.deferred == []
             && Replay.Grounded(x.basis.value.base, x.log)
    ensures var x := Run(w, steps); var last := x.client.connection.LastSeq().value;
            last <= |x.log| && x.client.committed == Some(Fold(x.basis.value.base, x.log[..last]))
  {
    RunKeeps(w, steps);
    var x := Run(w, steps);
    var b, last := x.basis.value, x.client.connection.LastSeq().value;
    Replay.ReplayAbsorbed(b.base, x.log, b.start, b.upto, last);
  }

  // ---- drafts ---------------------------------------------------------------

  predicate Deleted(review: ReviewId, events: seq<Event>) {
    exists i :: 0 <= i < |events| && events[i].body == ReviewDeleted(review)
  }

  lemma DeletedSnoc(review: ReviewId, events: seq<Event>)
    requires events != []
    ensures Deleted(review, events) <==>
            (Deleted(review, events[..|events| - 1]) || events[|events| - 1].body == ReviewDeleted(review))
  {
  }

  lemma LiveCloses(c: State, e: Event)
    requires c.committed.Some? ==> c.shown.Some? && c.shown.value.review.id == c.committed.value.review.id
    requires c.committed.None? ==> c.shown.None?
    ensures ApplyLive(c, e).committed.None?
            <==> c.committed.None? || e.body == ReviewDeleted(c.committed.value.review.id)
  {
  }

  /** A delivered stretch, held-back refreshes folded in, is the stretch itself. */
  lemma {:induction false} StretchFolds(c: State, issued: map<nat, Body>, events: seq<Event>)
    requires Shown.Coherent(c, issued) && c.committed.Some? && forall e | e in events :: Shown.Genuine(c.me, issued, e)
    ensures var d := ApplyAll(c, events);
            && (d.committed.None? <==> Deleted(c.committed.value.review.id, events))
            && (d.committed.Some? ==>
                  && d.committed.value.review.id == c.committed.value.review.id
                  && Fold(d.committed.value, d.deferred) == Fold(Fold(c.committed.value, c.deferred), events))
    decreases |events|
  {
    if events != [] {
      var init, e := events[..|events| - 1], events[|events| - 1];
      var mid := ApplyAll(c, init);
      StretchFolds(c, issued, init);
      Shown.ApplyAllCoheres(c, issued, init);
      DeletedSnoc(c.committed.value.review.id, events);
      if mid.committed.Some? {
        Shown.OverlayKeepsId(mid.committed.value, mid.author, mid.pending);
        LiveAdvances(mid, issued, e);
        LiveKeepsId(mid, e);
      }
      LiveCloses(mid, e);
    }
  }

  lemma {:induction false} NoDraftNothingHeld(c: State, events: seq<Event>)
    requires !c.draft && c.deferred == []
    ensures !ApplyAll(c, events).draft && ApplyAll(c, events).deferred == []
    decreases |events|
  {
    if events != [] {
      NoDraftNothingHeld(c, events[..|events| - 1]);
    }
  }

  /** Events that arrive while a draft is open leave, once it closes, what they would have left without it. */
  lemma {:induction false} DraftIsTransparent(c: State, issued: map<nat, Body>, events: seq<Event>)
    requires Shown.Coherent(c, issued) && c.committed.Some? && !c.draft && forall e | e in events ::
             Shown.Genuine(c.me, issued, e)
    ensures CloseDraft(ApplyAll(c.(draft := true), events)).committed == ApplyAll(c, events).committed
  {
    var drafted, held := c.(draft := true), ApplyAll(c.(draft := true), events);
    StretchFolds(c, issued, events);
    StretchFolds(drafted, issued, events);
    NoDraftNothingHeld(c, events);
    Shown.ApplyAllCoheres(drafted, issued, events);
    if held.committed.Some? {
      Shown.OverlayKeepsId(held.committed.value, held.author, held.pending);
      DrainFolds(held.(draft := false, deferred := []), held.deferred);
    }
  }
}
