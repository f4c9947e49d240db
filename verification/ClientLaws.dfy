/**
 What single steps of a run do to the client, entry by entry and field by field: refusals, lost connections,
 installs, echoes, held-back refreshes, previews and recordings.
 */
module ClientLaws {
  import opened Protocol
  import opened Events
  import opened Client
  import opened Session
  import opened ReferenceRuns
  import opened Redelivery
  import Replay
  import AtMostOnce
  import Convergence
  import Receipts
  import Shown = ShownIsOverlay

  /** The pending list without its entry `i`. */
  function Except(pending: seq<Pending>, i: nat): seq<Pending>
    requires i < |pending|
  {
    pending[..i] + pending[i + 1..]
  }

  /** No other entry has this entry's number. */
  predicate Sole(pending: seq<Pending>, i: nat)
    requires i < |pending|
  {
    forall j | 0 <= j < |pending| && j != i :: pending[j].clientSeq != pending[i].clientSeq
  }

  lemma RunSole(w: World, steps: seq<Step>, i: nat)
    requires Start(w) && i < |Run(w, steps).client.pending|
    ensures Sole(Run(w, steps).client.pending, i)
  {
    AtMostOnce.RunKeeps(w, steps);
  }

  lemma {:induction false} WithoutSole(pending: seq<Pending>, i: nat)
    requires i < |pending| && Sole(pending, i)
    ensures Without(pending, pending[i].clientSeq) == Except(pending, i)
    decreases |pending|
  {
    var n, s := |pending| - 1, pending[i].clientSeq;
    assert pending == pending[..n] + [pending[n]];
    if i == n {
      Shown.WithoutAll(pending[..n], s);
    } else {
      WithoutSole(pending[..n], i);
      assert pending[..n][i] == pending[i];
      assert Except(pending, i) == Except(pending[..n], i) + [pending[n]];
    }
  }

  lemma AtSole(pending: seq<Pending>, i: nat)
    requires i < |pending| && Sole(pending, i)
    ensures PendingAt(pending, pending[i].clientSeq) == i
  {
    var k := PendingAt(pending, pending[i].clientSeq);
  }

  /** Delivering the next message is the client's handling of it. */
  lemma Handles(x: World)
    requires x.down != []
    ensures var c, d := x.client, Next(x, Deliver).client;
            match x.down[0]
            case Broadcast(e) => d == OnEvent(c, e)
            case CommittedReply(id, e) => d == OnCommitted(c, id, e)
            case ErrorReply(id, error) => d == OnError(c, id, error)
            case SubscribedReply(id, n) => d == OnSubscribed(c, id, n).0
            case SnapshotReply(id, s) => d == OnSnapshot(c, id, s)
  {
    hide OnEvent, OnCommitted, OnError, OnSubscribed, OnSnapshot, Rebased;
  }

  // ---- a mutation's answers -------------------------------------------------

  /** The error reply to the request of pending entry `i` is next. */
  predicate Refuses(x: World, i: nat) {
    && x.down != [] && x.down[0].ErrorReply? && x.down[0].id in x.client.inFlight && i < |x.client.pending|
    && x.client.inFlight[x.down[0].id] == WaitMutate(x.client.pending[i].clientSeq)
  }

  /**
   A refusal of admission marks the entry for sending again, an interruption leaves its outcome open, and
   any other error takes it off the list; no other entry moves and the confirmed copy stays.
   */
  lemma {:induction false} ErrorsMark(w: World, steps: seq<Step>, i: nat)
    requires Start(w) && Refuses(Run(w, steps), i)
    ensures var x := Run(w, steps);
            var c, d := x.client, Next(x, Deliver).client;
            && d.pending == (match x.down[0].error
                             case Restarting => c.pending[i := c.pending[i].(delivery := NotAdmitted)]
                             case RestartInterrupted => c.pending[i := c.pending[i].(delivery := OutcomeUnknown)]
                             case OtherError => c.pending[..i] + c.pending[i + 1..])
            && d.committed == c.committed && d.connection == c.connection && d.inFlight == c.inFlight - {x.down[0].id}
  {
    hide Run, Next, OnError, Sole;
    RunSole(w, steps, i);
    var x := Run(w, steps);
    Handles(x);
    ErrorMarks(x.client, x.down[0].id, x.down[0].error, i);
  }

  lemma ErrorMarks(c: State, id: nat, error: RpcError, i: nat)
    requires i < |c.pending| && Sole(c.pending, i) && id in c.inFlight
             && c.inFlight[id] == WaitMutate(c.pending[i].clientSeq)
    ensures var d := OnError(c, id, error);
            && d.pending == (match error
                             case Restarting => c.pending[i := c.pending[i].(delivery := NotAdmitted)]
                             case RestartInterrupted => c.pending[i := c.pending[i].(delivery := OutcomeUnknown)]
                             case OtherError => c.pending[..i] + c.pending[i + 1..])
            && d.committed == c.committed && d.connection == c.connection && d.inFlight == c.inFlight - {id}
  {
    hide Overlay, Without, PendingAt, Sole;
    WithoutSole(c.pending, i);
    AtSole(c.pending, i);
  }

  /** The own event of entry `i` is next, as a broadcast after the cursor. */
  predicate Echoed(x: World, i: nat) {
    && x.down != [] && x.down[0].Broadcast? && i < |x.client.pending| && x.client.connection.Subscribed?
    && x.client.connection.seqNo < x.down[0].event.seqNo
    && x.down[0].event.client == x.client.me && x.down[0].event.clientSeq == x.client.pending[i].clientSeq
  }

  /** The entry leaves with its event, all others stay in order; a deleted review takes them all. */
  lemma {:induction false} EchoRetires(w: World, steps: seq<Step>, i: nat)
    requires Start(w) && Echoed(Run(w, steps), i)
    ensures var x := Run(w, steps);
            var c, d := x.client, Next(x, Deliver).client;
            && d.connection == Subscribed(x.down[0].event.seqNo)
            && d.pending == (if d.committed.Some? then c.pending[..i] + c.pending[i + 1..] else [])
  {
    hide Run, Next, ApplyLive, Shown.Invariant, AtMostOnce.Invariant, Landable, Convergence.Paced, Sole, Without;
    RunFine(w, steps);
    RunSole(w, steps, i);
    var x := Run(w, steps);
    var c, e := x.client, x.down[0].event;
    WithoutSole(c.pending, i);
    assert c.pending[i] in c.pending;
    PendingNeedsReview(x, c.pending[i]);
    ShownTogether(x);
    Handles(x);
    LivePendingIs(c.(connection := Subscribed(e.seqNo)), e);
  }

  lemma ShownTogether(x: World)
    requires Shown.Invariant(x)
    ensures x.client.committed.Some? <==> x.client.shown.Some?
    ensures x.client.committed.Some? ==> x.client.shown.value.review.id == x.client.committed.value.review.id
  {
    if x.client.committed.Some? {
      Shown.OverlayKeepsId(x.client.committed.value, x.client.author, x.client.pending);
    }
  }

  lemma LivePendingIs(c: State, e: Event)
    requires e.client == c.me && c.committed.Some? && c.shown.Some?
             && c.shown.value.review.id == c.committed.value.review.id
    ensures var d := ApplyLive(c, e);
            && d.connection == c.connection
            && d.pending == (if d.committed.Some? then Without(c.pending, e.clientSeq) else [])
  {
    hide Overlay, ApplyEvent, Without;
  }

  /** The response to entry `i` comes after its broadcast. */
  predicate ComesLate(x: World, i: nat) {
    && x.down != [] && x.down[0].CommittedReply? && x.down[0].id in x.client.inFlight && i < |x.client.pending|
    && x.client.inFlight[x.down[0].id] == WaitMutate(x.client.pending[i].clientSeq)
    && x.client.connection.Subscribed? && x.down[0].event.seqNo <= x.client.connection.seqNo
  }

  /** A late response applies nothing and takes its entry off the list. */
  lemma {:induction false} LateResponseRetires(w: World, steps: seq<Step>, i: nat)
    requires Start(w) && ComesLate(Run(w, steps), i)
    ensures var x := Run(w, steps);
            var c, d := x.client, Next(x, Deliver).client;
            && d.pending == c.pending[..i] + c.pending[i + 1..] && d.committed == c.committed
            && d.connection == c.connection && d.inFlight == c.inFlight - {x.down[0].id}
  {
    hide Overlay, Run, Next, ApplyLive, Sole, Without;
    RunSole(w, steps, i);
    WithoutSole(Run(w, steps).client.pending, i);
    Handles(Run(w, steps));
  }

  // ---- a lost connection ----------------------------------------------------

  /** Nothing is in flight any more; unanswered entries have an open outcome, and what was confirmed stays. */
  lemma {:induction false} DropLeaves(x: World)
    ensures var c, d := x.client, Next(x, Drop).client;
            && d.connection == Disconnected(c.connection.LastSeq())
            && d.inFlight == map[] && d.snapshotEvents == map[] && d.latestOpen == None && d.reference == None
            && d.committed == c.committed && d.shown == c.shown && d.draft == c.draft && d.deferred == c.deferred
            && |d.pending| == |c.pending|
            && forall i | 0 <= i < |c.pending| ::
                 d.pending[i] == (if c.pending[i].delivery == AwaitingReceipt
                   then c.pending[i].(delivery := OutcomeUnknown)
                                  else c.pending[i])
  {
  }

  /** A confirmed subscription puts the refused entries, and only those, back to waiting. */
  lemma {:induction false} ResubscribeMarks(x: World)
    requires Resubscribes(x, Deliver)
    ensures var c, d := x.client, Next(x, Deliver).client;
            && d.connection.Subscribed? && x.down[0].id !in d.inFlight && d.committed == c.committed
               && d.shown == c.shown
            && |d.pending| == |c.pending|
            && forall i | 0 <= i < |c.pending| ::
                 d.pending[i] == (if c.pending[i].delivery == NotAdmitted
                   then c.pending[i].(delivery := AwaitingReceipt)
                                  else c.pending[i])
  {
    hide Resent, WaitingFor;
  }

  /** A mutation sent without an entry, such as the creation of a review, changes no copy and no pending entry. */
  lemma {:induction false} UntrackedSends(x: World, body: Body)
    requires x.client.connection.Subscribed?
    ensures var c, y := x.client, Next(x, UserUntracked(body));
            && y.client == c.(nextRequest := c.nextRequest + 1, nextClientSeq := c.nextClientSeq + 1,
                              inFlight := c.inFlight[c.nextRequest := WaitMutate(c.nextClientSeq)])
            && y.requests == x.requests + [Outstanding(SendMutate(c.nextRequest, c.nextClientSeq, body), true)]
  {
  }

  // ---- opening --------------------------------------------------------------

  /** Asking for a review takes a fresh request, starts an empty recording and makes it the latest open. */
  lemma {:induction false} OpenAsks(x: World, review: ReviewId, reference: bool)
    requires x.client.connection.Subscribed?
    ensures var c, d := x.client, Next(x, if reference then UserOpenReference(review) else UserOpen(review)).client;
            d == c.(nextRequest := c.nextRequest + 1, latestOpen := Some(c.nextRequest),
                    inFlight := c.inFlight[c.nextRequest := WaitSnapshot(review)],
                    snapshotEvents := c.snapshotEvents[c.nextRequest := Recording(review, [])],
                    reference := if reference then Some(Recording(review, [])) else None)
  {
  }

  predicate Answering(x: World) {
    && x.down != [] && x.down[0].SnapshotReply? && x.down[0].id in x.client.inFlight
    && x.client.inFlight[x.down[0].id].WaitSnapshot?
  }

  /**
   Only the latest open installs: pending entries survive for the same review and for no other, the draft
   and what it held back go, and the request and its recording are done with.
   */
  lemma {:induction false} SnapshotSettles(w: World, steps: seq<Step>)
    requires Start(w) && Answering(Run(w, steps))
    ensures var x := Run(w, steps);
            var c, d, id, s := x.client, Next(x, Deliver).client, x.down[0].id, x.down[0].snapshot;
            && (c.latestOpen != Some(id) ==>
                  d == c.(inFlight := c.inFlight - {id}, snapshotEvents := c.snapshotEvents - {id}))
            && (c.latestOpen == Some(id) && c.inFlight[id].review != s.review.id ==> d == c)
            && (c.latestOpen == Some(id) && c.inFlight[id].review == s.review.id ==>
                  && d.inFlight == c.inFlight - {id} && d.snapshotEvents == c.snapshotEvents - {id}
                  && !d.draft && d.deferred == [] && d.reference == None
                  && (d.committed.Some? ==> d.committed.value.review.id == s.review.id)
                  && d.pending == (if d.committed.Some? && c.committed.Some?
                     && c.committed.value.review.id == s.review.id
                                   then c.pending else []))
  {
    hide Overlay, Run, Next, Installed, LandEvents;
    var x := Run(w, steps);
    Handles(x);
    var c, id, s := x.client, x.down[0].id, x.down[0].snapshot;
    if Installs(c, id, s) {
      Shown.InstalledKeepsId(c, id, s);
      var i := InstallSnapshot(c, id, s);
      if i.reference.Some? && LandEvents(i.committed.value, i.reference.value.events).Some? {
        Shown.LandKeepsId(i.committed.value, i.reference.value.events);
      }
    }
  }

  /** Closing lets go of the review and of everything pending for it. */
  lemma {:induction false} CloseLetsGo(x: World)
    requires x.client.shown.Some?
    ensures var c, d := x.client, Next(x, UserClose).client;
            d == c.(shown := None, committed := None, draft := false, deferred := [], pending := [],
                    reference := None, latestOpen := None)
  {
  }

  // ---- live events ----------------------------------------------------------

  /** The next broadcast is taken. */
  predicate Taking(x: World) {
    x.down != [] && x.down[0].Broadcast? && x.client.connection.Subscribed?
      && x.client.connection.seqNo < x.down[0].event.seqNo
  }

  /**
   A refresh of the open review waits while a draft is open, the deletion of the open review closes it, and
   every other event of it is folded in; events of other reviews change no copy.
   */
  lemma {:induction false} EventLands(w: World, steps: seq<Step>)
    requires Start(w) && Taking(Run(w, steps)) && Run(w, steps).client.committed.Some?
    ensures var x := Run(w, steps);
            var c, d, e := x.client, Next(x, Deliver).client, x.down[0].event;
            var s := c.committed.value;
            && d.connection == Subscribed(e.seqNo)
            && if e.body.TargetsResolved? && e.body.reviewId == s.review.id && c.draft then
                 d.committed == Some(s) && d.deferred == c.deferred + [e]
               else if e.body == ReviewDeleted(s.review.id) then
                 d.committed == None && d.shown == None && d.pending == [] && d.deferred == [] && !d.draft
               else if e.body.Subject() == Some(s.review.id) then
                 d.committed == Some(ApplyEvent(s, e)) && d.deferred == c.deferred && d.draft == c.draft
               else d.committed == Some(s) && d.deferred == c.deferred && d.draft == c.draft
  {
    hide Run, Next, ApplyLive, ApplyEvent, Shown.Invariant, AtMostOnce.Invariant, Landable, Convergence.Paced;
    RunFine(w, steps);
    var x := Run(w, steps);
    ShownTogether(x);
    Handles(x);
    EventIsLanded(x.client.(connection := Subscribed(x.down[0].event.seqNo)), x.down[0].event);
  }

  lemma EventIsLanded(c: State, e: Event)
    requires c.committed.Some? && c.shown.Some? && c.shown.value.review.id == c.committed.value.review.id
    ensures var d, s := ApplyLive(c, e), c.committed.value;
            && d.connection == c.connection
            && if e.body.TargetsResolved? && e.body.reviewId == s.review.id && c.draft then
                 d.committed == Some(s) && d.deferred == c.deferred + [e]
               else if e.body == ReviewDeleted(s.review.id) then
                 d.committed == None && d.shown == None && d.pending == [] && d.deferred == [] && !d.draft
               else if e.body.Subject() == Some(s.review.id) then
                 d.committed == Some(ApplyEvent(s, e)) && d.deferred == c.deferred && d.draft == c.draft
               else d.committed == Some(s) && d.deferred == c.deferred && d.draft == c.draft
  {
    hide Overlay, ApplyEvent, Without;
  }

  /** What an open in flight must not miss: landings, requests, checkpoints and target refreshes of its review. */
  predicate Revises(e: Event, review: ReviewId) {
    match e.body
    case SuggestionApplied(r, _, _, _, _) => r == review
    case ReviewRequested(r, _, _) => r == review
    case ReviewChecked(r, _, _) => r == review
    case TargetsResolved(r, _) => r == review
    case _ => false
  }

  /** Opens in flight note exactly those, each number once; a reference in flight notes every event of its review. */
  lemma {:induction false} RecordingsNote(w: World, steps: seq<Step>)
    requires Start(w) && Taking(Run(w, steps))
    ensures var x := Run(w, steps);
            var c, d, e := x.client, Next(x, Deliver).client, x.down[0].event;
            && d.snapshotEvents.Keys == c.snapshotEvents.Keys
            && (forall id | id in c.snapshotEvents ::
                  d.snapshotEvents[id] ==
                  if Revises(e, c.snapshotEvents[id].review) && forall n | n in c.snapshotEvents[id].events ::
                      n.seqNo != e.seqNo
                  then c.snapshotEvents[id].(events := c.snapshotEvents[id].events + [e]) else c.snapshotEvents[id])
            && (c.reference.None? ==> d.reference == None)
            && (c.reference.Some? ==>
                  d.reference == Some(if e.body.Subject() == Some(c.reference.value.review)
                                      then c.reference.value.(events := c.reference.value.events + [e])
                                        else c.reference.value))
  {
    hide Run, Next, ApplyLive, Recorded;
    var x := Run(w, steps);
    Handles(x);
    var c, e := x.client, x.down[0].event;
    LiveRecords(c.(connection := Subscribed(e.seqNo)), e);
    forall id | id in c.snapshotEvents
      ensures Recorded(c.snapshotEvents[id], e) ==
              if Revises(e, c.snapshotEvents[id].review) && forall n | n in c.snapshotEvents[id].events ::
                  n.seqNo != e.seqNo
              then c.snapshotEvents[id].(events := c.snapshotEvents[id].events + [e]) else c.snapshotEvents[id]
    {
      RecordedIs(c.snapshotEvents[id], e);
    }
  }

  lemma RecordedIs(r: Recording, e: Event)
    ensures Recorded(r, e) == if Revises(e, r.review) && forall n | n in r.events :: n.seqNo != e.seqNo
                              then r.(events := r.events + [e]) else r
  {
    if exists n :: n in r.events && n.seqNo == e.seqNo {
      var n :| n in r.events && n.seqNo == e.seqNo;
      var i :| 0 <= i < |r.events| && r.events[i] == n;
      assert r.events[i].seqNo == e.seqNo;
    }
  }

  // ---- drafts and previews --------------------------------------------------

  /** A draft opens over an open review only; closing it leaves nothing held back. */
  lemma {:induction false} DraftOpensAndCloses(x: World)
    ensures var c := x.client; Next(x, UserDraft).client == if c.shown.Some? then c.(draft := true) else c
    ensures var d := Next(x, UserCloseDraft).client; x.client.draft ==> !d.draft && d.deferred == []
  {
    hide ApplyLive;
    var c := x.client;
    Convergence.NoDraftNothingHeld(c.(draft := false, deferred := []), c.deferred);
  }

  /** A preview's receipt is taken over when the record holds none or an older one. */
  lemma {:induction false} PreviewTakesOver(x: World, i: nat, receipt: Receipt)
    requires x.client.committed.Some? && i < |x.client.committed.value.suggestions|
    requires var rs := x.client.committed.value.suggestions; forall j | 0 <= j < i :: rs[j].commentId != rs[i].commentId
    ensures var s := x.client.committed.value;
            var d := Next(x, PreviewReceipt(s.suggestions[i].commentId, receipt)).client;
            d.committed == Some(
              if s.suggestions[i].outcome.Applied? && receipt.seqNo <= s.suggestions[i].outcome.receipt.seqNo then s
              else s.(suggestions := s.suggestions[i := s.suggestions[i].(outcome := Applied(receipt))]))
  {
    hide Overlay, RecordAt;
    var s := x.client.committed.value;
    var k := RecordAt(s.suggestions, s.suggestions[i].commentId);
  }
}
