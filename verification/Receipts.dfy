/**
 What every run keeps of suggestion receipts and of the recordings made for opens in flight: each receipt
 of the open review is that of a logged event, and each recording holds the revision events delivered
 since its request.
 */
module Receipts {
  import opened Protocol
  import opened Events
  import opened Client
  import opened Session
  import opened Landing
  import opened ReferenceRuns
  import Replay
  import AtMostOnce
  import Convergence

  // ---- snapshots ------------------------------------------------------------

  /** One record per comment, none without its comment. */
  ghost predicate Shapely(s: Snapshot) {
    OneEach(s.suggestions) && forall i | 0 <= i < |s.suggestions| :: HasComment(s, s.suggestions[i].commentId)
  }

  /** The receipt of an event logged by position `last`. */
  predicate HeldFrom(log: seq<Event>, review: ReviewId, id: CommentId, r: Receipt, last: nat) {
    && 1 <= r.seqNo <= last && r.seqNo <= |log|
    && var e := log[r.seqNo - 1];
    && e.body.SuggestionApplied? && e.body.reviewId == review && e.body.commentId == id && ReceiptOf(e) == r
  }

  predicate BackedRecord(log: seq<Event>, review: ReviewId, r: SuggestionRecord) {
    r.outcome.Applied? ==> HeldFrom(log, review, r.commentId, r.outcome.receipt, |log|)
  }

  ghost predicate Backed(log: seq<Event>, s: Snapshot) {
    forall i | 0 <= i < |s.suggestions| :: BackedRecord(log, s.review.id, s.suggestions[i])
  }

  /** Records and comments keep their places. */
  ghost predicate SameShape(s: Snapshot, t: Snapshot) {
    && t.review.id == s.review.id && |t.suggestions| == |s.suggestions| && |t.comments| == |s.comments|
    && (forall i | 0 <= i < |s.suggestions| :: t.suggestions[i].commentId == s.suggestions[i].commentId)
    && (forall i | 0 <= i < |s.comments| :: t.comments[i].id == s.comments[i].id)
  }

  lemma HasSameComments(s: Snapshot, t: Snapshot, id: CommentId)
    requires |s.comments| <= |t.comments| && forall i | 0 <= i < |s.comments| :: t.comments[i].id == s.comments[i].id
    requires HasComment(s, id)
    ensures HasComment(t, id)
  {
    var i, j := CommentAt(s.comments, id), CommentAt(t.comments, id);
  }

  lemma SameShapeShapely(s: Snapshot, t: Snapshot)
    requires Shapely(s) && SameShape(s, t)
    ensures Shapely(t)
  {
    forall i | 0 <= i < |t.suggestions|
      ensures HasComment(t, t.suggestions[i].commentId)
    {
      HasSameComments(s, t, s.suggestions[i].commentId);
    }
  }

  /** What a landing does to the records. */
  lemma LandingWrites(s: Snapshot, e: Event)
    requires e.body.SuggestionApplied?
    ensures var t := ApplyEvent(s, e);
            && SameShape(s, t)
            && forall i | 0 <= i < |s.suggestions| :: t.suggestions[i] == s.suggestions[i] || (
                 e.body.reviewId == s.review.id
                   && t.suggestions[i] == s.suggestions[i].(outcome := Applied(ReceiptOf(e)))
                 && s.suggestions[i].commentId == e.body.commentId)
  {
  }

  lemma CreationAdds(s: Snapshot, c: Comment)
    ensures Created(s, c) == s || (
              && !HasComment(s, c.id) && Created(s, c).suggestions == s.suggestions + RecordOf(c)
              && Created(s, c).comments == s.comments + [c] && Created(s, c).review == s.review)
    ensures |RecordOf(c)| <= 1 && forall i | 0 <= i < |RecordOf(c)| ::
            RecordOf(c)[i].commentId == c.id && RecordOf(c)[i].outcome.Unapplied?
  {
  }

  lemma OtherWrites(s: Snapshot, e: Event)
    requires !e.body.SuggestionApplied? && !e.body.CommentCreated?
    ensures SameShape(s, ApplyEvent(s, e)) && ApplyEvent(s, e).suggestions == s.suggestions
  {
  }

  lemma CreatedShapely(s: Snapshot, c: Comment)
    requires Shapely(s)
    ensures Shapely(Created(s, c))
  {
    CreationAdds(s, c);
    var t := Created(s, c);
    if t != s {
      forall i | 0 <= i < |t.suggestions|
        ensures HasComment(t, t.suggestions[i].commentId)
      {
        if i < |s.suggestions| {
          HasSameComments(s, t, s.suggestions[i].commentId);
        } else {
          assert t.comments[|s.comments|].id == c.id;
          var j := CommentAt(t.comments, c.id);
        }
      }
    }
  }

  /** Events of the log keep a snapshot shapely and backed. */
  lemma EventFine(log: seq<Event>, s: Snapshot, e: Event)
    requires Shapely(s) && Backed(log, s) && FromLog(log, e, |log|)
    ensures Shapely(ApplyEvent(s, e)) && Backed(log, ApplyEvent(s, e))
  {
    hide ApplyEvent, Created;
    if e.body.SuggestionApplied? {
      LandingWrites(s, e);
      SameShapeShapely(s, ApplyEvent(s, e));
    } else if e.body.CommentCreated? {
      CreationIs(s, e);
      CreatedShapely(s, e.body.comment);
      CreationAdds(s, e.body.comment);
    } else {
      OtherWrites(s, e);
      SameShapeShapely(s, ApplyEvent(s, e));
    }
  }

  lemma CreationIs(s: Snapshot, e: Event)
    requires e.body.CommentCreated?
    ensures ApplyEvent(s, e) == if e.body.comment.reviewId == s.review.id then Created(s, e.body.comment) else s
  {
  }

  lemma {:induction false} FoldFine(log: seq<Event>, g: Snapshot, m: nat)
    requires m <= |log| && Numbered(log) && g.suggestions == []
    ensures Shapely(Fold(g, log[..m])) && Backed(log, Fold(g, log[..m]))
    decreases m
  {
    hide ApplyEvent, Shapely, Backed;
    if m == 0 {
      assert log[..0] == [];
      NoneFine(log, g);
    } else {
      FoldFine(log, g, m - 1);
      Replay.FoldNext(g, log, m - 1);
      EventFine(log, Fold(g, log[..m - 1]), log[m - 1]);
    }
  }

  lemma NoneFine(log: seq<Event>, g: Snapshot)
    requires g.suggestions == []
    ensures Shapely(g) && Backed(log, g)
  {
  }

  lemma {:induction false} ReplayFine(log: seq<Event>, s: Snapshot, events: seq<Event>)
    requires Shapely(s) && Backed(log, s) && forall e | e in events :: FromLog(log, e, |log|)
    ensures Shapely(ReplayNewer(s, events)) && Backed(log, ReplayNewer(s, events))
    ensures ReplayNewer(s, events).review.id == s.review.id
    decreases |events|
  {
    hide ApplyEvent, Shapely, Backed;
    if events != [] {
      var init, e := events[..|events| - 1], events[|events| - 1];
      ReplayFine(log, s, init);
      EventFine(log, ReplayNewer(s, init), e);
      Replay.EventIsOps(ReplayNewer(s, init), e);
    }
  }

  lemma {:induction false} LandFine(log: seq<Event>, s: Snapshot, events: seq<Event>)
    requires Shapely(s) && Backed(log, s) && forall e | e in events :: FromLog(log, e, |log|)
    ensures LandEvents(s, events).Some? ==>
            Shapely(LandEvents(s, events).value) && Backed(log, LandEvents(s, events).value)
    decreases |events|
  {
    hide ApplyEvent, Shapely, Backed;
    if events != [] {
      var e, rest := events[0], events[1..];
      assert e in events && forall x | x in rest :: x in events;
      EventFine(log, s, e);
      CursorFine(log, ApplyEvent(s, e), e.seqNo);
      LandFine(log, s, rest);
      LandFine(log, ApplyEvent(s, e).(cursor := e.seqNo), rest);
    }
  }

  lemma CursorFine(log: seq<Event>, s: Snapshot, k: nat)
    requires Shapely(s) && Backed(log, s)
    ensures Shapely(s.(cursor := k)) && Backed(log, s.(cursor := k))
  {
  }

  lemma {:induction false} MergeFine(log: seq<Event>, s: Snapshot, earlier: seq<SuggestionRecord>)
    requires Shapely(s) && Backed(log, s) && forall i | 0 <= i < |earlier| :: BackedRecord(log, s.review.id, earlier[i])
    ensures Shapely(MergeReceipts(s, earlier)) && Backed(log, MergeReceipts(s, earlier))
    ensures SameShape(s, MergeReceipts(s, earlier))
    decreases |earlier|
  {
    if earlier != [] {
      MergeFine(log, s, earlier[..|earlier| - 1]);
      SameShapeShapely(s, MergeReceipts(s, earlier));
    }
  }

  /** Backing outlives the growth of the log. */
  lemma BackedGrows(log: seq<Event>, more: seq<Event>, s: Snapshot)
    requires Backed(log, s) && |log| <= |more| && more[..|log|] == log
    ensures Backed(more, s)
  {
    forall i | 0 <= i < |s.suggestions|
      ensures BackedRecord(more, s.review.id, s.suggestions[i])
    {
      assert BackedRecord(log, s.review.id, s.suggestions[i]);
      var r := s.suggestions[i];
      if r.outcome.Applied? {
        assert more[..|log|][r.outcome.receipt.seqNo - 1] == log[r.outcome.receipt.seqNo - 1];
      }
    }
  }

  // ---- the client beside the log --------------------------------------------

  /** The open copy is shapely and its receipts are those of logged events. */
  ghost predicate CopyFine(c: State, log: seq<Event>) {
    c.committed.Some? ==> Shapely(c.committed.value) && Backed(log, c.committed.value)
  }

  /** A recording holds revision events of its review, each once. */
  ghost predicate Revised(r: Recording) {
    && (forall e | e in r.events :: IsRevision(e.body) && e.body.Subject() == Some(r.review))
    && (forall i, j | 0 <= i < j < |r.events| :: r.events[i].seqNo != r.events[j].seqNo)
  }

  /** Every open in flight has its recording; nothing is opened before the first subscription. */
  ghost predicate RecordingsFine(c: State) {
    && (forall id | id in c.inFlight && c.inFlight[id].WaitSnapshot? ::
          id in c.snapshotEvents && c.snapshotEvents[id].review == c.inFlight[id].review)
    && (forall id | id in c.snapshotEvents :: Revised(c.snapshotEvents[id]))
    && (c.snapshotEvents != map[] || c.committed.Some? ==> c.connection.LastSeq().Some?)
  }

  /** The recording holds the revision events of its review between a snapshot and the cursor. */
  ghost predicate Heard(log: seq<Event>, r: Recording, m: nat, last: nat) {
    forall j: nat | m <= j < last && Mine(log, r.review, j) && IsRevision(log[j].body) :: log[j] in r.events
  }

  ghost predicate AllHeard(w: World) {
    forall id: nat, s | Travelling(w, id, s) && id in w.client.snapshotEvents ::
      Heard(w.log, w.client.snapshotEvents[id], s.cursor, Cursor(w.client))
  }

  ghost predicate Sound(w: World) { CopyFine(w.client, w.log) && RecordingsFine(w.client) && AllHeard(w) }

  /** Nothing new was confirmed, recorded or opened. */
  ghost predicate Quietly(c: State, d: State) {
    && Cursor(d) == Cursor(c) && (c.connection.LastSeq().Some? ==> d.connection.LastSeq().Some?)
    && (d.committed == c.committed || d.committed.None?)
    && (forall id | id in d.snapshotEvents :: id in c.snapshotEvents && d.snapshotEvents[id] == c.snapshotEvents[id])
    && (forall id | id in d.inFlight && d.inFlight[id].WaitSnapshot? ::
          id in c.inFlight && d.inFlight[id] == c.inFlight[id] && (id in c.snapshotEvents ==> id in d.snapshotEvents))
    && (d.latestOpen == c.latestOpen || d.latestOpen.None?)
  }

  ghost predicate Extends(log: seq<Event>, more: seq<Event>) { |log| <= |more| && more[..|log|] == log }

  /** Every snapshot on its way was already, or was taken at the end of the log just now. */
  ghost predicate Sends(w: World, x: World) {
    forall id: nat, s | Travelling(x, id, s) :: Travelling(w, id, s) || s.cursor == |x.log|
  }

  lemma HeardSame(log: seq<Event>, more: seq<Event>, r: Recording, m: nat, last: nat)
    requires Heard(log, r, m, last) && Extends(log, more) && last <= |log|
    ensures Heard(more, r, m, last)
  {
    forall j: nat | m <= j < last && Mine(more, r.review, j) && IsRevision(more[j].body)
      ensures more[j] in r.events
    {
      assert more[..|log|][j] == log[j];
      assert Mine(log, r.review, j);
    }
  }

  lemma QuietSound(w: World, x: World)
    requires Sound(w) && Quietly(w.client, x.client) && Extends(w.log, x.log) && Sends(w, x)
             && Cursor(w.client) <= |w.log|
    ensures Sound(x)
  {
    hide Shapely, Backed, Revised, Heard;
    if x.client.committed.Some? {
      BackedGrows(w.log, x.log, x.client.committed.value);
    }
    forall id: nat, s | Travelling(x, id, s) && id in x.client.snapshotEvents
      ensures Heard(x.log, x.client.snapshotEvents[id], s.cursor, Cursor(x.client))
    {
      if Travelling(w, id, s) {
        HeardSame(w.log, x.log, w.client.snapshotEvents[id], s.cursor, Cursor(w.client));
      } else {
        HeardNothing(x.log, x.client.snapshotEvents[id], s.cursor, Cursor(x.client));
      }
    }
  }

  lemma HeardNothing(log: seq<Event>, r: Recording, m: nat, last: nat)
    requires last <= m
    ensures Heard(log, r, m, last)
  {
  }

  /** A new open starts an empty recording; no snapshot answers it yet. */
  lemma AskSound(w: World, d: State, review: ReviewId)
    requires Sound(w) && w.client.connection.LastSeq().Some? && Truthful(w)
    requires var c := w.client;
             && d.connection == c.connection && d.committed == c.committed
             && d.snapshotEvents == c.snapshotEvents[c.nextRequest := Recording(review, [])]
             && d.inFlight == c.inFlight[c.nextRequest := WaitSnapshot(review)]
    ensures forall requests :: Sound(w.(client := d, requests := requests))
  {
    hide Shapely, Backed, Heard;
    forall requests
      ensures Sound(w.(client := d, requests := requests))
    {
      var x := w.(client := d, requests := requests);
      forall id: nat, s | Travelling(x, id, s) && id in d.snapshotEvents
        ensures Heard(x.log, d.snapshotEvents[id], s.cursor, Cursor(d))
      {
        assert Travelling(w, id, s);
      }
    }
  }

  // ---- events taken live ----------------------------------------------------

  lemma RecordedRevised(r: Recording, e: Event)
    requires Revised(r)
    ensures Revised(Recorded(r, e)) && Recorded(r, e).review == r.review
  {
  }

  lemma RecordedHears(log: seq<Event>, r: Recording, m: nat, last: nat)
    requires Heard(log, r, m, last) && last < |log| && Numbered(log) && Delivered(log, r.events, last)
    ensures Heard(log, Recorded(r, log[last]), m, last + 1)
  {
    var e := log[last];
    forall i | 0 <= i < |r.events|
      ensures r.events[i].seqNo != e.seqNo
    {
      assert r.events[i] in r.events;
    }
  }

  /** What the next event of the log leaves: the copy of its review moves by it, recordings note it. */
  ghost predicate Taken(c: State, e: Event, d: State) {
    && (d.committed.Some? ==>
       c.committed.Some?
       && (d.committed == c.committed || (d.committed.value == ApplyEvent(c.committed.value, e))))
    && (forall id | id in d.snapshotEvents ::
       id in c.snapshotEvents && d.snapshotEvents[id] == Recorded(c.snapshotEvents[id], e))
    && (forall id | id in d.inFlight && d.inFlight[id].WaitSnapshot? ::
          id in c.inFlight && d.inFlight[id] == c.inFlight[id] && (id in c.snapshotEvents ==> id in d.snapshotEvents))
    && d.latestOpen == c.latestOpen
  }

  lemma TakenSound(w: World, x: World)
    requires Sound(w) && Landable(w) && Numbered(w.log) && Cursor(w.client) < |w.log|
             && Taken(w.client, w.log[Cursor(w.client)], x.client)
    requires x.client.connection.LastSeq() == Some(Cursor(w.client) + 1) && x.log == w.log
             && forall id: nat, s | Travelling(x, id, s) :: Travelling(w, id, s)
    ensures Sound(x)
  {
    hide Shapely, Backed, Revised, Heard, ApplyEvent, Recorded, Truthful, Covering;
    var c, d, e, last := w.client, x.client, w.log[Cursor(w.client)], Cursor(w.client);
    if d.committed.Some? {
      EventFine(w.log, c.committed.value, e);
    }
    forall id | id in d.snapshotEvents
      ensures Revised(d.snapshotEvents[id])
    {
      RecordedRevised(c.snapshotEvents[id], e);
    }
    forall id | id in d.inFlight && d.inFlight[id].WaitSnapshot?
      ensures id in d.snapshotEvents && d.snapshotEvents[id].review == d.inFlight[id].review
    {
      RecordedRevised(c.snapshotEvents[id], e);
    }
    forall id: nat, s | Travelling(x, id, s) && id in d.snapshotEvents
      ensures Heard(x.log, d.snapshotEvents[id], s.cursor, Cursor(d))
    {
      assert Travelling(w, id, s);
      RecordedHears(w.log, c.snapshotEvents[id], s.cursor, last);
    }
  }

  lemma LiveTakes(c: State, e: Event)
    ensures Taken(c, e, ApplyLive(c, e))
  {
    hide ApplyEvent, Overlay, Recorded;
  }

  // ---- an install -----------------------------------------------------------

  /** What an installed snapshot is made of keeps its records backed. */
  lemma InstalledFine(w: World, id: nat, s: Snapshot)
    requires Sound(w) && Landable(w) && Numbered(w.log) && Travelling(w, id, s)
    ensures Shapely(Installed(w.client, id, s)) && Backed(w.log, Installed(w.client, id, s))
    ensures Installed(w.client, id, s).review.id == s.review.id
  {
    hide Shapely, Backed, ApplyEvent;
    var c := w.client;
    FoldFine(w.log, w.genesis[s.review.id].(cursor := s.cursor), s.cursor);
    var events := if id in c.snapshotEvents then Sorted(c.snapshotEvents[id].events, (e: Event) => e.seqNo) else [];
    forall e | e in events
      ensures FromLog(w.log, e, |w.log|)
    {
      assert e in multiset(events);
      assert e in c.snapshotEvents[id].events;
    }
    ReplayFine(w.log, s, events);
    var caughtUp := if id in c.snapshotEvents && c.reference.None? then ReplayNewer(s, events) else s;
    if SameReview(c, s) {
      BackedRecords(w.log, c.committed.value);
      MergeFine(w.log, caughtUp, c.committed.value.suggestions);
    }
  }

  lemma BackedRecords(log: seq<Event>, s: Snapshot)
    requires Backed(log, s)
    ensures forall i | 0 <= i < |s.suggestions| :: BackedRecord(log, s.review.id, s.suggestions[i])
  {
  }

  lemma InstallParts(c: State, id: nat, s: Snapshot)
    requires Installs(c, id, s)
    ensures var d := OnSnapshot(c, id, s);
            && d.inFlight == c.inFlight - {id} && d.snapshotEvents == c.snapshotEvents - {id}
            && d.connection == c.connection && d.latestOpen == c.latestOpen
            && d.committed == (if c.reference.None? then Some(Installed(c, id, s))
               else LandEvents(Installed(c, id, s), c.reference.value.events))
  {
    hide Installed, Overlay;
    var d := InstallSnapshot(c, id, s);
    assert d.committed == Some(Installed(c, id, s)) && d.reference == c.reference;
  }

  lemma InstallSound(w: World, x: World, id: nat, s: Snapshot)
    requires Sound(w) && Landable(w) && Numbered(w.log) && Travelling(w, id, s) && Installs(w.client, id, s)
    requires w.client.connection.LastSeq().Some?
    requires x.client == OnSnapshot(w.client, id, s) && x.log == w.log && forall i: nat, t | Travelling(x, i, t) ::
             Travelling(w, i, t)
    ensures Sound(x)
  {
    hide Shapely, Backed, Revised, Heard, ApplyEvent, Installed, OnSnapshot, Truthful, Covering;
    var c := w.client;
    InstallParts(c, id, s);
    InstalledFine(w, id, s);
    if c.reference.Some? {
      LandFine(w.log, Installed(c, id, s), c.reference.value.events);
    }
    forall i: nat, t | Travelling(x, i, t) && i in x.client.snapshotEvents
      ensures Heard(x.log, x.client.snapshotEvents[i], t.cursor, Cursor(x.client))
    {
      assert Travelling(w, i, t);
    }
  }

  // ---- steps ----------------------------------------------------------------

  lemma LinkQuiet(c: State)
    ensures Quietly(c, Connect(c)) && Quietly(c, OnConnected(c)) && Quietly(c, OnDisconnected(c))
            && Quietly(c, c.(draft := true))
    ensures Quietly(c, CloseReview(c.(reference := None, latestOpen := None)))
  {
    hide Uncertain;
  }

  lemma SendQuiet(c: State, body: Body, ts: Timestamp)
    ensures Quietly(c, MutateWith(c, body, ts))
    ensures Quietly(c, MutateUntracked(c)) && Quietly(c, Requested(c, WaitSubscribe))
  {
    hide Overlay;
  }

  lemma StepQuiet(w: World, step: Step)
    requires !step.UserCloseDraft? && !step.UserOpenReference? && !step.UserOpen? && !step.PreviewReceipt?
    ensures Quietly(w.client, UserStep(w, step).client) && UserStep(w, step).log == w.log && Sends(w, UserStep(w, step))
  {
    hide Overlay, Quietly, MutateWith, OnDisconnected, Requested, MutateUntracked, CloseReview, Connect, OnConnected;
    hide ApplyAll;
    LinkQuiet(w.client);
    SendQuiet(w.client, if step.UserMutate? then step.body else WorkspaceChanged,
              if step.UserMutate? then step.ts else 0);
    StaysQuiet(w.client);
  }

  lemma StaysQuiet(c: State)
    ensures Quietly(c, c)
  {
  }

  /** Held-back events were delivered before: applying them adds nothing the recordings lack. */
  ghost predicate Drained(c: State, d: State, log: seq<Event>) {
    && CopyFine(d, log) && RecordingsFine(d) && d.connection == c.connection
    && forall id | id in d.snapshotEvents ::
         && id in c.snapshotEvents && d.snapshotEvents[id].review == c.snapshotEvents[id].review
         && forall e | e in c.snapshotEvents[id].events :: e in d.snapshotEvents[id].events
  }

  lemma {:induction false} DrainSound(c: State, log: seq<Event>, events: seq<Event>)
    requires CopyFine(c, log) && RecordingsFine(c) && forall e | e in events :: FromLog(log, e, |log|)
    ensures Drained(c, ApplyAll(c, events), log)
    decreases |events|
  {
    hide Shapely, Backed, Revised, ApplyEvent, ApplyLive;
    if events != [] {
      var init, e := events[..|events| - 1], events[|events| - 1];
      DrainSound(c, log, init);
      DrainOneSound(c, ApplyAll(c, init), log, e);
    }
  }

  lemma DrainOneSound(c: State, mid: State, log: seq<Event>, e: Event)
    requires Drained(c, mid, log) && FromLog(log, e, |log|)
    ensures Drained(c, ApplyLive(mid, e), log)
  {
    hide Shapely, Backed, Revised, ApplyEvent, ApplyLive, Recorded;
    var d := ApplyLive(mid, e);
    LiveTakes(mid, e);
    Convergence.ApplyLiveConnection(mid, e);
    if d.committed.Some? {
      EventFine(log, mid.committed.value, e);
    }
    forall id | id in d.snapshotEvents
      ensures Revised(d.snapshotEvents[id]) && d.snapshotEvents[id].review == c.snapshotEvents[id].review
      ensures forall x | x in c.snapshotEvents[id].events :: x in d.snapshotEvents[id].events
    {
      RecordedRevised(mid.snapshotEvents[id], e);
      RecordedKeeps(mid.snapshotEvents[id], e);
    }
  }

  lemma RecordedKeeps(r: Recording, e: Event)
    ensures forall x | x in r.events :: x in Recorded(r, e).events
    ensures Recorded(r, e).review == r.review
  {
  }

  lemma CloseDraftSound(w: World)
    requires Sound(w) && Landable(w) && Convergence.Paced(w) && w.client.draft
    ensures Sound(UserStep(w, UserCloseDraft))
  {
    hide Shapely, Backed, Revised, ApplyAll, ApplyEvent, Truthful, Covering;
    var c, x := w.client, UserStep(w, UserCloseDraft);
    DrainSound(c.(draft := false, deferred := []), w.log, c.deferred);
    forall id: nat, s | Travelling(x, id, s) && id in x.client.snapshotEvents
      ensures Heard(x.log, x.client.snapshotEvents[id], s.cursor, Cursor(x.client))
    {
      assert Travelling(w, id, s);
      assert Heard(w.log, c.snapshotEvents[id], s.cursor, Cursor(c));
    }
  }

  /** A preview reports a receipt of the log. */
  ghost predicate Honest(w: World, step: Step) {
    step.PreviewReceipt? && w.client.committed.Some? ==>
      HeldFrom(w.log, w.client.committed.value.review.id, step.comment, step.receipt, |w.log|)
  }

  lemma ReceiveFine(log: seq<Event>, s: Snapshot, id: CommentId, r: Receipt)
    requires Shapely(s) && Backed(log, s) && HeldFrom(log, s.review.id, id, r, |log|)
    ensures Shapely(Receive(s, id, r)) && Backed(log, Receive(s, id, r))
  {
    SameShapeShapely(s, Receive(s, id, r));
  }

  lemma PreviewSound(w: World, step: Step)
    requires Sound(w) && step.PreviewReceipt? && Honest(w, step)
    ensures Sound(UserStep(w, step))
  {
    hide Shapely, Backed, Revised, Heard, Overlay, Receive;
    var x := UserStep(w, step);
    if w.client.committed.Some? {
      ReceiveFine(w.log, w.client.committed.value, step.comment, step.receipt);
    }
    forall id: nat, s | Travelling(x, id, s) && id in x.client.snapshotEvents
      ensures Heard(x.log, x.client.snapshotEvents[id], s.cursor, Cursor(x.client))
    {
      assert Travelling(w, id, s);
    }
  }

  lemma OpenSound(w: World, step: Step)
    requires Sound(w) && Truthful(w) && (step.UserOpen? || step.UserOpenReference?)
    ensures Sound(UserStep(w, step))
  {
    hide Sound, Truthful;
    var c, review := w.client, step.review;
    if c.connection.Subscribed? {
      AskSound(w, OpenReview(c, review), review);
      AskSound(w, OpenReference(c, review), review);
    }
  }

  lemma UserSound(w: World, step: Step)
    requires Sound(w) && Landable(w) && Convergence.Paced(w) && Honest(w, step)
    ensures Sound(UserStep(w, step))
  {
    hide Sound, Truthful, Covering, Honest, Quietly, ApplyAll, Overlay;
    if step.UserCloseDraft? {
      if w.client.draft { CloseDraftSound(w); }
    } else if step.PreviewReceipt? {
      PreviewSound(w, step);
    } else if step.UserOpen? || step.UserOpenReference? {
      OpenSound(w, step);
    } else {
      StepQuiet(w, step);
      WholeLog(w.log);
      QuietSound(w, UserStep(w, step));
    }
  }

  lemma WholeLog(log: seq<Event>)
    ensures Extends(log, log)
  {
    assert log[..|log|] == log;
  }

  lemma DaemonSound(w: World, step: Step)
    requires Sound(w) && Landable(w) && Convergence.Paced(w) && IdsBelow(w)
    ensures Sound(DaemonStep(w, step))
  {
    hide Sound, Quietly, Truthful, Covering;
    var x := DaemonStep(w, step);
    DaemonStands(w, step);
    StaysQuiet(w.client);
    forall id: nat, s | Travelling(x, id, s)
      ensures Travelling(w, id, s) || s.cursor == |x.log|
    {
      if !Travelling(w, id, s) {
        DaemonSends(w, step, id, s);
      }
    }
    assert Sends(w, x);
    QuietSound(w, x);
  }

  lemma ErrorQuiet(c: State, id: nat, error: RpcError)
    ensures Quietly(c, OnError(c, id, error))
  {
    hide Overlay;
  }

  lemma StaleQuiet(c: State, id: nat, e: Event)
    requires !Convergence.Wins(c, id, e)
    ensures Quietly(c, OnCommitted(c, id, e))
  {
    hide Overlay, ApplyLive;
  }

  lemma UninstalledQuiet(c: State, id: nat, s: Snapshot)
    requires !Installs(c, id, s)
    ensures Quietly(c, OnSnapshot(c, id, s))
  {
    hide Overlay, Installed;
  }

  /** What is delivered leaves the travelling snapshots among those that were. */
  lemma DeliveredTravels(w: World)
    requires w.down != []
    ensures DeliverStep(w).log == w.log && forall id: nat, s | Travelling(DeliverStep(w), id, s) :: Travelling(w, id, s)
  {
    hide OnEvent, OnCommitted, OnError, OnSubscribed, OnSnapshot, Rebased;
  }

  lemma BroadcastSound(w: World)
    requires Sound(w) && Landable(w) && Convergence.Paced(w) && w.down != [] && w.down[0].Broadcast?
    ensures Sound(DeliverStep(w))
  {
    hide Sound, Quietly, Taken, Truthful, Covering, ApplyLive;
    var c, e, x := w.client, w.down[0].event, DeliverStep(w);
    DeliveredTravels(w);
    assert x.client == OnEvent(c, e);
    if TakesEvent(c, e) {
      BroadcastIsNext(w);
      Convergence.EventConnection(c, e);
      var moved := c.(connection := Advanced(c.connection, e.seqNo));
      LiveTakes(moved, e);
      MovedTakes(c, moved, e, ApplyLive(moved, e));
      TakenSound(w, x);
    } else {
      StaysQuiet(c);
      WholeLog(w.log);
      QuietSound(w, x);
    }
  }

  lemma BroadcastIsNext(w: World)
    requires Convergence.Paced(w) && w.down != [] && w.down[0].Broadcast? && TakesEvent(w.client, w.down[0].event)
    ensures var last := Cursor(w.client);
            && last < |w.log| && w.down[0].event == w.log[last] && w.log[last].seqNo == last + 1
               && w.client.connection.LastSeq() == Some(last)
  {
    assert w.down[0] in w.down;
  }

  lemma MovedTakes(c: State, moved: State, e: Event, d: State)
    requires moved == c.(connection := moved.connection) && Taken(moved, e, d)
    ensures Taken(c, e, d)
  {
  }

  lemma AnsweredTakes(c: State, e: Event, d: State, id: nat)
    requires Taken(c, e, d)
    ensures Taken(c, e, Answered(d, id))
  {
  }

  lemma CommittedSound(w: World)
    requires Sound(w) && Landable(w) && Convergence.Paced(w) && w.down != [] && w.down[0].CommittedReply?
    ensures Sound(DeliverStep(w))
  {
    hide Sound, Quietly, Taken, Truthful, Covering, ApplyLive;
    var c, m, x := w.client, w.down[0], DeliverStep(w);
    DeliveredTravels(w);
    assert x.client == OnCommitted(c, m.id, m.event);
    Convergence.CommittedConnection(c, m.id, m.event);
    if Convergence.Wins(c, m.id, m.event) {
      Convergence.WinnerIsNext(w);
      WinnerParts(c, m.id, m.event);
      var moved := c.(connection := Subscribed(m.event.seqNo));
      LiveTakes(moved, m.event);
      MovedTakes(c, moved, m.event, ApplyLive(moved, m.event));
      AnsweredTakes(c, m.event, ApplyLive(moved, m.event), m.id);
      TakenSound(w, x);
    } else {
      StaleQuiet(c, m.id, m.event);
      WholeLog(w.log);
      QuietSound(w, x);
    }
  }

  lemma SubscribedSound(w: World)
    requires Sound(w) && Landable(w) && Convergence.Paced(w) && w.down != [] && w.down[0].SubscribedReply?
    ensures Sound(DeliverStep(w))
  {
    hide Truthful, Covering, Shapely, Backed, Revised, Heard;
    var c, m, x := w.client, w.down[0], DeliverStep(w);
    DeliveredTravels(w);
    SubscribedParts(c, m.id, m.seqNo);
    if c.connection.LastSeq().Some? {
      SubscribedStays(w);
      WholeLog(w.log);
      QuietSound(w, x);
    }
  }

  lemma SubscribedStays(w: World)
    requires Convergence.Paced(w) && w.down != [] && w.down[0].SubscribedReply? && w.client.connection.LastSeq().Some?
    ensures var (d, sends) := OnSubscribed(w.client, w.down[0].id, w.down[0].seqNo);
            d.connection.LastSeq() == w.client.connection.LastSeq()
  {
    assert w.down[0] in w.down;
  }

  lemma SubscribedParts(c: State, id: nat, n: Seq)
    ensures var (d, sends) := OnSubscribed(c, id, n);
            && d.committed == c.committed && d.latestOpen == c.latestOpen
            && (d.snapshotEvents == c.snapshotEvents || d.snapshotEvents == c.snapshotEvents - {id})
            && (forall i | i in d.inFlight && d.inFlight[i].WaitSnapshot? ::
                  i in c.inFlight && d.inFlight[i] == c.inFlight[i]
                    && (i in c.snapshotEvents ==> i in d.snapshotEvents))
  {
    hide Readmitted;
    NoOpens(Resent(c.pending, c.nextRequest));
  }

  lemma {:induction false} NoOpens(sends: seq<Send>)
    ensures forall id | id in WaitingFor(sends) :: !WaitingFor(sends)[id].WaitSnapshot?
  {
    if sends != [] {
      NoOpens(sends[..|sends| - 1]);
    }
  }

  lemma SnapshotSound(w: World)
    requires Sound(w) && Landable(w) && Convergence.Paced(w) && w.down != [] && w.down[0].SnapshotReply?
    ensures Sound(DeliverStep(w))
  {
    hide Quietly, Truthful, Covering, OnSnapshot, Rebased, Shapely, Backed, Revised, Heard;
    var c, m, x := w.client, w.down[0], DeliverStep(w);
    DeliveredTravels(w);
    assert m in w.down && Travelling(w, m.id, m.snapshot);
    if Installs(c, m.id, m.snapshot) {
      InstallSound(w, x, m.id, m.snapshot);
    } else {
      UninstalledQuiet(c, m.id, m.snapshot);
      WholeLog(w.log);
      QuietSound(w, x);
    }
  }

  lemma DeliverSound(w: World)
    requires Sound(w) && Landable(w) && Convergence.Paced(w)
    ensures Sound(DeliverStep(w))
  {
    hide Sound, Quietly, Truthful, Covering;
    if w.down != [] {
      match w.down[0]
      case Broadcast(e) => BroadcastSound(w);
      case CommittedReply(id, e) => CommittedSound(w);
      case ErrorReply(id, error) =>
        DeliveredTravels(w);
        ErrorQuiet(w.client, id, error);
        WholeLog(w.log);
        QuietSound(w, DeliverStep(w));
      case SubscribedReply(id, n) => SubscribedSound(w);
      case SnapshotReply(id, s) => SnapshotSound(w);
    }
  }

  /** Every preview of the run reports a receipt of the log. */
  ghost predicate HonestRun(w: World, steps: seq<Step>) {
    forall n | 0 <= n < |steps| :: Honest(Run(w, steps[..n]), steps[n])
  }

  lemma {:induction false} RunSound(w: World, steps: seq<Step>, n: nat)
    requires Start(w) && HonestRun(w, steps) && n <= |steps|
    ensures Sound(Run(w, steps[..n])) && Landable(Run(w, steps[..n])) && Convergence.Paced(Run(w, steps[..n]))
    decreases n
  {
    hide Sound, Landable, Convergence.Paced, Honest;
    RunLandable(w, steps[..n]);
    Convergence.RunKeeps(w, steps[..n]);
    if n == 0 {
      StartSound(w);
    } else {
      var k := n - 1;
      RunSound(w, steps, k);
      var before, step := Run(w, steps[..k]), steps[k];
      assert steps[..n][..k] == steps[..k];
      assert Run(w, steps[..n]) == Next(before, step);
      NextSound(before, step, w, steps[..k]);
    }
  }

  lemma StartSound(w: World)
    requires Start(w)
    ensures Sound(w)
  {
  }

  lemma NextSound(before: World, step: Step, w: World, steps: seq<Step>)
    requires Start(w) && before == Run(w, steps) && Sound(before) && Landable(before) && Convergence.Paced(before)
             && Honest(before, step)
    ensures Sound(Next(before, step))
  {
    hide Sound, Landable, Convergence.Paced, Honest, UserStep, DaemonStep, DeliverStep;
    if step.Deliver? {
      DeliverSound(before);
    } else {
      UserSound(before, step);
      UserLandable(before, step);
      Convergence.UserPaced(before, step);
      AtMostOnce.RunKeeps(w, steps);
      AtMostOnce.UserKeeps(before, step);
      IdsStayBelow(UserStep(before, step));
      DaemonSound(UserStep(before, step), step);
    }
  }

  lemma IdsStayBelow(w: World)
    requires AtMostOnce.Invariant(w)
    ensures IdsBelow(w)
  {
  }
}
