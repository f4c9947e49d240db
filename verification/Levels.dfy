/**
 Runs without previews: no receipt of the open copy is ahead of both the cursor and the snapshot about to
 be installed, and none is older than a landing recorded for that install.
 */
module Levels {
  import opened Protocol
  import opened Events
  import opened Client
  import opened Session
  import opened Landing
  import opened ReferenceRuns
  import opened Receipts
  import Replay
  import AtMostOnce
  import Convergence
  import Shown = ShownIsOverlay

  /** Receipts beyond `m` are at most at `last`. */
  predicate Within(rs: seq<SuggestionRecord>, m: nat, last: nat) {
    forall i | 0 <= i < |rs| && rs[i].outcome.Applied? && m < rs[i].outcome.receipt.seqNo ::
        rs[i].outcome.receipt.seqNo <= last
  }

  ghost predicate Trails(w: World) {
    forall id: nat, s | Travelling(w, id, s) && Installs(w.client, id, s) && SameReview(w.client, s) ::
      Within(w.client.committed.value.suggestions, s.cursor, Cursor(w.client))
  }

  /** A record with a receipt has the newest of the recorded landings, or a newer one. */
  predicate NewestOf(rs: seq<SuggestionRecord>, events: seq<Event>) {
    forall i, e | 0 <= i < |rs| && rs[i].outcome.Applied? && e in events && e.body.SuggestionApplied?
        && e.body.commentId == rs[i].commentId ::
      e.seqNo <= rs[i].outcome.receipt.seqNo
  }

  ghost predicate Newest(c: State) {
    c.latestOpen.Some? && c.latestOpen.value in c.snapshotEvents && c.committed.Some?
    && c.committed.value.review.id == c.snapshotEvents[c.latestOpen.value].review ==>
      NewestOf(c.committed.value.suggestions, c.snapshotEvents[c.latestOpen.value].events)
  }

  /** The copy is as new as what was recorded; unless a preview ran ahead, it also trails the cursor. */
  ghost predicate Level(w: World, trailing: bool) { Newest(w.client) && (trailing ==> Trails(w)) }

  lemma BackedBelow(log: seq<Event>, s: Snapshot, m: nat, last: nat)
    requires Backed(log, s) && |log| <= m
    ensures Within(s.suggestions, m, last)
  {
    forall i | 0 <= i < |s.suggestions| && s.suggestions[i].outcome.Applied?
      ensures s.suggestions[i].outcome.receipt.seqNo <= |log|
    {
      assert BackedRecord(log, s.review.id, s.suggestions[i]);
    }
  }

  lemma QuietLevel(w: World, x: World, trailing: bool)
    requires Level(w, trailing) && Sound(w) && Quietly(w.client, x.client) && Extends(w.log, x.log) && Sends(w, x)
    ensures Level(x, trailing)
  {
    hide Shapely, Backed, Within, NewestOf, RecordingsFine, AllHeard;
    forall id: nat, s | trailing && Travelling(x, id, s) && Installs(x.client, id, s) && SameReview(x.client, s)
      ensures Within(x.client.committed.value.suggestions, s.cursor, Cursor(x.client))
    {
      if !Travelling(w, id, s) {
        BackedBelow(w.log, w.client.committed.value, s.cursor, Cursor(x.client));
      }
    }
  }

  lemma AskLevel(w: World, d: State, review: ReviewId, trailing: bool)
    requires Level(w, trailing) && Truthful(w)
    requires var c := w.client;
             && d.connection == c.connection && d.committed == c.committed && d.latestOpen == Some(c.nextRequest)
             && d.snapshotEvents == c.snapshotEvents[c.nextRequest := Recording(review, [])]
    ensures forall requests :: Level(w.(client := d, requests := requests), trailing)
  {
    hide Within;
    forall requests
      ensures Level(w.(client := d, requests := requests), trailing)
    {
      var x := w.(client := d, requests := requests);
      forall id: nat, s | Travelling(x, id, s)
        ensures !Installs(d, id, s)
      {
        assert Travelling(w, id, s);
      }
    }
  }

  // ---- the next event -------------------------------------------------------

  lemma WithinNext(s: Snapshot, e: Event, m: nat, last: nat)
    requires Within(s.suggestions, m, last) && e.seqNo == last + 1
    ensures Within(ApplyEvent(s, e).suggestions, m, last + 1)
  {
    hide ApplyEvent, Created;
    if e.body.SuggestionApplied? {
      LandingWrites(s, e);
    } else if e.body.CommentCreated? {
      CreationIs(s, e);
      CreationAdds(s, e.body.comment);
    } else {
      OtherWrites(s, e);
    }
  }

  /** A landing leaves its receipt, or a newer one, on every record of its comment. */
  lemma LandingLeaves(s: Snapshot, e: Event, i: nat)
    requires Shapely(s) && e.body.SuggestionApplied? && e.body.reviewId == s.review.id
    requires i < |s.suggestions| && s.suggestions[i].commentId == e.body.commentId
    ensures var r := ApplyEvent(s, e).suggestions[i]; r.outcome.Applied? && e.seqNo <= r.outcome.receipt.seqNo
  {
    var j := RecordAt(s.suggestions, e.body.commentId);
    assert i == j;
  }

  lemma NewestNext(s: Snapshot, e: Event, events: seq<Event>, last: nat)
    requires Shapely(s) && NewestOf(s.suggestions, events) && e.seqNo == last + 1
             && e.body.Subject() == Some(s.review.id)
    requires forall x | x in events :: x.seqNo <= last
    ensures NewestOf(ApplyEvent(s, e).suggestions, events) && NewestOf(ApplyEvent(s, e).suggestions, events + [e])
  {
    hide ApplyEvent, Created, Shapely;
    var t := ApplyEvent(s, e);
    if e.body.SuggestionApplied? {
      LandingWrites(s, e);
      forall i | 0 <= i < |t.suggestions| && t.suggestions[i].commentId == e.body.commentId
        ensures t.suggestions[i].outcome.Applied? && e.seqNo <= t.suggestions[i].outcome.receipt.seqNo
      {
        LandingLeaves(s, e, i);
      }
    } else if e.body.CommentCreated? {
      CreationIs(s, e);
      CreationAdds(s, e.body.comment);
    } else {
      OtherWrites(s, e);
    }
  }

  lemma ForeignNewest(s: Snapshot, e: Event)
    requires e.body.Subject() != Some(s.review.id)
    ensures ApplyEvent(s, e) == s
  {
  }

  /** A live event that concerns a review with an open copy is folded into it at once, unless it is a refresh. */
  ghost predicate Moves(c: State, e: Event, d: State) {
    c.committed.Some? && d.committed.Some? && e.body.Subject() == Some(c.committed.value.review.id)
      && !e.body.TargetsResolved? ==>
      d.committed.value == ApplyEvent(c.committed.value, e)
  }

  lemma TakenNewest(c: State, e: Event, d: State, last: nat)
    requires Newest(c) && Taken(c, e, d) && Moves(c, e, d) && e.seqNo == last + 1
    requires c.committed.Some? ==> Shapely(c.committed.value)
    requires forall id | id in c.snapshotEvents ::
             Revised(c.snapshotEvents[id]) && forall x | x in c.snapshotEvents[id].events :: x.seqNo <= last
    ensures Newest(d)
  {
    hide ApplyEvent, Shapely, Revised, NewestOf;
    if d.latestOpen.Some? && d.latestOpen.value in d.snapshotEvents && d.committed.Some?
       && d.committed.value.review.id == d.snapshotEvents[d.latestOpen.value].review {
      var s, t, r := c.committed.value, d.committed.value, c.snapshotEvents[c.latestOpen.value];
      RecordedRevised(r, e);
      Replay.EventIsOps(s, e);
      if e.body.Subject() != Some(s.review.id) {
        ForeignNewest(s, e);
      } else if t != s {
        NewestNext(s, e, r.events, last);
      } else if e.body.TargetsResolved? {
        RefreshNewest(s.suggestions, r.events, e);
      } else {
        NewestNext(s, e, r.events, last);
      }
    }
  }

  lemma RefreshNewest(rs: seq<SuggestionRecord>, events: seq<Event>, e: Event)
    requires NewestOf(rs, events) && !e.body.SuggestionApplied?
    ensures NewestOf(rs, events + [e])
  {
  }

  lemma TakenLevel(w: World, x: World, trailing: bool)
    requires Level(w, trailing) && Sound(w) && Landable(w) && Numbered(w.log) && Cursor(w.client) < |w.log|
    requires Taken(w.client, w.log[Cursor(w.client)], x.client) && Moves(w.client, w.log[Cursor(w.client)], x.client)
    requires x.client.connection.LastSeq() == Some(Cursor(w.client) + 1) && x.log == w.log
    requires forall id: nat, s | Travelling(x, id, s) :: Travelling(w, id, s)
    ensures Level(x, trailing)
  {
    hide ApplyEvent, Shapely, Backed, Revised, NewestOf, Truthful, Covering, AllHeard, Within;
    var c, d, last := w.client, x.client, Cursor(w.client);
    var e := w.log[last];
    TakenNewest(c, e, d, last);
    forall id: nat, s | trailing && Travelling(x, id, s) && Installs(d, id, s) && SameReview(d, s)
      ensures Within(d.committed.value.suggestions, s.cursor, Cursor(d))
    {
      Replay.EventIsOps(c.committed.value, e);
      WithinNext(c.committed.value, e, s.cursor, last);
      WithinLater(c.committed.value.suggestions, s.cursor, last);
    }
  }

  lemma WithinLater(rs: seq<SuggestionRecord>, m: nat, last: nat)
    requires Within(rs, m, last)
    ensures Within(rs, m, last + 1)
  {
  }

  lemma LiveMoves(c: State, issued: map<nat, Body>, e: Event)
    requires Shown.Coherent(c, issued)
    ensures Moves(c, e, ApplyLive(c, e))
  {
    hide ApplyEvent, ApplyLive;
    if c.committed.Some? && e.body.Subject() == Some(c.committed.value.review.id) {
      Convergence.LiveEnters(c, issued, e);
    }
  }

  // ---- steps ----------------------------------------------------------------

  /** Refreshes drain into the copy and the recordings without touching receipts. */
  ghost predicate Refreshed(c: State, d: State) {
    && (d.committed.Some? ==>
          && c.committed.Some? && d.committed.value.review.id == c.committed.value.review.id
          && d.committed.value.suggestions == c.committed.value.suggestions)
    && d.latestOpen == c.latestOpen
    && (forall id | id in d.snapshotEvents ::
          && id in c.snapshotEvents && d.snapshotEvents[id].review == c.snapshotEvents[id].review
          && forall e | e in d.snapshotEvents[id].events && e.body.SuggestionApplied? ::
             e in c.snapshotEvents[id].events)
    && (forall id | id in d.inFlight :: id in c.inFlight && d.inFlight[id] == c.inFlight[id])
    && d.connection == c.connection
  }

  lemma RefreshedByOne(c: State, e: Event)
    requires e.body.TargetsResolved?
    ensures Refreshed(c, ApplyLive(c, e))
  {
    hide ApplyEvent, ApplyLive, Recorded;
    LiveTakes(c, e);
    LiveRecords(c, e);
    if c.committed.Some? {
      OtherWrites(c.committed.value, e);
    }
    forall id | id in c.snapshotEvents
      ensures Recorded(c.snapshotEvents[id], e).review == c.snapshotEvents[id].review
      ensures forall x | x in Recorded(c.snapshotEvents[id], e).events && x.body.SuggestionApplied? ::
              x in c.snapshotEvents[id].events
    {
      RecordedOnly(c.snapshotEvents[id], e);
    }
  }

  lemma RecordedOnly(r: Recording, e: Event)
    ensures Recorded(r, e).review == r.review && forall x | x in Recorded(r, e).events :: x in r.events || x == e
  {
  }

  lemma {:induction false} RefreshedByAll(c: State, events: seq<Event>)
    requires forall e | e in events :: e.body.TargetsResolved?
    ensures Refreshed(c, ApplyAll(c, events))
    decreases |events|
  {
    hide ApplyEvent, ApplyLive;
    if events != [] {
      RefreshedByAll(c, events[..|events| - 1]);
      RefreshedByOne(ApplyAll(c, events[..|events| - 1]), events[|events| - 1]);
    }
  }

  lemma CloseDraftLevel(w: World, trailing: bool)
    requires Level(w, trailing) && Shown.Invariant(w) && w.client.draft
    ensures Level(UserStep(w, UserCloseDraft), trailing)
  {
    hide ApplyAll, ApplyEvent, Overlay, Within;
    var c, x := w.client, UserStep(w, UserCloseDraft);
    RefreshedByAll(c.(draft := false, deferred := []), c.deferred);
    RefreshedNewest(c, x.client);
    forall id: nat, s | trailing && Travelling(x, id, s) && Installs(x.client, id, s) && SameReview(x.client, s)
      ensures Within(x.client.committed.value.suggestions, s.cursor, Cursor(x.client))
    {
      assert Travelling(w, id, s) && Installs(c, id, s);
    }
  }

  lemma RefreshedNewest(c: State, d: State)
    requires Newest(c) && Refreshed(c, d)
    ensures Newest(d)
  {
  }

  lemma OpenLevel(w: World, step: Step, trailing: bool)
    requires Level(w, trailing) && Truthful(w) && (step.UserOpen? || step.UserOpenReference?)
    ensures Level(UserStep(w, step), trailing)
  {
    hide Level, Truthful;
    var c, review := w.client, step.review;
    if c.connection.Subscribed? {
      AskLevel(w, OpenReview(c, review), review, trailing);
      AskLevel(w, OpenReference(c, review), review, trailing);
    }
  }

  /** A preview does not report an older receipt than that of a landing already delivered. */
  ghost predicate Fresh(w: World, step: Step) {
    step.PreviewReceipt? && w.client.committed.Some? ==>
      forall k | 0 <= k < Cursor(w.client) && k < |w.log| ::
          LandsOn(w.log[k], w.client.committed.value.review.id, step.comment) ==> k < step.receipt.seqNo
  }

  predicate LandsOn(e: Event, review: ReviewId, id: CommentId) {
    e.body.SuggestionApplied? && e.body.reviewId == review && e.body.commentId == id
  }

  lemma ReceiveKeepsReview(s: Snapshot, id: CommentId, r: Receipt)
    ensures Receive(s, id, r).review == s.review
  {
  }

  lemma ReceiveNewest(s: Snapshot, events: seq<Event>, id: CommentId, r: Receipt)
    requires NewestOf(s.suggestions, events) && forall e | e in events && LandsOn(e, s.review.id, id) ::
             e.seqNo <= r.seqNo
    requires forall e | e in events :: e.body.Subject() == Some(s.review.id)
    ensures NewestOf(Receive(s, id, r).suggestions, events)
  {
  }

  lemma PreviewLevel(w: World, step: Step)
    requires Level(w, false) && Sound(w) && Landable(w) && step.PreviewReceipt? && Fresh(w, step)
    ensures Level(UserStep(w, step), false)
  {
    hide Overlay, Receive, NewestOf, Truthful, Covering, Shapely, Backed, Heard;
    var c := w.client;
    if c.committed.Some? {
      ReceiveKeepsReview(c.committed.value, step.comment, step.receipt);
    }
    if c.committed.Some? && c.latestOpen.Some? && c.latestOpen.value in c.snapshotEvents
       && c.committed.value.review.id == c.snapshotEvents[c.latestOpen.value].review {
      var events := c.snapshotEvents[c.latestOpen.value].events;
      forall e | e in events && LandsOn(e, c.committed.value.review.id, step.comment)
        ensures e.seqNo <= step.receipt.seqNo
      {
        assert FromLog(w.log, e, Cursor(c));
      }
      ReceiveNewest(c.committed.value, events, step.comment, step.receipt);
    }
  }

  lemma UserLevel(w: World, step: Step, trailing: bool)
    requires Level(w, trailing) && Sound(w) && Landable(w) && Shown.Invariant(w)
    requires !(trailing && step.PreviewReceipt?) && Fresh(w, step)
    ensures Level(UserStep(w, step), trailing)
  {
    hide Level, Sound, Truthful, Covering, Quietly, ApplyAll, Overlay, Shown.Invariant;
    if step.UserCloseDraft? {
      if w.client.draft { CloseDraftLevel(w, trailing); }
    } else if step.PreviewReceipt? {
      if !trailing { PreviewLevel(w, step); }
    } else if step.UserOpen? || step.UserOpenReference? {
      OpenLevel(w, step, trailing);
    } else {
      StepQuiet(w, step);
      WholeLog(w.log);
      QuietLevel(w, UserStep(w, step), trailing);
    }
  }

  lemma DaemonLevel(w: World, step: Step, trailing: bool)
    requires Level(w, trailing) && Sound(w) && Landable(w) && Convergence.Paced(w) && IdsBelow(w)
    ensures Level(DaemonStep(w, step), trailing)
  {
    hide Level, Sound, Quietly, Truthful, Covering;
    var x := DaemonStep(w, step);
    DaemonStands(w, step);
    StaysQuiet(w.client);
    forall id: nat, s | Travelling(x, id, s)
      ensures Travelling(w, id, s) || s.cursor == |x.log|
    {
      if !Travelling(w, id, s) {
        DaemonSends(w, step, id, s);
      }
    }
    assert Sends(w, x);
    QuietLevel(w, x, trailing);
  }

  lemma AnsweredMoves(c: State, e: Event, d: State, id: nat)
    requires Moves(c, e, d)
    ensures Moves(c, e, Answered(d, id))
  {
  }

  lemma MovedMoves(c: State, moved: State, e: Event, d: State)
    requires moved == c.(connection := moved.connection) && Moves(moved, e, d)
    ensures Moves(c, e, d)
  {
  }

  lemma MovedCoheres(c: State, issued: map<nat, Body>, conn: Connection)
    requires Shown.Coherent(c, issued)
    ensures Shown.Coherent(c.(connection := conn), issued)
  {
  }

  lemma BroadcastLevel(w: World, trailing: bool)
    requires Level(w, trailing) && Sound(w) && Landable(w) && Convergence.Paced(w) && Shown.Invariant(w) && w.down != []
             && w.down[0].Broadcast?
    ensures Level(DeliverStep(w), trailing)
  {
    hide Level, Sound, Quietly, Taken, Moves, Truthful, Covering, ApplyLive, Shown.Coherent;
    var c, e, x := w.client, w.down[0].event, DeliverStep(w);
    DeliveredTravels(w);
    assert x.client == OnEvent(c, e);
    if TakesEvent(c, e) {
      BroadcastIsNext(w);
      Convergence.EventConnection(c, e);
      var moved := c.(connection := Advanced(c.connection, e.seqNo));
      LiveTakes(moved, e);
      MovedTakes(c, moved, e, ApplyLive(moved, e));
      MovedCoheres(c, w.issued, moved.connection);
      LiveMoves(moved, w.issued, e);
      MovedMoves(c, moved, e, ApplyLive(moved, e));
      TakenLevel(w, x, trailing);
    } else {
      StaysQuiet(c);
      WholeLog(w.log);
      QuietLevel(w, x, trailing);
    }
  }

  lemma CommittedLevel(w: World, trailing: bool)
    requires Level(w, trailing) && Sound(w) && Landable(w) && Convergence.Paced(w) && Shown.Invariant(w) && w.down != []
             && w.down[0].CommittedReply?
    ensures Level(DeliverStep(w), trailing)
  {
    hide Level, Sound, Quietly, Taken, Moves, Truthful, Covering, ApplyLive, Shown.Coherent;
    var c, m, x := w.client, w.down[0], DeliverStep(w);
    DeliveredTravels(w);
    assert x.client == OnCommitted(c, m.id, m.event);
    Convergence.CommittedConnection(c, m.id, m.event);
    if Convergence.Wins(c, m.id, m.event) {
      Convergence.WinnerIsNext(w);
      WinnerParts(c, m.id, m.event);
      var moved := c.(connection := Subscribed(m.event.seqNo));
      LiveTakes(moved, m.event);
      MovedTakes(c, moved, m.event, ApplyLive(moved, m.event));
      AnsweredTakes(c, m.event, ApplyLive(moved, m.event), m.id);
      MovedCoheres(c, w.issued, moved.connection);
      LiveMoves(moved, w.issued, m.event);
      MovedMoves(c, moved, m.event, ApplyLive(moved, m.event));
      AnsweredMoves(c, m.event, ApplyLive(moved, m.event), m.id);
      TakenLevel(w, x, trailing);
    } else {
      StaleQuiet(c, m.id, m.event);
      WholeLog(w.log);
      QuietLevel(w, x, trailing);
    }
  }

  lemma SubscribedLevel(w: World, trailing: bool)
    requires Level(w, trailing) && Sound(w) && Convergence.Paced(w) && w.down != [] && w.down[0].SubscribedReply?
    ensures Level(DeliverStep(w), trailing)
  {
    hide Shapely, Backed, Revised, Heard, Within, NewestOf;
    var c, m, x := w.client, w.down[0], DeliverStep(w);
    DeliveredTravels(w);
    SubscribedParts(c, m.id, m.seqNo);
    if c.connection.LastSeq().Some? {
      SubscribedStays(w);
      WholeLog(w.log);
      QuietLevel(w, x, trailing);
    }
  }

  /** An install uses up its open: nothing else may install before the next request. */
  lemma SnapshotLevel(w: World, trailing: bool)
    requires Level(w, trailing) && Sound(w) && w.down != [] && w.down[0].SnapshotReply?
    ensures Level(DeliverStep(w), trailing)
  {
    hide Quietly, OnSnapshot, Rebased, Shapely, Backed, Revised, Heard, Within, NewestOf;
    var c, m, x := w.client, w.down[0], DeliverStep(w);
    DeliveredTravels(w);
    if Installs(c, m.id, m.snapshot) {
      InstallParts(c, m.id, m.snapshot);
    } else {
      UninstalledQuiet(c, m.id, m.snapshot);
      WholeLog(w.log);
      QuietLevel(w, x, trailing);
    }
  }

  lemma DeliverLevel(w: World, trailing: bool)
    requires Level(w, trailing) && Sound(w) && Landable(w) && Convergence.Paced(w) && Shown.Invariant(w)
    ensures Level(DeliverStep(w), trailing)
  {
    hide Level, Sound, Quietly, Truthful, Covering, Shown.Invariant;
    if w.down != [] {
      match w.down[0]
      case Broadcast(e) => BroadcastLevel(w, trailing);
      case CommittedReply(id, e) => CommittedLevel(w, trailing);
      case ErrorReply(id, error) =>
        DeliveredTravels(w);
        ErrorQuiet(w.client, id, error);
        WholeLog(w.log);
        QuietLevel(w, DeliverStep(w), trailing);
      case SubscribedReply(id, n) => SubscribedLevel(w, trailing);
      case SnapshotReply(id, s) => SnapshotLevel(w, trailing);
    }
  }

  ghost predicate NoPreviews(steps: seq<Step>) { forall n | 0 <= n < |steps| :: !steps[n].PreviewReceipt? }

  ghost predicate FreshRun(w: World, steps: seq<Step>) {
    HonestRun(w, steps) && forall n | 0 <= n < |steps| :: Fresh(Run(w, steps[..n]), steps[n])
  }

  lemma NoPreviewsFresh(w: World, steps: seq<Step>)
    requires NoPreviews(steps)
    ensures FreshRun(w, steps)
  {
  }

  lemma {:induction false} RunLevel(w: World, steps: seq<Step>, n: nat, trailing: bool)
    requires Start(w) && FreshRun(w, steps) && (trailing ==> NoPreviews(steps)) && n <= |steps|
    ensures Level(Run(w, steps[..n]), trailing)
    decreases n
  {
    hide Level, Sound, Landable, Convergence.Paced, Shown.Invariant, Honest, Fresh;
    if n == 0 {
      StartLevel(w, trailing);
    } else {
      var k := n - 1;
      RunLevel(w, steps, k, trailing);
      RunSound(w, steps, k);
      Shown.RunKeeps(w, steps[..k]);
      var before, step := Run(w, steps[..k]), steps[k];
      assert steps[..n][..k] == steps[..k];
      assert Run(w, steps[..n]) == Next(before, step);
      NextLevel(before, step, w, steps[..k], trailing);
    }
  }

  lemma StartLevel(w: World, trailing: bool)
    requires Start(w)
    ensures Level(w, trailing)
  {
  }

  lemma NextLevel(before: World, step: Step, w: World, steps: seq<Step>, trailing: bool)
    requires Start(w) && before == Run(w, steps) && !(trailing && step.PreviewReceipt?) && Honest(before, step)
             && Fresh(before, step)
    requires Level(before, trailing) && Sound(before) && Landable(before) && Convergence.Paced(before)
             && Shown.Invariant(before)
    ensures Level(Next(before, step), trailing)
  {
    hide Level, Sound, Landable, Convergence.Paced, Shown.Invariant, UserStep, DaemonStep, DeliverStep;
    if step.Deliver? {
      DeliverLevel(before, trailing);
    } else {
      UserLevel(before, step, trailing);
      UserSound(before, step);
      UserLandable(before, step);
      Convergence.UserPaced(before, step);
      AtMostOnce.RunKeeps(w, steps);
      AtMostOnce.UserKeeps(before, step);
      IdsStayBelow(UserStep(before, step));
      DaemonLevel(UserStep(before, step), step, trailing);
    }
  }
}
