/** In every reachable state the displayed snapshot is the pending bodies folded over the confirmed one. */
module ShownIsOverlay {
  import opened Protocol
  import opened Events
  import opened Client
  import opened Session
  import Replay

  ghost predicate Coherent(c: State, issued: map<nat, Body>) {
    && (c.committed.Some? <==> c.shown.Some?)
    && (c.committed.Some? ==> c.shown.value == Overlay(c.committed.value, c.author, c.pending))
    && (c.committed.None? ==> c.pending == [] && c.deferred == [])
    && (c.deferred != [] ==> c.draft)
    && (forall d | d in c.deferred ::
       c.committed.Some? && Replay.IsRefresh(c.committed.value.review.id, d)
       && Genuine(c.me, issued, d))
    && (forall p | p in c.pending ::
          && c.committed.Some? && p.body.Subject() == Some(c.committed.value.review.id) && !p.body.TargetsResolved?
          && p.clientSeq in issued && issued[p.clientSeq] == p.body)
  }

  /** Our own events echo what was issued under their client sequence number. */
  predicate Genuine(me: ClientId, issued: map<nat, Body>, e: Event) {
    e.client == me ==> e.clientSeq in issued && Echoes(e.body, issued[e.clientSeq])
  }

  ghost predicate Invariant(w: World) {
    && Coherent(w.client, w.issued)
    && (forall s | s in w.issued :: s < w.client.nextClientSeq)
    && (forall e | e in w.log :: Genuine(w.client.me, w.issued, e))
    && (forall m | m in w.down && (m.Broadcast? || m.CommittedReply?) :: Genuine(w.client.me, w.issued, m.event))
    && (forall r | r in w.requests && r.send.SendMutate? ::
       r.send.clientSeq in w.issued && w.issued[r.send.clientSeq] == r.send.body)
  }

  // ---- snapshots keep their review ------------------------------------------

  lemma BodyKeepsId(s: Snapshot, meta: Meta, body: Body)
    ensures ApplyBody(s, meta, body).review.id == s.review.id
  {
  }

  lemma {:induction false} OverlayKeepsId(s: Snapshot, author: Author, pending: seq<Pending>)
    ensures Overlay(s, author, pending).review.id == s.review.id
  {
    if pending != [] {
      OverlayKeepsId(s, author, pending[..|pending| - 1]);
      var p := pending[|pending| - 1];
      BodyKeepsId(Overlay(s, author, pending[..|pending| - 1]), Meta(author, p.ts), p.body);
    }
  }

  lemma {:induction false} ReplayKeepsId(s: Snapshot, events: seq<Event>)
    ensures ReplayNewer(s, events).review.id == s.review.id
  {
    if events != [] {
      ReplayKeepsId(s, events[..|events| - 1]);
      Replay.EventIsOps(ReplayNewer(s, events[..|events| - 1]), events[|events| - 1]);
    }
  }

  lemma {:induction false} MergeKeepsId(s: Snapshot, earlier: seq<SuggestionRecord>)
    ensures MergeReceipts(s, earlier).review.id == s.review.id
  {
    if earlier != [] {
      MergeKeepsId(s, earlier[..|earlier| - 1]);
    }
  }

  lemma {:induction false} LandKeepsId(s: Snapshot, events: seq<Event>)
    ensures LandEvents(s, events).Some? ==> LandEvents(s, events).value.review.id == s.review.id
    decreases |events|
  {
    if events != [] {
      Replay.EventIsOps(s, events[0]);
      LandKeepsId(s, events[1..]);
      LandKeepsId(ApplyEvent(s, events[0]).(cursor := events[0].seqNo), events[1..]);
    }
  }

  // ---- client steps ---------------------------------------------------------

  /** What no committed event touches. */
  predicate SameClient(a: State, b: State) {
    a.me == b.me && a.author == b.author && a.nextClientSeq == b.nextClientSeq
  }

  lemma ApplyLiveSame(c: State, e: Event)
    ensures SameClient(c, ApplyLive(c, e))
  {
  }

  lemma {:induction false} ApplyAllSame(c: State, events: seq<Event>)
    ensures SameClient(c, ApplyAll(c, events))
  {
    if events != [] {
      ApplyAllSame(c, events[..|events| - 1]);
      ApplyLiveSame(ApplyAll(c, events[..|events| - 1]), events[|events| - 1]);
    }
  }

  lemma ApplyLiveCoheres(c: State, issued: map<nat, Body>, e: Event)
    requires Coherent(c, issued) && Genuine(c.me, issued, e)
    ensures Coherent(ApplyLive(c, e), issued)
    ensures c.committed.Some? ==>
              ApplyLive(c, e).committed.None?
                || ApplyLive(c, e).committed.value.review.id == c.committed.value.review.id
  {
    hide ApplyEvent, Overlay;
    if c.committed.Some? {
      var s := c.committed.value;
      OverlayKeepsId(s, c.author, c.pending);
      Replay.EventIsOps(s, e);
      var rest := Noted(c, e).pending;
      if rest != c.pending {
        RetiredConcernsOpen(c, issued, e);
      }
      OverlayKeepsId(s, c.author, rest);
    }
  }

  lemma WithoutShorter(pending: seq<Pending>, clientSeq: nat)
    ensures Without(pending, clientSeq) != pending ==> exists p :: p in pending && p.clientSeq == clientSeq
  {
    if forall p | p in pending :: p.clientSeq != clientSeq {
      WithoutAll(pending, clientSeq);
    }
  }

  lemma {:induction false} WithoutAll(pending: seq<Pending>, clientSeq: nat)
    requires forall p | p in pending :: p.clientSeq != clientSeq
    ensures Without(pending, clientSeq) == pending
  {
    if pending != [] {
      WithoutAll(pending[..|pending| - 1], clientSeq);
      assert pending[|pending| - 1] in pending;
    }
  }

  lemma RetiredConcernsOpen(c: State, issued: map<nat, Body>, e: Event)
    requires Coherent(c, issued) && Genuine(c.me, issued, e) && Noted(c, e).pending != c.pending
    ensures c.committed.Some? && e.body.Subject() == Some(c.committed.value.review.id) && !e.body.TargetsResolved?
  {
    WithoutShorter(c.pending, e.clientSeq);
  }

  lemma {:induction false} ApplyAllCoheres(c: State, issued: map<nat, Body>, events: seq<Event>)
    requires Coherent(c, issued) && forall e | e in events :: Genuine(c.me, issued, e)
    ensures Coherent(ApplyAll(c, events), issued)
    decreases |events|
  {
    if events != [] {
      ApplyAllCoheres(c, issued, events[..|events| - 1]);
      ApplyAllSame(c, events[..|events| - 1]);
      ApplyLiveCoheres(ApplyAll(c, events[..|events| - 1]), issued, events[|events| - 1]);
    }
  }

  lemma InstallCoheres(c: State, issued: map<nat, Body>, id: nat, s: Snapshot)
    requires Coherent(c, issued)
    ensures Coherent(OnSnapshot(c, id, s), issued)
  {
    if Installs(c, id, s) {
      InstalledKeepsId(c, id, s);
      var installed := InstallSnapshot(c, id, s);
      assert installed.committed == Some(Installed(c, id, s));
      assert Coherent(installed, issued);
      LandCoheres(installed, issued);
    }
  }

  lemma InstalledKeepsId(c: State, id: nat, s: Snapshot)
    ensures Installed(c, id, s).review.id == s.review.id
  {
    if id in c.snapshotEvents {
      var events := Sorted(c.snapshotEvents[id].events, (e: Event) => e.seqNo);
      ReplayKeepsId(s, events);
      if SameReview(c, s) {
        MergeKeepsId(ReplayNewer(s, events), c.committed.value.suggestions);
      }
    }
    if SameReview(c, s) {
      MergeKeepsId(s, c.committed.value.suggestions);
    }
  }

  lemma LandCoheres(c: State, issued: map<nat, Body>)
    requires Coherent(c, issued) && c.deferred == []
    ensures Coherent(LandReference(c), issued)
  {
    if c.reference.Some? && c.committed.Some? {
      LandKeepsId(c.committed.value, c.reference.value.events);
    }
  }

  /** Delivery marks do not show. */
  lemma {:induction false} OverlayIgnoresDelivery(s: Snapshot, author: Author, a: seq<Pending>, b: seq<Pending>)
    requires |a| == |b| && forall i | 0 <= i < |a| :: b[i] == a[i].(delivery := b[i].delivery)
    ensures Overlay(s, author, a) == Overlay(s, author, b)
    decreases |a|
  {
    if a != [] {
      OverlayIgnoresDelivery(s, author, a[..|a| - 1], b[..|b| - 1]);
    }
  }

  lemma MarksCohere(c: State, issued: map<nat, Body>, b: seq<Pending>)
    requires Coherent(c, issued)
    requires |c.pending| == |b| && forall i | 0 <= i < |b| :: b[i] == c.pending[i].(delivery := b[i].delivery)
    ensures Coherent(c.(pending := b), issued)
  {
    if c.committed.Some? {
      OverlayIgnoresDelivery(c.committed.value, c.author, c.pending, b);
    }
    forall p | p in b
      ensures exists q :: q in c.pending && p == q.(delivery := p.delivery)
    {
      var i :| 0 <= i < |b| && b[i] == p;
      assert c.pending[i] in c.pending;
    }
  }

  lemma ErrorCoheres(c: State, issued: map<nat, Body>, id: nat, error: RpcError)
    requires Coherent(c, issued)
    ensures Coherent(OnError(c, id, error), issued)
  {
    hide Overlay;
    if id in c.inFlight && c.inFlight[id].WaitMutate? && !error.OtherError? {
      var d := if error.Restarting? then NotAdmitted else OutcomeUnknown;
      MarksCohere(c, issued, SetDelivery(c.pending, c.inFlight[id].clientSeq, d));
    }
  }

  lemma CommittedCoheres(c: State, issued: map<nat, Body>, id: nat, e: Event)
    requires Coherent(c, issued) && Genuine(c.me, issued, e)
    ensures Coherent(OnCommitted(c, id, e), issued)
  {
    if id in c.inFlight && c.inFlight[id].WaitMutate? && c.connection.Subscribed? {
      var s := c.inFlight[id].clientSeq;
      if c.connection.seqNo >= e.seqNo {
        var rest := Without(c.pending, s);
        if |rest| != |c.pending| {
          assert Coherent(Rebase(c.(pending := rest)), issued);
        }
      } else {
        ApplyLiveCoheres(c.(connection := Subscribed(e.seqNo)), issued, e);
      }
    }
  }

  lemma PreviewCoheres(c: State, issued: map<nat, Body>, id: CommentId, receipt: Receipt)
    requires Coherent(c, issued)
    ensures Coherent(OnPreviewReceipt(c, id, receipt), issued)
  {
  }

  lemma MutateCoheres(c: State, issued: map<nat, Body>, body: Body, ts: Timestamp)
    requires Coherent(c, issued) && c.nextClientSeq !in issued && c.shown.Some?
    requires body.Subject() == Some(c.shown.value.review.id) && !body.TargetsResolved?
    ensures Coherent(MutateWith(c, body, ts), issued[c.nextClientSeq := body])
  {
    OverlayKeepsId(c.committed.value, c.author, c.pending);
  }

  // ---- world steps ----------------------------------------------------------

  lemma GenuineGrows(w: World, body: Body)
    requires Invariant(w)
    ensures var issued := w.issued[w.client.nextClientSeq := body];
            && (forall e | e in w.log :: Genuine(w.client.me, issued, e))
            && (forall m | m in w.down && (m.Broadcast? || m.CommittedReply?) :: Genuine(w.client.me, issued, m.event))
            && Coherent(w.client, issued)
  {
  }

  /** Only the client moved. */
  lemma ClientMoves(w: World, after: State, down: seq<Msg>)
    requires Invariant(w) && Coherent(after, w.issued) && SameClient(w.client, after)
    requires forall m | m in down :: m in w.down
    ensures forall basis :: Invariant(w.(client := after, down := down, basis := basis))
  {
  }

  lemma UserKeeps(w: World, step: Step)
    requires Invariant(w)
    ensures Invariant(UserStep(w, step))
  {
    hide ApplyAll, Overlay, ApplyEvent, MutateWith;
    var c := w.client;
    match step
    case UserMutate(body, ts) => SendKeeps(w, step);
    case UserUntracked(body) => SendKeeps(w, step);
    case UserOpen(_) => OpenKeeps(w, step);
    case UserOpenReference(_) => OpenKeeps(w, step);
    case Welcome => OpenKeeps(w, step);
    case UserCloseDraft =>
      if c.draft {
        DraftClosesCoherent(c, w.issued);
        ApplyAllSame(c.(draft := false, deferred := []), c.deferred);
        ClientMoves(w, CloseDraft(c), w.down);
      }
    case Drop => DropCoheres(w);
    case PreviewReceipt(id, receipt) =>
      PreviewCoheres(c, w.issued, id, receipt);
      ClientMoves(w, OnPreviewReceipt(c, id, receipt), w.down);
    case UserConnect => ClientMoves(w, Connect(c), w.down);
    case TransportUp => ClientMoves(w, OnConnected(c), w.down);
    case UserClose => ClientMoves(w, CloseReview(c.(reference := None, latestOpen := None)), w.down);
    case UserDraft => if c.shown.Some? { ClientMoves(w, c.(draft := true), w.down); }
    case _ =>
  }

  lemma SendKeeps(w: World, step: Step)
    requires Invariant(w) && (step.UserMutate? || step.UserUntracked?)
    ensures Invariant(UserStep(w, step))
  {
    hide ApplyAll, OnPreviewReceipt, Overlay, ApplyEvent;
    var c := w.client;
    GenuineGrows(w, step.body);
    if step.UserMutate? && c.shown.Some? && step.body.Subject() == Some(c.shown.value.review.id)
        && !step.body.TargetsResolved? {
      MutateCoheres(c, w.issued, step.body, step.ts);
    }
  }

  lemma OpenKeeps(w: World, step: Step)
    requires Invariant(w) && (step.UserOpen? || step.UserOpenReference? || step.Welcome?)
    ensures Invariant(UserStep(w, step))
  {
    hide ApplyAll, Overlay, OnPreviewReceipt, MutateWith;
  }

  lemma DraftClosesCoherent(c: State, issued: map<nat, Body>)
    requires Coherent(c, issued)
    ensures Coherent(CloseDraft(c), issued)
  {
    ApplyAllCoheres(c.(draft := false, deferred := []), issued, c.deferred);
  }

  lemma DropCoheres(w: World)
    requires Invariant(w)
    ensures Invariant(UserStep(w, Drop))
  {
    MarksCohere(w.client, w.issued, Uncertain(w.client.pending));
    forall r | r in Silenced(w.requests) && r.send.SendMutate?
      ensures r.send.clientSeq in w.issued && w.issued[r.send.clientSeq] == r.send.body
    {
      var i :| 0 <= i < |w.requests| && r == Silenced(w.requests)[i];
      assert w.requests[i] in w.requests;
    }
  }

  lemma DaemonKeeps(w: World, step: Step)
    requires Invariant(w)
    ensures Invariant(DaemonStep(w, step))
  {
    hide SnapshotAt, Overlay, Coherent;
    var after := DaemonStep(w, step);
    forall r | r in after.requests && r.send.SendMutate?
      ensures r.send.clientSeq in w.issued && w.issued[r.send.clientSeq] == r.send.body
    {
      if r !in w.requests {
        assert step.DaemonAnswer? && w.requests[step.i] in w.requests && r.send == w.requests[step.i].send;
      }
    }
    if step.DaemonCommit? && after != w {
      assert w.requests[step.i] in w.requests;
    }
  }

  lemma {:induction false} ResentFromPending(pending: seq<Pending>, next: nat)
    ensures forall r | r in Resent(pending, next) :: r.SendMutate? && exists p ::
            p in pending && p.clientSeq == r.clientSeq && p.body == r.body
  {
    if pending != [] {
      ResentFromPending(pending[..|pending| - 1], next);
      assert pending[|pending| - 1] in pending;
    }
  }

  lemma SubscribedKeeps(w: World)
    requires Invariant(w) && w.down != [] && w.down[0].SubscribedReply?
    ensures Invariant(DeliverStep(w))
  {
    var c := w.client;
    var (after, sends) := OnSubscribed(c, w.down[0].id, w.down[0].seqNo);
    if after != c {
      MarksCohere(c, w.issued, Readmitted(c.pending));
      ResentFromPending(c.pending, c.nextRequest);
    }
    forall r | r in AsRequests(sends)
      ensures r.send in sends
    {
    }
  }

  lemma EventSame(c: State, id: nat, e: Event)
    ensures SameClient(c, OnCommitted(c, id, e)) && SameClient(c, OnEvent(c, e))
  {
    ApplyLiveSame(c.(connection := Subscribed(e.seqNo)), e);
    ApplyLiveSame(c.(connection := Advanced(c.connection, e.seqNo)), e);
  }

  lemma ReplySame(c: State, id: nat, error: RpcError)
    ensures SameClient(c, OnError(c, id, error))
  {
  }

  lemma SnapshotSame(c: State, id: nat, s: Snapshot)
    ensures SameClient(c, OnSnapshot(c, id, s))
  {
  }

  lemma EventCoheres(c: State, issued: map<nat, Body>, e: Event)
    requires Coherent(c, issued) && Genuine(c.me, issued, e)
    ensures Coherent(OnEvent(c, e), issued)
  {
    if TakesEvent(c, e) {
      ApplyLiveCoheres(c.(connection := Advanced(c.connection, e.seqNo)), issued, e);
    }
  }

  lemma DeliverKeeps(w: World)
    requires Invariant(w)
    ensures Invariant(DeliverStep(w))
  {
    if w.down != [] {
      var m, c, rest := w.down[0], w.client, w.down[1..];
      assert m in w.down;
      match m
      case Broadcast(e) =>
        EventCoheres(c, w.issued, e);
        EventSame(c, 0, e);
        ClientMoves(w, OnEvent(c, e), rest);
      case CommittedReply(id, e) =>
        CommittedCoheres(c, w.issued, id, e);
        EventSame(c, id, e);
        ClientMoves(w, OnCommitted(c, id, e), rest);
      case ErrorReply(id, error) =>
        ErrorCoheres(c, w.issued, id, error);
        ReplySame(c, id, error);
        ClientMoves(w, OnError(c, id, error), rest);
      case SubscribedReply(_, _) => SubscribedKeeps(w);
      case SnapshotReply(id, s) =>
        InstallCoheres(c, w.issued, id, s);
        SnapshotSame(c, id, s);
        ClientMoves(w, OnSnapshot(c, id, s), rest);
    }
  }

  lemma {:induction false} RunKeeps(w: World, steps: seq<Step>)
    requires Start(w)
    ensures Invariant(Run(w, steps))
    decreases |steps|
  {
    if steps != [] {
      var before, step := Run(w, steps[..|steps| - 1]), steps[|steps| - 1];
      RunKeeps(w, steps[..|steps| - 1]);
      if step.Deliver? {
        DeliverKeeps(before);
      } else {
        UserKeeps(before, step);
        DaemonKeeps(UserStep(before, step), step);
      }
    }
  }

  /** Shown equals confirmed plus pending, in every run. */
  lemma {:induction false} ShownEqualsConfirmedPlusPending(w: World, steps: seq<Step>)
    requires Start(w)
    ensures var c := Run(w, steps).client;
            && (c.shown.Some? <==> c.committed.Some?)
            && (c.shown.Some? ==> c.shown.value == Overlay(c.committed.value, c.author, c.pending))
  {
    RunKeeps(w, steps);
  }
}
