/** Runs from the start in which opening a review falls short of the log's fold, and what a preview costs. */
module OpeningRuns {
  import opened Protocol
  import opened Events
  import opened Client
  import opened Session
  import opened Landing
  import opened ReferenceRuns
  import opened Receipts
  import opened Levels
  import opened Openings
  import Replay
  import Convergence
  import Shown = ShownIsOverlay

  lemma RunSnoc(w: World, steps: seq<Step>, step: Step)
    ensures Run(w, steps + [step]) == Next(Run(w, steps), step)
  {
    assert (steps + [step])[..|steps|] == steps;
  }

  function Place(n: nat): CommentId { CommentId(n, 0) }

  function Written(n: nat): Comment {
    Comment(Place(n), 0, ThreadId(n, 0), "", Suggestion(""), ReviewAnchor, "", 0, None, Live, None)
  }

  function Creation(n: nat): Event { Event(n, 0, "", 2, n, CommentCreated(Written(n))) }

  function Landed(): Event { Event(2, 0, "", 2, 2, SuggestionApplied(0, Place(1), 0, "", 0)) }

  function Empty(): Snapshot { Snapshot(Review(0, 0, "", [], 0, StatusOpen), None, [], [], [], [], [], [], 0) }

  /** One suggestion is logged before the client first connects. */
  ghost function Before(): World {
    World(Initial(1, ""), map[0 := Empty()], [Creation(1)], [], [], [], 0, Closed, map[], None)
  }

  function Greeting(): seq<Step> { [] + [UserConnect] + [TransportUp] + [Welcome] }

  function Linking(): seq<Step> { Greeting() + [DaemonSubscribe(0)] + [DaemonFinishReplay] + [Deliver] }

  ghost function Hailed(): World {
    Before().(client := Initial(1, "").(connection := Connecting(true, None), nextRequest := 2,
                                              inFlight := map[1 := WaitSubscribe]),
              tail := Greeted, requests := [Outstanding(SendSubscribe(1, None), true)])
  }

  ghost function Linked(): World {
    Before().(client := Initial(1, "").(connection := Subscribed(1), nextRequest := 2), sent := 1, tail := Tailing)
  }

  lemma GreetingHails()
    ensures Run(Before(), Greeting()) == Hailed()
  {
    hide Run, Next;
    var w, c := Before(), Initial(1, "");
    RunNothing(w);
    RunSnoc(w, [], UserConnect);
    var w1 := w.(client := c.(connection := Connecting(false, None)));
    var w2 := w.(client := c.(connection := Connecting(true, None)));
    ConnectSteps(w1, w2);
    RunSnoc(w, [] + [UserConnect], TransportUp);
    RunSnoc(w, [] + [UserConnect] + [TransportUp], Welcome);
    WelcomeStep(w2);
  }

  lemma ConnectSteps(w1: World, w2: World)
    requires w1 == Before().(client := Initial(1, "").(connection := Connecting(false, None)))
    requires w2 == Before().(client := Initial(1, "").(connection := Connecting(true, None)))
    ensures Next(Before(), UserConnect) == w1 && Next(w1, TransportUp) == w2
  {
    NoDaemon(w1, UserConnect);
    NoDaemon(w2, TransportUp);
    hide DaemonStep;
  }

  lemma WelcomeStep(w: World)
    requires w == Before().(client := Initial(1, "").(connection := Connecting(true, None)))
    ensures Next(w, Welcome) == Hailed()
  {
    NoDaemon(Hailed(), Welcome);
    hide DaemonStep;
  }

  lemma NoDaemon(w: World, step: Step)
    requires step.UserConnect? || step.TransportUp? || step.Welcome? || step.UserOpen? || step.UserOpenReference?
             || step.PreviewReceipt?
    ensures DaemonStep(w, step) == w
  {
  }

  lemma NoUser(w: World, step: Step)
    requires step.DaemonSubscribe? || step.DaemonFinishReplay? || step.DaemonSnapshot? || step.DaemonForeign?
             || step.DaemonBroadcast? || step.DaemonReply?
    ensures UserStep(w, step) == w
  {
  }

  lemma LinkingLinks()
    ensures Run(Before(), Linking()) == Linked()
  {
    hide Run, Next;
    var w := Before();
    GreetingHails();
    RunSnoc(w, Greeting(), DaemonSubscribe(0));
    var w1 := Hailed().(requests := [], tail := Replaying(1), sent := 1);
    ReplayStarts(w1);
    RunSnoc(w, Greeting() + [DaemonSubscribe(0)], DaemonFinishReplay);
    var w2 := w1.(down := [SubscribedReply(1, 1)], tail := Tailing);
    ReplayEnds(w1, w2);
    RunSnoc(w, Greeting() + [DaemonSubscribe(0)] + [DaemonFinishReplay], Deliver);
    SubscriptionLinks(w2);
  }

  lemma ReplayStarts(x: World)
    requires x == Hailed().(requests := [], tail := Replaying(1), sent := 1)
    ensures Next(Hailed(), DaemonSubscribe(0)) == x
  {
    NoUser(Hailed(), DaemonSubscribe(0));
    hide UserStep;
  }

  lemma ReplayEnds(w: World, x: World)
    requires w == Hailed().(requests := [], tail := Replaying(1), sent := 1)
             && x == w.(down := [SubscribedReply(1, 1)], tail := Tailing)
    ensures Next(w, DaemonFinishReplay) == x
  {
    NoUser(w, DaemonFinishReplay);
    hide UserStep;
  }

  lemma SubscriptionLinks(w: World)
    requires w == Hailed().(requests := [], down := [SubscribedReply(1, 1)], tail := Tailing, sent := 1)
    ensures Next(w, Deliver) == Linked()
  {
  }

  lemma RunNothing(w: World)
    ensures Run(w, []) == w
  {
  }

  /** The review with its one suggestion, as the daemon sends it at log position 1. */
  function Copy(): Snapshot {
    Empty().(cursor := 1, comments := [Written(1)], threads := [Thread(ThreadId(1, 0), 0, Place(1), [], OpenThread)],
             suggestions := [SuggestionRecord(0, Place(1), ReviewAnchor, "", Unapplied)])
  }

  lemma CopyIsSent(w: World)
    requires w.genesis == Before().genesis && w.log == [Creation(1)]
    ensures SnapshotAt(w, 0, 1) == Copy()
  {
    assert w.log[..1] == [Creation(1)];
    FoldOne(Empty().(cursor := 1), Creation(1));
    assert ApplyEvent(Empty().(cursor := 1), Creation(1)) == Copy();
  }

  ghost function Asked(id: nat, committed: Option<Snapshot>): State {
    Linked().client.(nextRequest := id + 1, inFlight := map[id := WaitSnapshot(0)], latestOpen := Some(id),
                     snapshotEvents := map[id := Recording(0, [])], committed := committed, shown := committed)
  }

  function Opening(): seq<Step> { Linking() + [UserOpen(0)] + [DaemonSnapshot(0)] }

  /** The review was asked for and its snapshot taken. */
  ghost function Owing(): World { Linked().(client := Asked(2, None), owed := [OwedSnapshot(2, Copy())]) }

  lemma OpeningOwes()
    ensures Run(Before(), Opening()) == Owing()
  {
    hide Run, Overlay, Fold, DeliverStep, SnapshotAt, UserStep, DaemonStep;
    var w, l := Before(), Linked();
    LinkingLinks();
    RunSnoc(w, Linking(), UserOpen(0));
    var w1 := l.(client := Asked(2, None), requests := [Outstanding(SendOpen(2, 0), true)]);
    OpenAsks(l, w1);
    RunSnoc(w, Linking() + [UserOpen(0)], DaemonSnapshot(0));
    SnapshotOwed(w1, 2);
  }

  lemma OpenAsks(l: World, x: World)
    requires l == Linked() && x == l.(client := Asked(2, None), requests := [Outstanding(SendOpen(2, 0), true)])
    ensures Next(l, UserOpen(0)) == x
  {
    NoDaemon(x, UserOpen(0));
    hide DaemonStep;
  }

  lemma SnapshotOwed(w: World, id: nat)
    requires w.requests == [Outstanding(SendOpen(id, 0), true)] && w.owed == [] && w.genesis == Before().genesis
             && w.log == [Creation(1)]
    ensures Next(w, DaemonSnapshot(0)) == w.(requests := [], owed := [OwedSnapshot(id, Copy())])
  {
    hide UserStep, SnapshotAt;
    NoUser(w, DaemonSnapshot(0));
    CopyIsSent(w);
  }

  lemma SnapshotReplied(w: World, id: nat)
    requires w.owed == [OwedSnapshot(id, Copy())] && w.down == []
    ensures Next(w, DaemonReply(0)) == w.(owed := [], down := [SnapshotReply(id, Copy())])
  {
    hide UserStep;
    NoUser(w, DaemonReply(0));
  }

  /** Another client's second event. */
  lemma ForeignLogs(w: World, e: Event)
    requires w.log == [Creation(1)] && w.client.me == 1 && e == Event(2, 0, "", 2, 2, e.body)
    ensures Next(w, DaemonForeign(2, 2, e.body, 0, "")) == w.(log := [Creation(1), e])
  {
    hide UserStep;
    NoUser(w, DaemonForeign(2, 2, e.body, 0, ""));
  }

  // ---- an ordinary open overtaken by a comment ------------------------------

  function Overtaken(): seq<Step> {
    Opening() + [DaemonForeign(2, 2, CommentCreated(Written(2)), 0, "")] + [DaemonBroadcast] + [Deliver]
      + [DaemonReply(0)]
  }

  lemma OvertakenArrives()
    ensures Run(Before(), Overtaken())
            == Linked().(client := Asked(2, None).(connection := Subscribed(2)), log := [Creation(1), Creation(2)],
                         down := [SnapshotReply(2, Copy())], sent := 2)
  {
    hide Run, Next;
    var w, foreign := Before(), DaemonForeign(2, 2, CommentCreated(Written(2)), 0, "");
    OpeningOwes();
    RunSnoc(w, Opening(), foreign);
    ForeignLogs(Owing(), Creation(2));
    var w1 := Owing().(log := [Creation(1), Creation(2)]);
    RunSnoc(w, Opening() + [foreign], DaemonBroadcast);
    CommentBroadcast(w1);
    var w2 := w1.(down := [Broadcast(Creation(2))], sent := 2);
    RunSnoc(w, Opening() + [foreign] + [DaemonBroadcast], Deliver);
    CommentPasses(w2);
    var w3 := w1.(client := Asked(2, None).(connection := Subscribed(2)), sent := 2);
    RunSnoc(w, Opening() + [foreign] + [DaemonBroadcast] + [Deliver], DaemonReply(0));
    SnapshotReplied(w3, 2);
  }

  lemma CommentBroadcast(w: World)
    requires w == Owing().(log := [Creation(1), Creation(2)])
    ensures Next(w, DaemonBroadcast) == w.(down := [Broadcast(Creation(2))], sent := 2)
  {
    hide UserStep;
    NoUser(w, DaemonBroadcast);
  }

  /** Nothing is open yet, and the recording is not for comments. */
  lemma CommentPasses(w: World)
    requires w == Owing().(log := [Creation(1), Creation(2)], down := [Broadcast(Creation(2))], sent := 2)
    ensures Next(w, Deliver) == w.(client := Asked(2, None).(connection := Subscribed(2)), down := [])
  {
    hide Overlay, ApplyEvent;
    var d := OnEvent(w.client, Creation(2));
    assert d.snapshotEvents == map[2 := Recording(0, [])];
    assert d == Asked(2, None).(connection := Subscribed(2));
  }

  lemma OnlyOne()
    ensures !HasComment(Copy(), Place(2))
  {
  }

  /**
   A comment delivered ahead of an older snapshot of an ordinary open is neither in the snapshot nor
   recorded: after the install the client shows a review without it, the cursor already past it.
   */
  lemma OlderSnapshotMissesComment()
    ensures var w, x := Before(), Run(Before(), Overtaken());
            && Start(w) && NoPreviews(Overtaken()) && Arriving(x)
            && var y := DeliverStep(x);
            && y.client.connection == Subscribed(2) && y.client.committed.Some?
               && !HasComment(y.client.committed.value, Place(2))
            && y.log == [Creation(1), Creation(2)] && HasComment(Fold(Empty().(cursor := 1), y.log), Place(2))
  {
    hide Run, HonestRun, FreshRun, Fold, OnSnapshot, HasComment;
    OvertakenArrives();
    NoPreviewsFresh(Before(), Overtaken());
    OnlyOne();
    FreshIsHonest(Before(), Overtaken());
    GapCommentIsMissed(Before(), Overtaken(), 1);
    var x := Run(Before(), Overtaken());
    assert x.log[..2] == x.log;
    Convergence.SnapshotConnection(x.client, 2, Copy());
  }

  // ---- a preview ahead of both cursors --------------------------------------

  function Reading(): seq<Step> { Opening() + [DaemonReply(0)] + [Deliver] }

  function Reopening(): seq<Step> {
    Reading() + [UserOpenReference(0)] + [DaemonSnapshot(0)] + [DaemonForeign(2, 2, Landed().body, 0, "")]
  }

  function Previewed(): seq<Step> { Reopening() + [PreviewReceipt(Place(1), ReceiptOf(Landed()))] + [DaemonReply(0)] }

  /** The reference's snapshot is owed while the suggestion has landed. */
  ghost function Reopened(): World {
    Opened().(client := Asked(3, Some(Copy())).(reference := Some(Recording(0, []))), log := [Creation(1), Landed()],
              owed := [OwedSnapshot(3, Copy())])
  }

  function Received(): Snapshot {
    Copy().(suggestions := [SuggestionRecord(0, Place(1), ReviewAnchor, "", Applied(ReceiptOf(Landed())))])
  }

  /** The review is open at log position 1. */
  ghost function Opened(): World {
    Linked().(client := Linked().client.(nextRequest := 3, latestOpen := Some(2),
                                         committed := Some(Copy()), shown := Some(Copy())),
              basis := Some(Basis(Empty().(cursor := 1), 1, 1)))
  }

  lemma OpenedInstalls(c: State)
    requires c == Asked(2, None)
    ensures OnSnapshot(c, 2, Copy()) == Opened().client
  {
    assert Sorted(Recording(0, []).events, (e: Event) => e.seqNo) == [];
    assert Installed(c, 2, Copy()) == Copy();
  }

  lemma ReadingOpens()
    ensures Run(Before(), Reading()) == Opened()
  {
    hide Run, Next;
    OpeningOwes();
    RunSnoc(Before(), Opening(), DaemonReply(0));
    SnapshotReplied(Owing(), 2);
    RunSnoc(Before(), Opening() + [DaemonReply(0)], Deliver);
    SnapshotOpens(Owing().(owed := [], down := [SnapshotReply(2, Copy())]));
  }

  lemma SnapshotOpens(w: World)
    requires w == Owing().(owed := [], down := [SnapshotReply(2, Copy())])
    ensures Next(w, Deliver) == Opened()
  {
    hide Overlay, ApplyEvent, OnSnapshot, Fold;
    OpenedInstalls(w.client);
    CopyIsSent(w);
  }

  lemma ReopeningRuns()
    ensures Run(Before(), Reopening()) == Reopened()
  {
    hide Run, Next;
    var w, l, foreign := Before(), Opened(), DaemonForeign(2, 2, Landed().body, 0, "");
    ReadingOpens();
    RunSnoc(w, Reading(), UserOpenReference(0));
    var w1 := l.(client := Asked(3, Some(Copy())).(reference := Some(Recording(0, []))),
        requests := [Outstanding(SendOpen(3, 0), true)]);
    ReferenceAsks(w1);
    RunSnoc(w, Reading() + [UserOpenReference(0)], DaemonSnapshot(0));
    SnapshotOwed(w1, 3);
    RunSnoc(w, Reading() + [UserOpenReference(0)] + [DaemonSnapshot(0)], foreign);
    ForeignLogs(w1.(requests := [], owed := [OwedSnapshot(3, Copy())]), Landed());
  }

  lemma ReferenceAsks(x: World)
    requires x == Opened().(client := Asked(3, Some(Copy())).(reference := Some(Recording(0, []))),
                            requests := [Outstanding(SendOpen(3, 0), true)])
    ensures Next(Opened(), UserOpenReference(0)) == x
  {
    NoDaemon(x, UserOpenReference(0));
    hide DaemonStep;
  }

  lemma PreviewedArrives()
    ensures Run(Before(), Previewed())
            == Opened().(client := Asked(3, Some(Received())).(reference := Some(Recording(0, []))),
                         log := [Creation(1), Landed()], down := [SnapshotReply(3, Copy())], basis := None)
  {
    hide Run, Next;
    var w, preview := Before(), PreviewReceipt(Place(1), ReceiptOf(Landed()));
    ReopeningRuns();
    RunSnoc(w, Reopening(), preview);
    var w1 := Reopened().(client := Asked(3, Some(Received())).(reference := Some(Recording(0, []))), basis := None);
    PreviewStep(w1);
    RunSnoc(w, Reopening() + [preview], DaemonReply(0));
    SnapshotReplied(w1, 3);
  }

  lemma PreviewStep(x: World)
    requires x == Reopened().(client := Asked(3, Some(Received())).(reference := Some(Recording(0, []))), basis := None)
    ensures Next(Reopened(), PreviewReceipt(Place(1), ReceiptOf(Landed()))) == x
  {
    hide DaemonStep, OnPreviewReceipt;
    PreviewTaken(Reopened().client);
    NoDaemon(x, PreviewReceipt(Place(1), ReceiptOf(Landed())));
  }

  lemma PreviewTaken(c: State)
    requires c == Asked(3, Some(Copy())).(reference := Some(Recording(0, [])))
    ensures OnPreviewReceipt(c, Place(1), ReceiptOf(Landed()))
            == c.(committed := Some(Received()), shown := Some(Received()))
  {
    assert Receive(Copy(), Place(1), ReceiptOf(Landed())) == Received();
  }

  lemma PreviewedHonest()
    ensures HonestRun(Before(), Previewed())
  {
    hide Run;
    ReopeningRuns();
    forall n | 0 <= n < |Previewed()|
      ensures Honest(Run(Before(), Previewed()[..n]), Previewed()[n])
    {
      if n == |Reopening()| {
        assert Previewed()[..n] == Reopening();
      }
    }
  }

  /**
   A preview tells of the landing before its event is delivered; the reference installed next keeps that
   receipt and so is not the fold of the log up to the later cursor.
   */
  lemma PreviewOvershoots()
    ensures var w, x := Before(), Run(Before(), Previewed());
            && Start(w) && HonestRun(w, Previewed()) && Arriving(x) && x.client.reference.Some?
            && var y := DeliverStep(x);
            && y.client.connection == Subscribed(1) && y.client.committed.Some?
            && forall k :: y.client.committed.value != Fold(Empty().(cursor := k), [Creation(1)])
  {
    hide Run, HonestRun, Fold, OnSnapshot;
    PreviewedArrives();
    PreviewedHonest();
    var x := Run(Before(), Previewed());
    assert Ahead(x.client, Copy(), Received().suggestions[0]);
    assert x.log[..1] == [Creation(1)];
    ReferenceLandsExactly(Before(), Previewed());
    Convergence.SnapshotConnection(x.client, 3, Copy());
    forall k
      ensures Fold(Empty().(cursor := k), [Creation(1)]).cursor == k
    {
      FoldCursor(Empty(), [Creation(1)], k);
    }
  }
}