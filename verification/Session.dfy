/**
 One client composed with a daemon and a lossy connection.

 The daemon owns an append-only log. What it may do is spelled out by the steps: it works through the
 requests it received in any order, broadcasts the log in order from the subscribed cursor, finishes the
 replay of the gap before it answers the subscription, sends a `Committed` reply for position n only once
 everything below n was broadcast, and answers `Restarting` only for a request it will never commit. The
 downward channel is FIFO and is lost with the connection; requests already sent may still be committed.
 */
module Session {
  import opened Protocol
  import opened Events
  import opened Client

  datatype Msg =
    | Broadcast(event: Event)
    | CommittedReply(id: nat, event: Event)
    | ErrorReply(id: nat, error: RpcError)
    | SubscribedReply(id: nat, seqNo: Seq)
    | SnapshotReply(id: nat, snapshot: Snapshot)

  /** A request on its way; replies can only travel on the connection it came by. */
  datatype Outstanding = Outstanding(send: Send, replyable: bool)

  datatype Owed = OwedCommit(id: nat, position: Seq) | OwedSnapshot(id: nat, snapshot: Snapshot)

  datatype Tail = Closed | Greeted | Replaying(id: nat) | Tailing

  /** The last install left the fold of `log[..upto]` over `base`, with the cursor at `start`. */
  datatype Basis = Basis(base: Snapshot, start: nat, upto: nat)

  datatype World = World(
    client: State, genesis: map<ReviewId, Snapshot>, log: seq<Event>, requests: seq<Outstanding>, owed: seq<Owed>,
    down: seq<Msg>, sent: nat, tail: Tail, issued: map<nat, Body>, basis: Option<Basis>)

  datatype Step =
    | UserConnect | TransportUp | Welcome | Drop
    | UserMutate(body: Body, ts: Timestamp) | UserUntracked(body: Body)
    | UserOpen(review: ReviewId) | UserOpenReference(review: ReviewId) | UserClose
    | UserDraft | UserCloseDraft | PreviewReceipt(comment: CommentId, receipt: Receipt)
    | DaemonCommit(i: nat, body: Body, ts: Timestamp, author: Author)
    | DaemonForeign(client: ClientId, clientSeq: nat, body: Body, ts: Timestamp, author: Author)
    | DaemonAnswer(i: nat, error: RpcError, withdrawn: bool)
    | DaemonSubscribe(i: nat) | DaemonBroadcast | DaemonFinishReplay
    | DaemonSnapshot(i: nat) | DaemonReply(j: nat)
    | Deliver

  ghost predicate Start(w: World) {
    && w.client == Initial(w.client.me, w.client.author)
    && w.requests == [] && w.owed == [] && w.down == [] && w.tail == Closed && w.sent == 0
    && w.issued == map[] && w.basis == None
    && (forall r | r in w.genesis :: w.genesis[r].review.id == r && w.genesis[r].suggestions == [])
    && (forall k | 0 <= k < |w.log| :: w.log[k].seqNo == k + 1 && w.log[k].client != w.client.me)
  }

  /** The echo of a mutation concerns its review and is a target refresh only if the mutation was one. */
  predicate Echoes(body: Body, sent: Body) {
    body.Subject() == sent.Subject() && (body.TargetsResolved? ==> sent.TargetsResolved?)
  }

  function Removed<T>(s: seq<T>, i: nat): seq<T>
    requires i < |s|
  {
    s[..i] + s[i + 1..]
  }

  function Silenced(rs: seq<Outstanding>): (r: seq<Outstanding>)
    ensures |r| == |rs|
  {
    seq(|rs|, i requires 0 <= i < |rs| => rs[i].(replyable := false))
  }

  function AsRequests(sends: seq<Send>): seq<Outstanding> {
    seq(|sends|, i requires 0 <= i < |sends| => Outstanding(sends[i], true))
  }

  function MaxOf(a: nat, b: nat): nat { if a < b then b else a }

  // ---- client-side steps ----------------------------------------------------

  ghost function UserStep(w: World, step: Step): World {
    var c := w.client;
    match step
    case UserConnect => w.(client := Connect(c))
    case TransportUp => w.(client := OnConnected(c))
    case Welcome =>
      if c.connection.Connecting? && c.connection.helloSent && w.tail == Closed then
        w.(client := Requested(c, WaitSubscribe), tail := Greeted,
           requests := w.requests + [Outstanding(SendSubscribe(c.nextRequest, c.connection.last), true)])
      else w
    case Drop =>
      w.(client := OnDisconnected(c), requests := Silenced(w.requests), owed := [], down := [], tail := Closed)
    case UserMutate(body, ts) =>
      if c.connection.Subscribed? && c.shown.Some? && body.Subject() == Some(c.shown.value.review.id)
          && !body.TargetsResolved? then
        w.(client := MutateWith(c, body, ts), issued := w.issued[c.nextClientSeq := body],
           requests := w.requests + [Outstanding(SendMutate(c.nextRequest, c.nextClientSeq, body), true)])
      else w
    case UserUntracked(body) =>
      if c.connection.Subscribed? then
        w.(client := MutateUntracked(c), issued := w.issued[c.nextClientSeq := body],
           requests := w.requests + [Outstanding(SendMutate(c.nextRequest, c.nextClientSeq, body), true)])
      else w
    case UserOpen(review) =>
      if c.connection.Subscribed? then
        w.(client := OpenReview(c, review),
          requests := w.requests + [Outstanding(SendOpen(c.nextRequest, review), true)])
      else w
    case UserOpenReference(review) =>
      if c.connection.Subscribed? then
        w.(client := OpenReference(c, review),
          requests := w.requests + [Outstanding(SendOpen(c.nextRequest, review), true)])
      else w
    case UserClose =>
      if c.shown.Some? then w.(client := CloseReview(c.(reference := None, latestOpen := None)), basis := None) else w
    case UserDraft => if c.shown.Some? then w.(client := c.(draft := true)) else w
    case UserCloseDraft => if c.draft then w.(client := CloseDraft(c)) else w
    case PreviewReceipt(id, receipt) =>
      var after := OnPreviewReceipt(c, id, receipt);
      w.(client := after, basis := if after.committed == c.committed then w.basis else None)
    case _ => w
  }

  // ---- daemon-side steps ----------------------------------------------------

  ghost function DaemonStep(w: World, step: Step): World {
    match step
    case DaemonCommit(i, body, ts, author) =>
      if i < |w.requests| && w.requests[i].send.SendMutate? && Echoes(body, w.requests[i].send.body) then
        var r := w.requests[i];
        w.(log := w.log + [Event(|w.log| + 1, ts, author, w.client.me, r.send.clientSeq, body)],
           requests := Removed(w.requests, i),
           owed := if r.replyable then w.owed + [OwedCommit(r.send.id, |w.log| + 1)] else w.owed)
      else w
    case DaemonForeign(client, clientSeq, body, ts, author) =>
      if client != w.client.me then w.(log := w.log + [Event(|w.log| + 1, ts, author, client, clientSeq, body)]) else w
    case DaemonAnswer(i, error, withdrawn) =>
      if i < |w.requests| && w.requests[i].replyable && (withdrawn || !error.Restarting?) then
        w.(down := w.down + [ErrorReply(w.requests[i].send.id, error)],
           requests := if withdrawn then Removed(w.requests, i)
             else w.requests[i := w.requests[i].(replyable := false)])
      else w
    case DaemonSubscribe(i) =>
      if i < |w.requests| && w.requests[i].replyable && w.requests[i].send.SendSubscribe? && w.tail == Greeted then
        var after := w.requests[i].send.after;
        w.(requests := Removed(w.requests, i), tail := Replaying(w.requests[i].send.id),
           sent := if after.Some? then after.value else |w.log|)
      else w
    case DaemonBroadcast =>
      if (w.tail.Replaying? || w.tail.Tailing?) && w.sent < |w.log| then
        w.(down := w.down + [Broadcast(w.log[w.sent])], sent := w.sent + 1)
      else w
    case DaemonFinishReplay =>
      if w.tail.Replaying? && w.sent == |w.log| then
        w.(down := w.down + [SubscribedReply(w.tail.id, w.sent)], tail := Tailing)
      else w
    case DaemonSnapshot(i) =>
      if i < |w.requests| && w.requests[i].replyable && w.requests[i].send.SendOpen?
          && w.requests[i].send.review in w.genesis then
        w.(requests := Removed(w.requests, i),
           owed := w.owed + [OwedSnapshot(w.requests[i].send.id, SnapshotAt(w, w.requests[i].send.review, |w.log|))])
      else w
    case DaemonReply(j) =>
      if j < |w.owed| then
        (match w.owed[j]
         case OwedCommit(id, n) =>
           if (w.tail.Replaying? || w.tail.Tailing?) && n <= w.sent + 1 && 1 <= n <= |w.log| then
             w.(owed := Removed(w.owed, j), down := w.down + [CommittedReply(id, w.log[n - 1])])
           else w
         case OwedSnapshot(id, s) => w.(owed := Removed(w.owed, j), down := w.down + [SnapshotReply(id, s)]))
      else w
    case _ => w
  }

  /** The daemon's snapshot of a review at log position m. */
  ghost function SnapshotAt(w: World, review: ReviewId, m: nat): Snapshot
    requires review in w.genesis && m <= |w.log|
  {
    Fold(w.genesis[review].(cursor := m), w.log[..m])
  }

  // ---- delivery -------------------------------------------------------------

  ghost function DeliverStep(w: World): World {
    if w.down == [] then w
    else
      var rest, c := w.down[1..], w.client;
      match w.down[0]
      case Broadcast(e) => Kept(w.(client := OnEvent(c, e), down := rest))
      case CommittedReply(id, e) => Kept(w.(client := OnCommitted(c, id, e), down := rest))
      case ErrorReply(id, error) => w.(client := OnError(c, id, error), down := rest)
      case SubscribedReply(id, n) =>
        var (after, sends) := OnSubscribed(c, id, n);
        w.(client := after, down := rest, requests := w.requests + AsRequests(sends))
      case SnapshotReply(id, s) =>
        var after := OnSnapshot(c, id, s);
        w.(client := after, down := rest,
           basis := if Installs(c, id, s) then Rebased(w, after, s) else w.basis)
  }

  /** A review that closed takes its basis with it. */
  ghost function Kept(w: World): World { if w.client.committed.None? then w.(basis := None) else w }

  /** The basis an install leaves: the log fold up to the later of snapshot and cursor, if that is what it is. */
  ghost function Rebased(w: World, after: State, s: Snapshot): Option<Basis> {
    if after.committed.None? || s.review.id !in w.genesis || w.client.connection.LastSeq().None? then None
    else
      var start := w.client.connection.LastSeq().value;
      var upto := MaxOf(s.cursor, start);
      var base := w.genesis[s.review.id].(cursor := after.committed.value.cursor);
      if upto <= |w.log| && after.committed.value == Fold(base, w.log[..upto]) then Some(Basis(base, start, upto))
          else None
  }

  ghost function Next(w: World, step: Step): World {
    if step.Deliver? then DeliverStep(w) else DaemonStep(UserStep(w, step), step)
  }

  ghost function Run(w: World, steps: seq<Step>): World {
    if steps == [] then w else Next(Run(w, steps[..|steps| - 1]), steps[|steps| - 1])
  }
}
