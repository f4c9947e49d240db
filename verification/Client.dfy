/**
 The replication slice of the client state machine as functions of its state: connection and cursor,
 confirmed snapshot, pending overlay, held-back refreshes, in-flight requests and reference landing.
 */
module Client {
  import opened Protocol
  import opened Events

  /** Where the connection is. The cursor survives disconnects. */
  datatype Connection =
    | Disconnected(last: Option<Seq>)
    | Connecting(helloSent: bool, last: Option<Seq>)
    | Subscribed(seqNo: Seq)
  {
    function LastSeq(): Option<Seq> { if Subscribed? then Some(seqNo) else last }
  }

  /** A lost reply is not a rejection; only an explicit refusal of admission permits a retry. */
  datatype Delivery = AwaitingReceipt | OutcomeUnknown | NotAdmitted

  datatype Pending = Pending(clientSeq: nat, ts: Timestamp, body: Body, delivery: Delivery)

  datatype Waiting = WaitSubscribe | WaitSnapshot(review: ReviewId) | WaitMutate(clientSeq: nat)

  datatype Recording = Recording(review: ReviewId, events: seq<Event>)

  datatype RpcError = Restarting | RestartInterrupted | OtherError

  datatype Send =
    | SendSubscribe(id: nat, after: Option<Seq>)
    | SendOpen(id: nat, review: ReviewId)
    | SendMutate(id: nat, clientSeq: nat, body: Body)

  datatype State = State(
    me: ClientId, author: Author, connection: Connection, nextRequest: nat, nextClientSeq: nat,
    inFlight: map<nat, Waiting>, latestOpen: Option<nat>, pending: seq<Pending>,
    committed: Option<Snapshot>, shown: Option<Snapshot>, draft: bool, deferred: seq<Event>,
    snapshotEvents: map<nat, Recording>, reference: Option<Recording>)

  function Initial(me: ClientId, author: Author): State {
    State(me, author, Disconnected(None), 1, 1, map[], None, [], None, None, false, [], map[], None)
  }

  // ---- the overlay ----------------------------------------------------------

  /** Pending bodies folded in send order. */
  function Overlay(s: Snapshot, author: Author, pending: seq<Pending>): Snapshot {
    if pending == [] then s
    else
      var p := pending[|pending| - 1];
      ApplyBody(Overlay(s, author, pending[..|pending| - 1]), Meta(author, p.ts), p.body)
  }

  function Rebase(c: State): State {
    if c.committed.Some? && c.shown.Some? then c.(shown := Some(Overlay(c.committed.value, c.author, c.pending))) else c
  }

  function Without(pending: seq<Pending>, clientSeq: nat): (r: seq<Pending>)
    ensures forall p | p in r :: p in pending && p.clientSeq != clientSeq
    ensures forall p | p in pending && p.clientSeq != clientSeq :: p in r
  {
    if pending == [] then []
    else
      var last := pending[|pending| - 1];
      Without(pending[..|pending| - 1], clientSeq) + (if last.clientSeq == clientSeq then [] else [last])
  }

  function PendingAt(pending: seq<Pending>, clientSeq: nat): (i: nat)
    ensures i <= |pending| && (i < |pending| ==> pending[i].clientSeq == clientSeq)
    ensures forall j | 0 <= j < i :: pending[j].clientSeq != clientSeq
  {
    if pending == [] || pending[0].clientSeq == clientSeq then 0 else 1 + PendingAt(pending[1..], clientSeq)
  }

  function SetDelivery(pending: seq<Pending>, clientSeq: nat, d: Delivery): seq<Pending> {
    var i := PendingAt(pending, clientSeq);
    if i < |pending| then pending[i := pending[i].(delivery := d)] else pending
  }

  // ---- opening and closing --------------------------------------------------

  function CloseReview(c: State): State {
    c.(shown := None, committed := None, draft := false, deferred := [], pending := [])
  }

  /** Events newer than the snapshot, in the given order. */
  function ReplayNewer(s: Snapshot, events: seq<Event>): Snapshot {
    if events == [] then s
    else
      var init, e := ReplayNewer(s, events[..|events| - 1]), events[|events| - 1];
      if e.seqNo > s.cursor then ApplyEvent(init, e) else init
  }

  /** Receipts the old snapshot holds from beyond the new one's cursor are carried over. */
  function MergeReceipts(s: Snapshot, earlier: seq<SuggestionRecord>): Snapshot {
    if earlier == [] then s
    else
      var merged, existing := MergeReceipts(s, earlier[..|earlier| - 1]), earlier[|earlier| - 1];
      var i := RecordAt(merged.suggestions, existing.commentId);
      if existing.outcome.Applied? && existing.outcome.receipt.seqNo > s.cursor && i < |merged.suggestions|
      then merged.(suggestions := merged.suggestions[i := merged.suggestions[i].(outcome := existing.outcome)])
      else merged
  }

  predicate SameReview(c: State, s: Snapshot) { c.committed.Some? && c.committed.value.review.id == s.review.id }

  /** The snapshot as installed: caught up with recorded revision events, receipts carried over. */
  function Installed(c: State, id: nat, s: Snapshot): Snapshot {
    var caughtUp := if id in c.snapshotEvents && c.reference.None?
                    then ReplayNewer(s, Sorted(c.snapshotEvents[id].events, (e: Event) => e.seqNo)) else s;
    if SameReview(c, s) then MergeReceipts(caughtUp, c.committed.value.suggestions) else caughtUp
  }

  function InstallSnapshot(c: State, id: nat, s: Snapshot): State {
    var installed := Installed(c, id, s);
    Rebase(CloseReview(c).(committed := Some(installed), shown := Some(installed),
      snapshotEvents := c.snapshotEvents - {id},
                           pending := if SameReview(c, s) then c.pending else []))
  }

  /** Recorded events newer than the running cursor; `None` once a deletion is met. */
  function LandEvents(s: Snapshot, events: seq<Event>): Option<Snapshot>
    decreases |events|
  {
    if events == [] then Some(s)
    else
      var e := events[0];
      if e.seqNo <= s.cursor then LandEvents(s, events[1..])
      else if e.body.ReviewDeleted? then None
      else LandEvents(ApplyEvent(s, e).(cursor := e.seqNo), events[1..])
  }

  function LandReference(c: State): State {
    if c.reference.None? then c
    else
      var taken := c.(reference := None);
      if c.committed.None? then taken
      else
        match LandEvents(c.committed.value, c.reference.value.events)
        case None => CloseReview(taken)
        case Some(s) => Rebase(taken.(committed := Some(s)))
  }

  // ---- committed events -----------------------------------------------------

  predicate IsRevision(body: Body) {
    body.ReviewRequested? || body.ReviewChecked? || body.SuggestionApplied? || body.TargetsResolved?
  }

  function Recorded(r: Recording, e: Event): Recording {
    if IsRevision(e.body) && e.body.Subject() == Some(r.review)
        && !(exists i :: 0 <= i < |r.events| && r.events[i].seqNo == e.seqNo)
    then r.(events := r.events + [e]) else r
  }

  /** In-flight snapshots and references remember the event; our own pending entry is retired. */
  function Noted(c: State, e: Event): State {
    c.(snapshotEvents := map id | id in c.snapshotEvents :: Recorded(c.snapshotEvents[id], e),
       reference := if c.reference.Some? && e.body.Subject() == Some(c.reference.value.review)
                    then Some(c.reference.value.(events := c.reference.value.events + [e])) else c.reference,
       pending := if e.client == c.me then Without(c.pending, e.clientSeq) else c.pending)
  }

  predicate OpenOn(c: State, review: ReviewId) { c.shown.Some? && c.shown.value.review.id == review }

  function ApplyLive(c: State, e: Event): State {
    var noted := Noted(c, e);
    if e.body.TargetsResolved? && OpenOn(noted, e.body.reviewId) && noted.draft
        then noted.(deferred := noted.deferred + [e])
    else
      var closed := if e.body.ReviewDeleted? && OpenOn(noted, e.body.deleted) then CloseReview(noted) else noted;
      if closed.committed.Some? && e.body.Subject() == Some(closed.committed.value.review.id)
      then Rebase(closed.(committed := Some(ApplyEvent(closed.committed.value, e))))
      else closed
  }

  function ApplyAll(c: State, events: seq<Event>): State {
    if events == [] then c else ApplyLive(ApplyAll(c, events[..|events| - 1]), events[|events| - 1])
  }

  /** The draft closes: held-back refreshes are applied in arrival order. */
  function CloseDraft(c: State): State { ApplyAll(c.(draft := false, deferred := []), c.deferred) }

  // ---- requests -------------------------------------------------------------

  function Requested(c: State, w: Waiting): State {
    c.(nextRequest := c.nextRequest + 1, inFlight := c.inFlight[c.nextRequest := w],
       latestOpen := if w.WaitSnapshot? then Some(c.nextRequest) else c.latestOpen,
       snapshotEvents := if w.WaitSnapshot? then c.snapshotEvents[c.nextRequest := Recording(w.review, [])]
         else c.snapshotEvents)
  }

  function MutateWith(c: State, body: Body, ts: Timestamp): State {
    var queued := c.(nextClientSeq := c.nextClientSeq + 1,
        pending := c.pending + [Pending(c.nextClientSeq, ts, body, AwaitingReceipt)]);
    Rebase(Requested(queued, WaitMutate(c.nextClientSeq)))
  }

  /** A mutation sent without an overlay entry, such as a direct review creation. */
  function MutateUntracked(c: State): State {
    Requested(c.(nextClientSeq := c.nextClientSeq + 1), WaitMutate(c.nextClientSeq))
  }

  function OpenReview(c: State, review: ReviewId): State { Requested(c.(reference := None), WaitSnapshot(review)) }

  function OpenReference(c: State, review: ReviewId): State {
    OpenReview(c, review).(reference := Some(Recording(review, [])))
  }

  // ---- server messages ------------------------------------------------------

  /** Whether a broadcast advances the cursor; stale and ill-timed ones are rejected unchanged. */
  predicate TakesEvent(c: State, e: Event) {
    match c.connection
    case Subscribed(last) => e.seqNo > last
    case Connecting(helloSent, last) => helloSent && last.Some? && e.seqNo > last.value
    case Disconnected(_) => false
  }

  function Advanced(conn: Connection, n: Seq): Connection {
    match conn
    case Subscribed(_) => Subscribed(n)
    case Connecting(helloSent, _) => Connecting(helloSent, Some(n))
    case Disconnected(last) => conn
  }

  function OnEvent(c: State, e: Event): State {
    if TakesEvent(c, e) then ApplyLive(c.(connection := Advanced(c.connection, e.seqNo)), e) else c
  }

  function Answered(c: State, id: nat): State {
    c.(inFlight := c.inFlight - {id}, snapshotEvents := c.snapshotEvents - {id})
  }

  /** The response and the broadcast carry the same event; whichever is first applies it. */
  function OnCommitted(c: State, id: nat, e: Event): State {
    if id !in c.inFlight || !c.inFlight[id].WaitMutate? || !c.connection.Subscribed? then c
    else if c.connection.seqNo >= e.seqNo then
      var rest := Without(c.pending, c.inFlight[id].clientSeq);
      Answered(if |rest| == |c.pending| then c else Rebase(c.(pending := rest)), id)
    else Answered(ApplyLive(c.(connection := Subscribed(e.seqNo)), e), id)
  }

  function OnError(c: State, id: nat, error: RpcError): State {
    if id !in c.inFlight then c.(snapshotEvents := c.snapshotEvents - {id})
    else
      var w, answered := c.inFlight[id], Answered(c, id);
      match w
      case WaitSubscribe => answered
      case WaitSnapshot(_) => if c.latestOpen == Some(id) then answered.(reference := None) else answered
      case WaitMutate(s) =>
        Rebase(answered.(pending :=
                           match error
                           case RestartInterrupted => SetDelivery(c.pending, s, OutcomeUnknown)
                           case Restarting => SetDelivery(c.pending, s, NotAdmitted)
                           case OtherError => Without(c.pending, s)))
  }

  /** Entries refused admission, in send order, each with a fresh request. */
  function Resent(pending: seq<Pending>, next: nat): seq<Send> {
    if pending == [] then []
    else
      var init, last := Resent(pending[..|pending| - 1], next), pending[|pending| - 1];
      if last.delivery.NotAdmitted? then init + [SendMutate(next + |init|, last.clientSeq, last.body)] else init
  }

  function Readmitted(pending: seq<Pending>): (r: seq<Pending>)
    ensures |r| == |pending|
  {
    seq(|pending|, i requires 0 <= i < |pending| =>
      if pending[i].delivery.NotAdmitted? then pending[i].(delivery := AwaitingReceipt) else pending[i])
  }

  function WaitingFor(sends: seq<Send>): map<nat, Waiting> {
    if sends == [] then map[]
    else
      var last := sends[|sends| - 1];
      WaitingFor(sends[..|sends| - 1])[last.id := if last.SendMutate? then WaitMutate(last.clientSeq)
        else WaitSubscribe]
  }

  function OnSubscribed(c: State, id: nat, n: Seq): (State, seq<Send>) {
    if id !in c.inFlight || !c.inFlight[id].WaitSubscribe? || !c.connection.Connecting? then (c, [])
    else
      var last := if c.connection.last.Some? && c.connection.last.value > n then c.connection.last.value else n;
      var sends := Resent(c.pending, c.nextRequest);
      (Answered(c.(connection := Subscribed(last), pending := Readmitted(c.pending),
        nextRequest := c.nextRequest + |sends|,
                   inFlight := c.inFlight + WaitingFor(sends)), id), sends)
  }

  /** Only the newest open request may install. */
  predicate Installs(c: State, id: nat, s: Snapshot) {
    id in c.inFlight && c.inFlight[id] == WaitSnapshot(s.review.id) && c.latestOpen == Some(id)
  }

  function OnSnapshot(c: State, id: nat, s: Snapshot): State {
    if id !in c.inFlight || !c.inFlight[id].WaitSnapshot? then c
    else if c.latestOpen != Some(id) then Answered(c, id)
    else if !Installs(c, id, s) then c
    else Answered(LandReference(InstallSnapshot(c, id, s)), id)
  }

  // ---- connection lifecycle -------------------------------------------------

  function Uncertain(pending: seq<Pending>): (r: seq<Pending>)
    ensures |r| == |pending|
  {
    seq(|pending|, i requires 0 <= i < |pending| =>
      if pending[i].delivery.AwaitingReceipt? then pending[i].(delivery := OutcomeUnknown) else pending[i])
  }

  function ClearInFlight(c: State): State {
    c.(snapshotEvents := map[], reference := None, latestOpen := None, inFlight := map[],
      pending := Uncertain(c.pending))
  }

  function OnDisconnected(c: State): State {
    ClearInFlight(c.(connection := Disconnected(c.connection.LastSeq())))
  }

  function Connect(c: State): State {
    if c.connection.Disconnected? then c.(connection := Connecting(false, c.connection.last)) else c
  }

  function OnConnected(c: State): State {
    if c.connection.Connecting? then c.(connection := Connecting(true, c.connection.last)) else c
  }

  /** A preview found a receipt whose event was not seen. */
  function OnPreviewReceipt(c: State, id: CommentId, receipt: Receipt): State {
    if c.committed.None? || RecordAt(c.committed.value.suggestions, id) == |c.committed.value.suggestions| then c
    else Rebase(c.(committed := Some(Receive(c.committed.value, id, receipt))))
  }
}
