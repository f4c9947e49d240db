/**
 The client state machine updating its fields in place. Every method is proved against the function of
 module `Client` that the run theorems are about.
 */
module ClientCoreModule {
  import opened Protocol
  import opened Events
  import opened Client

  class ClientCore {
    const me: ClientId
    const author: Author
    var connection: Connection
    var nextRequest: nat
    var nextClientSeq: nat
    var inFlight: map<nat, Waiting>
    var latestOpen: Option<nat>
    var pending: seq<Pending>
    var committed: Option<Snapshot>
    var shown: Option<Snapshot>
    var draft: bool
    var deferred: seq<Event>
    var snapshotEvents: map<nat, Recording>
    var reference: Option<Recording>

    ghost function Value(): State
      reads this
    {
      State(me, author, connection, nextRequest, nextClientSeq, inFlight, latestOpen, pending, committed, shown, draft,
            deferred, snapshotEvents, reference)
    }

    constructor (me: ClientId, author: Author)
      ensures Value() == Initial(me, author)
    {
      this.me, this.author := me, author;
      connection, nextRequest, nextClientSeq, inFlight, latestOpen := Disconnected(None), 1, 1, map[], None;
      pending, committed, shown, draft, deferred, snapshotEvents, reference := [], None, None, false, [], map[], None;
    }

    /** The confirmed snapshot plus every pending event, in send order. */
    method RebaseShown()
      modifies this`shown
      ensures Value() == Rebase(old(Value()))
    {
      if committed.Some? && shown.Some? {
        var s := committed.value;
        for i := 0 to |pending|
          invariant s == Overlay(committed.value, author, pending[..i])
        {
          assert pending[..i + 1][..i] == pending[..i];
          s := ApplyBody(s, Meta(author, pending[i].ts), pending[i].body);
        }
        assert pending[..|pending|] == pending;
        shown := Some(s);
      }
    }

    method RetirePending(clientSeq: nat) returns (retired: bool)
      modifies this`pending
      ensures Value() == old(Value()).(pending := Without(old(pending), clientSeq))
      ensures retired <==> |pending| != |old(pending)|
    {
      var kept := [];
      for i := 0 to |pending|
        invariant kept == Without(pending[..i], clientSeq)
      {
        assert pending[..i + 1][..i] == pending[..i];
        if pending[i].clientSeq != clientSeq {
          kept := kept + [pending[i]];
        }
      }
      assert pending[..|pending|] == pending;
      retired := |kept| != |pending|;
      pending := kept;
    }

    method MarkDelivery(clientSeq: nat, d: Delivery)
      modifies this`pending
      ensures Value() == old(Value()).(pending := SetDelivery(old(pending), clientSeq, d))
    {
      var i := 0;
      while i < |pending| && pending[i].clientSeq != clientSeq
        invariant 0 <= i <= |pending| && forall j | 0 <= j < i :: pending[j].clientSeq != clientSeq
      {
        i := i + 1;
      }
      assert i == PendingAt(pending, clientSeq);
      if i < |pending| {
        pending := pending[i := pending[i].(delivery := d)];
      }
    }

    method Close()
      modifies this
      ensures Value() == Client.CloseReview(old(Value()))
    {
      shown, committed, draft, deferred, pending := None, None, false, [], [];
    }

    method Issue(w: Waiting) returns (id: nat)
      modifies this
      ensures Value() == Requested(old(Value()), w) && id == old(nextRequest)
    {
      id := nextRequest;
      nextRequest := nextRequest + 1;
      if w.WaitSnapshot? {
        latestOpen := Some(id);
        snapshotEvents := snapshotEvents[id := Recording(w.review, [])];
      }
      inFlight := inFlight[id := w];
    }

    /** Apply a mutation optimistically and send it. */
    method Mutate(body: Body, ts: Timestamp) returns (send: Send)
      modifies this
      ensures Value() == MutateWith(old(Value()), body, ts)
      ensures send == SendMutate(old(nextRequest), old(nextClientSeq), body)
      ensures pending == old(pending) + [Pending(old(nextClientSeq), ts, body, AwaitingReceipt)]
      ensures nextClientSeq == old(nextClientSeq) + 1
              && inFlight == old(inFlight)[send.id := WaitMutate(send.clientSeq)]
    {
      var clientSeq := nextClientSeq;
      nextClientSeq := clientSeq + 1;
      pending := pending + [Pending(clientSeq, ts, body, AwaitingReceipt)];
      var id := Issue(WaitMutate(clientSeq));
      RebaseShown();
      send := SendMutate(id, clientSeq, body);
    }

    method CatchUp(s: Snapshot, events: seq<Event>) returns (r: Snapshot)
      ensures r == ReplayNewer(s, events)
    {
      r := s;
      for i := 0 to |events|
        invariant r == ReplayNewer(s, events[..i])
      {
        assert events[..i + 1][..i] == events[..i];
        if events[i].seqNo > s.cursor {
          r := ApplyEvent(r, events[i]);
        }
      }
      assert events[..|events|] == events;
    }

    method CarryReceipts(s: Snapshot, earlier: seq<SuggestionRecord>) returns (r: Snapshot)
      ensures r == MergeReceipts(s, earlier)
    {
      r := s;
      for i := 0 to |earlier|
        invariant r == MergeReceipts(s, earlier[..i])
      {
        assert earlier[..i + 1][..i] == earlier[..i];
        if earlier[i].outcome.Applied? && earlier[i].outcome.receipt.seqNo > s.cursor {
          var k := RecordAt(r.suggestions, earlier[i].commentId);
          if k < |r.suggestions| {
            r := r.(suggestions := r.suggestions[k := r.suggestions[k].(outcome := earlier[i].outcome)]);
          }
        }
      }
      assert earlier[..|earlier|] == earlier;
    }

    /** A snapshot becomes the open review; pending mutations of the same review survive. */
    method Install(id: nat, s: Snapshot)
      modifies this
      ensures Value() == InstallSnapshot(old(Value()), id, s)
    {
      var snapshot := s;
      if id in snapshotEvents && reference.None? {
        snapshot := CatchUp(s, Sorted(snapshotEvents[id].events, (e: Event) => e.seqNo));
      }
      snapshotEvents := snapshotEvents - {id};
      var same := committed.Some? && committed.value.review.id == s.review.id;
      var kept := if same then pending else [];
      if same {
        snapshot := CarryReceipts(snapshot, committed.value.suggestions);
      }
      Close();
      committed, shown, pending := Some(snapshot), Some(snapshot), kept;
      RebaseShown();
    }

    /** Recorded events newer than the snapshot are folded in; a deletion among them closes the review. */
    method Land()
      modifies this
      ensures Value() == LandReference(old(Value()))
    {
      if reference.None? {
        return;
      }
      var events := reference.value.events;
      reference := None;
      if committed.Some? {
        var s, i := committed.value, 0;
        while i < |events|
          invariant 0 <= i <= |events|
          invariant LandEvents(s, events[i..]) == LandEvents(committed.value, events)
          invariant Value() == old(Value()).(reference := None)
        {
          var e := events[i];
          assert events[i..][1..] == events[i + 1..];
          if e.seqNo > s.cursor {
            if e.body.ReviewDeleted? {
              Close();
              return;
            }
            s := ApplyEvent(s, e).(cursor := e.seqNo);
          }
          i := i + 1;
        }
        committed := Some(s);
        RebaseShown();
      }
    }

    /** In-flight snapshots and references record the event; our own pending entry is retired. */
    method Note(e: Event)
      modifies this
      ensures Value() == Noted(old(Value()), e)
    {
      snapshotEvents := map id | id in snapshotEvents :: Recorded(snapshotEvents[id], e);
      if reference.Some? && e.body.Subject() == Some(reference.value.review) {
        reference := Some(reference.value.(events := reference.value.events + [e]));
      }
      if e.client == me {
        var _ := RetirePending(e.clientSeq);
      }
    }

    /** Fold a committed event: recordings first, then the open review, then the overlay. */
    method Apply(e: Event)
      modifies this
      ensures Value() == ApplyLive(old(Value()), e)
    {
      Note(e);
      if e.body.TargetsResolved? && shown.Some? && shown.value.review.id == e.body.reviewId && draft {
        deferred := deferred + [e];
        return;
      }
      if e.body.ReviewDeleted? && shown.Some? && shown.value.review.id == e.body.deleted {
        Close();
      }
      if committed.Some? && e.body.Subject() == Some(committed.value.review.id) {
        committed := Some(ApplyEvent(committed.value, e));
        RebaseShown();
      }
    }

    /** The draft closes and the held-back refreshes are applied. */
    method CloseDraft()
      modifies this
      ensures Value() == Client.CloseDraft(old(Value()))
    {
      hide ApplyLive;
      draft := false;
      var events := deferred;
      deferred := [];
      ghost var start := Value();
      for i := 0 to |events|
        invariant Value() == ApplyAll(start, events[..i])
      {
        assert events[..i + 1][..i] == events[..i];
        Apply(events[i]);
      }
      assert events[..|events|] == events;
    }

    /** A broadcast: applied once, in order; stale and ill-timed ones are refused unchanged. */
    method ServerEvent(e: Event) returns (taken: bool)
      modifies this
      ensures Value() == OnEvent(old(Value()), e) && taken == TakesEvent(old(Value()), e)
    {
      match connection {
        case Subscribed(last) =>
          if e.seqNo <= last { return false; }
          connection := Subscribed(e.seqNo);
        case Connecting(helloSent, last) =>
          if !helloSent || last.None? || e.seqNo <= last.value { return false; }
          connection := Connecting(true, Some(e.seqNo));
        case Disconnected(_) => return false;
      }
      Apply(e);
      taken := true;
    }

    method Answer(id: nat)
      modifies this`inFlight, this`snapshotEvents
      ensures Value() == Answered(old(Value()), id)
    {
      inFlight, snapshotEvents := inFlight - {id}, snapshotEvents - {id};
    }

    /** The response to a mutation; its broadcast may have come first. */
    method ServerCommitted(id: nat, e: Event)
      modifies this
      ensures Value() == OnCommitted(old(Value()), id, e)
    {
      if id !in inFlight || !inFlight[id].WaitMutate? || !connection.Subscribed? {
        return;
      }
      if connection.seqNo >= e.seqNo {
        var retired := RetirePending(inFlight[id].clientSeq);
        if retired {
          RebaseShown();
        } else {
          UnchangedWhenSameLength(old(pending), old(inFlight)[id].clientSeq);
        }
      } else {
        connection := Subscribed(e.seqNo);
        Apply(e);
      }
      Answer(id);
    }

    static lemma {:induction false} UnchangedWhenSameLength(pending: seq<Pending>, clientSeq: nat)
      ensures |Without(pending, clientSeq)| <= |pending|
      ensures |Without(pending, clientSeq)| == |pending| ==> Without(pending, clientSeq) == pending
    {
      if pending != [] {
        UnchangedWhenSameLength(pending[..|pending| - 1], clientSeq);
      }
    }

    method ServerError(id: nat, error: RpcError)
      modifies this
      ensures Value() == OnError(old(Value()), id, error)
    {
      snapshotEvents := snapshotEvents - {id};
      if id !in inFlight {
        return;
      }
      var w := inFlight[id];
      inFlight := inFlight - {id};
      match w
      case WaitSubscribe =>
      case WaitSnapshot(_) => if latestOpen == Some(id) { reference := None; }
      case WaitMutate(s) =>
        match error {
          case RestartInterrupted => MarkDelivery(s, OutcomeUnknown);
          case Restarting => MarkDelivery(s, NotAdmitted);
          case OtherError => var _ := RetirePending(s);
        }
        RebaseShown();
    }

    method ServerSnapshot(id: nat, s: Snapshot)
      modifies this
      ensures Value() == OnSnapshot(old(Value()), id, s)
    {
      if id !in inFlight || !inFlight[id].WaitSnapshot? {
        return;
      }
      if latestOpen == Some(id) {
        if inFlight[id].review != s.review.id {
          return;
        }
        Install(id, s);
        Land();
      }
      Answer(id);
    }

    /** Fresh requests for the refused entries, and what the overlay and the in-flight table become. */
    method Readmit(next: nat) returns (sends: seq<Send>, marked: seq<Pending>, waits: map<nat, Waiting>)
      ensures sends == Resent(pending, next) && marked == Readmitted(pending) && waits == WaitingFor(sends)
    {
      sends, marked, waits := [], [], map[];
      for i := 0 to |pending|
        invariant sends == Resent(pending[..i], next) && marked == Readmitted(pending[..i])
                  && waits == WaitingFor(sends)
      {
        assert pending[..i + 1][..i] == pending[..i];
        var p := pending[i];
        if p.delivery.NotAdmitted? {
          var send := SendMutate(next + |sends|, p.clientSeq, p.body);
          assert (sends + [send])[..|sends|] == sends;
          sends, waits := sends + [send], waits[send.id := WaitMutate(p.clientSeq)];
          p := p.(delivery := AwaitingReceipt);
        }
        marked := marked + [p];
      }
      assert pending[..|pending|] == pending;
    }

    /** Subscribed again: entries refused admission, and only those, are sent again. */
    method ServerSubscribed(id: nat, n: Seq) returns (sends: seq<Send>)
      modifies this
      ensures (Value(), sends) == OnSubscribed(old(Value()), id, n)
    {
      hide Resent, WaitingFor;
      sends := [];
      if id !in inFlight || !inFlight[id].WaitSubscribe? || !connection.Connecting? {
        return;
      }
      var last := n;
      if connection.last.Some? && connection.last.value > n {
        last := connection.last.value;
      }
      connection := Subscribed(last);
      var marked, waits;
      sends, marked, waits := Readmit(nextRequest);
      pending, nextRequest, inFlight := marked, nextRequest + |sends|, inFlight + waits;
      Answer(id);
    }

    /** The connection is gone: nothing is in flight, unanswered mutations have an unknown outcome. */
    method TransportDisconnected()
      modifies this
      ensures Value() == OnDisconnected(old(Value()))
    {
      connection := Disconnected(connection.LastSeq());
      snapshotEvents, reference, latestOpen, inFlight := map[], None, None, map[];
      var marked := [];
      for i := 0 to |pending|
        invariant marked == Uncertain(pending[..i])
      {
        assert pending[..i + 1][..i] == pending[..i];
        marked := marked + [if pending[i].delivery == AwaitingReceipt then pending[i].(delivery := OutcomeUnknown)
          else pending[i]];
      }
      assert pending[..|pending|] == pending;
      pending := marked;
    }
  }
}
