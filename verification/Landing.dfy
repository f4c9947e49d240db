/**
 Opening a reference: however live events interleave with the snapshot in flight, landing leaves the fold
 of the log up to the later of the snapshot and the live cursor, or closes a review that was deleted.
 */
module Landing {
  import opened Protocol
  import opened Events
  import opened Client
  import opened Replay

  // ---- what landing applies -------------------------------------------------

  /** The recorded events that exceed the running cursor. */
  function Newer(k: nat, events: seq<Event>): seq<Event>
    decreases |events|
  {
    if events == [] then []
    else if events[0].seqNo <= k then Newer(k, events[1..])
    else [events[0]] + Newer(events[0].seqNo, events[1..])
  }

  function CursorAfter(k: nat, events: seq<Event>): nat
    decreases |events|
  {
    if events == [] then k else if events[0].seqNo <= k then CursorAfter(k, events[1..])
        else CursorAfter(events[0].seqNo, events[1..])
  }

  lemma StepCursor(s: Snapshot, o: Op, k: nat)
    ensures Step(s.(cursor := k), o) == Step(s, o).(cursor := k)
  {
  }

  lemma {:induction false} RunCursor(s: Snapshot, ops: seq<Op>, k: nat)
    ensures Run(s.(cursor := k), ops) == Run(s, ops).(cursor := k)
    decreases |ops|
  {
    if ops != [] {
      StepCursor(s, ops[0], k);
      RunCursor(Step(s, ops[0]), ops[1..], k);
    }
  }

  /** Folding does not look at the cursor. */
  lemma FoldCursor(s: Snapshot, log: seq<Event>, k: nat)
    ensures Fold(s.(cursor := k), log) == Fold(s, log).(cursor := k)
  {
    FoldIsOps(s, log);
    FoldIsOps(s.(cursor := k), log);
    RunCursor(s, OpsOfLog(s.review.id, log), k);
  }

  predicate HasDeletion(events: seq<Event>) { exists i :: 0 <= i < |events| && events[i].body.ReviewDeleted? }

  lemma {:induction false} LandIsFold(s: Snapshot, events: seq<Event>)
    ensures LandEvents(s, events) == if HasDeletion(Newer(s.cursor, events)) then None
                                    else Some(
                                      Fold(s, Newer(s.cursor, events)).(cursor := CursorAfter(s.cursor, events)))
    decreases |events|
  {
    if events != [] {
      var e, rest := events[0], events[1..];
      if e.seqNo <= s.cursor {
        LandIsFold(s, rest);
      } else {
        var tail := Newer(e.seqNo, rest);
        assert Newer(s.cursor, events) == [e] + tail;
        var next := ApplyEvent(s, e).(cursor := e.seqNo);
        LandIsFold(next, rest);
        assert HasDeletion([e] + tail) <==> e.body.ReviewDeleted? || HasDeletion(tail) by {
          if HasDeletion(tail) {
            var i :| 0 <= i < |tail| && tail[i].body.ReviewDeleted?;
            assert ([e] + tail)[i + 1].body.ReviewDeleted?;
          }
          if e.body.ReviewDeleted? {
            assert ([e] + tail)[0].body.ReviewDeleted?;
          }
        }
        FoldConcat(s, [e], tail);
        FoldOne(s, e);
        FoldCursor(ApplyEvent(s, e), tail, e.seqNo);
      }
    }
  }

  // ---- the recording covers what the snapshot missed ------------------------

  predicate Mine(log: seq<Event>, review: ReviewId, j: nat) { j < |log| && log[j].body.Subject() == Some(review) }

  /** Event `j` is recorded, and nothing recorded before it is as new. */
  predicate FreshAt(log: seq<Event>, events: seq<Event>, j: nat, i: nat) {
    j < |log| && i < |events| && events[i] == log[j] && forall h | 0 <= h < i :: events[h].seqNo <= j
  }

  ghost predicate Covered(log: seq<Event>, events: seq<Event>, review: ReviewId, m: nat, last: nat) {
    forall j: nat | m <= j < last && Mine(log, review, j) :: exists i: nat :: FreshAt(log, events, j, i)
  }

  predicate FromLog(log: seq<Event>, e: Event, last: nat) { 1 <= e.seqNo <= last <= |log| && e == log[e.seqNo - 1] }

  ghost predicate Numbered(log: seq<Event>) { forall k | 0 <= k < |log| :: log[k].seqNo == k + 1 }

  lemma CoveredTail(log: seq<Event>, events: seq<Event>, review: ReviewId, k: nat, last: nat, next: nat)
    requires Numbered(log) && events != [] && Covered(log, events, review, k, last) && k <= next
             && events[0].seqNo <= next
    ensures Covered(log, events[1..], review, next, last)
  {
    forall j: nat | next <= j < last && Mine(log, review, j)
      ensures exists i: nat :: FreshAt(log, events[1..], j, i)
    {
      var i: nat :| FreshAt(log, events, j, i);
      assert FreshAt(log, events[1..], j, i - 1);
    }
  }

  /** Between the running cursor and the next accepted event nothing concerns the review. */
  lemma NothingSkipped(log: seq<Event>, events: seq<Event>, review: ReviewId, k: nat, last: nat, j: nat)
    requires Numbered(log) && Covered(log, events, review, k, last)
    requires events == [] ==> j < last
    requires events != [] ==> j + 1 < events[0].seqNo <= last
    requires k <= j
    ensures !Mine(log, review, j)
  {
  }

  lemma {:induction false} FoldIdle(s: Snapshot, log: seq<Event>, a: nat, n: nat)
    requires a <= n <= |log| && forall j: nat | a <= j < n :: !Mine(log, s.review.id, j)
    ensures Fold(s, log[..n]) == Fold(s, log[..a])
    decreases n - a
  {
    hide ApplyEvent, Fold, Run;
    if a < n {
      FoldIdle(s, log, a, n - 1);
      FoldNext(s, log, n - 1);
      FoldIsOps(s, log[..n - 1]);
      assert !Mine(log, s.review.id, n - 1);
      Foreign(Fold(s, log[..n - 1]), log[n - 1]);
    }
  }

  lemma Foreign(s: Snapshot, e: Event)
    requires e.body.Subject() != Some(s.review.id)
    ensures ApplyEvent(s, e) == s
  {
  }

  function Later(a: nat, b: nat): nat { if a < b then b else a }

  /** Landing over the covered recording reaches the later of the two cursors. */
  lemma {:induction false} LandReaches(b: Snapshot, log: seq<Event>, events: seq<Event>, k: nat, last: nat)
    requires Numbered(log) && k <= |log| && last <= |log|
    requires forall e | e in events :: FromLog(log, e, last)
    requires Covered(log, events, b.review.id, k, last)
    ensures Fold(Fold(b, log[..k]), Newer(k, events)) == Fold(b, log[..Later(k, last)])
    decreases |events|
  {
    hide ApplyEvent;
    if events == [] {
      forall j: nat | k <= j < last
        ensures !Mine(log, b.review.id, j)
      {
        NothingSkipped(log, events, b.review.id, k, last, j);
      }
      FoldIdle(b, log, k, Later(k, last));
    } else {
      var e, rest := events[0], events[1..];
      assert e in events;
      if e.seqNo <= k {
        CoveredTail(log, events, b.review.id, k, last, k);
        LandReaches(b, log, rest, k, last);
      } else {
        var n := e.seqNo;
        AcceptedNext(b, log, events, k, last);
        CoveredTail(log, events, b.review.id, k, last, n);
        LandReaches(b, log, rest, n, last);
        FoldConcat(Fold(b, log[..k]), [e], Newer(n, rest));
        FoldOne(Fold(b, log[..k]), e);
      }
    }
  }

  lemma AcceptedNext(b: Snapshot, log: seq<Event>, events: seq<Event>, k: nat, last: nat)
    requires Numbered(log) && events != [] && FromLog(log, events[0], last) && k < events[0].seqNo
    requires Covered(log, events, b.review.id, k, last)
    ensures ApplyEvent(Fold(b, log[..k]), events[0]) == Fold(b, log[..events[0].seqNo])
  {
    hide ApplyEvent;
    var n := events[0].seqNo;
    forall j: nat | k <= j < n - 1
      ensures !Mine(log, b.review.id, j)
    {
      NothingSkipped(log, events, b.review.id, k, last, j);
    }
    FoldIdle(b, log, k, n - 1);
    FoldNext(b, log, n - 1);
  }

  lemma {:induction false} NewerFrom(log: seq<Event>, events: seq<Event>, review: ReviewId, k: nat, last: nat)
    requires forall e | e in events :: FromLog(log, e, last) && e.body.Subject() == Some(review)
    ensures forall e | e in Newer(k, events) :: e in events && k < e.seqNo
    decreases |events|
  {
    if events != [] {
      var e := events[0];
      NewerFrom(log, events[1..], review, if e.seqNo <= k then k else e.seqNo, last);
    }
  }

  lemma {:induction false} NewerHas(log: seq<Event>, events: seq<Event>, review: ReviewId, k: nat, last: nat, j: nat)
    requires Numbered(log) && last <= |log| && Covered(log, events, review, k, last)
    requires forall e | e in events :: FromLog(log, e, last)
    requires k <= j < last && Mine(log, review, j)
    ensures log[j] in Newer(k, events)
    decreases |events|
  {
    hide Mine;
    if events == [] {
      NothingSkipped(log, events, review, k, last, j);
    } else {
      var e, rest := events[0], events[1..];
      assert e in events;
      var next := if e.seqNo <= k then k else e.seqNo;
      CoveredTail(log, events, review, k, last, next);
      if j + 1 < next {
        NothingSkipped(log, events, review, k, last, j);
      } else if j >= next {
        NewerHas(log, rest, review, next, last, j);
      }
    }
  }

  /** Exactly the missed events of the review are applied. */
  lemma NewerMembers(log: seq<Event>, events: seq<Event>, review: ReviewId, k: nat, last: nat)
    requires Numbered(log) && last <= |log|
    requires forall e | e in events :: FromLog(log, e, last) && e.body.Subject() == Some(review)
    requires Covered(log, events, review, k, last)
    ensures forall e | e in Newer(k, events) :: FromLog(log, e, last) && k < e.seqNo && Mine(log, review, e.seqNo - 1)
    ensures forall j: nat | k <= j < last && Mine(log, review, j) :: log[j] in Newer(k, events)
  {
    NewerFrom(log, events, review, k, last);
    hide Newer, Covered;
    forall j: nat | k <= j < last && Mine(log, review, j)
      ensures log[j] in Newer(k, events)
    {
      NewerHas(log, events, review, k, last, j);
    }
  }

  // ---- receipts carried over from the old snapshot --------------------------

  /** A receipt commutes with every operation but a different receipt of the same number. */
  lemma ReceiptSwaps(s: Snapshot, o: Op, g: Op)
    requires o.AddReceipt? && HasRecord(s, o.id)
    requires g.AddReceipt? && g.id == o.id && g.receipt.seqNo == o.receipt.seqNo ==> g == o
    ensures Step(Step(s, o), g) == Step(Step(s, g), o)
  {
    hide Created, RecordAt, WriteComment, Sorted;
    match g
    case AddComment_(c) => ReceiptThenCreate(s, o, c);
    case AddReceipt(id, r) => if id == o.id { ReceiptsOfOne(s, o, g); } else { ReceiptsApart(s, o, g); }
    case _ =>
  }

  lemma ReceiptThenCreate(s: Snapshot, o: Op, c: Comment)
    requires o.AddReceipt? && HasRecord(s, o.id)
    ensures Created(Step(s, o), c) == Step(Created(s, c), o)
  {
    var rs, i, more := s.suggestions, RecordAt(s.suggestions, o.id), RecordOf(c);
    RecordAtAppend(rs, more, o.id);
    assert (rs + more)[i] == rs[i];
    var applied := rs[i].(outcome := Applied(o.receipt));
    assert (rs + more)[i := applied] == rs[i := applied] + more;
  }

  lemma RecordAtAppend(rs: seq<SuggestionRecord>, more: seq<SuggestionRecord>, id: CommentId)
    requires RecordAt(rs, id) < |rs|
    ensures RecordAt(rs + more, id) == RecordAt(rs, id)
  {
    var i, j := RecordAt(rs + more, id), RecordAt(rs, id);
    assert (rs + more)[j] == rs[j];
    assert !(i < j) by {
      assert (rs + more)[..j] == rs[..j];
    }
  }

  lemma ReceiptsOfOne(s: Snapshot, o: Op, g: Op)
    requires o.AddReceipt? && g.AddReceipt? && g.id == o.id
    requires g.receipt.seqNo == o.receipt.seqNo ==> g == o
    ensures Step(Step(s, o), g) == Step(Step(s, g), o)
  {
    hide RecordAt;
    SameRecordAt(s, o, g.id);
    SameRecordAt(s, g, o.id);
    var rs, i := s.suggestions, RecordAt(s.suggestions, o.id);
    if i < |rs| {
      var p, q := rs[i].(outcome := Applied(o.receipt)), rs[i].(outcome := Applied(g.receipt));
      assert rs[i := p][i := q] == rs[i := q] && rs[i := q][i := p] == rs[i := p];
    }
  }

  lemma ReceiptsApart(s: Snapshot, o: Op, g: Op)
    requires o.AddReceipt? && g.AddReceipt? && g.id != o.id
    ensures Step(Step(s, o), g) == Step(Step(s, g), o)
  {
    hide RecordAt;
    SameRecordAt(s, o, g.id);
    SameRecordAt(s, g, o.id);
    var rs, i, j := s.suggestions, RecordAt(s.suggestions, o.id), RecordAt(s.suggestions, g.id);
    if i < |rs| && j < |rs| {
      var p, q := rs[i].(outcome := Applied(o.receipt)), rs[j].(outcome := Applied(g.receipt));
      assert i != j && rs[i := p][j := q] == rs[j := q][i := p];
    }
  }

  lemma SameRecordAt(s: Snapshot, o: Op, id: CommentId)
    requires o.AddReceipt?
    ensures RecordAt(Step(s, o).suggestions, id) == RecordAt(s.suggestions, id)
  {
    var rs, ts := s.suggestions, Step(s, o).suggestions;
    assert |ts| == |rs| && forall k | 0 <= k < |rs| :: ts[k].commentId == rs[k].commentId;
    var i, j := RecordAt(rs, id), RecordAt(ts, id);
  }

  predicate ReceiptsDiffer(ops: seq<Op>, o: Op)
    requires o.AddReceipt?
  {
    forall g | g in ops && g.AddReceipt? && g.id == o.id && g.receipt.seqNo == o.receipt.seqNo :: g == o
  }

  /** A receipt taken early is absorbed when its own event comes. */
  lemma {:induction false} ReceiptAbsorbed(s: Snapshot, o: Op, ops: seq<Op>)
    requires o.AddReceipt? && HasRecord(s, o.id) && o in ops && ReceiptsDiffer(ops, o)
    ensures Run(Step(s, o), ops) == Run(s, ops)
    decreases |ops|
  {
    var g, rest := ops[0], ops[1..];
    if g == o {
      assert Remembered(Step(s, o), o) by { AdditionRemembered(s, o); }
      RememberedIsStill(Step(s, o), o);
    } else {
      assert o in rest;
      ReceiptSwaps(s, o, g);
      StepKeepsIds(s, g);
      assert HasRecord(Step(s, g), o.id);
      ReceiptAbsorbed(Step(s, g), o, rest);
    }
  }

  predicate ReceiptsBelow(rs: seq<SuggestionRecord>, m: nat) {
    forall i | 0 <= i < |rs| && rs[i].outcome.Applied? :: rs[i].outcome.receipt.seqNo <= m
  }

  /** One record per comment. */
  predicate OneEach(rs: seq<SuggestionRecord>) {
    forall i, j | 0 <= i < j < |rs| :: rs[i].commentId != rs[j].commentId
  }

  /** The receipt of `r` is carried over into `s`: it lies beyond the cursor of `s`, which has the record. */
  predicate Carries(s: Snapshot, r: SuggestionRecord) {
    r.outcome.Applied? && s.cursor < r.outcome.receipt.seqNo && HasRecord(s, r.commentId)
  }

  /** Every receipt carried over is that of one of the events about to be landed. */
  ghost predicate CarriedFrom(s: Snapshot, rs: seq<SuggestionRecord>, ops: seq<Op>) {
    forall i | 0 <= i < |rs| && Carries(s, rs[i]) ::
      && AddReceipt(rs[i].commentId, rs[i].outcome.receipt) in ops
      && ReceiptsDiffer(ops, AddReceipt(rs[i].commentId, rs[i].outcome.receipt))
  }

  lemma SameIdsSameAt(rs: seq<SuggestionRecord>, ts: seq<SuggestionRecord>, id: CommentId)
    requires |rs| == |ts| && forall i | 0 <= i < |rs| :: rs[i].commentId == ts[i].commentId
    ensures RecordAt(rs, id) == RecordAt(ts, id)
  {
    var i, j := RecordAt(rs, id), RecordAt(ts, id);
  }

  /** Merging changes only outcomes, and only of comments the old snapshot has a record of. */
  lemma {:induction false} MergeShape(s: Snapshot, earlier: seq<SuggestionRecord>)
    ensures |MergeReceipts(s, earlier).suggestions| == |s.suggestions|
    ensures forall i | 0 <= i < |s.suggestions| ::
              && MergeReceipts(s, earlier).suggestions[i].commentId == s.suggestions[i].commentId
              && (MergeReceipts(s, earlier).suggestions[i] == s.suggestions[i] ||
                  exists h :: 0 <= h < |earlier| && earlier[h].commentId == s.suggestions[i].commentId)
    decreases |earlier|
  {
    if earlier != [] {
      hide RecordAt;
      MergeShape(s, earlier[..|earlier| - 1]);
    }
  }

  lemma {:induction false} MergeAbsorbed(s: Snapshot, earlier: seq<SuggestionRecord>, ops: seq<Op>)
    requires OneEach(earlier) && ReceiptsBelow(s.suggestions, s.cursor) && CarriedFrom(s, earlier, ops)
    ensures Run(MergeReceipts(s, earlier), ops) == Run(s, ops)
    decreases |earlier|
  {
    hide Run, RecordAt;
    if earlier != [] {
      var init, x := earlier[..|earlier| - 1], earlier[|earlier| - 1];
      MergeAbsorbed(s, init, ops);
      MergeShape(s, init);
      var merged := MergeReceipts(s, init);
      var i := RecordAt(merged.suggestions, x.commentId);
      if x.outcome.Applied? && s.cursor < x.outcome.receipt.seqNo && i < |merged.suggestions| {
        var o := AddReceipt(x.commentId, x.outcome.receipt);
        SameIdsSameAt(merged.suggestions, s.suggestions, x.commentId);
        assert merged.suggestions[i] == s.suggestions[i];
        assert MergeReceipts(s, earlier) == Step(merged, o);
        ReceiptAbsorbed(merged, o, ops);
      }
    }
  }
}
