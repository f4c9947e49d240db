/**
 What opening a review leaves, in every run: a reference holds the fold of the log up to the later of
 snapshot and cursor, and an ordinary open the snapshot with the revision events of the gap folded in.
 Where a promise fails, the exact condition under which it holds.
 */
module Openings {
  import opened Protocol
  import opened Events
  import opened Client
  import opened Session
  import opened Landing
  import opened ReferenceRuns
  import opened Receipts
  import opened Levels
  import Replay
  import Convergence
  import Shown = ShownIsOverlay

  /** The next message is a snapshot that will be installed. */
  ghost predicate Arriving(x: World) {
    x.down != [] && x.down[0].SnapshotReply? && Installs(x.client, x.down[0].id, x.down[0].snapshot)
  }

  /** A receipt about to be carried over lies beyond both cursors: a preview brought it ahead of its event. */
  predicate Overshoots(c: State, s: Snapshot) {
    SameReview(c, s) && exists i ::
      0 <= i < |c.committed.value.suggestions|
      && Ahead(c, s, c.committed.value.suggestions[i])
  }

  predicate Ahead(c: State, s: Snapshot, r: SuggestionRecord) { Carries(s, r) && Cursor(c) < r.outcome.receipt.seqNo }

  /** Every receipt about to be carried over is that of a delivered event. */
  ghost predicate Held(x: World, s: Snapshot) {
    SameReview(x.client, s) ==>
      var rs := x.client.committed.value.suggestions;
      && OneEach(rs)
      && forall i | 0 <= i < |rs| && Carries(s, rs[i]) ::
           HeldFrom(x.log, s.review.id, rs[i].commentId, rs[i].outcome.receipt, Cursor(x.client))
  }

  lemma HeldUnlessAhead(x: World, s: Snapshot)
    requires CopyFine(x.client, x.log) && !Overshoots(x.client, s)
    ensures Held(x, s)
  {
    if SameReview(x.client, s) {
      var rs := x.client.committed.value.suggestions;
      forall i | 0 <= i < |rs| && Carries(s, rs[i])
        ensures HeldFrom(x.log, s.review.id, rs[i].commentId, rs[i].outcome.receipt, Cursor(x.client))
      {
        assert BackedRecord(x.log, s.review.id, rs[i]);
        assert !Ahead(x.client, s, rs[i]);
      }
    }
  }

  lemma TrailingIsHeld(x: World, id: nat, s: Snapshot)
    requires Trails(x) && Travelling(x, id, s) && Installs(x.client, id, s)
    ensures !Overshoots(x.client, s)
  {
  }

  lemma ArrivingFacts(w: World, steps: seq<Step>)
    requires Start(w) && HonestRun(w, steps) && Arriving(Run(w, steps))
    ensures var x := Run(w, steps);
            && Sound(x) && Landable(x) && Convergence.Paced(x) && x.client.connection.LastSeq().Some?
            && Travelling(x, x.down[0].id, x.down[0].snapshot)
  {
    hide Landable, Convergence.Paced, CopyFine, AllHeard;
    assert steps[..|steps|] == steps;
    RunSound(w, steps, |steps|);
    assert Run(w, steps).down[0] in Run(w, steps).down;
  }

  // ---- references -----------------------------------------------------------

  lemma {:induction false} OpsOfMember(review: ReviewId, events: seq<Event>, e: Event, o: Replay.Op)
    requires e in events && o in Replay.OpsOf(review, e)
    ensures o in Replay.OpsOfLog(review, events)
  {
    if e != events[0] {
      OpsOfMember(review, events[1..], e, o);
    }
  }

  lemma {:induction false} OpsOfSource(review: ReviewId, events: seq<Event>, o: Replay.Op)
    requires o in Replay.OpsOfLog(review, events)
    ensures exists e :: e in events && o in Replay.OpsOf(review, e)
  {
    if o !in Replay.OpsOf(review, events[0]) {
      OpsOfSource(review, events[1..], o);
    }
  }

  /** A held receipt is the one its event brings when it is landed. */
  lemma HeldIsLanded(log: seq<Event>, review: ReviewId, events: seq<Event>, id: CommentId, r: Receipt, last: nat)
    requires HeldFrom(log, review, id, r, last) && log[r.seqNo - 1] in events && Delivered(log, events, last)
    ensures var o, ops := Replay.AddReceipt(id, r), Replay.OpsOfLog(review, events); o in ops && ReceiptsDiffer(ops, o)
  {
    var o, ops, e := Replay.AddReceipt(id, r), Replay.OpsOfLog(review, events), log[r.seqNo - 1];
    OpsOfMember(review, events, e, o);
    hide Replay.OpsOfLog;
    forall g | g in ops && g.AddReceipt? && g.id == id && g.receipt.seqNo == r.seqNo
      ensures g == o
    {
      OpsOfSource(review, events, g);
      SoleReceipt(log, review, events, o, g, last);
    }
  }

  lemma SoleReceipt(log: seq<Event>, review: ReviewId, events: seq<Event>, o: Replay.Op, g: Replay.Op, last: nat)
    requires o.AddReceipt? && g.AddReceipt? && g.id == o.id && g.receipt.seqNo == o.receipt.seqNo
    requires HeldFrom(log, review, o.id, o.receipt, last) && Delivered(log, events, last)
    requires exists f :: f in events && g in Replay.OpsOf(review, f)
    ensures g == o
  {
    var f :| f in events && g in Replay.OpsOf(review, f);
    assert FromLog(log, f, last);
  }

  lemma {:induction false} FoldReceiptsBelow(s: Snapshot, log: seq<Event>, m: nat)
    requires m <= |log| && Numbered(log) && s.suggestions == []
    ensures ReceiptsBelow(Fold(s, log[..m]).suggestions, m)
    decreases m
  {
    hide ApplyEvent;
    if m == 0 {
      assert log[..0] == [];
    } else {
      FoldReceiptsBelow(s, log, m - 1);
      Replay.FoldNext(s, log, m - 1);
      ReceiptsStep(Fold(s, log[..m - 1]), log[m - 1], m - 1);
    }
  }

  lemma ReceiptsStep(s: Snapshot, e: Event, m: nat)
    requires ReceiptsBelow(s.suggestions, m) && e.seqNo == m + 1
    ensures ReceiptsBelow(ApplyEvent(s, e).suggestions, m + 1)
  {
    hide ApplyEvent, Created;
    if e.body.SuggestionApplied? {
      LandingWrites(s, e);
    } else if e.body.CommentCreated? {
      CreationIs(s, e);
      CreationAdds(s, e.body.comment);
    } else {
      OtherWrites(s, e);
    }
  }

  lemma {:induction false} MergeKeepsCursor(s: Snapshot, earlier: seq<SuggestionRecord>)
    ensures var t := MergeReceipts(s, earlier);
            t.cursor == s.cursor && t.review == s.review && t.comments == s.comments
  {
    if earlier != [] {
      MergeKeepsCursor(s, earlier[..|earlier| - 1]);
    }
  }

  /** Carrying receipts over makes no difference once the recorded events are landed. */
  lemma CarryAbsorbed(x: World, id: nat, s: Snapshot, landed: seq<Event>)
    requires Landable(x) && Numbered(x.log) && Travelling(x, id, s) && SameReview(x.client, s) && Held(x, s)
    requires Delivered(x.log, landed, Cursor(x.client))
    requires forall j: nat | s.cursor <= j < Cursor(x.client) && Mine(x.log, s.review.id, j) :: x.log[j] in landed
    ensures Fold(MergeReceipts(s, x.client.committed.value.suggestions), landed) == Fold(s, landed)
  {
    hide Replay.OpsOfLog, ReceiptsDiffer, Fold, MergeReceipts, Covering;
    var earlier, ops := x.client.committed.value.suggestions, Replay.OpsOfLog(s.review.id, landed);
    FoldReceiptsBelow(x.genesis[s.review.id].(cursor := s.cursor), x.log, s.cursor);
    forall i | 0 <= i < |earlier| && Carries(s, earlier[i])
      ensures Replay.AddReceipt(earlier[i].commentId, earlier[i].outcome.receipt) in ops
      ensures ReceiptsDiffer(ops, Replay.AddReceipt(earlier[i].commentId, earlier[i].outcome.receipt))
    {
      var r := earlier[i].outcome.receipt;
      assert Mine(x.log, s.review.id, r.seqNo - 1);
      HeldIsLanded(x.log, s.review.id, landed, earlier[i].commentId, r, Cursor(x.client));
    }
    MergeAbsorbed(s, earlier, ops);
    MergeKeepsCursor(s, earlier);
    Replay.FoldIsOps(s, landed);
    Replay.FoldIsOps(MergeReceipts(s, earlier), landed);
  }

  predicate DeletedBetween(log: seq<Event>, review: ReviewId, m: nat, last: nat) {
    exists j: nat :: m <= j < last && j < |log| && log[j].body == ReviewDeleted(review)
  }

  lemma DeletionsMatch(log: seq<Event>, review: ReviewId, m: nat, last: nat, landed: seq<Event>)
    requires forall e | e in landed :: FromLog(log, e, last) && m < e.seqNo && Mine(log, review, e.seqNo - 1)
    requires forall j: nat | m <= j < last && Mine(log, review, j) :: log[j] in landed
    ensures HasDeletion(landed) <==> DeletedBetween(log, review, m, last)
  {
    if HasDeletion(landed) {
      var i :| 0 <= i < |landed| && landed[i].body.ReviewDeleted?;
      assert landed[i] in landed;
      var j: nat := landed[i].seqNo - 1;
      assert log[j].body == ReviewDeleted(review);
    }
    if DeletedBetween(log, review, m, last) {
      var j: nat :| m <= j < last && j < |log| && log[j].body == ReviewDeleted(review);
      assert Mine(log, review, j);
      var i :| 0 <= i < |landed| && landed[i] == log[j];
    }
  }

  /** An overshooting receipt stays in the merged copy. */
  lemma {:induction false} MergeTakes(s: Snapshot, earlier: seq<SuggestionRecord>, i: nat)
    requires OneEach(earlier) && i < |earlier| && Carries(s, earlier[i])
    ensures Has(MergeReceipts(s, earlier), earlier[i].commentId, earlier[i].outcome.receipt.seqNo)
    decreases |earlier|
  {
    hide RecordAt;
    var init, x := earlier[..|earlier| - 1], earlier[|earlier| - 1];
    var before, after := MergeReceipts(s, init), MergeReceipts(s, earlier);
    MergeShape(s, init);
    MergeShape(s, earlier);
    SameIdsSameAt(before.suggestions, s.suggestions, earlier[i].commentId);
    SameIdsSameAt(after.suggestions, s.suggestions, earlier[i].commentId);
    if i < |init| {
      MergeTakes(s, init, i);
    }
  }

  /** The record of `id` holds receipt number `n` or a later one. */
  predicate Has(s: Snapshot, id: CommentId, n: Seq) {
    var i := RecordAt(s.suggestions, id);
    i < |s.suggestions| && s.suggestions[i].outcome.Applied? && n <= s.suggestions[i].outcome.receipt.seqNo
  }

  lemma FoldHas(s: Snapshot, events: seq<Event>, id: CommentId, n: Seq)
    requires Has(s, id, n)
    ensures Has(Fold(s, events), id, n)
  {
    hide Fold, Replay.Run, Replay.OpsOfLog;
    var ops := Replay.OpsOfLog(s.review.id, events);
    var o := Replay.AddReceipt(id, s.suggestions[RecordAt(s.suggestions, id)].outcome.receipt);
    Replay.FoldIsOps(s, events);
    RunKeepsRecord(s, ops, id);
    Replay.RunKeepsRemembered(s, ops, o);
  }

  lemma {:induction false} RunKeepsRecord(s: Snapshot, ops: seq<Replay.Op>, id: CommentId)
    requires Replay.HasRecord(s, id)
    ensures Replay.HasRecord(Replay.Run(s, ops), id)
    decreases |ops|
  {
    if ops != [] {
      Replay.StepKeepsIds(s, ops[0]);
      RunKeepsRecord(Replay.Step(s, ops[0]), ops[1..], id);
    }
  }

  lemma HasNotBelow(s: Snapshot, id: CommentId, n: Seq, m: nat)
    requires Has(s, id, n) && m < n
    ensures !ReceiptsBelow(s.suggestions, m)
  {
    var i := RecordAt(s.suggestions, id);
    assert m < s.suggestions[i].outcome.receipt.seqNo;
  }

  lemma OvershootStays(c: State, s: Snapshot, events: seq<Event>)
    requires Overshoots(c, s) && OneEach(c.committed.value.suggestions)
    ensures !ReceiptsBelow(Fold(MergeReceipts(s, c.committed.value.suggestions), events).suggestions,
            MaxOf(s.cursor, Cursor(c)))
  {
    hide Fold, MergeReceipts, Has, ReceiptsBelow;
    var rs := c.committed.value.suggestions;
    var i :| 0 <= i < |rs| && Ahead(c, s, rs[i]);
    var id, n := rs[i].commentId, rs[i].outcome.receipt.seqNo;
    MergeTakes(s, rs, i);
    FoldHas(MergeReceipts(s, rs), events, id, n);
    HasNotBelow(Fold(MergeReceipts(s, rs), events), id, n, MaxOf(s.cursor, Cursor(c)));
  }

  /** The landed snapshot: closed by a deletion, otherwise the fold unless a receipt overshoots. */
  lemma LandedSnapshot(x: World, id: nat, s: Snapshot)
    requires Sound(x) && Landable(x) && Numbered(x.log) && Cursor(x.client) <= |x.log| && Travelling(x, id, s)
             && Installs(x.client, id, s)
    requires x.client.reference.Some? && x.client.connection.LastSeq().Some?
    ensures var c := x.client; var last := Cursor(c);
            var landed := LandEvents(Installed(c, id, s), c.reference.value.events);
            if DeletedBetween(x.log, s.review.id, s.cursor, last) then landed == None
            else
              && landed.Some?
              && (landed.value == Fold(x.genesis[s.review.id].(cursor := landed.value.cursor),
                 x.log[..MaxOf(s.cursor, last)])
                  <==> !Overshoots(c, s))
  {
    hide Fold, MergeReceipts, LandEvents, Newer, Covered, Overshoots, Shapely, Backed, AllHeard, Held, ReceiptsBelow;
    hide DeletedBetween, HasDeletion;
    var c, r := x.client, x.client.reference.value;
    var last, m, b := Cursor(c), s.cursor, x.genesis[s.review.id].(cursor := s.cursor);
    assert r.review == s.review.id;
    var landed := Newer(m, r.events);
    NewerMembers(x.log, r.events, r.review, m, last);
    DeletionsMatch(x.log, r.review, m, last, landed);
    LandReaches(b, x.log, r.events, m, last);
    var installed := Installed(c, id, s);
    InstalledIs(c, id, s);
    if SameReview(c, s) {
      MergeKeepsCursor(s, c.committed.value.suggestions);
      if !Overshoots(c, s) {
        HeldUnlessAhead(x, s);
        CarryAbsorbed(x, id, s, landed);
      } else {
        CopyOneEach(x);
        OvershootStays(c, s, landed);
        FoldReceiptsBelow(x.genesis[s.review.id], x.log, MaxOf(m, last));
      }
    } else {
      OvershootsSame(c, s);
    }
    LandIsFold(installed, r.events);
    FoldCursor(b, x.log[..MaxOf(m, last)], CursorAfter(m, r.events));
    FoldCursor(x.genesis[s.review.id], x.log[..MaxOf(m, last)], CursorAfter(m, r.events));
  }

  lemma InstalledIs(c: State, id: nat, s: Snapshot)
    requires c.reference.Some?
    ensures Installed(c, id, s) == if SameReview(c, s) then MergeReceipts(s, c.committed.value.suggestions) else s
  {
  }

  lemma CopyOneEach(x: World)
    requires CopyFine(x.client, x.log) && x.client.committed.Some?
    ensures OneEach(x.client.committed.value.suggestions)
  {
  }

  lemma OvershootsSame(c: State, s: Snapshot)
    requires !SameReview(c, s)
    ensures !Overshoots(c, s)
  {
  }

  lemma LandedParts(c: State, id: nat, s: Snapshot)
    requires Installs(c, id, s) && c.reference.Some?
    ensures OnSnapshot(c, id, s).committed == LandEvents(Installed(c, id, s), c.reference.value.events)
    ensures OnSnapshot(c, id, s).committed.None? ==> OnSnapshot(c, id, s).shown.None?
  {
    hide Installed;
    var d := InstallSnapshot(c, id, s);
    assert d.committed == Some(Installed(c, id, s)) && d.reference == c.reference;
  }

  /**
   Landing closes the snapshot/live race: the review is closed if its deletion was delivered meanwhile,
   and otherwise holds the fold of the log up to the later of the two cursors exactly when no receipt
   overshoots.
   */
  lemma {:induction false} ReferenceLandsExactly(w: World, steps: seq<Step>)
    requires Start(w) && HonestRun(w, steps) && Arriving(Run(w, steps)) && Run(w, steps).client.reference.Some?
    ensures var x, y := Run(w, steps), DeliverStep(Run(w, steps)); var s, last := x.down[0].snapshot, Cursor(x.client);
            if DeletedBetween(x.log, s.review.id, s.cursor, last) then y.client.committed.None? && y.client.shown.None?
            else
              && s.review.id in x.genesis && y.client.committed.Some? && MaxOf(s.cursor, last) <= |x.log|
              && (y.client.committed.value
                  == Fold(x.genesis[s.review.id].(cursor := y.client.committed.value.cursor),
                    x.log[..MaxOf(s.cursor, last)])
                  <==> !Overshoots(x.client, s))
              && (!Overshoots(x.client, s) ==> y.basis.Some?)
  {
    hide Sound, Covering, Recent, LandEvents, Installed, OnSnapshot, Overshoots, DeletedBetween;
    ArrivingFacts(w, steps);
    var x := Run(w, steps);
    var id, s := x.down[0].id, x.down[0].snapshot;
    LandedSnapshot(x, id, s);
    LandedParts(x.client, id, s);
  }

  /** Without previews nothing overshoots. */
  lemma NoPreviewsNoOvershoot(w: World, steps: seq<Step>)
    requires Start(w) && NoPreviews(steps) && Arriving(Run(w, steps))
    ensures FreshRun(w, steps) && !Overshoots(Run(w, steps).client, Run(w, steps).down[0].snapshot)
  {
    hide Sound, Landable, Convergence.Paced, Overshoots, Trails, FreshRun, HonestRun;
    NoPreviewsFresh(w, steps);
    assert HonestRun(w, steps) by { FreshIsHonest(w, steps); }
    ArrivingFacts(w, steps);
    RunLevel(w, steps, |steps|, true);
    assert steps[..|steps|] == steps;
    TrailingIsHeld(Run(w, steps), Run(w, steps).down[0].id, Run(w, steps).down[0].snapshot);
  }

  lemma FreshIsHonest(w: World, steps: seq<Step>)
    requires FreshRun(w, steps)
    ensures HonestRun(w, steps)
  {
  }

  /** In every run without previews a reference lands on the fold. */
  lemma {:induction false} ReferenceLands(w: World, steps: seq<Step>)
    requires Start(w) && NoPreviews(steps) && Arriving(Run(w, steps)) && Run(w, steps).client.reference.Some?
    ensures var x, y := Run(w, steps), DeliverStep(Run(w, steps)); var s, last := x.down[0].snapshot, Cursor(x.client);
            if DeletedBetween(x.log, s.review.id, s.cursor, last) then y.client.committed.None? && y.client.shown.None?
            else
              && s.review.id in x.genesis && y.client.committed.Some? && MaxOf(s.cursor, last) <= |x.log|
              && y.client.committed.value
                 == Fold(x.genesis[s.review.id].(cursor := y.client.committed.value.cursor),
                   x.log[..MaxOf(s.cursor, last)])
              && y.basis.Some?
  {
    hide Overshoots, DeletedBetween, DeliverStep, NoPreviews, HonestRun;
    NoPreviewsNoOvershoot(w, steps);
    FreshIsHonest(w, steps);
    ReferenceLandsExactly(w, steps);
  }

  // ---- ordinary opens -------------------------------------------------------

  /** The revision events of a review between two positions of the log, in order. */
  function Gap(log: seq<Event>, review: ReviewId, m: nat, last: nat): seq<Event>
    requires last <= |log|
    decreases last
  {
    if last <= m then []
    else
      var e := log[last - 1];
      Gap(log, review, m, last - 1) + (if Mine(log, review, last - 1) && IsRevision(e.body) then [e] else [])
  }

  predicate StrictlyAscending(events: seq<Event>) {
    forall i, j | 0 <= i < j < |events| :: events[i].seqNo < events[j].seqNo
  }

  /** A revision event of the review from beyond `m`, delivered. */
  predicate InGap(log: seq<Event>, review: ReviewId, m: nat, last: nat, e: Event) {
    FromLog(log, e, last) && m < e.seqNo && e.body.Subject() == Some(review) && IsRevision(e.body)
  }

  lemma {:induction false} GapIs(log: seq<Event>, review: ReviewId, m: nat, last: nat)
    requires last <= |log| && Numbered(log)
    ensures StrictlyAscending(Gap(log, review, m, last))
    ensures forall e :: e in Gap(log, review, m, last) <==> InGap(log, review, m, last, e)
    decreases last
  {
    hide StrictlyAscending, InGap;
    if m < last {
      GapIs(log, review, m, last - 1);
      InGapNext(log, review, m, last);
      var init, e := Gap(log, review, m, last - 1), log[last - 1];
      if Mine(log, review, last - 1) && IsRevision(e.body) {
        AscendingSnoc(init, e, last - 1);
      } else {
        assert Gap(log, review, m, last) == init;
      }
    } else {
      NoGap(log, review, m, last);
    }
  }

  lemma NoGap(log: seq<Event>, review: ReviewId, m: nat, last: nat)
    requires last <= m
    ensures StrictlyAscending([]) && forall e :: !InGap(log, review, m, last, e)
  {
  }

  /** The gap grows by the next event if that is a revision of the review. */
  lemma InGapNext(log: seq<Event>, review: ReviewId, m: nat, last: nat)
    requires m < last <= |log| && Numbered(log)
    ensures forall e :: InGap(log, review, m, last, e) <==>
                          InGap(log, review, m, last - 1, e)
                            || (e == log[last - 1] && Mine(log, review, last - 1) && IsRevision(e.body))
    ensures forall e | InGap(log, review, m, last - 1, e) :: e.seqNo <= last - 1
  {
  }

  lemma AscendingSnoc(events: seq<Event>, e: Event, n: nat)
    requires StrictlyAscending(events) && (forall x | x in events :: x.seqNo <= n) && e.seqNo == n + 1
    ensures StrictlyAscending(events + [e])
  {
    assert forall i | 0 <= i < |events| :: events[i] in events;
  }

  lemma {:induction false} SameAscending(xs: seq<Event>, ys: seq<Event>)
    requires StrictlyAscending(xs) && StrictlyAscending(ys) && forall e :: e in xs <==> e in ys
    ensures xs == ys
    decreases |xs|
  {
    assert ys != [] ==> ys[|ys| - 1] in xs;
    if xs != [] {
      var x := xs[|xs| - 1];
      assert x in ys;
      var y := ys[|ys| - 1];
      assert y in xs;
      var i :| 0 <= i < |xs| && xs[i] == y;
      var j :| 0 <= j < |ys| && ys[j] == x;
      assert x == y && i == |xs| - 1 && j == |ys| - 1;
      InitMembers(xs);
      InitMembers(ys);
      var xi, yi := xs[..|xs| - 1], ys[..|ys| - 1];
      assert forall e :: e in xi <==> e in yi by {
        assert forall e :: e in xi ==> e in xs;
        assert forall e :: e in yi ==> e in ys;
      }
      SameAscending(xs[..|xs| - 1], ys[..|ys| - 1]);
    }
  }

  lemma InitMembers(xs: seq<Event>)
    requires StrictlyAscending(xs) && xs != []
    ensures forall e :: e in xs[..|xs| - 1] <==> e in xs && e != xs[|xs| - 1]
  {
  }

  /** The events beyond `m`, as catching up takes them. */
  function Above(m: nat, events: seq<Event>): seq<Event> {
    if events == [] then []
    else Above(m, events[..|events| - 1]) + (if events[|events| - 1].seqNo > m then [events[|events| - 1]] else [])
  }

  lemma {:induction false} ReplayIsFold(s: Snapshot, events: seq<Event>)
    ensures ReplayNewer(s, events) == Fold(s, Above(s.cursor, events))
    decreases |events|
  {
    hide ApplyEvent;
    if events != [] {
      var init, e := events[..|events| - 1], events[|events| - 1];
      ReplayIsFold(s, init);
      if e.seqNo > s.cursor {
        Convergence.FoldSnoc(s, Above(s.cursor, init), e);
      } else {
        assert Above(s.cursor, events) == Above(s.cursor, init);
      }
    }
  }

  lemma {:induction false} AboveIs(m: nat, events: seq<Event>)
    requires StrictlyAscending(events)
    ensures StrictlyAscending(Above(m, events))
    ensures forall e :: e in Above(m, events) <==> e in events && m < e.seqNo
    decreases |events|
  {
    if events != [] {
      var init, e := events[..|events| - 1], events[|events| - 1];
      AboveIs(m, init);
      InitMembers(events);
      var before := Above(m, init);
      assert forall i | 0 <= i < |before| :: before[i] in before;
      assert forall x | x in init :: x.seqNo < e.seqNo;
    }
  }

  lemma {:induction false} InsertStrict(xs: seq<Event>, e: Event)
    requires StrictlyAscending(xs) && forall x | x in xs :: x.seqNo != e.seqNo
    ensures StrictlyAscending(Insert(xs, e, (d: Event) => d.seqNo))
    decreases |xs|
  {
    var key := (d: Event) => d.seqNo;
    InsertMembers(xs, e, key);
    if xs == [] || key(e) < key(xs[0]) {
      assert Insert(xs, e, key) == [e] + xs;
    } else {
      var rest := Insert(xs[1..], e, key);
      InsertStrict(xs[1..], e);
      InsertMembers(xs[1..], e, key);
      FirstStrict(xs[0], rest);
    }
  }

  lemma FirstStrict(first: Event, rest: seq<Event>)
    requires StrictlyAscending(rest) && forall x | x in rest :: first.seqNo < x.seqNo
    ensures StrictlyAscending([first] + rest)
  {
    assert forall i | 0 <= i < |rest| :: rest[i] in rest;
  }

  lemma {:induction false} InsertMembers(xs: seq<Event>, e: Event, key: Event -> nat)
    ensures forall x :: x in Insert(xs, e, key) <==> x in xs || x == e
  {
    var r := Insert(xs, e, key);
    forall x
      ensures x in r <==> x in xs || x == e
    {
      assert x in r <==> x in multiset(r);
    }
  }

  lemma {:induction false} SortedStrict(xs: seq<Event>)
    requires forall i, j | 0 <= i < j < |xs| :: xs[i].seqNo != xs[j].seqNo
    ensures var r := Sorted(xs, (d: Event) => d.seqNo); StrictlyAscending(r) && forall x :: x in r <==> x in xs
    decreases |xs|
  {
    if xs != [] {
      var init, e := xs[..|xs| - 1], xs[|xs| - 1];
      SortedStrict(init);
      var r := Sorted(init, (d: Event) => d.seqNo);
      InsertStrict(r, e);
      InsertMembers(r, e, (d: Event) => d.seqNo);
      assert forall x :: x in xs <==> x in init || x == e;
    }
  }

  lemma RecordedMembers(log: seq<Event>, r: Recording, m: nat, last: nat)
    requires Revised(r) && Heard(log, r, m, last) && Delivered(log, r.events, last)
    ensures forall e :: e in r.events && m < e.seqNo <==> InGap(log, r.review, m, last, e)
  {
    forall e
      ensures e in r.events && m < e.seqNo <==> InGap(log, r.review, m, last, e)
    {
      if InGap(log, r.review, m, last, e) {
        assert Mine(log, r.review, e.seqNo - 1);
      }
    }
  }

  lemma RecordedFacts(x: World, id: nat, s: Snapshot)
    requires Sound(x) && Landable(x) && Travelling(x, id, s) && Installs(x.client, id, s)
    ensures id in x.client.snapshotEvents
    ensures var r := x.client.snapshotEvents[id];
            && r.review == s.review.id && Revised(r) && Heard(x.log, r, s.cursor, Cursor(x.client))
            && Delivered(x.log, r.events, Cursor(x.client))
  {
    hide CopyFine, Truthful, Covering, Revised, Heard, Delivered;
  }

  /** What an in-flight open recorded beyond its snapshot is the gap. */
  lemma RecordedIsGap(x: World, id: nat, s: Snapshot)
    requires Sound(x) && Landable(x) && Numbered(x.log) && Cursor(x.client) <= |x.log| && Travelling(x, id, s)
             && Installs(x.client, id, s)
    ensures id in x.client.snapshotEvents
    ensures Above(s.cursor, Sorted(x.client.snapshotEvents[id].events, (e: Event) => e.seqNo))
            == Gap(x.log, s.review.id, s.cursor, Cursor(x.client))
  {
    hide Sound, Landable, StrictlyAscending, InGap;
    RecordedFacts(x, id, s);
    var r, last := x.client.snapshotEvents[id], Cursor(x.client);
    RecordedMembers(x.log, r, s.cursor, last);
    SortedStrict(r.events);
    AboveIs(s.cursor, Sorted(r.events, (e: Event) => e.seqNo));
    GapIs(x.log, s.review.id, s.cursor, last);
    SameAscending(Above(s.cursor, Sorted(r.events, (e: Event) => e.seqNo)), Gap(x.log, s.review.id, s.cursor, last));
  }

  // ---- receipts of the gap --------------------------------------------------

  /** The landing has left its receipt, or a later one is there. */
  predicate Marked(s: Snapshot, e: Event)
    requires e.body.SuggestionApplied?
  {
    forall i | 0 <= i < |s.suggestions| && s.suggestions[i].commentId == e.body.commentId ::
      s.suggestions[i].outcome.Applied? && e.seqNo <= s.suggestions[i].outcome.receipt.seqNo
  }

  lemma LandingRaises(s: Snapshot, e: Event, i: nat)
    requires e.body.SuggestionApplied? && i < |s.suggestions| && s.suggestions[i].outcome.Applied?
    ensures var t := ApplyEvent(s, e);
            |t.suggestions| == |s.suggestions| && t.suggestions[i].outcome.Applied?
            && s.suggestions[i].outcome.receipt.seqNo <= t.suggestions[i].outcome.receipt.seqNo
  {
  }

  lemma MarkedStays(s: Snapshot, e: Event, f: Event)
    requires e.body.SuggestionApplied? && Marked(s, e) && !f.body.CommentCreated?
    ensures Marked(ApplyEvent(s, f), e)
  {
    hide ApplyEvent;
    var t := ApplyEvent(s, f);
    if f.body.SuggestionApplied? {
      LandingWrites(s, f);
      forall i | 0 <= i < |t.suggestions| && t.suggestions[i].commentId == e.body.commentId
        ensures t.suggestions[i].outcome.Applied? && e.seqNo <= t.suggestions[i].outcome.receipt.seqNo
      {
        LandingRaises(s, f, i);
      }
    } else {
      OtherWrites(s, f);
    }
  }

  lemma LandingMarks(s: Snapshot, e: Event)
    requires Shapely(s) && e.body.SuggestionApplied? && e.body.reviewId == s.review.id
    ensures Marked(ApplyEvent(s, e), e)
  {
    hide ApplyEvent, Shapely;
    LandingWrites(s, e);
    var t := ApplyEvent(s, e);
    forall i | 0 <= i < |t.suggestions| && t.suggestions[i].commentId == e.body.commentId
      ensures t.suggestions[i].outcome.Applied? && e.seqNo <= t.suggestions[i].outcome.receipt.seqNo
    {
      LandingLeaves(s, e, i);
    }
  }

  /** Catching up over the gap: receipts beyond the snapshot come from the gap, and none of the gap is lost. */
  ghost predicate CaughtUp(log: seq<Event>, s: Snapshot, last: nat, t: Snapshot) {
    && Shapely(t) && Backed(log, t) && SameShape(s, t) && t.cursor == s.cursor && Within(t.suggestions, s.cursor, last)
    && forall j: nat | s.cursor <= j < last && j < |log| && log[j].body.SuggestionApplied?
       && Mine(log, s.review.id, j) :: Marked(t, log[j])
  }

  lemma EventKeepsCursor(s: Snapshot, e: Event)
    ensures ApplyEvent(s, e).cursor == s.cursor && ApplyEvent(s, e).review.id == s.review.id
  {
    Replay.EventIsOps(s, e);
  }

  lemma ShapesChain(s: Snapshot, t: Snapshot, u: Snapshot)
    requires SameShape(s, t) && SameShape(t, u)
    ensures SameShape(s, u)
  {
  }

  lemma RevisionShape(s: Snapshot, e: Event)
    requires !e.body.CommentCreated?
    ensures SameShape(s, ApplyEvent(s, e))
  {
    hide ApplyEvent;
    if e.body.SuggestionApplied? {
      LandingWrites(s, e);
    } else {
      OtherWrites(s, e);
    }
  }

  lemma {:induction false} GapCaughtUp(log: seq<Event>, s: Snapshot, last: nat)
    requires last <= |log| && Numbered(log) && Shapely(s) && Backed(log, s) && ReceiptsBelow(s.suggestions, s.cursor)
    ensures CaughtUp(log, s, last, Fold(s, Gap(log, s.review.id, s.cursor, last)))
    decreases last
  {
    hide ApplyEvent, Fold, Shapely, Backed, CaughtUp, ReceiptsBelow, Numbered;
    if last <= s.cursor {
      NothingMissed(log, s, last);
    } else {
      GapCaughtUp(log, s, last - 1);
      var init, e := Gap(log, s.review.id, s.cursor, last - 1), log[last - 1];
      if Mine(log, s.review.id, last - 1) && IsRevision(e.body) {
        Convergence.FoldSnoc(s, init, e);
        CaughtUpNext(log, s, last - 1, Fold(s, init));
      } else {
        assert Gap(log, s.review.id, s.cursor, last) == init;
        CaughtUpPast(log, s, last - 1, Fold(s, init));
      }
    }
  }

  lemma NothingMissed(log: seq<Event>, s: Snapshot, last: nat)
    requires last <= s.cursor && Shapely(s) && Backed(log, s) && ReceiptsBelow(s.suggestions, s.cursor)
    ensures CaughtUp(log, s, last, Fold(s, []))
  {
    hide Shapely, Backed, SameShape, Within, ReceiptsBelow;
    NothingBeyond(s, last);
  }

  lemma CaughtUpPast(log: seq<Event>, s: Snapshot, n: nat, t: Snapshot)
    requires n < |log| && CaughtUp(log, s, n, t) && !(Mine(log, s.review.id, n) && IsRevision(log[n].body))
    ensures CaughtUp(log, s, n + 1, t)
  {
    hide Shapely, Backed, SameShape, Within, Marked;
    WithinLater(t.suggestions, s.cursor, n);
  }

  lemma NothingBeyond(s: Snapshot, last: nat)
    requires ReceiptsBelow(s.suggestions, s.cursor)
    ensures SameShape(s, s) && Within(s.suggestions, s.cursor, last)
  {
  }

  lemma CaughtUpNext(log: seq<Event>, s: Snapshot, n: nat, t: Snapshot)
    requires n < |log| && Numbered(log) && CaughtUp(log, s, n, t)
    requires Mine(log, s.review.id, n) && IsRevision(log[n].body)
    ensures CaughtUp(log, s, n + 1, ApplyEvent(t, log[n]))
  {
    hide ApplyEvent, Shapely, Backed, Marked, Within;
    var e, u := log[n], ApplyEvent(t, log[n]);
    EventFine(log, t, e);
    EventKeepsCursor(t, e);
    RevisionShape(t, e);
    ShapesChain(s, t, u);
    WithinNext(t, e, s.cursor, n);
    forall j: nat | s.cursor <= j < n + 1 && log[j].body.SuggestionApplied? && Mine(log, s.review.id, j)
      ensures Marked(u, log[j])
    {
      if j < n {
        MarkedStays(t, log[j], e);
      } else {
        LandingMarks(t, e);
      }
    }
  }

  /** Merging changes nothing when every carried receipt is already there. */
  lemma {:induction false} MergeIdle(s: Snapshot, earlier: seq<SuggestionRecord>)
    requires forall i | 0 <= i < |earlier| && Carries(s, earlier[i]) ::
               s.suggestions[RecordAt(s.suggestions, earlier[i].commentId)].outcome == earlier[i].outcome
    ensures MergeReceipts(s, earlier) == s
    decreases |earlier|
  {
    if earlier != [] {
      MergeIdle(s, earlier[..|earlier| - 1]);
    }
  }

  /** A carried receipt of a delivered event is the newest of the gap, and catching up restores it. */
  lemma CarriedIsCaughtUp(x: World, id: nat, s: Snapshot, t: Snapshot, i: nat)
    requires Sound(x) && Landable(x) && Numbered(x.log) && Travelling(x, id, s) && Installs(x.client, id, s)
             && Newest(x.client)
    requires SameReview(x.client, s) && i < |x.client.committed.value.suggestions|
    requires !Ahead(x.client, s, x.client.committed.value.suggestions[i])
             && Carries(s, x.client.committed.value.suggestions[i])
    requires CaughtUp(x.log, s, Cursor(x.client), t) && Cursor(x.client) <= |x.log|
    ensures var r := x.client.committed.value.suggestions[i];
            RecordAt(t.suggestions, r.commentId) < |t.suggestions|
              && t.suggestions[RecordAt(t.suggestions, r.commentId)].outcome == r.outcome
  {
    hide Shapely, Truthful, Covering, AllHeard, RecordAt;
    var c := x.client;
    var r, last := c.committed.value.suggestions[i], Cursor(c);
    var k := RecordAt(t.suggestions, r.commentId);
    SameIdsSameAt(s.suggestions, t.suggestions, r.commentId);
    assert BackedRecord(x.log, s.review.id, r);
    var n := r.outcome.receipt.seqNo;
    assert Mine(x.log, s.review.id, n - 1);
    assert Marked(t, x.log[n - 1]);
    assert n <= t.suggestions[k].outcome.receipt.seqNo;
    assert BackedRecord(x.log, s.review.id, t.suggestions[k]);
    var q := t.suggestions[k].outcome.receipt.seqNo;
    assert q <= last by {
      assert Within(t.suggestions, s.cursor, last);
    }
    RecordedLanding(x, id, s, q - 1);
    assert q <= n;
  }

  /** A landing of the gap is recorded. */
  lemma RecordedLanding(x: World, id: nat, s: Snapshot, j: nat)
    requires Sound(x) && Travelling(x, id, s) && Installs(x.client, id, s)
    requires s.cursor <= j < Cursor(x.client) && Mine(x.log, s.review.id, j) && x.log[j].body.SuggestionApplied?
    ensures id in x.client.snapshotEvents && x.log[j] in x.client.snapshotEvents[id].events
            && x.client.snapshotEvents[id].review == s.review.id
  {
    hide CopyFine, Revised;
    assert Heard(x.log, x.client.snapshotEvents[id], s.cursor, Cursor(x.client));
  }

  lemma SnapshotFine(x: World, id: nat, s: Snapshot)
    requires Landable(x) && Numbered(x.log) && Travelling(x, id, s)
    ensures Shapely(s) && Backed(x.log, s) && ReceiptsBelow(s.suggestions, s.cursor)
  {
    hide Shapely, Backed, ReceiptsBelow, Covering, Fold;
    var g := x.genesis[s.review.id].(cursor := s.cursor);
    FoldFine(x.log, g, s.cursor);
    FoldReceiptsBelow(g, x.log, s.cursor);
  }

  /** The copy an ordinary open installs is the snapshot with the gap folded in exactly when no receipt overshoots. */
  lemma InstalledIsGap(x: World, id: nat, s: Snapshot)
    requires Sound(x) && Landable(x) && Numbered(x.log) && Cursor(x.client) <= |x.log| && Travelling(x, id, s)
             && Installs(x.client, id, s)
    requires x.client.reference.None? && Newest(x.client)
    ensures Installed(x.client, id, s) == Fold(s, Gap(x.log, s.review.id, s.cursor, Cursor(x.client)))
            <==> !Overshoots(x.client, s)
  {
    hide Sound, Landable, Newest, Fold, Gap, CaughtUp, Has, Within, Shapely, Backed, ReceiptsBelow, MergeReceipts;
    hide ReplayNewer, Above;
    var c, last := x.client, Cursor(x.client);
    var t := Fold(s, Gap(x.log, s.review.id, s.cursor, last));
    RecordedIsGap(x, id, s);
    ReplayIsFold(s, Sorted(c.snapshotEvents[id].events, (e: Event) => e.seqNo));
    SnapshotFine(x, id, s);
    GapCaughtUp(x.log, s, last);
    if SameReview(c, s) {
      var rs := c.committed.value.suggestions;
      if Overshoots(c, s) {
        assert OneEach(rs) by { SoundOneEach(x); }
        AheadInMerge(x.log, c, s, t);
      } else {
        forall i | 0 <= i < |rs| && Carries(t, rs[i])
          ensures t.suggestions[RecordAt(t.suggestions, rs[i].commentId)].outcome == rs[i].outcome
        {
          CarriesSame(x.log, s, last, t, rs[i]);
          assert !Ahead(c, s, rs[i]);
          CarriedIsCaughtUp(x, id, s, t, i);
        }
        MergeIdle(t, rs);
      }
    }
  }

  lemma SoundOneEach(x: World)
    requires Sound(x) && x.client.committed.Some?
    ensures OneEach(x.client.committed.value.suggestions)
  {
  }

  lemma CarriesSame(log: seq<Event>, s: Snapshot, last: nat, t: Snapshot, r: SuggestionRecord)
    requires CaughtUp(log, s, last, t)
    ensures Carries(t, r) <==> Carries(s, r)
  {
    hide RecordAt;
    SameIdsSameAt(s.suggestions, t.suggestions, r.commentId);
  }

  lemma AheadInMerge(log: seq<Event>, c: State, s: Snapshot, t: Snapshot)
    requires Overshoots(c, s) && OneEach(c.committed.value.suggestions) && CaughtUp(log, s, Cursor(c), t)
    ensures MergeReceipts(t, c.committed.value.suggestions) != t
  {
    hide MergeReceipts, RecordAt, Shapely, Backed;
    var rs := c.committed.value.suggestions;
    var i :| 0 <= i < |rs| && Ahead(c, s, rs[i]);
    CarriesSame(log, s, Cursor(c), t, rs[i]);
    MergeTakes(t, rs, i);
    assert Within(t.suggestions, s.cursor, Cursor(c));
  }

  lemma OrdinaryParts(c: State, id: nat, s: Snapshot)
    requires Installs(c, id, s) && c.reference.None?
    ensures OnSnapshot(c, id, s).committed == Some(Installed(c, id, s))
  {
    hide Installed, Overlay;
  }

  /**
   An ordinary open installs the snapshot with exactly the revision events of the gap folded in, unless a
   receipt overshoots.
   */
  lemma {:induction false} OrdinaryOpenInstalls(w: World, steps: seq<Step>)
    requires Start(w) && FreshRun(w, steps) && Arriving(Run(w, steps)) && Run(w, steps).client.reference.None?
    ensures var x, y := Run(w, steps), DeliverStep(Run(w, steps)); var s, last := x.down[0].snapshot, Cursor(x.client);
            && last <= |x.log| && y.client.committed.Some?
            && (y.client.committed.value == Fold(s, Gap(x.log, s.review.id, s.cursor, last))
               <==> !Overshoots(x.client, s))
  {
    hide Sound, Landable, Newest, Fold, Gap, Overshoots, Installed, OnSnapshot, FreshRun, HonestRun;
    FreshIsHonest(w, steps);
    ArrivingFacts(w, steps);
    RunLevel(w, steps, |steps|, false);
    assert steps[..|steps|] == steps;
    var x := Run(w, steps);
    var id, s := x.down[0].id, x.down[0].snapshot;
    InstalledIsGap(x, id, s);
    OrdinaryParts(x.client, id, s);
  }

  // ---- when that is the fold ------------------------------------------------

  lemma {:induction false} GapFolds(b: Snapshot, log: seq<Event>, m: nat, last: nat)
    requires m <= |log| && last <= |log|
    requires forall j: nat | m <= j < last && Mine(log, b.review.id, j) :: IsRevision(log[j].body)
    ensures Fold(Fold(b, log[..m]), Gap(log, b.review.id, m, last)) == Fold(b, log[..MaxOf(m, last)])
    decreases last
  {
    hide ApplyEvent, Fold;
    if last <= m {
      assert Fold(Fold(b, log[..m]), []) == Fold(b, log[..m]) by {
        FoldConcat(b, log[..m], []);
        assert log[..m] + [] == log[..m];
      }
    } else {
      GapFolds(b, log, m, last - 1);
      Replay.FoldNext(b, log, last - 1);
      var init, e := Gap(log, b.review.id, m, last - 1), log[last - 1];
      if Mine(log, b.review.id, last - 1) {
        Convergence.FoldSnoc(Fold(b, log[..m]), init, e);
      } else {
        assert Gap(log, b.review.id, m, last) == init;
        Replay.FoldIsOps(b, log[..last - 1]);
        Foreign(Fold(b, log[..last - 1]), e);
      }
    }
  }

  /**
   An ordinary open starts a convergent stretch when every event of the review in the gap is one that
   catching up knows, exactly if no receipt overshoots; a snapshot at or past the cursor leaves no gap.
   */
  lemma {:induction false} OpenStartsConvergence(w: World, steps: seq<Step>)
    requires Start(w) && FreshRun(w, steps) && Arriving(Run(w, steps)) && Run(w, steps).client.reference.None?
    requires var x := Run(w, steps); var s := x.down[0].snapshot;
             forall j: nat | s.cursor <= j < Cursor(x.client) && Mine(x.log, s.review.id, j) ::
                 IsRevision(x.log[j].body)
    ensures var x, y := Run(w, steps), DeliverStep(Run(w, steps)); var s, last := x.down[0].snapshot, Cursor(x.client);
            && s.review.id in x.genesis && MaxOf(s.cursor, last) <= |x.log|
            && var b := x.genesis[s.review.id].(cursor := s.cursor);
            && (y.client.committed == Some(Fold(b, x.log[..MaxOf(s.cursor, last)])) <==> !Overshoots(x.client, s))
            && (!Overshoots(x.client, s) ==> y.basis == Some(Basis(b, last, MaxOf(s.cursor, last))))
  {
    hide Sound, Covering, Recent, Fold, Gap, Overshoots, OnSnapshot, FreshRun, HonestRun;
    FreshIsHonest(w, steps);
    ArrivingFacts(w, steps);
    OrdinaryOpenInstalls(w, steps);
    var x := Run(w, steps);
    var s := x.down[0].snapshot;
    var b := x.genesis[s.review.id].(cursor := s.cursor);
    GapFolds(b, x.log, s.cursor, Cursor(x.client));
    FoldCursor(x.genesis[s.review.id], x.log[..MaxOf(s.cursor, Cursor(x.client))], s.cursor);
  }

  /** Events other than creations bring no comment. */
  lemma {:induction false} GapBringsNone(log: seq<Event>, s: Snapshot, last: nat, id: CommentId)
    requires last <= |log| && !HasComment(s, id)
    ensures !HasComment(Fold(s, Gap(log, s.review.id, s.cursor, last)), id)
    decreases last
  {
    hide ApplyEvent;
    if s.cursor < last {
      GapBringsNone(log, s, last - 1, id);
      var init, e := Gap(log, s.review.id, s.cursor, last - 1), log[last - 1];
      if Mine(log, s.review.id, last - 1) && IsRevision(e.body) {
        Convergence.FoldSnoc(s, init, e);
        RevisionShape(Fold(s, init), e);
        SameShapeHas(Fold(s, init), ApplyEvent(Fold(s, init), e), id);
      } else {
        assert Gap(log, s.review.id, s.cursor, last) == init;
      }
    }
  }

  lemma SameShapeHas(s: Snapshot, t: Snapshot, id: CommentId)
    requires SameShape(s, t)
    ensures HasComment(t, id) ==> HasComment(s, id)
  {
    if HasComment(t, id) {
      HasSameComments(t, s, id);
    }
  }

  /** The log's fold has every comment created for the review. */
  lemma CreatedInFold(b: Snapshot, log: seq<Event>, j: nat, n: nat)
    requires j < n <= |log| && Mine(log, b.review.id, j) && log[j].body.CommentCreated?
    ensures HasComment(Fold(b, log[..n]), log[j].body.comment.id)
  {
    hide ApplyEvent, Fold, HasComment, Replay.Run, Replay.OpsOfLog;
    var mid, before, after := Fold(b, log[..j]), log[..j + 1], log[j + 1..n];
    Replay.FoldNext(b, log, j);
    Replay.FoldIsOps(b, log[..j]);
    CreationStays(mid, log[j], after);
    FoldConcat(b, before, after);
    assert before + after == log[..n];
  }

  lemma CreationStays(s: Snapshot, e: Event, events: seq<Event>)
    requires e.body.CommentCreated? && e.body.comment.reviewId == s.review.id
    ensures HasComment(Fold(ApplyEvent(s, e), events), e.body.comment.id)
  {
    hide ApplyEvent, Fold, Replay.Run, Replay.OpsOfLog, HasComment;
    var o, t := Replay.AddComment_(e.body.comment), ApplyEvent(s, e);
    CreationIs(s, e);
    Replay.AdditionRemembered(s, o);
    Replay.FoldIsOps(t, events);
    Replay.RunKeepsRemembered(t, Replay.OpsOfLog(t.review.id, events), o);
  }

  lemma CommentsInstalled(c: State, id: nat, s: Snapshot, t: Snapshot)
    requires Installed(c, id, s) == (if SameReview(c, s) then MergeReceipts(t, c.committed.value.suggestions) else t)
    ensures Installed(c, id, s).comments == t.comments
  {
    hide Installed;
    if SameReview(c, s) {
      MergeKeepsCursor(t, c.committed.value.suggestions);
    }
  }

  /**
   The other direction for comments: one that was created in the gap and is absent from the snapshot is
   missing from the installed copy, which therefore is not the fold.
   */
  lemma {:induction false} GapCommentIsMissed(w: World, steps: seq<Step>, j: nat)
    requires Start(w) && HonestRun(w, steps) && Arriving(Run(w, steps)) && Run(w, steps).client.reference.None?
    requires var x := Run(w, steps); var s := x.down[0].snapshot;
             && s.cursor <= j < Cursor(x.client) && Mine(x.log, s.review.id, j) && x.log[j].body.CommentCreated?
             && !HasComment(s, x.log[j].body.comment.id)
    ensures var x, y := Run(w, steps), DeliverStep(Run(w, steps)); var s, last := x.down[0].snapshot, Cursor(x.client);
            && s.review.id in x.genesis && last <= |x.log| && y.client.committed.Some?
            && !HasComment(y.client.committed.value, x.log[j].body.comment.id)
            && HasComment(Fold(x.genesis[s.review.id].(cursor := s.cursor), x.log[..last]), x.log[j].body.comment.id)
  {
    hide Sound, Landable, Fold, Gap, OnSnapshot, HonestRun, HasComment, MergeReceipts, ReplayNewer, Above;
    ArrivingFacts(w, steps);
    var x := Run(w, steps);
    var c, id, s := x.client, x.down[0].id, x.down[0].snapshot;
    LandableGenesis(x, id, s);
    var t := Fold(s, Gap(x.log, s.review.id, s.cursor, Cursor(c)));
    RecordedIsGap(x, id, s);
    ReplayIsFold(s, Sorted(c.snapshotEvents[id].events, (e: Event) => e.seqNo));
    GapBringsNone(x.log, s, Cursor(c), x.log[j].body.comment.id);
    CommentsInstalled(c, id, s, t);
    SameComments(Installed(c, id, s), t, x.log[j].body.comment.id);
    OrdinaryParts(c, id, s);
    CreatedInFold(x.genesis[s.review.id].(cursor := s.cursor), x.log, j, Cursor(c));
  }

  lemma LandableGenesis(x: World, id: nat, s: Snapshot)
    requires Landable(x) && Travelling(x, id, s)
    ensures s.review.id in x.genesis && x.genesis[s.review.id].review.id == s.review.id
  {
  }

  lemma SameComments(s: Snapshot, t: Snapshot, id: CommentId)
    requires s.comments == t.comments
    ensures HasComment(s, id) <==> HasComment(t, id)
  {
  }

  // ---- previews of an open copy ---------------------------------------------

  /** A receipt that came ahead of its event is absorbed by it. */
  lemma EarlyReceipt(log: seq<Event>, s: Snapshot, events: seq<Event>, id: CommentId, r: Receipt)
    requires HeldFrom(log, s.review.id, id, r, |log|) && log[r.seqNo - 1] in events && Delivered(log, events, |log|)
    requires Replay.HasRecord(s, id)
    ensures Fold(Receive(s, id, r), events) == Fold(s, events)
  {
    hide Fold, Replay.Run, Replay.OpsOfLog, ReceiptsDiffer;
    HeldIsLanded(log, s.review.id, events, id, r, |log|);
    ReceiptAbsorbed(s, Replay.AddReceipt(id, r), Replay.OpsOfLog(s.review.id, events));
    Replay.FoldIsOps(s, events);
    Replay.FoldIsOps(Receive(s, id, r), events);
  }

  lemma PreviewFolds(x: World, id: CommentId, r: Receipt, events: seq<Event>)
    requires Landable(x) && x.client.committed.Some?
             && HeldFrom(x.log, x.client.committed.value.review.id, id, r, |x.log|)
    requires Cursor(x.client) <= |x.log| && Delivered(x.log, events, |x.log|) && x.log[r.seqNo - 1] in events
    ensures var c, p := x.client, OnPreviewReceipt(x.client, id, r);
            && p.committed.Some? && p.deferred == c.deferred && p.me == c.me
               && p.committed.value.review.id == c.committed.value.review.id
            && Fold(Fold(p.committed.value, p.deferred), events) == Fold(Fold(c.committed.value, c.deferred), events)
  {
    hide Fold, Receive, Truthful, Covering, Overlay;
    var c, p := x.client, OnPreviewReceipt(x.client, id, r);
    ReceiveKeepsReview(c.committed.value, id, r);
    if Replay.HasRecord(c.committed.value, id) {
      EarlyReceipt(x.log, c.committed.value, c.deferred + events, id, r);
      FoldConcat(c.committed.value, c.deferred, events);
      FoldConcat(p.committed.value, c.deferred, events);
    }
  }

  /**
   After a preview the copy is the fold of the log again as soon as the cursor passes the receipt: if the
   copy was the fold up to the cursor, the events up to any position past the receipt leave the fold up to
   there, held-back refreshes included.
   */
  lemma {:induction false} PreviewRestored(w: World, steps: seq<Step>, b: Snapshot, step: Step, j: nat)
    requires Start(w) && step.PreviewReceipt? && Honest(Run(w, steps), step) && Run(w, steps).client.committed.Some?
    requires Cursor(Run(w, steps).client) < step.receipt.seqNo <= j <= |Run(w, steps).log|
    requires var c := Run(w, steps).client;
             Fold(c.committed.value, c.deferred) == Fold(b, Run(w, steps).log[..Cursor(c)])
    ensures var x := Run(w, steps);
            var events := x.log[Cursor(x.client)..j];
            var d := ApplyAll(UserStep(x, step).client, events);
            && (d.committed.None? <==> Convergence.Deleted(x.client.committed.value.review.id, events))
            && (d.committed.Some? ==> Fold(d.committed.value, d.deferred) == Fold(b, x.log[..j]))
  {
    hide Run, Fold, Landable, Convergence.Based, Convergence.Flow, Shown.Coherent, Shown.Genuine, OnPreviewReceipt;
    hide ApplyAll, Convergence.Deleted, Delivered;
    RunLandable(w, steps);
    Convergence.RunKeeps(w, steps);
    var x := Run(w, steps);
    var c, p := x.client, OnPreviewReceipt(x.client, step.comment, step.receipt);
    var events := x.log[Cursor(c)..j];
    assert Delivered(x.log, events, |x.log|) by { StretchDelivered(x.log, Cursor(c), j); }
    assert events[step.receipt.seqNo - 1 - Cursor(c)] == x.log[step.receipt.seqNo - 1];
    PreviewFolds(x, step.comment, step.receipt, events);
    Shown.PreviewCoheres(c, x.issued, step.comment, step.receipt);
    Convergence.StretchFolds(p, x.issued, events);
    assert x.log[..Cursor(c)] + events == x.log[..j];
    FoldConcat(b, x.log[..Cursor(c)], events);
  }

  lemma StretchDelivered(log: seq<Event>, a: nat, j: nat)
    requires Numbered(log) && a <= j <= |log|
    ensures Delivered(log, log[a..j], |log|)
  {
  }
}
