/**
 What each step does to a suggestion: when a preview goes out, what its answer leads to, when an application
 goes out, and that an uncertain suggestion can always be brought back to ready.
 */
module SuggestionLaws {
  import opened Protocol
  import opened Suggestion

  /** A live suggestion of the open review, with the client subscribed. */
  predicate Open_(w: World, c: CommentId) {
    w.link == Up && w.records.Some? && c in w.records.value && w.records.value[c].live
  }

  /** The stage a suggestion is in; one never touched is idle. */
  function StageOf(w: World, c: CommentId): Stage { if c in w.panels then w.panels[c].stage else Idle }

  function FoundOf(w: World, c: CommentId): Option<Inspection> {
    if c in w.panels then w.panels[c].inspection else None
  }

  predicate Busy(w: World, c: CommentId) { StageOf(w, c).Checking? || StageOf(w, c).Applying? }

  /** The answer to request `n` decides about `c`; what was found before is kept meanwhile. */
  predicate Checks(w: World, t: World, c: CommentId) {
    var n := w.nextRequest;
    t == w.(nextRequest := n + 1, asked := w.asked[n := AskPreview(c)], trace := w.trace + [PreviewSent(c, n)],
            panels := w.panels[c := Panel(FoundOf(w, c), Checking(n))])
  }

  /** A preview is sent for a live suggestion that is not being checked or applied, and only then. */
  lemma {:induction false} PreviewGoesOut(w: World, c: CommentId)
    ensures Open_(w, c) && !Busy(w, c) ==> Checks(w, Next(w, Preview(c)), c)
    ensures !(Open_(w, c) && !Busy(w, c)) ==> Next(w, Preview(c)) == w
  {
  }

  /** What the user is told: applied by the receipt, else by the stage, else by what the last preview found. */
  lemma {:induction false} StatusMeans(record: Record, panel: Panel)
    ensures var status := StatusOf(record, panel);
            && (status == StatusApplied <==> record.receipt.Some?)
            && (status == StatusReady <==>
                  record.receipt.None? && panel.stage == Idle && panel.inspection == Some(Checked(Original)))
            && (record.receipt.None? ==>
                  && (status == StatusLoading <==> panel.stage.Checking?)
                     && (status == StatusApplying <==> panel.stage.Applying?)
                  && (status == StatusUnloaded <==> panel.stage == Idle && panel.inspection == None)
                  && (status == StatusStale <==> panel.stage == Idle && panel.inspection == Some(Checked(Changed)))
                  && (status == StatusUncertain <==>
                        panel.stage == Uncertain
                          || (panel.stage == Idle && panel.inspection == Some(Checked(Proposed))))
                  && (status == StatusRejected <==>
                        panel.stage == Rejected || (panel.stage == Idle &&
                          (panel.inspection == Some(Refused) || panel.inspection == Some(Checked(Unavailable))))))
  {
  }

  /** An application goes out for a live suggestion found ready and not yet applied, and only then. */
  lemma {:induction false} ApplicationGoesOut(w: World, c: CommentId)
    ensures var ready := Open_(w, c) && w.records.value[c].receipt.None? && StageOf(w, c) == Idle
              && FoundOf(w, c) == Some(Checked(Original));
            Next(w, Apply(c)) ==
            if ready then
              w.(nextRequest := w.nextRequest + 1, asked := w.asked[w.nextRequest := AskApply(c)],
                 trace := w.trace + [ApplySent(c, w.nextRequest)],
                 panels := w.panels[c := w.panels[c].(stage := Applying(w.nextRequest))])
            else w
  {
  }

  // ---- answers --------------------------------------------------------------

  /** Request `id` is the preview suggestion `c` waits for. */
  predicate Awaited(w: World, id: nat, c: CommentId) {
    id in w.asked && w.asked[id] == AskPreview(c) && c in w.panels && w.panels[c].stage == Checking(id)
    && w.records.Some? && c in w.records.value && w.records.value[c].live
  }

  /** What the daemon knew of the receipt at `at`. */
  function Known(w: World, c: CommentId, at: Seq): Option<Seq>
    requires at <= |w.log|
  {
    if c in RecordsOf(w.log[..at]) then RecordsOf(w.log[..at])[c].receipt else None
  }

  function Newer(a: Option<Seq>, b: Option<Seq>): Option<Seq> {
    if a.None? || (b.Some? && b.value > a.value) then b else a
  }

  /**
   The awaited answer settles the panel with what it found and takes over a newer receipt; a ready answer
   makes the suggestion ready when no receipt is known.
   */
  lemma {:induction false} AnswerSettles(w: World, id: nat, c: CommentId, inspection: Inspection, at: Seq)
    requires Awaited(w, id, c) && at <= |w.log|
    ensures var t := Next(w, Previewed(id, inspection, at, false));
            var receipt := Newer(w.records.value[c].receipt, Known(w, c, at));
            && id !in t.asked && t.panels == w.panels[c := Panel(Some(inspection), Idle)]
            && t.records == Some(w.records.value[c := w.records.value[c].(receipt := receipt)])
            && t.nextRequest == w.nextRequest && t.log == w.log && t.link == w.link && t.cursor == w.cursor
            && (receipt.None? && inspection == Checked(Original) ==>
               StatusOf(t.records.value[c], t.panels[c]) == StatusReady)
            && (receipt.Some? ==> StatusOf(t.records.value[c], t.panels[c]) == StatusApplied)
  {
    var known := RecordsOf(w.log[..at]);
    assert w.records.value[c := w.records.value[c]] == w.records.value;
  }

  /** An answer about something else, or about a comment that is gone, is an error that changes nothing. */
  lemma {:induction false} WrongAnswersChangeNothing(w: World, id: nat, c: CommentId, inspection: Inspection, at: Seq,
                                                     mismatch: bool)
    requires id in w.asked && w.asked[id] == AskPreview(c) && at <= |w.log| && w.records.Some?
    requires mismatch || c !in w.records.value || !w.records.value[c].live
    ensures Next(w, Previewed(id, inspection, at, mismatch)) == w
  {
  }

  /** A failed request: an applied suggestion settles, a failed application is uncertain, a failed preview rejected. */
  lemma {:induction false} FailuresMark(w: World, id: nat, c: CommentId)
    requires id in w.asked && w.asked[id].comment == c && w.records.Some? && c in w.panels
    ensures var applied := c in w.records.value && w.records.value[c].live && w.records.value[c].receipt.Some?;
            var stage := w.panels[c].stage;
            Next(w, Failed(id)) == w.(
              asked := w.asked - {id},
              panels := if applied then w.panels[c := w.panels[c].(stage := Idle)]
                        else if stage == Applying(id) then w.panels[c := w.panels[c].(stage := Uncertain)]
                        else if stage == Checking(id) then w.panels[c := w.panels[c].(stage := Rejected)]
                        else w.panels)
  {
  }

  /** The reply to an application settles its panel, records the landing and moves the cursor up to it. */
  lemma {:induction false} ReplySettles(w: World, id: nat, c: CommentId, n: Seq)
    requires id in w.asked && w.asked[id] == AskApply(c) && LandedAt(w.log, c, n) && n <= w.cursor + 1
    requires w.records.Some? && c in w.records.value && c in w.panels
    ensures var t := Next(w, Committed(id, n));
            && id !in t.asked && t.cursor == (if n > w.cursor then n else w.cursor)
            && t.records.Some? && c in t.records.value && AtLeast(t.records.value[c].receipt, n)
            && t.panels == (if w.panels[c].stage == Applying(id) then w.panels[c := w.panels[c].(stage := Idle)]
               else w.panels)
            && StatusOf(t.records.value[c], t.panels[c]) == StatusApplied
  {
  }

  // ---- the log --------------------------------------------------------------

  /**
   A delivered entry: new suggestions appear, deletions and re-anchorings hide and show them, landings leave
   receipts.
   */
  lemma {:induction false} DeliveryRecords(w: World, c: CommentId)
    requires w.link != Down && w.cursor < |w.log| && w.records.Some?
    ensures var t, e := Next(w, Deliver), w.log[w.cursor];
            && t.cursor == w.cursor + 1 && t.records.Some? && t.panels == w.panels && t.asked == w.asked
            && (c !in w.records.value ==> (c in t.records.value <==> e == Suggested(c)))
            && (c !in w.records.value && e == Suggested(c) ==> t.records.value[c] == Record(true, None))
            && (c in w.records.value ==>
                  c in t.records.value && t.records.value[c] ==
                  if e == Withdrawn(c) then w.records.value[c].(live := false)
                  else if e == Restored(c) then w.records.value[c].(live := true)
                  else if e == Landed(c) && !(w.records.value[c].receipt.Some?
                      && w.cursor + 1 <= w.records.value[c].receipt.value)
                  then w.records.value[c].(receipt := Some(w.cursor + 1)) else w.records.value[c])
  {
  }

  /** An open in flight notes every landing delivered meanwhile. */
  lemma {:induction false} OpeningHears(w: World)
    ensures w.link == Up ==>
              var t := Next(w, Open);
              t.opening.Some? && t.opening.value.heard == [] && t.nextRequest == w.nextRequest + 1
                && t.records == w.records
    ensures w.link != Down && w.cursor < |w.log| && w.opening.Some? && w.log[w.cursor].Landed?
            && (forall h | h in w.opening.value.heard :: h.seqNo != w.cursor + 1) ==>
              Next(w, Deliver).opening
              == Some(w.opening.value.(heard := w.opening.value.heard + [Heard(w.cursor + 1, w.log[w.cursor].comment)]))
  {
  }

  /** Closing forgets records and panels; installing over another review starts with fresh panels. */
  lemma {:induction false} PanelsFollowTheReview(w: World, at: Seq)
    ensures Next(w, Close) == w.(records := None, panels := map[])
    ensures w.opening.Some? && w.opening.value.floor <= at <= |w.log| ==>
              var t := Next(w, SnapshotArrives(at));
              t.records.Some? && t.opening == None && t.panels == (if w.records.Some? then w.panels else map[])
  {
    hide Installed;
  }

  // ---- the connection -------------------------------------------------------

  /** A lost connection leaves every awaited answer uncertain and nothing else touched. */
  lemma {:induction false} DropShakes(w: World, c: CommentId)
    ensures var t := Next(w, Disconnect);
            && t.link == Down && t.asked == map[] && t.opening == None && t.records == w.records && t.trace == w.trace
            && t.panels.Keys == w.panels.Keys
            && (c in w.panels ==>
                  t.panels[c] == if w.panels[c].stage.Checking? || w.panels[c].stage.Applying?
                    then w.panels[c].(stage := Uncertain)
                                 else w.panels[c])
  {
  }

  /**
   A restart loses every answer but shakes no panel; a new connection first replays; an open given up is
   forgotten.
   */
  lemma {:induction false} LinkMoves(w: World)
    ensures Next(w, RestartDeadline) == w.(link := Down, asked := map[], opening := None)
    ensures Next(w, Reconnect) == if w.link == Down then w.(link := Replaying) else w
    ensures Next(w, OpenOther) == w.(opening := None) && Next(w, OpenFailed) == w.(opening := None)
    ensures w.link == Down ==> Next(w, Deliver) == w && Next(w, Open) == w
  {
  }

  /** Previews were sent from `w` to `t`, and nothing else happened. */
  ghost predicate OnlyPreviews(w: World, t: World) {
    && t.link == w.link && t.records == w.records && t.log == w.log && t.cursor == w.cursor
    && w.nextRequest <= t.nextRequest && |w.trace| <= |t.trace| && t.trace[..|w.trace|] == w.trace
    && (forall k | |w.trace| <= k < |t.trace| :: t.trace[k].PreviewSent?)
  }

  /** The suggestion is being checked under a request sent since `first`. */
  predicate BeingChecked(t: World, c: CommentId, first: nat) {
    StageOf(t, c).Checking? && first <= StageOf(t, c).id < t.nextRequest
    && StageOf(t, c).id in t.asked && t.asked[StageOf(t, c).id] == AskPreview(c)
  }

  lemma OneMoreIsChecked(w: World, d: CommentId, c: CommentId)
    requires w.link == Up
    ensures var t := Next(w, Preview(d));
            && OnlyPreviews(w, t)
            && (d != c || !Open_(w, c) || Busy(w, c) ==>
               StageOf(t, c) == StageOf(w, c) && FoundOf(t, c) == FoundOf(w, c))
            && (d == c && Open_(w, c) && !Busy(w, c) ==>
               BeingChecked(t, c, w.nextRequest) && FoundOf(t, c) == FoundOf(w, c))
            && forall first: nat :: BeingChecked(w, c, first) ==> BeingChecked(t, c, first)
  {
    hide Next;
    PreviewGoesOut(w, d);
  }

  /** The preview requests of `order` go out one after the other, to each live suggestion that is not busy. */
  lemma {:induction false} AllAreChecked(w: World, order: seq<CommentId>, c: CommentId)
    requires w.link == Up
    ensures var t := PreviewAll(w, order);
            && OnlyPreviews(w, t) && FoundOf(t, c) == FoundOf(w, c)
            && (c !in order || !Open_(w, c) || Busy(w, c) ==> StageOf(t, c) == StageOf(w, c))
            && (c in order && Open_(w, c) && !Busy(w, c) ==> BeingChecked(t, c, w.nextRequest))
    decreases |order|
  {
    if order != [] {
      hide PreviewSuggestion, StageOf, FoundOf;
      var init, last := order[..|order| - 1], order[|order| - 1];
      AllAreChecked(w, init, c);
      var mid := PreviewAll(w, init);
      OneMoreIsChecked(mid, last, c);
      assert PreviewAll(w, order) == Next(mid, Preview(last));
      assert order == init + [last];
      PreviewsChain(w, mid, Next(mid, Preview(last)));
      CheckedSince(Next(mid, Preview(last)), c, mid.nextRequest, w.nextRequest);
    }
  }

  lemma CheckedSince(t: World, c: CommentId, later: nat, first: nat)
    requires first <= later
    ensures BeingChecked(t, c, later) ==> BeingChecked(t, c, first)
  {
  }

  lemma PreviewsChain(w: World, mid: World, t: World)
    requires OnlyPreviews(w, mid) && OnlyPreviews(mid, t)
    ensures OnlyPreviews(w, t)
  {
    assert t.trace[..|w.trace|] == t.trace[..|mid.trace|][..|w.trace|];
    forall k | |w.trace| <= k < |t.trace|
      ensures t.trace[k].PreviewSent?
    {
      if k < |mid.trace| {
        assert t.trace[..|mid.trace|][k] == mid.trace[k];
      }
    }
  }

  /** After reconnecting every live suggestion that was uncertain is being checked, and nothing is applied. */
  lemma {:induction false} ReconnectChecks(w: World, order: seq<CommentId>, c: CommentId)
    requires w.link == Replaying && forall d :: d in order <==> d in w.panels && w.panels[d].stage.Uncertain?
    ensures var t := Next(w, Resubscribe(order));
            && OnlyPreviews(w.(link := Up), t)
            && (StageOf(w, c) == Uncertain && Open_(w.(link := Up), c) ==> BeingChecked(t, c, w.nextRequest))
            && (StageOf(w, c) != Uncertain ==> StageOf(t, c) == StageOf(w, c))
  {
    hide PreviewAll;
    var up := w.(link := Up);
    AllAreChecked(up, order, c);
    assert (set d | d in order) == (set d | d in w.panels && w.panels[d].stage.Uncertain?);
    assert Next(w, Resubscribe(order)) == PreviewAll(up, order);
  }

  /**
   Whatever was lost, a live suggestion without a receipt can be brought back: preview it, have it answered
   ready, and the application goes out under a request of its own.
   */
  lemma {:induction false} CanBeApplied(w: World, c: CommentId, at: Seq)
    requires Open_(w, c) && !Busy(w, c) && w.records.value[c].receipt.None? && at <= |w.log| && Known(w, c, at).None?
    ensures var n := w.nextRequest;
            var asked := Next(w, Preview(c));
            var ready := Next(asked, Previewed(n, Checked(Original), at, false));
            var sent := Next(ready, Apply(c));
            && StatusOf(ready.records.value[c], ready.panels[c]) == StatusReady
            && StageOf(sent, c) == Applying(n + 1) && n + 1 in sent.asked && sent.asked[n + 1] == AskApply(c)
            && sent.trace[|sent.trace| - 1] == ApplySent(c, n + 1)
  {
    hide Next, RecordsOf;
    PreviewGoesOut(w, c);
    var asked := Next(w, Preview(c));
    AnswerSettles(asked, w.nextRequest, c, Checked(Original), at);
    ApplicationGoesOut(Next(asked, Previewed(w.nextRequest, Checked(Original), at, false)), c);
  }
}
