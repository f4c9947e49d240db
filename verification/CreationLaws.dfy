/**
 What each input does to the creation form: what a submission sends, what every answer leads to, and that an
 interrupted attempt can always be resolved by asking again.
 */
module CreationLaws {
  import opened Protocol
  import opened Creation

  // ---- what is sent ---------------------------------------------------------

  predicate AllBlank(s: string) { forall i | 0 <= i < |s| :: IsSpace(s[i]) }

  /** `title` is `text` without the whitespace around it. */
  ghost predicate Middle(text: string, title: string) {
    && title != "" && !IsSpace(title[0]) && !IsSpace(title[|title| - 1])
    && exists a, b :: Around(text, a, title, b)
  }

  predicate Around(text: string, a: string, title: string, b: string) {
    AllBlank(a) && AllBlank(b) && text == a + title + b
  }

  /** A draft with a title, at least one target and no repository twice. */
  predicate Sendable(d: Draft) {
    && (exists i :: 0 <= i < |d.title| && !IsSpace(d.title[i])) && d.targets != []
    && forall i, j | 0 <= i < j < |d.targets| :: d.targets[i].repo != d.targets[j].repo
  }

  /** The submission says what the draft says: its title without blank ends, and every target. */
  ghost predicate Says(d: Draft, sub: Submission) { Middle(d.title, sub.title) && sub.targets == d.targets }

  lemma {:induction false} StartTrimmed(s: string) returns (a: string)
    ensures AllBlank(a) && s == a + TrimStart(s) && (TrimStart(s) != "" ==> !IsSpace(TrimStart(s)[0]))
  {
    hide IsSpace;
    if s != [] && IsSpace(s[0]) {
      var rest := StartTrimmed(s[1..]);
      a := [s[0]] + rest;
      assert s == [s[0]] + s[1..];
    } else {
      a := "";
    }
  }

  lemma {:induction false} EndTrimmed(s: string) returns (b: string)
    ensures AllBlank(b) && s == TrimEnd(s) + b && (TrimEnd(s) != "" ==> !IsSpace(TrimEnd(s)[|TrimEnd(s)| - 1]))
    ensures TrimEnd(s) != "" ==> TrimEnd(s)[0] == s[0]
  {
    hide IsSpace;
    if s != [] && IsSpace(s[|s| - 1]) {
      var init := EndTrimmed(s[..|s| - 1]);
      b := init + [s[|s| - 1]];
      assert s == s[..|s| - 1] + [s[|s| - 1]];
    } else {
      b := "";
    }
  }

  lemma TrimmedIsMiddle(text: string)
    ensures var title := TrimEnd(TrimStart(text));
            (title != "" ==> Middle(text, title)) && (title == "" <==> AllBlank(text))
  {
    hide IsSpace, TrimStart, TrimEnd;
    var title := TrimEnd(TrimStart(text));
    var a := StartTrimmed(text);
    var b := EndTrimmed(TrimStart(text));
    assert Around(text, a, title, b);
    if title != "" {
      assert text[|a|] == title[0];
    }
  }

  /** Exactly a sendable draft stands for a submission, and for one that says the same. */
  lemma DraftParses(d: Draft)
    ensures Parsed(d).Some? <==> Sendable(d)
    ensures Parsed(d).Some? ==> Says(d, Parsed(d).value)
  {
    hide IsSpace, TrimStart, TrimEnd;
    TrimmedIsMiddle(d.title);
  }

  /** The form of `review` is in the hands of the user. */
  predicate EditableForm(s: State, review: ReviewId) {
    s.form.Some? && s.form.value.reviewId == review && (s.form.value.status == Editing || s.form.value.status == Failed)
  }

  /**
   A sendable draft of the current context is written when the client is subscribed and its repositories are
   attached, as the draft says it and under a fresh request; otherwise nothing is sent, the attempt has
   failed and the draft is kept.
   */
  lemma {:induction false} SubmitWrites(s: State, review: ReviewId, attached: bool)
    requires EditableForm(s, review)
    ensures var t, f := Step(s, Submit(review, attached)), s.form.value;
            if f.context == s.context && s.link == Subscribed && attached && Sendable(f.draft) then
              exists sub :: Says(f.draft, sub) && t == s.(
                form := Some(f.(revision := f.revision + 1, status := Pending(sub))),
                waits := s.waits[s.nextRequest := WaitWrite(review)], nextRequest := s.nextRequest + 1,
                trace := s.trace + [Wrote(review, s.nextRequest, sub)])
            else t == s.(form := Some(f.(revision := f.revision + 1, status := Failed)))
  {
    hide Parsed, Says, Sendable;
    DraftParses(s.form.value.draft);
    if Parsed(s.form.value.draft).Some? {
      assert Says(s.form.value.draft, Parsed(s.form.value.draft).value);
    }
  }

  // ---- the form -------------------------------------------------------------

  /** An edit replaces the draft and lets a failed attempt go; a repository named twice fails at once. */
  lemma {:induction false} EditReplaces(s: State, review: ReviewId, draft: Draft)
    ensures EditableForm(s, review) ==>
              var f := s.form.value;
              Step(s, EditForm(review, draft)) == s.(form := Some(f.(draft := draft, revision := f.revision + 1,
                status := if forall i, j | 0 <= i < j < |draft.targets| ::
                  draft.targets[i].repo != draft.targets[j].repo
                          then Editing else Failed)))
    ensures !EditableForm(s, review) ==> Step(s, EditForm(review, draft)) == s && Step(s, Submit(review, true)) == s
  {
  }

  predicate UnderWay(s: State) {
    s.form.Some? && s.form.value.status != Editing && s.form.value.status != Failed && s.form.value.status != Succeeded
  }

  /** The user's own unfinished form for the workspace. */
  predicate Kept(s: State, workspace: nat) {
    s.form.Some? && s.form.value.status != Succeeded && s.form.value.workspace == workspace
  }

  /** A form whose attempt is under way is neither discarded nor replaced; a new form takes an unused identity. */
  lemma {:induction false} FormsComeAndGo(s: State, review: ReviewId, workspace: nat, draft: Draft)
    ensures Step(s, CancelForm) == if UnderWay(s) then s else s.(form := None)
    ensures UnderWay(s) || Kept(s, workspace) || review in s.used ==> Step(s, StartForm(review, workspace, draft)) == s
    ensures !UnderWay(s) && !Kept(s, workspace) && review !in s.used ==>
              Step(s, StartForm(review, workspace, draft))
              == s.(form := Some(Form(review, workspace, s.context, draft, 0, Editing)), used := s.used + {review})
  {
  }

  // ---- answers --------------------------------------------------------------

  /** The form of `review` in its own context. */
  predicate Current(s: State, review: ReviewId) {
    s.form.Some? && s.form.value.reviewId == review && s.form.value.context == s.context
  }

  /** The form with another status. */
  function Now(f: Form, status: Status): Option<Form> { Some(f.(status := status)) }

  /** A refused write is not taken at its word: the review is looked up by its identity. */
  lemma {:induction false} RefusalLooksUp(s: State, id: nat, review: ReviewId)
    requires id in s.waits && s.waits[id] == WaitWrite(review) && Current(s, review) && s.form.value.status.Pending?
    ensures var f, n := s.form.value, s.nextRequest;
            Step(s, Refused(id)) == s.(
              form := Now(f, Reconciling(f.status.submission, Inspect)), nextRequest := n + 1,
              waits := (s.waits - {id})[n := WaitCheck(review)],
                trace := s.trace + [LeftPending(review), LookedUp(review, n)])
  {
    assert s.trace + [LeftPending(review)] + [LookedUp(review, s.nextRequest)]
        == s.trace + [LeftPending(review), LookedUp(review, s.nextRequest)];
  }

  predicate LookedUpBy(s: State, id: nat, w: Wait) {
    id in s.waits && s.waits[id] == w && s.form.Some? && s.form.value.reviewId == w.review
      && s.form.value.status.Reconciling?
  }

  /**
   "Not found" after a refused write makes the draft editable again; under a retry it sends the same
   submission once more; every other failed lookup leaves the attempt open with its submission.
   */
  lemma {:induction false} FailedLookups(s: State, id: nat, review: ReviewId, missing: bool)
    ensures LookedUpBy(s, id, WaitCheck(review)) && missing ==>
              Step(s, LookupFailed(id, true))
              == s.(form := Now(s.form.value, Failed), waits := s.waits - {id},
                trace := s.trace + [Missing(review, id)])
    ensures (LookedUpBy(s, id, WaitLookup(review)) && (!missing || s.form.value.status.purpose == Inspect)) ||
            (LookedUpBy(s, id, WaitCheck(review)) && !missing) ==>
              Step(s, LookupFailed(id, missing))
              == s.(form := Now(s.form.value, Interrupted(s.form.value.status.submission)), waits := s.waits - {id},
                    trace := if missing then s.trace + [Missing(review, id)] else s.trace)
    ensures LookedUpBy(s, id, WaitLookup(review)) && missing && s.form.value.status.purpose == Retry
            && Current(s, review)
            && (forall i, j | 0 <= i < j < |s.form.value.status.submission.targets| ::
                  s.form.value.status.submission.targets[i].repo != s.form.value.status.submission.targets[j].repo) ==>
              var sub, n := s.form.value.status.submission, s.nextRequest;
              Step(s, LookupFailed(id, true))
              == s.(form := Now(s.form.value, Pending(sub)), waits := (s.waits - {id})[n := WaitWrite(review)],
                nextRequest := n + 1,
                    trace := s.trace + [Missing(review, id)] + [Wrote(review, n, sub)])
  {
  }

  /** A report of the form's review settles an open attempt: success if the inputs are the same, else still open. */
  lemma {:induction false} ReportsSettle(s: State, r: Sighting)
    requires Current(s, r.id) && s.form.value.workspace == r.workspace
    requires s.form.value.status.Pending? || s.form.value.status.Interrupted? || s.form.value.status.Reconciling?
    ensures var f := s.form.value;
            var sub := f.status.submission;
            var now := if sub.title == r.title && sub.targets == r.targets then Succeeded else Interrupted(sub);
            var left := if f.status.Pending? then s.trace + [LeftPending(r.id)] else s.trace;
            && Step(s, Observed(r)) == s.(form := Now(f, now), trace := left)
            && (forall id | id in s.waits && s.waits[id] == WaitWrite(r.id) ::
                  Step(s, Committed(id, r)) == s.(form := Now(f, now), trace := left, waits := s.waits - {id}))
            && (forall id | id in s.waits && (s.waits[id] == WaitCheck(r.id) || s.waits[id] == WaitLookup(r.id)) ::
                  Step(s, Found(id, r)) == s.(form := Now(f, now), trace := left, waits := s.waits - {id}))
  {
  }

  // ---- the connection -------------------------------------------------------

  /** A lost connection loses every answer; an attempt under way is interrupted with its submission. */
  lemma {:induction false} DisconnectInterrupts(s: State)
    requires s.link != Down
    ensures var t := Step(s, Disconnect);
            && t.waits == map[] && t.link == Down
            && t.form == (if s.form.Some? && (s.form.value.status.Pending? || s.form.value.status.Reconciling?)
                          then Now(s.form.value, Interrupted(s.form.value.status.submission)) else s.form)
  {
  }

  /** The daemon context and the link are what they were last set to; a restart loses every answer and nothing else. */
  lemma {:induction false} LinkAndContext(s: State, context: nat)
    ensures Step(s, SetContext(context)) == s.(context := context)
    ensures Step(s, Connect) == if s.link == Down then s.(link := Connecting) else s
    ensures Step(s, RestartDeadline) == s.(waits := map[], link := Down)
    ensures s.link == Down ==> Step(s, Disconnect) == s.(waits := map[])
    ensures s.link != Connecting ==> Step(s, Subscribe) == s
    ensures s.link == Connecting && (s.form.None? || !s.form.value.status.Interrupted?
            || s.form.value.context != s.context) ==>
              Step(s, Subscribe) == s.(link := Subscribed)
  {
  }

  /** The form after it was asked about: looked up under a fresh request. */
  predicate AsksAgain(s: State, t: State, review: ReviewId, purpose: Purpose)
    requires s.form.Some? && s.form.value.status.Interrupted?
  {
    && t.form.Some? && t.form.value.status == Reconciling(s.form.value.status.submission, purpose)
    && t.form.value.draft == s.form.value.draft && t.form.value.reviewId == review
       && t.form.value.context == s.form.value.context
    && t.waits == s.waits[s.nextRequest := WaitLookup(review)] && t.trace == s.trace + [LookedUp(review, s.nextRequest)]
    && t.nextRequest == s.nextRequest + 1 && t.context == s.context && t.link == Subscribed
    && t.form.value.workspace == s.form.value.workspace
  }

  /** An interrupted attempt of the current context is looked up on subscription and on every retry. */
  lemma {:induction false} InterruptedIsLookedUp(s: State, review: ReviewId)
    requires Current(s, review) && s.form.value.status.Interrupted?
    ensures s.link == Subscribed ==> AsksAgain(s, Step(s, RetryForm(review)), review, Retry)
    ensures s.link == Connecting ==> AsksAgain(s, Step(s, Subscribe), review, Inspect)
    ensures s.link == Down ==> Step(s, Connect) == s.(link := Connecting)
  {
  }

  /**
   Asking again resolves an interrupted attempt: if the review is there with the same inputs it has
   succeeded, and if it is not there the same submission is sent again.
   */
  lemma {:induction false} RetryResolves(s: State, review: ReviewId)
    requires Current(s, review) && s.form.value.status.Interrupted? && s.link == Subscribed
    requires DistinctRepos(s.form.value.status.submission.targets)
    ensures var sub, n := s.form.value.status.submission, s.nextRequest;
            var asked := Step(s, RetryForm(review));
            var found, missing := Step(asked,
                Found(n, Sighting(review, s.form.value.workspace, sub.title, sub.targets))),
                Step(asked, LookupFailed(n, true));
            && found.form.Some? && found.form.value.status == Succeeded && found.form.value.draft == s.form.value.draft
            && missing.form.Some? && missing.form.value.status == Pending(sub)
               && missing.form.value.draft == s.form.value.draft
            && |missing.trace| == |s.trace| + 3 && missing.trace[|s.trace| + 2] == Wrote(review, n + 1, sub)
  {
    hide Step;
    InterruptedIsLookedUp(s, review);
    var asked := Step(s, RetryForm(review));
    var sub, n := s.form.value.status.submission, s.nextRequest;
    ReportsSettle(asked, Sighting(review, s.form.value.workspace, sub.title, sub.targets));
    FailedLookups(asked, n, review, true);
  }
}
