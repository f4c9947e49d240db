/**
 When review creation never writes blindly: exactly when no stale "not found" is accepted. A "not found"
 is stale when it answers a lookup numbered before the last write, with nothing newer having answered
 "not found" since.
 */
module CreationGuard {
  import opened Protocol
  import opened Creation

  /** A "not found" that lets the form be written again: under a retry at once, after a refused write by hand. */
  predicate Accepts(s: State, input: Input) {
    && input.LookupFailed? && input.missing && input.id in s.waits && s.waits[input.id].IsLookup()
    && s.form.Some? && s.form.value.reviewId == s.waits[input.id].review && s.form.value.status.Reconciling?
    && (s.waits[input.id].WaitCheck? || (s.form.value.status.purpose.Retry? && s.form.value.context == s.context))
  }

  /** The guard a client could check: the lookup's request id against that of the last write. */
  predicate Stale(s: State, input: Input) {
    && Accepts(s, input)
    && var phase := PhaseOf(s.trace, s.form.value.reviewId); phase.Looking? && input.id <= phase.since
  }

  /** None of the first `n` inputs is a stale answer. */
  ghost predicate FreshUpTo(context: nat, inputs: seq<Input>, n: nat)
    requires n <= |inputs|
  {
    forall k | 0 <= k < n :: !Stale(Run(context, inputs[..k]), inputs[k])
  }

  ghost predicate NeverStale(context: nat, inputs: seq<Input>) { FreshUpTo(context, inputs, |inputs|) }

  lemma RunSnoc(context: nat, inputs: seq<Input>, k: nat)
    requires k < |inputs|
    ensures Run(context, inputs[..k + 1]) == Step(Run(context, inputs[..k]), inputs[k])
  {
    hide Step;
    assert inputs[..k + 1][..k] == inputs[..k];
  }

  // ---- what every run without a stale answer keeps --------------------------

  predicate Cleared(phase: Phase) { phase.Fresh? || phase.Cleared? }

  /** How the form's status stands to what was seen since its last write. */
  predicate StatusFits(phase: Phase, status: Status) {
    && (status.Editable() ==> Cleared(phase))
    && (status.Pending? ==> phase.Open?)
    && (status.Interrupted? ==> !phase.Fresh? && !phase.Open?)
    && (status.Reconciling? ==> phase.Looking? || phase.Cleared?)
    && (status.Frozen().Some? ==> DistinctRepos(status.Frozen().value.targets))
  }

  predicate Written(phase: Phase) { phase.Open? || phase.Left? || phase.Looking? }

  /** Of the form's lookups exactly those numbered after the last write count. */
  predicate LookupsFit(s: State, phase: Phase, review: ReviewId) {
    && (Written(phase) ==> phase.since < s.nextRequest)
    && (Written(phase) ==> forall id | id in s.waits && LookupFor(s, id, review) && id > phase.since ::
       phase.Looking? && id in phase.ids)
    && (phase.Looking? ==> forall id | id in phase.ids :: id > phase.since)
  }

  ghost predicate Guarded(s: State) {
    && Lawful(s.trace)
    && (forall f | f in s.trace :: f.review in s.used)
    && (forall id | id in s.waits :: id < s.nextRequest && s.waits[id].review in s.used)
    && (s.form.Some? ==>
          var f := s.form.value; var phase := PhaseOf(s.trace, f.reviewId);
          f.reviewId in s.used && StatusFits(phase, f.status) && LookupsFit(s, phase, f.reviewId))
  }

  /** A change of status that sends nothing. */
  lemma StatusKeeps(s: State, status: Status)
    requires Guarded(s) && s.form.Some? && !status.Pending? && !status.Reconciling?
    requires status.Editable() ==> Cleared(PhaseOf(s.trace, s.form.value.reviewId))
    requires status.Interrupted? ==> Frozen(s) == status.Frozen()
    ensures Guarded(SetStatus(s, status))
  {
    hide PhaseOf, Lawful, DistinctRepos;
    var r := s.form.value.reviewId;
    PhaseSnoc(s.trace, LeftPending(r), r);
    LawfulSnoc(s.trace, LeftPending(r));
  }

  lemma WriteKeeps(s: State, submission: Submission)
    requires Guarded(s) && s.form.Some? && Cleared(PhaseOf(s.trace, s.form.value.reviewId))
             && DistinctRepos(submission.targets)
    ensures Guarded(SendCreation(s, submission))
  {
    hide PhaseOf, Lawful, DistinctRepos;
    var r := s.form.value.reviewId;
    PhaseSnoc(s.trace, Wrote(r, s.nextRequest, submission), r);
    LawfulSnoc(s.trace, Wrote(r, s.nextRequest, submission));
  }

  /** A lookup goes out. */
  lemma AskKeeps(s: State, purpose: Purpose, w: Wait)
    requires Guarded(s) && s.form.Some? && (s.form.value.status.Pending? || s.form.value.status.Interrupted?)
    requires w.IsLookup() && w.review == s.form.value.reviewId
    ensures Guarded(LookUp(SetStatus(s, Reconciling(s.form.value.status.submission, purpose)), w))
  {
    hide PhaseOf, Lawful, DistinctRepos;
    var r := s.form.value.reviewId;
    var left := SetStatus(s, Reconciling(s.form.value.status.submission, purpose));
    PhaseSnoc(s.trace, LeftPending(r), r);
    LawfulSnoc(s.trace, LeftPending(r));
    PhaseSnoc(left.trace, LookedUp(r, s.nextRequest), r);
    LawfulSnoc(left.trace, LookedUp(r, s.nextRequest));
  }

  lemma ReplyKeeps(s: State, id: nat)
    requires Guarded(s)
    ensures Guarded(Answered(s, id))
  {
    hide PhaseOf, Lawful, DistinctRepos;
  }

  /** A "not found" is seen. */
  lemma MissingKeeps(s: State, id: nat)
    requires Guarded(s) && id in s.waits && s.waits[id].IsLookup()
    ensures Guarded(Answered(s.(trace := s.trace + [Missing(s.waits[id].review, id)]), id))
  {
    hide PhaseOf, Lawful, DistinctRepos;
    var r := s.waits[id].review;
    if s.form.Some? {
      PhaseSnoc(s.trace, Missing(r, id), s.form.value.reviewId);
    }
    LawfulSnoc(s.trace, Missing(r, id));
  }

  /** Accepted and not stale, it clears the form for another write. */
  lemma MissingClears(s: State, id: nat)
    requires Guarded(s) && Accepts(s, LookupFailed(id, true)) && !Stale(s, LookupFailed(id, true))
    ensures PhaseOf(s.trace + [Missing(s.waits[id].review, id)], s.form.value.reviewId).Cleared?
  {
    hide PhaseOf, Lawful, DistinctRepos;
    var r := s.form.value.reviewId;
    PhaseSnoc(s.trace, Missing(r, id), r);
    assert LookupFor(s, id, r);
  }

  lemma LookupKept(s: State, id: nat, missing: bool)
    requires Guarded(s) && !Stale(s, LookupFailed(id, missing))
    ensures Guarded(Step(s, LookupFailed(id, missing)))
  {
    hide PhaseOf, Lawful, DistinctRepos;
    if id in s.waits && s.waits[id].IsLookup() {
      var r := s.waits[id].review;
      var seen := Answered(s.(trace := if missing then s.trace + [Missing(r, id)] else s.trace), id);
      if missing {
        MissingKeeps(s, id);
      } else {
        ReplyKeeps(s, id);
      }
      if seen.form.Some? && seen.form.value.reviewId == r && seen.form.value.status.Reconciling? {
        var sub := seen.form.value.status.submission;
        StatusKeeps(seen, Interrupted(sub));
        if Accepts(s, LookupFailed(id, missing)) {
          MissingClears(s, id);
          StatusKeeps(seen, Failed);
          WriteKeeps(seen, sub);
        }
      }
    }
  }

  lemma FoundKept(s: State, r: Sighting)
    requires Guarded(s)
    ensures Guarded(CreationFound(s, r))
  {
    hide PhaseOf, Lawful, DistinctRepos, StatusFits, LookupsFit;
    if Concerns(s, r) && Frozen(s).Some? {
      StatusKeeps(s, Succeeded);
      StatusKeeps(s, Interrupted(Frozen(s).value));
    }
  }

  lemma ReconcileKept(s: State, review: ReviewId, purpose: Purpose)
    requires Guarded(s)
    ensures Guarded(Reconcile(s, review, purpose))
  {
    hide PhaseOf, Lawful, DistinctRepos;
    if s.form.Some? && s.form.value.reviewId == review && s.form.value.status.Interrupted? {
      var f := if purpose.Retry? then s.form.value.(revision := s.form.value.revision + 1) else s.form.value;
      var counted := s.(form := Some(f));
      assert Guarded(counted);
      AskKeeps(counted, purpose, WaitLookup(review));
    }
  }

  lemma SubmitKept(s: State, review: ReviewId, attached: bool)
    requires Guarded(s)
    ensures Guarded(SubmitCreation(s, review, attached))
  {
    hide PhaseOf, Lawful;
    if s.form.Some? && s.form.value.reviewId == review && s.form.value.status.Editable() {
      var counted := s.(form := Some(s.form.value.(revision := s.form.value.revision + 1)));
      assert Guarded(counted);
      StatusKeeps(counted, Failed);
      if Parsed(s.form.value.draft).Some? {
        WriteKeeps(counted, Parsed(s.form.value.draft).value);
      }
    }
  }

  lemma RefusedKept(s: State, id: nat)
    requires Guarded(s)
    ensures Guarded(Step(s, Refused(id)))
  {
    hide PhaseOf, Lawful, DistinctRepos;
    if id in s.waits && s.waits[id].WaitWrite? {
      var r, done := s.waits[id].review, Answered(s, id);
      ReplyKeeps(s, id);
      if done.form.Some? && done.form.value.reviewId == r && done.form.value.status.Pending? {
        AskKeeps(done, Inspect, WaitCheck(r));
      }
    }
  }

  lemma InterruptKept(s: State)
    requires Guarded(s)
    ensures Guarded(CreationDisconnected(s))
  {
    hide PhaseOf, Lawful, DistinctRepos, StatusFits, LookupsFit;
    if s.form.Some? && (s.form.value.status.Pending? || s.form.value.status.Reconciling?) {
      StatusKeeps(s, Interrupted(s.form.value.status.submission));
    }
  }

  lemma DisconnectKept(s: State)
    requires Guarded(s)
    ensures Guarded(Step(s, Disconnect)) && Guarded(Step(s, RestartDeadline))
  {
    hide PhaseOf, Lawful, DistinctRepos;
    var cleared := s.(waits := map[], link := Down);
    assert Guarded(cleared);
    InterruptKept(cleared);
  }

  lemma FormKept(s: State, input: Input)
    requires Guarded(s) && (input.StartForm? || input.EditForm? || input.CancelForm? || input.SetContext?
             || input.Connect?)
    ensures Guarded(Step(s, input))
  {
    hide PhaseOf, Lawful, DistinctRepos;
    if input.StartForm? && input.review !in s.used {
      UnusedIsFresh(s.trace, input.review);
    }
  }

  lemma SightingKept(s: State, input: Input)
    requires Guarded(s) && (input.Observed? || input.Committed? || input.Found?)
    ensures Guarded(Step(s, input))
  {
    hide PhaseOf, Lawful, DistinctRepos, StatusFits, LookupsFit;
    FoundKept(s, input.sighting);
    if !input.Observed? {
      ReplyKeeps(CreationFound(s, input.sighting), input.id);
    }
  }

  /** Every step but a stale answer keeps the invariant: reported impostors included. */
  lemma {:induction false} StepKept(s: State, input: Input)
    requires Guarded(s) && !Stale(s, input)
    ensures Guarded(Step(s, input))
  {
    hide Guarded, Stale;
    match input
    case Submit(review, attached) => SubmitKept(s, review, attached);
    case RetryForm(review) => ReconcileKept(s, review, Retry);
    case Subscribe => if s.link.Connecting? { UpKept(s); }
    case Disconnect => DisconnectKept(s);
    case RestartDeadline => DisconnectKept(s);
    case Refused(id) => RefusedKept(s, id);
    case LookupFailed(id, missing) => LookupKept(s, id, missing);
    case Committed(_, _) => SightingKept(s, input);
    case Found(_, _) => SightingKept(s, input);
    case Observed(_) => SightingKept(s, input);
    case _ => FormKept(s, input);
  }

  lemma UpKept(s: State)
    requires Guarded(s)
    ensures Guarded(s.(link := Subscribed))
            && (s.form.Some? ==> Guarded(Reconcile(s.(link := Subscribed), s.form.value.reviewId, Inspect)))
  {
    hide PhaseOf, Lawful, DistinctRepos;
    var up := s.(link := Subscribed);
    assert Guarded(up);
    if s.form.Some? {
      ReconcileKept(up, s.form.value.reviewId, Inspect);
    }
  }

  lemma {:induction false} RunKept(context: nat, inputs: seq<Input>, n: nat)
    requires n <= |inputs| && FreshUpTo(context, inputs, n)
    ensures Guarded(Run(context, inputs[..n]))
    decreases n
  {
    hide Guarded, Stale, Step;
    if n == 0 {
      NothingYet(context);
    } else {
      RunKept(context, inputs, n - 1);
      StepKept(Run(context, inputs[..n - 1]), inputs[n - 1]);
      RunSnoc(context, inputs, n - 1);
    }
  }

  lemma NothingYet(context: nat)
    ensures Guarded(Initial(context))
  {
  }

  /**
   A second write of one review id is sent only after a "not found" answer to a lookup that was itself
   sent after the previous write left `Pending`, in every run that accepts no stale answer.
   */
  lemma {:induction false} NeverBlindlyRewrites(context: nat, inputs: seq<Input>, i: nat, j: nat)
    requires NeverStale(context, inputs)
    requires var trace := Run(context, inputs).trace;
             i < j < |trace| && trace[i].Wrote? && trace[j].Wrote? && trace[i].review == trace[j].review
    ensures var trace := Run(context, inputs).trace; exists p, q, t :: Justified(trace, i, j, trace[i].review, p, q, t)
  {
    RunKept(context, inputs, |inputs|);
    assert inputs[..|inputs|] == inputs;
    LawfulIsJustified(Run(context, inputs).trace, i, j);
  }

  // ---- a stale answer leads to a blind write --------------------------------

  /** What the user and the connection do on their own; no answer and no report. */
  predicate Plain(input: Input) {
    !input.Committed? && !input.Refused? && !input.Found? && !input.LookupFailed? && !input.Observed?
  }

  ghost predicate AllPlain(more: seq<Input>) { forall n | 0 <= n < |more| :: Plain(more[n]) }

  function RunFrom(s: State, more: seq<Input>): State {
    if more == [] then s else Step(RunFrom(s, more[..|more| - 1]), more[|more| - 1])
  }

  /** No write so far was blind, and none will be whatever the user does before the next answer. */
  ghost predicate Safe(s: State) { forall more | AllPlain(more) :: Lawful(RunFrom(s, more).trace) }

  lemma {:induction false} GuardedIsSafe(s: State, more: seq<Input>)
    requires Guarded(s) && AllPlain(more)
    ensures Guarded(RunFrom(s, more))
    decreases |more|
  {
    if more != [] {
      var init := more[..|more| - 1];
      assert AllPlain(init) && Plain(more[|init|]);
      GuardedIsSafe(s, init);
      StepKept(RunFrom(s, init), more[|init|]);
    }
  }

  /** Editable although nothing has cleared the last write. */
  ghost predicate Exposed(s: State) {
    s.form.Some? && s.form.value.status == Failed && PhaseOf(s.trace, s.form.value.reviewId).Looking?
  }

  lemma BlindWrite(trace: seq<Fact>, review: ReviewId, id: nat, submission: Submission)
    requires PhaseOf(trace, review).Looking?
    ensures !Lawful(trace + [Wrote(review, id, submission)])
  {
    var more := trace + [Wrote(review, id, submission)];
    assert more[..|trace|] == trace && more[|trace|].Wrote?;
  }

  /** A stale answer writes blindly at once, or leaves the form open to it. */
  lemma StaleExposes(s: State, input: Input)
    requires Guarded(s) && Stale(s, input)
    ensures !Lawful(Step(s, input).trace) || Exposed(Step(s, input))
  {
    hide PhaseOf, Lawful;
    var r, id := s.form.value.reviewId, input.id;
    var seen := Answered(s.(trace := s.trace + [Missing(r, id)]), id);
    PhaseSnoc(s.trace, Missing(r, id), r);
    assert PhaseOf(seen.trace, r).Looking?;
    if !s.waits[id].WaitCheck? {
      BlindWrite(seen.trace, r, seen.nextRequest, s.form.value.status.submission);
    }
  }

  const PLAIN_DRAFT := Draft("t", [Target(1, "a", "b")])

  /** The user comes back to the form's context, reconnects, corrects the form and submits it. */
  function Resubmission(f: Form): seq<Input> {
    [SetContext(f.context), Disconnect, Connect, Subscribe, EditForm(f.reviewId, PLAIN_DRAFT), Submit(f.reviewId, true)]
  }

  lemma RunFromNext(s: State, more: seq<Input>, n: nat)
    requires n < |more|
    ensures RunFrom(s, more[..n + 1]) == Step(RunFrom(s, more[..n]), more[n])
  {
    assert more[..n + 1][..n] == more[..n];
  }

  lemma PlainDraftParses()
    ensures Parsed(PLAIN_DRAFT).Some?
  {
    assert TrimEnd(TrimStart("t")) == "t";
  }

  /** What the first five of those inputs leave. */
  lemma Reconnected(s: State)
    requires s.form.Some? && s.form.value.status == Failed
    ensures var f := s.form.value;
            var up := Step(Step(Step(Step(s, SetContext(f.context)), Disconnect), Connect), Subscribe);
            up == s.(context := f.context, waits := map[], link := Subscribed)
  {
  }

  lemma Corrected(s: State)
    requires s.form.Some? && s.form.value.status == Failed && s.link.Subscribed? && s.context == s.form.value.context
    ensures var f := s.form.value;
            var edited := Step(s, EditForm(f.reviewId, PLAIN_DRAFT));
            && edited.trace == s.trace
            && Step(edited, Submit(f.reviewId, true)).trace
               == s.trace + [Wrote(f.reviewId, s.nextRequest, Parsed(PLAIN_DRAFT).value)]
  {
    PlainDraftParses();
  }

  lemma ExposedIsUnsafe(s: State)
    requires Exposed(s)
    ensures !Safe(s)
  {
    hide PhaseOf, Lawful, Step, Parsed;
    var f := s.form.value;
    var more := Resubmission(f);
    forall n: nat | n < 6
      ensures RunFrom(s, more[..n + 1]) == Step(RunFrom(s, more[..n]), more[n])
    {
      RunFromNext(s, more, n);
    }
    Reconnected(s);
    assert more[..0] == [] && more[..6] == more;
    var up := s.(context := f.context, waits := map[], link := Subscribed);
    FirstFour(s, more);
    Corrected(up);
    assert RunFrom(s, more) == Step(Step(up, more[4]), more[5]);
    PlainDraftParses();
    BlindWrite(s.trace, f.reviewId, s.nextRequest, Parsed(PLAIN_DRAFT).value);
    assert AllPlain(more);
  }

  lemma FirstFour(s: State, more: seq<Input>)
    requires |more| >= 4
    ensures RunFrom(s, more[..4]) == Step(Step(Step(Step(s, more[0]), more[1]), more[2]), more[3])
  {
    hide Step;
    RunFromNext(s, more, 3);
    RunFromNext(s, more, 2);
    RunFromNext(s, more, 1);
    RunFromNext(s, more, 0);
    assert more[..0] == [];
  }

  ghost predicate AlwaysSafe(context: nat, inputs: seq<Input>) {
    forall n | 0 <= n <= |inputs| :: Safe(Run(context, inputs[..n]))
  }

  lemma StaleIsUnsafe(s: State, input: Input)
    requires Guarded(s) && Stale(s, input)
    ensures !Safe(Step(s, input))
  {
    hide Lawful, Exposed, Guarded, Stale, Step;
    StaleExposes(s, input);
    var next := Step(s, input);
    if Exposed(next) {
      ExposedIsUnsafe(next);
    } else {
      assert AllPlain([]) && RunFrom(next, []) == next;
    }
  }

  lemma {:induction false} SafeIsFresh(context: nat, inputs: seq<Input>, n: nat)
    requires n <= |inputs| && AlwaysSafe(context, inputs)
    ensures FreshUpTo(context, inputs, n)
    decreases n
  {
    hide Safe, Stale, Guarded, Step;
    if n > 0 {
      var k := n - 1;
      SafeIsFresh(context, inputs, k);
      RunKept(context, inputs, k);
      RunSnoc(context, inputs, k);
      var s := Run(context, inputs[..k]);
      assert Safe(Step(s, inputs[k]));
      SafeStepIsFresh(s, inputs[k]);
    }
  }

  lemma SafeStepIsFresh(s: State, input: Input)
    requires Guarded(s) && Safe(Step(s, input))
    ensures !Stale(s, input)
  {
    hide Safe, Stale, Guarded, Step;
    if Stale(s, input) {
      StaleIsUnsafe(s, input);
    }
  }

  /**
   No write is blind, nor can the user make the next one blind, exactly in the runs that accept no stale
   answer.
   */
  lemma {:induction false} SafeExactlyWithoutStale(context: nat, inputs: seq<Input>)
    ensures AlwaysSafe(context, inputs) <==> NeverStale(context, inputs)
  {
    hide Safe, Stale, Guarded;
    if NeverStale(context, inputs) {
      forall n | 0 <= n <= |inputs|
        ensures Safe(Run(context, inputs[..n]))
      {
        RunKept(context, inputs, n);
        GuardedMeansSafe(Run(context, inputs[..n]));
      }
    }
    if AlwaysSafe(context, inputs) {
      SafeIsFresh(context, inputs, |inputs|);
    }
  }

  lemma GuardedMeansSafe(s: State)
    requires Guarded(s)
    ensures Safe(s)
  {
    forall more | AllPlain(more)
      ensures Lawful(RunFrom(s, more).trace)
    {
      GuardedIsSafe(s, more);
    }
  }

  // ---- impostors ------------------------------------------------------------

  lemma FreshWithoutImpostor(s: State, input: Input)
    requires Guarded(s) && Invariant(s)
    ensures !Stale(s, input)
  {
    hide PhaseOf, Lawful;
    if Accepts(s, input) {
      assert LookupFor(s, input.id, s.form.value.reviewId);
    }
  }

  lemma {:induction false} UnambiguousIsFresh(context: nat, inputs: seq<Input>, n: nat)
    requires n <= |inputs| && Unambiguous(context, inputs)
    ensures FreshUpTo(context, inputs, n)
    decreases n
  {
    hide Stale, Guarded, Invariant, Step, Impostor;
    if n > 0 {
      var k := n - 1;
      UnambiguousIsFresh(context, inputs, k);
      RunKept(context, inputs, k);
      assert forall h | 0 <= h < k :: inputs[..k][..h] == inputs[..h] && inputs[..k][h] == inputs[h];
      RunKeeps(context, inputs[..k]);
      FreshWithoutImpostor(Run(context, inputs[..k]), inputs[k]);
    }
  }

  /** A run in which no impostor is reported while a lookup is in flight accepts no stale answer. */
  lemma UnambiguousIsNeverStale(context: nat, inputs: seq<Input>)
    requires Unambiguous(context, inputs)
    ensures NeverStale(context, inputs)
  {
    UnambiguousIsFresh(context, inputs, |inputs|);
  }
}
