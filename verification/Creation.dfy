/**
 Review creation: an editable form, a frozen submission, and reconciliation by identity whenever the
 outcome of a write is uncertain.
 */
module Creation {
  import opened Protocol

  datatype Submission = Submission(title: string, targets: seq<Target>)

  datatype Purpose = Inspect | Retry

  datatype Status =
    | Editing
    | Failed
    | Pending(submission: Submission)
    | Interrupted(submission: Submission)
    | Reconciling(submission: Submission, purpose: Purpose)
    | Succeeded
  {
    predicate Editable() { Editing? || Failed? }

    /** The wire snapshot retained unchanged through uncertain replies. */
    function Frozen(): Option<Submission> {
      if Pending? || Interrupted? || Reconciling? then Some(submission) else None
    }
  }

  datatype Draft = Draft(title: string, targets: seq<Target>)

  datatype Form = Form(reviewId: ReviewId, workspace: nat, context: nat, draft: Draft, revision: nat, status: Status)

  datatype Link = Down | Connecting | Subscribed

  datatype Wait = WaitWrite(review: ReviewId) | WaitCheck(review: ReviewId) | WaitLookup(review: ReviewId)
  {
    predicate IsLookup() { WaitCheck? || WaitLookup? }
  }

  /** What an observer of the connection sees. */
  datatype Fact =
    | Wrote(review: ReviewId, id: nat, submission: Submission)
    | LeftPending(review: ReviewId)
    | LookedUp(review: ReviewId, id: nat)
    | Missing(review: ReviewId, id: nat)

  datatype State = State(form: Option<Form>, context: nat, link: Link, waits: map<nat, Wait>, nextRequest: nat,
                         used: set<ReviewId>, trace: seq<Fact>)

  /** A reported review. */
  datatype Sighting = Sighting(id: ReviewId, workspace: nat, title: string, targets: seq<Target>)

  datatype Input =
    | StartForm(review: ReviewId, workspace: nat, draft: Draft)
    | CancelForm
    | EditForm(review: ReviewId, draft: Draft)
    | Submit(review: ReviewId, attached: bool)
    | RetryForm(review: ReviewId)
    | SetContext(context: nat)
    | Connect | Subscribe | Disconnect | RestartDeadline
    | Committed(id: nat, sighting: Sighting)
    | Refused(id: nat)
    | Found(id: nat, sighting: Sighting)
    | LookupFailed(id: nat, missing: bool)
    | Observed(sighting: Sighting)

  predicate DistinctRepos(targets: seq<Target>) {
    forall i, j | 0 <= i < j < |targets| :: targets[i].repo != targets[j].repo
  }

  function TrimStart(s: string): string { if s != [] && IsSpace(s[0]) then TrimStart(s[1..]) else s }

  function TrimEnd(s: string): string { if s != [] && IsSpace(s[|s| - 1]) then TrimEnd(s[..|s| - 1]) else s }

  /** The submission a draft stands for, once its refs are parsed. */
  function Parsed(d: Draft): Option<Submission> {
    var title := TrimEnd(TrimStart(d.title));
    if title == "" || d.targets == [] || !DistinctRepos(d.targets) then None else Some(Submission(title, d.targets))
  }

  // ---- transitions ----------------------------------------------------------

  /** Every change of status goes through here, so that leaving `Pending` is visible. */
  function SetStatus(s: State, status: Status): State
    requires s.form.Some?
  {
    var f := s.form.value;
    s.(form := Some(f.(status := status)),
       trace := if f.status.Pending? && !status.Pending? then s.trace + [LeftPending(f.reviewId)] else s.trace)
  }

  function Wait_(s: State, w: Wait): State {
    s.(waits := s.waits[s.nextRequest := w], nextRequest := s.nextRequest + 1)
  }

  function SendCreation(s: State, submission: Submission): State
    requires s.form.Some?
  {
    var f := s.form.value;
    if f.context != s.context then s
    else
      var sent := Wait_(s.(form := Some(f.(status := Pending(submission)))), WaitWrite(f.reviewId));
      sent.(trace := s.trace + [Wrote(f.reviewId, s.nextRequest, submission)])
  }

  function LookUp(s: State, w: Wait): State {
    Wait_(s, w).(trace := s.trace + [LookedUp(w.review, s.nextRequest)])
  }

  function WriteFailed(s: State, review: ReviewId): State {
    if s.form.None? || s.form.value.reviewId != review || s.form.value.context != s.context
        || !s.form.value.status.Pending? then s
    else LookUp(SetStatus(s, Reconciling(s.form.value.status.submission, Inspect)), WaitCheck(review))
  }

  function LookupAnswered(s: State, review: ReviewId, missing: bool): State {
    if s.form.None? || s.form.value.reviewId != review || !s.form.value.status.Reconciling? then s
    else
      var sub, purpose := s.form.value.status.submission, s.form.value.status.purpose;
      if missing && purpose.Retry? then
        if DistinctRepos(sub.targets) then SendCreation(s, sub) else SetStatus(s, Failed)
      else SetStatus(s, Interrupted(sub))
  }

  /** The lookup after a rejected write. */
  function FailureChecked(s: State, review: ReviewId, missing: bool): State {
    if missing then
      if s.form.None? || s.form.value.reviewId != review || !s.form.value.status.Reconciling? then s
          else SetStatus(s, Failed)
    else LookupAnswered(s, review, missing)
  }

  predicate Concerns(s: State, r: Sighting) {
    s.form.Some? && s.form.value.reviewId == r.id && s.form.value.workspace == r.workspace
      && s.form.value.context == s.context
  }

  function CreationFound(s: State, r: Sighting): State {
    if !Concerns(s, r) || s.form.value.status.Frozen().None? then s
    else
      var sub := s.form.value.status.Frozen().value;
      SetStatus(s, if sub == Submission(r.title, r.targets) then Succeeded else Interrupted(sub))
  }

  function CreationDisconnected(s: State): State {
    if s.form.Some? && (s.form.value.status.Pending? || s.form.value.status.Reconciling?)
    then SetStatus(s, Interrupted(s.form.value.status.submission)) else s
  }

  function Reconcile(s: State, review: ReviewId, purpose: Purpose): State {
    if s.form.None? || s.form.value.reviewId != review || s.form.value.context != s.context
        || !s.form.value.status.Interrupted? then s
    else
      var f := if purpose.Retry? then s.form.value.(revision := s.form.value.revision + 1) else s.form.value;
      var counted := s.(form := Some(f));
      if !s.link.Subscribed? then counted
      else LookUp(SetStatus(counted, Reconciling(f.status.submission, purpose)), WaitLookup(review))
  }

  function SubmitCreation(s: State, review: ReviewId, attached: bool): State {
    if s.form.None? || s.form.value.reviewId != review || !s.form.value.status.Editable() then s
    else
      var f := s.form.value.(revision := s.form.value.revision + 1);
      var counted := s.(form := Some(f));
      if f.context == s.context && s.link.Subscribed? && attached && Parsed(f.draft).Some?
      then SendCreation(counted, Parsed(f.draft).value)
      else SetStatus(counted, Failed)
  }

  function Answered(s: State, id: nat): State { s.(waits := s.waits - {id}) }

  function Step(s: State, input: Input): State {
    match input
    case StartForm(review, workspace, draft) =>
      if review in s.used then s
      else if s.form.Some? && s.form.value.status != Succeeded
          && (!s.form.value.status.Editable() || s.form.value.workspace == workspace) then s
      else s.(form := Some(Form(review, workspace, s.context, draft, 0, Editing)), used := s.used + {review})
    case CancelForm =>
      if s.form.Some? && !s.form.value.status.Editable() && s.form.value.status != Succeeded then s
          else s.(form := None)
    case EditForm(review, draft) =>
      if s.form.None? || s.form.value.reviewId != review || !s.form.value.status.Editable() then s
      else s.(form := Some(s.form.value.(draft := draft, revision := s.form.value.revision + 1,
                                         status := if DistinctRepos(draft.targets) then Editing else Failed)))
    case Submit(review, attached) => SubmitCreation(s, review, attached)
    case RetryForm(review) => Reconcile(s, review, Retry)
    case SetContext(context) => s.(context := context)
    case Connect => if s.link.Down? then s.(link := Connecting) else s
    case Subscribe =>
      if !s.link.Connecting? then s
      else
        var up := s.(link := Subscribed);
        if up.form.Some? then Reconcile(up, up.form.value.reviewId, Inspect) else up
    case Disconnect =>
      var cleared := s.(waits := map[], link := Down);
      if s.link.Down? then cleared else CreationDisconnected(cleared)
    case RestartDeadline => s.(waits := map[], link := Down)
    case Committed(id, r) =>
      if id in s.waits && s.waits[id] == WaitWrite(r.id) then Answered(CreationFound(s, r), id) else s
    case Refused(id) =>
      if id in s.waits && s.waits[id].WaitWrite? then WriteFailed(Answered(s, id), s.waits[id].review) else s
    case Found(id, r) =>
      if id in s.waits && s.waits[id].IsLookup() && s.waits[id].review == r.id then Answered(CreationFound(s, r), id)
          else s
    case LookupFailed(id, missing) =>
      if id !in s.waits || !s.waits[id].IsLookup() then s
      else
        var w := s.waits[id];
        var seen := Answered(s.(trace := if missing then s.trace + [Missing(w.review, id)] else s.trace), id);
        if w.WaitCheck? then FailureChecked(seen, w.review, missing) else LookupAnswered(seen, w.review, missing)
    case Observed(r) => CreationFound(s, r)
  }

  function Initial(context: nat): State { State(None, context, Down, map[], 0, {}, []) }

  function Run(context: nat, inputs: seq<Input>): State {
    if inputs == [] then Initial(context) else Step(Run(context, inputs[..|inputs| - 1]), inputs[|inputs| - 1])
  }

  // ---- the frozen submission ------------------------------------------------

  function Frozen(s: State): Option<Submission> { if s.form.Some? then s.form.value.status.Frozen() else None }

  /** The review an input reports, if it reports one to this state. */
  function SightingOf(s: State, input: Input): Option<Sighting> {
    match input
    case Observed(r) => Some(r)
    case Committed(_, r) => Some(r)
    case Found(_, r) => Some(r)
    case _ => None
  }

  predicate SaysMissing(s: State, input: Input, review: ReviewId) {
    input.LookupFailed? && input.missing && input.id in s.waits && s.waits[input.id].IsLookup()
      && s.waits[input.id].review == review
  }

  /**
   While the outcome is open the form and its submission stay as they are; it ends only in success on a
   review with the same id, workspace, title and targets, or in failure on an authoritative "not found".
   */
  lemma {:induction false} FrozenUntilKnown(s: State, input: Input)
    requires Frozen(s).Some?
    ensures var t, f := Step(s, input), s.form.value;
            && t.form.Some? && t.form.value.reviewId == f.reviewId && t.form.value.workspace == f.workspace
               && t.form.value.draft == f.draft
            && (Frozen(t).Some? ==> Frozen(t) == Frozen(s))
            && (Frozen(t).None? ==>
                  || (t.form.value.status == Succeeded && SightingOf(s, input).Some? &&
                      var r := SightingOf(s, input).value;
                          r == Sighting(f.reviewId, f.workspace, Frozen(s).value.title, Frozen(s).value.targets))
                  || (t.form.value.status == Failed && SaysMissing(s, input, f.reviewId)))
  {
  }

  /** Through any stretch of a run in which the outcome stays open, the submission is the one first sent. */
  lemma {:induction false} FrozenThroughout(context: nat, inputs: seq<Input>, n: nat)
    requires n <= |inputs| && forall k | n <= k <= |inputs| :: Frozen(Run(context, inputs[..k])).Some?
    ensures var a, b := Run(context, inputs[..n]), Run(context, inputs);
            Frozen(b) == Frozen(a) && a.form.Some? && b.form.Some? && b.form.value.reviewId == a.form.value.reviewId
    decreases |inputs|
  {
    if n == |inputs| {
      assert inputs[..n] == inputs;
    } else {
      var init := inputs[..|inputs| - 1];
      assert init[..n] == inputs[..n] && inputs[..|inputs|] == inputs;
      forall k | n <= k <= |init|
        ensures Frozen(Run(context, init[..k])).Some?
      {
        assert init[..k] == inputs[..k];
      }
      FrozenThroughout(context, init, n);
      assert inputs[..|init|] == init;
      FrozenUntilKnown(Run(context, init), inputs[|inputs| - 1]);
    }
  }

  // ---- no blind rewrite -----------------------------------------------------

  /** What has been seen since the last write of one review id; `since` is that write's request. */
  datatype Phase = Fresh | Open(since: nat) | Left(since: nat) | Looking(since: nat, ids: set<nat>) | Cleared

  function Advance(p: Phase, f: Fact, review: ReviewId): Phase {
    if f.review != review then p
    else
      match f
      case Wrote(_, id, _) => Open(id)
      case LeftPending(_) => if p.Open? then Left(p.since) else p
      case LookedUp(_, id) => if p.Left? then Looking(p.since, {id}) else if p.Looking? then p.(ids := p.ids + {id})
          else p
      case Missing(_, id) => if p.Looking? && id in p.ids then Cleared else p
  }

  function PhaseOf(trace: seq<Fact>, review: ReviewId): Phase {
    if trace == [] then Fresh else Advance(PhaseOf(trace[..|trace| - 1], review), trace[|trace| - 1], review)
  }

  predicate Justified(trace: seq<Fact>, i: int, j: int, review: ReviewId, p: int, q: int, t: int) {
    && 0 <= i < p < q < t < j <= |trace|
    && trace[p] == LeftPending(review) && trace[q].LookedUp? && trace[q].review == review
       && trace[t] == Missing(review, trace[q].id)
  }

  /** What each phase says about the trace after its last write. */
  ghost predicate Witnessed(trace: seq<Fact>, review: ReviewId, i: int) {
    && 0 <= i < |trace| && trace[i].Wrote? && trace[i].review == review
    && match PhaseOf(trace, review)
       case Fresh => false
       case Open(_) => true
       case Left(_) => exists p :: i < p < |trace| && trace[p] == LeftPending(review)
       case Looking(_, ids) => exists p :: i < p < |trace| && trace[p] == LeftPending(review) &&
                                        forall id | id in ids :: exists q ::
                                            p < q < |trace| && trace[q] == LookedUp(review, id)
       case Cleared => exists p, q, t :: Justified(trace, i, |trace|, review, p, q, t)
  }

  lemma {:induction false} PhaseWitnessed(trace: seq<Fact>, review: ReviewId)
    ensures PhaseOf(trace, review).Fresh? ==>
            forall k | 0 <= k < |trace| :: !(trace[k].Wrote? && trace[k].review == review)
    ensures !PhaseOf(trace, review).Fresh? ==>
              exists i :: Witnessed(trace, review, i) && forall k | i < k < |trace| ::
                !(trace[k].Wrote? && trace[k].review == review)
    decreases |trace|
  {
    if trace != [] {
      var init, f := trace[..|trace| - 1], trace[|trace| - 1];
      PhaseWitnessed(init, review);
      var before := PhaseOf(init, review);
      if f.Wrote? && f.review == review {
        assert Witnessed(trace, review, |init|);
      } else if !before.Fresh? {
        var i :| Witnessed(init, review, i) && forall k | i < k < |init| ::
            !(init[k].Wrote? && init[k].review == review);
        WitnessExtends(trace, review, i);
      }
    }
  }

  lemma WitnessExtends(trace: seq<Fact>, review: ReviewId, i: int)
    requires trace != [] && Witnessed(trace[..|trace| - 1], review, i)
    requires !(trace[|trace| - 1].Wrote? && trace[|trace| - 1].review == review)
    ensures Witnessed(trace, review, i)
  {
    var n, init, f := |trace| - 1, trace[..|trace| - 1], trace[|trace| - 1];
    match PhaseOf(init, review)
    case Open(_) => if f == LeftPending(review) { assert trace[n] == LeftPending(review); }
    case Left(_) =>
      var p :| i < p < n && init[p] == LeftPending(review);
      assert trace[p] == LeftPending(review);
      if f.LookedUp? && f.review == review {
        assert trace[n] == LookedUp(review, f.id);
      }
    case Looking(_, ids) =>
      var p :| i < p < n && init[p] == LeftPending(review) &&
               forall id | id in ids :: exists q :: p < q < n && init[q] == LookedUp(review, id);
      assert trace[p] == LeftPending(review);
      forall id | id in ids
        ensures exists q :: p < q < n && trace[q] == LookedUp(review, id)
      {
        var q :| p < q < n && init[q] == LookedUp(review, id);
        assert trace[q] == LookedUp(review, id);
      }
      if f.Missing? && f.review == review && f.id in ids {
        var q :| p < q < n && trace[q] == LookedUp(review, f.id);
        assert Justified(trace, i, |trace|, review, p, q, n);
      } else if f.LookedUp? && f.review == review {
        assert trace[n] == LookedUp(review, f.id);
      }
    case Cleared =>
      var p, q, t :| Justified(init, i, n, review, p, q, t);
      assert Justified(trace, i, |trace|, review, p, q, t);
    case Fresh =>
  }

  /** While a lookup is in flight, a review of this identity but other inputs is reported another way. */
  predicate Impostor(s: State, input: Input) {
    && s.form.Some? && s.form.value.status.Reconciling?
    && (exists id :: id in s.waits && LookupFor(s, id, s.form.value.reviewId))
    && (input.Observed? || (input.Committed? && input.id in s.waits
       && s.waits[input.id] == WaitWrite(input.sighting.id)))
    && Concerns(s, input.sighting) && s.form.value.status.submission != Submission(input.sighting.title,
       input.sighting.targets)
  }

  predicate LookupFor(s: State, id: nat, review: ReviewId)
    requires id in s.waits
  {
    s.waits[id].IsLookup() && s.waits[id].review == review
  }

  /** Every write in the trace came after nothing or after a "not found". */
  ghost predicate Lawful(trace: seq<Fact>) {
    forall j | 0 <= j < |trace| && trace[j].Wrote? ::
      var phase := PhaseOf(trace[..j], trace[j].review); phase.Fresh? || phase.Cleared?
  }

  ghost predicate Fits(s: State, f: Form) {
    var phase := PhaseOf(s.trace, f.reviewId);
    && f.reviewId in s.used
    && (f.status.Editable() ==> phase.Fresh? || phase.Cleared?)
    && (f.status.Pending? ==> phase.Open?)
    && (f.status.Interrupted? ==> !phase.Fresh? && !phase.Open?)
    && (f.status.Reconciling? ==> phase.Looking? || phase.Cleared?)
    && (forall id | id in s.waits && LookupFor(s, id, f.reviewId) && f.status != Succeeded ::
          f.status.Reconciling? && (phase.Cleared? || (phase.Looking? && id in phase.ids)))
    && (forall a, b | a in s.waits && b in s.waits && LookupFor(s, a, f.reviewId) && LookupFor(s, b, f.reviewId)
       && f.status != Succeeded :: a == b)
  }

  ghost predicate Invariant(s: State) {
    && Lawful(s.trace)
    && (forall f | f in s.trace :: f.review in s.used)
    && (forall id | id in s.waits :: id < s.nextRequest && s.waits[id].review in s.used)
    && (s.form.Some? ==> Fits(s, s.form.value))
  }

  lemma PhaseSnoc(trace: seq<Fact>, f: Fact, review: ReviewId)
    ensures PhaseOf(trace + [f], review) == Advance(PhaseOf(trace, review), f, review)
  {
    assert (trace + [f])[..|trace|] == trace;
  }

  lemma LawfulSnoc(trace: seq<Fact>, f: Fact)
    requires Lawful(trace) && (f.Wrote? ==> PhaseOf(trace, f.review).Fresh? || PhaseOf(trace, f.review).Cleared?)
    ensures Lawful(trace + [f])
  {
    assert forall j | 0 <= j <= |trace| :: (trace + [f])[..j] == trace[..j];
    assert trace[..|trace|] == trace;
  }

  lemma {:induction false} UnusedIsFresh(trace: seq<Fact>, review: ReviewId)
    requires forall f | f in trace :: f.review != review
    ensures PhaseOf(trace, review) == Fresh
  {
    if trace != [] {
      UnusedIsFresh(trace[..|trace| - 1], review);
      assert trace[|trace| - 1] in trace;
    }
  }

  /** No lookup of the form is out. */
  predicate Quiet(s: State) {
    s.form.Some? && forall id | id in s.waits :: !LookupFor(s, id, s.form.value.reviewId)
  }

  lemma SetStatusKeeps(s: State, status: Status)
    requires Invariant(s) && Quiet(s) && !status.Pending? && !status.Reconciling?
    requires status.Editable() ==>
             PhaseOf(s.trace, s.form.value.reviewId).Fresh?
             || PhaseOf(s.trace, s.form.value.reviewId).Cleared?
    requires status.Interrupted? ==> Frozen(s).Some?
    ensures Invariant(SetStatus(s, status))
  {
    var r := s.form.value.reviewId;
    PhaseSnoc(s.trace, LeftPending(r), r);
    LawfulSnoc(s.trace, LeftPending(r));
  }

  lemma SucceedKeeps(s: State)
    requires Invariant(s) && s.form.Some?
    ensures Invariant(SetStatus(s, Succeeded))
  {
    var r := s.form.value.reviewId;
    PhaseSnoc(s.trace, LeftPending(r), r);
    LawfulSnoc(s.trace, LeftPending(r));
  }

  lemma SendKeeps(s: State, submission: Submission)
    requires Invariant(s) && Quiet(s)
    requires PhaseOf(s.trace, s.form.value.reviewId).Fresh? || PhaseOf(s.trace, s.form.value.reviewId).Cleared?
    ensures Invariant(SendCreation(s, submission))
  {
    var r := s.form.value.reviewId;
    PhaseSnoc(s.trace, Wrote(r, s.nextRequest, submission), r);
    LawfulSnoc(s.trace, Wrote(r, s.nextRequest, submission));
  }

  /** From an uncertain state with nothing asked, a lookup goes out. */
  lemma LookUpKeeps(s: State, purpose: Purpose, w: Wait)
    requires Invariant(s) && Quiet(s) && (s.form.value.status.Pending? || s.form.value.status.Interrupted?)
    requires w.IsLookup() && w.review == s.form.value.reviewId
    ensures Invariant(LookUp(SetStatus(s, Reconciling(s.form.value.status.submission, purpose)), w))
  {
    var r := s.form.value.reviewId;
    var left := SetStatus(s, Reconciling(s.form.value.status.submission, purpose));
    PhaseSnoc(s.trace, LeftPending(r), r);
    LawfulSnoc(s.trace, LeftPending(r));
    PhaseSnoc(left.trace, LookedUp(r, s.nextRequest), r);
    LawfulSnoc(left.trace, LookedUp(r, s.nextRequest));
  }

  lemma AnsweredKeeps(s: State, id: nat)
    requires Invariant(s)
    ensures Invariant(Answered(s, id))
  {
  }

  lemma FoundKeeps(s: State, r: Sighting)
    requires Invariant(s) && (Concerns(s, r) && Frozen(s).Some? && Frozen(s).value != Submission(r.title, r.targets) ==>
             Quiet(s))
    ensures Invariant(CreationFound(s, r))
  {
    if Concerns(s, r) && Frozen(s).Some? {
      if Frozen(s).value == Submission(r.title, r.targets) {
        SucceedKeeps(s);
      } else {
        SetStatusKeeps(s, Interrupted(Frozen(s).value));
      }
    }
  }

  lemma SightingKeeps(s: State, input: Input)
    requires Invariant(s) && (input.Observed? || input.Committed? || input.Found?) && !Impostor(s, input)
    ensures Invariant(Step(s, input))
  {
    match input
    case Observed(r) =>
      assert Concerns(s, r) && Frozen(s).Some? && Frozen(s).value != Submission(r.title, r.targets) ==> Quiet(s);
      FoundKeeps(s, r);
    case Committed(id, r) =>
      if id in s.waits && s.waits[id] == WaitWrite(r.id) {
        assert Concerns(s, r) && Frozen(s).Some? && Frozen(s).value != Submission(r.title, r.targets) ==> Quiet(s);
        FoundKeeps(s, r);
        AnsweredKeeps(CreationFound(s, r), id);
      }
    case Found(id, r) =>
      if id in s.waits && s.waits[id].IsLookup() && s.waits[id].review == r.id {
        var done := Answered(s, id);
        AnsweredKeeps(s, id);
        if Concerns(s, r) && Frozen(s).Some? {
          assert Quiet(done);
        }
        FoundKeeps(done, r);
        assert Answered(CreationFound(s, r), id) == CreationFound(done, r);
      }
  }

  lemma MissingNoted(s: State, id: nat, missing: bool)
    requires Invariant(s) && id in s.waits && s.waits[id].IsLookup()
    ensures var seen := Answered(s.(trace := if missing then s.trace + [Missing(s.waits[id].review, id)] else s.trace),
            id);
            && Invariant(seen)
            && (s.form.Some? && s.form.value.reviewId == s.waits[id].review && s.form.value.status != Succeeded ==>
                  && s.form.value.status.Reconciling? && Quiet(seen)
                  && (missing ==> PhaseOf(seen.trace, s.waits[id].review).Cleared?))
  {
    hide PhaseOf, Lawful;
    AnsweredKeeps(s, id);
    var r := s.waits[id].review;
    if s.form.Some? {
      PhaseSnoc(s.trace, Missing(r, id), s.form.value.reviewId);
      assert s.form.value.reviewId == r ==> LookupFor(s, id, r);
    }
    LawfulSnoc(s.trace, Missing(r, id));
  }

  lemma LookupKeeps(s: State, id: nat, missing: bool)
    requires Invariant(s)
    ensures Invariant(Step(s, LookupFailed(id, missing)))
  {
    if id in s.waits && s.waits[id].IsLookup() {
      MissingNoted(s, id, missing);
      var r := s.waits[id].review;
      var seen := Answered(s.(trace := if missing then s.trace + [Missing(r, id)] else s.trace), id);
      if seen.form.Some? && seen.form.value.reviewId == r && seen.form.value.status.Reconciling? {
        var sub := seen.form.value.status.submission;
        SetStatusKeeps(seen, Interrupted(sub));
        if missing {
          SetStatusKeeps(seen, Failed);
          SendKeeps(seen, sub);
        }
      }
    }
  }

  lemma ReconcileKeeps(s: State, review: ReviewId, purpose: Purpose)
    requires Invariant(s)
    ensures Invariant(Reconcile(s, review, purpose))
  {
    hide LookUp;
    if s.form.Some? && s.form.value.reviewId == review && s.form.value.status.Interrupted? {
      var f := if purpose.Retry? then s.form.value.(revision := s.form.value.revision + 1) else s.form.value;
      var counted := s.(form := Some(f));
      assert Fits(counted, f);
      LookUpKeeps(counted, purpose, WaitLookup(review));
    }
  }

  lemma SubmitKeeps(s: State, review: ReviewId, attached: bool)
    requires Invariant(s)
    ensures Invariant(SubmitCreation(s, review, attached))
  {
    if s.form.Some? && s.form.value.reviewId == review && s.form.value.status.Editable() {
      var counted := s.(form := Some(s.form.value.(revision := s.form.value.revision + 1)));
      assert Fits(counted, counted.form.value);
      SetStatusKeeps(counted, Failed);
      if Parsed(s.form.value.draft).Some? {
        SendKeeps(counted, Parsed(s.form.value.draft).value);
      }
    }
  }

  lemma DisconnectKeeps(s: State)
    requires Invariant(s)
    ensures Invariant(Step(s, Disconnect)) && Invariant(Step(s, RestartDeadline))
  {
    var cleared := s.(waits := map[], link := Down);
    assert Invariant(cleared);
    if s.form.Some? && (s.form.value.status.Pending? || s.form.value.status.Reconciling?) {
      SetStatusKeeps(cleared, Interrupted(s.form.value.status.submission));
    }
  }

  lemma StartKeeps(s: State, review: ReviewId, workspace: nat, draft: Draft)
    requires Invariant(s)
    ensures Invariant(Step(s, StartForm(review, workspace, draft)))
  {
    if review !in s.used {
      UnusedIsFresh(s.trace, review);
    }
  }

  lemma StepKeeps(s: State, input: Input)
    requires Invariant(s) && !Impostor(s, input)
    ensures Invariant(Step(s, input))
  {
    match input
    case StartForm(review, workspace, draft) => StartKeeps(s, review, workspace, draft);
    case Submit(review, attached) => SubmitKeeps(s, review, attached);
    case RetryForm(review) => ReconcileKeeps(s, review, Retry);
    case Subscribe => if s.form.Some? { ReconcileKeeps(s.(link := Subscribed), s.form.value.reviewId, Inspect); }
    case Disconnect => DisconnectKeeps(s);
    case RestartDeadline => DisconnectKeeps(s);
    case Refused(id) => RefusedKeeps(s, id);
    case LookupFailed(id, missing) => LookupKeeps(s, id, missing);
    case Committed(_, _) => SightingKeeps(s, input);
    case Found(_, _) => SightingKeeps(s, input);
    case Observed(_) => SightingKeeps(s, input);
    case EditForm(review, draft) => EditKeeps(s, review, draft);
    case _ => IdleKeeps(s, input);
  }

  lemma EditKeeps(s: State, review: ReviewId, draft: Draft)
    requires Invariant(s)
    ensures Invariant(Step(s, EditForm(review, draft)))
  {
  }

  lemma IdleKeeps(s: State, input: Input)
    requires Invariant(s) && (input.CancelForm? || input.SetContext? || input.Connect?)
    ensures Invariant(Step(s, input))
  {
  }

  lemma RefusedKeeps(s: State, id: nat)
    requires Invariant(s)
    ensures Invariant(Step(s, Refused(id)))
  {
    if id in s.waits && s.waits[id].WaitWrite? {
      var r, done := s.waits[id].review, Answered(s, id);
      AnsweredKeeps(s, id);
      if done.form.Some? && done.form.value.reviewId == r && done.form.value.status.Pending? {
        LookUpKeeps(done, Inspect, WaitCheck(r));
      }
    }
  }

  /** No impostor is reported while a lookup is in flight. */
  ghost predicate Unambiguous(context: nat, inputs: seq<Input>) {
    forall k | 0 <= k < |inputs| :: !Impostor(Run(context, inputs[..k]), inputs[k])
  }

  lemma {:induction false} RunKeeps(context: nat, inputs: seq<Input>)
    requires Unambiguous(context, inputs)
    ensures Invariant(Run(context, inputs))
    decreases |inputs|
  {
    if inputs != [] {
      var init := inputs[..|inputs| - 1];
      assert forall k | 0 <= k < |init| :: init[..k] == inputs[..k] && init[k] == inputs[k];
      RunKeeps(context, init);
      StepKeeps(Run(context, init), inputs[|inputs| - 1]);
    }
  }

  /** In a lawful trace every rewrite is justified. */
  lemma {:induction false} LawfulIsJustified(trace: seq<Fact>, i: nat, j: nat)
    requires Lawful(trace) && i < j < |trace| && trace[i].Wrote? && trace[j].Wrote?
             && trace[i].review == trace[j].review
    ensures exists p, q, t :: Justified(trace, i, j, trace[i].review, p, q, t)
  {
    var before, review := trace[..j], trace[i].review;
    PhaseWitnessed(before, review);
    assert before[i] == trace[i];
    assert PhaseOf(before, review).Cleared?;
    var k :| Witnessed(before, review, k) && forall h | k < h < |before| ::
        !(before[h].Wrote? && before[h].review == review);
    var p, q, t :| Justified(before, k, j, review, p, q, t);
    assert Justified(trace, i, j, review, p, q, t);
  }

  // ---- the condition is needed ----------------------------------------------

  /**
   The run that rewrites blindly. A reported impostor interrupts a reconciliation and leaves its lookup
   out; a second lookup follows; the first answers "not found", the form is submitted again; a second
   impostor and a retry later, the stale lookup's "not found" sends the submission a third time.
   */
  const BLIND_DRAFT := Draft("t", [Target(1, "a", "b")])
  const BLIND_SUB := Submission("t", [Target(1, "a", "b")])
  const IMPOSTOR := Sighting(7, 0, "other", [])

  function Write(id: nat): Fact { Wrote(7, id, BLIND_SUB) }

  function BlindRun(): seq<Input> {
    [StartForm(7, 0, BLIND_DRAFT), Connect, Subscribe, Submit(7, true), Refused(0), Observed(IMPOSTOR), RetryForm(7),
     LookupFailed(1, true), Submit(7, true), Observed(IMPOSTOR), RetryForm(7), LookupFailed(2, true)]
  }

  /** The states that run goes through once subscribed. */
  function At(status: Status, revision: nat, waits: map<nat, Wait>, next: nat, trace: seq<Fact>): State {
    State(Some(Form(7, 0, 0, BLIND_DRAFT, revision, status)), 0, Subscribed, waits, next, {7}, trace)
  }

  function FirstFacts(): seq<Fact> { [Write(0), LeftPending(7), LookedUp(7, 1)] }

  function MoreFacts(): seq<Fact> { FirstFacts() + [LookedUp(7, 2)] + [Missing(7, 1)] + [Write(3)] }

  lemma BlindOpening()
    ensures Step(Step(Step(Initial(0), StartForm(7, 0, BLIND_DRAFT)), Connect), Subscribe)
            == At(Editing, 0, map[], 0, [])
    ensures Step(At(Editing, 0, map[], 0, []), Submit(7, true))
            == At(Pending(BLIND_SUB), 1, map[0 := WaitWrite(7)], 1, [Write(0)])
  {
    assert TrimEnd(TrimStart("t")) == "t";
    assert [] + [Write(0)] == [Write(0)];
  }

  lemma BlindRefusal()
    ensures Step(At(Pending(BLIND_SUB), 1, map[0 := WaitWrite(7)], 1, [Write(0)]), Refused(0))
         == At(Reconciling(BLIND_SUB, Inspect), 1, map[1 := WaitCheck(7)], 2, FirstFacts())
    ensures Step(At(Reconciling(BLIND_SUB, Inspect), 1, map[1 := WaitCheck(7)], 2, FirstFacts()), Observed(IMPOSTOR))
         == At(Interrupted(BLIND_SUB), 1, map[1 := WaitCheck(7)], 2, FirstFacts())
  {
    assert [Write(0)] + [LeftPending(7)] + [LookedUp(7, 1)] == FirstFacts();
    assert map[0 := WaitWrite(7)] - {0} == map[];
  }

  lemma BlindRetry()
    ensures Step(At(Interrupted(BLIND_SUB), 1, map[1 := WaitCheck(7)], 2, FirstFacts()), RetryForm(7))
         == At(Reconciling(BLIND_SUB, Retry), 2, map[1 := WaitCheck(7), 2 := WaitLookup(7)], 3,
           FirstFacts() + [LookedUp(7, 2)])
  {
  }

  lemma BlindMissing(trace: seq<Fact>)
    ensures Step(At(Reconciling(BLIND_SUB, Retry), 2, map[1 := WaitCheck(7), 2 := WaitLookup(7)], 3, trace),
            LookupFailed(1, true))
         == At(Failed, 2, map[2 := WaitLookup(7)], 3, trace + [Missing(7, 1)])
  {
    assert map[1 := WaitCheck(7), 2 := WaitLookup(7)] - {1} == map[2 := WaitLookup(7)];
  }

  lemma BlindAgain(trace: seq<Fact>)
    ensures Step(At(Failed, 2, map[2 := WaitLookup(7)], 3, trace), Submit(7, true))
         == At(Pending(BLIND_SUB), 3, map[2 := WaitLookup(7), 3 := WaitWrite(7)], 4, trace + [Write(3)])
  {
    assert TrimEnd(TrimStart("t")) == "t";
  }

  lemma BlindSecondImpostor(trace: seq<Fact>)
    ensures Step(At(Pending(BLIND_SUB), 3, map[2 := WaitLookup(7), 3 := WaitWrite(7)], 4, trace), Observed(IMPOSTOR))
         == At(Interrupted(BLIND_SUB), 3, map[2 := WaitLookup(7), 3 := WaitWrite(7)], 4, trace + [LeftPending(7)])
    ensures Step(At(Interrupted(BLIND_SUB), 3, map[2 := WaitLookup(7), 3 := WaitWrite(7)], 4, trace), RetryForm(7))
         == At(Reconciling(BLIND_SUB, Retry), 4, map[2 := WaitLookup(7), 3 := WaitWrite(7), 4 := WaitLookup(7)], 5,
           trace + [LookedUp(7, 4)])
  {
  }

  lemma BlindThird(trace: seq<Fact>)
    ensures Step(At(Reconciling(BLIND_SUB, Retry), 4, map[2 := WaitLookup(7), 3 := WaitWrite(7), 4 := WaitLookup(7)], 5,
            trace), LookupFailed(2, true)).trace
         == trace + [Missing(7, 2)] + [Write(5)]
  {
  }

  lemma RunNext(inputs: seq<Input>, k: nat)
    requires k < |inputs|
    ensures Run(0, inputs[..k + 1]) == Step(Run(0, inputs[..k]), inputs[k])
  {
    assert inputs[..k + 1][..k] == inputs[..k];
  }

  lemma BlindTrace()
    ensures Run(0, BlindRun()).trace == MoreFacts() + [LeftPending(7)] + [LookedUp(7, 4)] + [Missing(7, 2)] + [Write(5)]
  {
    hide Step;
    var b := BlindRun();
    assert b[..0] == [] && b[..12] == b;
    forall k | 0 <= k < 12
      ensures Run(0, b[..k + 1]) == Step(Run(0, b[..k]), b[k])
    {
      RunNext(b, k);
    }
    BlindOpening();
    assert Run(0, b[..4]) == At(Pending(BLIND_SUB), 1, map[0 := WaitWrite(7)], 1, [Write(0)]) by {
      assert Run(0, b[..1]) == Step(Initial(0), b[0]);
      assert Run(0, b[..2]) == Step(Run(0, b[..1]), b[1]);
      assert Run(0, b[..3]) == Step(Run(0, b[..2]), b[2]);
    }
    BlindRefusal();
    assert Run(0, b[..5]) == Step(Run(0, b[..4]), b[4]) && Run(0, b[..6]) == Step(Run(0, b[..5]), b[5]);
    BlindRetry();
    assert Run(0, b[..7]) == Step(Run(0, b[..6]), b[6]);
    BlindMissing(FirstFacts() + [LookedUp(7, 2)]);
    assert Run(0, b[..8]) == Step(Run(0, b[..7]), b[7]);
    BlindAgain(FirstFacts() + [LookedUp(7, 2)] + [Missing(7, 1)]);
    assert Run(0, b[..9]) == Step(Run(0, b[..8]), b[8]);
    BlindSecondImpostor(MoreFacts());
    BlindSecondImpostor(MoreFacts() + [LeftPending(7)]);
    assert Run(0, b[..10]) == Step(Run(0, b[..9]), b[9]) && Run(0, b[..11]) == Step(Run(0, b[..10]), b[10]);
    BlindThird(MoreFacts() + [LeftPending(7)] + [LookedUp(7, 4)]);
    assert Run(0, b[..12]) == Step(Run(0, b[..11]), b[11]);
  }

  /** Its last write is not justified by any lookup sent after the one before. */
  lemma {:induction false} BlindRewriteExists()
    ensures var trace := Run(0, BlindRun()).trace;
            |trace| == 10 && trace[5] == Write(3) && trace[9] == Write(5) && !exists p, q, t ::
              Justified(trace, 5, 9, 7, p, q, t)
  {
    BlindTrace();
    var trace := Run(0, BlindRun()).trace;
    assert trace[6] == LeftPending(7) && trace[7] == LookedUp(7, 4) && trace[8] == Missing(7, 2);
  }
}
