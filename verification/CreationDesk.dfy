/**
 The review-creation steps of the client, in place: each is its function in `Creation` and keeps what forbids
 a blind rewrite.
 */
module CreationDesk {
  import opened Protocol
  import C = Creation
  import G = CreationGuard
  import L = CreationLaws

  class Desk {
    var form: Option<C.Form>
    var context: nat
    var link: C.Link
    var waits: map<nat, C.Wait>
    var nextRequest: nat
    ghost var used: set<ReviewId>
    ghost var trace: seq<C.Fact>

    ghost function Value(): C.State reads this { C.State(form, context, link, waits, nextRequest, used, trace) }

    /** Writes so far were justified, and the form's status fits what was seen since the last one. */
    ghost predicate Valid() reads this { G.Guarded(Value()) }

    constructor (context: nat)
      ensures Valid() && Value() == C.Initial(context)
    {
      form, this.context, link, waits, nextRequest, used, trace := None, context, C.Down, map[], 0, {}, [];
      new;
      G.NothingYet(context);
    }

    method SetStatus(status: C.Status)
      requires form.Some?
      modifies `form, `trace
      ensures Value() == C.SetStatus(old(Value()), status)
    {
      if form.value.status.Pending? && !status.Pending? { trace := trace + [C.LeftPending(form.value.reviewId)]; }
      form := Some(form.value.(status := status));
    }

    method LookUp(w: C.Wait)
      modifies `waits, `nextRequest, `trace
      ensures Value() == C.LookUp(old(Value()), w)
    {
      trace := trace + [C.LookedUp(w.review, nextRequest)];
      waits := waits[nextRequest := w];
      nextRequest := nextRequest + 1;
    }

    method SendCreation(submission: C.Submission)
      requires form.Some?
      modifies `form, `waits, `nextRequest, `trace
      ensures Value() == C.SendCreation(old(Value()), submission)
    {
      if form.value.context != context { return; }
      var review := form.value.reviewId;
      form := Some(form.value.(status := C.Pending(submission)));
      trace := trace + [C.Wrote(review, nextRequest, submission)];
      waits := waits[nextRequest := C.WaitWrite(review)];
      nextRequest := nextRequest + 1;
    }

    method Submit(review: ReviewId, attached: bool)
      requires Valid()
      modifies this
      ensures Valid() && Value() == C.SubmitCreation(old(Value()), review, attached)
      ensures old(L.EditableForm(Value(), review)) ==>
                && form.Some? && form.value.draft == old(form.value.draft)
                && (form.value.status.Pending? <==>
                      old(form.value.context == context && link.Subscribed? && attached
                        && L.Sendable(form.value.draft)))
                && (form.value.status.Pending? ==> L.Says(form.value.draft, form.value.status.submission))
    {
      hide G.Guarded, C.Parsed, L.Says, L.Sendable;
      if L.EditableForm(Value(), review) { L.SubmitWrites(Value(), review, attached); }
      G.SubmitKept(Value(), review, attached);
      if form.None? || form.value.reviewId != review || !form.value.status.Editable() { return; }
      form := Some(form.value.(revision := form.value.revision + 1));
      var parsed := C.Parsed(form.value.draft);
      if form.value.context == context && link.Subscribed? && attached && parsed.Some? {
        SendCreation(parsed.value);
      } else {
        SetStatus(C.Failed);
      }
    }

    method WriteFailed(review: ReviewId)
      modifies this
      ensures Value() == C.WriteFailed(old(Value()), review)
    {
      if form.None? || form.value.reviewId != review || form.value.context != context
         || !form.value.status.Pending?
      {
        return;
      }
      SetStatus(C.Reconciling(form.value.status.submission, C.Inspect));
      LookUp(C.WaitCheck(review));
    }

    method LookupFailed(review: ReviewId, missing: bool)
      modifies this
      ensures Value() == C.LookupAnswered(old(Value()), review, missing)
    {
      if form.None? || form.value.reviewId != review || !form.value.status.Reconciling? { return; }
      var submission, purpose := form.value.status.submission, form.value.status.purpose;
      if !missing || purpose.Inspect? {
        SetStatus(C.Interrupted(submission));
      } else if C.DistinctRepos(submission.targets) {
        SendCreation(submission);
      } else {
        SetStatus(C.Failed);
      }
    }

    method FailureChecked(review: ReviewId, missing: bool)
      modifies this
      ensures Value() == C.FailureChecked(old(Value()), review, missing)
    {
      if !missing {
        LookupFailed(review, missing);
      } else if form.Some? && form.value.reviewId == review && form.value.status.Reconciling? {
        SetStatus(C.Failed);
      }
    }

    /** The rejection of a write: the form's write becomes a lookup. */
    method Refused(id: nat)
      requires Valid()
      modifies this
      ensures Valid() && Value() == C.Step(old(Value()), C.Refused(id))
    {
      hide G.Guarded;
      G.RefusedKept(Value(), id);
      if id !in waits || !waits[id].WaitWrite? { return; }
      var review := waits[id].review;
      waits := waits - {id};
      WriteFailed(review);
    }

    /** A lookup that found no review. Only a stale "not found" may lose the invariant. */
    method Unanswered(id: nat, missing: bool)
      requires Valid()
      modifies this
      ensures Value() == C.Step(old(Value()), C.LookupFailed(id, missing))
      ensures old(!G.Stale(Value(), C.LookupFailed(id, missing))) ==> Valid()
    {
      hide G.Guarded, G.Stale;
      if !G.Stale(Value(), C.LookupFailed(id, missing)) { G.LookupKept(Value(), id, missing); }
      if id !in waits || !waits[id].IsLookup() { return; }
      var w := waits[id];
      if missing { trace := trace + [C.Missing(w.review, id)]; }
      waits := waits - {id};
      if w.WaitCheck? {
        FailureChecked(w.review, missing);
      } else {
        LookupFailed(w.review, missing);
      }
    }

    method Found(r: C.Sighting)
      requires Valid()
      modifies this
      ensures Valid() && Value() == C.CreationFound(old(Value()), r)
    {
      hide G.Guarded;
      G.FoundKept(Value(), r);
      if form.None? || form.value.reviewId != r.id || form.value.workspace != r.workspace
         || form.value.context != context
      {
        return;
      }
      var frozen := form.value.status.Frozen();
      if frozen.None? { return; }
      if frozen.value == C.Submission(r.title, r.targets) {
        SetStatus(C.Succeeded);
      } else {
        SetStatus(C.Interrupted(frozen.value));
      }
    }

    method Disconnected()
      requires Valid()
      modifies this
      ensures Valid() && Value() == C.CreationDisconnected(old(Value()))
    {
      hide G.Guarded;
      G.InterruptKept(Value());
      if form.Some? && (form.value.status.Pending? || form.value.status.Reconciling?) {
        SetStatus(C.Interrupted(form.value.status.submission));
      }
    }

    method Reconcile(review: ReviewId, purpose: C.Purpose)
      requires Valid()
      modifies this
      ensures Valid() && Value() == C.Reconcile(old(Value()), review, purpose)
    {
      hide G.Guarded;
      G.ReconcileKept(Value(), review, purpose);
      if form.None? || form.value.reviewId != review || form.value.context != context
         || !form.value.status.Interrupted?
      {
        return;
      }
      if purpose.Retry? { form := Some(form.value.(revision := form.value.revision + 1)); }
      if !link.Subscribed? { return; }
      SetStatus(C.Reconciling(form.value.status.submission, purpose));
      LookUp(C.WaitLookup(review));
    }
  }
}
