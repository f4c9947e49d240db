/** A review snapshot changed in place, event by event: each method is its function in `Events`. */
module SnapshotStore {
  import opened Protocol
  import E = Events

  class Store {
    var review: Review
    var resolved: Option<seq<ResolvedTarget>>
    var threads: seq<Thread>
    var comments: seq<Comment>
    var suggestions: seq<SuggestionRecord>
    var viewed: seq<ViewedMark>
    var requests: seq<ReviewRequest>
    var checkpoints: seq<Checkpoint>
    var cursor: Seq

    ghost function Value(): Snapshot reads this {
      Snapshot(review, resolved, threads, comments, suggestions, viewed, requests, checkpoints, cursor)
    }

    constructor (s: Snapshot)
      ensures Value() == s
    {
      review, resolved, threads, comments, suggestions := s.review, s.resolved, s.threads, s.comments, s.suggestions;
      viewed, requests, checkpoints, cursor := s.viewed, s.requests, s.checkpoints, s.cursor;
    }

    // ---- lookups ------------------------------------------------------------

    method FindComment(id: CommentId) returns (i: nat)
      ensures i == E.CommentAt(comments, id)
    {
      i := 0;
      while i < |comments| && comments[i].id != id
        invariant i <= |comments| && forall j | 0 <= j < i :: comments[j].id != id
      {
        i := i + 1;
      }
    }

    method FindThread(id: ThreadId) returns (i: nat)
      ensures i == E.ThreadAt(threads, id)
    {
      i := 0;
      while i < |threads| && threads[i].id != id
        invariant i <= |threads| && forall j | 0 <= j < i :: threads[j].id != id
      {
        i := i + 1;
      }
    }

    method FindRecord(id: CommentId) returns (i: nat)
      ensures i == E.RecordAt(suggestions, id)
    {
      i := 0;
      while i < |suggestions| && suggestions[i].commentId != id
        invariant i <= |suggestions| && forall j | 0 <= j < i :: suggestions[j].commentId != id
      {
        i := i + 1;
      }
    }

    method FindTarget(repo: RepoId) returns (i: nat)
      ensures i == E.TargetAt(review.targets, repo)
    {
      i := 0;
      while i < |review.targets| && review.targets[i].repo != repo
        invariant i <= |review.targets| && forall j | 0 <= j < i :: review.targets[j].repo != repo
      {
        i := i + 1;
      }
    }

    // ---- writes -------------------------------------------------------------

    method Write(id: CommentId, w: E.CommentWrite)
      modifies `comments
      ensures comments == E.WriteComment(old(comments), id, w)
    {
      var i := FindComment(id);
      if i < |comments| { comments := comments[i := E.Written(comments[i], w)]; }
    }

    method Resolve(id: ThreadId, resolution: Resolution)
      modifies `threads
      ensures threads == E.WriteResolution(old(threads), id, resolution)
    {
      var i := FindThread(id);
      if i < |threads| { threads := threads[i := threads[i].(resolution := resolution)]; }
    }

    method Retarget(target: Target)
      modifies `review
      ensures review == old(review).(targets := E.WriteTarget(old(review).targets, target))
    {
      var i := FindTarget(target.repo);
      if i < |review.targets| { review := review.(targets := review.targets[i := target]); }
    }

    method RetainOtherMarks(key: ViewKey)
      modifies `viewed
      ensures viewed == E.WithoutMark(old(viewed), key)
    {
      var kept: seq<ViewedMark> := [];
      for i := 0 to |viewed|
        invariant kept == E.WithoutMark(viewed[..i], key)
      {
        assert viewed[..i + 1][..i] == viewed[..i];
        if viewed[i].key != key { kept := kept + [viewed[i]]; }
      }
      assert viewed[..|viewed|] == viewed;
      viewed := kept;
    }

    method Create(c: Comment)
      modifies this
      ensures Value() == E.Created(old(Value()), c)
    {
      var at := FindComment(c.id);
      if at < |comments| { return; }
      comments := comments + [c];
      suggestions := suggestions + E.RecordOf(c);
      var i := FindThread(c.threadId);
      if i < |threads| {
        if c.id !in threads[i].replies && threads[i].root != c.id {
          threads := threads[i := threads[i].(replies := threads[i].replies + [c.id])];
        }
      } else {
        threads := threads + [Thread(c.threadId, c.reviewId, c.id, [], E.ResolutionForRoot(c.kind))];
      }
    }

    // ---- events -------------------------------------------------------------

    method ApplyToThreads(meta: Meta, body: Body)
      requires body.Subject() == Some(review.id)
      requires body.ThreadDeferred? || body.ThreadResolved? || body.ThreadUnresolved? || body.FileViewed?
               || body.FileUnviewed?
      modifies `threads, `viewed
      ensures Value() == E.ApplyBody(old(Value()), meta, body)
    {
      match body
      case ThreadDeferred(_, id, reason, url) => Resolve(id, DeferredThread(reason, url, meta.author, meta.ts));
      case ThreadResolved(_, id) => Resolve(id, ResolvedThread(meta.author, meta.ts));
      case ThreadUnresolved(_, id) => Resolve(id, OpenThread);
      case FileViewed(reviewId, key, content) =>
        RetainOtherMarks(key);
        viewed := viewed + [ViewedMark(reviewId, key, content)];
      case FileUnviewed(_, key) => RetainOtherMarks(key);
    }

    method ApplyBody(meta: Meta, body: Body)
      modifies this
      ensures Value() == E.ApplyBody(old(Value()), meta, body)
    {
      if body.Subject() != Some(review.id) { return; }
      match body
      case ReviewUpdated(_, title, status) => review := review.(title := title, status := status);
      case TargetsResolved(_, targets) => resolved := Some(targets);
      case TargetUpdated(_, target) => Retarget(target);
      case CommentCreated(comment) => Create(comment);
      case CommentEdited(_, id, text) => Write(id, E.WriteBody(text, meta.ts));
      case CommentDeleted(_, id) => Write(id, E.WriteState(Deleted));
      case CommentReanchored(_, id, anchor, state) =>
        Write(id, E.WriteAnchor(anchor));
        Write(id, E.WriteState(state));
      case WorkspaceChanged =>
      case ReviewCreated(_) =>
      case ReviewDeleted(_) =>
      case ReviewRequested(_, _, _) =>
      case ReviewChecked(_, _, _) =>
      case SuggestionApplied(_, _, _, _, _) =>
      case _ => ApplyToThreads(meta, body);
    }

    method Receive(id: CommentId, receipt: Receipt)
      modifies `suggestions
      ensures Value() == E.Receive(old(Value()), id, receipt)
    {
      var i := FindRecord(id);
      if i < |suggestions| && (suggestions[i].outcome.Unapplied?
          || suggestions[i].outcome.receipt.seqNo < receipt.seqNo) {
        suggestions := suggestions[i := suggestions[i].(outcome := Applied(receipt))];
      }
    }

    method AddRequest(r: ReviewRequest)
      modifies `requests
      ensures Value() == E.AddRequest(old(Value()), r)
    {
      if !exists i :: 0 <= i < |requests| && requests[i].id == r.id {
        requests := E.Sorted(requests + [r], (q: ReviewRequest) => q.id);
      }
    }

    method AddCheckpoint(c: Checkpoint)
      modifies `checkpoints
      ensures Value() == E.AddCheckpoint(old(Value()), c)
    {
      if !exists i :: 0 <= i < |checkpoints| && checkpoints[i].id == c.id {
        checkpoints := E.Sorted(checkpoints + [c], (q: Checkpoint) => q.id);
      }
    }

    method ApplyEnvelope(e: Event)
      modifies `suggestions, `requests, `checkpoints
      ensures Value() == E.ApplyEnvelope(old(Value()), e)
    {
      if e.body.Subject() != Some(review.id) { return; }
      match e.body
      case SuggestionApplied(_, id, _, _, _) => Receive(id, E.ReceiptOf(e));
      case ReviewRequested(reviewId, agent, note) =>
          AddRequest(ReviewRequest(e.seqNo, reviewId, e.author, agent, note, e.ts));
      case ReviewChecked(reviewId, reviewer, targets) =>
          AddCheckpoint(Checkpoint(e.seqNo, reviewId, reviewer, e.author, e.ts, targets));
      case _ =>
    }

    method ApplyEvent(e: Event)
      modifies this
      ensures Value() == E.ApplyEvent(old(Value()), e)
    {
      ApplyEnvelope(e);
      ApplyBody(Meta(e.author, e.ts), e.body);
    }
  }
}
