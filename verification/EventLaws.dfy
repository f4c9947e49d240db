/**
 What each mutation and each event means for a snapshot, field by field: what it changes, at which place,
 and that nothing else moves.
 */
module EventLaws {
  import opened Protocol
  import opened Events

  /** `i` is the position of the comment `id`. */
  predicate CommentIs(s: Snapshot, id: CommentId, i: nat) {
    i < |s.comments| && s.comments[i].id == id && forall j | 0 <= j < i :: s.comments[j].id != id
  }

  predicate ThreadIs(s: Snapshot, id: ThreadId, i: nat) {
    i < |s.threads| && s.threads[i].id == id && forall j | 0 <= j < i :: s.threads[j].id != id
  }

  predicate TargetIs(s: Snapshot, repo: RepoId, i: nat) {
    i < |s.review.targets| && s.review.targets[i].repo == repo && forall j | 0 <= j < i ::
      s.review.targets[j].repo != repo
  }

  predicate RecordIs(s: Snapshot, id: CommentId, i: nat) {
    i < |s.suggestions| && s.suggestions[i].commentId == id && forall j | 0 <= j < i :: s.suggestions[j].commentId != id
  }

  predicate NoComment(s: Snapshot, id: CommentId) { forall c | c in s.comments :: c.id != id }

  predicate NoThread(s: Snapshot, id: ThreadId) { forall t | t in s.threads :: t.id != id }

  predicate NoTarget(s: Snapshot, repo: RepoId) { forall t | t in s.review.targets :: t.repo != repo }

  predicate NoRecord(s: Snapshot, id: CommentId) { forall r | r in s.suggestions :: r.commentId != id }

  // ---- writes to a comment --------------------------------------------------

  /** An edit replaces the text and notes when; a deletion and a re-anchoring replace state and anchor. */
  lemma {:induction false} CommentWrites(s: Snapshot, e: Event, i: nat)
    ensures e.body.CommentEdited? && e.body.reviewId == s.review.id && CommentIs(s, e.body.commentId, i) ==>
              ApplyEvent(s, e) == s.(comments :=
                s.comments[i := s.comments[i].(body := e.body.text, edited := Some(e.ts))])
    ensures e.body.CommentDeleted? && e.body.reviewId == s.review.id && CommentIs(s, e.body.commentId, i) ==>
              ApplyEvent(s, e) == s.(comments := s.comments[i := s.comments[i].(state := Deleted)])
    ensures e.body.CommentReanchored? && e.body.reviewId == s.review.id && CommentIs(s, e.body.commentId, i) ==>
              ApplyEvent(s, e)
              == s.(comments := s.comments[i := s.comments[i].(anchor := e.body.anchor, state := e.body.state)])
    ensures (e.body.CommentEdited? || e.body.CommentDeleted? || e.body.CommentReanchored?)
            && NoComment(s, e.body.commentId) ==>
              ApplyEvent(s, e) == s
  {
    hide CommentAt;
    if e.body.CommentEdited? || e.body.CommentDeleted? || e.body.CommentReanchored? {
      var k := CommentAt(s.comments, e.body.commentId);
      if e.body.CommentReanchored? && k < |s.comments| {
        var once := WriteComment(s.comments, e.body.commentId, WriteAnchor(e.body.anchor));
        SamePlace(s.comments, once, e.body.commentId);
        assert once[k := once[k].(state := e.body.state)]
            == s.comments[k := s.comments[k].(anchor := e.body.anchor, state := e.body.state)];
      }
    }
  }

  lemma SamePlace(a: seq<Comment>, b: seq<Comment>, id: CommentId)
    requires |a| == |b| && forall i | 0 <= i < |a| :: a[i].id == b[i].id
    ensures CommentAt(a, id) == CommentAt(b, id)
  {
    var i, j := CommentAt(a, id), CommentAt(b, id);
  }

  // ---- dispositions ---------------------------------------------------------

  /** A disposition carries its reason, link, actor and time, and moves no other thread. */
  lemma {:induction false} DispositionWrites(s: Snapshot, e: Event, i: nat)
    requires e.body.ThreadDeferred? || e.body.ThreadResolved? || e.body.ThreadUnresolved?
    ensures e.body.reviewId == s.review.id && ThreadIs(s, e.body.threadId, i) ==>
              ApplyEvent(s, e) == s.(threads := s.threads[i := s.threads[i].(
                resolution := match e.body
                              case ThreadDeferred(_, _, reason, url) => DeferredThread(reason, url, e.author, e.ts)
                              case ThreadResolved(_, _) => ResolvedThread(e.author, e.ts)
                              case _ => OpenThread)])
    ensures NoThread(s, e.body.threadId) ==> ApplyEvent(s, e) == s
  {
    hide ThreadAt;
    var k := ThreadAt(s.threads, e.body.threadId);
  }

  // ---- the review itself ----------------------------------------------------

  /** Title, status, resolved targets and the refs of one repository are replaced as the event says. */
  lemma {:induction false} ReviewWrites(s: Snapshot, e: Event, i: nat)
    ensures e.body.ReviewUpdated? && e.body.reviewId == s.review.id ==>
              ApplyEvent(s, e) == s.(review := s.review.(title := e.body.title, status := e.body.status))
    ensures e.body.TargetsResolved? && e.body.reviewId == s.review.id ==>
              ApplyEvent(s, e) == s.(resolved := Some(e.body.targets))
    ensures e.body.TargetUpdated? && e.body.reviewId == s.review.id && TargetIs(s, e.body.target.repo, i) ==>
              ApplyEvent(s, e) == s.(review := s.review.(targets := s.review.targets[i := e.body.target]))
    ensures e.body.TargetUpdated? && NoTarget(s, e.body.target.repo) ==> ApplyEvent(s, e) == s
  {
    hide TargetAt;
    if e.body.TargetUpdated? {
      var k := TargetAt(s.review.targets, e.body.target.repo);
    }
  }

  // ---- creation -------------------------------------------------------------

  /** The thread list after comment `c`: it opens its thread, or joins the end of the one it names. */
  ghost predicate JoinedBy(before: seq<Thread>, after: seq<Thread>, c: Comment) {
    if forall t | t in before :: t.id != c.threadId then
      after == before + [Thread(c.threadId, c.reviewId, c.id, [], if c.kind == Informational then InformationalThread
        else OpenThread)]
    else
      exists i: nat :: JoinedAt(before, after, c, i)
  }

  predicate JoinedAt(before: seq<Thread>, after: seq<Thread>, c: Comment, i: nat) {
    && i < |before| && before[i].id == c.threadId && (forall j | 0 <= j < i :: before[j].id != c.threadId)
    && (c.id in before[i].replies || c.id == before[i].root ==> after == before)
    && (c.id !in before[i].replies && c.id != before[i].root ==>
          after == before[i := before[i].(replies := before[i].replies + [c.id])])
  }

  /** What a new suggestion leaves: its patch, unapplied, at the last good anchor if it starts out of date. */
  predicate RecordFor(c: Comment, rs: seq<SuggestionRecord>) {
    if c.kind.Suggestion? then
      rs == [SuggestionRecord(c.reviewId, c.id, if c.state.Outdated? then c.state.lastGoodAnchor
        else c.anchor, c.kind.patch, Unapplied)]
    else rs == []
  }

  /** A new comment is appended as it is, with its record and its place in a thread; a known one changes nothing. */
  lemma {:induction false} CreationAppends(s: Snapshot, e: Event)
    requires e.body.CommentCreated? && e.body.comment.reviewId == s.review.id
    ensures !NoComment(s, e.body.comment.id) ==> ApplyEvent(s, e) == s
    ensures NoComment(s, e.body.comment.id) ==>
              var c, t := e.body.comment, ApplyEvent(s, e);
              && t == s.(comments := t.comments, suggestions := t.suggestions, threads := t.threads)
              && t.comments == s.comments + [c]
              && |s.suggestions| <= |t.suggestions| && t.suggestions[..|s.suggestions|] == s.suggestions
              && RecordFor(c, t.suggestions[|s.suggestions|..])
              && JoinedBy(s.threads, t.threads, c)
  {
    hide CommentAt, ThreadAt;
    var c, t := e.body.comment, ApplyEvent(s, e);
    var k := CommentAt(s.comments, c.id);
    if NoComment(s, c.id) {
      assert t.suggestions == s.suggestions + RecordOf(c);
      var i := ThreadAt(s.threads, c.threadId);
      if i < |s.threads| {
        assert s.threads[i] in s.threads && JoinedAt(s.threads, t.threads, c, i);
      }
    }
  }

  // ---- envelope records -----------------------------------------------------

  /**
   Requests and checkpoints are kept once per number, in order of their numbers, with author and time of the
   event.
   */
  lemma {:induction false} EnvelopeRecords(s: Snapshot, e: Event)
    ensures e.body.ReviewRequested? && e.body.reviewId == s.review.id ==>
              var t := ApplyEvent(s, e);
              && t == s.(requests := t.requests)
              && ((exists r :: r in s.requests && r.id == e.seqNo) ==> t == s)
              && ((forall r | r in s.requests :: r.id != e.seqNo) ==>
                    multiset(t.requests) == multiset(s.requests) + multiset{
                      ReviewRequest(e.seqNo, s.review.id, e.author, e.body.agent, e.body.note, e.ts)}
                    && forall i, j | 0 <= i < j < |t.requests| :: t.requests[i].id <= t.requests[j].id)
    ensures e.body.ReviewChecked? && e.body.reviewId == s.review.id ==>
              var t := ApplyEvent(s, e);
              && t == s.(checkpoints := t.checkpoints)
              && ((exists c :: c in s.checkpoints && c.id == e.seqNo) ==> t == s)
              && ((forall c | c in s.checkpoints :: c.id != e.seqNo) ==>
                    multiset(t.checkpoints) == multiset(s.checkpoints) + multiset{
                      Checkpoint(e.seqNo, s.review.id, e.body.reviewer, e.author, e.ts, e.body.targets)}
                    && forall i, j | 0 <= i < j < |t.checkpoints| :: t.checkpoints[i].id <= t.checkpoints[j].id)
  {
    hide Sorted;
    if e.body.ReviewRequested? && forall r | r in s.requests :: r.id != e.seqNo {
      assert !HasRequest(s, e.seqNo);
    }
    if e.body.ReviewChecked? && forall c | c in s.checkpoints :: c.id != e.seqNo {
      assert !HasCheckpoint(s, e.seqNo);
    }
  }

  /** A landing leaves its receipt on the suggestion's record, unless that already holds one as new. */
  lemma {:induction false} LandingRecords(s: Snapshot, e: Event, i: nat)
    requires e.body.SuggestionApplied?
    ensures e.body.reviewId == s.review.id && RecordIs(s, e.body.commentId, i) ==>
              ApplyEvent(s, e) ==
              if s.suggestions[i].outcome.Applied? && e.seqNo <= s.suggestions[i].outcome.receipt.seqNo then s
              else s.(suggestions := s.suggestions[i := s.suggestions[i].(
                outcome := Applied(Receipt(e.seqNo, e.ts, e.author, e.body.repo, e.body.path, e.body.blob)))])
    ensures NoRecord(s, e.body.commentId) ==> ApplyEvent(s, e) == s
  {
    hide RecordAt;
    var k := RecordAt(s.suggestions, e.body.commentId);
  }

  // ---- viewed marks ---------------------------------------------------------

  /** Marking a file moves its mark to the end with the new content; unmarking takes it away. */
  lemma {:induction false} ViewedMarks(s: Snapshot, e: Event, a: seq<ViewedMark>, b: seq<ViewedMark>, was: ViewedMark)
    requires (e.body.FileViewed? || e.body.FileUnviewed?) && e.body.reviewId == s.review.id
    requires forall m | m in a + b :: m.key != e.body.key
    ensures var last := if e.body.FileViewed? then [ViewedMark(s.review.id, e.body.key, e.body.content)] else [];
            && (s.viewed == a + b ==> ApplyEvent(s, e) == s.(viewed := a + b + last))
            && (s.viewed == a + [was] + b && was.key == e.body.key ==> ApplyEvent(s, e) == s.(viewed := a + b + last))
  {
    hide WithoutMark;
    UnmarkedAround(a, b, was, e.body.key);
  }

  lemma UnmarkedAround(a: seq<ViewedMark>, b: seq<ViewedMark>, was: ViewedMark, key: ViewKey)
    requires forall m | m in a + b :: m.key != key
    ensures WithoutMark(a + b, key) == a + b
    ensures was.key == key ==> WithoutMark(a + [was] + b, key) == a + b
  {
    Unmarked(a + b, key);
    if was.key == key {
      assert forall m | m in a :: m in a + b;
      assert forall m | m in b :: m in a + b;
      Unmarked(a, key);
      Unmarked(b, key);
      assert [was][..0] == [] && WithoutMark([was], key) == [];
      UnmarkedConcat(a, [was], key);
      UnmarkedConcat(a + [was], b, key);
      assert a + [] == a;
    }
  }

  lemma {:induction false} Unmarked(vs: seq<ViewedMark>, key: ViewKey)
    requires forall m | m in vs :: m.key != key
    ensures WithoutMark(vs, key) == vs
  {
    if vs != [] {
      Unmarked(vs[..|vs| - 1], key);
      assert vs == vs[..|vs| - 1] + [vs[|vs| - 1]];
    }
  }

  lemma {:induction false} UnmarkedConcat(a: seq<ViewedMark>, b: seq<ViewedMark>, key: ViewKey)
    ensures WithoutMark(a + b, key) == WithoutMark(a, key) + WithoutMark(b, key)
    decreases |b|
  {
    if b == [] {
      assert a + b == a;
    } else {
      var init := b[..|b| - 1];
      assert (a + b)[..|a + b| - 1] == a + init && (a + b)[|a + b| - 1] == b[|b| - 1];
      UnmarkedConcat(a, init, key);
    }
  }

  // ---- what is not the review's ---------------------------------------------

  /** Events of other reviews, and those of the review list, change nothing. */
  lemma {:induction false} OthersPass(s: Snapshot, e: Event)
    requires match e.body
             case WorkspaceChanged => true
             case ReviewCreated(_) => true
             case ReviewDeleted(_) => true
             case CommentCreated(c) => c.reviewId != s.review.id
             case body => body.reviewId != s.review.id
    ensures ApplyEvent(s, e) == s
  {
  }

  // ---- what a mutation becomes ----------------------------------------------

  /** The outcome of applying an accepted mutation at once, as the overlay does. */
  function Tried(s: Snapshot, meta: Meta, m: Mutation): Result<Snapshot, MutationError> {
    match LocalEvent(s, meta, m)
    case Failure(e) => Failure(e)
    case Success(body) => Success(ApplyBody(s, meta, body))
  }

  /** Only the author edits or deletes; the text and the time, or the deletion, land on that comment alone. */
  lemma {:induction false} AuthorWrites(s: Snapshot, meta: Meta, m: Mutation, i: nat)
    requires (m.EditComment? || m.DeleteComment?) && m.reviewId == s.review.id
    ensures NoComment(s, m.commentId) ==> Tried(s, meta, m) == Failure(UnknownComment(m.commentId))
    ensures CommentIs(s, m.commentId, i) && s.comments[i].author != meta.author ==>
              Tried(s, meta, m) == Failure(NotAuthor(m.commentId))
    ensures CommentIs(s, m.commentId, i) && s.comments[i].author == meta.author ==>
              Tried(s, meta, m) == Success(s.(comments := s.comments[i :=
                if m.EditComment? then s.comments[i].(body := m.text, edited := Some(meta.ts))
                else s.comments[i].(state := Deleted)]))
  {
    hide CommentAt;
    var k := CommentAt(s.comments, m.commentId);
  }

  /** A disposition is accepted exactly from the states that allow it. */
  lemma {:induction false} DispositionTried(s: Snapshot, meta: Meta, m: Mutation, i: nat)
    requires (m.DeferThread? || m.ResolveThread? || m.UnresolveThread?) && m.reviewId == s.review.id
    ensures NoThread(s, m.threadId) ==> Tried(s, meta, m) == Failure(UnknownThread(m.threadId))
    ensures ThreadIs(s, m.threadId, i) ==>
              var now := s.threads[i].resolution;
              Tried(s, meta, m) ==
              if now.InformationalThread? then Failure(InformationalThreadError(m.threadId))
              else if m.DeferThread? && !now.OpenThread? then Failure(NotOpen(m.threadId))
              else if m.ResolveThread? && now.ResolvedThread? then Failure(AlreadyResolved(m.threadId))
              else if m.UnresolveThread? && now.OpenThread? then Failure(NotResolved(m.threadId))
              else Success(s.(threads := s.threads[i := s.threads[i].(
                resolution := match m
                              case DeferThread(_, _, reason, url) => DeferredThread(reason, url, meta.author, meta.ts)
                              case ResolveThread(_, _) => ResolvedThread(meta.author, meta.ts)
                              case _ => OpenThread)]))
  {
    hide ThreadAt;
    var k := ThreadAt(s.threads, m.threadId);
  }

  /** A first comment stands live in a thread of its own id; a reply takes anchor, state and context of the root. */
  lemma {:induction false} CommentTried(s: Snapshot, meta: Meta, m: Mutation, i: nat, k: nat)
    requires m.AddComment? || m.Reply?
    ensures !NoComment(s, m.commentId) ==> LocalEvent(s, meta, m) == Failure(DuplicateComment(m.commentId))
    ensures m.AddComment? && NoComment(s, m.commentId) ==>
              LocalEvent(s, meta, m) ==
              if m.kind == Informational && m.anchor != ReviewAnchor then Failure(InformationalAnchor)
              else Success(CommentCreated(Comment(
                m.commentId, m.reviewId, ThreadId(m.commentId.timestamp, m.commentId.random), meta.author, m.kind,
                m.anchor, m.text, meta.ts, None, Live, m.context)))
    ensures m.Reply? && NoComment(s, m.commentId) && NoThread(s, m.threadId) ==>
              LocalEvent(s, meta, m) == Failure(UnknownThread(m.threadId))
    ensures m.Reply? && NoComment(s, m.commentId) && ThreadIs(s, m.threadId, i) ==>
              && (NoComment(s, s.threads[i].root) ==>
                 LocalEvent(s, meta, m) == Failure(UnknownComment(s.threads[i].root)))
              && (CommentIs(s, s.threads[i].root, k) ==>
                    LocalEvent(s, meta, m) == Success(CommentCreated(Comment(
                      m.commentId, m.reviewId, m.threadId, meta.author, m.kind, s.comments[k].anchor, m.text, meta.ts,
                        None,
                      s.comments[k].state, s.comments[k].context))))
  {
    hide CommentAt, ThreadAt;
    var c := CommentAt(s.comments, m.commentId);
    if m.Reply? {
      var t := ThreadAt(s.threads, m.threadId);
      if t < |s.threads| {
        var r := CommentAt(s.comments, s.threads[t].root);
      }
    }
  }

  /** The review's title and status, or one ref of one repository, are replaced. */
  lemma {:induction false} ReviewTried(s: Snapshot, meta: Meta, m: Mutation, i: nat)
    ensures m.UpdateReview? && m.reviewId == s.review.id ==>
              Tried(s, meta, m) == Success(s.(review := s.review.(title := m.title, status := m.status)))
    ensures (m.UpdateBase? || m.UpdateHead?) && NoTarget(s, m.repo) ==>
            Tried(s, meta, m) == Failure(UnknownRepo(m.repo))
    ensures (m.UpdateBase? || m.UpdateHead?) && m.reviewId == s.review.id && TargetIs(s, m.repo, i) ==>
              Tried(s, meta, m) == Success(s.(review := s.review.(targets := s.review.targets[i :=
                if m.UpdateBase? then s.review.targets[i].(base := m.ref) else s.review.targets[i].(head := m.ref)])))
    ensures m.OtherMutation? ==> Tried(s, meta, m) == Failure(Unsupported)
  {
    hide TargetAt;
    if m.UpdateBase? || m.UpdateHead? {
      var k := TargetAt(s.review.targets, m.repo);
    }
  }
}
