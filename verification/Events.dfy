/** Event semantics over a review snapshot. */
module Events {
  import opened Protocol

  /** A root comment's id is its thread's id. */
  function ThreadIdOf(id: CommentId): ThreadId { ThreadId(id.timestamp, id.random) }

  // ---- first-match lookups --------------------------------------------------

  function CommentAt(cs: seq<Comment>, id: CommentId): (i: nat)
    ensures i <= |cs| && (i < |cs| ==> cs[i].id == id)
    ensures forall j | 0 <= j < i :: cs[j].id != id
  {
    if cs == [] || cs[0].id == id then 0 else 1 + CommentAt(cs[1..], id)
  }

  function ThreadAt(ts: seq<Thread>, id: ThreadId): (i: nat)
    ensures i <= |ts| && (i < |ts| ==> ts[i].id == id)
    ensures forall j | 0 <= j < i :: ts[j].id != id
  {
    if ts == [] || ts[0].id == id then 0 else 1 + ThreadAt(ts[1..], id)
  }

  function TargetAt(ts: seq<Target>, repo: RepoId): (i: nat)
    ensures i <= |ts| && (i < |ts| ==> ts[i].repo == repo)
    ensures forall j | 0 <= j < i :: ts[j].repo != repo
  {
    if ts == [] || ts[0].repo == repo then 0 else 1 + TargetAt(ts[1..], repo)
  }

  function RecordAt(rs: seq<SuggestionRecord>, id: CommentId): (i: nat)
    ensures i <= |rs| && (i < |rs| ==> rs[i].commentId == id)
    ensures forall j | 0 <= j < i :: rs[j].commentId != id
  {
    if rs == [] || rs[0].commentId == id then 0 else 1 + RecordAt(rs[1..], id)
  }

  predicate HasComment(s: Snapshot, id: CommentId) { CommentAt(s.comments, id) < |s.comments| }

  predicate HasThread(s: Snapshot, id: ThreadId) { ThreadAt(s.threads, id) < |s.threads| }

  // ---- what a mutation becomes ----------------------------------------------

  function NewComment(meta: Meta, reviewId: ReviewId, id: CommentId, threadId: ThreadId, kind: CommentKind,
                      anchor: Anchor, text: string, state: CommentState, context: Option<string>): Comment
  {
    Comment(id, reviewId, threadId, meta.author, kind, anchor, text, meta.ts, None, state, context)
  }

  /** The event `m` produces against `s`, or why it cannot. */
  function LocalEvent(s: Snapshot, meta: Meta, m: Mutation): Result<Body, MutationError>
  {
    match m
    case AddComment(review, id, kind, anchor, text, context) =>
      if HasComment(s, id) then Failure(DuplicateComment(id))
      else if kind == Informational && anchor != ReviewAnchor then Failure(InformationalAnchor)
      else Success(CommentCreated(NewComment(meta, review, id, ThreadIdOf(id), kind, anchor, text, Live, context)))
    case Reply(review, threadId, id, kind, text) =>
      if HasComment(s, id) then Failure(DuplicateComment(id))
      else if !HasThread(s, threadId) then Failure(UnknownThread(threadId))
      else
        var rootId := s.threads[ThreadAt(s.threads, threadId)].root;
        if !HasComment(s, rootId) then Failure(UnknownComment(rootId))
        else
          var root := s.comments[CommentAt(s.comments, rootId)];
          Success(CommentCreated(
                    NewComment(meta, review, id, threadId, kind, root.anchor, text, root.state, root.context)))
    case EditComment(review, id, text) =>
      if !HasComment(s, id) then Failure(UnknownComment(id))
      else if s.comments[CommentAt(s.comments, id)].author != meta.author then Failure(NotAuthor(id))
      else Success(CommentEdited(review, id, text))
    case DeleteComment(review, id) =>
      if !HasComment(s, id) then Failure(UnknownComment(id))
      else if s.comments[CommentAt(s.comments, id)].author != meta.author then Failure(NotAuthor(id))
      else Success(CommentDeleted(review, id))
    case DeferThread(review, id, reason, url) =>
      if !HasThread(s, id) then Failure(UnknownThread(id))
      else (match s.threads[ThreadAt(s.threads, id)].resolution
            case OpenThread => Success(ThreadDeferred(review, id, reason, url))
            case InformationalThread => Failure(InformationalThreadError(id))
            case _ => Failure(NotOpen(id)))
    case ResolveThread(review, id) =>
      if !HasThread(s, id) then Failure(UnknownThread(id))
      else (match s.threads[ThreadAt(s.threads, id)].resolution
            case InformationalThread => Failure(InformationalThreadError(id))
            case ResolvedThread(_, _) => Failure(AlreadyResolved(id))
            case _ => Success(ThreadResolved(review, id)))
    case UnresolveThread(review, id) =>
      if !HasThread(s, id) then Failure(UnknownThread(id))
      else (match s.threads[ThreadAt(s.threads, id)].resolution
            case InformationalThread => Failure(InformationalThreadError(id))
            case OpenThread => Failure(NotResolved(id))
            case _ => Success(ThreadUnresolved(review, id)))
    case UpdateReview(review, title, status) => Success(ReviewUpdated(review, title, status))
    case UpdateBase(review, repo, ref) =>
      var i := TargetAt(s.review.targets, repo);
      if i == |s.review.targets| then Failure(UnknownRepo(repo))
      else Success(TargetUpdated(review, s.review.targets[i].(base := ref)))
    case UpdateHead(review, repo, ref) =>
      var i := TargetAt(s.review.targets, repo);
      if i == |s.review.targets| then Failure(UnknownRepo(repo))
      else Success(TargetUpdated(review, s.review.targets[i].(head := ref)))
    case OtherMutation => Failure(Unsupported)
  }

  // ---- folding events into a snapshot ---------------------------------------

  /** One field-level write to a comment. */
  datatype CommentWrite =
    | WriteBody(text: string, at: Timestamp)
    | WriteAnchor(anchor: Anchor)
    | WriteState(state: CommentState)

  function Written(c: Comment, w: CommentWrite): Comment {
    match w
    case WriteBody(text, at) => c.(body := text, edited := Some(at))
    case WriteAnchor(anchor) => c.(anchor := anchor)
    case WriteState(state) => c.(state := state)
  }

  function WriteComment(cs: seq<Comment>, id: CommentId, w: CommentWrite): (r: seq<Comment>)
    ensures |r| == |cs| && forall i | 0 <= i < |cs| :: r[i].id == cs[i].id
  {
    var i := CommentAt(cs, id);
    if i < |cs| then cs[i := Written(cs[i], w)] else cs
  }

  function WriteResolution(ts: seq<Thread>, id: ThreadId, resolution: Resolution): (r: seq<Thread>)
    ensures |r| == |ts| && forall i | 0 <= i < |ts| :: r[i].id == ts[i].id
  {
    var i := ThreadAt(ts, id);
    if i < |ts| then ts[i := ts[i].(resolution := resolution)] else ts
  }

  function WriteTarget(ts: seq<Target>, target: Target): (r: seq<Target>)
    ensures |r| == |ts| && forall i | 0 <= i < |ts| :: r[i].repo == ts[i].repo
  {
    var i := TargetAt(ts, target.repo);
    if i < |ts| then ts[i := target] else ts
  }

  /** Marks for every key but `key`, in their order. */
  function WithoutMark(vs: seq<ViewedMark>, key: ViewKey): seq<ViewedMark> {
    if vs == [] then []
    else WithoutMark(vs[..|vs| - 1], key) + (if vs[|vs| - 1].key == key then [] else [vs[|vs| - 1]])
  }

  /** Only suggestion comments leave a record, anchored where they were created. */
  function RecordOf(c: Comment): seq<SuggestionRecord> {
    match c.kind
    case Suggestion(patch) =>
      var anchor := if c.state.Outdated? then c.state.lastGoodAnchor else c.anchor;
      [SuggestionRecord(c.reviewId, c.id, anchor, patch, Unapplied)]
    case _ => []
  }

  function ResolutionForRoot(kind: CommentKind): Resolution {
    if kind == Informational then InformationalThread else OpenThread
  }

  function Replied(t: Thread, id: CommentId): Thread {
    if id !in t.replies && t.root != id then t.(replies := t.replies + [id]) else t
  }

  /** The thread list once `c` has joined its thread or opened a new one. */
  function Joined(ts: seq<Thread>, c: Comment): seq<Thread> {
    var i := ThreadAt(ts, c.threadId);
    if i < |ts| then ts[i := Replied(ts[i], c.id)]
    else ts + [Thread(c.threadId, c.reviewId, c.id, [], ResolutionForRoot(c.kind))]
  }

  function Created(s: Snapshot, c: Comment): Snapshot {
    if HasComment(s, c.id) then s
    else s.(comments := s.comments + [c], suggestions := s.suggestions + RecordOf(c), threads := Joined(s.threads, c))
  }

  /** Fold a body; bodies of other reviews and list-level bodies change nothing. */
  function ApplyBody(s: Snapshot, meta: Meta, body: Body): Snapshot {
    if body.Subject() != Some(s.review.id) then s
    else
      match body
      case ReviewUpdated(_, title, status) => s.(review := s.review.(title := title, status := status))
      case TargetsResolved(_, targets) => s.(resolved := Some(targets))
      case TargetUpdated(_, target) => s.(review := s.review.(targets := WriteTarget(s.review.targets, target)))
      case CommentCreated(comment) => Created(s, comment)
      case CommentEdited(_, id, text) => s.(comments := WriteComment(s.comments, id, WriteBody(text, meta.ts)))
      case CommentDeleted(_, id) => s.(comments := WriteComment(s.comments, id, WriteState(Deleted)))
      case CommentReanchored(_, id, anchor, state) =>
        s.(comments := WriteComment(WriteComment(s.comments, id, WriteAnchor(anchor)), id, WriteState(state)))
      case ThreadDeferred(_, id, reason, url) =>
        s.(threads := WriteResolution(s.threads, id, DeferredThread(reason, url, meta.author, meta.ts)))
      case ThreadResolved(_, id) => s.(threads := WriteResolution(s.threads, id, ResolvedThread(meta.author, meta.ts)))
      case ThreadUnresolved(_, id) => s.(threads := WriteResolution(s.threads, id, OpenThread))
      case FileViewed(review, key, content) =>
        s.(viewed := WithoutMark(s.viewed, key) + [ViewedMark(review, key, content)])
      case FileUnviewed(_, key) => s.(viewed := WithoutMark(s.viewed, key))
      case _ => s
  }

  predicate Ascending<T>(xs: seq<T>, key: T -> nat) {
    forall i, j | 0 <= i < j < |xs| :: key(xs[i]) <= key(xs[j])
  }

  /** A stable insertion: after every element whose key is not larger. */
  function Insert<T>(xs: seq<T>, x: T, key: T -> nat): (r: seq<T>)
    ensures multiset(r) == multiset(xs) + multiset{x}
  {
    if xs == [] || key(x) < key(xs[0]) then [x] + xs
    else
      assert xs == [xs[0]] + xs[1..];
      [xs[0]] + Insert(xs[1..], x, key)
  }

  lemma {:induction false} InsertAscending<T>(xs: seq<T>, x: T, key: T -> nat)
    requires Ascending(xs, key)
    ensures Ascending(Insert(xs, x, key), key)
  {
    if xs == [] || key(x) < key(xs[0]) {
    } else {
      var rest := Insert(xs[1..], x, key);
      InsertAscending(xs[1..], x, key);
      forall i | 0 <= i < |rest|
        ensures key(xs[0]) <= key(rest[i])
      {
        assert rest[i] in multiset(rest);
        if rest[i] != x {
          assert rest[i] in xs[1..];
        }
      }
    }
  }

  /** Stable sort by key. */
  function Sorted<T>(xs: seq<T>, key: T -> nat): (r: seq<T>)
    ensures multiset(r) == multiset(xs) && Ascending(r, key)
  {
    if xs == [] then []
    else
      assert xs == xs[..|xs| - 1] + [xs[|xs| - 1]];
      var init := Sorted(xs[..|xs| - 1], key);
      InsertAscending(init, xs[|xs| - 1], key);
      Insert(init, xs[|xs| - 1], key)
  }

  predicate HasRequest(s: Snapshot, id: Seq) { exists i :: 0 <= i < |s.requests| && s.requests[i].id == id }

  predicate HasCheckpoint(s: Snapshot, id: Seq) { exists i :: 0 <= i < |s.checkpoints| && s.checkpoints[i].id == id }

  function AddRequest(s: Snapshot, r: ReviewRequest): Snapshot {
    if HasRequest(s, r.id) then s
    else s.(requests := Sorted(s.requests + [r], (q: ReviewRequest) => q.id))
  }

  function AddCheckpoint(s: Snapshot, c: Checkpoint): Snapshot {
    if HasCheckpoint(s, c.id) then s
    else s.(checkpoints := Sorted(s.checkpoints + [c], (q: Checkpoint) => q.id))
  }

  /** A receipt replaces an unapplied outcome or an older receipt. */
  function Receive(s: Snapshot, id: CommentId, receipt: Receipt): Snapshot {
    var i := RecordAt(s.suggestions, id);
    if i < |s.suggestions| && (s.suggestions[i].outcome.Unapplied?
        || s.suggestions[i].outcome.receipt.seqNo < receipt.seqNo)
    then s.(suggestions := s.suggestions[i := s.suggestions[i].(outcome := Applied(receipt))])
    else s
  }

  function ReceiptOf(e: Event): Receipt
    requires e.body.SuggestionApplied?
  {
    Receipt(e.seqNo, e.ts, e.author, e.body.repo, e.body.path, e.body.blob)
  }

  /** Records that take their identity from the committed envelope. */
  function ApplyEnvelope(s: Snapshot, e: Event): Snapshot {
    if e.body.Subject() != Some(s.review.id) then s
    else
      match e.body
      case SuggestionApplied(_, id, _, _, _) => Receive(s, id, ReceiptOf(e))
      case ReviewRequested(review, agent, note) =>
        AddRequest(s, ReviewRequest(e.seqNo, review, e.author, agent, note, e.ts))
      case ReviewChecked(review, reviewer, targets) =>
        AddCheckpoint(s, Checkpoint(e.seqNo, review, reviewer, e.author, e.ts, targets))
      case _ => s
  }

  /** Fold a committed event. */
  function ApplyEvent(s: Snapshot, e: Event): Snapshot {
    ApplyBody(ApplyEnvelope(s, e), Meta(e.author, e.ts), e.body)
  }

  function Fold(s: Snapshot, log: seq<Event>): Snapshot {
    if log == [] then s else ApplyEvent(Fold(s, log[..|log| - 1]), log[|log| - 1])
  }

  lemma {:induction false} FoldConcat(s: Snapshot, a: seq<Event>, b: seq<Event>)
    ensures Fold(s, a + b) == Fold(Fold(s, a), b)
    decreases |b|
  {
    if b == [] {
      assert a + b == a;
    } else {
      var init := b[..|b| - 1];
      assert (a + b)[..|a + b| - 1] == a + init;
      FoldConcat(s, a, init);
    }
  }

  lemma FoldOne(s: Snapshot, e: Event)
    ensures Fold(s, [e]) == ApplyEvent(s, e)
  {
    assert [e][..0] == [];
  }
}
