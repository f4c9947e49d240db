/** The shared vocabulary: identifiers, the review snapshot and the event log. */
module Protocol {

  datatype Option<+T> = None | Some(value: T)

  datatype Result<+T, +E> = Success(value: T) | Failure(error: E)

  /** The Unicode White_Space property. */
  predicate IsSpace(c: char) {
    || 0x9 as char <= c <= 0xD as char || c == ' ' || c == 0x85 as char || c == 0xA0 as char || c == 0x1680 as char
    || 0x2000 as char <= c <= 0x200A as char || c == 0x2028 as char || c == 0x2029 as char || c == 0x202F as char
    || c == 0x205F as char || c == 0x3000 as char
  }

  type ReviewId = nat
  type RepoId = nat
  type ClientId = nat
  type Seq = nat
  type Timestamp = nat
  type Author = string

  /** A ULID in its two parts. Comment and thread ids share the layout. */
  datatype CommentId = CommentId(timestamp: nat, random: nat)
  datatype ThreadId = ThreadId(timestamp: nat, random: nat)

  datatype Side = Base | Head

  datatype Anchor =
    | ReviewAnchor
    | FileAnchor(repo: RepoId, path: string, blob: nat)
    | LinesAnchor(repo: RepoId, path: string, side: Side, blob: nat, start: nat, end: nat)

  datatype CommentKind = Note | Informational | Suggestion(patch: string) | Request

  datatype CommentState = Live | Outdated(lastGoodAnchor: Anchor) | Deleted

  datatype Comment = Comment(
    id: CommentId, reviewId: ReviewId, threadId: ThreadId, author: Author, kind: CommentKind,
    anchor: Anchor, body: string, created: Timestamp, edited: Option<Timestamp>,
    state: CommentState, context: Option<string>)

  datatype Resolution =
    | InformationalThread
    | OpenThread
    | DeferredThread(reason: string, trackingUrl: Option<string>, actor: Author, at: Timestamp)
    | ResolvedThread(actor: Author, at: Timestamp)

  datatype Thread = Thread(id: ThreadId, reviewId: ReviewId, root: CommentId, replies: seq<CommentId>,
                           resolution: Resolution)

  datatype ReviewStatus = StatusOpen | StatusArchived

  datatype Target = Target(repo: RepoId, base: string, head: string)

  datatype Review = Review(id: ReviewId, workspace: nat, title: string, targets: seq<Target>,
                           created: Timestamp, status: ReviewStatus)

  datatype ResolvedTarget = ResolvedTarget(repo: RepoId, base: string, head: string)

  datatype Receipt = Receipt(seqNo: Seq, at: Timestamp, author: Author, repo: RepoId, path: string, blob: nat)

  datatype Outcome = Unapplied | Applied(receipt: Receipt)

  datatype SuggestionRecord = SuggestionRecord(
    reviewId: ReviewId, commentId: CommentId, anchor: Anchor, patch: string, outcome: Outcome)

  datatype ViewKey = ViewKey(repo: RepoId, path: string, viewer: string)

  datatype ViewedMark = ViewedMark(reviewId: ReviewId, key: ViewKey, content: nat)

  /** Requests and checkpoints take their durable identity from the event's sequence number. */
  datatype ReviewRequest = ReviewRequest(
    id: Seq, reviewId: ReviewId, requester: Author, recipient: string, note: string, created: Timestamp)

  datatype Checkpoint = Checkpoint(
    id: Seq, reviewId: ReviewId, reviewer: string, author: Author, created: Timestamp,
    targets: seq<ResolvedTarget>)

  datatype Snapshot = Snapshot(
    review: Review, resolved: Option<seq<ResolvedTarget>>, threads: seq<Thread>, comments: seq<Comment>,
    suggestions: seq<SuggestionRecord>, viewed: seq<ViewedMark>, requests: seq<ReviewRequest>,
    checkpoints: seq<Checkpoint>, cursor: Seq)

  /** The four workspace-level events never reach a review; they share one constructor. */
  datatype Body =
    | WorkspaceChanged
    | ReviewCreated(review: Review)
    | ReviewDeleted(deleted: ReviewId)
    | ReviewUpdated(reviewId: ReviewId, title: string, status: ReviewStatus)
    | TargetUpdated(reviewId: ReviewId, target: Target)
    | TargetsResolved(reviewId: ReviewId, targets: seq<ResolvedTarget>)
    | CommentCreated(comment: Comment)
    | CommentEdited(reviewId: ReviewId, commentId: CommentId, text: string)
    | CommentDeleted(reviewId: ReviewId, commentId: CommentId)
    | CommentReanchored(reviewId: ReviewId, commentId: CommentId, anchor: Anchor, state: CommentState)
    | ThreadDeferred(reviewId: ReviewId, threadId: ThreadId, reason: string, trackingUrl: Option<string>)
    | ThreadResolved(reviewId: ReviewId, threadId: ThreadId)
    | ThreadUnresolved(reviewId: ReviewId, threadId: ThreadId)
    | FileViewed(reviewId: ReviewId, key: ViewKey, content: nat)
    | FileUnviewed(reviewId: ReviewId, key: ViewKey)
    | ReviewRequested(reviewId: ReviewId, agent: string, note: string)
    | ReviewChecked(reviewId: ReviewId, reviewer: string, targets: seq<ResolvedTarget>)
    | SuggestionApplied(reviewId: ReviewId, commentId: CommentId, repo: RepoId, path: string, blob: nat)
  {
    /** The review an event belongs to, if any. */
    function Subject(): Option<ReviewId> {
      match this
      case WorkspaceChanged => None
      case ReviewCreated(review) => Some(review.id)
      case ReviewDeleted(id) => Some(id)
      case CommentCreated(comment) => Some(comment.reviewId)
      case _ => Some(reviewId)
    }
  }

  datatype Meta = Meta(author: Author, ts: Timestamp)

  datatype Event = Event(seqNo: Seq, ts: Timestamp, author: Author, client: ClientId, clientSeq: nat, body: Body)

  datatype Mutation =
    | AddComment(reviewId: ReviewId, commentId: CommentId, kind: CommentKind, anchor: Anchor, text: string,
                 context: Option<string>)
    | Reply(reviewId: ReviewId, threadId: ThreadId, commentId: CommentId, kind: CommentKind, text: string)
    | EditComment(reviewId: ReviewId, commentId: CommentId, text: string)
    | DeleteComment(reviewId: ReviewId, commentId: CommentId)
    | DeferThread(reviewId: ReviewId, threadId: ThreadId, reason: string, trackingUrl: Option<string>)
    | ResolveThread(reviewId: ReviewId, threadId: ThreadId)
    | UnresolveThread(reviewId: ReviewId, threadId: ThreadId)
    | UpdateReview(reviewId: ReviewId, title: string, status: ReviewStatus)
    | UpdateBase(reviewId: ReviewId, repo: RepoId, ref: string)
    | UpdateHead(reviewId: ReviewId, repo: RepoId, ref: string)
    | OtherMutation

  datatype MutationError =
    | DuplicateComment(comment: CommentId)
    | InformationalAnchor
    | InformationalThreadError(thread: ThreadId)
    | UnknownThread(thread: ThreadId)
    | UnknownComment(comment: CommentId)
    | NotAuthor(comment: CommentId)
    | NotOpen(thread: ThreadId)
    | AlreadyResolved(thread: ThreadId)
    | NotResolved(thread: ThreadId)
    | UnknownRepo(repo: RepoId)
    | Unsupported
}
