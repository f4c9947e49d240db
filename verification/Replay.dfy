/**
 Replaying a stretch of the log over a snapshot that already contains it.

 Every event is a short list of primitive operations. Writes to one register overwrite each other and
 commute with everything else; additions are remembered by identity; viewed marks are a list in order of
 last touch. These three facts give absorption of replays and of held-back target refreshes.
 */
module Replay {
  import opened Protocol
  import opened Events

  datatype Op =
    | SetReview(title: string, status: ReviewStatus)
    | SetResolved(targets: seq<ResolvedTarget>)
    | SetTarget(target: Target)
    | SetComment(id: CommentId, write: CommentWrite)
    | SetResolution(thread: ThreadId, resolution: Resolution)
    | AddComment_(comment: Comment)
    | AddRequest_(request: ReviewRequest)
    | AddCheckpoint_(checkpoint: Checkpoint)
    | AddReceipt(id: CommentId, receipt: Receipt)
    | Mark(mark: ViewedMark)
    | Unmark(key: ViewKey)
  {
    predicate IsWrite() { SetReview? || SetResolved? || SetTarget? || SetComment? || SetResolution? }

    predicate IsView() { Mark? || Unmark? }

    function ViewedKey(): ViewKey requires IsView() { if Mark? then mark.key else key }

    /** Whether two writes land on the same register. */
    predicate SameRegister(o: Op) {
      match this
      case SetReview(_, _) => o.SetReview?
      case SetResolved(_) => o.SetResolved?
      case SetTarget(t) => o.SetTarget? && o.target.repo == t.repo
      case SetComment(id, w) =>
        && o.SetComment? && o.id == id
        && (w.WriteBody? <==> o.write.WriteBody?) && (w.WriteAnchor? <==> o.write.WriteAnchor?)
      case SetResolution(t, _) => o.SetResolution? && o.thread == t
      case _ => false
    }
  }

  function Step(s: Snapshot, o: Op): Snapshot {
    match o
    case SetReview(title, status) => s.(review := s.review.(title := title, status := status))
    case SetResolved(targets) => s.(resolved := Some(targets))
    case SetTarget(target) => s.(review := s.review.(targets := WriteTarget(s.review.targets, target)))
    case SetComment(id, w) => s.(comments := WriteComment(s.comments, id, w))
    case SetResolution(t, r) => s.(threads := WriteResolution(s.threads, t, r))
    case AddComment_(c) => Created(s, c)
    case AddRequest_(r) => AddRequest(s, r)
    case AddCheckpoint_(c) => AddCheckpoint(s, c)
    case AddReceipt(id, r) => Receive(s, id, r)
    case Mark(m) => s.(viewed := WithoutMark(s.viewed, m.key) + [m])
    case Unmark(key) => s.(viewed := WithoutMark(s.viewed, key))
  }

  function Run(s: Snapshot, ops: seq<Op>): Snapshot
    decreases |ops|
  {
    if ops == [] then s else Run(Step(s, ops[0]), ops[1..])
  }

  function OpsOf(review: ReviewId, e: Event): seq<Op> {
    if e.body.Subject() != Some(review) then []
    else
      match e.body
      case ReviewUpdated(_, title, status) => [SetReview(title, status)]
      case TargetsResolved(_, targets) => [SetResolved(targets)]
      case TargetUpdated(_, target) => [SetTarget(target)]
      case CommentCreated(c) => [AddComment_(c)]
      case CommentEdited(_, id, text) => [SetComment(id, WriteBody(text, e.ts))]
      case CommentDeleted(_, id) => [SetComment(id, WriteState(Deleted))]
      case CommentReanchored(_, id, anchor, state) =>
          [SetComment(id, WriteAnchor(anchor)), SetComment(id, WriteState(state))]
      case ThreadDeferred(_, id, reason, url) => [SetResolution(id, DeferredThread(reason, url, e.author, e.ts))]
      case ThreadResolved(_, id) => [SetResolution(id, ResolvedThread(e.author, e.ts))]
      case ThreadUnresolved(_, id) => [SetResolution(id, OpenThread)]
      case FileViewed(r, key, content) => [Mark(ViewedMark(r, key, content))]
      case FileUnviewed(_, key) => [Unmark(key)]
      case ReviewRequested(r, agent, note) => [AddRequest_(ReviewRequest(e.seqNo, r, e.author, agent, note, e.ts))]
      case ReviewChecked(r, reviewer, targets) =>
        [AddCheckpoint_(Checkpoint(e.seqNo, r, reviewer, e.author, e.ts, targets))]
      case SuggestionApplied(_, id, _, _, _) => [AddReceipt(id, ReceiptOf(e))]
      case _ => []
  }

  function OpsOfLog(review: ReviewId, log: seq<Event>): seq<Op> {
    if log == [] then [] else OpsOf(review, log[0]) + OpsOfLog(review, log[1..])
  }

  lemma RunShort(s: Snapshot, o: Op, p: Op)
    ensures Run(s, [o]) == Step(s, o)
    ensures Run(s, [o, p]) == Step(Step(s, o), p)
  {
    assert [o][1..] == [] && [o, p][1..] == [p] && [p][1..] == [];
    assert Run(Step(s, o), [p]) == Run(Step(Step(s, o), p), []);
  }

  /** One operation of a body, or two for a reanchoring. */
  lemma {:induction false} EventIsOps(s: Snapshot, e: Event)
    ensures ApplyEvent(s, e) == Run(s, OpsOf(s.review.id, e))
    ensures ApplyEvent(s, e).review.id == s.review.id
  {
    var ops := OpsOf(s.review.id, e);
    if e.body.CommentReanchored? && ops != [] {
      RunShort(s, ops[0], ops[1]);
    } else if ops != [] {
      SingleOp(s, e);
      RunShort(s, ops[0], ops[0]);
    } else {
      assert ApplyEvent(s, e) == s;
    }
  }

  predicate IsEnvelope(body: Body) { body.SuggestionApplied? || body.ReviewRequested? || body.ReviewChecked? }

  lemma SingleOp(s: Snapshot, e: Event)
    requires |OpsOf(s.review.id, e)| == 1
    ensures ApplyEvent(s, e) == Step(s, OpsOf(s.review.id, e)[0])
    ensures ApplyEvent(s, e).review.id == s.review.id
  {
    if IsEnvelope(e.body) {
      EnvelopeOp(s, e);
    } else {
      assert ApplyEnvelope(s, e) == s;
      BodyOp(s, e);
    }
  }

  lemma EnvelopeOp(s: Snapshot, e: Event)
    requires IsEnvelope(e.body) && e.body.Subject() == Some(s.review.id)
    ensures ApplyEvent(s, e) == Step(s, OpsOf(s.review.id, e)[0])
    ensures ApplyEvent(s, e).review.id == s.review.id
  {
    assert ApplyEvent(s, e) == ApplyEnvelope(s, e);
  }

  lemma BodyOp(s: Snapshot, e: Event)
    requires !IsEnvelope(e.body) && |OpsOf(s.review.id, e)| == 1
    ensures ApplyBody(s, Meta(e.author, e.ts), e.body) == Step(s, OpsOf(s.review.id, e)[0])
    ensures ApplyBody(s, Meta(e.author, e.ts), e.body).review.id == s.review.id
  {
  }

  lemma {:induction false} RunConcat(s: Snapshot, a: seq<Op>, b: seq<Op>)
    ensures Run(s, a + b) == Run(Run(s, a), b)
    decreases |a|
  {
    if a == [] {
      assert a + b == b;
    } else {
      assert (a + b)[1..] == a[1..] + b;
      RunConcat(Step(s, a[0]), a[1..], b);
    }
  }

  lemma {:induction false} FoldIsOps(s: Snapshot, log: seq<Event>)
    ensures Fold(s, log) == Run(s, OpsOfLog(s.review.id, log))
    ensures Fold(s, log).review.id == s.review.id
    decreases |log|
  {
    if log != [] {
      var e, rest := log[0], log[1..];
      assert log == [e] + rest;
      FoldConcat(s, [e], rest);
      FoldOne(s, e);
      EventIsOps(s, e);
      FoldIsOps(ApplyEvent(s, e), rest);
      RunConcat(s, OpsOf(s.review.id, e), OpsOfLog(s.review.id, rest));
    }
  }

  // ---- writes: overwrite or commute ----------------------------------------

  predicate HasRecord(s: Snapshot, id: CommentId) { RecordAt(s.suggestions, id) < |s.suggestions| }

  /** Whether what an operation refers to is present. */
  predicate Known(s: Snapshot, o: Op) {
    match o
    case SetComment(id, _) => HasComment(s, id)
    case SetResolution(t, _) => HasThread(s, t)
    case AddReceipt(id, _) => HasComment(s, id) || HasRecord(s, id)
    case _ => true
  }

  lemma StepKeepsIds(s: Snapshot, g: Op)
    ensures |s.comments| <= |Step(s, g).comments| && |s.threads| <= |Step(s, g).threads|
    ensures |s.suggestions| <= |Step(s, g).suggestions|
    ensures forall i | 0 <= i < |s.comments| :: Step(s, g).comments[i].id == s.comments[i].id
    ensures forall i | 0 <= i < |s.threads| :: Step(s, g).threads[i].id == s.threads[i].id
    ensures forall i | 0 <= i < |s.suggestions| :: Step(s, g).suggestions[i].commentId == s.suggestions[i].commentId
  {
  }

  lemma StepKeepsKnown(s: Snapshot, g: Op, o: Op)
    requires Known(s, o)
    ensures Known(Step(s, g), o)
  {
    StepKeepsIds(s, g);
  }

  lemma {:induction false} RunKeepsKnown(s: Snapshot, ops: seq<Op>, o: Op)
    requires Known(s, o)
    ensures Known(Run(s, ops), o)
    decreases |ops|
  {
    if ops != [] {
      StepKeepsKnown(s, ops[0], o);
      RunKeepsKnown(Step(s, ops[0]), ops[1..], o);
    }
  }

  lemma WriteCommentTwice(cs: seq<Comment>, id: CommentId, v: CommentWrite, w: CommentWrite)
    ensures v.WriteBody? == w.WriteBody? && v.WriteAnchor? == w.WriteAnchor? ==>
              WriteComment(WriteComment(cs, id, v), id, w) == WriteComment(cs, id, w)
    ensures v.WriteBody? != w.WriteBody? || v.WriteAnchor? != w.WriteAnchor? ==>
              WriteComment(WriteComment(cs, id, v), id, w) == WriteComment(WriteComment(cs, id, w), id, v)
  {
    var i := CommentAt(cs, id);
    assert CommentAt(WriteComment(cs, id, v), id) == i == CommentAt(WriteComment(cs, id, w), id);
  }

  lemma WriteCommentsApart(cs: seq<Comment>, a: CommentId, v: CommentWrite, b: CommentId, w: CommentWrite)
    requires a != b
    ensures WriteComment(WriteComment(cs, a, v), b, w) == WriteComment(WriteComment(cs, b, w), a, v)
  {
    assert CommentAt(WriteComment(cs, a, v), b) == CommentAt(cs, b);
    assert CommentAt(WriteComment(cs, b, w), a) == CommentAt(cs, a);
  }

  lemma ThreadWrites(ts: seq<Thread>, a: ThreadId, q: Resolution, b: ThreadId, r: Resolution)
    ensures a == b ==> WriteResolution(WriteResolution(ts, a, q), b, r) == WriteResolution(ts, b, r)
    ensures a != b ==>
            WriteResolution(WriteResolution(ts, a, q), b, r)
            == WriteResolution(WriteResolution(ts, b, r), a, q)
  {
    hide ThreadAt;
    SameThreadAt(ts, a, q, b);
    SameThreadAt(ts, b, r, a);
  }

  lemma SameThreadAt(ts: seq<Thread>, a: ThreadId, q: Resolution, b: ThreadId)
    ensures ThreadAt(WriteResolution(ts, a, q), b) == ThreadAt(ts, b)
  {
    var i, j := ThreadAt(WriteResolution(ts, a, q), b), ThreadAt(ts, b);
  }

  lemma TargetWrites(ts: seq<Target>, t: Target, u: Target)
    ensures t.repo == u.repo ==> WriteTarget(WriteTarget(ts, t), u) == WriteTarget(ts, u)
    ensures t.repo != u.repo ==> WriteTarget(WriteTarget(ts, t), u) == WriteTarget(WriteTarget(ts, u), t)
  {
    assert TargetAt(WriteTarget(ts, t), u.repo) == TargetAt(ts, u.repo);
    assert TargetAt(WriteTarget(ts, u), t.repo) == TargetAt(ts, t.repo);
  }

  lemma CommentAtAppend(cs: seq<Comment>, c: Comment, id: CommentId)
    requires CommentAt(cs, id) < |cs|
    ensures CommentAt(cs + [c], id) == CommentAt(cs, id)
  {
    var i, j := CommentAt(cs + [c], id), CommentAt(cs, id);
    assert (cs + [c])[j] == cs[j];
    assert !(i < j) by {
      assert (cs + [c])[..j] == cs[..j];
    }
  }

  lemma JoinedWrite(ts: seq<Thread>, t: ThreadId, r: Resolution, c: Comment)
    requires ThreadAt(ts, t) < |ts|
    ensures Joined(WriteResolution(ts, t, r), c) == WriteResolution(Joined(ts, c), t, r)
  {
    var i, k := ThreadAt(ts, c.threadId), ThreadAt(ts, t);
    assert ThreadAt(WriteResolution(ts, t, r), c.threadId) == i;
    assert ThreadAt(Joined(ts, c), t) == k by { JoinedKeepsIds(ts, c); }
    var resolved := ts[k].(resolution := r);
    if i == k {
      assert Replied(resolved, c.id) == Replied(ts[k], c.id).(resolution := r);
      UpdateTwice(ts, k, resolved, Replied(resolved, c.id));
      UpdateTwice(ts, k, Replied(ts[k], c.id), Replied(resolved, c.id));
    } else if i < |ts| {
      UpdatesApart(ts, i, Replied(ts[i], c.id), k, resolved);
    } else {
      UpdateAppend(ts, k, resolved, Thread(c.threadId, c.reviewId, c.id, [], ResolutionForRoot(c.kind)));
    }
  }

  lemma UpdateTwice<T>(s: seq<T>, i: nat, x: T, y: T)
    requires i < |s|
    ensures s[i := x][i := y] == s[i := y]
  {
  }

  lemma UpdatesApart<T>(s: seq<T>, i: nat, x: T, k: nat, y: T)
    requires i < |s| && k < |s| && i != k
    ensures s[i := x][k := y] == s[k := y][i := x]
  {
  }

  lemma UpdateAppend<T>(s: seq<T>, k: nat, y: T, z: T)
    requires k < |s|
    ensures (s + [z])[k := y] == s[k := y] + [z]
  {
  }

  lemma JoinedKeepsIds(ts: seq<Thread>, c: Comment)
    ensures |ts| <= |Joined(ts, c)| && forall i | 0 <= i < |ts| :: Joined(ts, c)[i].id == ts[i].id
  {
  }

  /** A write on a known register commutes with adding a comment. */
  lemma WriteThenCreate(s: Snapshot, o: Op, c: Comment)
    requires o.IsWrite() && Known(s, o)
    ensures Created(Step(s, o), c) == Step(Created(s, c), o)
  {
    assert CommentAt(Step(s, o).comments, c.id) == CommentAt(s.comments, c.id);
    if !HasComment(s, c.id) {
      match o
      case SetComment(id, w) =>
        CommentAtAppend(s.comments, c, id);
      case SetResolution(t, r) =>
        JoinedWrite(s.threads, t, r, c);
      case _ =>
    }
  }

  predicate OverwritesOrCommutes(s: Snapshot, o: Op, g: Op) {
    Step(Step(s, o), g) == if o.SameRegister(g) then Step(s, g) else Step(Step(s, g), o)
  }

  lemma CommentWriteMoves(s: Snapshot, o: Op, g: Op)
    requires o.SetComment? && Known(s, o)
    ensures OverwritesOrCommutes(s, o, g)
  {
    match g
    case AddComment_(c) => WriteThenCreate(s, o, c);
    case SetComment(id, w) =>
      if o.id == id {
        WriteCommentTwice(s.comments, id, o.write, w);
      } else {
        WriteCommentsApart(s.comments, o.id, o.write, id, w);
      }
    case _ =>
  }

  lemma ThreadWriteMoves(s: Snapshot, o: Op, g: Op)
    requires o.SetResolution? && Known(s, o)
    ensures OverwritesOrCommutes(s, o, g)
  {
    match g
    case AddComment_(c) => WriteThenCreate(s, o, c);
    case SetResolution(t, r) => ThreadWrites(s.threads, o.thread, o.resolution, t, r);
    case _ =>
  }

  lemma ReviewWriteMoves(s: Snapshot, o: Op, g: Op)
    requires o.SetReview? || o.SetResolved? || o.SetTarget?
    ensures OverwritesOrCommutes(s, o, g)
  {
    match g
    case AddComment_(c) => WriteThenCreate(s, o, c);
    case SetTarget(t) => if o.SetTarget? { TargetWrites(s.review.targets, o.target, t); }
    case _ =>
  }

  lemma WriteMoves(s: Snapshot, o: Op, g: Op)
    requires o.IsWrite() && Known(s, o)
    ensures OverwritesOrCommutes(s, o, g)
  {
    match o
    case SetComment(_, _) => CommentWriteMoves(s, o, g);
    case SetResolution(_, _) => ThreadWriteMoves(s, o, g);
    case _ => ReviewWriteMoves(s, o, g);
  }

  lemma WriteTwice(s: Snapshot, o: Op)
    requires o.IsWrite()
    ensures Step(Step(s, o), o) == Step(s, o)
  {
    match o
    case SetComment(id, w) => WriteCommentTwice(s.comments, id, w, w);
    case SetResolution(t, r) => ThreadWrites(s.threads, t, r, t, r);
    case SetTarget(t) => TargetWrites(s.review.targets, t, t);
    case _ =>
  }

  predicate Overwritten(o: Op, ops: seq<Op>) { exists i :: 0 <= i < |ops| && o.SameRegister(ops[i]) }

  /** A write moves past later operations until one overwrites it. */
  lemma {:induction false} WriteMovesLast(s: Snapshot, o: Op, ops: seq<Op>)
    requires o.IsWrite() && Known(s, o)
    ensures Overwritten(o, ops) ==> Run(Step(s, o), ops) == Run(s, ops)
    ensures !Overwritten(o, ops) ==> Run(Step(s, o), ops) == Step(Run(s, ops), o)
    decreases |ops|
  {
    if ops != [] {
      var g, rest := ops[0], ops[1..];
      assert ops == [g] + rest;
      WriteMoves(s, o, g);
      if !o.SameRegister(g) {
        StepKeepsKnown(s, g, o);
        WriteMovesLast(Step(s, g), o, rest);
        assert Overwritten(o, ops) <==> Overwritten(o, rest) by {
          if Overwritten(o, rest) {
            var i :| 0 <= i < |rest| && o.SameRegister(rest[i]);
            assert o.SameRegister(ops[i + 1]);
          }
        }
      }
    }
  }

  // ---- additions: remembered by identity ------------------------------------

  /** The addition `o` has taken effect and repeating it changes nothing. */
  predicate Remembered(s: Snapshot, o: Op) {
    match o
    case AddComment_(c) => HasComment(s, c.id)
    case AddRequest_(r) => HasRequest(s, r.id)
    case AddCheckpoint_(c) => HasCheckpoint(s, c.id)
    case AddReceipt(id, r) =>
      && (HasComment(s, id) || HasRecord(s, id))
      && (HasRecord(s, id) ==>
            var outcome := s.suggestions[RecordAt(s.suggestions, id)].outcome;
            outcome.Applied? && r.seqNo <= outcome.receipt.seqNo)
    case _ => false
  }

  lemma RememberedIsStill(s: Snapshot, o: Op)
    requires Remembered(s, o)
    ensures Step(s, o) == s
  {
  }

  lemma SortedKeeps<T>(xs: seq<T>, x: T, key: T -> nat, i: nat)
    requires i <= |xs|
    ensures exists j :: 0 <= j < |Sorted(xs + [x], key)| && Sorted(xs + [x], key)[j] == (xs + [x])[i]
  {
    assert (xs + [x])[i] in multiset(Sorted(xs + [x], key));
    assert (xs + [x])[i] in Sorted(xs + [x], key);
  }

  lemma AddRequestKeeps(s: Snapshot, r: ReviewRequest, id: Seq)
    requires HasRequest(s, id) || id == r.id
    ensures HasRequest(AddRequest(s, r), id)
  {
    if !HasRequest(s, r.id) {
      var i := if id == r.id then |s.requests| else var i :| 0 <= i < |s.requests| && s.requests[i].id == id; i;
      SortedKeeps(s.requests, r, (q: ReviewRequest) => q.id, i);
    }
  }

  lemma AddCheckpointKeeps(s: Snapshot, c: Checkpoint, id: Seq)
    requires HasCheckpoint(s, id) || id == c.id
    ensures HasCheckpoint(AddCheckpoint(s, c), id)
  {
    if !HasCheckpoint(s, c.id) {
      var i := if id == c.id then |s.checkpoints|
               else var i :| 0 <= i < |s.checkpoints| && s.checkpoints[i].id == id; i;
      SortedKeeps(s.checkpoints, c, (q: Checkpoint) => q.id, i);
    }
  }

  predicate IsAddition(o: Op) { o.AddComment_? || o.AddRequest_? || o.AddCheckpoint_? || o.AddReceipt? }

  lemma AdditionRemembered(s: Snapshot, o: Op)
    requires IsAddition(o) && Known(s, o)
    ensures Remembered(Step(s, o), o)
  {
    match o
    case AddComment_(c) =>
      if !HasComment(s, c.id) { assert (s.comments + [c])[|s.comments|].id == c.id; }
    case AddRequest_(r) => AddRequestKeeps(s, r, r.id);
    case AddCheckpoint_(c) => AddCheckpointKeeps(s, c, c.id);
    case AddReceipt(id, r) =>
      StepKeepsIds(s, o);
      var i, j := RecordAt(s.suggestions, id), RecordAt(Step(s, o).suggestions, id);
      assert |Step(s, o).suggestions| == |s.suggestions| && j == i;
  }

  lemma ReceiptKept(s: Snapshot, g: Op, o: Op)
    requires o.AddReceipt? && Remembered(s, o)
    ensures Remembered(Step(s, g), o)
  {
    StepKeepsIds(s, g);
    if g.AddComment_? {
      ReceiptKeptByCreation(s, g.comment, o);
    } else if g.AddReceipt? {
      var i, j := RecordAt(s.suggestions, o.id), RecordAt(Step(s, g).suggestions, o.id);
      assert |Step(s, g).suggestions| == |s.suggestions| && j == i;
    } else {
      SuggestionsAlone(s, g);
    }
  }

  lemma SuggestionsAlone(s: Snapshot, g: Op)
    requires !g.AddComment_? && !g.AddReceipt?
    ensures Step(s, g).suggestions == s.suggestions
  {
  }

  lemma ReceiptKeptByCreation(s: Snapshot, c: Comment, o: Op)
    requires o.AddReceipt? && Remembered(s, o)
    ensures Remembered(Created(s, c), o)
  {
    hide Joined;
    StepKeepsIds(s, AddComment_(c));
    var t := Created(s, c);
    var i, j := RecordAt(s.suggestions, o.id), RecordAt(t.suggestions, o.id);
    if i < |s.suggestions| {
      assert j == i;
    } else if !HasComment(s, c.id) {
      assert forall k | 0 <= k < |RecordOf(c)| :: RecordOf(c)[k].commentId != o.id;
    }
  }

  lemma StepKeepsRemembered(s: Snapshot, g: Op, o: Op)
    requires Remembered(s, o)
    ensures Remembered(Step(s, g), o)
  {
    match o
    case AddComment_(_) => StepKeepsIds(s, g);
    case AddReceipt(_, _) => ReceiptKept(s, g, o);
    case AddRequest_(r) => if g.AddRequest_? { AddRequestKeeps(s, g.request, r.id); }
    case AddCheckpoint_(c) => if g.AddCheckpoint_? { AddCheckpointKeeps(s, g.checkpoint, c.id); }
    case _ =>
  }

  lemma {:induction false} RunKeepsRemembered(s: Snapshot, ops: seq<Op>, o: Op)
    requires Remembered(s, o)
    ensures Remembered(Run(s, ops), o)
    decreases |ops|
  {
    if ops != [] {
      StepKeepsRemembered(s, ops[0], o);
      RunKeepsRemembered(Step(s, ops[0]), ops[1..], o);
    }
  }

  // ---- viewed marks: in order of last touch ---------------------------------

  function Core(s: Snapshot): Snapshot { s.(viewed := []) }

  lemma CoreStep(s: Snapshot, t: Snapshot, o: Op)
    requires Core(s) == Core(t)
    ensures Core(Step(s, o)) == Core(Step(t, o))
    ensures o.IsView() ==> Core(Step(s, o)) == Core(s)
  {
  }

  lemma {:induction false} CoreRun(s: Snapshot, t: Snapshot, ops: seq<Op>)
    requires Core(s) == Core(t)
    ensures Core(Run(s, ops)) == Core(Run(t, ops))
    decreases |ops|
  {
    if ops != [] {
      CoreStep(s, t, ops[0]);
      CoreRun(Step(s, ops[0]), Step(t, ops[0]), ops[1..]);
    }
  }

  predicate Touched(key: ViewKey, ops: seq<Op>) {
    exists i :: 0 <= i < |ops| && ops[i].IsView() && ops[i].ViewedKey() == key
  }

  /** The marks `ops` leaves alone. */
  function Untouched(vs: seq<ViewedMark>, ops: seq<Op>): seq<ViewedMark> {
    if vs == [] then []
    else Untouched(vs[..|vs| - 1], ops) + (if Touched(vs[|vs| - 1].key, ops) then [] else [vs[|vs| - 1]])
  }

  /** The first operation's mark, unless a later one touches its key. */
  function LastMark(ops: seq<Op>): seq<ViewedMark>
    requires ops != []
  {
    if ops[0].Mark? && !Touched(ops[0].mark.key, ops[1..]) then [ops[0].mark] else []
  }

  /** The marks `ops` leaves behind, by their last touch. */
  function Tail(ops: seq<Op>): seq<ViewedMark> {
    if ops == [] then [] else LastMark(ops) + Tail(ops[1..])
  }

  lemma {:induction false} UntouchedConcat(a: seq<ViewedMark>, b: seq<ViewedMark>, ops: seq<Op>)
    ensures Untouched(a + b, ops) == Untouched(a, ops) + Untouched(b, ops)
    decreases |b|
  {
    if b == [] {
      assert a + b == a;
    } else {
      assert (a + b)[..|a + b| - 1] == a + b[..|b| - 1];
      UntouchedConcat(a, b[..|b| - 1], ops);
    }
  }

  lemma {:induction false} UntouchedTwice(vs: seq<ViewedMark>, ops: seq<Op>)
    ensures Untouched(Untouched(vs, ops), ops) == Untouched(vs, ops)
    decreases |vs|
  {
    if vs != [] {
      var init, last := vs[..|vs| - 1], vs[|vs| - 1];
      UntouchedTwice(init, ops);
      UntouchedConcat(Untouched(init, ops), if Touched(last.key, ops) then [] else [last], ops);
      assert [last][..0] == [];
    }
  }

  lemma TouchedHead(key: ViewKey, ops: seq<Op>)
    requires ops != []
    ensures Touched(key, ops) <==> ((ops[0].IsView() && ops[0].ViewedKey() == key) || Touched(key, ops[1..]))
  {
    if Touched(key, ops[1..]) {
      var i :| 0 <= i < |ops[1..]| && ops[1..][i].IsView() && ops[1..][i].ViewedKey() == key;
      assert ops[i + 1] == ops[1..][i];
    }
  }

  lemma {:induction false} UntouchedHead(vs: seq<ViewedMark>, ops: seq<Op>)
    requires ops != []
    ensures Untouched(vs, ops) ==
            Untouched(if ops[0].IsView() then WithoutMark(vs, ops[0].ViewedKey()) else vs, ops[1..])
    decreases |vs|
  {
    if vs != [] {
      var init, last, rest := vs[..|vs| - 1], vs[|vs| - 1], ops[1..];
      UntouchedHead(init, ops);
      TouchedHead(last.key, ops);
      if ops[0].IsView() {
        UntouchedConcat(WithoutMark(init, ops[0].ViewedKey()),
                        if last.key == ops[0].ViewedKey() then [] else [last], rest);
        assert [last][..0] == [];
      }
    }
  }

  function ViewStep(vs: seq<ViewedMark>, o: Op): seq<ViewedMark> {
    if o.IsView() then WithoutMark(vs, o.ViewedKey()) + (if o.Mark? then [o.mark] else []) else vs
  }

  function ViewRun(vs: seq<ViewedMark>, ops: seq<Op>): seq<ViewedMark>
    decreases |ops|
  {
    if ops == [] then vs else ViewRun(ViewStep(vs, ops[0]), ops[1..])
  }

  lemma {:induction false} RunViews(s: Snapshot, ops: seq<Op>)
    ensures Run(s, ops).viewed == ViewRun(s.viewed, ops)
    decreases |ops|
  {
    if ops != [] {
      assert Step(s, ops[0]).viewed == ViewStep(s.viewed, ops[0]);
      RunViews(Step(s, ops[0]), ops[1..]);
    }
  }

  lemma {:induction false} ViewedAfter(vs: seq<ViewedMark>, ops: seq<Op>)
    ensures ViewRun(vs, ops) == Untouched(vs, ops) + Tail(ops)
    decreases |ops|
  {
    if ops == [] {
      UntouchedNothing(vs);
    } else {
      var rest := ops[1..];
      var kept, last, tail := Untouched(vs, ops), LastMark(ops), Tail(rest);
      calc {
        ViewRun(vs, ops);
        { ViewedAfter(ViewStep(vs, ops[0]), rest); }
        Untouched(ViewStep(vs, ops[0]), rest) + tail;
        { UntouchedStep(vs, ops); }
        (kept + last) + tail;
        kept + (last + tail);
        kept + Tail(ops);
      }
    }
  }

  lemma UntouchedStep(vs: seq<ViewedMark>, ops: seq<Op>)
    requires ops != []
    ensures Untouched(ViewStep(vs, ops[0]), ops[1..]) == Untouched(vs, ops) + LastMark(ops)
  {
    var o, rest := ops[0], ops[1..];
    UntouchedHead(vs, ops);
    if o.IsView() {
      UntouchedConcat(WithoutMark(vs, o.ViewedKey()), if o.Mark? then [o.mark] else [], rest);
      assert o.Mark? ==> [o.mark][..0] == [];
    }
  }

  lemma {:induction false} UntouchedNothing(vs: seq<ViewedMark>)
    ensures Untouched(vs, []) == vs
  {
    if vs != [] {
      UntouchedNothing(vs[..|vs| - 1]);
    }
  }

  lemma {:induction false} TailTouched(ops: seq<Op>, all: seq<Op>)
    requires forall i | 0 <= i < |ops| && ops[i].Mark? :: Touched(ops[i].mark.key, all)
    ensures Untouched(Tail(ops), all) == []
    decreases |ops|
  {
    if ops != [] {
      TailTouched(ops[1..], all);
      var head := LastMark(ops);
      UntouchedConcat(head, Tail(ops[1..]), all);
      assert head != [] ==> head[..0] == [];
    }
  }

  lemma ViewedAbsorbs(vs: seq<ViewedMark>, ops: seq<Op>)
    ensures ViewRun(ViewRun(vs, ops), ops) == ViewRun(vs, ops)
  {
    var kept, tail := Untouched(vs, ops), Tail(ops);
    assert ViewRun(vs, ops) == kept + tail by { ViewedAfter(vs, ops); }
    assert ViewRun(kept + tail, ops) == Untouched(kept + tail, ops) + tail by { ViewedAfter(kept + tail, ops); }
    assert Untouched(kept + tail, ops) == kept + [] by {
      UntouchedConcat(kept, tail, ops);
      UntouchedTwice(vs, ops);
      TailTouched(ops, ops);
    }
    assert kept + [] == kept;
  }

  // ---- absorption -----------------------------------------------------------

  /** No operation refers to something that only appears after it. */
  predicate GroundedOps(s: Snapshot, ops: seq<Op>)
    decreases |ops|
  {
    ops != [] ==>
      && (Known(Run(s, ops), ops[0]) ==> Known(s, ops[0]))
      && GroundedOps(Step(s, ops[0]), ops[1..])
  }

  /** Repeating the first operation of a stretch before the rest of it makes no difference. */
  lemma FirstOpAbsorbed(s: Snapshot, o: Op, rest: seq<Op>)
    requires Known(Run(Step(s, o), rest), o) ==> Known(s, o)
    ensures var end := Run(Step(s, o), rest); Core(Run(Step(end, o), rest)) == Core(Run(end, rest))
  {
    var end := Run(Step(s, o), rest);
    if o.IsView() {
      CoreStep(end, end, o);
      CoreRun(Step(end, o), end, rest);
    } else if !Known(end, o) {
      assert Step(end, o) == end;
    } else if o.IsWrite() {
      WriteMovesLast(s, o, rest);
      WriteMovesLast(end, o, rest);
      WriteTwice(Run(s, rest), o);
    } else {
      AdditionRemembered(s, o);
      RunKeepsRemembered(Step(s, o), rest, o);
      RememberedIsStill(end, o);
    }
  }

  lemma {:induction false} CoreAbsorbs(s: Snapshot, ops: seq<Op>)
    requires GroundedOps(s, ops)
    ensures Core(Run(Run(s, ops), ops)) == Core(Run(s, ops))
    decreases |ops|
  {
    if ops != [] {
      FirstOpAbsorbed(s, ops[0], ops[1..]);
      CoreAbsorbs(Step(s, ops[0]), ops[1..]);
    }
  }

  lemma {:induction false} OpsAbsorb(s: Snapshot, ops: seq<Op>)
    requires GroundedOps(s, ops)
    ensures Run(Run(s, ops), ops) == Run(s, ops)
  {
    CoreAbsorbs(s, ops);
    ViewedAbsorbs(s.viewed, ops);
    RunViews(s, ops);
    RunViews(Run(s, ops), ops);
    var a, b := Run(Run(s, ops), ops), Run(s, ops);
    assert a == Core(a).(viewed := a.viewed) && b == Core(b).(viewed := b.viewed);
  }

  /** Whether the comment or thread an event refers to is in the snapshot. */
  predicate Refers(s: Snapshot, e: Event) {
    match e.body
    case CommentEdited(_, id, _) => HasComment(s, id)
    case CommentDeleted(_, id) => HasComment(s, id)
    case CommentReanchored(_, id, _, _) => HasComment(s, id)
    case ThreadDeferred(_, id, _, _) => HasThread(s, id)
    case ThreadResolved(_, id) => HasThread(s, id)
    case ThreadUnresolved(_, id) => HasThread(s, id)
    case SuggestionApplied(_, id, _, _, _) => HasComment(s, id) || HasRecord(s, id)
    case _ => true
  }

  /** No event of the review refers to a comment or thread before its creation. */
  predicate Grounded(s: Snapshot, log: seq<Event>) {
    forall j | 0 <= j < |log| ::
      log[j].body.Subject() == Some(s.review.id) && Refers(Fold(s, log), log[j]) ==> Refers(Fold(s, log[..j]), log[j])
  }

  lemma {:induction false} PrependGrounded(s: Snapshot, ops: seq<Op>, later: seq<Op>)
    requires GroundedOps(Run(s, ops), later)
    requires forall o | o in ops && Known(Run(s, ops + later), o) :: Known(s, o)
    ensures GroundedOps(s, ops + later)
    decreases |ops|
  {
    if ops == [] {
      assert ops + later == later;
    } else {
      var v, rest := ops[0], ops[1..];
      assert (ops + later)[1..] == rest + later;
      forall o | o in rest && Known(Run(Step(s, v), rest + later), o)
        ensures Known(Step(s, v), o)
      {
        StepKeepsKnown(s, v, o);
      }
      PrependGrounded(Step(s, v), rest, later);
    }
  }

  lemma OpsRefer(s: Snapshot, review: ReviewId, e: Event, o: Op)
    requires o in OpsOf(review, e)
    ensures Known(s, o) <==> Refers(s, e)
    ensures e.body.Subject() == Some(review)
  {
  }

  lemma {:induction false} GroundedTransfers(s: Snapshot, log: seq<Event>, k: nat, m: nat)
    requires k <= m <= |log| && Grounded(s, log)
    ensures GroundedOps(Fold(s, log[..k]), OpsOfLog(s.review.id, log[k..m]))
    decreases m - k
  {
    hide ApplyEvent, Fold, Run, Step, Refers;
    if k < m {
      var now, e, id := Fold(s, log[..k]), log[k], s.review.id;
      var ops, later := OpsOf(id, e), OpsOfLog(id, log[k + 1..m]);
      GroundedTransfers(s, log, k + 1, m);
      FoldNext(s, log, k);
      assert log[k..m] == [e] + log[k + 1..m];
      LaterKnowsMore(s, log, k, m);
      forall o | o in ops && Known(Run(now, ops + later), o)
        ensures Known(now, o)
      {
        OpsRefer(now, id, e, o);
        OpsRefer(Fold(s, log), id, e, o);
      }
      PrependGrounded(now, ops, later);
    }
  }

  lemma FoldNext(s: Snapshot, log: seq<Event>, k: nat)
    requires k < |log|
    ensures Fold(s, log[..k + 1]) == ApplyEvent(Fold(s, log[..k]), log[k])
    ensures Fold(s, log[..k + 1]) == Run(Fold(s, log[..k]), OpsOf(s.review.id, log[k]))
  {
    hide ApplyEvent, Run, OpsOf;
    FoldIsOps(s, log[..k]);
    EventIsOps(Fold(s, log[..k]), log[k]);
    assert log[..k + 1][..k] == log[..k];
  }

  /** What an event refers to by the end of `log[k..m]` is there by the end of the whole log. */
  lemma LaterKnowsMore(s: Snapshot, log: seq<Event>, k: nat, m: nat)
    requires k < m <= |log|
    ensures forall o | o in OpsOf(s.review.id, log[k])
            && Known(Run(Fold(s, log[..k]), OpsOfLog(s.review.id, log[k..m])), o) ::
              Known(Fold(s, log), o)
  {
    hide Fold, Run, Known;
    var id := s.review.id;
    assert log[..m] == log[..k] + log[k..m] && log == log[..m] + log[m..];
    FoldConcat(s, log[..k], log[k..m]);
    FoldConcat(s, log[..m], log[m..]);
    FoldIsOps(s, log[..k]);
    FoldIsOps(Fold(s, log[..k]), log[k..m]);
    FoldIsOps(s, log[..m]);
    FoldIsOps(Fold(s, log[..m]), log[m..]);
    forall o | o in OpsOf(id, log[k]) && Known(Fold(s, log[..m]), o)
      ensures Known(Fold(s, log), o)
    {
      RunKeepsKnown(Fold(s, log[..m]), OpsOfLog(id, log[m..]), o);
    }
  }

  lemma StretchAbsorbed(s: Snapshot, log: seq<Event>, k: nat, m: nat)
    requires k <= m <= |log| && Grounded(s, log)
    ensures Fold(Fold(s, log[..m]), log[k..m]) == Fold(s, log[..m])
  {
    hide Fold, Run, Step;
    var before, stretch := Fold(s, log[..k]), log[k..m];
    assert log[..m] == log[..k] + stretch;
    FoldConcat(s, log[..k], stretch);
    FoldIsOps(s, log[..k]);
    FoldIsOps(before, stretch);
    FoldIsOps(Fold(before, stretch), stretch);
    GroundedTransfers(s, log, k, m);
    OpsAbsorb(before, OpsOfLog(s.review.id, stretch));
  }

  /**
   Replay absorption: folding `log[k..n]` over the state that already holds `log[..m]` gives exactly the
   state after `log[..n]`, every list in its order.
   */
  lemma {:induction false} ReplayAbsorbed(s: Snapshot, log: seq<Event>, k: nat, m: nat, n: nat)
    requires k <= m <= n <= |log| && Grounded(s, log)
    ensures Fold(Fold(s, log[..m]), log[k..n]) == Fold(s, log[..n])
  {
    hide Fold;
    StretchAbsorbed(s, log, k, m);
    assert log[k..n] == log[k..m] + log[m..n] && log[..n] == log[..m] + log[m..n];
    FoldConcat(Fold(s, log[..m]), log[k..m], log[m..n]);
    FoldConcat(s, log[..m], log[m..n]);
  }

  /** What was known at one point of the log is known at any later one. */
  lemma KnownLater(s: Snapshot, log: seq<Event>, a: nat, b: nat, o: Op)
    requires a <= b <= |log|
    ensures Known(Fold(s, log[..a]), o) ==> Known(Fold(s, log[..b]), o)
    ensures Remembered(Fold(s, log[..a]), o) ==> Remembered(Fold(s, log[..b]), o)
  {
    hide Fold, Run, Step, Known, Remembered, OpsOfLog;
    var now, ops := Fold(s, log[..a]), OpsOfLog(s.review.id, log[a..b]);
    assert log[..a] + log[a..b] == log[..b];
    FoldConcat(s, log[..a], log[a..b]);
    FoldIsOps(s, log[..a]);
    FoldIsOps(now, log[a..b]);
    if Known(now, o) { RunKeepsKnown(now, ops, o); }
    if Remembered(now, o) { RunKeepsRemembered(now, ops, o); }
  }

  /**
   The reply to a suggestion application applies its event even when a broadcast already did: over the fold
   of a log that holds the landing, the landing changes nothing.
   */
  lemma {:induction false} LateLandingChangesNothing(s: Snapshot, log: seq<Event>, n: nat, last: nat)
    requires n < last <= |log| && Grounded(s, log) && log[n].body.SuggestionApplied?
    ensures ApplyEvent(Fold(s, log[..last]), log[n]) == Fold(s, log[..last])
  {
    hide Fold, Run, Step, ApplyEvent, Known, Remembered, Refers;
    var e, now, end := log[n], Fold(s, log[..n]), Fold(s, log[..last]);
    FoldIsOps(s, log[..n]);
    FoldIsOps(s, log[..last]);
    EventIsOps(end, e);
    if e.body.reviewId == s.review.id {
      var o := AddReceipt(e.body.commentId, ReceiptOf(e));
      RunShort(end, o, o);
      assert log[..|log|] == log;
      KnownLater(s, log, last, |log|, o);
      OpsRefer(now, s.review.id, e, o);
      OpsRefer(Fold(s, log), s.review.id, e, o);
      if Known(now, o) {
        FoldNext(s, log, n);
        RunShort(now, o, o);
        AdditionRemembered(now, o);
        KnownLater(s, log, n + 1, last, o);
        RememberedIsStill(end, o);
      } else {
        UnknownIsStill(end, o);
      }
    } else {
      assert Run(end, []) == end by { RunNone(end); }
    }
  }

  lemma UnknownIsStill(s: Snapshot, o: Op)
    requires o.AddReceipt? && !Known(s, o)
    ensures Step(s, o) == s
  {
  }

  lemma RunNone(s: Snapshot)
    ensures Run(s, []) == s
  {
  }

  // ---- held-back refreshes --------------------------------------------------

  predicate IsRefresh(review: ReviewId, e: Event) { e.body.TargetsResolved? && e.body.reviewId == review }

  /** A refresh commutes with every event that is not one. */
  lemma RefreshSwaps(s: Snapshot, e: Event, d: Event)
    requires IsRefresh(s.review.id, d) && !IsRefresh(s.review.id, e)
    ensures ApplyEvent(ApplyEvent(s, d), e) == ApplyEvent(ApplyEvent(s, e), d)
  {
    var o, ops := SetResolved(d.body.targets), OpsOf(s.review.id, e);
    EventIsOps(s, d);
    EventIsOps(s, e);
    EventIsOps(ApplyEvent(s, d), e);
    EventIsOps(ApplyEvent(s, e), d);
    assert OpsOf(s.review.id, d) == [o];
    RunShort(s, o, o);
    RunShort(ApplyEvent(s, e), o, o);
    assert !Overwritten(o, ops);
    WriteMovesLast(s, o, ops);
  }

  /** An event folded in under held-back refreshes is the same event folded in after them. */
  lemma {:induction false} RefreshesWait(s: Snapshot, e: Event, held: seq<Event>)
    requires forall d | d in held :: IsRefresh(s.review.id, d)
    requires !IsRefresh(s.review.id, e)
    ensures Fold(ApplyEvent(s, e), held) == ApplyEvent(Fold(s, held), e)
    decreases |held|
  {
    hide ApplyEvent;
    if held != [] {
      var init, d := held[..|held| - 1], held[|held| - 1];
      RefreshesWait(s, e, init);
      FoldIsOps(s, init);
      RefreshSwaps(Fold(s, init), e, d);
    }
  }

  function Refreshes(review: ReviewId, log: seq<Event>): seq<Event> {
    if log == [] then []
    else Refreshes(review, log[..|log| - 1]) + (if IsRefresh(review, log[|log| - 1]) then [log[|log| - 1]] else [])
  }

  function Others(review: ReviewId, log: seq<Event>): seq<Event> {
    if log == [] then []
    else Others(review, log[..|log| - 1]) + (if IsRefresh(review, log[|log| - 1]) then [] else [log[|log| - 1]])
  }

  lemma {:induction false} RefreshesAre(review: ReviewId, log: seq<Event>)
    ensures forall d | d in Refreshes(review, log) :: IsRefresh(review, d)
  {
    if log != [] {
      RefreshesAre(review, log[..|log| - 1]);
    }
  }

  /** Draft hold-back is transparent: refreshes applied at the end, in order, give the undeferred state. */
  lemma {:induction false} HoldBackTransparent(s: Snapshot, log: seq<Event>)
    ensures Fold(Fold(s, Others(s.review.id, log)), Refreshes(s.review.id, log)) == Fold(s, log)
    decreases |log|
  {
    hide ApplyEvent;
    if log != [] {
      var init, e, id := log[..|log| - 1], log[|log| - 1], s.review.id;
      HoldBackTransparent(s, init);
      assert Others(id, init) + [] == Others(id, init) && Refreshes(id, init) + [] == Refreshes(id, init);
      if IsRefresh(id, e) {
        FoldConcat(Fold(s, Others(id, init)), Refreshes(id, init), [e]);
        FoldOne(Fold(Fold(s, Others(id, init)), Refreshes(id, init)), e);
      } else {
        FoldConcat(s, Others(id, init), [e]);
        FoldOne(Fold(s, Others(id, init)), e);
        RefreshesAre(id, init);
        FoldIsOps(s, Others(id, init));
        RefreshesWait(Fold(s, Others(id, init)), e, Refreshes(id, init));
      }
    }
  }

  lemma FoldTwo(s: Snapshot, a: Event, b: Event)
    ensures Fold(s, [a, b]) == ApplyEvent(ApplyEvent(s, a), b)
  {
    hide ApplyEvent;
    assert [a, b][..1] == [a] && [a][..0] == [];
    FoldOne(s, a);
  }

  // ---- the hypothesis is needed ---------------------------------------------

  /** An edit logged before its comment is created is ignored the first time and applied by a replay. */
  lemma {:induction false} UngroundedReplayDiffers(s: Snapshot, c: Comment, edit: Event, creation: Event)
    requires s.comments == [] && c.reviewId == s.review.id && creation.body == CommentCreated(c)
    requires edit.body == CommentEdited(s.review.id, c.id, c.body) && c.edited == None
    ensures Fold(Fold(s, [edit, creation]), [edit, creation]) != Fold(s, [edit, creation])
  {
    hide ApplyEvent, Fold;
    FoldTwo(s, edit, creation);
    EditOfNothing(s, edit, c.id);
    CreatesFirst(s, c, creation);
    var once := ApplyEvent(s, creation);
    FoldTwo(once, edit, creation);
    EditOfOnly(once, c, edit);
    CreatedBefore(ApplyEvent(once, edit), c, creation);
  }

  lemma EditOfNothing(s: Snapshot, edit: Event, id: CommentId)
    requires s.comments == [] && edit.body.CommentEdited? && edit.body.commentId == id
    ensures ApplyEvent(s, edit) == s
  {
  }

  lemma CreatesFirst(s: Snapshot, c: Comment, creation: Event)
    requires s.comments == [] && c.reviewId == s.review.id && creation.body == CommentCreated(c)
    ensures ApplyEvent(s, creation).comments == [c] && ApplyEvent(s, creation).review == s.review
  {
  }

  lemma EditOfOnly(s: Snapshot, c: Comment, edit: Event)
    requires s.comments == [c] && edit.body.CommentEdited? && edit.body.reviewId == s.review.id
             && edit.body.commentId == c.id && edit.body.text == c.body
    ensures ApplyEvent(s, edit).comments == [c.(edited := Some(edit.ts))] && ApplyEvent(s, edit).review == s.review
  {
    assert CommentAt([c], c.id) == 0;
  }

  lemma CreatedBefore(s: Snapshot, c: Comment, creation: Event)
    requires |s.comments| == 1 && s.comments[0].id == c.id && creation.body == CommentCreated(c)
    ensures ApplyEvent(s, creation) == s
  {
    assert CommentAt(s.comments, c.id) == 0;
  }
}
