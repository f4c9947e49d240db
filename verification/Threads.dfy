/** Thread structure and lifecycle over whole logs. */
module Threads {
  import opened Protocol
  import opened Events
  import opened Replay

  /** Position 0 of a thread is its root, the rest are its replies in order. */
  function Member(t: Thread, k: nat): CommentId
    requires k <= |t.replies|
  {
    if k == 0 then t.root else t.replies[k - 1]
  }

  predicate InThread(s: Snapshot, i: nat, k: nat, id: CommentId) {
    i < |s.threads| && k <= |s.threads[i].replies| && Member(s.threads[i], k) == id
  }

  /** Ids are unique and every comment sits in exactly one thread, exactly once. */
  ghost predicate Structured(s: Snapshot) {
    && (forall i, j | 0 <= i < j < |s.comments| :: s.comments[i].id != s.comments[j].id)
    && (forall i | 0 <= i < |s.threads| :: s.threads[i].id == ThreadIdOf(s.threads[i].root))
    && (forall id, i: nat, k: nat, j: nat, l: nat | InThread(s, i, k, id) && InThread(s, j, l, id) :: i == j && k == l)
    && (forall id | HasComment(s, id) :: exists i: nat, k: nat :: InThread(s, i, k, id))
    && (forall id, i: nat, k: nat | InThread(s, i, k, id) ::
          HasComment(s, id) && s.comments[CommentAt(s.comments, id)].threadId == s.threads[i].id)
  }

  /** New comments and dispositions come from a mutation accepted against the state before them. */
  ghost predicate Accepted(s: Snapshot, e: Event) {
    e.body.CommentCreated? || e.body.ThreadDeferred? || e.body.ThreadResolved? || e.body.ThreadUnresolved? ==>
      exists m :: LocalEvent(s, Meta(e.author, e.ts), m) == Success(e.body)
  }

  ghost predicate AcceptedLog(s: Snapshot, log: seq<Event>) {
    forall j | 0 <= j < |log| :: Accepted(Fold(s, log[..j]), log[j])
  }

  lemma {:induction false} ThreadIdsUnique(s: Snapshot, i: nat, j: nat)
    requires Structured(s) && i < |s.threads| && j < |s.threads| && s.threads[i].id == s.threads[j].id
    ensures i == j
  {
    var id := s.threads[i].root;
    assert InThread(s, i, 0, id) && InThread(s, j, 0, id);
  }

  /** Nothing but comment writes: ids, threads and thread membership stay. */
  lemma SameShape(s: Snapshot, t: Snapshot)
    requires Structured(s)
    requires |t.comments| == |s.comments| && |t.threads| == |s.threads|
    requires forall i | 0 <= i < |s.comments| ::
             t.comments[i].id == s.comments[i].id && t.comments[i].threadId == s.comments[i].threadId
    requires forall i | 0 <= i < |s.threads| ::
               t.threads[i].id == s.threads[i].id && t.threads[i].root == s.threads[i].root
                 && t.threads[i].replies == s.threads[i].replies
    ensures Structured(t)
  {
    forall id
      ensures CommentAt(t.comments, id) == CommentAt(s.comments, id)
    {
    }
    forall i: nat, k: nat, id
      ensures InThread(t, i, k, id) <==> InThread(s, i, k, id)
    {
    }
    forall id | HasComment(t, id)
      ensures exists i: nat, k: nat :: InThread(t, i, k, id)
    {
      assert HasComment(s, id);
      var i: nat, k: nat :| InThread(s, i, k, id);
      assert InThread(t, i, k, id);
    }
  }

  /** A first comment opens a thread of its own; a reply joins the end of the one it names. */
  lemma CreatedStructured(s: Snapshot, meta: Meta, m: Mutation, c: Comment)
    requires Structured(s) && c.reviewId == s.review.id
    requires LocalEvent(s, meta, m) == Success(CommentCreated(c))
    ensures Structured(Created(s, c))
  {
    hide LocalEvent;
    LocalCreated(s, meta, m, c);
    var at := ThreadAt(s.threads, c.threadId);
    assert at < |s.threads| ==> InThread(s, at, 0, s.threads[at].root);
    assert m.AddComment? ==> at == |s.threads|;
    MembersAfter(s, c);
    var t, last := Created(s, c), if m.AddComment? then 0 else |s.threads[at].replies| + 1;
    assert InThread(t, at, last, c.id);
    forall id
      ensures HasComment(t, id) <==> HasComment(s, id) || id == c.id
    {
      CommentAtGrown(s.comments, c, id);
    }
    forall id | HasComment(t, id)
      ensures exists i: nat, k: nat :: InThread(t, i, k, id)
    {
      if id != c.id {
        var i: nat, k: nat :| InThread(s, i, k, id);
        assert InThread(t, i, k, id);
      }
    }
    MembersAreComments(s, c);
  }

  lemma MembersAreComments(s: Snapshot, c: Comment)
    requires Structured(s) && !HasComment(s, c.id)
    ensures forall id, i: nat, k: nat | InThread(Created(s, c), i, k, id) ::
              HasComment(Created(s, c), id)
              && Created(s, c).comments[CommentAt(Created(s, c).comments, id)].threadId == Created(s, c).threads[i].id
  {
    hide Created, Joined;
    MembersAfter(s, c);
    var t := Created(s, c);
    forall id, i: nat, k: nat | InThread(t, i, k, id)
      ensures HasComment(t, id) && t.comments[CommentAt(t.comments, id)].threadId == t.threads[i].id
    {
      CommentAtGrown(s.comments, c, id);
    }
  }

  lemma LocalCreated(s: Snapshot, meta: Meta, m: Mutation, c: Comment)
    requires LocalEvent(s, meta, m) == Success(CommentCreated(c))
    ensures !HasComment(s, c.id)
    ensures m.AddComment? ==> c.threadId == ThreadIdOf(c.id)
    ensures !m.AddComment? ==> HasThread(s, c.threadId)
  {
  }

  /** A new comment adds one membership: the root of a new thread or the last reply of an old one. */
  lemma MembersAfter(s: Snapshot, c: Comment)
    requires Structured(s) && !HasComment(s, c.id)
    ensures var t, at := Created(s, c), ThreadAt(s.threads, c.threadId);
            var last := if at == |s.threads| then 0 else |s.threads[at].replies| + 1;
            && t.comments == s.comments + [c] && at < |t.threads|
            && (at == |s.threads| ==> t.threads[at].root == c.id)
            && (forall i | 0 <= i < |t.threads| ::
               t.threads[i].id == if i < |s.threads| then s.threads[i].id else c.threadId)
            && (forall i | 0 <= i < |s.threads| :: t.threads[i].root == s.threads[i].root)
            && (forall i: nat, k: nat, id ::
               InThread(t, i, k, id)
               <==> (InThread(s, i, k, id) || (i == at && k == last && id == c.id)))
  {
    var at := ThreadAt(s.threads, c.threadId);
    if at < |s.threads| {
      var th := s.threads[at];
      assert InThread(s, at, 0, th.root);
      assert forall k | 0 <= k < |th.replies| :: InThread(s, at, k + 1, th.replies[k]);
      assert c.id !in th.replies && th.root != c.id;
    }
  }

  lemma CommentAtGrown(cs: seq<Comment>, c: Comment, id: CommentId)
    ensures CommentAt(cs, id) < |cs| ==> CommentAt(cs + [c], id) == CommentAt(cs, id)
    ensures CommentAt(cs, id) == |cs| ==> CommentAt(cs + [c], id) == if id == c.id then |cs| else |cs| + 1
  {
    if CommentAt(cs, id) < |cs| {
      CommentAtAppend(cs, c, id);
    } else {
      assert forall j | 0 <= j < |cs| :: (cs + [c])[j].id != id;
      assert (cs + [c])[|cs|] == c;
    }
  }

  lemma StepStructured(s: Snapshot, e: Event)
    requires Structured(s) && Accepted(s, e)
    ensures Structured(ApplyEvent(s, e))
  {
    var t := ApplyEvent(s, e);
    if e.body.Subject() == Some(s.review.id) {
      if e.body.CommentCreated? {
        var m :| LocalEvent(s, Meta(e.author, e.ts), m) == Success(e.body);
        CreatedStructured(s, Meta(e.author, e.ts), m, e.body.comment);
      } else {
        OthersKeepShape(s, e);
        SameShape(s, t);
      }
    }
  }

  lemma OthersKeepShape(s: Snapshot, e: Event)
    requires !e.body.CommentCreated?
    ensures var t := ApplyEvent(s, e);
            && |t.comments| == |s.comments| && |t.threads| == |s.threads|
            && (forall i | 0 <= i < |s.comments| ::
               t.comments[i].id == s.comments[i].id && t.comments[i].threadId == s.comments[i].threadId)
            && (forall i | 0 <= i < |s.threads| ::
                  t.threads[i].id == s.threads[i].id && t.threads[i].root == s.threads[i].root
                    && t.threads[i].replies == s.threads[i].replies)
  {
  }

  lemma NothingStructured(s: Snapshot)
    requires s.comments == [] && s.threads == []
    ensures Structured(s)
  {
  }

  lemma AcceptedInit(s: Snapshot, log: seq<Event>)
    requires AcceptedLog(s, log) && log != []
    ensures AcceptedLog(s, log[..|log| - 1]) && Accepted(Fold(s, log[..|log| - 1]), log[|log| - 1])
  {
    hide Fold, Accepted;
    var init := log[..|log| - 1];
    assert forall j | 0 <= j < |init| :: init[..j] == log[..j] && init[j] == log[j];
  }

  /** Thread structure holds after every accepted log that starts from an empty review. */
  lemma {:induction false} LogStructured(s: Snapshot, log: seq<Event>)
    requires s.comments == [] && s.threads == [] && AcceptedLog(s, log)
    ensures Structured(Fold(s, log))
    decreases |log|
  {
    hide ApplyEvent, Structured, Accepted, AcceptedLog;
    if log == [] {
      NothingStructured(s);
    } else {
      var init := log[..|log| - 1];
      AcceptedInit(s, log);
      LogStructured(s, init);
      StepStructured(Fold(s, init), log[|log| - 1]);
    }
  }

  /** What one accepted event may do to the disposition of thread `i`. */
  predicate Lawful(before: Resolution, after: Resolution) {
    && (before.InformationalThread? ==> after == before)
    && (after.DeferredThread? && after != before ==> before.OpenThread?)
    && (after.ResolvedThread? && after != before ==> !before.ResolvedThread?)
    && (after.InformationalThread? ==> before.InformationalThread?)
  }

  lemma {:induction false} DispositionsLawful(s: Snapshot, e: Event)
    requires Structured(s) && Accepted(s, e)
    ensures |s.threads| <= |ApplyEvent(s, e).threads|
    ensures forall i | 0 <= i < |s.threads| ::
              ApplyEvent(s, e).threads[i].id == s.threads[i].id &&
              Lawful(s.threads[i].resolution, ApplyEvent(s, e).threads[i].resolution)
  {
    if e.body.Subject() == Some(s.review.id) {
      match e.body
      case CommentCreated(c) => CreationLawful(s, c);
      case ThreadDeferred(_, id, _, _) => DispositionChecked(s, e);
      case ThreadResolved(_, id) => DispositionChecked(s, e);
      case ThreadUnresolved(_, id) => DispositionChecked(s, e);
      case _ => ThreadsAlone(s, e);
    }
  }

  predicate IsDisposition(body: Body) { body.ThreadDeferred? || body.ThreadResolved? || body.ThreadUnresolved? }

  lemma ThreadsAlone(s: Snapshot, e: Event)
    requires !e.body.CommentCreated? && !IsDisposition(e.body)
    ensures ApplyEvent(s, e).threads == s.threads
  {
  }

  lemma CreationLawful(s: Snapshot, c: Comment)
    ensures |s.threads| <= |Created(s, c).threads|
    ensures forall i | 0 <= i < |s.threads| ::
              Created(s, c).threads[i].id == s.threads[i].id
                && Created(s, c).threads[i].resolution == s.threads[i].resolution
  {
  }

  lemma DispositionChecked(s: Snapshot, e: Event)
    requires IsDisposition(e.body) && Accepted(s, e) && e.body.Subject() == Some(s.review.id)
    ensures |s.threads| == |ApplyEvent(s, e).threads|
    ensures forall i | 0 <= i < |s.threads| ::
              ApplyEvent(s, e).threads[i].id == s.threads[i].id &&
              Lawful(s.threads[i].resolution, ApplyEvent(s, e).threads[i].resolution)
  {
    var m :| LocalEvent(s, Meta(e.author, e.ts), m) == Success(e.body);
    LocalDisposition(s, Meta(e.author, e.ts), m, e.body);
    DispositionWrites(s, e);
  }

  lemma LocalDisposition(s: Snapshot, meta: Meta, m: Mutation, body: Body)
    requires IsDisposition(body) && LocalEvent(s, meta, m) == Success(body)
    ensures HasThread(s, body.threadId)
    ensures var before := s.threads[ThreadAt(s.threads, body.threadId)].resolution;
            && !before.InformationalThread?
            && (body.ThreadDeferred? ==> before.OpenThread?)
            && (body.ThreadResolved? ==> !before.ResolvedThread?)
            && (body.ThreadUnresolved? ==> !before.OpenThread?)
  {
  }

  lemma DispositionWrites(s: Snapshot, e: Event)
    requires IsDisposition(e.body) && HasThread(s, e.body.threadId) && e.body.Subject() == Some(s.review.id)
    ensures var i, t := ThreadAt(s.threads, e.body.threadId), ApplyEvent(s, e).threads;
            && |t| == |s.threads| && t == s.threads[i := s.threads[i].(resolution := t[i].resolution)]
            && (e.body.ThreadDeferred? <==> t[i].resolution.DeferredThread?)
            && (e.body.ThreadResolved? <==> t[i].resolution.ResolvedThread?)
            && (e.body.ThreadUnresolved? <==> t[i].resolution.OpenThread?)
  {
    assert ApplyEnvelope(s, e) == s;
  }

  /** Threads keep their place and id, and an informational one its disposition, through any accepted log. */
  lemma {:induction false} ThreadsPersist(s: Snapshot, log: seq<Event>, n: nat, i: nat)
    requires s.comments == [] && s.threads == [] && AcceptedLog(s, log)
    requires n <= |log| && i < |Fold(s, log[..n]).threads|
    ensures i < |Fold(s, log).threads| && Fold(s, log).threads[i].id == Fold(s, log[..n]).threads[i].id
    ensures Fold(s, log[..n]).threads[i].resolution.InformationalThread?
            <==> Fold(s, log).threads[i].resolution.InformationalThread?
    decreases |log|
  {
    if n == |log| {
      assert log[..n] == log;
    } else {
      hide ApplyEvent, Structured, Accepted, AcceptedLog;
      var init := log[..|log| - 1];
      AcceptedInit(s, log);
      assert init[..n] == log[..n];
      ThreadsPersist(s, init, n, i);
      LogStructured(s, init);
      DispositionsLawful(Fold(s, init), log[|log| - 1]);
    }
  }

  /** Comments never disappear and never move, whatever the log. */
  lemma {:induction false} CommentsPersist(s: Snapshot, log: seq<Event>, n: nat, i: nat)
    requires n <= |log| && i < |Fold(s, log[..n]).comments|
    ensures i < |Fold(s, log).comments| && Fold(s, log).comments[i].id == Fold(s, log[..n]).comments[i].id
    decreases |log|
  {
    if n == |log| {
      assert log[..n] == log;
    } else {
      var init := log[..|log| - 1];
      assert init[..n] == log[..n];
      CommentsPersist(s, init, n, i);
      var now, e := Fold(s, init), log[|log| - 1];
      if !e.body.CommentCreated? {
        OthersKeepShape(now, e);
      } else {
        assert ApplyEnvelope(now, e) == now;
      }
    }
  }
}
