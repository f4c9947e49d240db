/**
 Inspecting and applying suggestions. An application rewrites files and is never replayed: whatever the
 fate of its reply, another one is offered only after a fresh inspection.
 */
module Suggestion {
  import opened Protocol
  import Events

  // ---- the daemon's log, as far as suggestions go ---------------------------

  /** A deleted comment is withdrawn; re-anchoring it can bring it back. */
  datatype Entry =
    | Suggested(comment: CommentId) | Withdrawn(comment: CommentId) | Restored(comment: CommentId)
    | Landed(comment: CommentId) | Unrelated

  /** A suggestion's record: whether its comment is still there, and the newest receipt. */
  datatype Record = Record(live: bool, receipt: Option<Seq>)

  type Records = map<CommentId, Record>

  predicate AtLeast(receipt: Option<Seq>, r: int) { receipt.Some? && r <= receipt.value }

  /** A receipt replaces an unapplied outcome or an older receipt. */
  function Receive(records: Records, c: CommentId, r: Seq): Records {
    if c in records && !AtLeast(records[c].receipt, r) then records[c := records[c].(receipt := Some(r))] else records
  }

  /** Entry `log[n - 1]` carries sequence number `n`. */
  function After(records: Records, e: Entry, n: Seq): Records {
    match e
    case Suggested(c) => if c in records then records else records[c := Record(true, None)]
    case Withdrawn(c) => if c in records then records[c := records[c].(live := false)] else records
    case Restored(c) => if c in records then records[c := records[c].(live := true)] else records
    case Landed(c) => Receive(records, c, n)
    case Unrelated => records
  }

  function RecordsOf(log: seq<Entry>): Records {
    if log == [] then map[] else After(RecordsOf(log[..|log| - 1]), log[|log| - 1], |log|)
  }

  /** What the daemon admits: fresh comment ids, and references to suggestions that exist. */
  predicate Admits(log: seq<Entry>, e: Entry) {
    match e
    case Suggested(c) => c !in RecordsOf(log)
    case Unrelated => true
    case _ => e.comment in RecordsOf(log)
  }

  ghost predicate Lawful(log: seq<Entry>) { forall k | 0 <= k < |log| :: Admits(log[..k], log[k]) }

  predicate LandedAt(log: seq<Entry>, c: CommentId, r: int) { 1 <= r <= |log| && log[r - 1] == Landed(c) }

  // ---- the client -----------------------------------------------------------

  datatype Worktree = Original | Changed | Unavailable | Proposed

  datatype Inspection = Refused | Checked(worktree: Worktree)

  datatype Stage = Idle | Checking(id: nat) | Applying(id: nat) | Uncertain | Rejected

  datatype Panel = Panel(inspection: Option<Inspection>, stage: Stage)

  datatype Status =
    | StatusUnloaded | StatusLoading | StatusReady | StatusStale
    | StatusRejected | StatusApplying | StatusUncertain | StatusApplied

  const BLANK := Panel(None, Idle)
  const READY := Some(Checked(Original))

  function StatusOf(record: Record, panel: Panel): Status {
    if record.receipt.Some? then StatusApplied
    else
      match panel.stage
      case Checking(_) => StatusLoading
      case Applying(_) => StatusApplying
      case Uncertain => StatusUncertain
      case Rejected => StatusRejected
      case Idle =>
        match panel.inspection
        case None => StatusUnloaded
        case Some(Refused) => StatusRejected
        case Some(Checked(Original)) => StatusReady
        case Some(Checked(Changed)) => StatusStale
        case Some(Checked(Unavailable)) => StatusRejected
        case Some(Checked(Proposed)) => StatusUncertain
  }

  datatype Link = Down | Replaying | Up

  datatype Ask = AskPreview(comment: CommentId) | AskApply(comment: CommentId)

  /** An open in flight: what the daemon had shown when it was sent, and the receipts heard since. */
  datatype Opening = Opening(floor: Seq, heard: seq<Heard>)

  datatype Heard = Heard(seqNo: Seq, comment: CommentId)

  /** What an observer of the connection sees. */
  datatype Fact =
    | ApplySent(comment: CommentId, id: nat)
    | PreviewSent(comment: CommentId, id: nat)
    | FoundReady(comment: CommentId, id: nat)

  /** The client beside the log. `installed` is where the last installed snapshot was taken. */
  datatype World = World(
    log: seq<Entry>, link: Link, cursor: Seq, nextRequest: nat, asked: map<nat, Ask>, opening: Option<Opening>,
    installed: Seq,
    records: Option<Records>, panels: map<CommentId, Panel>, trace: seq<Fact>)

  datatype Step =
    | Append(entry: Entry)
    | Deliver
    | Open | OpenOther | OpenFailed | Close
    | SnapshotArrives(at: Seq)
    | Preview(comment: CommentId)
    | Apply(comment: CommentId)
    | Previewed(id: nat, inspection: Inspection, at: Seq, mismatch: bool)
    | Committed(id: nat, seqNo: Seq)
    | Failed(id: nat)
    | Disconnect | RestartDeadline | Reconnect
    | Resubscribe(order: seq<CommentId>)

  function Start(log: seq<Entry>, cursor: Seq): World {
    World(log, Up, cursor, 1, map[], None, 0, None, map[], [])
  }

  function PanelOf(w: World, c: CommentId): Panel { if c in w.panels then w.panels[c] else BLANK }

  function Move(w: World, c: CommentId, stage: Stage): World {
    w.(panels := w.panels[c := PanelOf(w, c).(stage := stage)])
  }

  /** The record an action needs: of a live comment of the open review. */
  predicate Actionable(w: World, c: CommentId) { w.records.Some? && c in w.records.value && w.records.value[c].live }

  function Noted(heard: seq<Heard>, h: Heard): seq<Heard> {
    if exists i :: 0 <= i < |heard| && heard[i].seqNo == h.seqNo then heard else heard + [h]
  }

  function Live(w: World, n: Seq): World
    requires 1 <= n <= |w.log|
  {
    var e := w.log[n - 1];
    w.(opening := if w.opening.Some? && e.Landed?
                  then Some(w.opening.value.(heard := Noted(w.opening.value.heard, Heard(n, e.comment))))
                  else w.opening,
       records := if w.records.Some? then Some(After(w.records.value, e, n)) else None)
  }

  function Send(w: World, ask: Ask): World {
    w.(nextRequest := w.nextRequest + 1, asked := w.asked[w.nextRequest := ask],
       trace := w.trace + [if ask.AskApply? then ApplySent(ask.comment, w.nextRequest)
         else PreviewSent(ask.comment, w.nextRequest)])
  }

  function PreviewSuggestion(w: World, c: CommentId): World {
    if !w.link.Up? || !Actionable(w, c) then w
    else
      var stage := PanelOf(w, c).stage;
      if stage.Checking? || stage.Applying? then w else Send(Move(w, c, Checking(w.nextRequest)), AskPreview(c))
  }

  function ApplySuggestion(w: World, c: CommentId): World {
    if !w.link.Up? || !Actionable(w, c) || StatusOf(w.records.value[c], PanelOf(w, c)) != StatusReady then w
    else Send(Move(w, c, Applying(w.nextRequest)), AskApply(c))
  }

  function Replied(w: World, id: nat): World { w.(asked := w.asked - {id}) }

  /**
   A preview's answer carries the outcome the daemon knew at `at`. One for an unknown comment, or for another
   suggestion, is an error that leaves the request in flight.
   */
  function OnPreviewed(w: World, id: nat, c: CommentId, inspection: Inspection, at: Seq, mismatch: bool): World
    requires at <= |w.log|
  {
    var seen := Replied(w, id).(trace := if Some(inspection) == READY then w.trace + [FoundReady(c, id)] else w.trace);
    if w.records.Some? && (!Actionable(w, c) || mismatch) then w
    else if w.records.None? || c !in w.panels || w.panels[c].stage != Checking(id) then seen
    else
      var known := RecordsOf(w.log[..at]);
      var found := if c in known && known[c].receipt.Some? then Receive(w.records.value, c, known[c].receipt.value)
          else w.records.value;
      seen.(panels := w.panels[c := Panel(Some(inspection), Idle)], records := Some(found))
  }

  function OnApplied(w: World, id: nat, c: CommentId, n: Seq): World
    requires 1 <= n <= |w.log|
  {
    var settled := if w.records.Some? && c in w.panels && w.panels[c].stage == Applying(id) then Move(w, c, Idle)
        else w;
    Live(Replied(settled, id).(cursor := if n > w.cursor then n else w.cursor), n)
  }

  function OnFailed(w: World, id: nat, c: CommentId): World {
    if w.records.None? || c !in w.panels then Replied(w, id)
    else if Actionable(w, c) && w.records.value[c].receipt.Some? then Replied(Move(w, c, Idle), id)
    else if w.panels[c].stage == Applying(id) then Replied(Move(w, c, Uncertain), id)
    else if w.panels[c].stage == Checking(id) then Replied(Move(w, c, Rejected), id)
    else Replied(w, id)
  }

  function Shaken(panels: map<CommentId, Panel>): map<CommentId, Panel> {
    map c | c in panels :: if panels[c].stage.Applying? || panels[c].stage.Checking? then panels[c].(stage := Uncertain)
      else panels[c]
  }

  function PreviewAll(w: World, order: seq<CommentId>): World {
    if order == [] then w else PreviewSuggestion(PreviewAll(w, order[..|order| - 1]), order[|order| - 1])
  }

  /** Recorded receipts newer than the snapshot. */
  function CatchUp(records: Records, heard: seq<Heard>, at: Seq): Records {
    if heard == [] then records
    else
      var init, h := CatchUp(records, heard[..|heard| - 1], at), heard[|heard| - 1];
      if h.seqNo > at then Receive(init, h.comment, h.seqNo) else init
  }

  /** Receipts the old copy holds from beyond the snapshot are carried over. */
  function Carried(records: Records, earlier: Records, at: Seq): Records {
    map c | c in records ::
      if c in earlier && earlier[c].receipt.Some? && earlier[c].receipt.value > at
      then records[c].(receipt := earlier[c].receipt) else records[c]
  }

  /** The records of the snapshot taken at `at`, as installed. */
  function Installed(w: World, at: Seq): Records
    requires w.opening.Some? && at <= |w.log|
  {
    var caughtUp := CatchUp(RecordsOf(w.log[..at]), Events.Sorted(w.opening.value.heard, (h: Heard) => h.seqNo), at);
    if w.records.Some? then Carried(caughtUp, w.records.value, at) else caughtUp
  }

  function Install(w: World, at: Seq): World
    requires w.opening.Some? && at <= |w.log|
  {
    w.(records := Some(Installed(w, at)), panels := if w.records.Some? then w.panels else map[],
       opening := None, installed := at)
  }

  /** The newest point of the log the daemon has shown by broadcast or snapshot. */
  function Seen(w: World): Seq { if w.cursor > w.installed then w.cursor else w.installed }

  /**
   One step of the client, the daemon or the connection; a step the situation rules out changes nothing.
   Broadcasts arrive in order; a snapshot shows at least what the daemon had shown when it was asked for;
   a reply for sequence number n follows the broadcasts below n.
   */
  function Next(w: World, step: Step): World {
    match step
    case Append(e) => if Admits(w.log, e) then w.(log := w.log + [e]) else w
    case Deliver => if w.link.Down? || w.cursor >= |w.log| then w else Live(w.(cursor := w.cursor + 1), w.cursor + 1)
    case Open => if w.link.Up? then w.(opening := Some(Opening(Seen(w), [])), nextRequest := w.nextRequest + 1) else w
    case OpenOther => w.(opening := None)
    case OpenFailed => w.(opening := None)
    case Close => w.(records := None, panels := map[])
    case SnapshotArrives(at) => if w.opening.Some? && w.opening.value.floor <= at <= |w.log| then Install(w, at) else w
    case Preview(c) => PreviewSuggestion(w, c)
    case Apply(c) => ApplySuggestion(w, c)
    case Previewed(id, inspection, at, mismatch) =>
      if id !in w.asked || !w.asked[id].AskPreview? || at > |w.log| then w
      else OnPreviewed(w, id, w.asked[id].comment, inspection, at, mismatch)
    case Committed(id, n) =>
      if id in w.asked && w.asked[id].AskApply? && LandedAt(w.log, w.asked[id].comment, n) && n <= w.cursor + 1
      then OnApplied(w, id, w.asked[id].comment, n) else w
    case Failed(id) => if id in w.asked then OnFailed(w, id, w.asked[id].comment) else w
    case Disconnect => w.(link := Down, panels := Shaken(w.panels), asked := map[], opening := None)
    case RestartDeadline => w.(link := Down, asked := map[], opening := None)
    case Reconnect => if w.link.Down? then w.(link := Replaying) else w
    case Resubscribe(order) =>
      if w.link.Replaying? && (set c | c in order) == (set c | c in w.panels && w.panels[c].stage.Uncertain?)
          then PreviewAll(w.(link := Up), order) else w
  }

  function Run(w: World, steps: seq<Step>): World {
    if steps == [] then w else Next(Run(w, steps[..|steps| - 1]), steps[|steps| - 1])
  }

  // ---- what the log says of a record ----------------------------------------

  /** Every landing in the log is reflected by the record. */
  ghost predicate Covers(records: Records, log: seq<Entry>, upTo: Seq) {
    forall c, r | c in records && r <= upTo && LandedAt(log, c, r) :: AtLeast(records[c].receipt, r)
  }

  ghost predicate Backed(records: Records, log: seq<Entry>) {
    forall c | c in records && records[c].receipt.Some? :: LandedAt(log, c, records[c].receipt.value)
  }

  /** Exactly the landings of the log are reflected. */
  ghost predicate Reflects(records: Records, log: seq<Entry>) {
    Covers(records, log, |log|) && Backed(records, log) && forall c, r | LandedAt(log, c, r) :: c in records
  }

  lemma AfterReflects(records: Records, log: seq<Entry>, e: Entry)
    requires Reflects(records, log) && (e.Landed? ==> e.comment in records)
    ensures Reflects(After(records, e, |log| + 1), log + [e])
  {
    var now, more := After(records, e, |log| + 1), log + [e];
    assert forall c, r :: LandedAt(more, c, r) <==> (r == |more| && e == Landed(c)) || LandedAt(log, c, r);
    assert forall c | c in records && c in now ::
           now[c].receipt == records[c].receipt || (e == Landed(c) && now[c].receipt == Some(|more|));
  }

  lemma EmptyReflects()
    ensures Reflects(map[], [])
  {
  }

  lemma {:induction false} RecordsReflect(log: seq<Entry>)
    requires Lawful(log)
    ensures Reflects(RecordsOf(log), log)
    decreases |log|
  {
    hide Reflects, After;
    if log == [] {
      EmptyReflects();
    } else {
      var init, e := log[..|log| - 1], log[|log| - 1];
      LawfulPrefix(log, |init|);
      RecordsReflect(init);
      assert Admits(log[..|init|], log[|init|]);
      AfterReflects(RecordsOf(init), init, e);
      assert init + [e] == log;
    }
  }

  lemma LawfulPrefix(log: seq<Entry>, k: nat)
    requires Lawful(log) && k <= |log|
    ensures Lawful(log[..k])
  {
    assert forall i | 0 <= i < k :: log[..k][..i] == log[..i] && log[..k][i] == log[i];
  }

  lemma {:induction false} KeysGrow(log: seq<Entry>, a: nat, b: nat)
    requires a <= b <= |log|
    ensures RecordsOf(log[..a]).Keys <= RecordsOf(log[..b]).Keys
    decreases b
  {
    if a < b {
      KeysGrow(log, a, b - 1);
      assert log[..b][..b - 1] == log[..b - 1];
    }
  }

  /** A landing comes after its suggestion. */
  lemma LandsLater(log: seq<Entry>, n: Seq, c: CommentId, r: Seq)
    requires Lawful(log) && 1 <= n <= |log| && log[n - 1] == Suggested(c) && LandedAt(log, c, r)
    ensures r > n
  {
    assert Admits(log[..n - 1], log[n - 1]) && Admits(log[..r - 1], log[r - 1]);
    if r <= n {
      KeysGrow(log, r - 1, n - 1);
    }
  }

  lemma SnapshotReflects(log: seq<Entry>, at: Seq)
    requires Lawful(log) && at <= |log|
    ensures Covers(RecordsOf(log[..at]), log, at) && Backed(RecordsOf(log[..at]), log)
    ensures forall c, r | r <= at && LandedAt(log, c, r) :: c in RecordsOf(log[..at])
    ensures forall c | c in RecordsOf(log[..at]) && RecordsOf(log[..at])[c].receipt.Some? ::
            RecordsOf(log[..at])[c].receipt.value <= at
  {
    LawfulPrefix(log, at);
    RecordsReflect(log[..at]);
    assert forall c, r | r <= at && LandedAt(log, c, r) :: LandedAt(log[..at], c, r);
    assert forall c, r | LandedAt(log[..at], c, r) :: LandedAt(log, c, r);
  }

  // ---- what an observer may conclude ----------------------------------------

  predicate NoApplyFrom(trace: seq<Fact>, c: CommentId, p: nat) {
    forall k | p <= k < |trace| :: !(trace[k].ApplySent? && trace[k].comment == c)
  }

  /** Preview `id` was sent, and no application since. */
  ghost predicate Asked(trace: seq<Fact>, c: CommentId, id: nat) {
    exists p: nat :: p < |trace| && trace[p] == PreviewSent(c, id) && NoApplyFrom(trace, c, p)
  }

  predicate EarnedBy(trace: seq<Fact>, c: CommentId, p: nat, q: nat, id: nat) {
    p < q < |trace| && trace[p] == PreviewSent(c, id) && trace[q] == FoundReady(c, id) && NoApplyFrom(trace, c, p)
  }

  /** A preview sent since the last application came back ready. */
  ghost predicate Earned(trace: seq<Fact>, c: CommentId) {
    exists p: nat, q: nat, id: nat :: EarnedBy(trace, c, p, q, id)
  }

  ghost predicate LawfulTrace(trace: seq<Fact>) {
    forall j | 0 <= j < |trace| && trace[j].ApplySent? :: Earned(trace[..j], trace[j].comment)
  }

  lemma Snoc(trace: seq<Fact>, f: Fact, c: CommentId)
    requires f.ApplySent? ==> f.comment != c
    ensures forall id | Asked(trace, c, id) :: Asked(trace + [f], c, id)
    ensures Earned(trace, c) ==> Earned(trace + [f], c)
    ensures forall id | Asked(trace, c, id) && f == FoundReady(c, id) :: Earned(trace + [f], c)
  {
    var more := trace + [f];
    forall id | Asked(trace, c, id)
      ensures Asked(more, c, id) && (f == FoundReady(c, id) ==> Earned(more, c))
    {
      var p: nat :| p < |trace| && trace[p] == PreviewSent(c, id) && NoApplyFrom(trace, c, p);
      assert more[p] == PreviewSent(c, id) && NoApplyFrom(more, c, p);
      if f == FoundReady(c, id) {
        assert EarnedBy(more, c, p, |trace|, id);
      }
    }
    if Earned(trace, c) {
      var p: nat, q: nat, id: nat :| EarnedBy(trace, c, p, q, id);
      assert EarnedBy(more, c, p, q, id);
    }
  }

  lemma LawfulSnoc(trace: seq<Fact>, f: Fact)
    requires LawfulTrace(trace) && (f.ApplySent? ==> Earned(trace, f.comment))
    ensures LawfulTrace(trace + [f])
  {
    var more := trace + [f];
    assert forall j | 0 <= j <= |trace| :: more[..j] == trace[..j];
    assert trace[..|trace|] == trace;
  }

  // ---- the invariant --------------------------------------------------------

  /** The daemon has shown an application of `c`. */
  ghost predicate Settled(w: World, c: CommentId) { exists r: nat :: r <= Seen(w) && LandedAt(w.log, c, r) }

  predicate HasReceipt(w: World, c: CommentId) {
    w.records.Some? && c in w.records.value && w.records.value[c].receipt.Some?
  }

  /** Without a fresh inspection, a panel that looks ready belongs to a suggestion known to be applied. */
  ghost predicate PanelFine(w: World, c: CommentId)
    requires c in w.panels
  {
    var p := w.panels[c];
    && (p.stage.Checking? ==> Asked(w.trace, c, p.stage.id))
    && (p.inspection == READY && !Earned(w.trace, c) && (p.stage.Idle? || HasReceipt(w, c)) ==> Settled(w, c))
  }

  ghost predicate PanelsFine(w: World) { forall c | c in w.panels :: PanelFine(w, c) }

  ghost predicate OpeningFine(w: World) {
    w.opening.Some? ==>
      && w.installed <= w.opening.value.floor
      && (forall h | h in w.opening.value.heard :: h.seqNo <= w.cursor && LandedAt(w.log, h.comment, h.seqNo))
      && (forall c, r | w.opening.value.floor < r <= w.cursor && LandedAt(w.log, c, r) ::
         Heard(r, c) in w.opening.value.heard)
  }

  ghost predicate RecordsFine(w: World)
    requires w.installed <= |w.log|
  {
    if w.records.Some? then
      && Backed(w.records.value, w.log)
      && Covers(w.records.value, w.log, Seen(w))
      && RecordsOf(w.log[..w.installed]).Keys <= w.records.value.Keys
    else w.panels == map[]
  }

  ghost predicate Invariant(w: World) {
    && Lawful(w.log) && w.cursor <= |w.log| && w.installed <= |w.log|
    && OpeningFine(w) && RecordsFine(w) && PanelsFine(w) && LawfulTrace(w.trace)
  }

  lemma AppendKeeps(w: World, e: Entry)
    requires Invariant(w) && Admits(w.log, e)
    ensures Invariant(w.(log := w.log + [e]))
  {
    var more := w.(log := w.log + [e]);
    assert forall k | 0 <= k <= |w.log| :: more.log[..k] == w.log[..k];
    assert w.log[..|w.log|] == w.log;
    assert forall c, r | r <= |w.log| :: LandedAt(more.log, c, r) <==> LandedAt(w.log, c, r);
    forall c | c in w.panels
      ensures PanelFine(more, c)
    {
      assert PanelFine(w, c);
      if Settled(w, c) {
        var r: nat :| r <= Seen(w) && LandedAt(w.log, c, r);
        assert LandedAt(more.log, c, r);
      }
    }
  }

  // ---- deliveries -----------------------------------------------------------

  predicate Timely(w: World, n: Seq) {
    1 <= n <= |w.log| && n <= w.cursor + 1 && (w.log[n - 1].Landed? || n == w.cursor + 1)
  }

  function Reach(w: World, n: Seq): World { w.(cursor := if n > w.cursor then n else w.cursor) }

  lemma NotedMembers(heard: seq<Heard>, h: Heard)
    requires forall x | x in heard && x.seqNo == h.seqNo :: x == h
    ensures forall x :: x in Noted(heard, h) <==> x in heard || x == h
  {
    if exists i :: 0 <= i < |heard| && heard[i].seqNo == h.seqNo {
      var i :| 0 <= i < |heard| && heard[i].seqNo == h.seqNo;
      assert heard[i] in heard;
    }
  }

  lemma LiveOpening(w: World, n: Seq)
    requires OpeningFine(w) && Timely(w, n)
    ensures OpeningFine(Live(Reach(w, n), n))
  {
    if w.opening.Some? && w.log[n - 1].Landed? {
      NotedMembers(w.opening.value.heard, Heard(n, w.log[n - 1].comment));
    }
  }

  lemma LiveRecords(w: World, n: Seq)
    requires Invariant(w) && Timely(w, n) && w.records.Some?
    ensures var r := After(w.records.value, w.log[n - 1], n);
            Backed(r, w.log) && Covers(r, w.log, Seen(Reach(w, n))) && w.records.value.Keys <= r.Keys
  {
    var e, was := w.log[n - 1], w.records.value;
    var now := After(was, e, n);
    forall c, r | c in now && r <= Seen(Reach(w, n)) && LandedAt(w.log, c, r)
      ensures AtLeast(now[c].receipt, r)
    {
      if c in was {
        assert r <= Seen(w) || r == n;
      } else {
        LandsLater(w.log, n, c, r);
        SnapshotReflects(w.log, w.installed);
      }
    }
  }

  lemma LiveKeeps(w: World, n: Seq)
    requires Invariant(w) && Timely(w, n)
    ensures Invariant(Live(Reach(w, n), n))
  {
    var now := Live(Reach(w, n), n);
    LiveOpening(w, n);
    if w.records.Some? {
      LiveRecords(w, n);
    }
    forall c | c in w.panels
      ensures PanelFine(now, c)
    {
      assert PanelFine(w, c);
      assert Settled(w, c) ==> Settled(now, c);
      if HasReceipt(now, c) && !HasReceipt(w, c) {
        assert LandedAt(w.log, c, n);
      }
    }
  }

  // ---- installing a snapshot ------------------------------------------------

  lemma {:induction false} CatchUpReflects(records: Records, heard: seq<Heard>, at: Seq)
    ensures CatchUp(records, heard, at).Keys == records.Keys
    ensures forall c | c in records && records[c].receipt.Some? ::
            AtLeast(CatchUp(records, heard, at)[c].receipt, records[c].receipt.value)
    ensures forall h | h in heard && h.seqNo > at && h.comment in records ::
            AtLeast(CatchUp(records, heard, at)[h.comment].receipt, h.seqNo)
    ensures forall c | c in records && CatchUp(records, heard, at)[c].receipt != records[c].receipt ::
              CatchUp(records, heard, at)[c].receipt.Some?
                && Heard(CatchUp(records, heard, at)[c].receipt.value, c) in heard
    decreases |heard|
  {
    if heard != [] {
      CatchUpReflects(records, heard[..|heard| - 1], at);
    }
  }

  lemma SortedMembers(heard: seq<Heard>, sorted: seq<Heard>)
    requires multiset(sorted) == multiset(heard)
    ensures forall h :: h in sorted <==> h in heard
  {
    forall h
      ensures h in sorted <==> h in heard
    {
      assert h in sorted <==> h in multiset(sorted);
      assert h in heard <==> h in multiset(heard);
    }
  }

  lemma CaughtUp(w: World, at: Seq)
    requires Invariant(w) && w.opening.Some? && w.opening.value.floor <= at <= |w.log|
    ensures var r := CatchUp(RecordsOf(w.log[..at]), Events.Sorted(w.opening.value.heard, (h: Heard) => h.seqNo), at);
            && r.Keys == RecordsOf(w.log[..at]).Keys && Backed(r, w.log) && Covers(r, w.log, at)
               && Covers(r, w.log, w.cursor)
            && (forall c | c in r && r[c].receipt.Some? :: r[c].receipt.value <= Seen(w.(installed := at)))
  {
    var snap, heard := RecordsOf(w.log[..at]), w.opening.value.heard;
    var sorted := Events.Sorted(heard, (h: Heard) => h.seqNo);
    SnapshotReflects(w.log, at);
    CatchUpReflects(snap, sorted, at);
    SortedMembers(heard, sorted);
    var r := CatchUp(snap, sorted, at);
    forall c, n | c in r && n <= w.cursor && LandedAt(w.log, c, n)
      ensures AtLeast(r[c].receipt, n)
    {
      if n > at {
        assert Heard(n, c) in heard;
      }
    }
  }

  lemma InstalledReflects(w: World, at: Seq)
    requires Invariant(w) && w.opening.Some? && w.opening.value.floor <= at <= |w.log|
    ensures var r := Installed(w, at);
            && Backed(r, w.log) && Covers(r, w.log, Seen(w.(installed := at))) && r.Keys == RecordsOf(w.log[..at]).Keys
            && (forall c | c in r && r[c].receipt.Some? ::
               r[c].receipt.value <= Seen(w.(installed := at)) || HasReceipt(w, c))
  {
    CaughtUp(w, at);
  }

  /** No receipt is lost or replaced by an older one when a snapshot is installed over the open review. */
  lemma {:induction false} InstallKeepsReceipts(w: World, at: Seq, c: CommentId)
    requires Invariant(w) && w.opening.Some? && w.opening.value.floor <= at <= |w.log|
    requires HasReceipt(w, c) && c in Installed(w, at)
    ensures AtLeast(Installed(w, at)[c].receipt, w.records.value[c].receipt.value)
  {
    CaughtUp(w, at);
  }

  lemma InstallKeeps(w: World, at: Seq)
    requires Invariant(w) && w.opening.Some? && w.opening.value.floor <= at <= |w.log|
    ensures Invariant(Install(w, at))
  {
    var now := Install(w, at);
    InstalledReflects(w, at);
    forall c | c in now.panels
      ensures PanelFine(now, c)
    {
      assert PanelFine(w, c);
      assert Settled(w, c) ==> Settled(now, c);
      if HasReceipt(now, c) && !HasReceipt(w, c) {
        assert LandedAt(w.log, c, now.records.value[c].receipt.value);
      }
    }
  }

  // ---- previews and applications --------------------------------------------

  lemma PreviewKeeps(w: World, c: CommentId)
    requires Invariant(w)
    ensures Invariant(PreviewSuggestion(w, c))
  {
    var now := PreviewSuggestion(w, c);
    if now.trace != w.trace {
      var f := PreviewSent(c, w.nextRequest);
      LawfulSnoc(w.trace, f);
      assert now.trace[|w.trace|] == f && NoApplyFrom(now.trace, c, |w.trace|);
      forall d | d in now.panels
        ensures PanelFine(now, d)
      {
        Snoc(w.trace, f, d);
        if d in w.panels {
          assert PanelFine(w, d);
        }
        assert Settled(w, d) ==> Settled(now, d);
      }
    }
  }

  lemma {:induction false} PreviewAllKeeps(w: World, order: seq<CommentId>)
    requires Invariant(w)
    ensures Invariant(PreviewAll(w, order))
    decreases |order|
  {
    if order != [] {
      PreviewAllKeeps(w, order[..|order| - 1]);
      PreviewKeeps(PreviewAll(w, order[..|order| - 1]), order[|order| - 1]);
    }
  }

  /** Only a freshly inspected suggestion is ready to apply. */
  lemma {:induction false} ReadyIsEarned(w: World, c: CommentId)
    requires Invariant(w) && Actionable(w, c) && StatusOf(w.records.value[c], PanelOf(w, c)) == StatusReady
    ensures c in w.panels && Earned(w.trace, c)
  {
    assert c in w.panels && PanelFine(w, c);
    assert !Settled(w, c);
  }

  lemma ApplyKeeps(w: World, c: CommentId)
    requires Invariant(w)
    ensures Invariant(ApplySuggestion(w, c))
  {
    var now := ApplySuggestion(w, c);
    if now.trace != w.trace {
      var f := ApplySent(c, w.nextRequest);
      ReadyIsEarned(w, c);
      LawfulSnoc(w.trace, f);
      forall d | d in now.panels
        ensures PanelFine(now, d)
      {
        assert PanelFine(w, d);
        assert Settled(w, d) ==> Settled(now, d);
        if d != c {
          Snoc(w.trace, f, d);
        }
      }
    }
  }

  lemma PreviewedTrace(w: World, id: nat, c: CommentId, ready: bool)
    requires Invariant(w)
    ensures var trace := if ready then w.trace + [FoundReady(c, id)] else w.trace;
            && LawfulTrace(trace)
            && forall d | d in w.panels ::
                 && (w.panels[d].stage.Checking? ==> Asked(trace, d, w.panels[d].stage.id))
                 && (Earned(w.trace, d) ==> Earned(trace, d))
                 && (d == c && ready && w.panels[d].stage == Checking(id) ==> Earned(trace, d))
  {
    var f := FoundReady(c, id);
    if ready {
      LawfulSnoc(w.trace, f);
    }
    forall d | d in w.panels
      ensures var trace := if ready then w.trace + [f] else w.trace;
              && (w.panels[d].stage.Checking? ==> Asked(trace, d, w.panels[d].stage.id))
              && (Earned(w.trace, d) ==> Earned(trace, d))
              && (d == c && ready && w.panels[d].stage == Checking(id) ==> Earned(trace, d))
    {
      assert PanelFine(w, d);
      Snoc(w.trace, f, d);
    }
  }

  /** A receipt the log backs may be taken over at any time. */
  lemma ReceiveFine(records: Records, log: seq<Entry>, upTo: Seq, c: CommentId, r: Seq)
    requires Backed(records, log) && Covers(records, log, upTo) && LandedAt(log, c, r)
    ensures Backed(Receive(records, c, r), log) && Covers(Receive(records, c, r), log, upTo)
    ensures Receive(records, c, r).Keys == records.Keys && forall d | d in records && d != c ::
            Receive(records, c, r)[d] == records[d]
  {
  }

  /** The answer is seen. */
  lemma AnswerSeen(w: World, id: nat, c: CommentId, ready: bool)
    requires Invariant(w)
    ensures Invariant(Replied(w, id).(trace := if ready then w.trace + [FoundReady(c, id)] else w.trace))
  {
    var now := Replied(w, id).(trace := if ready then w.trace + [FoundReady(c, id)] else w.trace);
    PreviewedTrace(w, id, c, ready);
    hide LawfulTrace, Asked, Earned;
    forall d | d in w.panels
      ensures PanelFine(now, d)
    {
      assert PanelFine(w, d);
      assert Settled(w, d) ==> Settled(now, d);
    }
  }

  /** The answer is the awaited one: the inspection is new, and earned if it is ready. */
  lemma AnswerTaken(w: World, c: CommentId, inspection: Inspection, records: Records)
    requires Invariant(w) && w.records.Some? && c in w.panels && (Some(inspection) == READY ==> Earned(w.trace, c))
    requires Backed(records, w.log) && Covers(records, w.log, Seen(w)) && records.Keys == w.records.value.Keys
    requires forall d | d in records && d != c :: records[d] == w.records.value[d]
    ensures Invariant(w.(panels := w.panels[c := Panel(Some(inspection), Idle)], records := Some(records)))
  {
    hide Backed, Covers, LawfulTrace, Asked, Earned, RecordsOf;
    var now := w.(panels := w.panels[c := Panel(Some(inspection), Idle)], records := Some(records));
    forall d | d in now.panels
      ensures PanelFine(now, d)
    {
      assert PanelFine(w, d);
      assert Settled(w, d) ==> Settled(now, d);
    }
  }

  lemma PreviewedKeeps(w: World, id: nat, c: CommentId, inspection: Inspection, at: Seq, mismatch: bool)
    requires Invariant(w) && at <= |w.log|
    ensures Invariant(OnPreviewed(w, id, c, inspection, at, mismatch))
  {
    var ready, known := Some(inspection) == READY, RecordsOf(w.log[..at]);
    var seen := Replied(w, id).(trace := if ready then w.trace + [FoundReady(c, id)] else w.trace);
    AnswerSeen(w, id, c, ready);
    if Actionable(w, c) && !mismatch && c in w.panels && w.panels[c].stage == Checking(id) {
      PreviewedTrace(w, id, c, ready);
      SnapshotReflects(w.log, at);
      if c in known && known[c].receipt.Some? {
        var r := known[c].receipt.value;
        ReceiveFine(w.records.value, w.log, Seen(w), c, r);
        AnswerTaken(seen, c, inspection, Receive(w.records.value, c, r));
      } else {
        AnswerTaken(seen, c, inspection, w.records.value);
      }
    }
  }

  lemma AppliedKeeps(w: World, id: nat, c: CommentId, n: Seq)
    requires Invariant(w) && LandedAt(w.log, c, n) && n <= w.cursor + 1
    ensures Invariant(OnApplied(w, id, c, n))
  {
    hide Invariant;
    var live := Live(Reach(w, n), n);
    LiveKeeps(w, n);
    if w.records.Some? && c in w.panels && w.panels[c].stage == Applying(id) {
      assert Settled(live, c);
      MoveKeeps(live, c, Idle);
      RepliedKeeps(Move(live, c, Idle), id);
      assert OnApplied(w, id, c, n) == Replied(Move(live, c, Idle), id);
    } else {
      RepliedKeeps(live, id);
      assert OnApplied(w, id, c, n) == Replied(live, id);
    }
  }

  lemma MoveKeeps(w: World, c: CommentId, stage: Stage)
    requires Invariant(w) && c in w.panels && !stage.Checking? && (stage.Idle? ==> HasReceipt(w, c) || Settled(w, c))
    ensures Invariant(Move(w, c, stage))
  {
    var now := Move(w, c, stage);
    forall d | d in now.panels
      ensures PanelFine(now, d)
    {
      assert PanelFine(w, d);
      assert Settled(w, d) ==> Settled(now, d);
    }
  }

  lemma FailedKeeps(w: World, id: nat, c: CommentId)
    requires Invariant(w)
    ensures Invariant(OnFailed(w, id, c))
  {
    RepliedKeeps(w, id);
    if w.records.Some? && c in w.panels {
      if Actionable(w, c) && w.records.value[c].receipt.Some? {
        MoveKeeps(w, c, Idle);
        RepliedKeeps(Move(w, c, Idle), id);
      } else {
        MoveKeeps(w, c, Uncertain);
        MoveKeeps(w, c, Rejected);
        RepliedKeeps(Move(w, c, Uncertain), id);
        RepliedKeeps(Move(w, c, Rejected), id);
      }
    }
  }

  lemma DisconnectKeeps(w: World)
    requires Invariant(w)
    ensures Invariant(Next(w, Disconnect)) && Invariant(Next(w, RestartDeadline))
  {
    var a, b := Next(w, Disconnect), Next(w, RestartDeadline);
    forall d | d in w.panels
      ensures PanelFine(a, d) && PanelFine(b, d)
    {
      assert PanelFine(w, d);
      assert Settled(w, d) ==> Settled(a, d) && Settled(b, d);
    }
  }

  lemma OtherwiseKeeps(w: World, step: Step)
    requires Invariant(w) && (step.Open? || step.OpenOther? || step.OpenFailed? || step.Close? || step.Reconnect?)
    ensures Invariant(Next(w, step))
  {
    var now := Next(w, step);
    forall d | d in now.panels
      ensures PanelFine(now, d)
    {
      assert PanelFine(w, d);
      assert Settled(w, d) ==> Settled(now, d);
    }
  }

  lemma RepliedKeeps(w: World, id: nat)
    requires Invariant(w)
    ensures Invariant(Replied(w, id))
  {
    forall d | d in w.panels
      ensures PanelFine(Replied(w, id), d)
    {
      assert PanelFine(w, d);
      assert Settled(w, d) ==> Settled(Replied(w, id), d);
    }
  }

  lemma ResubscribeKeeps(w: World, order: seq<CommentId>)
    requires Invariant(w)
    ensures Invariant(Next(w, Resubscribe(order)))
  {
    var up := w.(link := Up);
    forall d | d in w.panels
      ensures PanelFine(up, d)
    {
      assert PanelFine(w, d);
      assert Settled(w, d) ==> Settled(up, d);
    }
    PreviewAllKeeps(up, order);
  }

  lemma NextKeeps(w: World, step: Step)
    requires Invariant(w)
    ensures Invariant(Next(w, step))
  {
    hide Invariant, OnPreviewed, OnApplied, OnFailed, PreviewSuggestion, ApplySuggestion, Install;
    match step
    case Append(e) => if Admits(w.log, e) { AppendKeeps(w, e); }
    case Deliver => if !w.link.Down? && w.cursor < |w.log| { LiveKeeps(w, w.cursor + 1); }
    case SnapshotArrives(at) => if w.opening.Some? && w.opening.value.floor <= at <= |w.log| { InstallKeeps(w, at); }
    case Preview(c) => PreviewKeeps(w, c);
    case Apply(c) => ApplyKeeps(w, c);
    case Previewed(id, inspection, at, mismatch) =>
      if id in w.asked && at <= |w.log| { PreviewedKeeps(w, id, w.asked[id].comment, inspection, at, mismatch); }
    case Committed(id, n) =>
      if id in w.asked && LandedAt(w.log, w.asked[id].comment, n)
          && n <= w.cursor + 1 { AppliedKeeps(w, id, w.asked[id].comment, n); }
    case Failed(id) => if id in w.asked { FailedKeeps(w, id, w.asked[id].comment); }
    case Disconnect => DisconnectKeeps(w);
    case RestartDeadline => DisconnectKeeps(w);
    case Resubscribe(order) => ResubscribeKeeps(w, order);
    case _ => OtherwiseKeeps(w, step);
  }

  lemma {:induction false} RunKeeps(log: seq<Entry>, cursor: Seq, steps: seq<Step>)
    requires Lawful(log) && cursor <= |log|
    ensures Invariant(Run(Start(log, cursor), steps))
    decreases |steps|
  {
    if steps != [] {
      RunKeeps(log, cursor, steps[..|steps| - 1]);
      NextKeeps(Run(Start(log, cursor), steps[..|steps| - 1]), steps[|steps| - 1]);
    }
  }

  // ---- the theorems ---------------------------------------------------------

  /**
   Between two applications sent for one comment there is a preview, sent after the first and found ready
   before the second: across lost replies, disconnects, restarts, and closing and reopening the review.
   */
  lemma {:induction false} NeverReplayed(log: seq<Entry>, cursor: Seq, steps: seq<Step>, i: nat, j: nat)
    requires Lawful(log) && cursor <= |log|
    requires var trace := Run(Start(log, cursor), steps).trace;
             i < j < |trace| && trace[i].ApplySent? && trace[j].ApplySent? && trace[i].comment == trace[j].comment
    ensures var trace := Run(Start(log, cursor), steps).trace;
            exists p: nat, q: nat, id: nat ::
              i < p < q < j && trace[p] == PreviewSent(trace[j].comment, id)
              && trace[q] == FoundReady(trace[j].comment, id)
  {
    RunKeeps(log, cursor, steps);
    var trace := Run(Start(log, cursor), steps).trace;
    var c := trace[j].comment;
    assert Earned(trace[..j], c);
    var p: nat, q: nat, id: nat :| EarnedBy(trace[..j], c, p, q, id);
    assert trace[..j][i] == trace[i];
    assert i < p < q < j && trace[p] == PreviewSent(c, id) && trace[q] == FoundReady(c, id);
  }

  /** No step downgrades a receipt or replaces it by an older one. */
  lemma {:induction false} ReceiptsNeverGoBack(log: seq<Entry>, cursor: Seq, steps: seq<Step>, step: Step, c: CommentId)
    requires Lawful(log) && cursor <= |log|
    requires var w := Run(Start(log, cursor), steps);
             HasReceipt(w, c) && Next(w, step).records.Some? && c in Next(w, step).records.value
    ensures var w := Run(Start(log, cursor), steps);
            AtLeast(Next(w, step).records.value[c].receipt, w.records.value[c].receipt.value)
  {
    RunKeeps(log, cursor, steps);
    var w := Run(Start(log, cursor), steps);
    match step
    case SnapshotArrives(at) => if w.opening.Some?
        && w.opening.value.floor <= at <= |w.log| { InstallKeepsReceipts(w, at, c); }
    case Resubscribe(order) => PreviewsLeaveRecords(w.(link := Up), order);
    case _ => StepKeepsReceipts(w, step, c);
  }

  lemma ReceiveGrows(records: Records, c: CommentId, r: Seq, d: CommentId)
    requires d in records && records[d].receipt.Some?
    ensures AtLeast(Receive(records, c, r)[d].receipt, records[d].receipt.value)
  {
  }

  lemma AfterGrows(records: Records, e: Entry, n: Seq, c: CommentId)
    requires c in records && records[c].receipt.Some?
    ensures c in After(records, e, n) && AtLeast(After(records, e, n)[c].receipt, records[c].receipt.value)
  {
  }

  lemma StepKeepsReceipts(w: World, step: Step, c: CommentId)
    requires HasReceipt(w, c) && !step.SnapshotArrives? && !step.Resubscribe? && !step.Close?
    ensures var now := Next(w, step);
            now.records.Some? && c in now.records.value
              && AtLeast(now.records.value[c].receipt, w.records.value[c].receipt.value)
  {
    match step
    case Deliver => if w.cursor < |w.log| { AfterGrows(w.records.value, w.log[w.cursor], w.cursor + 1, c); }
    case Committed(id, n) => if 1 <= n <= |w.log| { AfterGrows(w.records.value, w.log[n - 1], n, c); }
    case Previewed(id, inspection, at, mismatch) =>
      if id in w.asked && at <= |w.log| {
        var d, known := w.asked[id].comment, RecordsOf(w.log[..at]);
        if d in known && known[d].receipt.Some? { ReceiveGrows(w.records.value, d, known[d].receipt.value, c); }
      }
    case _ =>
  }

  lemma {:induction false} PreviewsLeaveRecords(w: World, order: seq<CommentId>)
    ensures PreviewAll(w, order).records == w.records
    decreases |order|
  {
    if order != [] {
      PreviewsLeaveRecords(w, order[..|order| - 1]);
    }
  }

  /** Every application the daemon has shown is reflected by the record of the open review. */
  lemma {:induction false} ShownApplicationsAreRecorded(log: seq<Entry>, cursor: Seq, steps: seq<Step>, c: CommentId,
                                                        r: Seq)
    requires Lawful(log) && cursor <= |log|
    requires var w := Run(Start(log, cursor), steps);
             w.records.Some? && c in w.records.value && r <= Seen(w) && LandedAt(w.log, c, r)
    ensures AtLeast(Run(Start(log, cursor), steps).records.value[c].receipt, r)
  {
    RunKeeps(log, cursor, steps);
  }
}
