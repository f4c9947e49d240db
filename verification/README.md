# A model of the nits client

nits is a code-review client: a state machine without clock or socket that takes inputs and returns
effects. This project models its hard parts in Dafny 4.11 and proves what they promise over whole runs.
`dafny verify dfyconfig.toml` checks everything.

**Replication** (`Protocol`, `Events`, `SnapshotStore`, `Replay`, `Threads`, `Client`, `ClientCore`,
`Session`, `ShownIsOverlay`, `AtMostOnce`, `Convergence`, `Landing`, `ReferenceRuns`, `Receipts`,
`Levels`, `Openings`, `OpeningRuns`, `Redelivery`, `Settling`, `Progress`, `EventLaws`, `ClientLaws`). `Events` folds
committed events into a review snapshot; `SnapshotStore` does it in place. `Client` gives every
replication step as a function of the state, and the class in `ClientCore` performs the same steps by
changing fields. `Session` composes the client with a daemon, an append-only log and a connection that
can drop at any moment. Its assumptions: each connection delivers in order; the gap after the cursor is
replayed before the subscription is confirmed; a `Committed` response for sequence number n is not
delivered before the broadcasts below n; `Restarting` means the request was not admitted; the echo of a
mutation concerns that mutation's review and is a target refresh only if the mutation was one.

**Uncertain writes** (`Creation`, `CreationGuard`, `CreationLaws`, `CreationDesk`, `Suggestion`, `SuggestionLaws`,
`SuggestionDesk`). Review creation and
suggestion application, with the observable trace of what was sent and answered. The two desks change
their fields in place and keep the invariants proved over the runs. `Suggestion` assumes that broadcasts arrive in order, that a snapshot shows at
least what broadcasts and earlier snapshots had shown when it was requested, and that a reply for
sequence number n follows the broadcasts below n.

**Content** (`Recency`, `Cache`, `DiskTier`, `DiskRuns`, `DiskContents`, `Fetch`, `FetchLaws`, `FetchDesk`). `Recency` is the plain
list both cache tiers refine; `Cache` and `DiskTier` hold the map-plus-tick classes; `Fetch` is the
scheduler of loads and requests.

**Framing and views** (`Delivery`, `WindowedDiff`, `DiffLaws`), **publish order** (`PublishOrder`), **key text**
(`KeyText`, `KeyLaws`).

The modules named `Laws` say what each operation does to the state field by field, in terms of their own; the
other theorems say what runs keep and what they can go on to do.

Four promises hold only under a condition. Each has a run in which it fails and the condition under which
it holds:

- creation never writes blindly: exactly when no "not found" numbered before the last write is accepted
  (`CreationGuard.SafeExactlyWithoutStale`; it fails in `Creation.BlindRewriteExists`);
- the landed reference is the fold of the log: exactly when no carried receipt lies beyond both cursors,
  which only a preview can cause (`Openings.ReferenceLandsExactly`; `OpeningRuns.PreviewOvershoots`);
- an ordinary open catches up: it folds in exactly the revision events it missed
  (`Openings.OrdinaryOpenInstalls`), which is the fold of the log when nothing else was missed, and is not
  when a comment was (`Openings.GapCommentIsMissed`; `OpeningRuns.OlderSnapshotMissesComment`). The comment
  in the code at lib.rs:3545-3557 speaks of revision events only; an older snapshot of an ordinary open
  misses the others;
- the host holds every indexed key: exactly when every load answer comes while its key is still there
  (`DiskRuns.HostHoldsIndex`; `DiskRuns.IndexMayOutliveHost`).

## Model

| member | source | states |
|---|---|---|
| `Events.InsertAscending` | crates/nits-client-core/src/events.rs:314-327 | Inserting a request or checkpoint by its durable number keeps the list ascending. |
| `Events.Sorted` | crates/nits-client-core/src/events.rs:314-327 | Sorting by number yields an ascending list with the same elements, none lost or doubled. |
| `Events.FoldConcat` | crates/nits-client-core/src/events.rs:282-336 | Folding a log in two stretches is folding it whole. |
| `SnapshotStore.Store.ApplyEvent` | crates/nits-client-core/src/events.rs:282-336 | Applying an event in place leaves exactly the folded snapshot: receipts, requests and checkpoints from the envelope, then the body. |
| `SnapshotStore.Store.ApplyBody` | crates/nits-client-core/src/events.rs:344-538 | Each arm of the in-place match writes exactly the fields the fold writes; foreign events write nothing. |
| `SnapshotStore.Store.Create` | crates/nits-client-core/src/events.rs:376-402 | A known comment id changes nothing; a new one is appended, leaves a suggestion record if it is one, and joins its thread or opens it. |
| `SnapshotStore.Store.RetainOtherMarks` | crates/nits-client-core/src/events.rs:481-508 | The viewed marks of other keys are kept in order. |
| `Replay.EventIsOps` | crates/nits-client-core/src/events.rs:282-538 | Every event is a sequence of elementary writes and additions, the same one against every snapshot of its review. |
| `Replay.WriteMovesLast` | crates/nits-client-core/src/events.rs:344-538 | A write whose field no later operation writes can be moved to the end of the sequence. |
| `Replay.OpsAbsorb` | crates/nits-client-core/src/events.rs:282-538 | Repeating a whole grounded sequence of operations after itself changes nothing. |
| `Replay.ReplayAbsorbed` | crates/nits-client-core/src/events.rs:282-538 | For every log in which nothing is referred to before its creation and all k <= m <= n, folding `log[k..n]` over the state after `log[..m]` is exactly the state after `log[..n]`, list orders included. |
| `Replay.UngroundedReplayDiffers` | crates/nits-client-core/src/events.rs:403-415 | The hypothesis is needed: an edit logged before its comment makes a replay differ. |
| `Replay.RefreshesWait` | crates/nits-client-core/src/events.rs:344-538 | An event folded in below held-back refreshes equals the event folded in after them. |
| `Replay.HoldBackTransparent` | crates/nits-client-core/src/events.rs:344-538 | Moving all target refreshes of a log behind its other events leaves the fold unchanged. |
| `Threads.LogStructured` | crates/nits-client-core/src/events.rs:71-276 | Over every log accepted event by event: comment ids are unique, and every comment sits in exactly one thread exactly once, the one it names. |
| `Threads.ThreadIdsUnique` | crates/nits-client-core/src/events.rs:64-66 | No two threads of a structured review share an id. |
| `Threads.DispositionsLawful` | crates/nits-client-core/src/events.rs:179-236 | An accepted event changes no informational thread, defers only open ones and resolves only unresolved ones. |
| `Threads.ThreadsPersist` | crates/nits-client-core/src/events.rs:71-276 | Threads keep place and id through any accepted log, and informational ones stay informational. |
| `Threads.CommentsPersist` | crates/nits-client-core/src/events.rs:376-432 | Comments never disappear or move, whatever the log. |
| `EventLaws.CommentWrites` | crates/nits-client-core/src/events.rs:404-437 | An edit replaces exactly the text and the edited time of its comment, a deletion its state, a re-anchoring anchor and state; an unknown comment changes nothing. |
| `EventLaws.DispositionWrites` | crates/nits-client-core/src/events.rs:439-477 | A deferral, resolution or reopening writes reason, link, actor and time to its thread and moves no other. |
| `EventLaws.ReviewWrites` | crates/nits-client-core/src/events.rs:351-375 | Title and status, resolved targets, or the refs of one repository are replaced as the event says, and nothing else. |
| `EventLaws.CreationAppends` | crates/nits-client-core/src/events.rs:376-402 | A new comment is appended as it is, leaves a record with its patch if it is a suggestion, and opens its thread or joins the end of the one it names. |
| `EventLaws.EnvelopeRecords` | crates/nits-client-core/src/events.rs:314-333 | A request or checkpoint is kept once, under the number, author and time of its event, the list ascending. |
| `EventLaws.LandingRecords` | crates/nits-client-core/src/events.rs:286-312 | A landing leaves a receipt with its number, time, author and blob, unless the record holds one as new. |
| `EventLaws.ViewedMarks` | crates/nits-client-core/src/events.rs:479-508 | Marking moves the file's mark to the end with the new content, unmarking removes it, other marks keep their order. |
| `EventLaws.OthersPass` | crates/nits-client-core/src/events.rs:516-536 | Events of other reviews and of the review list change nothing. |
| `EventLaws.AuthorWrites` | crates/nits-client-core/src/events.rs:151-178 | Only the author edits or deletes; who may not is told why, and an accepted change lands on that comment alone. |
| `EventLaws.DispositionTried` | crates/nits-client-core/src/events.rs:179-233 | A disposition is accepted exactly from the states that allow it, with the right error otherwise, and writes that thread alone. |
| `EventLaws.CommentTried` | crates/nits-client-core/src/events.rs:91-150 | An added comment stands live in a thread of its own id; a reply takes anchor, state and context of the root; duplicates and unknown threads are refused. |
| `EventLaws.ReviewTried` | crates/nits-client-core/src/events.rs:234-275 | Title and status, or one ref of one known repository, are replaced; an unknown repository is refused. |
| `ClientCoreModule.ClientCore.RebaseShown` | crates/nits-client-core/src/lib.rs:3456-3498 | The displayed snapshot becomes the pending bodies folded in send order over the confirmed one; without an open review nothing changes. |
| `ClientCoreModule.ClientCore.RetirePending` | crates/nits-client-core/src/lib.rs:3500-3505 | Exactly the entries of one client sequence number leave, in order, and the result says whether any did. |
| `ClientCoreModule.ClientCore.Close` | crates/nits-client-core/src/lib.rs:3508-3533 | Closing drops the snapshots, the draft, held-back events and the pending list, and nothing else. |
| `ClientCoreModule.ClientCore.Issue` | crates/nits-client-core/src/lib.rs:3651-3676 | A request takes a fresh id; an open becomes the latest open and starts recording. |
| `ClientCoreModule.ClientCore.Mutate` | crates/nits-client-core/src/lib.rs:3430-3450 | An optimistic mutation joins the pending list, is sent under a fresh client sequence number and is shown at once. |
| `ClientCoreModule.ClientCore.CatchUp` | crates/nits-client-core/src/lib.rs:3549-3557 | Recorded events newer than the snapshot are folded in, in order. |
| `ClientCoreModule.ClientCore.CarryReceipts` | crates/nits-client-core/src/lib.rs:3572-3586 | Receipts from beyond the snapshot are carried over, record by record. |
| `ClientCoreModule.ClientCore.Install` | crates/nits-client-core/src/lib.rs:3538-3600 | Installing catches up, carries receipts over, keeps pending entries of the same review only and rebases. |
| `ClientCoreModule.ClientCore.Land` | crates/nits-client-core/src/reference.rs:41-61 | Recorded events newer than the running cursor are folded in; a deletion closes the review. |
| `ClientCoreModule.ClientCore.Apply` | crates/nits-client-core/src/lib.rs:4571-4796 | A committed event is recorded for open requests, retires its own pending entry, is held back under a draft or folded in. |
| `ClientCoreModule.ClientCore.CloseDraft` | crates/nits-client-core/src/lib.rs:4808-4829 | Held-back events are applied in arrival order once the draft is gone. |
| `ClientCoreModule.ClientCore.ServerEvent` | crates/nits-client-core/src/lib.rs:3988-4032 | A broadcast is taken exactly when it is newer than the cursor and the connection state admits it; otherwise nothing changes. |
| `ClientCoreModule.ClientCore.ServerCommitted` | crates/nits-client-core/src/lib.rs:4514-4536 | Whichever of response and broadcast comes first applies the event; the other only retires the entry. |
| `ClientCoreModule.ClientCore.ServerError` | crates/nits-client-core/src/lib.rs:3850-3985 | A refusal marks the entry for resending, an interruption marks it uncertain, any other error retires it. |
| `ClientCoreModule.ClientCore.ServerSnapshot` | crates/nits-client-core/src/lib.rs:4342-4364 | Only the newest open for the named review installs. |
| `ClientCoreModule.ClientCore.ServerSubscribed` | crates/nits-client-core/src/lib.rs:4237-4276 | The cursor becomes the later one and exactly the entries refused admission are resent, in order, under fresh ids. |
| `ClientCoreModule.ClientCore.TransportDisconnected` | crates/nits-client-core/src/lib.rs:3703-3735 | The cursor survives, nothing stays in flight, unanswered mutations become uncertain. |
| `ShownIsOverlay.ShownEqualsConfirmedPlusPending` | crates/nits-client-core/src/lib.rs:3430-3505 | In every run of client, daemon and lossy connection the displayed snapshot is the pending bodies folded in send order over the confirmed one. |
| `AtMostOnce.CommittedAtMostOnce` | crates/nits-client-core/src/lib.rs:3925-3959 | In every run, through disconnects, restarts and resends, the log never holds two events with one client sequence number of this client. |
| `AtMostOnce.SubscribedKeeps` | crates/nits-client-core/src/lib.rs:4247-4269 | Resending on subscription keeps every sequence number sent at most once and uncommitted while it is on its way. |
| `Settling.MutationShows` | crates/nits-client-core/src/lib.rs:3430-3450 | In every run a mutation of the open review joins the end of the pending list, is shown over what was shown, and is sent under fresh numbers. |
| `Redelivery.PendingStays` | crates/nits-client-core/src/lib.rs:3430-3505 | In every run a pending entry stays through each step with its body and time, unless it is answered, its review is closed or replaced, or the subscription sends it again. |
| `Redelivery.RefusedIsResent` | crates/nits-client-core/src/lib.rs:4247-4269 | In every run a refused mutation waits unchanged until a confirmed subscription sends it again under a fresh request, or its review goes. |
| `Settling.DeliveredIsRetired` | crates/nits-client-core/src/lib.rs:4571-4600 | In every run no entry is pending whose event was delivered, by broadcast or by response. |
| `Settling.QuietMeansCaughtUp` | crates/nits-client-core/src/lib.rs:3988-4032 | When everything logged was broadcast and delivered, the cursor is at the end of the log, only uncommitted mutations are pending, and a copy installed as a fold is the fold of the whole log. |
| `Settling.NothingPendingShowsConfirmed` | crates/nits-client-core/src/lib.rs:3456-3498 | In every run with nothing pending the displayed snapshot is the confirmed one. |
| `Progress.MutationSettles` | crates/nits-client-core/src/lib.rs:4514-4536 | From every quiet point of a run a mutation can settle: its effect is confirmed, its entry gone, every other entry in place, the wire quiet again. |
| `Progress.DropIsRecovered` | crates/nits-client-core/src/lib.rs:3703-3735 | From every point of every run a dropped connection can be restored: after the replay the client is subscribed at the end of the log and no refused entry waits any longer. |
| `ClientLaws.ErrorsMark` | crates/nits-client-core/src/lib.rs:3925-3959 | The error reply to an entry marks it for sending again, leaves its outcome open or takes it off the list, by its kind; no other entry moves. |
| `ClientLaws.EchoRetires` | crates/nits-client-core/src/lib.rs:4571-4600 | The own event takes exactly its entry off the list, the others stay in order. |
| `ClientLaws.LateResponseRetires` | crates/nits-client-core/src/lib.rs:4514-4536 | A response that comes after its broadcast applies nothing and takes its entry off the list. |
| `ClientLaws.UntrackedSends` | crates/nits-client-core/src/creation.rs:586-622 | A mutation sent without an entry takes fresh numbers and changes no copy and no entry. |
| `ClientLaws.DropLeaves` | crates/nits-client-core/src/lib.rs:3703-3735 | A lost connection keeps cursor and copies, empties the in-flight table and leaves unanswered entries open. |
| `ClientLaws.ResubscribeMarks` | crates/nits-client-core/src/lib.rs:4237-4276 | A confirmed subscription puts the refused entries, and only those, back to waiting. |
| `ClientLaws.OpenAsks` | crates/nits-client-core/src/lib.rs:3651-3676 | Opening takes a fresh request, becomes the latest open and starts an empty recording, a second one for a reference. |
| `ClientLaws.SnapshotSettles` | crates/nits-client-core/src/lib.rs:3538-3600 | Only the latest open installs; pending entries survive for the same review and for no other; draft, held-back events and the recording go. |
| `ClientLaws.CloseLetsGo` | crates/nits-client-core/src/lib.rs:3508-3533 | Closing lets go of the copies, the draft and everything pending or being opened. |
| `ClientLaws.EventLands` | crates/nits-client-core/src/lib.rs:4571-4796 | A refresh waits under a draft, a deletion closes, every other event of the open review is folded in, and events of other reviews change no copy. |
| `ClientLaws.RecordingsNote` | crates/nits-client-core/src/lib.rs:4571-4600 | Opens in flight note exactly the landings, requests, checkpoints and refreshes of their review, each number once; a reference notes every event of its review. |
| `ClientLaws.DraftOpensAndCloses` | crates/nits-client-core/src/lib.rs:4808-4829 | A draft opens over an open review only, and closing it leaves nothing held back. |
| `ClientLaws.PreviewTakesOver` | crates/nits-client-core/src/suggestion.rs:272-287 | A preview's receipt is taken over when the record holds none or an older one. |
| `Convergence.CursorNeverDecreases` | crates/nits-client-core/src/lib.rs:4009-4032 | From any point of any run to any later one the cursor does not go down. |
| `Convergence.Converges` | crates/nits-client-core/src/lib.rs:4571-4796 | In every run, once the cursor has reached the installed snapshot and no refresh is held back, the confirmed snapshot is the fold of the log up to the cursor. |
| `Convergence.LiveAdvances` | crates/nits-client-core/src/lib.rs:4657-4671 | With held-back refreshes folded in, a live event moves the confirmed state by exactly that event. |
| `Convergence.DraftIsTransparent` | crates/nits-client-core/src/lib.rs:4808-4829 | Events arriving while a draft is open leave, once it closes, the confirmed snapshot they would have left without it. |
| `Landing.LandReaches` | crates/nits-client-core/src/reference.rs:41-61 | Landing over a recording that covers the review reaches the fold at the later of the two cursors. |
| `Landing.MergeAbsorbed` | crates/nits-client-core/src/lib.rs:3572-3586 | Receipts carried over early are absorbed when their own events land. |
| `Receipts.RunSound` | crates/nits-client-core/src/lib.rs:4571-4796 | In every run whose previews report logged receipts: the open copy has one record per comment, each receipt is that of a logged event of its review, and every open in flight has recorded exactly the revision events of its review delivered since its snapshot. |
| `Levels.RunLevel` | crates/nits-client-core/src/lib.rs:3572-3586 | No record of the open copy is older than a landing recorded for the latest open; in runs without previews no receipt is ahead of both the cursor and a snapshot about to be installed. |
| `Openings.ReferenceLands` | crates/nits-client-core/src/reference.rs:21-61 | In every run without previews, however live events interleave with the snapshot, landing leaves the fold of the log up to the later cursor, or no review if its deletion was delivered. |
| `Openings.ReferenceLandsExactly` | crates/nits-client-core/src/reference.rs:21-61 | In every run whose previews report logged receipts the landed review is that fold if and only if no receipt about to be carried over lies beyond both cursors. |
| `OpeningRuns.PreviewOvershoots` | crates/nits-client-core/src/suggestion.rs:272-287 | The condition is needed: a run from the start in which a preview brings a receipt ahead of its event and the next reference is not the fold. |
| `Openings.NoPreviewsNoOvershoot` | crates/nits-client-core/src/lib.rs:3572-3586 | In runs without previews no carried receipt is ever beyond both cursors, whichever kind of open installs. |
| `Openings.OrdinaryOpenInstalls` | crates/nits-client-core/src/lib.rs:3538-3600 | An ordinary open installs the snapshot with exactly the revision events of its review between snapshot and cursor folded in, in order and once, if and only if no carried receipt lies beyond both cursors. |
| `Openings.OpenStartsConvergence` | crates/nits-client-core/src/lib.rs:3538-3600 | When every event of the review between snapshot and cursor is a revision event, the installed copy is the fold of the log up to the later cursor, again exactly without an overshooting receipt, and a convergent stretch starts. |
| `Openings.GapCommentIsMissed` | crates/nits-client-core/src/lib.rs:3545-3557 | The other direction for comments: one created between an older snapshot and the cursor and absent from the snapshot is missing from the installed copy, while the fold has it. |
| `OpeningRuns.OlderSnapshotMissesComment` | crates/nits-client-core/src/lib.rs:3545-3557 | That happens: a run from the start, without previews, in which a comment is delivered ahead of an older ordinary snapshot and is lost with the cursor already past it. |
| `Openings.PreviewRestored` | crates/nits-client-core/src/suggestion.rs:272-287 | A copy that was the fold when a preview brought a receipt early is the fold again once the cursor passes that receipt, unless the review was deleted. |
| `Progress.ReviewOpens` | crates/nits-client-core/src/lib.rs:3538-3600 | From every point of a run without previews, whatever is open, the client can open a review, as a reference or not, and then holds the fold of the whole log for it. |
| `Replay.LateLandingChangesNothing` | crates/nits-client-core/src/suggestion.rs:96-124 | The reply to an application may apply an event a broadcast already applied: over the fold of a log that holds the landing it changes nothing. |
| `Creation.FrozenUntilKnown` | crates/nits-client-core/src/creation.rs:624-853 | While the outcome is open the submission is unchanged; it ends only in success on a review with the same id, workspace, title and targets, or in failure on "not found". |
| `Creation.FrozenThroughout` | crates/nits-client-core/src/creation.rs:551-853 | Through any stretch of a run with an open outcome the submission is the one first sent. |
| `CreationGuard.NeverBlindlyRewrites` | crates/nits-client-core/src/creation.rs:551-853 | In every run in which no stale "not found" is accepted, impostor reports included, a second write of one review id follows a "not found" answer to a lookup sent after the previous write left Pending. Stale means the lookup is numbered before the last write. |
| `CreationGuard.SafeExactlyWithoutStale` | crates/nits-client-core/src/creation.rs:806-853 | That guard is exact: a run and all its continuations stay free of blind rewrites if and only if no stale "not found" is accepted in it. |
| `CreationGuard.UnambiguousIsNeverStale` | crates/nits-client-core/src/creation.rs:776-804 | Runs without a report of a review with the form's id and other inputs while a lookup is in flight meet the guard. |
| `Creation.BlindRewriteExists` | crates/nits-client-core/src/creation.rs:776-804 | The condition is needed: a run with impostor reports in which a stale lookup answer sends the submission again. |
| `CreationDesk.Desk.Submit` | crates/nits-client-core/src/creation.rs:551-584 | Submitting counts a revision and sends the parsed draft, or fails with the draft retained; no write is left unjustified. |
| `CreationDesk.Desk.SendCreation` | crates/nits-client-core/src/creation.rs:586-622 | The submission is frozen and written under a fresh request, only in its own daemon context. |
| `CreationDesk.Desk.WriteFailed` | crates/nits-client-core/src/creation.rs:624-652 | A rejected write leads to a lookup by identity, never to another write. |
| `CreationDesk.Desk.FailureChecked` | crates/nits-client-core/src/creation.rs:654-682 | Only "not found" after a rejected write makes the form editable again. |
| `CreationDesk.Desk.LookupFailed` | crates/nits-client-core/src/creation.rs:806-853 | Only "not found" under a retry sends again; any other answer leaves the attempt interrupted. |
| `CreationDesk.Desk.Found` | crates/nits-client-core/src/creation.rs:776-804 | A reported review of the same inputs is success; one with others interrupts. |
| `CreationDesk.Desk.Refused` | crates/nits-client-core/src/creation.rs:624-652 | The rejection of a write turns the form to a lookup and keeps every write justified. |
| `CreationDesk.Desk.Unanswered` | crates/nits-client-core/src/creation.rs:654-682 | A lookup without a review keeps every write justified unless its "not found" is stale. |
| `CreationDesk.Desk.Disconnected` | crates/nits-client-core/src/creation.rs:695-714 | A lost connection interrupts pending and reconciling attempts and keeps their submission. |
| `CreationDesk.Desk.Reconcile` | crates/nits-client-core/src/creation.rs:716-755 | An interrupted attempt is looked up once subscribed. |
| `CreationLaws.SubmitWrites` | crates/nits-client-core/src/creation.rs:551-622 | A subscribed, attached, well-formed draft of the current context is always written, and as it is: every target, and the title without the whitespace around it; any other submit sends nothing and keeps the draft. |
| `CreationLaws.EditReplaces` | crates/nits-client-core/src/creation.rs:382-434 | An edit replaces the draft of an editable form; a repository named twice fails at once. |
| `CreationLaws.FormsComeAndGo` | crates/nits-client-core/src/creation.rs:281-330 | A form whose attempt is under way is neither discarded nor replaced; a new form takes an unused identity. |
| `CreationLaws.RefusalLooksUp` | crates/nits-client-core/src/creation.rs:624-652 | A refused write becomes a lookup by the review's identity under a fresh request. |
| `CreationLaws.FailedLookups` | crates/nits-client-core/src/creation.rs:654-682 | "Not found" after a refused write makes the draft editable again, under a retry it sends the same submission once more, and every other failure leaves the attempt open with its submission. |
| `CreationLaws.ReportsSettle` | crates/nits-client-core/src/creation.rs:776-804 | A report of the form's review is success if the inputs are the same, else the attempt stays open. |
| `CreationLaws.DisconnectInterrupts` | crates/nits-client-core/src/creation.rs:695-714 | A lost connection loses every answer and interrupts an attempt under way with its submission. |
| `CreationLaws.InterruptedIsLookedUp` | crates/nits-client-core/src/creation.rs:716-765 | An interrupted attempt of the current context is looked up on subscription and on every retry. |
| `CreationLaws.LinkAndContext` | crates/nits-client-core/src/creation.rs:716-765 | Link and daemon context are what they were last set to; a restart loses every answer and nothing else. |
| `CreationLaws.RetryResolves` | crates/nits-client-core/src/creation.rs:716-853 | Asking again resolves an interrupted attempt: found with the same inputs it has succeeded, not found the same submission is sent again. |
| `Suggestion.NeverReplayed` | crates/nits-client-core/src/suggestion.rs:164-352 | In every run, between two applications sent for one comment there is a preview sent after the first and answered ready before the second, across disconnects, restarts, closing and reopening. |
| `Suggestion.ReceiptsNeverGoBack` | crates/nits-client-core/src/suggestion.rs:242-294 | No step downgrades a recorded receipt or replaces it by an older one. |
| `Suggestion.ShownApplicationsAreRecorded` | crates/nits-client-core/src/lib.rs:3545-3593 | Every application the daemon has shown is reflected by the open review's record, however snapshots and events interleave. |
| `Suggestion.ReadyIsEarned` | crates/nits-client-core/src/suggestion.rs:62-92 | A suggestion is shown ready only after a preview sent since its last application came back ready. |
| `Suggestion.InstallKeepsReceipts` | crates/nits-client-core/src/lib.rs:3572-3586 | Installing a snapshot over the open review loses no receipt the snapshot has a record for. |
| `SuggestionDesk.Desk.Preview` | crates/nits-client-core/src/suggestion.rs:164-194 | A preview is sent unless one or an application is out for the comment. |
| `SuggestionDesk.Desk.Apply` | crates/nits-client-core/src/suggestion.rs:196-240 | An application is sent exactly when the suggestion is ready. |
| `SuggestionDesk.Desk.Previewed` | crates/nits-client-core/src/suggestion.rs:242-294 | Only the answer to the awaited preview counts; a newer receipt it carries is taken over. One for an unknown comment or another suggestion is an error and leaves the request in flight. |
| `SuggestionDesk.Desk.Failed` | crates/nits-client-core/src/suggestion.rs:296-338 | A failed application becomes uncertain, a failed preview rejected; an applied record settles either. |
| `SuggestionDesk.Desk.Disconnected` | crates/nits-client-core/src/suggestion.rs:340-352 | Every awaited answer becomes uncertain, the other panels stay. |
| `SuggestionDesk.Desk.Reconnected` | crates/nits-client-core/src/suggestion.rs:354-366 | Every uncertain suggestion is previewed, none applied. |
| `SuggestionLaws.PreviewGoesOut` | crates/nits-client-core/src/suggestion.rs:164-194 | A live suggestion that is neither being checked nor applied is previewed under a fresh request, and its panel waits for that request; otherwise nothing happens. |
| `SuggestionLaws.StatusMeans` | crates/nits-client-core/src/suggestion.rs:62-92 | Each displayed status holds exactly under its condition: applied by the receipt, else by the stage, else by what the last preview found. |
| `SuggestionLaws.ApplicationGoesOut` | crates/nits-client-core/src/suggestion.rs:196-240 | An application goes out for a live suggestion found ready and not yet applied, and only then. |
| `SuggestionLaws.AnswerSettles` | crates/nits-client-core/src/suggestion.rs:242-294 | The awaited answer settles the panel and takes over a newer receipt; a ready answer makes the suggestion ready when no receipt is known. |
| `SuggestionLaws.WrongAnswersChangeNothing` | crates/nits-client-core/src/suggestion.rs:250-264 | An answer for an unknown comment or another suggestion is an error that changes nothing. |
| `SuggestionLaws.FailuresMark` | crates/nits-client-core/src/suggestion.rs:296-338 | A failure settles an applied suggestion, leaves the awaited application uncertain and rejects the awaited preview. |
| `SuggestionLaws.ReplySettles` | crates/nits-client-core/src/suggestion.rs:96-124 | The reply to an application settles its panel, records the landing and moves the cursor up to it. |
| `SuggestionLaws.DeliveryRecords` | crates/nits-client-core/src/events.rs:286-312 | A delivered entry adds a new suggestion, hides or shows a known one, or leaves its receipt. |
| `SuggestionLaws.OpeningHears` | crates/nits-client-core/src/lib.rs:3651-3676 | An open in flight notes every landing delivered meanwhile, once. |
| `SuggestionLaws.PanelsFollowTheReview` | crates/nits-client-core/src/lib.rs:3566-3593 | Panels survive an install over the open review and go with a closed one. |
| `SuggestionLaws.DropShakes` | crates/nits-client-core/src/suggestion.rs:340-352 | A lost connection leaves exactly the awaited answers uncertain. |
| `SuggestionLaws.LinkMoves` | crates/nits-client-core/src/lib.rs:3703-3735 | A restart loses the answers and shakes no panel; a new connection replays before it is up. |
| `SuggestionLaws.ReconnectChecks` | crates/nits-client-core/src/suggestion.rs:354-366 | After reconnecting every live suggestion that was uncertain is being checked under a request of its own, and no other stage moved. |
| `SuggestionLaws.CanBeApplied` | crates/nits-client-core/src/suggestion.rs:164-240 | Whatever was lost, a live suggestion without a receipt can be brought back: previewed, answered ready, and applied under a request of its own. |
| `Cache.ContentCache.Get` | crates/nits-client-core/src/cache.rs:235-242 | A hit returns the value and becomes the newest entry of the recency list; a miss changes no recency. |
| `Cache.ContentCache.Insert` | crates/nits-client-core/src/cache.rs:280-290 | The entry becomes the newest and the eviction pass of the recency list decides what leaves, in order. |
| `Cache.ContentCache.Remove` | crates/nits-client-core/src/cache.rs:293-299 | The key leaves the list and its pins. |
| `Cache.ContentCache.RetainPins` | crates/nits-client-core/src/cache.rs:312-315 | Rejected pins are released and the list is trimmed to budget. |
| `Cache.ContentCache.ClearPins` | crates/nits-client-core/src/cache.rs:317-320 | All pins are released and the list is trimmed to budget. |
| `Cache.ContentCache.Evict` | crates/nits-client-core/src/cache.rs:337-361 | The walk over ticks with a cursor is one eviction pass over the recency list; ticks and entries stay in bijection and `used` is the sum of sizes. |
| `Cache.EvictionIsShortest` | crates/nits-client-core/src/cache.rs:337-361 | The evicted entries are the shortest oldest-first run of unpinned ones that meets the budget, or all of them. |
| `Recency.EvictionConserves` | crates/nits-client-core/src/cache.rs:337-361 | Evicted and survivors together are what was there, entries and sizes. |
| `Recency.PinnedSurvive` | crates/nits-client-core/src/cache.rs:337-361 | Pinned entries survive, and the survivors are the rest of the list in its order. |
| `Recency.SurvivorsFit` | crates/nits-client-core/src/cache.rs:337-361 | Afterwards the budget holds or only pinned entries are left. |
| `Recency.ListedFind` | crates/nits-client-core/src/cache.rs:247-249 | The two maps list every key once, under its value and size. |
| `DiskTier.DiskIndex.Touch` | crates/nits-client-core/src/content.rs:99-126 | The key becomes the newest and the oldest others leave until the budget holds; exactly their keys come back, oldest first. |
| `DiskTier.DiskIndex.Forget` | crates/nits-client-core/src/content.rs:129-134 | The key leaves the index. |
| `DiskTier.DiskIndex.WriteThrough` | crates/nits-client-core/src/content.rs:235-261 | Memory evictions touch indexed keys and write the others again, with the removals that makes necessary. |
| `DiskRuns.TouchBound` | crates/nits-client-core/src/content.rs:99-126 | A touch keeps the touched key, and afterwards the budget holds or that key is alone. |
| `DiskRuns.IndexBounded` | crates/nits-client-core/src/content.rs:99-134 | In every run the index is within budget or holds at most one entry. |
| `DiskRuns.HostWithinIndex` | crates/nits-client-core/src/content.rs:218-261 | In every run a host executing effects in order holds no key written or loaded this session that the index lacks. |
| `DiskRuns.HostHoldsIndex` | crates/nits-client-core/src/content.rs:458-468 | The converse: every indexed key is on the host at every point of a run if and only if every load answer arrives while its key is still on the host. |
| `DiskRuns.IndexMayOutliveHost` | crates/nits-client-core/src/content.rs:458-468 | A run in which it fails: a key evicted from memory is loaded again, the host removes it meanwhile, and the late answer indexes it. |
| `DiskContents.ArrivalIsStored` | crates/nits-client-core/src/content.rs:218-233 | Storing a value removes exactly what the index pushes out and leaves the value under its key. |
| `DiskContents.EvictionIsStored` | crates/nits-client-core/src/content.rs:235-261 | A memory eviction stores an unknown key with its value and keeps a known one as it is stored. |
| `DiskContents.TouchedIsNewest` | crates/nits-client-core/src/content.rs:99-126 | A touched key is the newest entry, at the given size. |
| `DiskContents.HostIsFaithful` | crates/nits-client-core/src/content.rs:218-261 | In every run over true values the host holds exactly the keys of the run, each with the content of its key. |
| `DiskContents.ArrivedIsKept` | crates/nits-client-core/src/content.rs:218-233 | In every run an arriving value is indexed and on the host under its key. |
| `Fetch.NoOrphanedFetch` | crates/nits-client-core/src/content.rs:313-480 | In every reachable state the counter is the number of content requests in the in-flight table and within the limit, and every mark is backed by a load, a queue entry or a request. |
| `Fetch.DrainFillsSlots` | crates/nits-client-core/src/content.rs:339-343 | After a drain no fetch waits beside a free slot. |
| `Fetch.DrainCommutes` | crates/nits-client-core/src/lib.rs:4562-4564 | Whether an answered request leaves the table before or after the drain makes no difference. |
| `Fetch.ClearKeeps` | crates/nits-client-core/src/lib.rs:4045-4054 | Losing the connection clears every mark of a request in flight, so none is orphaned. |
| `FetchLaws.WantFetches` | crates/nits-client-core/src/content.rs:313-330 | A wanted key is afterwards here or marked: loaded from disk if there is a disk tier, else queued, or requested as far as slots are free. |
| `FetchLaws.WantGoesOut` | crates/nits-client-core/src/content.rs:313-343 | With a free slot and nothing waiting the request goes out at once; without one the fetch waits. |
| `FetchLaws.DrainSendsFront` | crates/nits-client-core/src/content.rs:339-408 | Draining requests exactly the front of the queue, in order, under consecutive fresh ids, as far as slots are free. |
| `FetchLaws.UnusableIsFetched` | crates/nits-client-core/src/content.rs:442-480 | A missing or unusable storage answer leaves the key queued or requested. |
| `FetchLaws.GoodArrives` | crates/nits-client-core/src/content.rs:442-480 | A usable answer makes the key resident, and all it asks for is here or coming. |
| `FetchLaws.StrayAnswers` | crates/nits-client-core/src/content.rs:442-452 | An answer nobody waits for only ends its load. |
| `FetchLaws.AnswersServe` | crates/nits-client-core/src/lib.rs:4466-4497 | An answer frees its slot and the next of the queue goes out; only a response makes the key resident. |
| `FetchLaws.StreamedArrives` | crates/nits-client-core/src/content.rs:487-500 | A streamed value is here at once, its mark gone. |
| `FetchLaws.OthersShareNumbers` | crates/nits-client-core/src/content.rs:339-408 | Other requests share the numbering and take no slot; evicted keys are no longer here. |
| `FetchLaws.PruneDrops` | crates/nits-client-core/src/content.rs:428-438 | A dropped fetch leaves the queue with its mark, the others keep their order. |
| `FetchLaws.LossFrees` | crates/nits-client-core/src/lib.rs:4045-4054 | A lost connection frees every slot and unmarks exactly the keys that were requested. |
| `FetchDesk.Scheduler.Want` | crates/nits-client-core/src/content.rs:313-330 | A resident or already marked key is left alone; another is loaded from disk or queued. |
| `FetchDesk.Scheduler.Drain` | crates/nits-client-core/src/content.rs:339-408 | Queued fetches go out oldest first while slots are free. |
| `FetchDesk.Scheduler.Stored` | crates/nits-client-core/src/content.rs:442-480 | A usable answer arrives with its follow-up wants, any other queues the fetch, a stale one only clears. |
| `FetchDesk.Scheduler.Prune` | crates/nits-client-core/src/content.rs:428-438 | Dropped fetches leave the queue and lose their marks, the others keep their order. |
| `FetchDesk.Scheduler.Responded` | crates/nits-client-core/src/lib.rs:4466-4497 | The value arrives, its slot is reused and the request leaves the table. |
| `FetchDesk.Scheduler.ClearInFlight` | crates/nits-client-core/src/lib.rs:4045-4054 | All content requests are gone, their marks dropped, the counter zero. |
| `Delivery.CostIsExact` | crates/nits-client-core/src/delivery.rs:158-162 | The splitter's costs are the exact UTF-8 size of the text as escaped by section 7 of RFC 8259. |
| `Delivery.Split` | crates/nits-client-core/src/delivery.rs:150-170 | Pieces are non-empty, cut between characters, join to the text, each within the data limit, and no piece could have taken the next one's first character. |
| `Delivery.MakeFragments` | crates/nits-client-core/src/delivery.rs:140-199 | Fails exactly when the byte count is zero or does not fit 32 bits; otherwise the pieces are numbered from start to end. |
| `Delivery.FragmentsRoundTrip` | crates/nits-client-core/src/delivery.rs:171-199 | A text longer than one frame's data makes at least two fragments that reassemble to it. |
| `Delivery.FragmentFits` | crates/nits-client-core/src/delivery.rs:126-133 | Every fragment's serialized frame is below the frame limit. |
| `Delivery.TooLongForOne` | crates/nits-client-core/src/delivery.rs:118-125 | A batch whose complete frame is over the limit is longer than one fragment holds. |
| `Delivery.ViewEncoder.Encode` | crates/nits-client-core/src/delivery.rs:104-137 | The revision advances by one exactly on success, the two failures happen exactly when stated, no frame is too large, and the frames reassemble to the batch. |
| `Delivery.EscapeRoundTrip` | crates/nits-client-core/src/delivery.rs:158-162 | The text as escaped reads back as the text, by section 7 of RFC 8259. |
| `WindowedDiff.PlaceRows` | crates/nits-client-core/src/diff.rs:629-667 | Appends exactly the chunk's rows inside the window, each with the threads reaching its line. |
| `WindowedDiff.AllRows` | crates/nits-client-core/src/diff.rs:456-493 | Collects every cached row of the file in order. |
| `WindowedDiff.DiffView` | crates/nits-client-core/src/diff.rs:496-600 | Builds the view over the clamped window, with the chunks that are not cached. |
| `WindowedDiff.WindowIsFilteredWhole` | crates/nits-client-core/src/diff.rs:561-586 | The view's rows, without draft marks, are the whole file's rows restricted to the clamped window. |
| `WindowedDiff.IndicesIncrease` | crates/nits-client-core/src/diff.rs:561-586 | Row indices strictly increase and the window is the requested one clamped to the file. |
| `WindowedDiff.MissingIsExact` | crates/nits-client-core/src/diff.rs:567-586 | `missing` lists exactly the window's uncached chunks, in order. |
| `WindowedDiff.NothingMissingShowsAll` | crates/nits-client-core/src/diff.rs:561-586 | With full chunks and none missing every row of the window appears once, consecutively. |
| `DiffLaws.WindowIsClipped` | crates/nits-client-core/src/diff.rs:496-560 | The window is exactly the requested rows that the file has, or its nearest single row; opaque and empty files keep the requested window and show nothing. |
| `DiffLaws.ViewShowsCache` | crates/nits-client-core/src/diff.rs:561-667 | Every row shows the cached line at its index with exactly the threads and draft that reach it, and every cached line of the window is shown. |
| `DiffLaws.RangeReaches` | crates/nits-client-core/src/diff.rs:629-667 | A range is anchored at its last line and runs through those before it, on the side the row stands on. |
| `DiffLaws.ThreadsInOrder` | crates/nits-client-core/src/diff.rs:629-667 | A row's threads are those whose range reaches it, in placement order. |
| `PublishOrder.Traversal.Visit` | xtask/src/release.rs:165-192 | A successful visit leaves the member done and the order sound; a failed one means an absent root or a reachable cycle. |
| `PublishOrder.Plan` | xtask/src/release.rs:157-163 | Succeeds exactly when the root is a member and no cycle of publishable edges is reachable; the order then holds each reachable publishable crate once, after everything it depends on. |
| `PublishOrder.NoLasso` | xtask/src/release.rs:165-192 | A finished traversal excludes every path from the root that returns to a node. |
| `KeyText.ParseChord` | crates/nits-client-core/src/keymap.rs:309-348 | The parser with its popped parts and modifier loop computes the chord grammar. |
| `KeyText.ChordRoundTrip` | crates/nits-client-core/src/keymap.rs:287-348 | Every printed chord reads back, a literal plus with any modifiers included. |
| `KeyText.SequenceRoundTrip` | crates/nits-client-core/src/keymap.rs:379-400 | A printed sequence reads back exactly when it is not empty and none of its characters is whitespace. |
| `KeyText.PrintIsStable` | crates/nits-client-core/src/keymap.rs:379-400 | For every text that parses, printing and parsing again gives the same sequence. |
| `KeyLaws.ModifierInFront` | crates/nits-client-core/src/keymap.rs:309-336 | A modifier in any of its spellings and letter cases in front of a chord is that chord with the modifier held; anything else is an unknown modifier. |
| `KeyLaws.NameReads` | crates/nits-client-core/src/keymap.rs:337-348 | Every named key reads in any letter case. |
| `KeyLaws.CharacterReads` | crates/nits-client-core/src/keymap.rs:337-348 | A single character is its own key, a plus included. |
| `KeyLaws.WhitespaceSeparates` | crates/nits-client-core/src/keymap.rs:394-400 | Any whitespace separates chords, and a text without any is one. |
| `KeyLaws.SequenceReads` | crates/nits-client-core/src/keymap.rs:394-400 | A sequence reads chord by chord and fails with the first that does not read. |

## Left out

- View projection: diff decoration, explorer, palettes, hints, tabs, scroll intents, home rows and the view sections each step names; large and mostly easy.
- Focus command resolution, key tables and overrides: wide case splits without properties over runs.
- CLI, hosts, configuration, packaging, and the network, git, cargo and curl calls of the release tool.
- Encoding and decoding of protocol messages: ids, refs and patch lists are abstract values, storage keys are injective in the cache key, and a patch list is its own JSON text.
- Streamed opens: a snapshot arrives as one response; the trees, headers and chunks of the stream appear as arrivals of the scheduler.
- 64-bit counters (sequence numbers, request ids, ticks, byte sums) are unbounded; the 32-bit revision, fragment and byte counts of delivery are modelled.
- Restart timers and backoff: the restart deadline is a step that clears requests without moving creation or suggestions to an uncertain state, as in the code.
- Restoring a stored creation form: a restored form is not a step of the creation runs.
- CreationDesk.Desk.Submit: default bases and the parsing of refs are not part of the parsed draft; error messages are left out.
- Daemon events beyond a mutation's own echo that carry the client's sequence number.
- Convergence.Converges: speaks of installs that left a fold of the log, which reference landings and ordinary opens do under the conditions above, and of logs in which nothing is referred to before its creation. A preview that adopts a receipt ends the stretch; `Openings.PreviewRestored` says how the fold comes back.
- Openings.OpenStartsConvergence: for a gap with events other than revisions only the case of a created comment is proved to miss the fold; an edit or a disposition of the gap may or may not leave the fold unchanged.
- Openings.OrdinaryOpenInstalls: previews report receipts of the log, none older than a landing already delivered; runs without previews need no such assumption.
- Replies to suggestion applications and to form creations are not steps of `Session`: they apply their event even at or below the cursor. `Replay.LateLandingChangesNothing` covers the application; the event of a form creation changes no open review.
- Suggestion.NeverReplayed: one review, opened by ordinary snapshots; a suggestion whose comment is only a pending overlay entry is not previewed in the model.
- WindowedDiff.WindowIsFilteredWhole: chunks hold at most the header's chunk size and row indices fit 32 bits; renders with no rows, no chunks or no chunk size show no rows whatever is cached.
- Fetch.NoOrphanedFetch: evictions and follow-up wants are inputs; which keys the open review pins is not modelled.
