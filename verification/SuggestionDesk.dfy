/**
 The suggestion steps of the client, in place: each is its function in `Suggestion` and
 keeps the invariant under which no application is replayed.
 */
module SuggestionDesk {
  import opened Protocol
  import S = Suggestion

  class Desk {
    var subscribed: bool
    var nextRequest: nat
    var asked: map<nat, S.Ask>
    var records: Option<S.Records>
    var panels: map<CommentId, S.Panel>
    ghost var trace: seq<S.Fact>
    ghost var rest: S.World

    ghost predicate Linked() reads this { subscribed == rest.link.Up? }

    /** Besides, the panels are what the observed traffic has earned them. */
    ghost predicate Valid() reads this { Linked() && S.Invariant(Value()) }

    ghost function Value(): S.World reads this {
      rest.(nextRequest := nextRequest, asked := asked, records := records, panels := panels, trace := trace)
    }

    constructor (ghost world: S.World, up: bool)
      requires up == world.link.Up? && world.nextRequest == 1 && world.asked == map[] && world.records == None
      requires world.panels == map[] && world.trace == [] && S.Invariant(world)
      ensures Valid() && Value() == world
    {
      subscribed, nextRequest, asked, records, panels := up, 1, map[], None, map[];
      trace, rest := [], world;
    }

    method Send(ask: S.Ask)
      requires Linked()
      modifies this
      ensures Linked() && Value() == S.Send(old(Value()), ask) && subscribed == old(subscribed)
    {
      trace := trace + [if ask.AskApply? then S.ApplySent(ask.comment, nextRequest)
        else S.PreviewSent(ask.comment, nextRequest)];
      asked := asked[nextRequest := ask];
      nextRequest := nextRequest + 1;
    }

    method Preview(c: CommentId)
      requires Valid()
      modifies this
      ensures Valid() && Value() == S.PreviewSuggestion(old(Value()), c) && subscribed == old(subscribed)
      ensures old(subscribed && records.Some? && c in records.value && records.value[c].live
                  && !(c in panels && (panels[c].stage.Checking? || panels[c].stage.Applying?))) ==>
                && nextRequest == old(nextRequest) + 1 && asked == old(asked)[old(nextRequest) := S.AskPreview(c)]
                && c in panels && panels[c].stage == S.Checking(old(nextRequest))
    {
      hide S.Invariant;
      S.PreviewKeeps(Value(), c);
      if !subscribed || records.None? || c !in records.value || !records.value[c].live { return; }
      var panel := if c in panels then panels[c] else S.BLANK;
      if panel.stage.Checking? || panel.stage.Applying? { return; }
      panels := panels[c := panel.(stage := S.Checking(nextRequest))];
      Send(S.AskPreview(c));
    }

    method Apply(c: CommentId)
      requires Valid()
      modifies this
      ensures Valid() && Value() == S.ApplySuggestion(old(Value()), c)
    {
      hide S.Invariant;
      S.ApplyKeeps(Value(), c);
      if !subscribed || records.None? || c !in records.value || !records.value[c].live { return; }
      var panel := if c in panels then panels[c] else S.BLANK;
      if S.StatusOf(records.value[c], panel) != S.StatusReady { return; }
      panels := panels[c := panel.(stage := S.Applying(nextRequest))];
      Send(S.AskApply(c));
    }

    /** `receipt` is the outcome the answer carries: that of the daemon's records at `at`. False is an error. */
    method Previewed(id: nat, c: CommentId, inspection: S.Inspection, receipt: Option<Seq>, mismatch: bool,
                     ghost at: Seq)
      returns (ok: bool)
      requires Valid() && at <= |rest.log|
      requires var known := S.RecordsOf(rest.log[..at]); receipt == if c in known then known[c].receipt else None
      modifies this
      ensures Valid() && Value() == S.OnPreviewed(old(Value()), id, c, inspection, at, mismatch)
      ensures !ok ==> Value() == old(Value())
    {
      hide S.Invariant;
      S.PreviewedKeeps(Value(), id, c, inspection, at, mismatch);
      if records.Some? && (c !in records.value || !records.value[c].live || mismatch) { return false; }
      ok := true;
      asked := asked - {id};
      if Some(inspection) == S.READY { trace := trace + [S.FoundReady(c, id)]; }
      if records.None? || c !in panels || panels[c].stage != S.Checking(id) { return; }
      panels := panels[c := S.Panel(Some(inspection), S.Idle)];
      if receipt.Some? {
        var record := records.value[c];
        if record.receipt.None? || receipt.value > record.receipt.value {
          records := Some(records.value[c := record.(receipt := receipt)]);
        }
      }
    }

    method Failed(id: nat, c: CommentId)
      requires Valid()
      modifies this
      ensures Valid() && Value() == S.OnFailed(old(Value()), id, c)
    {
      hide S.Invariant;
      S.FailedKeeps(Value(), id, c);
      asked := asked - {id};
      if records.None? || c !in panels { return; }
      var panel := panels[c];
      if c in records.value && records.value[c].live && records.value[c].receipt.Some? {
        panels := panels[c := panel.(stage := S.Idle)];
      } else if panel.stage == S.Applying(id) {
        panels := panels[c := panel.(stage := S.Uncertain)];
      } else if panel.stage == S.Checking(id) {
        panels := panels[c := panel.(stage := S.Rejected)];
      }
    }

    method Disconnected()
      requires Valid()
      modifies this
      ensures Valid() && Value() == S.Next(old(Value()), S.Disconnect)
    {
      hide S.Invariant;
      S.DisconnectKeeps(Value());
      var left := panels.Keys;
      while left != {}
        modifies `panels
        invariant left <= panels.Keys == old(panels.Keys)
        invariant forall c | c in panels && c in left :: panels[c] == old(panels)[c]
        invariant forall c | c in panels && c !in left :: panels[c] == S.Shaken(old(panels))[c]
        decreases |left|
      {
        var c :| c in left;
        if panels[c].stage.Applying? || panels[c].stage.Checking? {
          panels := panels[c := panels[c].(stage := S.Uncertain)];
        }
        left := left - {c};
      }
      assert panels == S.Shaken(old(panels));
      asked, subscribed := map[], false;
      rest := rest.(link := S.Down, opening := None);
    }

    method Reconnected(order: seq<CommentId>)
      requires Valid() && rest.link.Replaying?
      requires (set c | c in order) == (set c | c in panels && panels[c].stage.Uncertain?)
      modifies this
      ensures Valid() && Value() == S.Next(old(Value()), S.Resubscribe(order))
    {
      subscribed, rest := true, rest.(link := S.Up);
      ghost var up := Value();
      for i := 0 to |order|
        invariant Valid() && Value() == S.PreviewAll(up, order[..i]) && subscribed
      {
        assert order[..i + 1][..i] == order[..i];
        Preview(order[i]);
      }
      assert order[..|order|] == order;
    }
  }
}
