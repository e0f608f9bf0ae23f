/**
  What the writer logs and what the outcome is read from: how each logging call moves the
  evidence.
 */
module WriterEvidence {
  import opened Basics
  import opened RunRecords
  import opened LedgerSpec
  import opened LedgerInvariant
  import opened LedgerTheorems
  import opened EvidenceOutcome

  // ---- events ------------------------------------------------------------------------------

  lemma DeniedNext(events: seq<Record>, e: Record)
    ensures DeniedAndStuck(events + [e]) <==> Denied(e) || (DeniedAndStuck(events) && !WorkDone(e))
  {
    var all := events + [e];
    assert all[|events|] == e && forall i :: 0 <= i < |events| ==> all[i] == events[i];
    assert Denied(e) ==> !WorkDone(e);
    if DeniedAndStuck(all) {
      var i :| 0 <= i < |all| && Denied(all[i]) && forall j :: i < j < |all| ==> !WorkDone(all[j]);
      assert i < |events| ==> !WorkDone(all[|events|]);
      assert i < |events| ==> forall j :: i < j < |events| ==> !WorkDone(events[j]);
    }
    if DeniedAndStuck(events) && !WorkDone(e) {
      var i :| 0 <= i < |events| && Denied(events[i]) && forall j :: i < j < |events| ==> !WorkDone(events[j]);
      assert Denied(all[i]) && forall j :: i < j < |all| ==> !WorkDone(all[j]);
    }
    if Denied(e) {
      assert Denied(all[|events|]);
    }
  }

  lemma CommandNext(events: seq<Record>, e: Record)
    ensures LastCommandFailed(events + [e]) <==>
              if Ran(e) then e.fields.exitCode != 0 else LastCommandFailed(events)
  {
    var all := events + [e];
    assert all[|events|] == e && forall i :: 0 <= i < |events| ==> all[i] == events[i];
    if LastCommandFailed(all) {
      var i :| 0 <= i < |all| && Ran(all[i]) && all[i].fields.exitCode != 0
          && forall j :: i < j < |all| ==> !Ran(all[j]);
      assert i < |events| ==> !Ran(all[|events|]);
      assert i < |events| ==> forall j :: i < j < |events| ==> !Ran(events[j]);
    }
    if !Ran(e) && LastCommandFailed(events) {
      var i :| 0 <= i < |events| && Ran(events[i]) && events[i].fields.exitCode != 0
          && forall j :: i < j < |events| ==> !Ran(events[j]);
      assert Ran(all[i]) && forall j :: i < j < |all| ==> !Ran(all[j]);
    }
    if Ran(e) && e.fields.exitCode != 0 {
      assert Ran(all[|events|]);
    }
  }

  lemma StoppedNext(events: seq<Record>, e: Record)
    ensures Stopped(events + [e]) <==> Stopped(events) || (e.Event? && e.kind in STOPPERS)
    ensures forall kind :: Saw(events + [e], kind) <==> Saw(events, kind) || (e.Event? && e.kind == kind)
  {
    assert forall t :: t in events + [e] <==> t in events || t == e;
  }

  /** What each kind of event says: which end a denial, which stop a run, and what a command's exit code means. */
  lemma EventRead(l: Ledger, kind: string, fields: Fields)
    ensures
      var before, after := l.files, LogEvent(l, kind, fields).files;
      && (DeniedAndStuck(after.events) <==>
            || kind == "approval_denied"
            || (DeniedAndStuck(before.events) && kind != "patch_apply_succeeded" && kind != "verification_passed"
                && kind != "mutation_finished" && !(kind == "command_finished" && fields.exitCode == 0)))
      && (LastCommandFailed(after.events) <==>
            if kind == "command_finished" then fields.exitCode != 0 else LastCommandFailed(before.events))
      && (Stopped(after.events) <==>
            || Stopped(before.events) || kind == "patch_validation_failed" || kind == "mutation_required_but_missing"
            || kind == "contract_failed" || kind == "agent_stopped")
      && (Mutated(after) <==> Mutated(before) || kind == "patch_apply_succeeded")
  {
    hide NumberedId, DeniedAndStuck, LastCommandFailed, Stopped, Saw;
    var e := Event(l.sequence + 1, EventId(l.eventSeq), kind, fields);
    DeniedNext(l.files.events, e);
    CommandNext(l.files.events, e);
    StoppedNext(l.files.events, e);
  }

  /**
    A command that finishes settles the evidence on commands by its exit code alone, and
    ends a denial exactly if that is zero.  Without an id nothing is logged.
   */
  lemma CommandRead(l: Ledger, id: string, command: string, exitCode: int, keep: bool)
    ensures
      var before, after := l.files.events, LogCommandFinish(l, id, command, exitCode, keep).files.events;
      && (LastCommandFailed(after) <==> if id == "" then LastCommandFailed(before) else exitCode != 0)
      && (DeniedAndStuck(after) <==> DeniedAndStuck(before) && (id == "" || exitCode != 0))
  {
    hide NumberedId, DeniedAndStuck, LastCommandFailed;
    if id != "" {
      var e := Event(l.sequence + 1, EventId(l.eventSeq), "command_finished", Fields(exitCode, "", command, [], id));
      DeniedNext(l.files.events, e);
      CommandNext(l.files.events, e);
    }
  }

  /** A change of files is bad unless applied or rolled back, and only then ends a denial. */
  lemma MutationRead(l: Ledger, transaction: string, status: string)
    ensures
      var l' := LogMutation(l, transaction, status);
      var settled := status == "applied" || status == "rolled_back";
      && (BadMutation(l'.files.mutations) <==> BadMutation(l.files.mutations) || !settled)
      && (DeniedAndStuck(l'.files.events) <==> DeniedAndStuck(l.files.events) && !settled)
      && (LastCommandFailed(l'.files.events) <==> LastCommandFailed(l.files.events))
      && Mutated(l'.files)
  {
    hide NumberedId, DeniedAndStuck, LastCommandFailed;
    var m := Mutation(l.sequence + 1, transaction, status);
    var kind := if status in {"applied", "rolled_back"} then "mutation_finished" else "mutation_failed";
    var e := Event(l.sequence + 2, EventId(l.eventSeq), kind, NoFields);
    assert LogMutation(l, transaction, status).files.events == l.files.events + [e];
    assert LogMutation(l, transaction, status).files.mutations == l.files.mutations + [m];
    DeniedNext(l.files.events, e);
    CommandNext(l.files.events, e);
    assert forall t :: t in l.files.mutations + [m] <==> t in l.files.mutations || t == m;
  }

  // ---- tools ---------------------------------------------------------------------------------

  lemma PathsAfterResult(tools: seq<Record>, r: Record)
    requires r.ToolFinished?
    ensures Paths(tools + [r]) == Paths(tools)
  {
    assert (tools + [r])[..|tools|] == tools;
  }

  /** What one more result does to the evidence: it may be a failure itself, or put earlier ones right. */
  lemma ToolResultNext(tools: seq<Record>, r: Record)
    requires r.ToolFinished?
    ensures ToolFailureStands(tools + [r]) <==>
              || (!r.ok)
              || exists i :: 0 <= i < |tools| && ToolFailedAt(tools, i) && tools[i].tool != r.tool
                      && !(tools[i].tool in FILE_TOOLS && Repairs(r, PathOf(tools[i], Paths(tools)), Paths(tools)))
  {
    hide Paths, PathOf;
    var all := tools + [r];
    PathsAfterResult(tools, r);
    assert all[|tools|] == r && forall i :: 0 <= i < |tools| ==> all[i] == tools[i];
    forall i | 0 <= i < |tools|
      ensures ToolFailedAt(all, i) <==>
                && ToolFailedAt(tools, i) && tools[i].tool != r.tool
                && !(tools[i].tool in FILE_TOOLS && Repairs(r, PathOf(tools[i], Paths(tools)), Paths(tools)))
    {
      FailedWithOneMore(tools, r, i);
    }
    assert ToolFailedAt(all, |tools|) <==> !r.ok;
  }

  lemma FailedWithOneMore(tools: seq<Record>, r: Record, i: nat)
    requires r.ToolFinished? && i < |tools|
    ensures ToolFailedAt(tools + [r], i) <==>
              && ToolFailedAt(tools, i) && tools[i].tool != r.tool
              && !(tools[i].tool in FILE_TOOLS && Repairs(r, PathOf(tools[i], Paths(tools)), Paths(tools)))
  {
    hide Paths, PathOf, Repairs;
    var all := tools + [r];
    PathsAfterResult(tools, r);
    assert all[|tools|] == r && forall j :: 0 <= j < |tools| ==> all[j] == tools[j];
    LastWithOneMore(tools, r, i);
    var path, paths := PathOf(tools[i], Paths(tools)), Paths(tools);
    assert (forall j :: i < j < |all| ==> !Repairs(all[j], path, paths)) <==>
        (forall j :: i < j < |tools| ==> !Repairs(tools[j], path, paths)) && !Repairs(r, path, paths) by {
      if forall j :: i < j < |all| ==> !Repairs(all[j], path, paths) {
        assert !Repairs(all[|tools|], path, paths);
        assert forall j :: i < j < |tools| ==> !Repairs(all[j], path, paths);
      }
    }
  }

  lemma LastWithOneMore(tools: seq<Record>, r: Record, i: nat)
    requires r.ToolFinished? && i < |tools|
    ensures LastOfItsTool(tools + [r], i) <==> LastOfItsTool(tools, i) && tools[i].tool != r.tool
  {
    var all := tools + [r];
    assert all[|tools|] == r && forall j :: 0 <= j < |tools| ==> all[j] == tools[j];
  }

  /** The tools whose failure on a file a later write of it can put right, and the tools that write. */
  predicate OnFile(tool: string) {
    tool == "read_file" || Writes(tool)
  }

  predicate Writes(tool: string) {
    tool == "edit_file" || tool == "append_file" || tool == "write_file"
  }

  /**
    A failed result makes the run a failure so far, whatever came before.  A good one puts
    right what its own tool did last and, if it wrote a file, the last uses of the file tools
    that failed on that file.
   */
  lemma ToolResultRead(l: Ledger, id: string, tool: string, ok: bool)
    ensures
      var tools := l.files.tools;
      var stands := ToolFailureStands(LogToolResult(l, id, tool, ok).files.tools);
      && (!ok ==> stands)
      && (ok ==> (stands <==> exists i :: 0 <= i < |tools| && ToolFailedAt(tools, i) && tools[i].tool != tool
                                          && !(OnFile(tools[i].tool) && Writes(tool) && SameFile(tools, i, id))))
  {
    hide NumberedId, ToolFailedAt, ToolFailureStands, Paths, PathOf;
    var tools := l.files.tools;
    var r := ToolFinished(l.sequence + 1, id, tool, ok);
    assert LogToolResult(l, id, tool, ok).files.tools == tools + [r];
    ToolResultNext(tools, r);
    assert forall i :: 0 <= i < |tools| && ok ==>
        (Repairs(r, PathOf(tools[i], Paths(tools)), Paths(tools)) <==> Writes(tool) && SameFile(tools, i, id)) by {
      forall i | 0 <= i < |tools| && ok
        ensures Repairs(r, PathOf(tools[i], Paths(tools)), Paths(tools)) <==> Writes(tool) && SameFile(tools, i, id)
      {
        RepairsExactly(tools, i, r);
      }
    }
  }

  /** The result names a call on the file that result `i` was about. */
  predicate SameFile(tools: seq<Record>, i: nat, id: string)
    requires i < |tools|
  {
    var paths := Paths(tools);
    && id in paths && tools[i].id in paths && paths[id] != "" && Slashes(paths[id]) == Slashes(paths[tools[i].id])
  }

  lemma RepairsExactly(tools: seq<Record>, i: nat, r: Record)
    requires i < |tools| && r.ToolFinished? && r.ok
    ensures Repairs(r, PathOf(tools[i], Paths(tools)), Paths(tools)) <==> Writes(r.tool) && SameFile(tools, i, r.id)
  {
    hide Paths;
    assert Slashes("") == "";
  }

  /** A run that is ended with a tool call open ends with a tool failure that nothing made good. */
  lemma OpenCallEndsAsFailure(l: Ledger, id: string)
    requires WellFormed(l) && id in CalledIds(l.files.tools) && id !in FinishedIds(l.files.tools)
    ensures ToolFailureStands(CloseOpenRecords(l).files.tools)
  {
    hide WellFormed, CloseOpenRecords, CalledIds, FinishedIds, StartedIds, ClosedIds, Paths, PathOf, FailsModel;
    ClosingEffect(l);
    var before, after := l.files.tools, CloseOpenRecords(l).files.tools;
    assert CalledIds(before) - FinishedIds(before) != {} by {
      assert id in CalledIds(before) - FinishedIds(before);
    }
    var k := |after| - 1;
    assert after[|before|..][k - |before|] == after[k];
    assert FailsTool(after[k], before, FinishedIds(before));
    assert ToolFailedAt(after, k);
  }
}
