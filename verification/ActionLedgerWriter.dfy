/**
  The writer itself: an object with counters over a shared run directory.  Each method
  does its work one step at a time and is proved to do what the state machine says.
 */
module ActionLedgerWriter {
  import opened Basics
  import opened RunRecords
  import opened LedgerSpec
  import opened LedgerInvariant
  import opened LedgerTheorems
  import opened ModelCalls

  class RunDirectory {
    var files: RunFiles

    constructor ()
      ensures files == NoFiles
    {
      files := NoFiles;
    }
  }

  /** The timeline has grown by events of these kinds, in this order. */
  ghost predicate Announces(f: RunFiles, f': RunFiles, kinds: seq<string>) {
    && |f'.events| == |f.events| + |kinds| && f.events <= f'.events
    && forall k :: 0 <= k < |kinds| ==>
         f'.events[|f.events| + k].Event? && f'.events[|f.events| + k].kind == kinds[k]
  }

  /** `_count_records`: how many records of a stream open a call. */
  method CountOpenings(rs: seq<Record>) returns (n: nat)
    ensures n == |Openings(rs)|
  {
    n := 0;
    assert rs[..0] == [];
    for i := 0 to |rs|
      invariant n == |Openings(rs[..i])|
    {
      assert rs[..i + 1] == rs[..i] + [rs[i]];
      OpeningsAppend(rs[..i], rs[i]);
      if rs[i].ToolCalled? || rs[i].ModelStarted? {
        n := n + 1;
      }
    }
    assert rs[..|rs|] == rs;
  }

  method HighestStamp(rs: seq<Record>) returns (m: nat)
    ensures m == MaxStamp(rs)
  {
    m := 0;
    assert rs[..0] == [];
    for i := 0 to |rs|
      invariant m == MaxStamp(rs[..i])
    {
      assert rs[..i + 1][..i] == rs[..i];
      if m < rs[i].sequence {
        m := rs[i].sequence;
      }
    }
    assert rs[..|rs|] == rs;
  }

  /** `_max_sequence`: over the five JSONL streams. */
  method HighestSequence(f: RunFiles) returns (m: nat)
    ensures m == MaxSequence(f)
  {
    var e := HighestStamp(f.events);
    var d := HighestStamp(f.decisions);
    var t := HighestStamp(f.tools);
    var c := HighestStamp(f.models);
    var u := HighestStamp(f.mutations);
    m := Max(e, Max(d, Max(t, Max(c, u))));
  }

  class ActionLedger {
    const dir: RunDirectory
    const enabled: bool
    const verbose: bool
    var sequence: nat
    var eventSeq: nat
    var decisionSeq: nat
    var toolSeq: nat
    var modelSeq: nat
    var contextSeq: nat
    var commandSeq: nat

    ghost function View(): Ledger
      reads this, dir
    {
      Ledger(dir.files, sequence, eventSeq, decisionSeq, toolSeq, modelSeq, contextSeq, commandSeq, verbose)
    }

    /** One rising sequence over all streams, ids in order, and counters a new process would rebuild alike. */
    ghost predicate Valid()
      reads this, dir
    {
      WellFormed(View())
    }

    /** Opening a run directory, new or left by an earlier process: the new writer goes on where that one stood. */
    constructor (dir: RunDirectory, enabled: bool, verbose: bool)
      ensures (exists l :: WellFormed(l) && l.files == dir.files) ==> Valid()
      ensures this.dir == dir && this.enabled == enabled && this.verbose == verbose
      ensures View() == Open(dir.files, verbose)
      ensures dir.files == old(dir.files)
    {
      this.dir := dir;
      this.enabled := enabled;
      this.verbose := verbose;
      eventSeq := |dir.files.events|;
      decisionSeq := |dir.files.decisions|;
      var tools := CountOpenings(dir.files.tools);
      toolSeq := tools;
      var models := CountOpenings(dir.files.models);
      modelSeq := models;
      contextSeq := |dir.files.contexts|;
      commandSeq := |dir.files.keptCommands|;
      var highest := HighestSequence(dir.files);
      sequence := highest;
      new;
      if l: Ledger :| WellFormed(l) && l.files == dir.files {
        ReopenKeeps(l, verbose);
      }
    }

    /** The next number of the one sequence all records share. */
    method Correlation() returns (n: nat)
      modifies this`sequence
      ensures n == sequence == old(sequence) + 1
    {
      sequence := sequence + 1;
      n := sequence;
    }

    method AppendJsonl(s: Stream, r: Record)
      modifies dir
      ensures dir.files == Put(old(dir.files), s, Get(old(dir.files), s) + [r])
    {
      dir.files := Put(dir.files, s, Get(dir.files, s) + [r]);
    }

    method LogEvent(kind: string, fields: Fields)
      modifies this, dir
      ensures View() == if enabled then LedgerSpec.LogEvent(old(View()), kind, fields) else old(View())
      ensures enabled && Sound(old(View())) ==> Valid()
      ensures enabled ==>
                dir.files == old(dir.files).(events := old(dir.files.events)
                                                       + [Event(sequence, EventId(old(eventSeq)), kind, fields)])
    {
      if Sound(View()) {
        EventKeeps(View(), kind, fields);
      }
      if !enabled {
        return;
      }
      var id := EventId(eventSeq);
      eventSeq := eventSeq + 1;
      var n := Correlation();
      AppendJsonl(Events, Event(n, id, kind, fields));
    }

    method LogDecision(decision: string)
      requires Valid()
      modifies this, dir
      ensures View() == if enabled then LedgerSpec.LogDecision(old(View()), decision) else old(View())
      ensures Valid()
      ensures enabled ==>
                && dir.files.decisions == old(dir.files.decisions)
                                          + [Decision(old(sequence) + 1, DecisionId(old(decisionSeq)), decision)]
                && Announces(old(dir.files), dir.files, ["decision_recorded"])
    {
      hide LedgerSpec.LogEvent, NumberedId, WellFormed, Sound;
      FullIsSound(View());
      DecisionKeeps(View(), decision);
      if !enabled {
        return;
      }
      var id := DecisionId(decisionSeq);
      decisionSeq := decisionSeq + 1;
      var n := Correlation();
      AppendJsonl(Decisions, Decision(n, id, decision));
      LogEvent("decision_recorded", NoFields);
    }

    method LogToolCall(tool: string, path: string) returns (id: string)
      requires Valid()
      modifies this, dir
      ensures View() == if enabled then LedgerSpec.LogToolCall(old(View()), tool, path) else old(View())
      ensures id == if enabled then ToolId(old(toolSeq)) else ""
      ensures Valid()
      ensures enabled ==> id !in CalledIds(old(dir.files.tools)) && id in CalledIds(dir.files.tools)
      ensures enabled ==>
                && dir.files.tools == old(dir.files.tools) + [ToolCalled(old(sequence) + 1, id, tool, path)]
                && Announces(old(dir.files), dir.files, ["tool_called"])
    {
      hide LedgerSpec.LogEvent, NumberedId, WellFormed, Sound;
      FullIsSound(View());
      ToolCallKeeps(View(), tool, path);
      FreshToolId(View(), tool, path);
      if !enabled {
        return "";
      }
      id := ToolId(toolSeq);
      toolSeq := toolSeq + 1;
      var n := Correlation();
      AppendJsonl(Tools, ToolCalled(n, id, tool, path));
      LogEvent("tool_called", NoFields);
    }

    method LogToolResult(id: string, tool: string, ok: bool)
      requires Valid()
      modifies this, dir
      ensures View() == if enabled then LedgerSpec.LogToolResult(old(View()), id, tool, ok) else old(View())
      ensures Valid()
      ensures enabled ==>
                && dir.files.tools == old(dir.files.tools) + [ToolFinished(old(sequence) + 1, id, tool, ok)]
                && Announces(old(dir.files), dir.files, ["tool_finished"])
    {
      hide LedgerSpec.LogEvent, NumberedId, WellFormed, Sound;
      FullIsSound(View());
      ToolResultKeeps(View(), id, tool, ok);
      if !enabled {
        return;
      }
      var n := Correlation();
      AppendJsonl(Tools, ToolFinished(n, id, tool, ok));
      LogEvent("tool_finished", NoFields);
    }

    method LogModelCallStarted(role: string, model: string) returns (id: string)
      requires Valid()
      modifies this, dir
      ensures View() == if enabled then LogModelStarted(old(View()), role, model) else old(View())
      ensures id == if enabled then ModelId(old(modelSeq)) else ""
      ensures Valid()
      ensures enabled ==> id !in StartedIds(old(dir.files.models)) && id in StartedIds(dir.files.models)
      ensures enabled ==>
                && dir.files.models == old(dir.files.models) + [ModelStarted(old(sequence) + 1, id, role, model)]
                && Announces(old(dir.files), dir.files, [role + "_model_called"])
    {
      hide LedgerSpec.LogEvent, NumberedId, WellFormed, Sound;
      FullIsSound(View());
      ModelStartedKeeps(View(), role, model);
      FreshModelId(View(), role, model);
      if !enabled {
        return "";
      }
      id := ModelId(modelSeq);
      modelSeq := modelSeq + 1;
      var n := Correlation();
      AppendJsonl(Models, ModelStarted(n, id, role, model));
      LogEvent(role + "_model_called", NoFields);
    }

    /** Walks the stream backwards for a start of this role and model that nothing closed. */
    method LatestOpenModelCall(role: string, model: string) returns (id: string)
      ensures id == LatestOpen(dir.files.models, ClosedIds(dir.files.models), role, model)
    {
      var records := dir.files.models;
      var closed := ClosedIds(records);
      var i := |records|;
      assert records[..i] == records;
      while i > 0
        invariant 0 <= i <= |records|
        invariant LatestOpen(records, closed, role, model) == LatestOpen(records[..i], closed, role, model)
      {
        i := i - 1;
        var r := records[i];
        assert records[..i + 1][..i] == records[..i];
        if r.ModelStarted? && r.id !in closed {
          if r.role == role && r.model == model {
            return r.id;
          }
        }
      }
      return "";
    }

    method LogModelCallFinished(role: string, model: string, id: string, failed: bool)
      requires Valid()
      modifies this, dir
      ensures View() == if enabled then LogModelFinished(old(View()), role, model, id, failed) else old(View())
      ensures Valid()
      ensures enabled && id == "" && ClosedKnown(old(View())) ==>
                OpenCalls(View(), role, model) == Pop(OpenCalls(old(View()), role, model))
      ensures enabled ==>
                && (exists n, callId ::
                      && (id != "" ==> callId == id)
                      && dir.files.models == old(dir.files.models) + [ModelClosed(n, callId, role, model, failed)])
                && Announces(old(dir.files), dir.files,
                             if failed then ["exception_recorded", "model_call_failed"]
                             else ["model_response_received"])
    {
      hide LedgerSpec.LogEvent, NumberedId, WellFormed, Sound, OpenCalls, Pop, ClosedKnown, LatestOpen, ClosedIds;
      FullIsSound(View());
      ModelFinishedKeeps(View(), role, model, id, failed);
      if ClosedKnown(View()) {
        FinishPops(View(), role, model, failed, role, model);
      }
      if !enabled {
        return;
      }
      var callId := id;
      if id == "" {
        callId := LatestOpenModelCall(role, model);
      }
      if failed {
        LogEvent("exception_recorded", NoFields);
      }
      var n := Correlation();
      AppendJsonl(Models, ModelClosed(n, callId, role, model, failed));
      LogEvent(if failed then "model_call_failed" else "model_response_received", NoFields);
    }

    method LogModelThinking(id: string, role: string, model: string, blank: bool)
      requires Valid()
      modifies this, dir
      ensures View() == if enabled
                        then LedgerSpec.LogModelThinking(old(View()), id, role, model, blank)
                        else old(View())
      ensures Valid()
      ensures enabled && !blank ==>
                && dir.files.models == old(dir.files.models) + [ModelThinking(old(sequence) + 1, id, role, model)]
                && Announces(old(dir.files), dir.files, ["model_thinking_captured"])
    {
      hide LedgerSpec.LogEvent, NumberedId, WellFormed, Sound;
      FullIsSound(View());
      ModelThinkingKeeps(View(), id, role, model, blank);
      if !enabled || blank {
        return;
      }
      var n := Correlation();
      AppendJsonl(Models, ModelThinking(n, id, role, model));
      LogEvent("model_thinking_captured", NoFields);
    }

    method LogCommandStart(command: string) returns (id: string)
      requires Valid()
      modifies this, dir
      ensures View() == if enabled then LedgerSpec.LogCommandStart(old(View()), command) else old(View())
      ensures id == if enabled then CommandId(old(commandSeq)) else ""
      ensures Valid()
      ensures enabled ==>
                && Announces(old(dir.files), dir.files, ["command_started"])
                && dir.files.events[|old(dir.files.events)|].fields.command == command
                && dir.files.events[|old(dir.files.events)|].fields.commandId == id
    {
      hide LedgerSpec.LogEvent, NumberedId, WellFormed, Sound;
      FullIsSound(View());
      CommandKeeps(View(), "", command, 0, false);
      if !enabled {
        return "";
      }
      id := CommandId(commandSeq);
      commandSeq := commandSeq + 1;
      LogEvent("command_started", NoFields.(command := command, commandId := id));
    }

    method LogCommandFinish(id: string, command: string, exitCode: int, keep: bool)
      requires Valid()
      modifies this, dir
      ensures View() == if enabled
                        then LedgerSpec.LogCommandFinish(old(View()), id, command, exitCode, keep)
                        else old(View())
      ensures Valid()
      ensures enabled && id != "" ==>
                && Announces(old(dir.files), dir.files, ["command_finished"])
                && dir.files.events[|old(dir.files.events)|].fields == Fields(exitCode, "", command, [], id)
                && dir.files.keptCommands
                   == old(dir.files.keptCommands) + if keep && "cmd_" <= id then {id} else {}
    {
      hide LedgerSpec.LogEvent, NumberedId, WellFormed, Sound;
      FullIsSound(View());
      CommandKeeps(View(), id, command, exitCode, keep);
      if !enabled || id == "" {
        return;
      }
      if keep && "cmd_" <= id {
        dir.files := dir.files.(keptCommands := dir.files.keptCommands + {id});
      }
      LogEvent("command_finished", Fields(exitCode, "", command, [], id));
    }

    method LogMutationFinished(transaction: string, status: string)
      requires Valid()
      modifies this, dir
      ensures View() == if enabled then LogMutation(old(View()), transaction, status) else old(View())
      ensures Valid()
      ensures enabled ==>
                && dir.files.mutations == old(dir.files.mutations) + [Mutation(old(sequence) + 1, transaction, status)]
                && Announces(old(dir.files), dir.files,
                             if status == "applied" || status == "rolled_back" then ["mutation_finished"]
                             else ["mutation_failed"])
    {
      hide LedgerSpec.LogEvent, NumberedId, WellFormed, Sound;
      FullIsSound(View());
      MutationKeeps(View(), transaction, status);
      if !enabled {
        return;
      }
      var n := Correlation();
      AppendJsonl(Mutations, Mutation(n, transaction, status));
      LogEvent(if status in {"applied", "rolled_back"} then "mutation_finished" else "mutation_failed", NoFields);
    }

    method LogContextPreview(modelCall: string)
      requires Valid()
      modifies this, dir
      ensures View() == if enabled then LogContext(old(View()), modelCall) else old(View())
      ensures Valid()
      ensures enabled ==>
                var r := Context(old(sequence) + 1, ContextId(old(contextSeq)), modelCall);
                && dir.files.preview == Some(r)
                && dir.files.contexts == old(dir.files.contexts) + (if verbose then [r] else [])
                && Announces(old(dir.files), dir.files, ["context_pack_built"])
    {
      hide LedgerSpec.LogEvent, NumberedId, WellFormed, Sound;
      FullIsSound(View());
      ContextKeeps(View(), modelCall);
      if !enabled {
        return;
      }
      var id := ContextId(contextSeq);
      contextSeq := contextSeq + 1;
      var n := Correlation();
      var r := Context(n, id, modelCall);
      if verbose {
        AppendJsonl(Contexts, r);
      }
      dir.files := dir.files.(preview := Some(r));
      LogEvent("context_pack_built", NoFields);
    }

    method Start()
      requires Valid()
      modifies this, dir
      ensures View() == if enabled then LedgerSpec.Start(old(View())) else old(View())
      ensures Valid()
      ensures enabled ==>
                && dir.files.status == Some("running")
                && Announces(old(dir.files), dir.files, ["run_started", "user_prompt_received"])
    {
      hide LedgerSpec.LogEvent, NumberedId, WellFormed, Sound;
      FullIsSound(View());
      StartKeeps(View());
      if !enabled {
        return;
      }
      var _ := Correlation();
      dir.files := dir.files.(status := Some("running"));
      LogEvent("run_started", NoFields);
      LogEvent("user_prompt_received", NoFields);
    }

    method RecordFinalResponse(output: string)
      requires Valid()
      modifies this, dir
      ensures View() == if enabled then LedgerSpec.RecordFinalResponse(old(View()), output) else old(View())
      ensures Valid()
      ensures enabled ==>
                && dir.files.finalOutput == Some(output)
                && Announces(old(dir.files), dir.files, ["final_response_written"])
                && (dir.files.summary.Some? <==> old(dir.files.summary).Some?)
                && (dir.files.summary.Some? ==>
                      dir.files.summary.value == old(dir.files.summary).value.(events := |dir.files.events|))
    {
      hide LedgerSpec.LogEvent, NumberedId, WellFormed, Sound;
      FullIsSound(View());
      FinalResponseKeeps(View(), output);
      if !enabled {
        return;
      }
      dir.files := dir.files.(finalOutput := Some(output));
      LogEvent("final_response_written", NoFields);
      if dir.files.summary.Some? {
        dir.files := dir.files.(summary := Some(dir.files.summary.value.(events := |dir.files.events|)));
      }
    }

    /** Two passes, each over the stream as it stood when the pass began. */
    method CloseOpenRecords()
      requires enabled && Valid()
      modifies this, dir
      ensures View() == LedgerSpec.CloseOpenRecords(old(View()))
      ensures Valid() && NothingOpen(dir.files)
      ensures ClosedFrom(old(dir.files), dir.files)
    {
      hide WellFormed, LedgerSpec.LogToolResult, LogModelFinished, ClosedFrom, Announces;
      ClosingCloses(View());
      var tools := dir.files.tools;
      var finished := FinishedIds(tools);
      for i := 0 to |tools|
        invariant Valid()
        invariant CloseTools(View(), tools[i..], finished) == CloseTools(old(View()), tools, finished)
      {
        var r := tools[i];
        assert tools[i..][1..] == tools[i + 1..];
        if r.ToolCalled? && r.id !in finished {
          LogToolResult(r.id, r.tool, false);
        }
      }
      ghost var mid := View();
      var models := dir.files.models;
      var closed := ClosedIds(models);
      for i := 0 to |models|
        invariant Valid()
        invariant CloseModels(View(), models[i..], closed) == CloseModels(mid, models, closed)
      {
        var r := models[i];
        assert models[i..][1..] == models[i + 1..];
        if r.ModelStarted? && r.id !in closed {
          LogModelCallFinished(r.role, r.model, r.id, true);
        }
      }
    }

    /** An outcome outside the known ones is refused; a run already ended is left alone. */
    method Finish(output: string, status: string) returns (ok: bool)
      requires Valid()
      modifies this, dir
      ensures ok <==> !enabled || status in TERMINAL
      ensures View() == if enabled && ok then LedgerSpec.Finish(old(View()), output, status) else old(View())
      ensures Valid()
      ensures enabled && ok && !Ended(old(dir.files)) ==> FinishedFrom(old(dir.files), dir.files, output, status)
      ensures enabled && ok && !Ended(old(dir.files)) && Linked(old(dir.files)) ==> Accepted(dir.files)
      ensures Ended(old(dir.files)) ==> dir.files == old(dir.files)
    {
      hide LedgerSpec.CloseOpenRecords, LedgerSpec.RecordFinalResponse, LedgerSpec.LogEvent, Openings, WellFormed,
          FinishedFrom, Linked, Accepted, ClosedFrom, Announces, EventId, NumberedId, Put, Get,
          NothingOpen, Sound, CalledIds, FinishedIds, StartedIds, ClosedIds;
      Ending(View(), output, status);
      if !enabled {
        return true;
      }
      if status !in TERMINAL {
        return false;
      }
      if Ended(dir.files) {
        return true;
      }
      CloseOpenRecords();
      if dir.files.finalOutput != Some(output) {
        RecordFinalResponse(output);
      }
      if dir.files.status.None? {
        var _ := Correlation();
      }
      dir.files := dir.files.(status := Some(status));
      LogEvent(if status in {"success", "success_unverified"} then "run_finished" else "run_failed", NoFields);
      var _ := Correlation();
      var tools := CountOpenings(dir.files.tools);
      var models := CountOpenings(dir.files.models);
      dir.files := dir.files.(summary :=
        Some(Summary(status, |dir.files.events|, |dir.files.decisions|, tools, models)));
      return true;
    }
  }

  lemma FreshToolId(l: Ledger, tool: string, path: string)
    requires WellFormed(l)
    ensures ToolId(l.toolSeq) !in CalledIds(l.files.tools)
    ensures ToolId(l.toolSeq) in CalledIds(LogToolCall(l, tool, path).files.tools)
  {
    hide NumberedId;
    AppendIds(l.files.tools, ToolCalled(l.sequence + 1, ToolId(l.toolSeq), tool, path));
    var rs := l.files.tools;
    assert Numbered(l.files) && l.toolSeq == |Openings(rs)|;
    OpeningsMembers(rs);
    forall r | r in rs && r.ToolCalled?
      ensures r.id != ToolId(l.toolSeq)
    {
      var k :| 0 <= k < |Openings(rs)| && Openings(rs)[k] == r;
      if ToolId(k) == ToolId(l.toolSeq) {
        IdsDistinct("tool", k, l.toolSeq, 4);
      }
    }
  }

  lemma FreshModelId(l: Ledger, role: string, model: string)
    requires WellFormed(l)
    ensures ModelId(l.modelSeq) !in StartedIds(l.files.models)
    ensures ModelId(l.modelSeq) in StartedIds(LogModelStarted(l, role, model).files.models)
  {
    hide NumberedId, WellFormed;
    AppendIds(l.files.models, ModelStarted(l.sequence + 1, ModelId(l.modelSeq), role, model));
    StartsOf(l);
  }

  lemma ClosingCloses(l: Ledger)
    requires WellFormed(l)
    ensures NothingOpen(CloseOpenRecords(l).files) && ClosedFrom(l.files, CloseOpenRecords(l).files)
  {
    hide WellFormed, CalledIds, FinishedIds, StartedIds, ClosedIds, CloseOpenRecords, ClosedFrom;
    ClosingEffect(l);
  }

  lemma Ending(l: Ledger, output: string, status: string)
    requires WellFormed(l)
    ensures status in TERMINAL ==> WellFormed(Finish(l, output, status))
    ensures status in TERMINAL && !Ended(l.files) ==>
        FinishedFrom(l.files, Finish(l, output, status).files, output, status)
    ensures status in TERMINAL && !Ended(l.files) && Linked(l.files) ==> Accepted(Finish(l, output, status).files)
    ensures status in TERMINAL && Ended(l.files) ==> Finish(l, output, status) == l
  {
    hide WellFormed, Finish, FinishedFrom, Linked, Accepted;
    if status in TERMINAL {
      FinishKeeps(l, output, status);
      if Ended(l.files) {
        EndedAlready(l, output, status);
      } else {
        FinishEffect(l, output, status);
        if Linked(l.files) {
          EndedAccepted(l, output, status);
        }
      }
    }
  }
}
