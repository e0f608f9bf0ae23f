/**
  What holds of a run directory and its writer at every point of every run, across
  any number of writer processes: one global strictly increasing sequence, and ids
  that are never issued twice.
 */
module LedgerInvariant {
  import opened Basics
  import opened RunRecords
  import opened LedgerSpec

  ghost predicate Increasing(rs: seq<Record>) {
    forall i, j :: 0 <= i < j < |rs| ==> rs[i].sequence < rs[j].sequence
  }

  ghost predicate Within(rs: seq<Record>, top: nat) {
    forall r :: r in rs ==> 0 < r.sequence <= top
  }

  ghost predicate Apart(rs: seq<Record>, ts: seq<Record>) {
    forall r, t :: r in rs && t in ts ==> r.sequence != t.sequence
  }

  /**
    Sequence numbers are positive and at most `top`, they rise within each stream, and
    no two streams share one.  The latest preview is also a context file or stands apart.
   */
  ghost predicate Sequenced(f: RunFiles, top: nat) {
    && (forall s: Stream :: Increasing(Get(f, s)) && Within(Get(f, s), top))
    && (forall s: Stream, s': Stream :: s != s' ==> Apart(Get(f, s), Get(f, s')))
    && (f.preview.Some? ==> 0 < f.preview.value.sequence <= top)
    && (f.preview.Some? ==> forall s: Stream :: s != Contexts ==> Apart([f.preview.value], Get(f, s)))
  }

  /** No context file carries a number above those of the JSONL streams, which are all a reopened writer looks at. */
  ghost predicate Covered(f: RunFiles) {
    && (forall r :: r in f.contexts ==> r.sequence <= MaxSequence(f))
    && (f.preview.Some? ==> f.preview.value.sequence <= MaxSequence(f))
  }

  /** The k-th event, decision, tool call, model call and context file carry the k-th id. */
  ghost predicate Numbered(f: RunFiles) {
    && (forall k :: 0 <= k < |f.events| ==> f.events[k].Event? && f.events[k].id == EventId(k))
    && (forall k :: 0 <= k < |f.decisions| ==> f.decisions[k].Decision? && f.decisions[k].id == DecisionId(k))
    && (forall k :: 0 <= k < |Openings(f.tools)| ==> Openings(f.tools)[k].id == ToolId(k))
    && (forall k :: 0 <= k < |Openings(f.models)| ==> Openings(f.models)[k].id == ModelId(k))
    && (forall k :: 0 <= k < |f.contexts| ==> f.contexts[k].id == ContextId(k))
    && (forall r :: r in f.tools ==> r.ToolCalled? || r.ToolFinished?)
    && (forall r :: r in f.models ==> r.ModelStarted? || r.ModelClosed? || r.ModelThinking?)
  }

  /** The counters in memory are the ones a new process would rebuild from the files. */
  ghost predicate Counted(l: Ledger) {
    && l.eventSeq == |l.files.events|
    && l.decisionSeq == |l.files.decisions|
    && l.toolSeq == |Openings(l.files.tools)|
    && l.modelSeq == |Openings(l.files.models)|
    && (l.verbose ==> l.contextSeq == |l.files.contexts|)
  }

  ghost predicate Sound(l: Ledger) {
    Sequenced(l.files, l.sequence) && Numbered(l.files) && Counted(l)
  }

  ghost predicate WellFormed(l: Ledger) {
    Sound(l) && Covered(l.files)
  }

  // ---- the sequence survives every append and every reopen ----------------------------

  lemma MaxSequenceBounds(f: RunFiles, s: Stream, r: Record)
    requires s != Contexts && r in Get(f, s)
    ensures r.sequence <= MaxSequence(f)
  {
    MaxStampBounds(Get(f, s));
  }

  lemma GetPut(f: RunFiles, s: Stream, rs: seq<Record>)
    ensures Get(Put(f, s, rs), s) == rs
    ensures forall s' :: s' != s ==> Get(Put(f, s, rs), s') == Get(f, s')
    ensures Put(f, s, rs).preview == f.preview
  {
  }

  lemma AppendRises(rs: seq<Record>, top: nat, r: Record)
    requires Increasing(rs) && Within(rs, top) && r.sequence == top + 1
    ensures Increasing(rs + [r]) && Within(rs + [r], top + 1)
  {
    assert forall i :: 0 <= i < |rs| ==> rs[i] in rs;
  }

  lemma AppendApart(rs: seq<Record>, ts: seq<Record>, top: nat, r: Record)
    requires Apart(rs, ts) && Within(ts, top) && r.sequence == top + 1
    ensures Apart(rs + [r], ts) && Apart(ts, rs + [r])
  {
  }

  lemma AppendSequenced(f: RunFiles, top: nat, s: Stream, r: Record)
    requires Sequenced(f, top) && r.sequence == top + 1
    ensures Sequenced(Put(f, s, Get(f, s) + [r]), top + 1)
  {
    hide Increasing, Apart, Get, Put;
    var f' := Put(f, s, Get(f, s) + [r]);
    GetPut(f, s, Get(f, s) + [r]);
    AppendRises(Get(f, s), top, r);
    forall s': Stream
      ensures Increasing(Get(f', s')) && Within(Get(f', s'), top + 1)
    {
      assert Within(Get(f, s'), top);
    }
    forall s': Stream, t: Stream | s' != t
      ensures Apart(Get(f', s'), Get(f', t))
    {
      AppendKeepsApart(f, top, s, r, s', t);
    }
    if f.preview.Some? && s != Contexts {
      assert Apart([f.preview.value], Get(f, s));
      AppendApart(Get(f, s), [f.preview.value], top, r) by {
        ApartSwap([f.preview.value], Get(f, s));
      }
    }
  }

  lemma ApartSwap(rs: seq<Record>, ts: seq<Record>)
    requires Apart(rs, ts)
    ensures Apart(ts, rs)
  {
  }

  lemma AppendKeepsApart(f: RunFiles, top: nat, s: Stream, r: Record, s': Stream, t: Stream)
    requires Sequenced(f, top) && r.sequence == top + 1 && s' != t
    ensures Apart(Get(Put(f, s, Get(f, s) + [r]), s'), Get(Put(f, s, Get(f, s) + [r]), t))
  {
    hide Increasing, Apart, Get, Put;
    GetPut(f, s, Get(f, s) + [r]);
    assert Apart(Get(f, s'), Get(f, t)) && Apart(Get(f, t), Get(f, s'));
    if s == s' {
      AppendApart(Get(f, s), Get(f, t), top, r);
    } else if s == t {
      AppendApart(Get(f, s), Get(f, s'), top, r);
    }
  }

  lemma AppendCovers(f: RunFiles, top: nat, s: Stream, r: Record)
    requires Sequenced(f, top) && r.sequence == top + 1 && s != Contexts
    ensures Covered(Put(f, s, Get(f, s) + [r]))
  {
    var f' := Put(f, s, Get(f, s) + [r]);
    assert r in Get(f', s);
    MaxSequenceBounds(f', s, r);
    assert Within(Get(f, Contexts), top);
  }

  lemma PreviewSequenced(f: RunFiles, top: nat, r: Record)
    requires Sequenced(f, top) && r.sequence == top
    requires forall s: Stream :: s != Contexts ==> Apart([r], Get(f, s))
    requires top > 0
    ensures Sequenced(f.(preview := Some(r)), top)
  {
    var f' := f.(preview := Some(r));
    forall s: Stream
      ensures Get(f', s) == Get(f, s)
    {
    }
  }

  lemma ContextSequenced(l: Ledger, modelCall: string)
    requires Sequenced(l.files, l.sequence)
    ensures Sequenced(WriteContext(l, modelCall).files, l.sequence + 1)
  {
    var r := WriteContext(l, modelCall).files.preview.value;
    var f' := if l.verbose then Put(l.files, Contexts, Get(l.files, Contexts) + [r]) else l.files;
    AppendSequenced(l.files, l.sequence, Contexts, r);
    forall s: Stream | s != Contexts
      ensures Apart([r], Get(f', s))
    {
      assert Get(f', s) == Get(l.files, s) && Within(Get(l.files, s), l.sequence);
    }
    PreviewSequenced(f', l.sequence + 1, r);
  }

  /** The highest number on disk is a sound place to continue from. */
  lemma ReopenSequenced(f: RunFiles, top: nat)
    requires Sequenced(f, top) && Covered(f)
    ensures Sequenced(f, MaxSequence(f))
  {
    forall s: Stream
      ensures Within(Get(f, s), MaxSequence(f))
    {
      assert Within(Get(f, s), top);
      forall r | r in Get(f, s)
        ensures r.sequence <= MaxSequence(f)
      {
        if s != Contexts {
          MaxSequenceBounds(f, s, r);
        }
      }
    }
  }

  // ---- every logging call keeps the invariant ------------------------------------------

  /** A record that carries the next id of its stream, where the stream numbers its records. */
  ghost predicate Fits(l: Ledger, s: Stream, r: Record) {
    match s
    case Events => r.Event? && r.id == EventId(l.eventSeq)
    case Decisions => r.Decision? && r.id == DecisionId(l.decisionSeq)
    case Tools => (r.ToolCalled? && r.id == ToolId(l.toolSeq)) || r.ToolFinished?
    case Models => (r.ModelStarted? && r.id == ModelId(l.modelSeq)) || r.ModelClosed? || r.ModelThinking?
    case Mutations => true
    case Contexts => l.verbose && r.id == ContextId(l.contextSeq)
  }

  function Bump(l: Ledger, s: Stream, r: Record): Ledger {
    match s
    case Events => l.(eventSeq := l.eventSeq + 1)
    case Decisions => l.(decisionSeq := l.decisionSeq + 1)
    case Tools => if r.ToolCalled? then l.(toolSeq := l.toolSeq + 1) else l
    case Models => if r.ModelStarted? then l.(modelSeq := l.modelSeq + 1) else l
    case Mutations => l
    case Contexts => l.(contextSeq := l.contextSeq + 1)
  }

  lemma AppendNumbered(l: Ledger, s: Stream, r: Record)
    requires Numbered(l.files) && Counted(l) && r.sequence == l.sequence + 1 && Fits(l, s, r)
    ensures Numbered(Append(l, s, r).files) && Counted(Bump(Append(l, s, r), s, r))
  {
    hide Openings, NumberedId;
    match s {
      case Tools =>
        OpeningsAppend(l.files.tools, r);
      case Models =>
        OpeningsAppend(l.files.models, r);
      case _ =>
    }
  }

  lemma AppendSound(l: Ledger, s: Stream, r: Record)
    requires Sound(l) && r.sequence == l.sequence + 1 && Fits(l, s, r)
    ensures Sound(Bump(Append(l, s, r), s, r))
    ensures s != Contexts ==> WellFormed(Bump(Append(l, s, r), s, r))
  {
    hide Sequenced, Numbered, Counted, Covered, Fits;
    AppendSequenced(l.files, l.sequence, s, r);
    AppendNumbered(l, s, r);
    if s != Contexts {
      AppendCovers(l.files, l.sequence, s, r);
    }
  }

  /** Any event restores the full invariant, whatever was written just before it. */
  lemma EventKeeps(l: Ledger, kind: string, fields: Fields)
    requires Sound(l)
    ensures WellFormed(LogEvent(l, kind, fields))
  {
    hide Sound, WellFormed;
    AppendSound(l, Events, Event(l.sequence + 1, EventId(l.eventSeq), kind, fields));
  }

  lemma ToolResultKeeps(l: Ledger, id: string, tool: string, ok: bool)
    requires Sound(l)
    ensures WellFormed(LogToolResult(l, id, tool, ok))
  {
    hide Sound, WellFormed;
    AppendSound(l, Tools, ToolFinished(l.sequence + 1, id, tool, ok));
    EventKeeps(Append(l, Tools, ToolFinished(l.sequence + 1, id, tool, ok)), "tool_finished", NoFields);
  }

  lemma FullIsSound(l: Ledger)
    requires WellFormed(l)
    ensures Sound(l)
  {
  }

  lemma ModelFinishedKeeps(l: Ledger, role: string, model: string, id: string, failed: bool)
    requires WellFormed(l)
    ensures WellFormed(LogModelFinished(l, role, model, id, failed))
  {
    hide Sound, WellFormed, LatestOpen;
    FullIsSound(l);
    EventKeeps(l, "exception_recorded", NoFields);
    var callId := if id != "" then id else LatestOpen(l.files.models, ClosedIds(l.files.models), role, model);
    var l' := if failed then LogEvent(l, "exception_recorded", NoFields) else l;
    FullIsSound(l');
    var r := ModelClosed(l'.sequence + 1, callId, role, model, failed);
    AppendSound(l', Models, r);
    EventKeeps(Append(l', Models, r), if failed then "model_call_failed" else "model_response_received", NoFields);
  }

  lemma ContextKeeps(l: Ledger, modelCall: string)
    requires WellFormed(l)
    ensures WellFormed(LogContext(l, modelCall))
  {
    ContextSequenced(l, modelCall);
    var r := Context(l.sequence + 1, ContextId(l.contextSeq), modelCall);
    if l.verbose {
      AppendNumbered(l, Contexts, r);
    }
    EventKeeps(WriteContext(l, modelCall), "context_pack_built", NoFields);
  }

  /** Files the invariant does not speak of can change freely; so can the command counter. */
  ghost predicate SameStreams(f: RunFiles, f': RunFiles) {
    && f.events == f'.events && f.decisions == f'.decisions && f.tools == f'.tools && f.models == f'.models
    && f.mutations == f'.mutations && f.contexts == f'.contexts && f.preview == f'.preview
  }

  lemma OtherFilesKeep(l: Ledger, l': Ledger)
    requires SameStreams(l.files, l'.files) && l.sequence <= l'.sequence && l.verbose == l'.verbose
    requires l.eventSeq == l'.eventSeq && l.decisionSeq == l'.decisionSeq
    requires l.toolSeq == l'.toolSeq && l.modelSeq == l'.modelSeq && l.contextSeq == l'.contextSeq
    ensures Sound(l) ==> Sound(l')
    ensures WellFormed(l) ==> WellFormed(l')
  {
    assert forall s: Stream :: Get(l.files, s) == Get(l'.files, s);
    if Sound(l) {
      assert forall s: Stream :: Within(Get(l.files, s), l.sequence) ==> Within(Get(l.files, s), l'.sequence);
    }
  }

  lemma {:induction false} CloseToolsKeeps(l: Ledger, snapshot: seq<Record>, finished: set<string>)
    requires WellFormed(l)
    ensures WellFormed(CloseTools(l, snapshot, finished))
    decreases |snapshot|
  {
    hide WellFormed;
    if snapshot != [] {
      var r := snapshot[0];
      FullIsSound(l);
      if r.ToolCalled? && r.id !in finished {
        ToolResultKeeps(l, r.id, r.tool, false);
        CloseToolsKeeps(LogToolResult(l, r.id, r.tool, false), snapshot[1..], finished);
      } else {
        CloseToolsKeeps(l, snapshot[1..], finished);
      }
    }
  }

  lemma {:induction false} CloseModelsKeeps(l: Ledger, snapshot: seq<Record>, closed: set<string>)
    requires WellFormed(l)
    ensures WellFormed(CloseModels(l, snapshot, closed))
    decreases |snapshot|
  {
    hide WellFormed;
    if snapshot != [] {
      var r := snapshot[0];
      if r.ModelStarted? && r.id !in closed {
        ModelFinishedKeeps(l, r.role, r.model, r.id, true);
        CloseModelsKeeps(LogModelFinished(l, r.role, r.model, r.id, true), snapshot[1..], closed);
      } else {
        CloseModelsKeeps(l, snapshot[1..], closed);
      }
    }
  }

  lemma FinalResponseKeeps(l: Ledger, output: string)
    requires WellFormed(l)
    ensures WellFormed(RecordFinalResponse(l, output))
  {
    hide WellFormed, Sound;
    var l1 := l.(files := l.files.(finalOutput := Some(output)));
    OtherFilesKeep(l, l1);
    FullIsSound(l1);
    EventKeeps(l1, "final_response_written", NoFields);
    OtherFilesKeep(LogEvent(l1, "final_response_written", NoFields), RecordFinalResponse(l, output));
  }

  lemma FinishKeeps(l: Ledger, output: string, status: string)
    requires WellFormed(l) && status in TERMINAL
    ensures WellFormed(Finish(l, output, status))
  {
    hide WellFormed, Sound, CloseTools, CloseModels, Summarize, RecordFinalResponse;
    if !Ended(l.files) {
      var l0 := CloseTools(l, l.files.tools, FinishedIds(l.files.tools));
      CloseToolsKeeps(l, l.files.tools, FinishedIds(l.files.tools));
      CloseModelsKeeps(l0, l0.files.models, ClosedIds(l0.files.models));
      var l1 := CloseOpenRecords(l);
      FinalResponseKeeps(l1, output);
      var l2 := if l1.files.finalOutput != Some(output) then RecordFinalResponse(l1, output) else l1;
      var l3 := if l2.files.status.None? then Stamp(l2) else l2;
      var l4 := l3.(files := l3.files.(status := Some(status)));
      OtherFilesKeep(l2, l4);
      FullIsSound(l4);
      var kind := if status in {"success", "success_unverified"} then "run_finished" else "run_failed";
      EventKeeps(l4, kind, NoFields);
      OtherFilesKeep(LogEvent(l4, kind, NoFields), Finish(l, output, status));
    }
  }

  lemma StartKeeps(l: Ledger)
    requires WellFormed(l)
    ensures WellFormed(Start(l))
  {
    hide WellFormed, Sound;
    var l1 := Stamp(l).(files := l.files.(status := Some("running")));
    OtherFilesKeep(l, l1);
    FullIsSound(l1);
    EventKeeps(l1, "run_started", NoFields);
    FullIsSound(LogEvent(l1, "run_started", NoFields));
    EventKeeps(LogEvent(l1, "run_started", NoFields), "user_prompt_received", NoFields);
  }

  /** A new process continues where the files stand. */
  lemma ReopenKeeps(l: Ledger, verbose: bool)
    requires WellFormed(l)
    ensures WellFormed(Open(l.files, verbose))
  {
    ReopenSequenced(l.files, l.sequence);
  }

  lemma DecisionKeeps(l: Ledger, decision: string)
    requires Sound(l)
    ensures WellFormed(LogDecision(l, decision))
  {
    hide WellFormed, Sound;
    var r := Decision(l.sequence + 1, DecisionId(l.decisionSeq), decision);
    AppendSound(l, Decisions, r);
    EventKeeps(Bump(Append(l, Decisions, r), Decisions, r), "decision_recorded", NoFields);
  }

  lemma ToolCallKeeps(l: Ledger, tool: string, path: string)
    requires Sound(l)
    ensures WellFormed(LogToolCall(l, tool, path))
  {
    hide WellFormed, Sound;
    var r := ToolCalled(l.sequence + 1, ToolId(l.toolSeq), tool, path);
    AppendSound(l, Tools, r);
    EventKeeps(Bump(Append(l, Tools, r), Tools, r), "tool_called", NoFields);
  }

  lemma ModelStartedKeeps(l: Ledger, role: string, model: string)
    requires Sound(l)
    ensures WellFormed(LogModelStarted(l, role, model))
  {
    hide WellFormed, Sound;
    var r := ModelStarted(l.sequence + 1, ModelId(l.modelSeq), role, model);
    AppendSound(l, Models, r);
    EventKeeps(Bump(Append(l, Models, r), Models, r), role + "_model_called", NoFields);
  }

  lemma ModelThinkingKeeps(l: Ledger, id: string, role: string, model: string, blank: bool)
    requires WellFormed(l)
    ensures WellFormed(LogModelThinking(l, id, role, model, blank))
  {
    hide WellFormed, Sound;
    FullIsSound(l);
    var r := ModelThinking(l.sequence + 1, id, role, model);
    AppendSound(l, Models, r);
    EventKeeps(Append(l, Models, r), "model_thinking_captured", NoFields);
  }

  lemma CommandKeeps(l: Ledger, id: string, command: string, exitCode: int, keep: bool)
    requires WellFormed(l)
    ensures WellFormed(LogCommandStart(l, command)) && WellFormed(LogCommandFinish(l, id, command, exitCode, keep))
  {
    hide WellFormed, Sound, NumberedId;
    FullIsSound(l);
    var begun := l.(commandSeq := l.commandSeq + 1);
    OtherFilesKeep(l, begun);
    EventKeeps(begun, "command_started", NoFields.(command := command, commandId := CommandId(l.commandSeq)));
    var kept := if keep && "cmd_" <= id then l.files.keptCommands + {id} else l.files.keptCommands;
    var ended := l.(files := l.files.(keptCommands := kept));
    OtherFilesKeep(l, ended);
    EventKeeps(ended, "command_finished", Fields(exitCode, "", command, [], id));
  }

  lemma MutationKeeps(l: Ledger, transaction: string, status: string)
    requires Sound(l)
    ensures WellFormed(LogMutation(l, transaction, status))
  {
    hide WellFormed, Sound;
    var r := Mutation(l.sequence + 1, transaction, status);
    AppendSound(l, Mutations, r);
    EventKeeps(Append(l, Mutations, r),
               if status in {"applied", "rolled_back"} then "mutation_finished" else "mutation_failed", NoFields);
  }

  lemma ApplyKeeps(l: Ledger, op: Op)
    requires WellFormed(l)
    ensures WellFormed(Apply(l, op))
  {
    hide WellFormed, Sound, LogEvent, LogDecision, LogToolCall, LogToolResult, LogModelStarted, LogModelFinished;
    hide LogModelThinking, LogCommandStart, LogCommandFinish, LogMutation, LogContext, RecordFinalResponse, Start,
        Finish, Open;
    FullIsSound(l);
    match op {
      case Begin => StartKeeps(l);
      case Note(kind, fields) => EventKeeps(l, kind, fields);
      case Decide(decision) => DecisionKeeps(l, decision);
      case Call(tool, path) => ToolCallKeeps(l, tool, path);
      case Result(id, tool, ok) => ToolResultKeeps(l, id, tool, ok);
      case Ask(role, model) => ModelStartedKeeps(l, role, model);
      case Answer(role, model, id, failed) => ModelFinishedKeeps(l, role, model, id, failed);
      case Think(id, role, model, blank) => ModelThinkingKeeps(l, id, role, model, blank);
      case CommandBegin(command) => CommandKeeps(l, "", command, 0, false);
      case CommandEnd(id, command, exitCode, keep) => CommandKeeps(l, id, command, exitCode, keep);
      case Mutate(transaction, status) => MutationKeeps(l, transaction, status);
      case Pack(modelCall) => ContextKeeps(l, modelCall);
      case Respond(output) => FinalResponseKeeps(l, output);
      case End(output, status) =>
        if status in TERMINAL {
          FinishKeeps(l, output, status);
        }
      case Reopen(verbose) => ReopenKeeps(l, verbose);
    }
  }

  lemma FreshWellFormed(verbose: bool)
    ensures WellFormed(Open(NoFiles, verbose))
  {
    assert forall s: Stream :: Get(NoFiles, s) == [];
  }

  /** The invariant holds after every run, however often the writer is replaced. */
  lemma {:induction false} RunWellFormed(verbose: bool, ops: seq<Op>)
    ensures WellFormed(Run(Open(NoFiles, verbose), ops))
  {
    hide WellFormed, Apply;
    if ops == [] {
      FreshWellFormed(verbose);
    } else {
      RunWellFormed(verbose, ops[..|ops| - 1]);
      ApplyKeeps(Run(Open(NoFiles, verbose), ops[..|ops| - 1]), ops[|ops| - 1]);
    }
  }
}
