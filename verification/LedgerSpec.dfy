/**
  The run ledger as a state machine: the files of a run, the writer's counters, and
  what each logging call does to both.
 */
module LedgerSpec {
  import opened Basics
  import opened RunRecords

  datatype Ledger = Ledger(
    files: RunFiles,
    sequence: nat,
    eventSeq: nat,
    decisionSeq: nat,
    toolSeq: nat,
    modelSeq: nat,
    contextSeq: nat,
    commandSeq: nat,
    verbose: bool)

  /** A writer opened on what is on disk: every counter is rebuilt from the files. */
  function Open(files: RunFiles, verbose: bool): Ledger {
    Ledger(files, MaxSequence(files),
           |files.events|, |files.decisions|,
           |Openings(files.tools)|, |Openings(files.models)|,
           |files.contexts|, |files.keptCommands|,
           verbose)
  }

  // ---- appending ---------------------------------------------------------------

  /** The streams of a run; every one but the context files is a JSONL file. */
  datatype Stream = Events | Decisions | Tools | Models | Mutations | Contexts

  function Get(f: RunFiles, s: Stream): seq<Record> {
    match s
    case Events => f.events
    case Decisions => f.decisions
    case Tools => f.tools
    case Models => f.models
    case Mutations => f.mutations
    case Contexts => f.contexts
  }

  function Put(f: RunFiles, s: Stream, rs: seq<Record>): RunFiles {
    match s
    case Events => f.(events := rs)
    case Decisions => f.(decisions := rs)
    case Tools => f.(tools := rs)
    case Models => f.(models := rs)
    case Mutations => f.(mutations := rs)
    case Contexts => f.(contexts := rs)
  }

  /** Taking the next sequence number for something no stream holds. */
  function Stamp(l: Ledger): Ledger {
    l.(sequence := l.sequence + 1)
  }

  /** Taking the next sequence number and appending the record that carries it. */
  function Append(l: Ledger, s: Stream, r: Record): Ledger
    requires r.sequence == l.sequence + 1
  {
    l.(sequence := r.sequence, files := Put(l.files, s, Get(l.files, s) + [r]))
  }

  // ---- logging calls -------------------------------------------------------------

  function LogEvent(l: Ledger, kind: string, fields: Fields): Ledger {
    Append(l, Events, Event(l.sequence + 1, EventId(l.eventSeq), kind, fields)).(eventSeq := l.eventSeq + 1)
  }

  function LogDecision(l: Ledger, decision: string): Ledger {
    var l' := Append(l, Decisions, Decision(l.sequence + 1, DecisionId(l.decisionSeq), decision))
                .(decisionSeq := l.decisionSeq + 1);
    LogEvent(l', "decision_recorded", NoFields)
  }

  function LogToolCall(l: Ledger, tool: string, path: string): Ledger {
    var l' := Append(l, Tools, ToolCalled(l.sequence + 1, ToolId(l.toolSeq), tool, path)).(toolSeq := l.toolSeq + 1);
    LogEvent(l', "tool_called", NoFields)
  }

  function LogToolResult(l: Ledger, id: string, tool: string, ok: bool): Ledger {
    LogEvent(Append(l, Tools, ToolFinished(l.sequence + 1, id, tool, ok)), "tool_finished", NoFields)
  }

  function LogModelStarted(l: Ledger, role: string, model: string): Ledger {
    var l' := Append(l, Models, ModelStarted(l.sequence + 1, ModelId(l.modelSeq), role, model))
                .(modelSeq := l.modelSeq + 1);
    LogEvent(l', role + "_model_called", NoFields)
  }

  /** The most recent started call of this role and model that nothing has closed, or "". */
  function LatestOpen(rs: seq<Record>, closed: set<string>, role: string, model: string): string {
    if rs == [] then ""
    else
      var r := rs[|rs| - 1];
      if r.ModelStarted? && r.id !in closed && r.role == role && r.model == model then r.id
      else LatestOpen(rs[..|rs| - 1], closed, role, model)
  }

  function LogModelFinished(l: Ledger, role: string, model: string, id: string, failed: bool): Ledger {
    var callId := if id != "" then id else LatestOpen(l.files.models, ClosedIds(l.files.models), role, model);
    var l' := if failed then LogEvent(l, "exception_recorded", NoFields) else l;
    LogEvent(Append(l', Models, ModelClosed(l'.sequence + 1, callId, role, model, failed)),
             if failed then "model_call_failed" else "model_response_received", NoFields)
  }

  /** A blank reasoning trace is not recorded. */
  function LogModelThinking(l: Ledger, id: string, role: string, model: string, blank: bool): Ledger {
    if blank then l
    else LogEvent(Append(l, Models, ModelThinking(l.sequence + 1, id, role, model)), "model_thinking_captured",
                  NoFields)
  }

  function LogCommandStart(l: Ledger, command: string): Ledger {
    var id := CommandId(l.commandSeq);
    LogEvent(l.(commandSeq := l.commandSeq + 1), "command_started", NoFields.(command := command, commandId := id))
  }

  function LogCommandFinish(l: Ledger, id: string, command: string, exitCode: int, keep: bool): Ledger {
    if id == "" then l
    else
      var kept := if keep && "cmd_" <= id then l.files.keptCommands + {id} else l.files.keptCommands;
      LogEvent(l.(files := l.files.(keptCommands := kept)), "command_finished",
               Fields(exitCode, "", command, [], id))
  }

  function LogMutation(l: Ledger, transaction: string, status: string): Ledger {
    LogEvent(Append(l, Mutations, Mutation(l.sequence + 1, transaction, status)),
             if status in {"applied", "rolled_back"} then "mutation_finished" else "mutation_failed", NoFields)
  }

  /** The context file (verbose runs only) and the latest preview, before the event that announces them. */
  function WriteContext(l: Ledger, modelCall: string): Ledger {
    var r := Context(l.sequence + 1, ContextId(l.contextSeq), modelCall);
    var l' := if l.verbose then Append(l, Contexts, r) else Stamp(l);
    l'.(contextSeq := l.contextSeq + 1, files := l'.files.(preview := Some(r)))
  }

  function LogContext(l: Ledger, modelCall: string): Ledger {
    LogEvent(WriteContext(l, modelCall), "context_pack_built", NoFields)
  }

  // ---- lifecycle -------------------------------------------------------------------

  function Start(l: Ledger): Ledger {
    var l' := Stamp(l);
    var l'' := l'.(files := l'.files.(status := Some("running")));
    LogEvent(LogEvent(l'', "run_started", NoFields), "user_prompt_received", NoFields)
  }

  /** The final output is (re)written; a summary already on disk has its event count refreshed. */
  function RecordFinalResponse(l: Ledger, output: string): Ledger {
    var l' := LogEvent(l.(files := l.files.(finalOutput := Some(output))), "final_response_written", NoFields);
    l'.(files := l'.files.(summary :=
      if l'.files.summary.Some?
      then Some(l'.files.summary.value.(events := |l'.files.events|))
      else None))
  }

  /** Every call of the snapshot that had no result by then gets a failed one. */
  function CloseTools(l: Ledger, snapshot: seq<Record>, finished: set<string>): Ledger
    decreases |snapshot|
  {
    if snapshot == [] then l
    else
      var r := snapshot[0];
      CloseTools(if r.ToolCalled? && r.id !in finished then LogToolResult(l, r.id, r.tool, false) else l,
                 snapshot[1..], finished)
  }

  function CloseModels(l: Ledger, snapshot: seq<Record>, closed: set<string>): Ledger
    decreases |snapshot|
  {
    if snapshot == [] then l
    else
      var r := snapshot[0];
      CloseModels(if r.ModelStarted? && r.id !in closed then LogModelFinished(l, r.role, r.model, r.id, true) else l,
                  snapshot[1..], closed)
  }

  function CloseOpenRecords(l: Ledger): Ledger {
    var l' := CloseTools(l, l.files.tools, FinishedIds(l.files.tools));
    CloseModels(l', l'.files.models, ClosedIds(l'.files.models))
  }

  predicate Ended(f: RunFiles) {
    f.status.Some? && f.status.value in TERMINAL
  }

  function Summarize(f: RunFiles, status: string): Summary {
    Summary(status, |f.events|, |f.decisions|, |Openings(f.tools)|, |Openings(f.models)|)
  }

  /** Ends a run once: closes what is open, records the output, and writes manifest, event and summary. */
  function Finish(l: Ledger, output: string, status: string): Ledger
    requires status in TERMINAL
  {
    if Ended(l.files) then l
    else
      var l1 := CloseOpenRecords(l);
      var l2 := if l1.files.finalOutput != Some(output) then RecordFinalResponse(l1, output) else l1;
      var l3 := if l2.files.status.None? then Stamp(l2) else l2;
      var l4 := l3.(files := l3.files.(status := Some(status)));
      var l5 := LogEvent(l4, if status in {"success", "success_unverified"} then "run_finished" else "run_failed",
                         NoFields);
      var l6 := Stamp(l5);
      l6.(files := l6.files.(summary := Some(Summarize(l6.files, status))))
  }

  // ---- runs --------------------------------------------------------------------------

  /** What can happen to a run: any logging call, its start and end, and the process being replaced. */
  datatype Op =
    | Begin
    | Note(kind: string, fields: Fields)
    | Decide(decision: string)
    | Call(tool: string, path: string)
    | Result(id: string, tool: string, ok: bool)
    | Ask(role: string, model: string)
    | Answer(role: string, model: string, id: string, failed: bool)
    | Think(id: string, role: string, model: string, blank: bool)
    | CommandBegin(command: string)
    | CommandEnd(id: string, command: string, exitCode: int, keep: bool)
    | Mutate(transaction: string, status: string)
    | Pack(modelCall: string)
    | Respond(output: string)
    | End(output: string, status: string)
    | Reopen(verbose: bool)

  function Apply(l: Ledger, op: Op): Ledger {
    match op
    case Begin => Start(l)
    case Note(kind, fields) => LogEvent(l, kind, fields)
    case Decide(decision) => LogDecision(l, decision)
    case Call(tool, path) => LogToolCall(l, tool, path)
    case Result(id, tool, ok) => LogToolResult(l, id, tool, ok)
    case Ask(role, model) => LogModelStarted(l, role, model)
    case Answer(role, model, id, failed) => LogModelFinished(l, role, model, id, failed)
    case Think(id, role, model, blank) => LogModelThinking(l, id, role, model, blank)
    case CommandBegin(command) => LogCommandStart(l, command)
    case CommandEnd(id, command, exitCode, keep) => LogCommandFinish(l, id, command, exitCode, keep)
    case Mutate(transaction, status) => LogMutation(l, transaction, status)
    case Pack(modelCall) => LogContext(l, modelCall)
    case Respond(output) => RecordFinalResponse(l, output)
    case End(output, status) => if status in TERMINAL then Finish(l, output, status) else l
    case Reopen(verbose) => Open(l.files, verbose)
  }

  function Run(l: Ledger, ops: seq<Op>): Ledger {
    if ops == [] then l else Apply(Run(l, ops[..|ops| - 1]), ops[|ops| - 1])
  }
}
