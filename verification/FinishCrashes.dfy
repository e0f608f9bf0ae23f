/**
  A process that dies inside `finish`.
 */
module FinishCrashes {
  import opened Basics
  import opened RunRecords
  import opened LedgerSpec
  import opened LedgerInvariant
  import opened RunValidator
  import opened LedgerTheorems

  // ---- the points between its writes ---------------------------------------------------------------

  /** After which write of `finish` the process dies. */
  datatype CrashPoint =
    | ClosingTools(done: nat, half: bool)   // so many records looked at; a result for the next, without its event
    | ClosingModels(done: nat, step: nat)   // 1: the exception's event; 2: the closing record, without its event
    | OutputWritten
    | ResponseLogged
    | SummaryRefreshed
    | ManifestWritten
    | EndLogged
    | SummaryWritten

  function Upto(rs: seq<Record>, n: nat): seq<Record> {
    if n < |rs| then rs[..n] else rs
  }

  /** The next tool call to be closed has its result but no event yet. */
  function HalfTool(l: Ledger, r: Record): Ledger
    requires r.ToolCalled?
  {
    Append(l, Tools, ToolFinished(l.sequence + 1, r.id, r.tool, false))
  }

  function HalfModel(l: Ledger, r: Record, step: nat): Ledger
    requires r.ModelStarted?
  {
    var logged := LogEvent(l, "exception_recorded", NoFields);
    if step == 0 then l
    else if step == 1 then logged
    else Append(logged, Models, ModelClosed(logged.sequence + 1, r.id, r.role, r.model, true))
  }

  function ToolsHalfClosed(l: Ledger, done: nat, half: bool): Ledger {
    var rs, finished := l.files.tools, FinishedIds(l.files.tools);
    var l' := CloseTools(l, Upto(rs, done), finished);
    if half && done < |rs| && rs[done].ToolCalled? && rs[done].id !in finished then HalfTool(l', rs[done]) else l'
  }

  function ModelsHalfClosed(l: Ledger, done: nat, step: nat): Ledger {
    var rs, closed := l.files.models, ClosedIds(l.files.models);
    var l' := CloseModels(l, Upto(rs, done), closed);
    if done < |rs| && rs[done].ModelStarted? && rs[done].id !in closed then HalfModel(l', rs[done], step) else l'
  }

  function Manifested(l: Ledger, status: string): Ledger {
    var l' := if l.files.status.None? then Stamp(l) else l;
    l'.(files := l'.files.(status := Some(status)))
  }

  /** The writer at that point; what counts is its files. */
  function HalfFinished(l: Ledger, output: string, status: string, at: CrashPoint): Ledger {
    var tools := CloseTools(l, l.files.tools, FinishedIds(l.files.tools));
    var closed := CloseOpenRecords(l);
    var same := closed.files.finalOutput == Some(output);
    var written := closed.(files := closed.files.(finalOutput := Some(output)));
    var responded := if same then closed else RecordFinalResponse(closed, output);
    var kind := if status in {"success", "success_unverified"} then "run_finished" else "run_failed";
    var logged := LogEvent(Manifested(responded, status), kind, NoFields);
    match at
    case ClosingTools(done, half) => ToolsHalfClosed(l, done, half)
    case ClosingModels(done, step) => ModelsHalfClosed(tools, done, step)
    case OutputWritten => written
    case ResponseLogged => if same then closed else LogEvent(written, "final_response_written", NoFields)
    case SummaryRefreshed => responded
    case ManifestWritten => Manifested(responded, status)
    case EndLogged => logged
    case SummaryWritten => Stamp(logged).(files := logged.files.(summary := Some(Summarize(logged.files, status))))
  }

  predicate ManifestThere(at: CrashPoint) {
    at.ManifestWritten? || at.EndLogged? || at.SummaryWritten?
  }

  /** The last point is the finished run. */
  lemma FinishedAtLast(l: Ledger, output: string, status: string)
    requires status in TERMINAL && !Ended(l.files)
    ensures HalfFinished(l, output, status, SummaryWritten) == Finish(l, output, status)
  {
    hide CloseTools, CloseModels, Openings, NumberedId, CalledIds, FinishedIds, StartedIds, ClosedIds;
    hide RecordFinalResponse, LogEvent;
  }

  // ---- before the manifest: still a run that can be ended -------------------------------------------

  lemma HalfToolKeeps(l: Ledger, r: Record)
    requires WellFormed(l) && r.ToolCalled?
    ensures WellFormed(HalfTool(l, r))
  {
    hide WellFormed, Sound;
    FullIsSound(l);
    AppendSound(l, Tools, ToolFinished(l.sequence + 1, r.id, r.tool, false));
  }

  lemma HalfModelKeeps(l: Ledger, r: Record, step: nat)
    requires WellFormed(l) && r.ModelStarted?
    ensures WellFormed(HalfModel(l, r, step))
  {
    hide WellFormed, Sound;
    FullIsSound(l);
    EventKeeps(l, "exception_recorded", NoFields);
    var logged := LogEvent(l, "exception_recorded", NoFields);
    FullIsSound(logged);
    AppendSound(logged, Models, ModelClosed(logged.sequence + 1, r.id, r.role, r.model, true));
  }

  lemma ClosingKeeps(l: Ledger, output: string, status: string, at: CrashPoint)
    requires WellFormed(l) && !ManifestThere(at)
    ensures WellFormed(HalfFinished(l, output, status, at))
  {
    hide WellFormed, CloseTools, CloseModels, RecordFinalResponse, FinishedIds, ClosedIds, LogEvent, HalfTool,
        HalfModel;
    var finished := FinishedIds(l.files.tools);
    var tools := CloseTools(l, l.files.tools, finished);
    var closed := CloseOpenRecords(l);
    CloseToolsKeeps(l, l.files.tools, finished);
    CloseModelsKeeps(tools, tools.files.models, ClosedIds(tools.files.models));
    match at {
      case ClosingTools(n, half) =>
        CloseToolsKeeps(l, Upto(l.files.tools, n), finished);
        if n < |l.files.tools| && l.files.tools[n].ToolCalled? {
          HalfToolKeeps(CloseTools(l, Upto(l.files.tools, n), finished), l.files.tools[n]);
        }
      case ClosingModels(n, step) =>
        var rs, shut := tools.files.models, ClosedIds(tools.files.models);
        CloseModelsKeeps(tools, Upto(rs, n), shut);
        if n < |rs| && rs[n].ModelStarted? {
          HalfModelKeeps(CloseModels(tools, Upto(rs, n), shut), rs[n], step);
        }
      case OutputWritten => OtherFilesKeep(closed, closed.(files := closed.files.(finalOutput := Some(output))));
      case ResponseLogged =>
        var written := closed.(files := closed.files.(finalOutput := Some(output)));
        OtherFilesKeep(closed, written);
        FullIsSound(written);
        EventKeeps(written, "final_response_written", NoFields);
      case SummaryRefreshed => FinalResponseKeeps(closed, output);
    }
  }

  lemma UptoIds(rs: seq<Record>, n: nat)
    ensures CalledIds(Upto(rs, n)) <= CalledIds(rs) && StartedIds(Upto(rs, n)) <= StartedIds(rs)
  {
  }

  /** Results answer issued calls, the run is going on, and whether there is a summary has not changed. */
  ghost predicate Going(f: RunFiles, f': RunFiles) {
    Linked(f') && !Ended(f') && f'.summary.Some? == f.summary.Some?
  }

  lemma ClosedGoing(l: Ledger, toolsDone: nat, modelsDone: nat)
    requires WellFormed(l) && Linked(l.files) && !Ended(l.files)
    ensures
      var tools := CloseTools(l, l.files.tools, FinishedIds(l.files.tools));
      && Going(l.files, CloseTools(l, Upto(l.files.tools, toolsDone), FinishedIds(l.files.tools)).files)
      && Going(l.files, CloseModels(tools, Upto(tools.files.models, modelsDone), ClosedIds(tools.files.models)).files)
      && Going(l.files, CloseOpenRecords(l).files)
      && CalledIds(CloseTools(l, Upto(l.files.tools, toolsDone), FinishedIds(l.files.tools)).files.tools)
          == CalledIds(l.files.tools)
  {
    hide WellFormed, CalledIds, FinishedIds, StartedIds, ClosedIds, CloseTools, CloseModels;
    var f, finished := l.files, FinishedIds(l.files.tools);
    var tools := CloseTools(l, f.tools, finished);
    StartedIdsNotBlank(l);
    CloseToolsEffect(l, f.tools, finished);
    CloseModelsEffect(tools, tools.files.models, ClosedIds(tools.files.models));
    UptoIds(f.tools, toolsDone);
    CloseToolsEffect(l, Upto(f.tools, toolsDone), finished);
    UptoIds(tools.files.models, modelsDone);
    CloseModelsEffect(tools, Upto(tools.files.models, modelsDone), ClosedIds(tools.files.models));
  }

  lemma HalfToolGoing(f: RunFiles, l: Ledger, r: Record)
    requires Going(f, l.files) && r.ToolCalled? && r.id in CalledIds(l.files.tools)
    ensures Going(f, HalfTool(l, r).files)
  {
    hide Linked;
    ToolRecordLinked(l.files, HalfTool(l, r).files, ToolFinished(l.sequence + 1, r.id, r.tool, false));
  }

  lemma HalfModelGoing(f: RunFiles, l: Ledger, r: Record, step: nat)
    requires Going(f, l.files) && r.ModelStarted?
    ensures Going(f, HalfModel(l, r, step).files)
  {
    hide Linked, NumberedId;
    var logged := LogEvent(l, "exception_recorded", NoFields);
    SameLinksKeep(l.files, logged.files);
    var closed := ModelClosed(logged.sequence + 1, r.id, r.role, r.model, true);
    ModelRecordLinked(logged.files, Append(logged, Models, closed).files, closed);
  }

  lemma HalfGoing(l: Ledger, output: string, status: string, at: CrashPoint)
    requires WellFormed(l) && Linked(l.files) && !Ended(l.files) && !ManifestThere(at)
    ensures Going(l.files, HalfFinished(l, output, status, at).files)
  {
    hide WellFormed, CloseTools, CloseModels, HalfTool, HalfModel, NumberedId, FinishedIds, ClosedIds, StartedIds;
    var tools := CloseTools(l, l.files.tools, FinishedIds(l.files.tools));
    match at {
      case ClosingTools(n, half) =>
        hide Going, Linked;
        ClosedGoing(l, n, 0);
        if n < |l.files.tools| && l.files.tools[n].ToolCalled? {
          assert l.files.tools[n] in l.files.tools;
          HalfToolGoing(l.files, CloseTools(l, Upto(l.files.tools, n), FinishedIds(l.files.tools)), l.files.tools[n]);
        }
      case ClosingModels(n, step) =>
        hide Going, Linked, CalledIds;
        ClosedGoing(l, 0, n);
        var rs, shut := tools.files.models, ClosedIds(tools.files.models);
        if n < |rs| && rs[n].ModelStarted? {
          HalfModelGoing(l.files, CloseModels(tools, Upto(rs, n), shut), rs[n], step);
        }
      case OutputWritten => AnsweredGoing(l, output);
      case ResponseLogged => AnsweredGoing(l, output);
      case SummaryRefreshed => AnsweredGoing(l, output);
    }
  }

  lemma AnsweredGoing(l: Ledger, output: string)
    requires WellFormed(l) && Linked(l.files) && !Ended(l.files)
    ensures
      var closed := CloseOpenRecords(l);
      var written := closed.(files := closed.files.(finalOutput := Some(output)));
      && Going(l.files, closed.files) && Going(l.files, written.files)
      && Going(l.files, LogEvent(written, "final_response_written", NoFields).files)
      && Going(l.files, RecordFinalResponse(closed, output).files)
  {
    hide WellFormed, CloseOpenRecords, LogEvent, RecordFinalResponse, Going, Linked;
    ClosedGoing(l, 0, 0);
    ResponseGoing(l.files, CloseOpenRecords(l), output);
  }

  lemma ResponseGoing(f: RunFiles, l: Ledger, output: string)
    requires Going(f, l.files)
    ensures
      var written := l.(files := l.files.(finalOutput := Some(output)));
      && Going(f, written.files) && Going(f, LogEvent(written, "final_response_written", NoFields).files)
      && Going(f, RecordFinalResponse(l, output).files)
  {
    hide NumberedId, CalledIds, FinishedIds, ClosedIds, StartedIds;
  }

  // ---- behind it: an ended run ------------------------------------------------------------------------

  /** The manifest is there and everything is closed; a summary only if there was one before. */
  lemma HalfEnded(l: Ledger, output: string, status: string, at: CrashPoint)
    requires WellFormed(l) && Linked(l.files) && !Ended(l.files) && status in TERMINAL
    requires at.ManifestWritten? || at.EndLogged?
    ensures
      var f := HalfFinished(l, output, status, at).files;
      && WellFormed(HalfFinished(l, output, status, at))
      && Ended(f) && f.finalOutput.Some? && NothingOpen(f)
      && f.summary.Some? == l.files.summary.Some?
      && (l.files.summary.Some? ==> Linked(f))
  {
    hide WellFormed, CalledIds, FinishedIds, StartedIds, ClosedIds, CloseTools, CloseModels, Sound, NumberedId;
    var responded := HalfFinished(l, output, status, SummaryRefreshed);
    ClosingKeeps(l, output, status, SummaryRefreshed);
    HalfGoing(l, output, status, SummaryRefreshed);
    var ended := Manifested(responded, status);
    OtherFilesKeep(responded, ended);
    FullIsSound(ended);
    EventKeeps(ended, if status in {"success", "success_unverified"} then "run_finished" else "run_failed", NoFields);
    StartedIdsNotBlank(l);
    CloseToolsEffect(l, l.files.tools, FinishedIds(l.files.tools));
    var tools := CloseTools(l, l.files.tools, FinishedIds(l.files.tools));
    CloseModelsEffect(tools, tools.files.models, ClosedIds(tools.files.models));
  }

  /**
    A run whose writer dies inside `finish`, after any of its writes, is made acceptable by a
    later `finish` exactly if the manifest had not been written yet, or the summary had, or
    the run had a summary from an earlier ending.  Otherwise every later one returns early,
    and the checker misses the summary for good.
   */
  lemma FinishCrashRepairedExactly(l: Ledger, output: string, status: string, at: CrashPoint, verbose: bool,
                                   output': string, status': string)
    requires WellFormed(l) && Linked(l.files) && !Ended(l.files) && status in TERMINAL && status' in TERMINAL
    ensures HalfFinished(l, output, status, SummaryWritten) == Finish(l, output, status)
    ensures
      var f := HalfFinished(l, output, status, at).files;
      var later := Finish(Open(f, verbose), output', status');
      && (Accepted(later.files) <==> !ManifestThere(at) || at.SummaryWritten? || l.files.summary.Some?)
      && (ManifestThere(at) ==> later.files == f)
      && (!Accepted(later.files) ==> HasFault(later.files, MissingSummary))
  {
    hide HalfFinished, WellFormed, Linked, Open, Finish, NothingOpen, Accepted, FinishedFrom;
    var half := HalfFinished(l, output, status, at);
    var again := Open(half.files, verbose);
    OpenFiles(half.files, verbose);
    FinishedAtLast(l, output, status);
    if at.SummaryWritten? {
      EndedAccepted(l, output, status);
      FinishedEnds(l, output, status);
      EndedAlready(again, output', status');
    } else if ManifestThere(at) {
      HalfEnded(l, output, status, at);
      ReopenKeeps(half, verbose);
      EndedAlready(again, output', status');
      if l.files.summary.Some? {
        EndedRunFaults(again);
      } else {
        NotAccepted(half.files);
      }
    } else {
      ClosingKeeps(l, output, status, at);
      HalfGoing(l, output, status, at);
      ReopenKeeps(half, verbose);
      EndedAccepted(again, output', status');
    }
  }

  lemma FinishedEnds(l: Ledger, output: string, status: string)
    requires WellFormed(l) && !Ended(l.files) && status in TERMINAL
    ensures Ended(Finish(l, output, status).files)
  {
    hide WellFormed, Finish;
    FinishEffect(l, output, status);
  }

  lemma OpenFiles(f: RunFiles, verbose: bool)
    ensures Open(f, verbose).files == f
  {
  }

  lemma NotAccepted(f: RunFiles)
    requires Ended(f) && f.summary.None?
    ensures HasFault(f, MissingSummary) && !Accepted(f)
  {
    assert HasFault(f, MissingSummary);
  }
}
