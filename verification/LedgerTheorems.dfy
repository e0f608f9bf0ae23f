/**
  What the writer promises its readers: unique rising sequence numbers, ids never
  issued twice, and a finished run the checker has nothing to say about.
 */
module LedgerTheorems {
  import opened Basics
  import opened RunRecords
  import opened LedgerSpec
  import opened LedgerInvariant
  import opened RunValidator

  // ---- sequences and ids --------------------------------------------------------------

  /** After any run, over any number of writers, no two records anywhere share a sequence number. */
  lemma {:induction false} SequencesUnique(verbose: bool, ops: seq<Op>, s: Stream, i: nat, s': Stream, j: nat)
    ensures
      var f := Run(Open(NoFiles, verbose), ops).files;
      i < |Get(f, s)| && j < |Get(f, s')| ==>
        && Get(f, s)[i].sequence > 0
        && (s == s' ==> (i < j <==> Get(f, s)[i].sequence < Get(f, s)[j].sequence))
        && (Get(f, s)[i].sequence == Get(f, s')[j].sequence <==> s == s' && i == j)
  {
    var f := Run(Open(NoFiles, verbose), ops).files;
    RunWellFormed(verbose, ops);
    if i < |Get(f, s)| && j < |Get(f, s')| {
      assert Increasing(Get(f, s)) && Within(Get(f, s), Run(Open(NoFiles, verbose), ops).sequence);
      assert Get(f, s)[i] in Get(f, s) && Get(f, s')[j] in Get(f, s');
      if s != s' {
        assert Apart(Get(f, s), Get(f, s'));
      }
    }
  }

  /** The k-th event line carries event id k; tool and model calls never share an id. */
  lemma {:induction false} IdsNeverRepeat(verbose: bool, ops: seq<Op>, i: nat, j: nat)
    ensures
      var f := Run(Open(NoFiles, verbose), ops).files;
      var tools, models := Openings(f.tools), Openings(f.models);
      && (i < |f.events| ==> f.events[i].id == EventId(i))
      && (i < |tools| && j < |tools| && tools[i].id == tools[j].id ==> i == j)
      && (i < |models| && j < |models| && models[i].id == models[j].id ==> i == j)
  {
    hide Run, Openings, NumberedId;
    var f := Run(Open(NoFiles, verbose), ops).files;
    var tools, models := Openings(f.tools), Openings(f.models);
    RunWellFormed(verbose, ops);
    assert Numbered(f);
    if i < |tools| && j < |tools| && tools[i].id == tools[j].id {
      IdsDistinct("tool", i, j, 4);
    }
    if i < |models| && j < |models| && models[i].id == models[j].id {
      IdsDistinct("model", i, j, 4);
    }
  }

  /**
    Command ids are counted by kept output files, so they are not covered: after a reopen
    the next command id is new exactly when every issued command had its output kept.
   */
  lemma CommandIdsAfterReopen(f: RunFiles, verbose: bool, m: nat, issued: set<string>)
    requires issued == (set k | 0 <= k < m :: CommandId(k)) && f.keptCommands <= issued
    ensures CommandId(Open(f, verbose).commandSeq) !in issued <==> f.keptCommands == issued
  {
    hide NumberedId;
    CommandCount(m, issued);
    var c := |f.keptCommands|;
    SubsetSize(f.keptCommands, issued);
    if c < m {
      assert CommandId(c) in issued;
    } else if CommandId(c) in issued {
      var k :| 0 <= k < m && CommandId(k) == CommandId(c);
      IdsDistinct("cmd", k, c, 3);
    }
  }

  lemma {:induction false} CommandCount(m: nat, issued: set<string>)
    requires issued == set k | 0 <= k < m :: CommandId(k)
    ensures |issued| == m
  {
    hide NumberedId;
    if m > 0 {
      var before := set k | 0 <= k < m - 1 :: CommandId(k);
      CommandCount(m - 1, before);
      if CommandId(m - 1) in before {
        var k :| 0 <= k < m - 1 && CommandId(k) == CommandId(m - 1);
        IdsDistinct("cmd", k, m - 1, 3);
      }
      assert issued == before + {CommandId(m - 1)};
    }
  }

  lemma {:induction false} SubsetSize(a: set<string>, b: set<string>)
    requires a <= b
    ensures |a| <= |b| && (|a| == |b| <==> a == b)
    decreases |a|
  {
    if a != {} {
      var x :| x in a;
      SubsetSize(a - {x}, b - {x});
      assert a == (a - {x}) + {x} && b == (b - {x}) + {x};
    }
  }

  // ---- what finishing does to the open calls ------------------------------------------

  /** Nothing but events and tool records changed. */
  ghost predicate OnlyTools(f: RunFiles, f': RunFiles) {
    f' == f.(events := f'.events, tools := f'.tools)
  }

  ghost predicate OnlyModels(f: RunFiles, f': RunFiles) {
    f' == f.(events := f'.events, models := f'.models)
  }

  /** Some record is a call of this id and tool. */
  ghost predicate Calls(rs: seq<Record>, id: string, tool: string) {
    exists r :: r in rs && r.ToolCalled? && r.id == id && r.tool == tool
  }

  /** A failed result for a call of the snapshot that had none. */
  ghost predicate FailsTool(r: Record, snapshot: seq<Record>, finished: set<string>) {
    r.ToolFinished? && !r.ok && r.id !in finished && Calls(snapshot, r.id, r.tool)
  }

  ghost predicate Starts(rs: seq<Record>, id: string, role: string, model: string) {
    exists r :: r in rs && r.ModelStarted? && r.id == id && r.role == role && r.model == model
  }

  /** A failed end of a model call of the snapshot that had none. */
  ghost predicate FailsModel(r: Record, snapshot: seq<Record>, closed: set<string>) {
    r.ModelClosed? && r.failed && r.id !in closed && Starts(snapshot, r.id, r.role, r.model)
  }

  lemma {:induction false} CloseToolsEffect(l: Ledger, snapshot: seq<Record>, finished: set<string>)
    ensures
      var f' := CloseTools(l, snapshot, finished).files;
      && OnlyTools(l.files, f')
      && CalledIds(f'.tools) == CalledIds(l.files.tools)
      && FinishedIds(f'.tools) == FinishedIds(l.files.tools) + (CalledIds(snapshot) - finished)
      && l.files.tools <= f'.tools && l.files.events <= f'.events
      && forall r :: r in f'.tools[|l.files.tools|..] ==> FailsTool(r, snapshot, finished)
    decreases |snapshot|
  {
    hide CalledIds, FinishedIds, StartedIds, ClosedIds, FailsTool;
    FailedBefore(snapshot, finished);
    if snapshot == [] {
      NoIds();
    } else {
      var r := snapshot[0];
      HeadIds(snapshot);
      if r.ToolCalled? && r.id !in finished {
        var failure := ToolFinished(l.sequence + 1, r.id, r.tool, false);
        var l' := LogToolResult(l, r.id, r.tool, false);
        AppendIds(l.files.tools, failure);
        CloseToolsEffect(l', snapshot[1..], finished);
        Suffix(l.files.tools, failure, CloseTools(l', snapshot[1..], finished).files.tools);
      } else {
        CloseToolsEffect(l, snapshot[1..], finished);
      }
    }
  }

  lemma FailedBefore(snapshot: seq<Record>, ids: set<string>)
    ensures forall r :: snapshot != [] && FailsTool(r, snapshot[1..], ids) ==> FailsTool(r, snapshot, ids)
    ensures forall r :: snapshot != [] && FailsModel(r, snapshot[1..], ids) ==> FailsModel(r, snapshot, ids)
    ensures snapshot != [] && snapshot[0].ToolCalled? && snapshot[0].id !in ids ==>
              forall n :: FailsTool(ToolFinished(n, snapshot[0].id, snapshot[0].tool, false), snapshot, ids)
    ensures snapshot != [] && snapshot[0].ModelStarted? && snapshot[0].id !in ids ==>
              forall n :: FailsModel(ModelClosed(n, snapshot[0].id, snapshot[0].role, snapshot[0].model, true),
                                     snapshot, ids)
  {
  }

  lemma Suffix(rs: seq<Record>, r: Record, ts: seq<Record>)
    requires rs + [r] <= ts
    ensures rs <= ts && ts[|rs|..] == [r] + ts[|rs| + 1..]
  {
  }

  lemma NoIds()
    ensures CalledIds([]) == FinishedIds([]) == StartedIds([]) == ClosedIds([]) == {}
  {
  }

  lemma HeadIds(rs: seq<Record>)
    requires rs != []
    ensures CalledIds(rs) == CalledIds(rs[1..]) + if rs[0].ToolCalled? then {rs[0].id} else {}
    ensures StartedIds(rs) == StartedIds(rs[1..]) + if rs[0].ModelStarted? then {rs[0].id} else {}
  {
    assert rs == [rs[0]] + rs[1..];
  }

  lemma {:induction false} CloseModelsEffect(l: Ledger, snapshot: seq<Record>, closed: set<string>)
    requires "" !in StartedIds(snapshot)
    ensures
      var f' := CloseModels(l, snapshot, closed).files;
      && OnlyModels(l.files, f')
      && StartedIds(f'.models) == StartedIds(l.files.models)
      && ClosedIds(f'.models) == ClosedIds(l.files.models) + (StartedIds(snapshot) - closed)
      && l.files.models <= f'.models && l.files.events <= f'.events
      && forall r :: r in f'.models[|l.files.models|..] ==> FailsModel(r, snapshot, closed)
    decreases |snapshot|
  {
    hide CalledIds, FinishedIds, StartedIds, ClosedIds, FailsModel, LogModelFinished;
    FailedBefore(snapshot, closed);
    if snapshot == [] {
      NoIds();
    } else {
      var r := snapshot[0];
      HeadIds(snapshot);
      if r.ModelStarted? && r.id !in closed {
        var l' := LogModelFinished(l, r.role, r.model, r.id, true);
        var failure := ModelClosed(l.sequence + 2, r.id, r.role, r.model, true);
        ModelFailureWritten(l, r);
        AppendIds(l.files.models, failure);
        CloseModelsEffect(l', snapshot[1..], closed);
        Suffix(l.files.models, failure, CloseModels(l', snapshot[1..], closed).files.models);
      } else {
        CloseModelsEffect(l, snapshot[1..], closed);
      }
    }
  }

  lemma ModelFailureWritten(l: Ledger, r: Record)
    requires r.ModelStarted? && r.id != ""
    ensures
      var l' := LogModelFinished(l, r.role, r.model, r.id, true);
      && OnlyModels(l.files, l'.files) && l.files.events <= l'.files.events
      && l'.files.models == l.files.models + [ModelClosed(l.sequence + 2, r.id, r.role, r.model, true)]
  {
    hide NumberedId;
  }

  lemma StartedIdsNotBlank(l: Ledger)
    requires WellFormed(l)
    ensures "" !in StartedIds(l.files.models)
  {
    OpeningsMembers(l.files.models);
    forall r | r in l.files.models && r.ModelStarted?
      ensures r.id != ""
    {
      var k :| 0 <= k < |Openings(l.files.models)| && Openings(l.files.models)[k] == r;
      assert |ModelId(k)| > 0;
    }
  }

  // ---- each call is closed once ----------------------------------------------------------

  /** No two calls of the list have the same id. */
  ghost predicate DistinctOpenings(rs: seq<Record>) {
    forall i, j :: 0 <= i < j < |rs| && Opens(rs[i]) && Opens(rs[j]) ==> rs[i].id != rs[j].id
  }

  predicate Opens(r: Record) {
    r.ToolCalled? || r.ModelStarted?
  }

  lemma {:induction false} OpeningsOrder(rs: seq<Record>, i: nat, j: nat)
    requires i < j < |rs| && Opens(rs[i]) && Opens(rs[j])
    ensures exists a, b :: 0 <= a < b < |Openings(rs)| && Openings(rs)[a] == rs[i] && Openings(rs)[b] == rs[j]
  {
    var k := |rs| - 1;
    var before := Openings(rs[..k]);
    if j < k {
      OpeningsOrder(rs[..k], i, j);
      var a, b :| 0 <= a < b < |before| && before[a] == rs[i] && before[b] == rs[j];
      assert Openings(rs)[a] == rs[i] && Openings(rs)[b] == rs[j];
    } else {
      OpeningsMembers(rs[..k]);
      assert rs[..k][i] == rs[i];
      var a :| 0 <= a < |before| && before[a] == rs[i];
      assert Openings(rs)[a] == rs[i] && Openings(rs)[|before|] == rs[j];
    }
  }

  lemma IssuedOnce(l: Ledger)
    requires WellFormed(l)
    ensures DistinctOpenings(l.files.tools) && DistinctOpenings(l.files.models)
    ensures forall r :: r in l.files.tools ==> !r.ModelStarted?
    ensures forall r :: r in l.files.models ==> !r.ToolCalled?
  {
    hide NumberedId, Openings;
    assert Numbered(l.files);
    var tools, models := l.files.tools, l.files.models;
    forall i, j | 0 <= i < j < |tools| && Opens(tools[i]) && Opens(tools[j])
      ensures tools[i].id != tools[j].id
    {
      OpeningsOrder(tools, i, j);
      var a, b :| 0 <= a < b < |Openings(tools)| && Openings(tools)[a] == tools[i] && Openings(tools)[b] == tools[j];
      if ToolId(a) == ToolId(b) {
        IdsDistinct("tool", a, b, 4);
      }
    }
    forall i, j | 0 <= i < j < |models| && Opens(models[i]) && Opens(models[j])
      ensures models[i].id != models[j].id
    {
      OpeningsOrder(models, i, j);
      var a, b :| 0 <= a < b < |Openings(models)| && Openings(models)[a] == models[i]
          && Openings(models)[b] == models[j];
      if ModelId(a) == ModelId(b) {
        IdsDistinct("model", a, b, 4);
      }
    }
  }

  lemma TailDistinct(rs: seq<Record>)
    requires rs != [] && DistinctOpenings(rs)
    ensures DistinctOpenings(rs[1..])
    ensures rs[0].ToolCalled? ==> rs[0].id !in CalledIds(rs[1..])
    ensures rs[0].ModelStarted? ==> rs[0].id !in StartedIds(rs[1..])
  {
    forall r | r in rs[1..] && Opens(r)
      ensures Opens(rs[0]) ==> r.id != rs[0].id
    {
      var i :| 0 <= i < |rs[1..]| && rs[1..][i] == r;
      assert rs[i + 1] == r;
    }
  }

  /** As many results are added as calls had none. */
  lemma {:induction false} ClosesToolsOnce(l: Ledger, snapshot: seq<Record>, finished: set<string>)
    requires DistinctOpenings(snapshot)
    ensures |CloseTools(l, snapshot, finished).files.tools|
         == |l.files.tools| + |CalledIds(snapshot) - finished|
    decreases |snapshot|
  {
    hide CalledIds, FinishedIds, StartedIds, ClosedIds, DistinctOpenings, LogToolResult;
    NoIds();
    if snapshot != [] {
      var r := snapshot[0];
      HeadIds(snapshot);
      TailDistinct(snapshot);
      var rest := CalledIds(snapshot[1..]) - finished;
      ToolFailureWritten(l, r);
      if r.ToolCalled? && r.id !in finished {
        ClosesToolsOnce(LogToolResult(l, r.id, r.tool, false), snapshot[1..], finished);
        assert CalledIds(snapshot) - finished == rest + {r.id};
      } else {
        ClosesToolsOnce(l, snapshot[1..], finished);
        assert CalledIds(snapshot) - finished == rest;
      }
    }
  }

  lemma ToolFailureWritten(l: Ledger, r: Record)
    ensures r.ToolCalled? ==>
              LogToolResult(l, r.id, r.tool, false).files.tools
              == l.files.tools + [ToolFinished(l.sequence + 1, r.id, r.tool, false)]
  {
    hide NumberedId;
  }

  lemma {:induction false} ClosesModelsOnce(l: Ledger, snapshot: seq<Record>, closed: set<string>)
    requires DistinctOpenings(snapshot) && "" !in StartedIds(snapshot)
    ensures |CloseModels(l, snapshot, closed).files.models|
         == |l.files.models| + |StartedIds(snapshot) - closed|
    decreases |snapshot|
  {
    hide CalledIds, FinishedIds, StartedIds, ClosedIds, DistinctOpenings, LogModelFinished;
    NoIds();
    if snapshot != [] {
      var r := snapshot[0];
      HeadIds(snapshot);
      TailDistinct(snapshot);
      var rest := StartedIds(snapshot[1..]) - closed;
      if r.ModelStarted? && r.id !in closed {
        ModelFailureWritten(l, r);
        ClosesModelsOnce(LogModelFinished(l, r.role, r.model, r.id, true), snapshot[1..], closed);
        assert StartedIds(snapshot) - closed == rest + {r.id};
      } else {
        ClosesModelsOnce(l, snapshot[1..], closed);
        assert StartedIds(snapshot) - closed == rest;
      }
    }
  }

  lemma NoOpenings()
    ensures Openings([]) == []
  {
  }

  /** Counting the calls is counting their ids. */
  lemma {:induction false} CallsCounted(rs: seq<Record>)
    requires DistinctOpenings(rs)
    ensures (forall r :: r in rs ==> !r.ModelStarted?) ==> |Openings(rs)| == |CalledIds(rs)|
    ensures (forall r :: r in rs ==> !r.ToolCalled?) ==> |Openings(rs)| == |StartedIds(rs)|
  {
    hide DistinctOpenings, Openings, CalledIds, FinishedIds, StartedIds, ClosedIds;
    if rs == [] {
      NoIds();
      NoOpenings();
    } else {
      var init, last := rs[..|rs| - 1], rs[|rs| - 1];
      assert rs == init + [last];
      AppendIds(init, last);
      OpeningsAppend(init, last);
      InitDistinct(init, last);
      CallsCounted(init);
    }
  }

  lemma InitDistinct(init: seq<Record>, last: Record)
    requires DistinctOpenings(init + [last])
    ensures DistinctOpenings(init)
    ensures last.ToolCalled? ==> last.id !in CalledIds(init)
    ensures last.ModelStarted? ==> last.id !in StartedIds(init)
  {
    var rs := init + [last];
    forall i, j | 0 <= i < j < |init| && Opens(init[i]) && Opens(init[j])
      ensures init[i].id != init[j].id
    {
      assert rs[i] == init[i] && rs[j] == init[j];
    }
    forall r | r in init && Opens(r) && Opens(last)
      ensures r.id != last.id
    {
      var i :| 0 <= i < |init| && init[i] == r;
      assert rs[i] == r && rs[|init|] == last;
    }
  }

  /** What a finish adds to the two call streams: one failed end for each open call, under its own names. */
  ghost predicate ClosedFrom(f: RunFiles, f': RunFiles) {
    && f.tools <= f'.tools && f.models <= f'.models
    && |f'.tools| == |f.tools| + |CalledIds(f.tools) - FinishedIds(f.tools)|
    && |f'.models| == |f.models| + |StartedIds(f.models) - ClosedIds(f.models)|
    && (forall r :: r in f'.tools[|f.tools|..] ==> FailsTool(r, f.tools, FinishedIds(f.tools)))
    && (forall r :: r in f'.models[|f.models|..] ==> FailsModel(r, f.models, ClosedIds(f.models)))
  }

  /** What it says last, and the counts of its summary. */
  ghost predicate Concluded(f: RunFiles, f': RunFiles, status: string) {
    && f.events < f'.events && f'.events[|f'.events| - 1].Event?
    && f'.events[|f'.events| - 1].kind
       == (if status == "success" || status == "success_unverified" then "run_finished" else "run_failed")
    && f'.summary
       == Some(Summary(status, |f'.events|, |f.decisions|, |CalledIds(f.tools)|, |StartedIds(f.models)|))
  }

  /** A finish closes every open call and leaves the rest of the record as it was. */
  ghost predicate FinishedFrom(f: RunFiles, f': RunFiles, output: string, status: string) {
    && ClosedFrom(f, f') && Concluded(f, f', status)
    && CalledIds(f'.tools) == CalledIds(f.tools)
    && FinishedIds(f'.tools) == FinishedIds(f.tools) + CalledIds(f.tools)
    && StartedIds(f'.models) == StartedIds(f.models)
    && ClosedIds(f'.models) == ClosedIds(f.models) + StartedIds(f.models)
    && f'.decisions == f.decisions && f'.mutations == f.mutations
    && f'.contexts == f.contexts && f'.preview == f.preview && f'.keptCommands == f.keptCommands
    && f'.finalOutput == Some(output)
    && f'.status == Some(status)
    && f'.summary == Some(Summarize(f', status))
  }

  /** What closing does to the files. */
  lemma ClosingEffect(l: Ledger)
    requires WellFormed(l)
    ensures
      var f, f' := l.files, CloseOpenRecords(l).files;
      && f' == f.(events := f'.events, tools := f'.tools, models := f'.models)
      && f.events <= f'.events && ClosedFrom(f, f')
      && CalledIds(f'.tools) == CalledIds(f.tools)
      && FinishedIds(f'.tools) == FinishedIds(f.tools) + CalledIds(f.tools)
      && StartedIds(f'.models) == StartedIds(f.models)
      && ClosedIds(f'.models) == ClosedIds(f.models) + StartedIds(f.models)
  {
    hide CalledIds, FinishedIds, StartedIds, ClosedIds, CloseTools, CloseModels, WellFormed, FailsTool, FailsModel,
        DistinctOpenings;
    CloseToolsEffect(l, l.files.tools, FinishedIds(l.files.tools));
    var l' := CloseTools(l, l.files.tools, FinishedIds(l.files.tools));
    StartedIdsNotBlank(l);
    IssuedOnce(l);
    CloseModelsEffect(l', l'.files.models, ClosedIds(l'.files.models));
    ClosesToolsOnce(l, l.files.tools, FinishedIds(l.files.tools));
    ClosesModelsOnce(l', l'.files.models, ClosedIds(l'.files.models));
  }

  lemma FinishEffect(l: Ledger, output: string, status: string)
    requires WellFormed(l) && status in TERMINAL && !Ended(l.files)
    ensures FinishedFrom(l.files, Finish(l, output, status).files, output, status)
  {
    hide CalledIds, FinishedIds, StartedIds, ClosedIds, CloseOpenRecords, WellFormed, ClosedFrom, Openings,
        DistinctOpenings;
    ClosingEffect(l);
    var done := Finish(l, output, status);
    FinishKeeps(l, output, status);
    IssuedOnce(done);
    CallsCounted(done.files.tools);
    CallsCounted(done.files.models);
    SameClosing(l.files, CloseOpenRecords(l).files, done.files);
  }

  lemma SameClosing(f: RunFiles, f': RunFiles, f'': RunFiles)
    requires ClosedFrom(f, f') && f''.tools == f'.tools && f''.models == f'.models
    ensures ClosedFrom(f, f'')
  {
  }

  /** Ending a run is done once: a second finish, by this process or a later one, changes nothing. */
  lemma FinishOnce(l: Ledger, output: string, status: string, output': string, status': string, verbose: bool)
    requires WellFormed(l) && status in TERMINAL && status' in TERMINAL
    ensures
      var done := Finish(l, output, status);
      && Finish(done, output', status') == done
      && Finish(Open(done.files, verbose), output', status') == Open(done.files, verbose)
  {
    if !Ended(l.files) {
      FinishEffect(l, output, status);
    }
  }

  // ---- the checker accepts ---------------------------------------------------------------

  ghost predicate Distinct(rs: seq<Record>) {
    forall i, j :: 0 <= i < j < |rs| ==> rs[i].sequence != rs[j].sequence
  }

  lemma JoinDistinct(rs: seq<Record>, ts: seq<Record>)
    requires Distinct(rs) && Distinct(ts) && Apart(rs, ts)
    ensures Distinct(rs + ts)
  {
    forall i, j | 0 <= i < j < |rs + ts|
      ensures (rs + ts)[i].sequence != (rs + ts)[j].sequence
    {
      if i < |rs| <= j {
        assert rs[i] in rs && ts[j - |rs|] in ts;
      }
    }
  }

  lemma JoinApart(rs: seq<Record>, ts: seq<Record>, us: seq<Record>)
    requires Apart(rs, us) && Apart(ts, us)
    ensures Apart(rs + ts, us)
  {
    assert forall r :: r in rs + ts ==> r in rs || r in ts;
  }

  /** The list the checker builds from the streams has no repeats. */
  lemma NoSequenceFault(f: RunFiles, top: nat)
    requires Sequenced(f, top)
    ensures !HasFault(f, RepeatedSequence) && !HasFault(f, NonPositiveSequence)
  {
    var g := ContextGroup(f);
    assert forall s: Stream :: Distinct(Get(f, s)) by {
      forall s: Stream
        ensures Distinct(Get(f, s))
      {
        assert Increasing(Get(f, s));
      }
    }
    assert Distinct(g) && Within(g, top) && forall s: Stream :: s != Contexts ==> Apart(Get(f, s), g) by {
      assert Within(Get(f, Contexts), top) && Distinct(Get(f, Contexts));
      forall s: Stream | s != Contexts
        ensures Apart(Get(f, s), g)
      {
        assert Apart(Get(f, s), Get(f, Contexts));
        if f.preview.Some? {
          assert Apart([f.preview.value], Get(f, s));
        }
      }
    }
    JoinAll(f, g, top);
  }

  lemma JoinAll(f: RunFiles, g: seq<Record>, top: nat)
    requires Sequenced(f, top) && g == ContextGroup(f)
    requires forall s: Stream :: Distinct(Get(f, s))
    requires Distinct(g) && Within(g, top) && forall s: Stream :: s != Contexts ==> Apart(Get(f, s), g)
    ensures !HasFault(f, RepeatedSequence) && !HasFault(f, NonPositiveSequence)
  {
    hide Distinct, Apart, Increasing, Within, ContextGroup;
    var e, d, t, m, u := Get(f, Events), Get(f, Decisions), Get(f, Tools), Get(f, Models), Get(f, Mutations);
    JoinFive(e, d, t, m, u, g);
    assert AllRecords(f) == e + d + t + m + u + g;
    assert Distinct(AllRecords(f));
    NoRepeat(f);
    PositiveEverywhere(f, top, g);
  }

  lemma NoRepeat(f: RunFiles)
    requires Distinct(AllRecords(f))
    ensures !HasFault(f, RepeatedSequence)
  {
  }

  lemma PositiveEverywhere(f: RunFiles, top: nat, g: seq<Record>)
    requires g == ContextGroup(f) && Within(g, top)
    requires forall s: Stream :: Within(Get(f, s), top)
    ensures !HasFault(f, NonPositiveSequence)
  {
    forall r | r in AllRecords(f)
      ensures r.sequence > 0
    {
      assert Within(Get(f, Events), top) && Within(Get(f, Decisions), top) && Within(Get(f, Tools), top);
      assert Within(Get(f, Models), top) && Within(Get(f, Mutations), top);
    }
  }

  lemma JoinFive(e: seq<Record>, d: seq<Record>, t: seq<Record>, m: seq<Record>, u: seq<Record>, g: seq<Record>)
    requires Distinct(e) && Distinct(d) && Distinct(t) && Distinct(m) && Distinct(u) && Distinct(g)
    requires Apart(e, d) && Apart(e, t) && Apart(e, m) && Apart(e, u) && Apart(e, g)
    requires Apart(d, t) && Apart(d, m) && Apart(d, u) && Apart(d, g)
    requires Apart(t, m) && Apart(t, u) && Apart(t, g)
    requires Apart(m, u) && Apart(m, g) && Apart(u, g)
    ensures Distinct(e + d + t + m + u + g)
  {
    hide Distinct, Apart;
    JoinDistinct(e, d);
    JoinApart(e, d, t);
    JoinApart(e, d, m);
    JoinApart(e, d, u);
    JoinApart(e, d, g);
    JoinDistinct(e + d, t);
    JoinApart(e + d, t, m);
    JoinApart(e + d, t, u);
    JoinApart(e + d, t, g);
    JoinDistinct(e + d + t, m);
    JoinApart(e + d + t, m, u);
    JoinApart(e + d + t, m, g);
    JoinDistinct(e + d + t + m, u);
    JoinApart(e + d + t + m, u, g);
    JoinDistinct(e + d + t + m + u, g);
  }

  /**
    The only faults a freshly finished run can have came in from outside: results for
    calls never issued, and contexts naming a model call never started.
   */
  lemma FaultsAfterFinish(l: Ledger, output: string, status: string, e: Fault)
    requires WellFormed(l) && status in TERMINAL && !Ended(l.files)
    ensures HasFault(Finish(l, output, status).files, e)
       <==> (e.UncalledTool? || e.UnknownModel?) && HasFault(l.files, e)
  {
    FinishKeeps(l, output, status);
    FinishEffect(l, output, status);
    hide Finish, FinishedFrom, HasFault, Sequenced;
    var f' := Finish(l, output, status).files;
    NoSequenceFault(f', Finish(l, output, status).sequence);
    FaultsOfFinished(l.files, f', output, status, e);
  }

  lemma FaultsOfFinished(f: RunFiles, f': RunFiles, output: string, status: string, e: Fault)
    requires FinishedFrom(f, f', output, status) && status in TERMINAL
    requires !HasFault(f', RepeatedSequence) && !HasFault(f', NonPositiveSequence)
    ensures HasFault(f', e) <==> (e.UncalledTool? || e.UnknownModel?) && HasFault(f, e)
  {
    hide CalledIds, FinishedIds, StartedIds, ClosedIds, AllRecords, Summarize;
    assert ContextGroup(f') == ContextGroup(f);
  }

  // ---- runs whose results use issued ids ---------------------------------------------------

  ghost predicate Legal(l: Ledger, op: Op) {
    match op
    case Result(id, tool, ok) => id in CalledIds(l.files.tools)
    case Pack(modelCall) => modelCall == "" || modelCall in StartedIds(l.files.models)
    case _ => true
  }

  ghost predicate LegalRun(l: Ledger, ops: seq<Op>) {
    ops == [] || (LegalRun(l, ops[..|ops| - 1]) && Legal(Run(l, ops[..|ops| - 1]), ops[|ops| - 1]))
  }

  ghost predicate Refers(r: Record, started: set<string>) {
    r.Context? && (r.modelCall == "" || r.modelCall in started)
  }

  /** Results answer issued calls, contexts name started calls, and an ended run has its summary and output. */
  ghost predicate Linked(f: RunFiles) {
    && FinishedIds(f.tools) <= CalledIds(f.tools)
    && (forall r :: r in f.contexts ==> Refers(r, StartedIds(f.models)))
    && (f.preview.Some? ==> Refers(f.preview.value, StartedIds(f.models)))
    && (Ended(f) ==> f.summary.Some? && f.finalOutput.Some?)
    && (f.status.Some? ==> f.status.value == "running" || Ended(f))
  }

  /** The parts of the files that links are read from. */
  ghost predicate SameLinks(f: RunFiles, f': RunFiles) {
    && f.tools == f'.tools && f.models == f'.models && f.contexts == f'.contexts && f.preview == f'.preview
    && f.status == f'.status && f.summary.Some? == f'.summary.Some? && (f.finalOutput.Some? ==> f'.finalOutput.Some?)
  }

  lemma SameLinksKeep(f: RunFiles, f': RunFiles)
    requires SameLinks(f, f') && Linked(f)
    ensures Linked(f')
  {
  }

  lemma QuietOp(l: Ledger, op: Op)
    requires op.Note? || op.Decide? || op.CommandBegin? || op.CommandEnd? || op.Mutate? || op.Respond? || op.Reopen?
    ensures SameLinks(l.files, Apply(l, op).files)
  {
    hide NumberedId;
  }

  lemma ToolRecordLinked(f: RunFiles, f': RunFiles, r: Record)
    requires Linked(f) && (r.ToolCalled? || (r.ToolFinished? && r.id in CalledIds(f.tools)))
    requires f' == f.(events := f'.events, tools := f.tools + [r])
    ensures Linked(f')
  {
    AppendIds(f.tools, r);
  }

  lemma ModelRecordLinked(f: RunFiles, f': RunFiles, r: Record)
    requires Linked(f) && (r.ModelStarted? || r.ModelClosed? || r.ModelThinking?)
    requires f' == f.(events := f'.events, models := f.models + [r])
    ensures Linked(f')
  {
    AppendIds(f.models, r);
  }

  lemma ContextLinked(l: Ledger, modelCall: string)
    requires Linked(l.files) && (modelCall == "" || modelCall in StartedIds(l.files.models))
    ensures Linked(LogContext(l, modelCall).files)
  {
  }

  lemma StartLinked(l: Ledger)
    requires Linked(l.files)
    ensures Linked(Start(l).files)
  {
  }

  lemma FinishLinked(l: Ledger, output: string, status: string)
    requires WellFormed(l) && Linked(l.files) && status in TERMINAL
    ensures Linked(Finish(l, output, status).files)
  {
    hide WellFormed, CalledIds, FinishedIds, StartedIds, ClosedIds, Finish;
    if Ended(l.files) {
      EndedAlready(l, output, status);
    } else {
      FinishEffect(l, output, status);
    }
  }

  lemma ApplyLinked(l: Ledger, op: Op)
    requires WellFormed(l) && Linked(l.files) && Legal(l, op)
    ensures Linked(Apply(l, op).files)
  {
    hide WellFormed, Linked, CalledIds, FinishedIds, StartedIds, ClosedIds, Finish, LatestOpen, LogContext, Start;
    hide SameLinks, LogDecision, LogMutation, LogCommandStart, LogCommandFinish, RecordFinalResponse, Open, NumberedId;
    hide EventId, ModelId, ToolId, Stamp, Max;
    var f, f' := l.files, Apply(l, op).files;
    match op {
      case Begin => StartLinked(l);
      case Call(tool, path) => ToolRecordLinked(f, f', ToolCalled(l.sequence + 1, ToolId(l.toolSeq), tool, path));
      case Result(id, tool, ok) => ToolRecordLinked(f, f', ToolFinished(l.sequence + 1, id, tool, ok));
      case Ask(role, model) => ModelRecordLinked(f, f', ModelStarted(l.sequence + 1, ModelId(l.modelSeq), role, model));
      case Answer(role, model, id, failed) =>
        var callId := if id != "" then id else LatestOpen(l.files.models, ClosedIds(l.files.models), role, model);
        var l' := if failed then LogEvent(l, "exception_recorded", NoFields) else l;
        ModelRecordLinked(f, f', ModelClosed(l'.sequence + 1, callId, role, model, failed));
      case Think(id, role, model, blank) =>
        if !blank {
          ModelRecordLinked(f, f', ModelThinking(l.sequence + 1, id, role, model));
        }
      case Pack(modelCall) => ContextLinked(l, modelCall);
      case End(output, status) =>
        if status in TERMINAL {
          FinishLinked(l, output, status);
        }
      case _ =>
        QuietOp(l, op);
        SameLinksKeep(f, f');
    }
  }

  lemma EndedAlready(l: Ledger, output: string, status: string)
    requires Ended(l.files) && status in TERMINAL
    ensures Finish(l, output, status) == l
  {
  }

  lemma {:induction false} RunLinked(verbose: bool, ops: seq<Op>)
    requires LegalRun(Open(NoFiles, verbose), ops)
    ensures Linked(Run(Open(NoFiles, verbose), ops).files)
  {
    hide Apply;
    if ops != [] {
      RunLinked(verbose, ops[..|ops| - 1]);
      RunWellFormed(verbose, ops[..|ops| - 1]);
      hide Linked, Legal;
      ApplyLinked(Run(Open(NoFiles, verbose), ops[..|ops| - 1]), ops[|ops| - 1]);
    }
  }

  ghost predicate NothingOpen(f: RunFiles) {
    CalledIds(f.tools) <= FinishedIds(f.tools) && StartedIds(f.models) <= ClosedIds(f.models)
  }

  ghost predicate Accepted(f: RunFiles) {
    forall e: Fault :: !HasFault(f, e)
  }

  /**
    Every run of the writer, over any number of processes, in which results use issued
    ids: ended by `finish`, the checker accepts it.  A run that had already been ended is
    left alone, and is accepted exactly if nothing was opened after that and left open.
   */
  lemma FinishedRunAccepted(verbose: bool, ops: seq<Op>, output: string, status: string, l: Ledger)
    requires LegalRun(Open(NoFiles, verbose), ops) && status in TERMINAL
    requires l == Run(Open(NoFiles, verbose), ops)
    ensures Accepted(Finish(l, output, status).files) <==> !Ended(l.files) || NothingOpen(l.files)
  {
    RunWellFormed(verbose, ops);
    RunLinked(verbose, ops);
    hide Run, LegalRun;
    if Ended(l.files) {
      EndedRunFaults(l);
      EndedAlready(l, output, status);
    } else {
      EndedAccepted(l, output, status);
    }
  }

  /** Ending a run that is still going leaves nothing to complain of. */
  lemma EndedAccepted(l: Ledger, output: string, status: string)
    requires WellFormed(l) && Linked(l.files) && !Ended(l.files) && status in TERMINAL
    ensures Accepted(Finish(l, output, status).files)
  {
    hide WellFormed, Linked, Finish;
    forall e: Fault
      ensures !HasFault(Finish(l, output, status).files, e)
    {
      FaultsAfterFinish(l, output, status, e);
      LinkedFaults(l.files, e);
    }
  }

  lemma LinkedFaults(f: RunFiles, e: Fault)
    requires Linked(f)
    ensures e.UncalledTool? || e.UnknownModel? ==> !HasFault(f, e)
  {
    assert forall r :: r in ContextGroup(f) ==> Refers(r, StartedIds(f.models));
  }

  lemma EndedRunFaults(l: Ledger)
    requires WellFormed(l) && Linked(l.files) && Ended(l.files)
    ensures Accepted(l.files) <==> NothingOpen(l.files)
  {
    var f := l.files;
    NoSequenceFault(f, l.sequence);
    if NothingOpen(f) {
      forall e: Fault
        ensures !HasFault(f, e)
      {
        LinkedFaults(f, e);
      }
    }
    if Accepted(f) {
      forall id | id in CalledIds(f.tools)
        ensures id in FinishedIds(f.tools)
      {
        assert !HasFault(f, UnfinishedTool(id));
      }
      forall id | id in StartedIds(f.models)
        ensures id in ClosedIds(f.models)
      {
        assert !HasFault(f, UnclosedModel(id));
      }
    }
  }
}
