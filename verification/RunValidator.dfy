/**
  The checker of finished runs: written apart from the writer, over the files alone.
 */
module RunValidator {
  import opened Basics
  import opened RunRecords

  datatype Fault =
    | MissingManifest
    | MissingSummary
    | MissingFinalOutput
    | NonPositiveSequence
    | RepeatedSequence
    | UnfinishedTool(call: string)
    | UncalledTool(call: string)
    | UnclosedModel(call: string)
    | UnknownModel(context: string, call: string)

  /** A run counts as over unless its manifest says it is running. */
  predicate Terminal(f: RunFiles) {
    f.status != Some("running")
  }

  function AllRecords(f: RunFiles): seq<Record> {
    f.events + f.decisions + f.tools + f.models + f.mutations + ContextGroup(f)
  }

  predicate HasFault(f: RunFiles, e: Fault) {
    match e
    case MissingManifest => f.status.None?
    case MissingSummary => Terminal(f) && f.summary.None?
    case MissingFinalOutput => Terminal(f) && f.finalOutput.None?
    case NonPositiveSequence => exists r :: r in AllRecords(f) && r.sequence == 0
    case RepeatedSequence =>
      exists i, j :: 0 <= i < j < |AllRecords(f)| && AllRecords(f)[i].sequence == AllRecords(f)[j].sequence
    case UnfinishedTool(call) => call in CalledIds(f.tools) && call !in FinishedIds(f.tools)
    case UncalledTool(call) => call in FinishedIds(f.tools) && call !in CalledIds(f.tools)
    case UnclosedModel(call) => call in StartedIds(f.models) && call !in ClosedIds(f.models)
    case UnknownModel(context, call) =>
      call != "" && call !in StartedIds(f.models) && exists r :: r in ContextGroup(f) && References(r, context, call)
  }

  predicate References(r: Record, context: string, call: string) {
    r.Context? && r.id == context && r.modelCall == call
  }

  /** The errors reported are exactly the faults of the files. */
  method ValidateRun(f: RunFiles) returns (errors: seq<Fault>)
    ensures forall e: Fault :: e in errors <==> HasFault(f, e)
  {
    hide HasFault, ContextGroup;
    var missing := CheckArtifacts(f);
    var sequences := CheckSequences(f, f.events + f.decisions + f.tools + f.models + f.mutations + ContextGroup(f));
    var calls := CheckCalls(f);
    errors := missing + sequences + calls;
  }

  method CheckArtifacts(f: RunFiles) returns (errors: seq<Fault>)
    ensures forall e: Fault :: e in errors <==> OfArtifacts(e) && HasFault(f, e)
  {
    errors := [];
    if f.status.None? {
      errors := errors + [MissingManifest];
    }
    var terminal := f.status != Some("running");
    if terminal && f.summary.None? {
      errors := errors + [MissingSummary];
    }
    if terminal && f.finalOutput.None? {
      errors := errors + [MissingFinalOutput];
    }
  }

  method CheckSequences(f: RunFiles, records: seq<Record>) returns (errors: seq<Fault>)
    requires records == AllRecords(f)
    ensures forall e: Fault :: e in errors <==> OfSequences(e) && HasFault(f, e)
  {
    hide AllRecords;
    errors := [];
    var v2 := Stamps(records);
    var nonPositive := AnyZero(v2);
    if nonPositive {
      errors := errors + [NonPositiveSequence];
    }
    var repeated := AnyRepeat(v2);
    if repeated {
      errors := errors + [RepeatedSequence];
    }
    assert forall i :: 0 <= i < |v2| ==> v2[i] == records[i].sequence;
    if HasFault(f, NonPositiveSequence) {
      var r :| r in records && r.sequence == 0;
      var k :| 0 <= k < |records| && records[k] == r;
      assert v2[k] == 0;
    }
  }

  method AnyZero(xs: seq<nat>) returns (found: bool)
    ensures found <==> exists k :: 0 <= k < |xs| && xs[k] == 0
  {
    found := false;
    for i := 0 to |xs|
      invariant found <==> exists k :: 0 <= k < i && xs[k] == 0
    {
      found := found || xs[i] <= 0;
    }
  }

  /** A list is longer than the set of its elements exactly when something repeats. */
  method AnyRepeat(xs: seq<nat>) returns (repeats: bool)
    ensures repeats <==> exists i, j :: 0 <= i < j < |xs| && xs[i] == xs[j]
  {
    var seen := {};
    for i := 0 to |xs|
      invariant seen == set k | 0 <= k < i :: xs[k]
      invariant |seen| <= i
      invariant |seen| == i <==> forall j, k :: 0 <= j < k < i ==> xs[j] != xs[k]
    {
      seen := seen + {xs[i]};
    }
    repeats := |xs| != |seen|;
  }

  method CheckCalls(f: RunFiles) returns (errors: seq<Fault>)
    ensures forall e: Fault :: e in errors <==> OfCalls(e) && HasFault(f, e)
  {
    var called, finished := CalledIds(f.tools), FinishedIds(f.tools);
    var unfinished := EachId(called - finished, id => UnfinishedTool(id));
    var uncalled := EachId(finished - called, id => UncalledTool(id));
    var started, closed := StartedIds(f.models), ClosedIds(f.models);
    var unclosed := EachId(started - closed, id => UnclosedModel(id));
    var unknown := UnknownReferences(ContextGroup(f), started);
    errors := unfinished + uncalled + unclosed + unknown;
    hide CalledIds, FinishedIds, StartedIds, ClosedIds, ContextGroup;
    forall e: Fault
      ensures e in errors <==> OfCalls(e) && HasFault(f, e)
    {
      match e {
        case UnfinishedTool(call) => assert HasFault(f, e) <==> call in called - finished;
        case UncalledTool(call) => assert HasFault(f, e) <==> call in finished - called;
        case UnclosedModel(call) => assert HasFault(f, e) <==> call in started - closed;
        case UnknownModel(context, call) => assert e in unknown <==> HasFault(f, e);
        case _ =>
      }
    }
  }

  predicate OfArtifacts(e: Fault) {
    e.MissingManifest? || e.MissingSummary? || e.MissingFinalOutput?
  }

  predicate OfSequences(e: Fault) {
    e.NonPositiveSequence? || e.RepeatedSequence?
  }

  predicate OfCalls(e: Fault) {
    !OfArtifacts(e) && !OfSequences(e)
  }

  method EachId(ids: set<string>, fault: string -> Fault) returns (errors: seq<Fault>)
    ensures forall e: Fault :: e in errors <==> exists id :: id in ids && e == fault(id)
  {
    errors := [];
    var todo := ids;
    while todo != {}
      invariant todo <= ids
      invariant forall e: Fault :: e in errors <==> exists id :: id in ids - todo && e == fault(id)
      decreases todo
    {
      var id :| id in todo;
      errors := errors + [fault(id)];
      todo := todo - {id};
    }
  }

  method UnknownReferences(contexts: seq<Record>, started: set<string>) returns (errors: seq<Fault>)
    ensures forall e: Fault :: e in errors <==>
              e.UnknownModel? && e.call != "" && e.call !in started
              && exists r :: r in contexts && References(r, e.context, e.call)
  {
    errors := [];
    for i := 0 to |contexts|
      invariant forall e: Fault :: e in errors <==>
                  e.UnknownModel? && e.call != "" && e.call !in started
                  && exists k :: 0 <= k < i && References(contexts[k], e.context, e.call)
    {
      var r := contexts[i];
      if r.Context? && r.modelCall != "" && r.modelCall !in started {
        errors := errors + [UnknownModel(r.id, r.modelCall)];
      }
    }
    forall e: Fault | e.UnknownModel?
      ensures (exists k :: 0 <= k < |contexts| && References(contexts[k], e.context, e.call))
         <==> exists r :: r in contexts && References(r, e.context, e.call)
    {
      if r :| r in contexts && References(r, e.context, e.call) {
        var k :| 0 <= k < |contexts| && contexts[k] == r;
        assert References(contexts[k], e.context, e.call);
      }
    }
  }
}
