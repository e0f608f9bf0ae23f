/**
  Model calls closed without an id: per role and model, the open calls are a stack.
 */
module ModelCalls {
  import opened Basics
  import opened RunRecords
  import opened LedgerSpec
  import opened LedgerInvariant

  /** The started calls of one role and model that nothing has closed, oldest first. */
  function OpenIn(rs: seq<Record>, closed: set<string>, role: string, model: string): seq<string> {
    if rs == [] then []
    else
      var r := rs[|rs| - 1];
      OpenIn(rs[..|rs| - 1], closed, role, model)
      + if r.ModelStarted? && r.id !in closed && r.role == role && r.model == model then [r.id] else []
  }

  function OpenCalls(l: Ledger, role: string, model: string): seq<string> {
    OpenIn(l.files.models, ClosedIds(l.files.models), role, model)
  }

  function Pop(s: seq<string>): seq<string> {
    if s == [] then [] else s[..|s| - 1]
  }

  /** Finishes only ever name started calls, or none. */
  ghost predicate ClosedKnown(l: Ledger) {
    ClosedIds(l.files.models) <= StartedIds(l.files.models) + {""}
  }

  ghost predicate DistinctStarts(rs: seq<Record>) {
    forall i, j :: 0 <= i < j < |rs| && rs[i].ModelStarted? && rs[j].ModelStarted? ==> rs[i].id != rs[j].id
  }

  lemma {:induction false} LatestIsTop(rs: seq<Record>, closed: set<string>, role: string, model: string)
    ensures LatestOpen(rs, closed, role, model)
         == var open := OpenIn(rs, closed, role, model); if open == [] then "" else open[|open| - 1]
  {
    if rs != [] {
      LatestIsTop(rs[..|rs| - 1], closed, role, model);
    }
  }

  lemma {:induction false} ForeignCloseHarmless(rs: seq<Record>, closed: set<string>, id: string, role: string,
                                                model: string)
    requires forall r :: r in rs && r.ModelStarted? && r.role == role && r.model == model ==> r.id != id
    ensures OpenIn(rs, closed + {id}, role, model) == OpenIn(rs, closed, role, model)
  {
    if rs != [] {
      ForeignCloseHarmless(rs[..|rs| - 1], closed, id, role, model);
      assert rs[|rs| - 1] in rs;
    }
  }

  lemma {:induction false} LatestWasOpen(rs: seq<Record>, closed: set<string>, role: string, model: string)
    ensures LatestOpen(rs, closed, role, model) != "" ==>
              exists r :: r in rs && r.ModelStarted? && r.role == role && r.model == model
                          && r.id == LatestOpen(rs, closed, role, model) && r.id !in closed
  {
    if rs != [] {
      LatestWasOpen(rs[..|rs| - 1], closed, role, model);
      assert rs[|rs| - 1] in rs;
    }
  }

  lemma {:induction false} CloseLatestPops(rs: seq<Record>, closed: set<string>, role: string, model: string)
    requires DistinctStarts(rs)
    requires forall r :: r in rs && r.ModelStarted? ==> r.id != ""
    ensures OpenIn(rs, closed + {LatestOpen(rs, closed, role, model)}, role, model)
        == Pop(OpenIn(rs, closed, role, model))
  {
    if rs != [] {
      var k := |rs| - 1;
      var r, id := rs[k], LatestOpen(rs, closed, role, model);
      if r.ModelStarted? && r.id !in closed && r.role == role && r.model == model {
        forall t | t in rs[..k] && t.ModelStarted?
          ensures t.id != id
        {
          var i :| 0 <= i < k && rs[i] == t;
        }
        ForeignCloseHarmless(rs[..k], closed, id, role, model);
      } else {
        CloseLatestPops(rs[..k], closed, role, model);
        LatestIsTop(rs[..k], closed, role, model);
        if r.ModelStarted? && r.role == role && r.model == model {
          assert r.id in closed;
        }
      }
    }
  }

  // ---- ids of started calls ---------------------------------------------------------

  ghost predicate DistinctIds(rs: seq<Record>) {
    forall i, j :: 0 <= i < j < |rs| ==> rs[i].id != rs[j].id
  }

  lemma {:induction false} OpeningsDistinct(rs: seq<Record>)
    requires DistinctIds(Openings(rs))
    requires forall r :: r in rs ==> !r.ToolCalled?
    ensures DistinctStarts(rs)
  {
    if rs != [] {
      var k := |rs| - 1;
      assert rs == rs[..k] + [rs[k]];
      OpeningsAppend(rs[..k], rs[k]);
      DistinctPrefix(Openings(rs[..k]), Openings(rs));
      OpeningsDistinct(rs[..k]);
      if rs[k].ModelStarted? {
        LastStartIsNew(rs[..k], rs[k]);
      }
    }
  }

  lemma DistinctPrefix(xs: seq<Record>, ys: seq<Record>)
    requires xs <= ys && DistinctIds(ys)
    ensures DistinctIds(xs)
  {
  }

  lemma LastStartIsNew(rs: seq<Record>, r: Record)
    requires r.ModelStarted? && DistinctIds(Openings(rs) + [r])
    ensures forall i :: 0 <= i < |rs| && rs[i].ModelStarted? ==> rs[i].id != r.id
  {
    hide Openings, DistinctIds;
    OpeningsMembers(rs);
    var starts := Openings(rs);
    assert forall i :: 0 <= i < |rs| && rs[i].ModelStarted? ==> rs[i] in starts;
    NotAmong(starts, r);
  }

  lemma NotAmong(starts: seq<Record>, r: Record)
    requires DistinctIds(starts + [r])
    ensures forall t :: t in starts ==> t.id != r.id
  {
    forall t | t in starts
      ensures t.id != r.id
    {
      var h :| 0 <= h < |starts| && starts[h] == t;
      assert (starts + [r])[h] == t && (starts + [r])[|starts|] == r;
    }
  }

  lemma StartsOf(l: Ledger)
    requires WellFormed(l)
    ensures DistinctStarts(l.files.models)
    ensures forall r :: r in l.files.models && r.ModelStarted? ==> r.id != "" && r.id != ModelId(l.modelSeq)
  {
    hide NumberedId;
    var rs := l.files.models;
    assert Numbered(l.files) && l.modelSeq == |Openings(rs)|;
    forall i, j | 0 <= i < j < |Openings(rs)|
      ensures Openings(rs)[i].id != Openings(rs)[j].id
    {
      if Openings(rs)[i].id == Openings(rs)[j].id {
        IdsDistinct("model", i, j, 4);
      }
    }
    OpeningsDistinct(rs);
    OpeningsMembers(rs);
    forall r | r in rs && r.ModelStarted?
      ensures r.id != "" && r.id != ModelId(l.modelSeq)
    {
      var k :| 0 <= k < |Openings(rs)| && Openings(rs)[k] == r;
      ModelIdNotBlank(k);
      if ModelId(k) == ModelId(l.modelSeq) {
        IdsDistinct("model", k, l.modelSeq, 4);
      }
    }
  }

  lemma ModelIdNotBlank(k: nat)
    ensures ModelId(k) != ""
  {
    assert |ModelId(k)| > 0;
  }

  // ---- one call at a time -------------------------------------------------------------

  lemma OpenInAppend(rs: seq<Record>, r: Record, closed: set<string>, role: string, model: string)
    ensures OpenIn(rs + [r], closed, role, model)
         == if r.ModelStarted? && r.id !in closed && r.role == role && r.model == model
            then OpenIn(rs, closed, role, model) + [r.id]
            else OpenIn(rs, closed, role, model)
  {
    assert (rs + [r])[..|rs|] == rs;
    assert OpenIn(rs, closed, role, model) + [] == OpenIn(rs, closed, role, model);
  }

  lemma FreshNotClosed(l: Ledger)
    requires WellFormed(l) && ClosedKnown(l)
    ensures ModelId(l.modelSeq) !in ClosedIds(l.files.models)
  {
    hide NumberedId, WellFormed;
    StartsOf(l);
    ModelIdNotBlank(l.modelSeq);
  }

  /** A start pushes the new call on the stack of its role and model, and on no other. */
  lemma StartPushes(l: Ledger, role: string, model: string, role': string, model': string)
    requires WellFormed(l) && ClosedKnown(l)
    ensures ClosedKnown(LogModelStarted(l, role, model))
    ensures OpenCalls(LogModelStarted(l, role, model), role', model')
         == if role' == role && model' == model
            then OpenCalls(l, role', model') + [ModelId(l.modelSeq)]
            else OpenCalls(l, role', model')
  {
    hide NumberedId, WellFormed, OpenIn, ClosedIds, StartedIds;
    var r := ModelStarted(l.sequence + 1, ModelId(l.modelSeq), role, model);
    assert LogModelStarted(l, role, model).files.models == l.files.models + [r];
    StartsOf(l);
    FreshNotClosed(l);
    ModelIdNotBlank(l.modelSeq);
    AppendIds(l.files.models, r);
    assert ClosedIds(l.files.models) + {} == ClosedIds(l.files.models);
    OpenInAppend(l.files.models, r, ClosedIds(l.files.models), role', model');
  }

  /**
    A finish without an id closes exactly the most recent open call of its role and model;
    with none open it closes nothing.
   */
  lemma FinishPops(l: Ledger, role: string, model: string, failed: bool, role': string, model': string)
    requires WellFormed(l) && ClosedKnown(l)
    ensures ClosedKnown(LogModelFinished(l, role, model, "", failed))
    ensures OpenCalls(LogModelFinished(l, role, model, "", failed), role', model')
         == if role' == role && model' == model then Pop(OpenCalls(l, role, model)) else OpenCalls(l, role', model')
  {
    hide NumberedId, WellFormed, LatestOpen, OpenIn, DistinctStarts;
    var rs := l.files.models;
    var closed := ClosedIds(rs);
    var id := LatestOpen(rs, closed, role, model);
    var l' := if failed then LogEvent(l, "exception_recorded", NoFields) else l;
    var r := ModelClosed(l'.sequence + 1, id, role, model, failed);
    assert LogModelFinished(l, role, model, "", failed).files.models == rs + [r];
    StartsOf(l);
    LatestWasOpen(rs, closed, role, model);
    AppendIds(rs, r);
    OpenInAppend(rs, r, closed + {id}, role', model');
    if role' == role && model' == model {
      CloseLatestPops(rs, closed, role, model);
    } else {
      OtherStackKept(rs, closed, id, role, model, role', model');
    }
  }

  lemma OtherStackKept(rs: seq<Record>, closed: set<string>, id: string, role: string, model: string, role': string,
                       model': string)
    requires DistinctStarts(rs) && (role' != role || model' != model)
    requires forall r :: r in rs && r.ModelStarted? ==> r.id != ""
    requires id != "" ==> exists r :: r in rs && r.ModelStarted? && r.role == role && r.model == model && r.id == id
    ensures OpenIn(rs, closed + {id}, role', model') == OpenIn(rs, closed, role', model')
  {
    forall t | t in rs && t.ModelStarted? && t.role == role' && t.model == model'
      ensures t.id != id
    {
      if id != "" {
        var r :| r in rs && r.ModelStarted? && r.role == role && r.model == model && r.id == id;
        var i :| 0 <= i < |rs| && rs[i] == r;
        var j :| 0 <= j < |rs| && rs[j] == t;
      }
    }
    ForeignCloseHarmless(rs, closed, id, role', model');
  }

  /** Closing a call by its id takes it off whichever stack it is on. */
  function Remove(s: seq<string>, id: string): seq<string> {
    if s == [] then []
    else Remove(s[..|s| - 1], id) + if s[|s| - 1] == id then [] else [s[|s| - 1]]
  }

  lemma {:induction false} CloseRemoves(rs: seq<Record>, closed: set<string>, id: string, role: string, model: string)
    ensures OpenIn(rs, closed + {id}, role, model) == Remove(OpenIn(rs, closed, role, model), id)
  {
    if rs != [] {
      var init, r := rs[..|rs| - 1], rs[|rs| - 1];
      CloseRemoves(init, closed, id, role, model);
      var open := OpenIn(init, closed, role, model);
      assert (open + [r.id])[..|open|] == open;
      assert open + [] == open && Remove(open, id) + [] == Remove(open, id);
    }
  }

  /** A finish with the id of a started call closes that call, whatever role and model it names. */
  lemma FinishRemoves(l: Ledger, role: string, model: string, id: string, failed: bool, role': string, model': string)
    requires ClosedKnown(l) && id != "" && id in StartedIds(l.files.models)
    ensures ClosedKnown(LogModelFinished(l, role, model, id, failed))
    ensures OpenCalls(LogModelFinished(l, role, model, id, failed), role', model')
        == Remove(OpenCalls(l, role', model'), id)
  {
    hide NumberedId, LatestOpen, OpenIn, StartedIds, ClosedIds;
    var rs := l.files.models;
    var l' := if failed then LogEvent(l, "exception_recorded", NoFields) else l;
    var r := ModelClosed(l'.sequence + 1, id, role, model, failed);
    assert LogModelFinished(l, role, model, id, failed).files.models == rs + [r];
    AppendIds(rs, r);
    OpenInAppend(rs, r, ClosedIds(rs) + {id}, role', model');
    CloseRemoves(rs, ClosedIds(rs), id, role', model');
  }

  // ---- whole runs ------------------------------------------------------------------------

  /** The starts of a run, of any role and model; the k-th gets the k-th id. */
  function Starts(ops: seq<Op>): nat {
    if ops == [] then 0 else Starts(ops[..|ops| - 1]) + if ops[|ops| - 1].Ask? then 1 else 0
  }

  predicate Issued(id: string, n: nat) {
    exists k :: 0 <= k < n && id == ModelId(k)
  }

  /** Finishes name no call or one already started, and the run itself is not ended. */
  ghost predicate Orderly(ops: seq<Op>) {
    ops == [] ||
    var init, op := ops[..|ops| - 1], ops[|ops| - 1];
    && Orderly(init) && !op.End?
    && (op.Answer? && op.id != "" ==> Issued(op.id, Starts(init)))
  }

  /** What one call does to the open calls of a role and model, `n` starts having been made before. */
  function Step(open: seq<string>, op: Op, n: nat, role: string, model: string): seq<string> {
    if op == Ask(role, model) then open + [ModelId(n)]
    else if op.Answer? && op.id != "" then Remove(open, op.id)
    else if op.Answer? && op.role == role && op.model == model then Pop(open)
    else open
  }

  /** The open calls of a role and model, by the calls made alone. */
  function Stack(ops: seq<Op>, role: string, model: string): seq<string> {
    if ops == [] then []
    else Step(Stack(ops[..|ops| - 1], role, model), ops[|ops| - 1], Starts(ops[..|ops| - 1]), role, model)
  }

  lemma IssuedStarted(l: Ledger, id: string)
    requires WellFormed(l) && Issued(id, l.modelSeq)
    ensures id != "" && id in StartedIds(l.files.models)
  {
    hide NumberedId;
    var rs := l.files.models;
    assert Numbered(l.files) && l.modelSeq == |Openings(rs)|;
    var k :| 0 <= k < l.modelSeq && id == ModelId(k);
    ModelIdNotBlank(k);
    OpeningsMembers(rs);
    assert Openings(rs)[k] in Openings(rs) && Openings(rs)[k].id == id;
  }

  lemma ModelsUntouched(l: Ledger, op: Op)
    requires !op.Ask? && !op.Answer? && !op.Think? && !op.End?
    ensures Apply(l, op).files.models == l.files.models
  {
    hide NumberedId;
  }

  lemma StepOpens(l: Ledger, op: Op, role: string, model: string)
    requires WellFormed(l) && ClosedKnown(l) && !op.End?
    requires op.Answer? && op.id != "" ==> Issued(op.id, l.modelSeq)
    ensures ClosedKnown(Apply(l, op))
    ensures OpenCalls(Apply(l, op), role, model) == Step(OpenCalls(l, role, model), op, l.modelSeq, role, model)
  {
    hide NumberedId, WellFormed, LogModelFinished, LogModelStarted, Open, OpenIn, ClosedIds, StartedIds;
    match op {
      case Ask(role', model') => StartPushes(l, role', model', role, model);
      case Answer(role', model', id, failed) =>
        if id == "" {
          FinishPops(l, role', model', failed, role, model);
        } else {
          IssuedStarted(l, id);
          FinishRemoves(l, role', model', id, failed, role, model);
        }
      case Think(id, role', model', blank) =>
        if !blank {
          var r := ModelThinking(l.sequence + 1, id, role', model');
          assert LogModelThinking(l, id, role', model', blank).files.models == l.files.models + [r];
          AppendIds(l.files.models, r);
          assert ClosedIds(l.files.models) + {} == ClosedIds(l.files.models);
          OpenInAppend(l.files.models, r, ClosedIds(l.files.models), role, model);
        }
      case _ => ModelsUntouched(l, op);
    }
  }

  /** Starts are counted by the model counter, across reopens. */
  lemma StepCounts(l: Ledger, op: Op)
    requires WellFormed(l) && !op.End?
    ensures Apply(l, op).modelSeq == l.modelSeq + if op.Ask? then 1 else 0
  {
    hide NumberedId, WellFormed, LatestOpen;
    ApplyKeeps(l, op);
    CountsOpenings(l);
    CountsOpenings(Apply(l, op));
    match op {
      case Ask(role, model) =>
        OpeningsAppend(l.files.models, ModelStarted(l.sequence + 1, ModelId(l.modelSeq), role, model));
      case Answer(role, model, id, failed) =>
      case Think(id, role, model, blank) =>
      case _ => ModelsUntouched(l, op);
    }
  }

  lemma CountsOpenings(l: Ledger)
    requires WellFormed(l)
    ensures l.modelSeq == |Openings(l.files.models)|
  {
  }

  /**
    Whatever else happens, writers being replaced included, the calls the files show as open
    for a role and model are those of the stack: starts push, finishes pop, and a finish
    with an id takes out that call.
   */
  lemma {:induction false} OpenCallsAreTheStack(verbose: bool, ops: seq<Op>, role: string, model: string)
    requires Orderly(ops)
    ensures
      var l := Run(Open(NoFiles, verbose), ops);
      ClosedKnown(l) && l.modelSeq == Starts(ops) && OpenCalls(l, role, model) == Stack(ops, role, model)
  {
    if ops != [] {
      var init := ops[..|ops| - 1];
      OpenCallsAreTheStack(verbose, init, role, model);
      RunWellFormed(verbose, init);
      hide WellFormed, Apply, OpenCalls, ClosedKnown, Step, Issued;
      StepOpens(Run(Open(NoFiles, verbose), init), ops[|ops| - 1], role, model);
      StepCounts(Run(Open(NoFiles, verbose), init), ops[|ops| - 1]);
    }
  }

  // ---- counting ---------------------------------------------------------------------------

  function Asks(ops: seq<Op>, role: string, model: string): nat {
    if ops == [] then 0
    else Asks(ops[..|ops| - 1], role, model) + if ops[|ops| - 1] == Ask(role, model) then 1 else 0
  }

  /** A finish for this role and model: without an id, or with that of one of its open calls. */
  predicate Finishes(op: Op, open: seq<string>, role: string, model: string) {
    op.Answer? && if op.id == "" then op.role == role && op.model == model else op.id in open
  }

  function Answers(ops: seq<Op>, role: string, model: string): nat {
    if ops == [] then 0
    else
      var init := ops[..|ops| - 1];
      Answers(init, role, model) + if Finishes(ops[|ops| - 1], Stack(init, role, model), role, model) then 1 else 0
  }

  ghost predicate DistinctNames(s: seq<string>) {
    forall i, j :: 0 <= i < j < |s| ==> s[i] != s[j]
  }

  lemma DistinctAppend(s: seq<string>, x: string)
    requires DistinctNames(s) && x !in s
    ensures DistinctNames(s + [x])
  {
  }

  lemma {:induction false} RemoveOne(s: seq<string>, id: string)
    requires DistinctNames(s)
    ensures |Remove(s, id)| == |s| - if id in s then 1 else 0
    ensures DistinctNames(Remove(s, id)) && forall x :: x in Remove(s, id) ==> x in s
  {
    if s != [] {
      var init := s[..|s| - 1];
      RemoveOne(init, id);
      assert s == init + [s[|s| - 1]];
      assert s[|s| - 1] !in init;
      DistinctAppend(Remove(init, id), s[|s| - 1]);
    }
  }

  /** Ids on a stack are issued ones, each there once. */
  lemma {:induction false} StackDistinct(ops: seq<Op>, role: string, model: string)
    ensures DistinctNames(Stack(ops, role, model)) && forall x :: x in Stack(ops, role, model) ==>
        Issued(x, Starts(ops))
  {
    hide NumberedId;
    if ops != [] {
      var init, op := ops[..|ops| - 1], ops[|ops| - 1];
      StackDistinct(init, role, model);
      var open := Stack(init, role, model);
      if op == Ask(role, model) {
        forall x | x in open
          ensures x != ModelId(Starts(init))
        {
          var k :| 0 <= k < Starts(init) && x == ModelId(k);
          if ModelId(k) == ModelId(Starts(init)) {
            IdsDistinct("model", k, Starts(init), 4);
          }
        }
        assert Issued(ModelId(Starts(init)), Starts(ops));
        DistinctAppend(open, ModelId(Starts(init)));
      } else if op.Answer? && op.id != "" {
        RemoveOne(open, op.id);
      }
    }
  }

  lemma {:induction false} StackCounts(ops: seq<Op>, role: string, model: string)
    requires forall k :: 0 <= k <= |ops| ==> Answers(ops[..k], role, model) <= Asks(ops[..k], role, model)
    ensures |Stack(ops, role, model)| == Asks(ops, role, model) - Answers(ops, role, model)
  {
    assert ops[..|ops|] == ops;
    if ops != [] {
      var init := ops[..|ops| - 1];
      assert forall k :: 0 <= k <= |init| ==> init[..k] == ops[..k];
      StackCounts(init, role, model);
      StackDistinct(init, role, model);
      RemoveOne(Stack(init, role, model), if ops[|ops| - 1].Answer? then ops[|ops| - 1].id else "");
    }
  }

  /** As many starts as finishes, no finish before its start: nothing is left open. */
  lemma BalancedCallsAllClosed(verbose: bool, ops: seq<Op>, role: string, model: string)
    requires Orderly(ops)
    requires forall k :: 0 <= k <= |ops| ==> Answers(ops[..k], role, model) <= Asks(ops[..k], role, model)
    ensures OpenCalls(Run(Open(NoFiles, verbose), ops), role, model) == [] <==>
        Asks(ops, role, model) == Answers(ops, role, model)
  {
    OpenCallsAreTheStack(verbose, ops, role, model);
    StackCounts(ops, role, model);
  }
}
