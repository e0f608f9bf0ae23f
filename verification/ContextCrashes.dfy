/**
  A process that dies between writing a context and announcing it.
 */
module ContextCrashes {
  import opened Basics
  import opened RunRecords
  import opened LedgerSpec
  import opened LedgerInvariant
  import opened RunValidator
  import opened LedgerTheorems

  // ---- dying between a context and its event ----------------------------------------------------

  /** The two writers differ in context files, preview and context counter only. */
  ghost predicate Aside(l: Ledger, l': Ledger) {
    l' == l.(files := l.files.(contexts := l'.files.contexts, preview := l'.files.preview), contextSeq := l'.contextSeq)
  }

  ghost predicate SameContexts(f: RunFiles, f': RunFiles) {
    f.contexts == f'.contexts && f.preview == f'.preview
  }

  lemma {:induction false} AsideCloseTools(l: Ledger, l': Ledger, snapshot: seq<Record>, finished: set<string>)
    requires Aside(l, l')
    ensures
      var m, m' := CloseTools(l, snapshot, finished), CloseTools(l', snapshot, finished);
      Aside(m, m') && SameContexts(l.files, m.files) && SameContexts(l'.files, m'.files)
    decreases |snapshot|
  {
    if snapshot != [] {
      var r := snapshot[0];
      if r.ToolCalled? && r.id !in finished {
        AsideCloseTools(LogToolResult(l, r.id, r.tool, false), LogToolResult(l', r.id, r.tool, false), snapshot[1..],
                        finished);
      } else {
        AsideCloseTools(l, l', snapshot[1..], finished);
      }
    }
  }

  lemma AsideModelFinished(l: Ledger, l': Ledger, role: string, model: string, id: string, failed: bool)
    requires Aside(l, l')
    ensures
      var m, m' := LogModelFinished(l, role, model, id, failed), LogModelFinished(l', role, model, id, failed);
      Aside(m, m') && SameContexts(l.files, m.files) && SameContexts(l'.files, m'.files)
  {
    hide LatestOpen, NumberedId, ClosedIds;
  }

  lemma {:induction false} AsideCloseModels(l: Ledger, l': Ledger, snapshot: seq<Record>, closed: set<string>)
    requires Aside(l, l')
    ensures
      var m, m' := CloseModels(l, snapshot, closed), CloseModels(l', snapshot, closed);
      Aside(m, m') && SameContexts(l.files, m.files) && SameContexts(l'.files, m'.files)
    decreases |snapshot|
  {
    hide LogModelFinished;
    if snapshot != [] {
      var r := snapshot[0];
      if r.ModelStarted? && r.id !in closed {
        AsideModelFinished(l, l', r.role, r.model, r.id, true);
        AsideCloseModels(LogModelFinished(l, r.role, r.model, r.id, true),
                         LogModelFinished(l', r.role, r.model, r.id, true),
                         snapshot[1..], closed);
      } else {
        AsideCloseModels(l, l', snapshot[1..], closed);
      }
    }
  }

  lemma AsideResponse(l: Ledger, l': Ledger, output: string)
    ensures Aside(l, l') ==>
              var m, m' := RecordFinalResponse(l, output), RecordFinalResponse(l', output);
              Aside(m, m') && SameContexts(l.files, m.files) && SameContexts(l'.files, m'.files)
  {
    hide NumberedId;
  }

  lemma AsideFinish(l: Ledger, l': Ledger, output: string, status: string)
    requires Aside(l, l') && status in TERMINAL
    ensures
      var m, m' := Finish(l, output, status), Finish(l', output, status);
      Aside(m, m') && SameContexts(l.files, m.files) && SameContexts(l'.files, m'.files)
  {
    hide CloseTools, CloseModels, Openings, NumberedId, CalledIds, FinishedIds, StartedIds, ClosedIds,
        RecordFinalResponse;
    AsideResponse(CloseOpenRecords(l), CloseOpenRecords(l'), output);
    var finished := FinishedIds(l.files.tools);
    AsideCloseTools(l, l', l.files.tools, finished);
    var t, t' := CloseTools(l, l.files.tools, finished), CloseTools(l', l'.files.tools, finished);
    AsideCloseModels(t, t', t.files.models, ClosedIds(t.files.models));
  }

  lemma AsideTool(l: Ledger, l': Ledger, op: Op)
    requires Aside(l, l') && (op.Call? || op.Result?)
    ensures Aside(Apply(l, op), Apply(l', op))
    ensures SameContexts(l.files, Apply(l, op).files) && SameContexts(l'.files, Apply(l', op).files)
  {
    hide NumberedId, Openings;
  }

  lemma AsideModel(l: Ledger, l': Ledger, op: Op)
    requires Aside(l, l') && (op.Ask? || op.Think?)
    ensures Aside(Apply(l, op), Apply(l', op))
    ensures SameContexts(l.files, Apply(l, op).files) && SameContexts(l'.files, Apply(l', op).files)
  {
    hide NumberedId, Openings;
  }

  lemma AsideOther(l: Ledger, l': Ledger, op: Op)
    requires Aside(l, l') && (op.Decide? || op.Mutate?)
    ensures Aside(Apply(l, op), Apply(l', op))
    ensures SameContexts(l.files, Apply(l, op).files) && SameContexts(l'.files, Apply(l', op).files)
  {
    hide NumberedId, Openings;
  }

  lemma SameHighest(f: RunFiles, f': RunFiles)
    requires f' == f.(contexts := f'.contexts, preview := f'.preview)
    ensures MaxSequence(f) == MaxSequence(f')
  {
  }

  lemma AsideCommand(l: Ledger, l': Ledger, op: Op)
    requires Aside(l, l') && (op.CommandBegin? || op.CommandEnd?)
    ensures Aside(Apply(l, op), Apply(l', op))
    ensures SameContexts(l.files, Apply(l, op).files) && SameContexts(l'.files, Apply(l', op).files)
  {
    hide NumberedId, Openings;
  }

  lemma AsideStep(l: Ledger, l': Ledger, op: Op)
    requires Aside(l, l') && !op.Pack?
    ensures Aside(Apply(l, op), Apply(l', op))
    ensures SameContexts(l.files, Apply(l, op).files) && SameContexts(l'.files, Apply(l', op).files)
  {
    hide LogCommandStart, LogCommandFinish, RecordFinalResponse, MaxSequence;
    hide Finish, LogModelFinished, NumberedId, Openings, LogDecision, LogToolCall, LogToolResult, LogModelStarted,
        LogModelThinking, LogMutation;
    match op {
      case Answer(role, model, id, failed) => AsideModelFinished(l, l', role, model, id, failed);
      case End(output, status) =>
        if status in TERMINAL {
          AsideFinish(l, l', output, status);
        }
      case Decide(_) => AsideOther(l, l', op);
      case Call(_, _) => AsideTool(l, l', op);
      case Result(_, _, _) => AsideTool(l, l', op);
      case Ask(_, _) => AsideModel(l, l', op);
      case Think(_, _, _, _) => AsideModel(l, l', op);
      case Mutate(_, _) => AsideOther(l, l', op);
      case CommandBegin(_) => AsideCommand(l, l', op);
      case CommandEnd(_, _, _, _) => AsideCommand(l, l', op);
      case Respond(output) => AsideResponse(l, l', output);
      case Reopen(_) => assert MaxSequence(l.files) == MaxSequence(l'.files) by { SameHighest(l.files, l'.files); }
      case _ =>
    }
  }

  /** Some call of the run announces a context. */
  predicate Packs(ops: seq<Op>) {
    exists op :: op in ops && op.Pack?
  }

  /** The context files on disk once the dying writer has written its own. */
  function Left(l: Ledger, modelCall: string): seq<Record> {
    WriteContext(l, modelCall).files.contexts
  }

  /**
    The run that went on after the crash, `d`, against the one that would have gone on
    without it, `c`: the same lines and numbers; the same context files but for ids, behind
    what the crash left; and the crash's preview until another one is written.
   */
  ghost predicate Beside(l: Ledger, modelCall: string, packed: bool, c: Ledger, d: Ledger) {
    && Aside(c, d)
    && l.files.contexts <= c.files.contexts && Left(l, modelCall) <= d.files.contexts
    && Stamps(c.files.contexts[|l.files.contexts|..]) == Stamps(d.files.contexts[|Left(l, modelCall)|..])
    && if packed then
         && c.files.preview.Some? && d.files.preview.Some?
         && c.files.preview.value.sequence == d.files.preview.value.sequence
       else d.files.preview == WriteContext(l, modelCall).files.preview
  }

  lemma StampsAppend(rs: seq<Record>, r: Record)
    ensures Stamps(rs + [r]) == Stamps(rs) + [r.sequence]
  {
  }

  lemma PackBeside(l: Ledger, modelCall: string, packed: bool, c: Ledger, d: Ledger, call: string)
    requires Beside(l, modelCall, packed, c, d)
    ensures Beside(l, modelCall, true, LogContext(c, call), LogContext(d, call))
  {
    hide NumberedId, Stamps;
    var n, k := |l.files.contexts|, |Left(l, modelCall)|;
    var x, y := Context(c.sequence + 1, ContextId(c.contextSeq), call),
        Context(d.sequence + 1, ContextId(d.contextSeq), call);
    if c.verbose {
      assert (c.files.contexts + [x])[n..] == c.files.contexts[n..] + [x];
      assert (d.files.contexts + [y])[k..] == d.files.contexts[k..] + [y];
      StampsAppend(c.files.contexts[n..], x);
      StampsAppend(d.files.contexts[k..], y);
    }
  }

  lemma StepBeside(l: Ledger, modelCall: string, packed: bool, c: Ledger, d: Ledger, op: Op)
    requires Beside(l, modelCall, packed, c, d)
    ensures Beside(l, modelCall, packed || op.Pack?, Apply(c, op), Apply(d, op))
  {
    if op.Pack? {
      PackBeside(l, modelCall, packed, c, d, op.modelCall);
    } else {
      hide Apply, Aside;
      AsideStep(c, d, op);
    }
  }

  lemma StartBeside(l: Ledger, modelCall: string, verbose: bool)
    ensures Beside(l, modelCall, false, Open(l.files, verbose), Open(WriteContext(l, modelCall).files, verbose))
  {
    hide NumberedId, Openings, MaxStamp;
    var none: seq<Record> := [];
    assert l.files.contexts[|l.files.contexts|..] == none && Left(l, modelCall)[|Left(l, modelCall)|..] == none;
  }

  lemma {:induction false} RunBeside(l: Ledger, modelCall: string, verbose: bool, ops: seq<Op>)
    ensures Beside(l, modelCall, Packs(ops), Run(Open(l.files, verbose), ops),
                   Run(Open(WriteContext(l, modelCall).files, verbose), ops))
  {
    hide Apply, Beside, Open, WriteContext;
    if ops == [] {
      StartBeside(l, modelCall, verbose);
    } else {
      var init, last := ops[..|ops| - 1], ops[|ops| - 1];
      assert ops == init + [last];
      RunBeside(l, modelCall, verbose, init);
      StepBeside(l, modelCall, Packs(init), Run(Open(l.files, verbose), init),
                 Run(Open(WriteContext(l, modelCall).files, verbose), init), last);
    }
  }

  lemma {:induction false} RunKeeps(l: Ledger, ops: seq<Op>)
    requires WellFormed(l)
    ensures WellFormed(Run(l, ops))
  {
    hide WellFormed, Apply;
    if ops != [] {
      RunKeeps(l, ops[..|ops| - 1]);
      ApplyKeeps(Run(l, ops[..|ops| - 1]), ops[|ops| - 1]);
    }
  }

  /** Some record of the JSONL streams carries the number. */
  ghost predicate Carried(f: RunFiles, n: nat) {
    exists s: Stream, r :: s != Contexts && r in Get(f, s) && r.sequence == n
  }

  function Lines(f: RunFiles): seq<Record> {
    f.events + f.decisions + f.tools + f.models + f.mutations
  }

  lemma CarriedInLines(f: RunFiles, n: nat)
    ensures Carried(f, n) <==> exists r :: r in Lines(f) && r.sequence == n
  {
    assert forall r :: r in Lines(f) <==>
             r in f.events || r in f.decisions || r in f.tools || r in f.models || r in f.mutations;
    assert Get(f, Events) == f.events && Get(f, Decisions) == f.decisions && Get(f, Tools) == f.tools;
    assert Get(f, Models) == f.models && Get(f, Mutations) == f.mutations;
  }

  /** Against streams in order, a list of contexts repeats nothing if it stands apart from them. */
  lemma GroupRepeats(f: RunFiles, top: nat)
    requires Sequenced(f.(contexts := [], preview := None), top)
    requires Distinct(ContextGroup(f)) && forall s: Stream :: s != Contexts ==> Apart(Get(f, s), ContextGroup(f))
    ensures !HasFault(f, RepeatedSequence)
  {
    hide Distinct, Apart, Increasing, Within, ContextGroup;
    var bare := f.(contexts := [], preview := None);
    assert forall s: Stream :: s != Contexts ==> Get(f, s) == Get(bare, s);
    var e, d, t, m, u := Get(f, Events), Get(f, Decisions), Get(f, Tools), Get(f, Models), Get(f, Mutations);
    RisesDistinct(e);
    RisesDistinct(d);
    RisesDistinct(t);
    RisesDistinct(m);
    RisesDistinct(u);
    JoinFive(e, d, t, m, u, ContextGroup(f));
    assert AllRecords(f) == e + d + t + m + u + ContextGroup(f);
    NoRepeat(f);
  }

  lemma RisesDistinct(rs: seq<Record>)
    ensures Increasing(rs) ==> Distinct(rs)
  {
  }

  lemma BareSequenced(f: RunFiles, top: nat)
    requires Sequenced(f, top)
    ensures Sequenced(f.(contexts := [], preview := None), top)
  {
    var bare := f.(contexts := [], preview := None);
    assert forall s: Stream :: s != Contexts ==> Get(f, s) == Get(bare, s);
    assert Get(bare, Contexts) == [];
  }

  /**
    The context the crash left is among those the checker reads: as a file, or as the latest
    preview if there are no files.
   */
  predicate StillRead(l: Ledger, f: RunFiles, ops: seq<Op>) {
    l.verbose || (f.contexts == [] && !Packs(ops))
  }

  /** Some other record has the number: a line, or a context file written later. */
  ghost predicate Taken(l: Ledger, f: RunFiles, n: nat) {
    Carried(f, n) || exists i :: |l.files.contexts| < i < |f.contexts| && f.contexts[i].sequence == n
  }

  /**
    The one gap: context files are not looked at on reopening.  A writer dies after writing
    a context and before the event announcing it; others go on, in any way.  The checker
    finds a repeated number exactly when that context is still read and some other record
    has come to have its number.
   */
  lemma ContextCrashRepeatsExactly(l: Ledger, modelCall: string, verbose: bool, ops: seq<Op>)
    requires WellFormed(l)
    ensures
      var f := Run(Open(WriteContext(l, modelCall).files, verbose), ops).files;
      HasFault(f, RepeatedSequence) <==> StillRead(l, f, ops) && Taken(l, f, l.sequence + 1)
  {
    hide Run, WellFormed, HasFault, Sequenced, Openings, StillRead, Taken, Beside;
    var clean := Run(Open(l.files, verbose), ops);
    var dirty := Run(Open(WriteContext(l, modelCall).files, verbose), ops);
    RunBeside(l, modelCall, verbose, ops);
    ReopenKeeps(l, verbose);
    RunKeeps(Open(l.files, verbose), ops);
    Sequences(clean);
    Sequences(l);
    BesideRepeats(l, modelCall, ops, clean, dirty);
  }

  lemma BesideRepeats(l: Ledger, modelCall: string, ops: seq<Op>, c: Ledger, d: Ledger)
    requires Sequenced(c.files, c.sequence) && Sequenced(l.files, l.sequence) && Beside(l, modelCall, Packs(ops), c, d)
    ensures HasFault(d.files, RepeatedSequence) <==> StillRead(l, d.files, ops) && Taken(l, d.files, l.sequence + 1)
  {
    hide HasFault, Sequenced, Carried, Packs, Stamps;
    var f, n := d.files, l.sequence + 1;
    BareSequenced(c.files, c.sequence);
    assert f.(contexts := [], preview := None) == c.files.(contexts := [], preview := None);
    LinesAlike(c.files, f);
    if f.contexts != [] {
      FilesBeside(l, modelCall, Packs(ops), c, d);
      if l.verbose {
        FiledGroup(l, modelCall, Packs(ops), c, d);
      } else {
        GroupRepeats(f, c.sequence);
      }
    } else {
      PreviewGroup(l, modelCall, ops, c, d);
    }
  }

  lemma LinesAlike(f: RunFiles, f': RunFiles)
    requires f' == f.(contexts := f'.contexts, preview := f'.preview)
    ensures forall s: Stream :: s != Contexts ==> Get(f', s) == Get(f, s)
    ensures forall n: nat :: Carried(f', n) <==> Carried(f, n)
  {
    forall n: nat
      ensures Carried(f', n) <==> Carried(f, n)
    {
      CarriedInLines(f, n);
      CarriedInLines(f', n);
    }
  }

  /** Without the crash's own file, the context files stand apart from each other and from the lines. */
  ghost predicate ApartBut(f: RunFiles, k: nat) {
    && (forall i, j :: 0 <= i < j < |f.contexts| && i != k && j != k ==>
        f.contexts[i].sequence != f.contexts[j].sequence)
    && (forall i, m: nat :: 0 <= i < |f.contexts| && i != k && Carried(f, m) ==> f.contexts[i].sequence != m)
  }

  /** Where the clean run has the file that the other has at `i`. */
  function Partner(l: Ledger, i: int): int {
    if l.verbose && i > |l.files.contexts| then i - 1 else i
  }

  lemma PartnerStamp(l: Ledger, modelCall: string, packed: bool, c: Ledger, d: Ledger, i: nat)
    requires Beside(l, modelCall, packed, c, d) && i < |d.files.contexts| && (l.verbose ==> i != |l.files.contexts|)
    ensures
      var p := Partner(l, i);
      0 <= p < |c.files.contexts| && c.files.contexts[p].sequence == d.files.contexts[i].sequence
  {
    var before, left := l.files.contexts, Left(l, modelCall);
    var mine, theirs := d.files.contexts[|left|..], c.files.contexts[|before|..];
    assert |Stamps(mine)| == |Stamps(theirs)|;
    if i < |left| {
      assert d.files.contexts[i] == left[i] == before[i] == c.files.contexts[i];
    } else {
      assert Stamps(mine)[i - |left|] == Stamps(theirs)[i - |left|];
      assert mine[i - |left|] == d.files.contexts[i];
      assert theirs[i - |left|] == c.files.contexts[Partner(l, i)];
    }
  }

  lemma FilesBeside(l: Ledger, modelCall: string, packed: bool, c: Ledger, d: Ledger)
    requires Sequenced(c.files, c.sequence) && Beside(l, modelCall, packed, c, d)
    ensures ApartBut(d.files, if l.verbose then |l.files.contexts| else |d.files.contexts|)
    ensures !l.verbose ==>
              && Distinct(d.files.contexts)
              && forall s: Stream :: s != Contexts ==> Apart(Get(d.files, s), d.files.contexts)
  {
    hide Sequenced, Beside, Left;
    var k := if l.verbose then |l.files.contexts| else |d.files.contexts|;
    OldContexts(c.files, c.sequence);
    LinesAlike(c.files, d.files) by { BesideAside(l, modelCall, packed, c, d); }
    forall i, j | 0 <= i < j < |d.files.contexts| && i != k && j != k
      ensures d.files.contexts[i].sequence != d.files.contexts[j].sequence
    {
      PartnerStamp(l, modelCall, packed, c, d, i);
      PartnerStamp(l, modelCall, packed, c, d, j);
    }
    forall i, m: nat | 0 <= i < |d.files.contexts| && i != k && Carried(d.files, m)
      ensures d.files.contexts[i].sequence != m
    {
      PartnerStamp(l, modelCall, packed, c, d, i);
      var s: Stream, r :| s != Contexts && r in Get(d.files, s) && r.sequence == m;
      assert Apart(Get(c.files, s), c.files.contexts);
    }
    if !l.verbose {
      ApartFromLines(d.files, k);
    }
  }

  lemma BesideAside(l: Ledger, modelCall: string, packed: bool, c: Ledger, d: Ledger)
    requires Beside(l, modelCall, packed, c, d)
    ensures d.files == c.files.(contexts := d.files.contexts, preview := d.files.preview)
  {
  }

  lemma ApartFromLines(f: RunFiles, k: nat)
    requires ApartBut(f, k) && k == |f.contexts|
    ensures Distinct(f.contexts) && forall s: Stream :: s != Contexts ==> Apart(Get(f, s), f.contexts)
  {
    forall s: Stream, r, t | s != Contexts && r in Get(f, s) && t in f.contexts
      ensures r.sequence != t.sequence
    {
      assert Carried(f, r.sequence);
      var i :| 0 <= i < |f.contexts| && f.contexts[i] == t;
    }
  }

  /** The crash left a file: it is the one that can repeat. */
  lemma FiledGroup(l: Ledger, modelCall: string, packed: bool, c: Ledger, d: Ledger)
    requires l.verbose && Sequenced(l.files, l.sequence) && Sequenced(c.files, c.sequence)
        && Beside(l, modelCall, packed, c, d)
    requires ApartBut(d.files, |l.files.contexts|)
    requires Sequenced(d.files.(contexts := [], preview := None), c.sequence)
    ensures HasFault(d.files, RepeatedSequence) <==> Taken(l, d.files, l.sequence + 1)
  {
    hide HasFault, Sequenced, Carried, Stamps;
    var f, n, k := d.files, l.sequence + 1, |l.files.contexts|;
    var left := Left(l, modelCall);
    assert f.contexts[k] == left[k] && f.contexts[k].sequence == n;
    forall i | 0 <= i < k
      ensures f.contexts[i].sequence != n
    {
      OldContexts(l.files, l.sequence);
      assert f.contexts[i] == left[i] == l.files.contexts[i] && l.files.contexts[i] in l.files.contexts;
    }
    if Carried(f, n) {
      OneRepeats(f, n, k);
    } else if i :| k < i < |f.contexts| && f.contexts[i].sequence == n {
      FileRepeats(f, k, i);
    } else {
      AllApart(f, n, k);
      GroupRepeats(f, c.sequence);
    }
  }

  lemma AllApart(f: RunFiles, n: nat, k: nat)
    requires k < |f.contexts| && f.contexts[k].sequence == n && ApartBut(f, k) && !Carried(f, n)
    requires forall i :: 0 <= i < |f.contexts| && i != k ==> f.contexts[i].sequence != n
    ensures Distinct(f.contexts) && forall s: Stream :: s != Contexts ==> Apart(Get(f, s), f.contexts)
  {
    forall s: Stream, r, t | s != Contexts && r in Get(f, s) && t in f.contexts
      ensures r.sequence != t.sequence
    {
      assert Carried(f, r.sequence);
      var i :| 0 <= i < |f.contexts| && f.contexts[i] == t;
    }
  }

  /** A context the checker reads repeats a number if some line carries it ... */
  lemma OneRepeats(f: RunFiles, n: nat, k: nat)
    requires k < |ContextGroup(f)| && ContextGroup(f)[k].sequence == n && Carried(f, n)
    ensures HasFault(f, RepeatedSequence)
  {
    CarriedInLines(f, n);
    var r :| r in Lines(f) && r.sequence == n;
    var i :| 0 <= i < |Lines(f)| && Lines(f)[i] == r;
    var all := AllRecords(f);
    assert all == Lines(f) + ContextGroup(f);
    assert all[i] == r && all[|Lines(f)| + k].sequence == n;
  }

  /** ... or another context does. */
  lemma FileRepeats(f: RunFiles, k: nat, i: nat)
    requires k < i < |f.contexts| && f.contexts[k].sequence == f.contexts[i].sequence
    ensures HasFault(f, RepeatedSequence)
  {
    var all, lines := AllRecords(f), |Lines(f)|;
    assert all == Lines(f) + f.contexts;
    assert all[lines + k] == f.contexts[k] && all[lines + i] == f.contexts[i];
  }

  lemma LineCarries(f: RunFiles, s: Stream, r: Record)
    requires s != Contexts && r in Get(f, s)
    ensures Carried(f, r.sequence)
  {
  }

  /** No files: the latest preview is what is read. */
  lemma PreviewGroup(l: Ledger, modelCall: string, ops: seq<Op>, c: Ledger, d: Ledger)
    requires Sequenced(c.files, c.sequence) && Beside(l, modelCall, Packs(ops), c, d) && d.files.contexts == []
    requires Sequenced(d.files.(contexts := [], preview := None), c.sequence)
    ensures HasFault(d.files, RepeatedSequence) <==> StillRead(l, d.files, ops) && Taken(l, d.files, l.sequence + 1)
  {
    hide HasFault, Carried, Packs, Stamps, Increasing, Within;
    var f, n := d.files, l.sequence + 1;
    LinesAlike(c.files, f);
    assert Left(l, modelCall) == [] && !l.verbose;
    assert f.preview.Some? && ContextGroup(f) == [f.preview.value];
    if !Packs(ops) && Carried(f, n) {
      OneRepeats(f, n, 0);
    } else {
      forall s: Stream, r | s != Contexts && r in Get(f, s)
        ensures r.sequence != f.preview.value.sequence
      {
        if Packs(ops) {
          assert Apart([c.files.preview.value], Get(c.files, s));
          assert c.files.preview.value in [c.files.preview.value];
        } else {
          LineCarries(f, s, r);
        }
      }
      GroupRepeats(f, c.sequence);
    }
  }

  lemma Sequences(l: Ledger)
    requires WellFormed(l)
    ensures Sequenced(l.files, l.sequence)
  {
  }

  lemma OldContexts(f: RunFiles, top: nat)
    requires Sequenced(f, top)
    ensures Distinct(f.contexts) && Within(f.contexts, top) && forall s: Stream :: s != Contexts ==>
        Apart(Get(f, s), f.contexts)
  {
    assert Get(f, Contexts) == f.contexts;
    assert Increasing(Get(f, Contexts)) && Within(Get(f, Contexts), top);
    forall s: Stream | s != Contexts
      ensures Apart(Get(f, s), f.contexts)
    {
      assert Apart(Get(f, s), Get(f, Contexts));
    }
  }

  // ---- counting the next writers' records --------------------------------------------------------

  /** Logging calls that take no number without writing a record for it. */
  predicate OnlyRecords(l: Ledger, op: Op) {
    !op.Begin? && !op.End? && (op.Pack? ==> l.verbose)
  }

  predicate OnlyRecordsRun(l: Ledger, ops: seq<Op>) {
    ops == [] || (OnlyRecordsRun(l, ops[..|ops| - 1]) && OnlyRecords(Run(l, ops[..|ops| - 1]), ops[|ops| - 1]))
  }

  /** The records on disk: lines and context files. */
  function Count(f: RunFiles): nat {
    |Lines(f)| + |f.contexts|
  }

  /** Some line or context file has the number. */
  ghost predicate Held(f: RunFiles, n: nat) {
    Carried(f, n) || exists r :: r in f.contexts && r.sequence == n
  }

  /** From `base` on every number is held by a record, the last by a line, and the records number the numbers. */
  ghost predicate Dense(l: Ledger, base: nat, count: nat) {
    && base <= l.sequence && l.sequence - base == Count(l.files) - count
    && (l.sequence > 0 ==> Carried(l.files, l.sequence))
    && forall n :: base <= n <= l.sequence && n > 0 ==> Held(l.files, n)
  }

  /** The same, but for what the last number is held by. */
  ghost predicate AlmostDense(l: Ledger, base: nat, count: nat) {
    && base <= l.sequence && l.sequence - base == Count(l.files) - count
    && forall n :: base <= n <= l.sequence && n > 0 ==> Held(l.files, n)
  }

  lemma AppendHeld(f: RunFiles, s: Stream, r: Record)
    ensures Count(Put(f, s, Get(f, s) + [r])) == Count(f) + 1
    ensures Held(Put(f, s, Get(f, s) + [r]), r.sequence)
    ensures s != Contexts ==> Carried(Put(f, s, Get(f, s) + [r]), r.sequence)
    ensures forall n: nat :: Held(f, n) ==> Held(Put(f, s, Get(f, s) + [r]), n)
  {
    var f' := Put(f, s, Get(f, s) + [r]);
    GetPut(f, s, Get(f, s) + [r]);
    assert r in Get(f', s);
    if s == Contexts {
      assert r in f'.contexts;
    }
    forall n: nat | Held(f, n)
      ensures Held(f', n)
    {
      if Carried(f, n) {
        var t: Stream, x :| t != Contexts && x in Get(f, t) && x.sequence == n;
        assert x in Get(f', t);
      }
    }
  }

  lemma AppendDense(l: Ledger, base: nat, count: nat, s: Stream, r: Record)
    requires AlmostDense(l, base, count) && r.sequence == l.sequence + 1
    ensures AlmostDense(Append(l, s, r), base, count)
    ensures s != Contexts ==> Dense(Append(l, s, r), base, count)
  {
    hide Held, Carried, Lines;
    AppendHeld(l.files, s, r);
  }

  lemma DenseIsAlmost(l: Ledger, base: nat, count: nat)
    requires Dense(l, base, count)
    ensures AlmostDense(l, base, count)
  {
  }

  /** Counters and the other files do not matter to it. */
  lemma DenseAlike(l: Ledger, l': Ledger, base: nat, count: nat)
    requires l'.sequence == l.sequence && l'.files.contexts == l.files.contexts
    requires l'.files.events == l.files.events && l'.files.decisions == l.files.decisions
        && l'.files.tools == l.files.tools
    requires l'.files.models == l.files.models && l'.files.mutations == l.files.mutations
    ensures Dense(l, base, count) ==> Dense(l', base, count)
    ensures AlmostDense(l, base, count) ==> AlmostDense(l', base, count)
  {
    forall n: nat
      ensures Carried(l'.files, n) <==> Carried(l.files, n)
      ensures Held(l'.files, n) <==> Held(l.files, n)
    {
      CarriedInLines(l.files, n);
      CarriedInLines(l'.files, n);
    }
  }

  lemma EventDense(l: Ledger, base: nat, count: nat, kind: string, fields: Fields)
    requires AlmostDense(l, base, count)
    ensures Dense(LogEvent(l, kind, fields), base, count)
  {
    hide Dense, AlmostDense, NumberedId;
    var r := Event(l.sequence + 1, EventId(l.eventSeq), kind, fields);
    AppendDense(l, base, count, Events, r);
    DenseAlike(Append(l, Events, r), LogEvent(l, kind, fields), base, count);
  }

  /** A record in some stream, and the event announcing it. */
  lemma PairDense(l: Ledger, base: nat, count: nat, s: Stream, r: Record, l': Ledger, kind: string)
    requires Dense(l, base, count) && r.sequence == l.sequence + 1
    requires l'.sequence == r.sequence && l'.files == Append(l, s, r).files.(preview := l'.files.preview)
    ensures Dense(LogEvent(l', kind, NoFields), base, count)
  {
    hide Dense, AlmostDense, LogEvent;
    DenseIsAlmost(l, base, count);
    AppendDense(l, base, count, s, r);
    DenseAlike(Append(l, s, r), l', base, count);
    EventDense(l', base, count, kind, NoFields);
  }

  lemma ModelFinishedDense(l: Ledger, base: nat, count: nat, role: string, model: string, id: string, failed: bool)
    requires Dense(l, base, count)
    ensures Dense(LogModelFinished(l, role, model, id, failed), base, count)
  {
    hide Dense, AlmostDense, LogEvent, LatestOpen;
    DenseIsAlmost(l, base, count);
    EventDense(l, base, count, "exception_recorded", NoFields);
    var callId := if id != "" then id else LatestOpen(l.files.models, ClosedIds(l.files.models), role, model);
    var l' := if failed then LogEvent(l, "exception_recorded", NoFields) else l;
    var r := ModelClosed(l'.sequence + 1, callId, role, model, failed);
    PairDense(l', base, count, Models, r, Append(l', Models, r),
              if failed then "model_call_failed" else "model_response_received");
  }

  lemma FieldsDense(l: Ledger, base: nat, count: nat, op: Op)
    requires Dense(l, base, count) && (op.CommandBegin? || op.CommandEnd? || op.Respond?)
    ensures Dense(Apply(l, op), base, count)
  {
    hide Dense, AlmostDense, LogEvent, NumberedId;
    DenseIsAlmost(l, base, count);
    match op {
      case CommandBegin(command) =>
        var begun := l.(commandSeq := l.commandSeq + 1);
        DenseAlike(l, begun, base, count);
        EventDense(begun, base, count, "command_started",
                   NoFields.(command := command, commandId := CommandId(l.commandSeq)));
      case CommandEnd(id, command, exitCode, keep) =>
        var kept := if keep && "cmd_" <= id then l.files.keptCommands + {id} else l.files.keptCommands;
        var ended := l.(files := l.files.(keptCommands := kept));
        DenseAlike(l, ended, base, count);
        EventDense(ended, base, count, "command_finished", Fields(exitCode, "", command, [], id));
      case Respond(output) =>
        var l1 := l.(files := l.files.(finalOutput := Some(output)));
        DenseAlike(l, l1, base, count);
        EventDense(l1, base, count, "final_response_written", NoFields);
        DenseAlike(LogEvent(l1, "final_response_written", NoFields), RecordFinalResponse(l, output), base, count);
    }
  }

  lemma ReopenDense(l: Ledger, base: nat, count: nat, verbose: bool)
    requires Dense(l, base, count) && Sequenced(l.files, l.sequence)
    ensures Dense(Open(l.files, verbose), base, count)
  {
    if l.sequence > 0 {
      var s: Stream, r :| s != Contexts && r in Get(l.files, s) && r.sequence == l.sequence;
      MaxSequenceBounds(l.files, s, r);
    }
    HighestBelow(l.files, l.sequence);
    DenseAlike(l, Open(l.files, verbose), base, count);
  }

  lemma HighestBelow(f: RunFiles, top: nat)
    requires Sequenced(f, top)
    ensures MaxSequence(f) <= top
  {
    hide Increasing, Apart;
    StreamBelow(Get(f, Events), top);
    StreamBelow(Get(f, Decisions), top);
    StreamBelow(Get(f, Tools), top);
    StreamBelow(Get(f, Models), top);
    StreamBelow(Get(f, Mutations), top);
  }

  lemma StreamBelow(rs: seq<Record>, top: nat)
    requires Within(rs, top)
    ensures MaxStamp(rs) <= top
  {
    MaxStampBounds(rs);
  }

  lemma StepDense(l: Ledger, base: nat, count: nat, op: Op)
    requires Dense(l, base, count) && OnlyRecords(l, op) && Sequenced(l.files, l.sequence)
    ensures Dense(Apply(l, op), base, count)
  {
    hide Dense, AlmostDense, Sequenced, LogEvent, NumberedId, Open, LogModelFinished, LogCommandStart, LogCommandFinish;
    hide RecordFinalResponse, MaxSequence;
    DenseIsAlmost(l, base, count);
    match op {
      case Note(kind, fields) => EventDense(l, base, count, kind, fields);
      case Decide(decision) =>
        var r := Decision(l.sequence + 1, DecisionId(l.decisionSeq), decision);
        PairDense(l, base, count, Decisions, r, Bump(Append(l, Decisions, r), Decisions, r), "decision_recorded");
      case Call(tool, path) =>
        var r := ToolCalled(l.sequence + 1, ToolId(l.toolSeq), tool, path);
        PairDense(l, base, count, Tools, r, Bump(Append(l, Tools, r), Tools, r), "tool_called");
      case Result(id, tool, ok) =>
        var r := ToolFinished(l.sequence + 1, id, tool, ok);
        PairDense(l, base, count, Tools, r, Append(l, Tools, r), "tool_finished");
      case Ask(role, model) =>
        var r := ModelStarted(l.sequence + 1, ModelId(l.modelSeq), role, model);
        PairDense(l, base, count, Models, r, Bump(Append(l, Models, r), Models, r), role + "_model_called");
      case Answer(role, model, id, failed) => ModelFinishedDense(l, base, count, role, model, id, failed);
      case Think(id, role, model, blank) =>
        if !blank {
          var r := ModelThinking(l.sequence + 1, id, role, model);
          PairDense(l, base, count, Models, r, Append(l, Models, r), "model_thinking_captured");
        }
      case Mutate(transaction, status) =>
        var r := Mutation(l.sequence + 1, transaction, status);
        PairDense(l, base, count, Mutations, r, Append(l, Mutations, r),
                  if status in {"applied", "rolled_back"} then "mutation_finished" else "mutation_failed");
      case Pack(modelCall) =>
        var r := Context(l.sequence + 1, ContextId(l.contextSeq), modelCall);
        PairDense(l, base, count, Contexts, r, WriteContext(l, modelCall), "context_pack_built");
      case Reopen(verbose) => ReopenDense(l, base, count, verbose);
      case _ => FieldsDense(l, base, count, op);
    }
  }

  lemma {:induction false} RunDense(l: Ledger, ops: seq<Op>)
    requires WellFormed(l) && l.sequence == MaxSequence(l.files) && OnlyRecordsRun(l, ops)
    ensures Dense(Run(l, ops), l.sequence, Count(l.files))
  {
    if ops == [] {
      HighestCarried(l.files);
    } else {
      hide Apply, WellFormed, Dense, OnlyRecords, MaxSequence, Count;
      var init, last := ops[..|ops| - 1], ops[|ops| - 1];
      RunDense(l, init);
      RunKeeps(l, init);
      Sequences(Run(l, init));
      StepDense(Run(l, init), l.sequence, Count(l.files), last);
    }
  }

  lemma HighestCarried(f: RunFiles)
    ensures MaxSequence(f) > 0 ==> Carried(f, MaxSequence(f))
  {
    CarriedInLines(f, MaxSequence(f));
    HighestIn(f.events);
    HighestIn(f.decisions);
    HighestIn(f.tools);
    HighestIn(f.models);
    HighestIn(f.mutations);
  }

  lemma HighestIn(rs: seq<Record>)
    ensures MaxStamp(rs) > 0 ==> exists r :: r in rs && r.sequence == MaxStamp(rs)
  {
    MaxStampBounds(rs);
  }

  /**
    In numbers, for later calls that start and end no run and announce contexts only in
    writers that keep them: if the dying writer had run ahead of the lines on disk by some
    numbers, as it does after ending a run, that many later records are safe, and the one
    after them repeats the context's number.
   */
  lemma ContextCrashCounts(l: Ledger, modelCall: string, verbose: bool, ops: seq<Op>)
    requires WellFormed(l) && OnlyRecordsRun(Open(l.files, verbose), ops)
    ensures
      var crashed := WriteContext(l, modelCall).files;
      var f := Run(Open(crashed, verbose), ops).files;
      HasFault(f, RepeatedSequence) <==>
        StillRead(l, f, ops) && Count(f) - Count(crashed) > l.sequence - MaxSequence(l.files)
  {
    hide Run, WellFormed, HasFault, Openings, StillRead, Taken, Beside, Dense, OnlyRecordsRun, Count;
    var start, crashed := Open(l.files, verbose), WriteContext(l, modelCall).files;
    var clean, dirty := Run(start, ops), Run(Open(crashed, verbose), ops);
    ContextCrashRepeatsExactly(l, modelCall, verbose, ops);
    RunBeside(l, modelCall, verbose, ops);
    ReopenKeeps(l, verbose);
    RunDense(start, ops);
    RunKeeps(start, ops);
    Sequences(clean);
    Sequences(l);
    HighestBelow(l.files, l.sequence);
    TakenInTime(l, modelCall, Packs(ops), clean, dirty, start.sequence);
    ReadMeans(l, dirty.files, ops);
  }

  lemma ReadMeans(l: Ledger, f: RunFiles, ops: seq<Op>)
    ensures StillRead(l, f, ops) ==> l.verbose || f.contexts == []
  {
  }

  lemma CountBeside(l: Ledger, modelCall: string, packed: bool, c: Ledger, d: Ledger)
    requires Beside(l, modelCall, packed, c, d)
    ensures Count(d.files) - Count(WriteContext(l, modelCall).files) == Count(c.files) - Count(l.files)
  {
    assert |Stamps(c.files.contexts[|l.files.contexts|..])| == |Stamps(d.files.contexts[|Left(l, modelCall)|..])|;
  }

  lemma TakenInTime(l: Ledger, modelCall: string, packed: bool, c: Ledger, d: Ledger, base: nat)
    requires Beside(l, modelCall, packed, c, d) && Dense(c, base, Count(l.files)) && base <= l.sequence
    requires Sequenced(c.files, c.sequence) && Sequenced(l.files, l.sequence)
    ensures l.verbose || d.files.contexts == [] ==>
              (Taken(l, d.files, l.sequence + 1) <==>
                Count(d.files) - Count(WriteContext(l, modelCall).files) > l.sequence - base)
  {
    hide Increasing, Apart, Stamps, Lines, Left;
    var n := l.sequence + 1;
    CountBeside(l, modelCall, packed, c, d);
    BesideAside(l, modelCall, packed, c, d);
    LinesAlike(c.files, d.files);
    if l.verbose || d.files.contexts == [] {
      LaterFiles(l, modelCall, packed, c, d, n);
      if Held(c.files, n) {
        HeldBelow(c.files, c.sequence, n);
      }
    }
  }

  /** A number above the old ones is held in the clean run exactly if a line or a later file takes it in the other. */
  lemma LaterFiles(l: Ledger, modelCall: string, packed: bool, c: Ledger, d: Ledger, n: nat)
    requires Beside(l, modelCall, packed, c, d) && Sequenced(l.files, l.sequence) && n == l.sequence + 1
    requires l.verbose || d.files.contexts == []
    ensures Held(c.files, n) <==> Taken(l, d.files, n)
  {
    hide Increasing, Apart, Stamps, Carried;
    BesideAside(l, modelCall, packed, c, d);
    LinesAlike(c.files, d.files);
    OldContexts(l.files, l.sequence);
    SameLengths(l, modelCall, packed, c, d);
    assert forall q :: 0 <= q < |l.files.contexts| ==>
             c.files.contexts[q] == l.files.contexts[q] && l.files.contexts[q] in l.files.contexts;
    if r :| r in c.files.contexts && r.sequence == n {
      var p :| 0 <= p < |c.files.contexts| && c.files.contexts[p] == r;
      PartnerStamp(l, modelCall, packed, c, d, p + 1);
    }
    if i :| |l.files.contexts| < i < |d.files.contexts| && d.files.contexts[i].sequence == n {
      PartnerStamp(l, modelCall, packed, c, d, i);
      assert c.files.contexts[Partner(l, i)] in c.files.contexts;
    }
  }

  lemma SameLengths(l: Ledger, modelCall: string, packed: bool, c: Ledger, d: Ledger)
    requires Beside(l, modelCall, packed, c, d)
    ensures |d.files.contexts| - |Left(l, modelCall)| == |c.files.contexts| - |l.files.contexts|
    ensures |Left(l, modelCall)| == |l.files.contexts| + if l.verbose then 1 else 0
  {
    assert |Stamps(c.files.contexts[|l.files.contexts|..])| == |Stamps(d.files.contexts[|Left(l, modelCall)|..])|;
  }

  lemma HeldBelow(f: RunFiles, top: nat, n: nat)
    requires Sequenced(f, top) && Held(f, n)
    ensures n <= top
  {
    hide Increasing, Apart;
    if Carried(f, n) {
      var s: Stream, r :| s != Contexts && r in Get(f, s) && r.sequence == n;
      assert Within(Get(f, s), top);
    } else {
      assert Within(Get(f, Contexts), top);
    }
  }
}
